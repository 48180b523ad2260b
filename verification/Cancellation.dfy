/** A customer cancels an order or asks for a refund, with nothing else going on. */
module Cancellation {
  import opened Wrappers
  import opened Orders
  import opened Sums
  import opened Store
  import opened Database
  import opened Inventory

  // ---------------------------------------------------------------- cancelling

  datatype CancelRefusal = NoSuchOrder | NotCancellable

  predicate CanCancel(db: Db, o: nat) {
    OrderAt(db, o).Some? &&
    var order := OrderAt(db, o).value;
    && order.status in {Pending, Confirmed}
    && (order.payment in {Unpaid, Failed} || (order.payment in {Paid, Authorized} && order.refund == NoRefund))
  }

  /** Whether the customer's money has to go back. */
  predicate Captured(db: Db, o: nat) {
    OrderAt(db, o).Some? && OrderAt(db, o).value.payment in {Paid, Authorized}
  }

  /** The order is cancelled, and its refund opened if the payment was captured; no other order changes. */
  predicate TurnedOnly(before: Db, db: Db, o: nat, time: int) {
    && OrderAt(before, o).Some? && OrderAt(db, o).Some?
    && |db.orders| == |before.orders|
    && (forall i :: 0 <= i < |db.orders| && i != o ==> db.orders[i] == before.orders[i])
    && db.orders[o].value.status == Cancelled && db.orders[o].value.payment == before.orders[o].value.payment
    && Moves(before.orders[o].value, db.orders[o].value)
    && (Captured(before, o) <==> before.orders[o].value.refund == NoRefund && db.orders[o].value.refund == Requested)
    && db.orders[o].value ==
       (if Captured(before, o) then
          before.orders[o].value.(status := Cancelled, refund := Requested, refundRequestedAt := Some(time),
                                  updatedAt := time)
        else before.orders[o].value.(status := Cancelled, updatedAt := time))
  }

  /** Exactly the order's active rows are released, and exactly their units are back on the shelves. */
  predicate StockReturned(before: Db, db: Db, o: nat) {
    && |db.reservations| == |before.reservations|
    && (forall r :: 0 <= r < |db.reservations| ==>
        db.reservations[r] == ReleasedRow(before.reservations[r], o, Released))
    && HoldsNothing(db, o)
    && db.products.Keys == before.products.Keys
    && (forall p :: p in before.products ==>
        StockOf(db, p) == StockOf(before, p) + Sum(before.reservations, UnitsFor(o, p)))
  }

  /** What one cancellation changes: the order, its reservations, the shelves and the announcements. */
  predicate CancelledFrom(before: Db, db: Db, o: nat, time: int) {
    && TurnedOnly(before, db, o, time) && StockReturned(before, db, o)
    && db.events == before.events + [DomainEvent(OrderCancelled, o)]
       + (if Captured(before, o) then [DomainEvent(RefundWasRequested, o)] else [])
    && db.coupons == before.coupons && db.redemptions == before.redemptions && db.payments == before.payments
    && db.carts == before.carts
  }

  lemma OrderTurned(before: Db, db: Db, o: nat, time: int, u: Update)
    requires u in {CancelUnpaid(time), CancelPaid(time)} && CanUpdate(before, o, u)
    requires db.orders == UpdateOrder(before, o, u).orders
    requires Consistent(OrderAt(before, o).value)
    ensures TurnedOnly(before, db, o, time) && (u.CancelPaid? <==> Captured(before, o))
  {
    UpdateKeepsConsistent(before.orders[o].value, u);
  }

  lemma Returned(before: Db, o: nat)
    ensures StockReturned(before, ReleaseOrder(before, o, Released), o)
            && SameElsewhere(before, ReleaseOrder(before, o, Released))
  {
    ReleaseOrderExact(before, o, Released);
  }

  /** Only the rows and the shelves matter. */
  lemma ReturnedAlike(a: Db, a': Db, b: Db, b': Db, o: nat)
    requires StockReturned(a, a', o)
    requires a.reservations == b.reservations && a.products == b.products
    requires a'.reservations == b'.reservations && a'.products == b'.products
    ensures StockReturned(b, b', o)
  {
  }

  function Announced(db: Db, o: nat, refund: bool): Db {
    var cancelled := InsertEvent(db, DomainEvent(OrderCancelled, o));
    if refund then InsertEvent(cancelled, DomainEvent(RefundWasRequested, o)) else cancelled
  }

  lemma CancelAmounts(before: Db, o: nat, time: int, u: Update)
    requires u in {CancelUnpaid(time), CancelPaid(time)} && CanUpdate(before, o, u)
    requires Consistent(OrderAt(before, o).value)
    ensures var done := Announced(ReleaseOrder(UpdateOrder(before, o, u), o, Released), o, u.CancelPaid?);
            CancelledFrom(before, done, o, time) && !CanCancel(done, o)
  {
    var turned := UpdateOrder(before, o, u);
    var released := ReleaseOrder(turned, o, Released);
    var done := Announced(released, o, u.CancelPaid?);
    Returned(turned, o);
    ReturnedAlike(turned, released, before, done, o);
    OrderTurned(before, done, o, time, u);
    assert before.events + [DomainEvent(OrderCancelled, o)] + [] == before.events + [DomainEvent(OrderCancelled, o)];
  }

  function CancelUpdate(refund: bool, time: int): Update {
    if refund then CancelPaid(time) else CancelUnpaid(time)
  }

  /** The two conditional updates, for an order that is not paid for and for one that is. */
  method TurnCancelled(db: Collections, o: nat, time: int) returns (cancelled: bool, refund: bool)
    modifies db
    ensures cancelled <==> CanCancel(old(db.Now()), o)
    ensures cancelled ==> CanUpdate(old(db.Now()), o, CancelUpdate(refund, time))
                          && db.Now() == UpdateOrder(old(db.Now()), o, CancelUpdate(refund, time))
                          && refund == Captured(old(db.Now()), o)
    ensures !cancelled ==> db.Now() == old(db.Now())
  {
    var order := db.UpdateIf(o, CancelUnpaid(time));
    refund := order.None?;
    if order.None? {
      order := db.UpdateIf(o, CancelPaid(time));
    }
    cancelled := order.Some?;
  }

  /**
   * A pending or confirmed order is cancelled once: a captured payment opens its refund, everything it
   * held goes back on the shelf, and it cannot be cancelled again. Any other order is left alone.
   */
  method Cancel(db: Collections, o: nat, time: int) returns (r: Result<bool, CancelRefusal>)
    requires OrderAt(db.Now(), o).Some? ==> Consistent(OrderAt(db.Now(), o).value)
    modifies db
    ensures r.Ok? <==> CanCancel(old(db.Now()), o)
    ensures r.Err? ==> db.Now() == old(db.Now()) && (r.error == NoSuchOrder <==> OrderAt(db.Now(), o).None?)
    ensures r.Ok? ==> r.value == Captured(old(db.Now()), o) && CancelledFrom(old(db.Now()), db.Now(), o, time)
    ensures r.Ok? ==> !CanCancel(db.Now(), o)
  {
    ghost var before := db.Now();
    var cancelled, refundOpened := TurnCancelled(db, o, time);
    if !cancelled {
      return Err(if OrderAt(db.Now(), o).None? then NoSuchOrder else NotCancellable);
    }
    CancelAmounts(before, o, time, CancelUpdate(refundOpened, time));
    var released := ReleaseOrderReservations(db, o, Released);
    db.RecordEvent(DomainEvent(OrderCancelled, o));
    if refundOpened {
      db.RecordEvent(DomainEvent(RefundWasRequested, o));
    }
    return Ok(refundOpened);
  }

  // ---------------------------------------------------------------- asking for a refund

  /** When the refund window of an order began: at its delivery, or at its last change if that was not recorded. */
  function WindowBegan(o: Order): int {
    if o.deliveredAt.Some? then o.deliveredAt.value else o.updatedAt
  }

  /** What a refusal says about the order; the first condition that is missed is named. */
  predicate RefundRefusedFor(e: RefundRefusal, o: Order, windowStart: int) {
    match e
    case AlreadyRequested => o.refund != NoRefund
    case NotPaid => o.refund == NoRefund && o.payment != Paid
    case NotDelivered => o.refund == NoRefund && o.payment == Paid && o.status != Delivered
    case WindowPassed =>
      o.refund == NoRefund && o.payment == Paid && o.status == Delivered && WindowBegan(o) < windowStart
    case ChangedMeanwhile => false
  }

  /** A delivered, paid order without a refund whose window is still open. */
  predicate MayAskRefund(o: Order, windowStart: int) {
    && o.refund == NoRefund && o.payment == Paid && o.status == Delivered
    && (match o.deliveredAt case Some(at) => windowStart <= at case None => windowStart <= o.updatedAt)
  }

  lemma RefusedOrAsked(o: Order, time: int, windowStart: int)
    ensures Matches(o, RequestRefund(time, windowStart)) <==> MayAskRefund(o, windowStart)
    ensures !MayAskRefund(o, windowStart) ==> RefundRefusedFor(RefundRejection(o, windowStart), o, windowStart)
  {
  }

  /** What one refund request changes: the refund of its order and the announcements. */
  predicate RefundAsked(before: Db, db: Db, o: nat, time: int) {
    && OrderAt(before, o).Some? && |db.orders| == |before.orders|
    && OrderAt(db, o) == Some(OrderAt(before, o).value.(refund := Requested, refundRequestedAt := Some(time),
                                                        updatedAt := time))
    && (forall other :: 0 <= other < |db.orders| && other != o ==> db.orders[other] == before.orders[other])
    && db == before.(orders := db.orders, events := before.events + [DomainEvent(RefundWasRequested, o)])
  }

  /** A later delivery, or a window that opens earlier, never turns an accepted request into a refusal. */
  lemma LaterIsNoWorse(o: Order, o': Order, windowStart: int, windowStart': int)
    requires MayAskRefund(o, windowStart) && windowStart' <= windowStart
    requires o'.refund == o.refund && o'.payment == o.payment && o'.status == o.status
    requires WindowBegan(o) <= WindowBegan(o')
    ensures MayAskRefund(o', windowStart')
  {
  }

  /**
   * A delivered, paid order without a refund gets one exactly while its window is open; a refusal changes
   * nothing, names the first condition that is missed, and never claims that the order changed
   * meanwhile, since here nothing else runs.
   */
  method AskRefund(db: Collections, o: nat, time: int, windowStart: int) returns (r: Result<(), Option<RefundRefusal>>)
    requires OrderAt(db.Now(), o).Some? ==> Consistent(OrderAt(db.Now(), o).value)
    modifies db
    ensures r.Ok? <==> OrderAt(old(db.Now()), o).Some? && MayAskRefund(OrderAt(old(db.Now()), o).value, windowStart)
    ensures r.Err? ==> db.Now() == old(db.Now()) && (r.error.None? <==> OrderAt(db.Now(), o).None?)
    ensures r.Err? && r.error.Some? ==> RefundRefusedFor(r.error.value, OrderAt(db.Now(), o).value, windowStart)
    ensures r.Ok? ==>
              && RefundAsked(old(db.Now()), db.Now(), o, time)
              && Moves(OrderAt(old(db.Now()), o).value, OrderAt(db.Now(), o).value)
              && !MayAskRefund(OrderAt(db.Now(), o).value, windowStart)
  {
    ghost var before := db.Now();
    var order := db.UpdateIf(o, RequestRefund(time, windowStart));
    if order.None? {
      var current := OrderAt(db.Now(), o);
      if current.None? { return Err(None); }
      RefusedOrAsked(current.value, time, windowStart);
      return Err(Some(RefundRejection(current.value, windowStart)));
    }
    RefusedOrAsked(before.orders[o].value, time, windowStart);
    UpdateKeepsConsistent(before.orders[o].value, RequestRefund(time, windowStart));
    db.RecordEvent(DomainEvent(RefundWasRequested, o));
    return Ok(());
  }
}
