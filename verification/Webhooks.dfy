/** Payment webhooks: one delivery, repeated deliveries, and deliveries that are cut off half-way. */
module Webhooks {
  import opened Wrappers
  import opened Orders
  import opened Sums
  import opened Store
  import opened Database
  import opened Inventory
  import Checkout

  datatype Answer = Replay | Accepted | NotFound | PaidOnCancelled | BadTransition | Thrown

  // ---------------------------------------------------------------- one delivery

  function Verdict(db: Db, e: PaymentEvent): Answer {
    if KnownEvent(db, e.provider, e.eventId, e.digest) then Replay
    else match OrderAt(db, e.order)
      case None => NotFound
      case Some(o) =>
        if o.status == Cancelled && e.target == Paid then PaidOnCancelled
        else if !CanTransitionPayment(o.payment, e.target) then BadTransition
        else Accepted
  }

  /** The order update, skipped when the order already has the outcome. */
  function Moved(db: Db, e: PaymentEvent, now: int): Db
    requires OrderAt(db, e.order).Some?
  {
    var o := OrderAt(db, e.order).value;
    if o.payment == e.target then db
    else UpdateOrder(db, e.order, Settle(o.payment, o.status, e.target, EventType(e.target), now))
  }

  function StockDone(db: Db, e: PaymentEvent): Db {
    if e.target == Paid then CommitReservations(db, e.order) else ReleaseOrder(db, e.order, Released)
  }

  function Deliver(db: Db, e: PaymentEvent, now: int): Db {
    if Verdict(db, e) == Accepted then InsertPayment(StockDone(Moved(db, e, now), e), e) else db
  }

  /** The stock work when only its first `n` calls went through; no call is half done. */
  function StockCut(db: Db, e: PaymentEvent, n: nat): Db {
    if e.target == Paid then (if n == 0 then db else CommitReservations(db, e.order))
    else
      var ids := FindActive(db.reservations, e.order);
      ReleaseRows(db, if n < |ids| then ids[..n] else ids, Released)
  }

  /** The state when only the first `k` calls of the transaction body went through. */
  function CutOff(db: Db, e: PaymentEvent, now: int, k: nat): Db {
    if Verdict(db, e) != Accepted || k == 0 then db else StockCut(Moved(db, e, now), e, k - 1)
  }

  // ---------------------------------------------------------------- what a delivery means

  /** The event's id or its signed content is on record. */
  predicate OnRecord(db: Db, e: PaymentEvent) {
    exists i :: 0 <= i < |db.payments|
                && (db.payments[i].digest == e.digest
                    || (db.payments[i].provider == e.provider && db.payments[i].eventId == e.eventId))
  }

  /** The payment states in which an outcome may arrive, its own included. */
  function Awaiting(target: PaymentStatus): set<PaymentStatus> {
    match target
    case Paid => {Unpaid, Authorized, Paid}
    case Failed => {Unpaid, Authorized, Failed}
    case Refunded => {Authorized, Paid, Refunded}
    case _ => {}
  }

  /** Which answer fits the event, from its fields and the order's. */
  predicate Fits(answer: Answer, db: Db, e: PaymentEvent) {
    match answer
    case Replay => OnRecord(db, e)
    case NotFound => !OnRecord(db, e) && OrderAt(db, e.order).None?
    case PaidOnCancelled =>
      !OnRecord(db, e) && OrderAt(db, e.order).Some? && OrderAt(db, e.order).value.status == Cancelled
        && e.target == Paid
    case BadTransition =>
      && !OnRecord(db, e) && OrderAt(db, e.order).Some?
      && !(OrderAt(db, e.order).value.status == Cancelled && e.target == Paid)
      && OrderAt(db, e.order).value.payment !in Awaiting(e.target)
    case Accepted =>
      && !OnRecord(db, e) && OrderAt(db, e.order).Some?
      && !(OrderAt(db, e.order).value.status == Cancelled && e.target == Paid)
      && OrderAt(db, e.order).value.payment in Awaiting(e.target)
    case Thrown => false
  }

  lemma VerdictFits(db: Db, e: PaymentEvent)
    requires e.target in {Paid, Failed, Refunded}
    ensures Fits(Verdict(db, e), db, e)
  {
    if OnRecord(db, e) {
      var i :| 0 <= i < |db.payments|
        && (db.payments[i].digest == e.digest
            || (db.payments[i].provider == e.provider && db.payments[i].eventId == e.eventId));
      assert SameEvent(db.payments[i], e.provider, e.eventId, e.digest);
    }
    assert KnownEvent(db, e.provider, e.eventId, e.digest) <==> OnRecord(db, e);
  }

  /** The order after an accepted delivery; one that already has the outcome stays as it is. */
  predicate OrderSettled(o: Order, o': Order, e: PaymentEvent, now: int) {
    if o.payment == e.target then o' == o
    else
      && o'.payment == e.target
      && o'.status == (if e.target == Paid && o.status == Pending then Confirmed else o.status)
      && o'.refund == (if e.target == Refunded then Processed else o.refund)
      && |o'.history| == |o.history| + 1 && o.history <= o'.history
      && o'.history[|o.history|] == Entry(o.payment, e.target,
                                          if e.target == Paid then "payment.succeeded"
                                          else if e.target == Failed then "payment.failed" else "payment.refunded")
      && o' == o.(payment := o'.payment, status := o'.status, refund := o'.refund, history := o'.history,
                  updatedAt := now)
  }

  /** A row after an accepted delivery: paid rows are committed, those of a failed or refunded order released. */
  function SettledRow(r: Reservation, e: PaymentEvent): Reservation {
    if r.order != Some(e.order) then r
    else if e.target == Paid then (if r.status == Reserved then r.(status := Committed) else r)
    else if r.status == Reserved || r.status == Committed then r.(status := Released)
    else r
  }

  /** Units of a product that the delivery puts back. */
  function UnitsBack(e: PaymentEvent, product: int): Reservation -> int {
    (r: Reservation) =>
      if e.target != Paid && r.order == Some(e.order) && r.status in {Reserved, Committed} && r.product == product
         then r.quantity else 0
  }

  /** What one accepted delivery changes, collection by collection. */
  predicate Delivered(before: Db, db: Db, e: PaymentEvent, now: int) {
    && db.payments == before.payments + [e]
    && OrderAt(before, e.order).Some? && OrderAt(db, e.order).Some? && |db.orders| == |before.orders|
    && OrderSettled(before.orders[e.order].value, db.orders[e.order].value, e, now)
    && (forall o :: 0 <= o < |db.orders| && o != e.order ==> db.orders[o] == before.orders[o])
    && |db.reservations| == |before.reservations|
    && (forall r :: 0 <= r < |db.reservations| ==> db.reservations[r] == SettledRow(before.reservations[r], e))
    && db.products.Keys == before.products.Keys
    && (forall p :: p in before.products ==>
          StockOf(db, p) == StockOf(before, p) + Sum(before.reservations, UnitsBack(e, p)))
    && db.coupons == before.coupons && db.redemptions == before.redemptions && db.events == before.events
    && db.carts == before.carts
  }

  lemma RowsSettled(db: Db, e: PaymentEvent)
    requires e.target in {Paid, Failed, Refunded}
    ensures var db' := StockDone(db, e);
            && |db'.reservations| == |db.reservations|
            && (forall r :: 0 <= r < |db.reservations| ==> db'.reservations[r] == SettledRow(db.reservations[r], e))
            && db' == db.(reservations := db'.reservations, products := db'.products)
            && db'.products.Keys == db.products.Keys
  {
    if e.target != Paid { ReleaseOrderExact(db, e.order, Released); }
  }

  lemma StockSettled(db: Db, e: PaymentEvent, product: int)
    requires product in db.products
    ensures var db' := StockDone(db, e);
            StockOf(db', product) == StockOf(db, product) + Sum(db.reservations, UnitsBack(e, product))
  {
    if e.target == Paid {
      SumZero(db.reservations, UnitsBack(e, product));
    } else {
      ReleaseOrderExact(db, e.order, Released);
      SumSame(db.reservations, db.reservations, UnitsFor(e.order, product), UnitsBack(e, product));
    }
  }

  lemma OrderIsSettled(db: Db, e: PaymentEvent, now: int)
    requires Verdict(db, e) == Accepted
    ensures var db' := Moved(db, e, now);
            && OrderAt(db', e.order).Some? && |db'.orders| == |db.orders|
            && OrderSettled(db.orders[e.order].value, db'.orders[e.order].value, e, now)
            && (forall o :: 0 <= o < |db.orders| && o != e.order ==> db'.orders[o] == db.orders[o])
            && db' == db.(orders := db'.orders)
  {
  }

  lemma AcceptedIsDelivered(db: Db, e: PaymentEvent, now: int)
    requires e.target in {Paid, Failed, Refunded} && Verdict(db, e) == Accepted
    ensures Delivered(db, Deliver(db, e, now), e, now)
  {
    var moved := Moved(db, e, now);
    OrderIsSettled(db, e, now);
    RowsSettled(moved, e);
    forall p | p in db.products
      ensures var done := StockDone(moved, e);
              StockOf(done, p) == StockOf(db, p) + Sum(db.reservations, UnitsBack(e, p))
    {
      StockSettled(moved, e, p);
    }
  }

  // ---------------------------------------------------------------- the method

  method ReleaseUntil(db: Collections, link: Checkout.Connection, order: nat) returns (done: bool, ghost n: nat)
    modifies db, link
    ensures n <= |FindActive(old(db.reservations), order)|
    ensures db.Now() == ReleaseRows(old(db.Now()), FindActive(old(db.reservations), order)[..n], Released)
    ensures done ==> n == |FindActive(old(db.reservations), order)|
    ensures !done ==> link.faults != {}
  {
    var ids := FindActive(db.reservations, order);
    ghost var before := db.Now();
    n := 0;
    var i := 0;
    while i < |ids|
      invariant 0 <= i <= |ids| && n == i
      invariant db.Now() == ReleaseRows(before, ids[..i], Released)
    {
      var ok := link.Call();
      if !ok { return false, n; }
      NextRow(before, order, Released, i);
      var flipped := ReleaseReservation(db, ids[i], Released, ACTIVE);
      i := i + 1;
      n := n + 1;
    }
    return true, n;
  }

  /**
   * Without a transaction a call that throws leaves the calls before it in place; with one it leaves
   * nothing. Otherwise the delivery does what `Deliver` says.
   */
  method ProcessWebhook(db: Collections, link: Checkout.Connection, e: PaymentEvent, now: int, session: bool)
    returns (answer: Answer, ghost k: nat)
    requires e.target in {Paid, Failed, Refunded}
    modifies db, link
    ensures answer != Thrown ==> answer == Verdict(old(db.Now()), e) && db.Now() == Deliver(old(db.Now()), e, now)
    ensures answer != Thrown ==> Fits(answer, old(db.Now()), e)
    ensures answer == Accepted ==> Delivered(old(db.Now()), db.Now(), e, now)
    ensures answer !in {Accepted, Thrown} ==> db.Now() == old(db.Now())
    ensures link.faults == {} ==> answer != Thrown
    ensures answer == Thrown ==> db.Now() == if session then old(db.Now()) else CutOff(old(db.Now()), e, now, k)
  {
    k := 0;
    var before := db.Now();
    VerdictFits(before, e);
    var ok := link.Call();
    if !ok { return Thrown, 0; }
    if KnownEvent(db.Now(), e.provider, e.eventId, e.digest) { return Replay, 0; }
    var order := OrderAt(db.Now(), e.order);
    if order.None? { return NotFound, 0; }
    if order.value.status == Cancelled && e.target == Paid { return PaidOnCancelled, 0; }
    if !CanTransitionPayment(order.value.payment, e.target) { return BadTransition, 0; }

    answer, k := SettleAndRecord(db, link, e, now, order.value);
    if answer == Accepted { AcceptedIsDelivered(before, e, now); }
    if answer == Thrown && session {
      Checkout.Rollback(db, before);
    }
  }

  /** Commit the order's reservations, or release them. */
  method SettleStock(db: Collections, link: Checkout.Connection, e: PaymentEvent) returns (done: bool, ghost n: nat)
    modifies db, link
    ensures db.Now() == StockCut(old(db.Now()), e, n)
    ensures done ==> db.Now() == StockDone(old(db.Now()), e)
    ensures !done ==> link.faults != {}
  {
    if e.target == Paid {
      n := 0;
      done := link.Call();
      if done {
        db.CommitOrderReservations(e.order);
        n := 1;
      }
    } else {
      ghost var ids := FindActive(db.reservations, e.order);
      assert ids[..|ids|] == ids;
      done, n := ReleaseUntil(db, link, e.order);
    }
  }

  /** The order update, skipped when the order already has the outcome. */
  method SettleOrder(db: Collections, e: PaymentEvent, now: int, order: Order)
    requires OrderAt(db.Now(), e.order) == Some(order)
    modifies db
    ensures db.Now() == Moved(old(db.Now()), e, now)
  {
    if order.payment != e.target {
      var moved := db.UpdateIf(e.order, Settle(order.payment, order.status, e.target, EventType(e.target), now));
    }
  }

  /** The body that runs in the transaction. */
  method SettleAndRecord(db: Collections, link: Checkout.Connection, e: PaymentEvent, now: int, order: Order)
    returns (answer: Answer, ghost k: nat)
    requires e.target in {Paid, Failed, Refunded}
    requires Verdict(db.Now(), e) == Accepted && OrderAt(db.Now(), e.order) == Some(order)
    modifies db, link
    ensures answer == Accepted ==> db.Now() == Deliver(old(db.Now()), e, now)
    ensures answer != Accepted ==> answer == Thrown && db.Now() == CutOff(old(db.Now()), e, now, k)
    ensures answer == Thrown ==> link.faults != {}
  {
    ghost var before := db.Now();
    k := 0;
    var ok := link.Call();
    if !ok { return Thrown, 0; }
    SettleOrder(db, e, now, order);
    var done;
    ghost var n;
    done, n := SettleStock(db, link, e);
    k := n + 1;
    CutIs(before, e, now, n);
    if !done { return Thrown, k; }
    ok := link.Call();
    if !ok { return Thrown, k; }
    NotYetRecorded(before, e, now);
    var duplicate := db.RecordPayment(e);
    return Accepted, k;
  }

  lemma CutIs(db: Db, e: PaymentEvent, now: int, n: nat)
    requires Verdict(db, e) == Accepted
    ensures CutOff(db, e, now, n + 1) == StockCut(Moved(db, e, now), e, n)
  {
  }

  /** Settling does not touch the payment records. */
  lemma SameRecords(db: Db, e: PaymentEvent, now: int)
    requires Verdict(db, e) == Accepted
    ensures StockDone(Moved(db, e, now), e).payments == db.payments
  {
    if e.target != Paid {
      ReleaseRowsExact(Moved(db, e, now), FindActive(Moved(db, e, now).reservations, e.order), Released);
    }
  }

  lemma NotYetRecorded(db: Db, e: PaymentEvent, now: int)
    requires Verdict(db, e) == Accepted
    ensures var done := StockDone(Moved(db, e, now), e);
            !KnownEvent(done, e.provider, e.eventId, e.digest) && InsertPayment(done, e) == Deliver(db, e, now)
  {
    SameRecords(db, e, now);
  }

  // ---------------------------------------------------------------- redelivery after a cut

  lemma {:induction false} ReleaseInParts(db: Db, xs: seq<nat>, ys: seq<nat>)
    ensures ReleaseRows(ReleaseRows(db, xs, Released), ys, Released) == ReleaseRows(db, xs + ys, Released)
  {
    if ys == [] {
      assert xs + ys == xs;
    } else {
      assert (xs + ys)[..|xs + ys| - 1] == xs + ys[..|ys| - 1];
      ReleaseInParts(db, xs, ys[..|ys| - 1]);
    }
  }

  lemma {:induction false} AscendingUnique(xs: seq<nat>, ys: seq<nat>)
    requires forall i, j :: 0 <= i < j < |xs| ==> xs[i] < xs[j]
    requires forall i, j :: 0 <= i < j < |ys| ==> ys[i] < ys[j]
    requires forall id: nat :: id in xs <==> id in ys
    ensures xs == ys
  {
    if xs != [] { assert xs[0] in ys; }
    if ys != [] { assert ys[0] in xs; }
    if xs != [] && ys != [] {
      var m, n := |xs| - 1, |ys| - 1;
      assert xs[m] in ys && ys[n] in xs;
      assert xs[m] == ys[n];
      forall id
        ensures id in xs[..m] <==> id in ys[..n]
      {
        assert id in xs <==> id in xs[..m] || id == xs[m];
        assert id in ys <==> id in ys[..n] || id == ys[n];
      }
      AscendingUnique(xs[..m], ys[..n]);
    }
  }

  lemma SplitAscending(ids: seq<nat>, i: nat, id: nat)
    requires i <= |ids| && forall p, q :: 0 <= p < q < |ids| ==> ids[p] < ids[q]
    ensures id in ids <==> id in ids[..i] || id in ids[i..]
    ensures !(id in ids[..i] && id in ids[i..])
  {
    assert ids == ids[..i] + ids[i..];
  }

  lemma RestOfRow(rows: seq<Reservation>, rows': seq<Reservation>, order: nat, first: seq<nat>, rest: seq<nat>, id: nat)
    requires Turned(rows, rows', first, Released)
    requires id in first || id in rest <==> id < |rows| && ActiveFor(rows[id], order)
    requires id in first ==> id !in rest
    ensures id < |rows'| && ActiveFor(rows'[id], order) <==> id in rest
  {
  }

  /** After some of an order's rows have been released, exactly the others are active. */
  lemma {:induction false} RestActive(db: Db, order: nat, i: nat, id: nat)
    requires i <= |FindActive(db.reservations, order)|
    ensures var ids := FindActive(db.reservations, order);
            var rows := ReleaseRows(db, ids[..i], Released).reservations;
            id < |rows| && ActiveFor(rows[id], order) <==> id in ids[i..]
  {
    var ids := FindActive(db.reservations, order);
    ReleaseRowsExact(db, ids[..i], Released);
    SplitAscending(ids, i, id);
    RestOfRow(db.reservations, ReleaseRows(db, ids[..i], Released).reservations, order, ids[..i], ids[i..], id);
  }

  lemma {:induction false} RestFound(db: Db, order: nat, i: nat)
    requires i <= |FindActive(db.reservations, order)|
    ensures var ids := FindActive(db.reservations, order);
            FindActive(ReleaseRows(db, ids[..i], Released).reservations, order) == ids[i..]
  {
    var ids := FindActive(db.reservations, order);
    var rows := ReleaseRows(db, ids[..i], Released).reservations;
    var found := FindActive(rows, order);
    forall id: nat
      ensures id in found <==> id in ids[i..]
    {
      RestActive(db, order, i, id);
      assert id in found <==> id < |rows| && ActiveFor(rows[id], order);
    }
    AscendingUnique(found, ids[i..]);
  }

  lemma {:induction false} ReleaseTail(db: Db, ids: seq<nat>, i: nat)
    requires i <= |ids|
    ensures ReleaseRows(ReleaseRows(db, ids[..i], Released), ids[i..], Released) == ReleaseRows(db, ids, Released)
  {
    ReleaseInParts(db, ids[..i], ids[i..]);
    assert ids[..i] + ids[i..] == ids;
  }

  lemma {:induction false} FoundReleased(db: Db, order: nat, ids: seq<nat>)
    requires FindActive(db.reservations, order) == ids
    ensures ReleaseOrder(db, order, Released) == ReleaseRows(db, ids, Released)
  {
  }

  lemma {:induction false} ReleaseResumes(db: Db, order: nat, i: nat)
    requires i <= |FindActive(db.reservations, order)|
    ensures var ids := FindActive(db.reservations, order);
            ReleaseOrder(ReleaseRows(db, ids[..i], Released), order, Released) == ReleaseOrder(db, order, Released)
  {
    var ids := FindActive(db.reservations, order);
    var half := ReleaseRows(db, ids[..i], Released);
    RestFound(db, order, i);
    FoundReleased(half, order, ids[i..]);
    FoundReleased(db, order, ids);
    ReleaseTail(db, ids, i);
  }

  lemma CommitTwice(db: Db, order: nat)
    ensures CommitReservations(CommitReservations(db, order), order) == CommitReservations(db, order)
  {
  }

  /** After the order update, the order has the outcome and a redelivery goes through. */
  lemma MovedOnce(db: Db, e: PaymentEvent, now: int)
    requires Verdict(db, e) == Accepted && e.target in {Paid, Failed, Refunded}
    ensures var moved := Moved(db, e, now);
            && OrderAt(moved, e.order).Some? && OrderAt(moved, e.order).value.payment == e.target
            && !(OrderAt(moved, e.order).value.status == Cancelled && e.target == Paid)
            && moved.payments == db.payments && |moved.orders| == |db.orders|
  {
  }

  /** Stock work that broke off is completed by doing it again. */
  lemma StockResumes(db: Db, e: PaymentEvent, n: nat)
    ensures var cut := StockCut(db, e, n);
            cut.orders == db.orders && cut.payments == db.payments && StockDone(cut, e) == StockDone(db, e)
  {
    if e.target == Paid {
      CommitTwice(db, e.order);
    } else {
      var ids := FindActive(db.reservations, e.order);
      var i := if n < |ids| then n else |ids|;
      assert ids[..|ids|] == ids;
      ReleaseRowsExact(db, ids[..i], Released);
      ReleaseResumes(db, e.order, i);
    }
  }

  lemma MovedKeeps(db: Db, e: PaymentEvent, now: int)
    requires Verdict(db, e) == Accepted
    ensures Moved(db, e, now).payments == db.payments
  {
  }

  lemma CutOffIs(db: Db, e: PaymentEvent, now: int, k: nat)
    requires Verdict(db, e) == Accepted && k > 0
    ensures CutOff(db, e, now, k) == StockCut(Moved(db, e, now), e, k - 1)
  {
  }

  /** Stock work, whole or cut off, leaves orders and records alone. */
  lemma StockCutKeeps(db: Db, e: PaymentEvent, n: nat)
    ensures StockCut(db, e, n).orders == db.orders && StockCut(db, e, n).payments == db.payments
  {
    if e.target != Paid {
      var ids := FindActive(db.reservations, e.order);
      ReleaseRowsExact(db, if n < |ids| then ids[..n] else ids, Released);
    }
  }

  /** What a cut-off delivery leaves behind once the order update is in. */
  lemma CutOffKeeps(db: Db, e: PaymentEvent, now: int, k: nat)
    requires Verdict(db, e) == Accepted && k > 0
    ensures CutOff(db, e, now, k).orders == Moved(db, e, now).orders && CutOff(db, e, now, k).payments == db.payments
  {
    MovedKeeps(db, e, now);
    StockCutKeeps(Moved(db, e, now), e, k - 1);
  }

  lemma CutOffResumes(db: Db, e: PaymentEvent, now: int, k: nat)
    requires Verdict(db, e) == Accepted && e.target in {Paid, Failed, Refunded} && k > 0
    ensures StockDone(CutOff(db, e, now, k), e) == StockDone(Moved(db, e, now), e)
  {
    CutOffIs(db, e, now, k);
    StockResumes(Moved(db, e, now), e, k - 1);
  }

  /**
   * A delivery cut off anywhere after the order update and then redelivered, at whatever later time,
   * ends exactly where an uninterrupted delivery would have ended.
   */
  lemma RedeliveryResumes(db: Db, e: PaymentEvent, now: int, k: nat, later: int)
    requires e.target in {Paid, Failed, Refunded} && Verdict(db, e) == Accepted && k > 0
    ensures Verdict(CutOff(db, e, now, k), e) == Accepted
    ensures Deliver(CutOff(db, e, now, k), e, later) == Deliver(db, e, now)
  {
    var cut := CutOff(db, e, now, k);
    CutOffKeeps(db, e, now, k);
    CutOffResumes(db, e, now, k);
    MovedOnce(db, e, now);
    assert Verdict(cut, e) == Accepted by {
      assert KnownEvent(cut, e.provider, e.eventId, e.digest) == KnownEvent(db, e.provider, e.eventId, e.digest);
    }
    assert Moved(cut, e, later) == cut;
  }

  // ---------------------------------------------------------------- repeated deliveries

  /** One delivery attempt: how many calls go through before it is cut off, or all of them. */
  datatype Attempt = Attempt(event: PaymentEvent, time: int, cut: Option<nat>)

  function Try(db: Db, a: Attempt): Db {
    match a.cut
    case None => Deliver(db, a.event, a.time)
    case Some(k) => CutOff(db, a.event, a.time, k)
  }

  /** When the first of these attempts gets to the order update; the closing delivery if none does. */
  function FirstTime(attempts: seq<Attempt>, closing: int): int {
    if attempts == [] then closing
    else if attempts[0].cut.Some? && attempts[0].cut.value == 0 then FirstTime(attempts[1..], closing)
    else attempts[0].time
  }

  function TryFrom(db: Db, attempts: seq<Attempt>): Db
    decreases |attempts|
  {
    if attempts == [] then db else TryFrom(Try(db, attempts[0]), attempts[1..])
  }

  /** Any number of cut-off deliveries of one event, then a whole one, amount to a single delivery. */
  lemma {:induction false} CutsThenWhole(db: Db, e: PaymentEvent, attempts: seq<Attempt>, closing: int)
    requires e.target in {Paid, Failed, Refunded} && Verdict(db, e) == Accepted
    requires forall i :: 0 <= i < |attempts| ==> attempts[i].event == e && attempts[i].cut.Some?
    ensures Verdict(TryFrom(db, attempts), e) == Accepted
    ensures Deliver(TryFrom(db, attempts), e, closing) == Deliver(db, e, FirstTime(attempts, closing))
    decreases |attempts|
  {
    if attempts != [] {
      var a := attempts[0];
      var next := Try(db, a);
      if a.cut.value == 0 {
        CutsThenWhole(db, e, attempts[1..], closing);
      } else {
        RedeliveryResumes(db, e, a.time, a.cut.value, closing);
        CutsThenWhole(next, e, attempts[1..], closing);
        RedeliveryResumes(db, e, a.time, a.cut.value, FirstTime(attempts[1..], closing));
      }
    }
  }

  lemma RecordsGrow(db: Db, a: Attempt)
    requires a.event.target in {Paid, Failed, Refunded}
    ensures db.payments <= Try(db, a).payments
  {
    if Verdict(db, a.event) == Accepted {
      SameRecords(db, a.event, a.time);
      if a.cut.Some? && a.cut.value > 0 { CutOffKeeps(db, a.event, a.time, a.cut.value); }
    }
  }

  lemma KnownStays(db: Db, db': Db, provider: string, eventId: string, digest: string)
    requires db.payments <= db'.payments && KnownEvent(db, provider, eventId, digest)
    ensures KnownEvent(db', provider, eventId, digest)
  {
    var i :| 0 <= i < |db.payments| && SameEvent(db.payments[i], provider, eventId, digest);
    assert db'.payments[i] == db.payments[i];
  }

  lemma {:induction false} AllRecordsGrow(db: Db, attempts: seq<Attempt>)
    requires forall i :: 0 <= i < |attempts| ==> attempts[i].event.target in {Paid, Failed, Refunded}
    ensures db.payments <= TryFrom(db, attempts).payments
    decreases |attempts|
  {
    if attempts != [] {
      RecordsGrow(db, attempts[0]);
      AllRecordsGrow(Try(db, attempts[0]), attempts[1..]);
    }
  }

  lemma {:induction false} TryJoin(db: Db, xs: seq<Attempt>, ys: seq<Attempt>)
    ensures TryFrom(db, xs + ys) == TryFrom(TryFrom(db, xs), ys)
    decreases |xs|
  {
    if xs == [] {
      assert xs + ys == ys;
    } else {
      assert (xs + ys)[1..] == xs[1..] + ys;
      TryJoin(Try(db, xs[0]), xs[1..], ys);
    }
  }

  lemma {:induction false} OneTry(db: Db, a: Attempt, rest: seq<Attempt>)
    ensures TryFrom(db, [a] + rest) == TryFrom(Try(db, a), rest)
  {
    assert ([a] + rest)[1..] == rest;
  }

  lemma {:induction false} Through(db: Db, a: Attempt, between: seq<Attempt>, rest: seq<Attempt>)
    ensures TryFrom(db, [a] + (between + rest)) == TryFrom(TryFrom(Try(db, a), between), rest)
  {
    OneTry(db, a, between + rest);
    TryJoin(Try(db, a), between, rest);
  }

  lemma {:induction false} Ignored(db: Db, again: Attempt, after: seq<Attempt>)
    requires KnownEvent(db, again.event.provider, again.event.eventId, again.event.digest)
    ensures TryFrom(db, [again] + after) == TryFrom(db, after)
  {
    assert Try(db, again) == db;
    OneTry(db, again, after);
  }

  lemma FourParts(a: Attempt, between: seq<Attempt>, b: Attempt, after: seq<Attempt>)
    ensures [a] + between + [b] + after == [a] + (between + ([b] + after))
    ensures [a] + between + after == [a] + (between + after)
  {
  }

  lemma Recorded(db: Db, e: PaymentEvent, now: int)
    requires Verdict(db, e) == Accepted
    ensures Deliver(db, e, now).payments == StockDone(Moved(db, e, now), e).payments + [e]
  {
  }

  lemma LastIsKnown(db: Db, provider: string, eventId: string, digest: string)
    requires db.payments != [] && SameEvent(db.payments[|db.payments| - 1], provider, eventId, digest)
    ensures KnownEvent(db, provider, eventId, digest)
  {
  }

  /** The event of a whole, accepted delivery is known ever after. */
  lemma {:induction false} KnownAfter(db: Db, first: Attempt, between: seq<Attempt>,
                                      provider: string, eventId: string, digest: string)
    requires first.cut.None? && Verdict(db, first.event) == Accepted
    requires SameEvent(first.event, provider, eventId, digest)
    requires forall i :: 0 <= i < |between| ==> between[i].event.target in {Paid, Failed, Refunded}
    ensures KnownEvent(TryFrom(Try(db, first), between), provider, eventId, digest)
  {
    var done := Try(db, first);
    Recorded(db, first.event, first.time);
    LastIsKnown(done, provider, eventId, digest);
    AllRecordsGrow(done, between);
    KnownStays(done, TryFrom(done, between), provider, eventId, digest);
  }

  /**
   * Once an event has been processed, every further delivery of it, under the same id or with the same
   * signed content under another id, can be struck from any run without changing where the run ends.
   */
  lemma {:induction false} RepeatsDoNothing(db: Db, first: Attempt, between: seq<Attempt>, again: Attempt,
                                            after: seq<Attempt>)
    requires first.cut.None? && Verdict(db, first.event) == Accepted
    requires || again.event.digest == first.event.digest
             || (again.event.provider == first.event.provider && again.event.eventId == first.event.eventId)
    requires first.event.target in {Paid, Failed, Refunded}
    requires forall i :: 0 <= i < |between| ==> between[i].event.target in {Paid, Failed, Refunded}
    ensures TryFrom(db, [first] + between + [again] + after) == TryFrom(db, [first] + between + after)
  {
    KnownAfter(db, first, between, again.event.provider, again.event.eventId, again.event.digest);
    FourParts(first, between, again, after);
    Through(db, first, between, [again] + after);
    Through(db, first, between, after);
    Ignored(TryFrom(Try(db, first), between), again, after);
  }
}
