/**
 * The order document and every atomic update the system makes to an existing one.
 *
 * Orders are never locked. Each writer (customer cancel, refund request, payment webhook, expiry
 * sweeper, shipment update) issues one conditional update, so whatever the interleaving, the life of
 * one order is a list of updates, each of which either matched or missed.
 */
module Orders {
  import opened Wrappers

  datatype OrderStatus =
    Pending | Confirmed | Processing | Shipped | Delivered | Cancelled | LegacyRefundRequested | LegacyRefunded

  datatype PaymentStatus = Unpaid | Authorized | Paid | Failed | Refunded

  datatype RefundStatus = NoRefund | Requested | Approved | Rejected | Processed

  type Quantity = q: int | 1 <= q witness 1

  datatype Item = Item(product: int, quantity: Quantity, unitCents: int)

  datatype HistoryEntry = Entry(from: PaymentStatus, to: PaymentStatus, reason: string)

  /** `checkout` is the request that wrote the order; it stands for the opaque ids of the source. */
  datatype Order = Order(
    checkout: nat, user: int, items: seq<Item>, coupon: Option<int>, totalCents: int,
    status: OrderStatus, payment: PaymentStatus, refund: RefundStatus, history: seq<HistoryEntry>,
    refundRequestedAt: Option<int>, deliveredAt: Option<int>, updatedAt: int)

  function NewOrder(checkout: nat, user: int, items: seq<Item>, coupon: Option<int>, totalCents: int, at: int): Order {
    Order(checkout, user, items, coupon, totalCents, Pending, Unpaid, NoRefund, [], None, None, at)
  }

  // ---------------------------------------------------------------- the transition tables

  function FulfilmentTransitions(from: OrderStatus): set<OrderStatus> {
    match from
    case Pending => {Confirmed, Cancelled}
    case Confirmed => {Processing, Shipped, Delivered, Cancelled}
    case Processing => {Shipped, Delivered}
    case Shipped => {Delivered}
    case _ => {}
  }

  predicate CanTransitionOrder(from: OrderStatus, to: OrderStatus) {
    from == to || to in FulfilmentTransitions(from)
  }

  function PaymentTransitions(from: PaymentStatus): set<PaymentStatus> {
    match from
    case Unpaid => {Authorized, Paid, Failed}
    case Authorized => {Paid, Failed, Refunded}
    case Paid => {Refunded}
    case _ => {}
  }

  predicate CanTransitionPayment(from: PaymentStatus, to: PaymentStatus) {
    from == to || to in PaymentTransitions(from)
  }

  const CANCELLABLE := {Pending, Confirmed}
  const REFUNDABLE := {Delivered}

  /** Progress of a paid order; nothing else has a rank. */
  function FulfilmentRank(s: OrderStatus): int {
    match s
    case Confirmed => 0
    case Processing => 1
    case Shipped => 2
    case Delivered => 3
    case _ => -1
  }

  predicate Fulfilling(s: OrderStatus) {
    FulfilmentRank(s) >= 0
  }

  function NextOrderStatus(status: OrderStatus, to: PaymentStatus): OrderStatus {
    if to == Paid && status == Pending then Confirmed else status
  }

  // ---------------------------------------------------------------- the atomic updates

  datatype Update =
    | CancelUnpaid(at: int)
    | CancelPaid(at: int)
    | RequestRefund(at: int, windowStart: int)
    | ExpireUnpaid(at: int)
    | Settle(readPayment: PaymentStatus, readStatus: OrderStatus, target: PaymentStatus, reason: string, at: int)
    | Advance(next: OrderStatus, at: int)

  /** What a caller has checked, on a possibly stale copy of the order, before it issues the update. */
  predicate Admissible(u: Update) {
    match u
    case Settle(payment, status, target, _, _) =>
      && target in {Paid, Failed, Refunded}
      && target != payment
      && CanTransitionPayment(payment, target)
      && !(status == Cancelled && target == Paid)
    case Advance(next, _) => next in {Processing, Shipped, Delivered}
    case _ => true
  }

  predicate WithinRefundWindow(o: Order, windowStart: int) {
    match o.deliveredAt
    case Some(at) => windowStart <= at
    case None => windowStart <= o.updatedAt
  }

  /** The filter of the conditional update. */
  predicate Matches(o: Order, u: Update) {
    match u
    case CancelUnpaid(_) => o.status in CANCELLABLE && o.payment in {Unpaid, Failed}
    case CancelPaid(_) => o.status in CANCELLABLE && o.payment in {Paid, Authorized} && o.refund == NoRefund
    case RequestRefund(_, start) =>
      o.payment == Paid && o.refund == NoRefund && o.status in REFUNDABLE && WithinRefundWindow(o, start)
    case ExpireUnpaid(_) => o.status == Pending && o.payment == Unpaid
    case Settle(payment, status, _, _, _) => o.payment == payment && o.status == status
    case Advance(next, _) => 0 <= FulfilmentRank(o.status) < FulfilmentRank(next)
  }

  /** The assignment of the conditional update. */
  function Written(o: Order, u: Update): Order {
    match u
    case CancelUnpaid(at) => o.(status := Cancelled, updatedAt := at)
    case CancelPaid(at) => o.(status := Cancelled, refund := Requested, refundRequestedAt := Some(at), updatedAt := at)
    case RequestRefund(at, _) => o.(refund := Requested, refundRequestedAt := Some(at), updatedAt := at)
    case ExpireUnpaid(at) => o.(status := Cancelled, updatedAt := at)
    case Settle(payment, status, target, reason, at) =>
      o.(payment := target,
         status := NextOrderStatus(status, target),
         refund := if target == Refunded then Processed else o.refund,
         history := o.history + [Entry(payment, target, reason)],
         updatedAt := at)
    case Advance(next, at) =>
      o.(status := next, deliveredAt := if next == Delivered then Some(at) else o.deliveredAt, updatedAt := at)
  }

  function Apply(o: Order, u: Update): Order {
    if Matches(o, u) then Written(o, u) else o
  }

  /** The life of one order: updates by any writers, in any order, each matching or missing. */
  function Run(o: Order, us: seq<Update>): Order {
    if us == [] then o else Apply(Run(o, us[..|us| - 1]), us[|us| - 1])
  }

  predicate AllAdmissible(us: seq<Update>) {
    forall i :: 0 <= i < |us| ==> Admissible(us[i])
  }

  // ---------------------------------------------------------------- reachable states

  /** The fifteen combinations of the three status fields. */
  predicate Closed(status: OrderStatus, payment: PaymentStatus, refund: RefundStatus) {
    match status
    case Pending => payment in {Unpaid, Failed} && refund == NoRefund
    case Cancelled =>
      || (payment in {Unpaid, Failed} && refund == NoRefund)
      || (payment == Paid && refund == Requested)
      || (payment == Refunded && refund == Processed)
    case _ =>
      && Fulfilling(status)
      && (|| (payment == Paid && refund == NoRefund)
          || (payment == Refunded && refund == Processed)
          || (status == Delivered && payment == Paid && refund == Requested))
  }

  predicate Consistent(o: Order) {
    && Closed(o.status, o.payment, o.refund)
    && (o.refund == Requested ==> o.refundRequestedAt.Some?)
    && (o.refund == NoRefund ==> o.refundRequestedAt.None?)
    && (o.deliveredAt.Some? <==> o.status == Delivered)
    && HistoryOk(o.history, o.payment)
  }

  /** The recorded payment history is a path of table edges from unpaid to the current state. */
  predicate HistoryOk(h: seq<HistoryEntry>, payment: PaymentStatus) {
    && (h == [] ==> payment == Unpaid)
    && (h != [] ==> h[0].from == Unpaid && h[|h| - 1].to == payment)
    && (forall i :: 0 <= i < |h| ==> h[i].from != h[i].to && CanTransitionPayment(h[i].from, h[i].to))
    && (forall i :: 0 < i < |h| ==> h[i - 1].to == h[i].from)
  }

  predicate RefundMove(a: RefundStatus, b: RefundStatus) {
    a == b || (a == NoRefund && b in {Requested, Processed}) || (a == Requested && b == Processed)
  }

  /** What one update may change. */
  predicate Moves(o: Order, o': Order) {
    && CanTransitionOrder(o.status, o'.status)
    && CanTransitionPayment(o.payment, o'.payment)
    && RefundMove(o.refund, o'.refund)
    && o.history <= o'.history
    && (o'.history == o.history <==> o'.payment == o.payment)
    && (o.deliveredAt.Some? ==> o'.deliveredAt == o.deliveredAt)
    && (o.refundRequestedAt.Some? ==> o'.refundRequestedAt == o.refundRequestedAt)
    && (FulfilmentRank(o'.status) < FulfilmentRank(o.status) ==> o.status == Confirmed && o'.status == Cancelled)
    && o'.checkout == o.checkout && o'.user == o.user && o'.items == o.items && o'.coupon == o.coupon
    && o'.totalCents == o.totalCents
  }

  /** One more table edge keeps the history a path. */
  lemma HistoryGoesOn(h: seq<HistoryEntry>, payment: PaymentStatus, target: PaymentStatus, reason: string)
    requires HistoryOk(h, payment) && payment != target && CanTransitionPayment(payment, target)
    ensures var h' := h + [Entry(payment, target, reason)];
            HistoryOk(h', target) && h <= h' && h != h'
  {
    assert |h + [Entry(payment, target, reason)]| == |h| + 1;
  }

  lemma SettleKeepsConsistent(o: Order, u: Update)
    requires Consistent(o) && Admissible(u) && u.Settle? && Matches(o, u)
    ensures Consistent(Written(o, u)) && Moves(o, Written(o, u))
  {
    HistoryGoesOn(o.history, u.readPayment, u.target, u.reason);
  }

  /** An update keeps the document consistent and moves each field along its table. */
  lemma UpdateKeepsConsistent(o: Order, u: Update)
    requires Consistent(o) && Admissible(u)
    ensures Consistent(Apply(o, u)) && Moves(o, Apply(o, u))
  {
    if u.Settle? && Matches(o, u) {
      SettleKeepsConsistent(o, u);
    }
  }

  /** The two tables written out: which statuses and which payment states one update may lead between. */
  lemma StatusesMove(o: Order, u: Update)
    requires Consistent(o) && Admissible(u)
    ensures var o' := Apply(o, u);
            && (o'.status != o.status ==>
                || (o.status in {Pending, Confirmed} && o'.status == Cancelled)
                || (o.status == Pending && o'.status == Confirmed && o'.payment == Paid)
                || (o.status == Confirmed && o'.status in {Processing, Shipped, Delivered})
                || (o.status == Processing && o'.status in {Shipped, Delivered})
                || (o.status == Shipped && o'.status == Delivered))
            && (o'.payment != o.payment ==>
                  || (o.payment == Unpaid && o'.payment in {Paid, Failed})
                  || (o.payment == Paid && o'.payment == Refunded))
  {
    UpdateKeepsConsistent(o, u);
  }

  lemma {:induction false} RunKeepsConsistent(o: Order, us: seq<Update>)
    requires Consistent(o) && AllAdmissible(us)
    ensures Consistent(Run(o, us))
    ensures forall i :: 0 <= i < |us| ==> Moves(Run(o, us[..i]), Run(o, us[..i + 1]))
  {
    if us == [] {
    } else {
      var init := us[..|us| - 1];
      RunKeepsConsistent(o, init);
      UpdateKeepsConsistent(Run(o, init), us[|us| - 1]);
      forall i | 0 <= i < |us|
        ensures Moves(Run(o, us[..i]), Run(o, us[..i + 1]))
      {
        if i < |init| {
          assert us[..i] == init[..i] && us[..i + 1] == init[..i + 1];
        } else {
          assert us[..i] == init && us[..i + 1] == us;
        }
      }
    }
  }

  /** An update list that drives a new order to a given combination. */
  function Witness(status: OrderStatus, payment: PaymentStatus, refund: RefundStatus): seq<Update> {
    var pay := Settle(Unpaid, Pending, Paid, "payment.succeeded", 0);
    var fail := Settle(Unpaid, Pending, Failed, "payment.failed", 0);
    var refunded := Settle(Paid, status, Refunded, "payment.refunded", 0);
    match status
    case Pending => if payment == Unpaid then [] else [fail]
    case Cancelled =>
      if payment == Unpaid then [CancelUnpaid(0)]
      else if payment == Failed then [fail, CancelUnpaid(0)]
      else if payment == Paid then [pay, CancelPaid(0)]
      else [pay, CancelPaid(0), refunded]
    case _ =>
      var there := if status == Confirmed then [pay] else [pay, Advance(status, 0)];
      if payment == Refunded then there + [refunded]
      else if refund == Requested then there + [RequestRefund(0, 0)]
      else there
  }

  /**
   * The reachable (status, payment, refund) combinations are exactly the fifteen of `Closed`:
   * every interleaving stays inside, and each one occurs.
   */
  lemma {:induction false} ReachableTriples(o: Order, status: OrderStatus, payment: PaymentStatus, refund: RefundStatus)
    requires o == NewOrder(o.checkout, o.user, o.items, o.coupon, o.totalCents, o.updatedAt)
    ensures (exists us :: AllAdmissible(us)
                          && Run(o, us).status == status && Run(o, us).payment == payment
                          && Run(o, us).refund == refund)
            <==> Closed(status, payment, refund)
  {
    forall us | AllAdmissible(us)
      ensures Closed(Run(o, us).status, Run(o, us).payment, Run(o, us).refund)
    {
      RunKeepsConsistent(o, us);
    }
    if Closed(status, payment, refund) {
      var us := Witness(status, payment, refund);
      WitnessWorks(o, status, payment, refund);
      assert AllAdmissible(us) && Run(o, us).status == status && Run(o, us).payment == payment
             && Run(o, us).refund == refund;
    }
  }

  lemma {:induction false} RunShort(o: Order, us: seq<Update>)
    requires |us| <= 3
    ensures |us| == 0 ==> Run(o, us) == o
    ensures |us| == 1 ==> Run(o, us) == Apply(o, us[0])
    ensures |us| == 2 ==> Run(o, us) == Apply(Apply(o, us[0]), us[1])
    ensures |us| == 3 ==> Run(o, us) == Apply(Apply(Apply(o, us[0]), us[1]), us[2])
  {
    if us != [] {
      RunShort(o, us[..|us| - 1]);
    }
  }

  lemma {:induction false} WitnessWorks(o: Order, status: OrderStatus, payment: PaymentStatus, refund: RefundStatus)
    requires o == NewOrder(o.checkout, o.user, o.items, o.coupon, o.totalCents, o.updatedAt)
    requires Closed(status, payment, refund)
    ensures var us := Witness(status, payment, refund);
            AllAdmissible(us) && Run(o, us).status == status && Run(o, us).payment == payment
              && Run(o, us).refund == refund
  {
    WitnessAdmissible(status, payment, refund);
    if Fulfilling(status) {
      WitnessContinues(o, Apply(o, Settle(Unpaid, Pending, Paid, "payment.succeeded", 0)), status, payment, refund);
    } else {
      WitnessStopped(o, status, payment, refund);
    }
  }

  lemma {:induction false} WitnessStopped(o: Order, status: OrderStatus, payment: PaymentStatus, refund: RefundStatus)
    requires o == NewOrder(o.checkout, o.user, o.items, o.coupon, o.totalCents, o.updatedAt)
    requires Closed(status, payment, refund) && !Fulfilling(status)
    ensures var end := Run(o, Witness(status, payment, refund));
            end.status == status && end.payment == payment && end.refund == refund
  {
    RunShort(o, Witness(status, payment, refund));
  }

  lemma PaidFirst(o: Order)
    requires o == NewOrder(o.checkout, o.user, o.items, o.coupon, o.totalCents, o.updatedAt)
    ensures var paid := Apply(o, Settle(Unpaid, Pending, Paid, "payment.succeeded", 0));
            paid.status == Confirmed && paid.payment == Paid && paid.refund == NoRefund && paid.deliveredAt.None?
  {
  }

  lemma ThenAdvanced(paid: Order, status: OrderStatus)
    requires Fulfilling(status) && paid.status == Confirmed && paid.payment == Paid && paid.refund == NoRefund
    ensures var moved := if status == Confirmed then paid else Apply(paid, Advance(status, 0));
            && moved.status == status && moved.payment == Paid && moved.refund == NoRefund
            && (status == Delivered ==> moved.deliveredAt == Some(0))
  {
  }

  lemma ThenRefunded(moved: Order, status: OrderStatus)
    requires moved.status == status && moved.payment == Paid && moved.refund == NoRefund
    ensures var end := Apply(moved, Settle(Paid, status, Refunded, "payment.refunded", 0));
            Fulfilling(status) ==> end.status == status && end.payment == Refunded && end.refund == Processed
    ensures var end := Apply(moved, RequestRefund(0, 0));
            status == Delivered && moved.deliveredAt == Some(0) ==>
              end.status == status && end.payment == Paid && end.refund == Requested
  {
  }

  /** The updates after the payment, from a confirmed order on. */
  lemma {:induction false} WitnessContinues(o: Order, paid: Order, status: OrderStatus, payment: PaymentStatus,
                                            refund: RefundStatus)
    requires Closed(status, payment, refund) && Fulfilling(status)
    requires o == NewOrder(o.checkout, o.user, o.items, o.coupon, o.totalCents, o.updatedAt)
    requires paid == Apply(o, Settle(Unpaid, Pending, Paid, "payment.succeeded", 0))
    ensures var end := Run(o, Witness(status, payment, refund));
            end.status == status && end.payment == payment && end.refund == refund
  {
    PaidFirst(o);
    ThenAdvanced(paid, status);
    ThenRefunded(if status == Confirmed then paid else Apply(paid, Advance(status, 0)), status);
    RunShort(o, Witness(status, payment, refund));
  }

  lemma WitnessAdmissible(status: OrderStatus, payment: PaymentStatus, refund: RefundStatus)
    requires Closed(status, payment, refund)
    ensures AllAdmissible(Witness(status, payment, refund))
  {
  }

  /** What the fifteen combinations mean for the business. */
  lemma ClosedMeans(status: OrderStatus, payment: PaymentStatus, refund: RefundStatus)
    requires Closed(status, payment, refund)
    ensures Fulfilling(status) ==> payment in {Paid, Refunded}
    ensures status == Cancelled && payment == Paid ==> refund == Requested
    ensures refund == Processed <==> payment == Refunded
    ensures refund == Requested ==> payment == Paid && status in {Cancelled, Delivered}
    ensures payment != Authorized && refund !in {Approved, Rejected}
    ensures status !in {LegacyRefundRequested, LegacyRefunded}
  {
  }

  // ---------------------------------------------------------------- each payment outcome lands once

  function PaymentRank(p: PaymentStatus): nat {
    match p
    case Unpaid => 0
    case Authorized => 1
    case Paid => 2
    case Refunded => 3
    case Failed => 4
  }

  lemma {:induction false} HistoryClimbs(h: seq<HistoryEntry>, payment: PaymentStatus, i: nat, j: nat)
    requires HistoryOk(h, payment) && i < j < |h|
    ensures PaymentRank(h[i].to) < PaymentRank(h[j].to)
  {
    assert h[j - 1].to == h[j].from;
    if i < j - 1 {
      HistoryClimbs(h, payment, i, j - 1);
    }
  }

  /**
   * However often and however concurrently webhooks are delivered, each outcome (paid, failed,
   * refunded) is written to an order at most once.
   */
  lemma {:induction false} EachOutcomeOnce(o: Order, us: seq<Update>, i: nat, j: nat)
    requires Consistent(o) && AllAdmissible(us)
    requires i < j < |Run(o, us).history|
    ensures Run(o, us).history[i].to != Run(o, us).history[j].to
  {
    RunKeepsConsistent(o, us);
    HistoryClimbs(Run(o, us).history, Run(o, us).payment, i, j);
  }

  // ---------------------------------------------------------------- the refused refund request

  datatype RefundRefusal = AlreadyRequested | NotPaid | NotDelivered | WindowPassed | ChangedMeanwhile

  function RefundRejection(o: Order, windowStart: int): RefundRefusal {
    if o.refund != NoRefund then AlreadyRequested
    else if o.payment != Paid then NotPaid
    else if o.status !in REFUNDABLE then NotDelivered
    else if (match o.deliveredAt case Some(at) => at case None => o.updatedAt) < windowStart then WindowPassed
    else ChangedMeanwhile
  }

  /** The refusal "changed meanwhile" is given exactly when the request would now succeed. */
  lemma RefusalExplains(o: Order, at: int, windowStart: int)
    ensures RefundRejection(o, windowStart) == ChangedMeanwhile <==> Matches(o, RequestRefund(at, windowStart))
  {
  }

  // ---------------------------------------------------------------- the in-memory state machine

  /** The order as the in-memory payment state machine mutates it. */
  class OrderDocument {
    var payment: PaymentStatus
    var status: OrderStatus
    var history: seq<HistoryEntry>

    constructor (o: Order)
      ensures payment == o.payment && status == o.status && history == o.history
    {
      payment, status, history := o.payment, o.status, o.history;
    }

    /** Refuses an edge that is not in the table; otherwise records it and confirms a pending order that is paid. */
    method ApplyPaymentTransition(to: PaymentStatus, reason: string) returns (accepted: bool)
      modifies this
      ensures accepted == CanTransitionPayment(old(payment), to)
      ensures !accepted ==> payment == old(payment) && status == old(status) && history == old(history)
      ensures accepted ==> payment == to && history == old(history) + [Entry(old(payment), to, reason)]
      ensures accepted ==> status == if to == Paid && old(status) == Pending then Confirmed else old(status)
    {
      if !CanTransitionPayment(payment, to) {
        return false;
      }
      history := history + [Entry(payment, to, reason)];
      payment := to;
      if to == Paid && status == Pending {
        status := Confirmed;
      }
      return true;
    }
  }

  /** The compare-and-set of the repository and the in-memory state machine agree on every matched order. */
  method TransitionAgrees(o: Order, to: PaymentStatus, reason: string, at: int)
    returns (accepted: bool, payment: PaymentStatus, status: OrderStatus, history: seq<HistoryEntry>)
    requires to != o.payment
    ensures accepted == (to in PaymentTransitions(o.payment))
    ensures var w := Written(o, Settle(o.payment, o.status, to, reason, at));
            accepted ==> Matches(o, Settle(o.payment, o.status, to, reason, at))
                         && w.payment == payment && w.status == status && w.history == history
    ensures !accepted ==> payment == o.payment && status == o.status && history == o.history
  {
    var doc := new OrderDocument(o);
    accepted := doc.ApplyPaymentTransition(to, reason);
    payment, status, history := doc.payment, doc.status, doc.history;
  }
}
