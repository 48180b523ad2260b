/** Webhook deliveries inside the protocol: repeated, concurrent, late, or on stale copies of the order. */
module Deliveries {
  import opened Orders
  import opened Store
  import opened Protocol
  import opened RefundEvents

  // ---------------------------------------------------------------- one record per event

  /** No two payment records share a provider's event id or a digest of signed content. */
  predicate Distinct(payments: seq<PaymentEvent>) {
    forall i, j :: 0 <= i < j < |payments| ==>
      && payments[i].digest != payments[j].digest
      && !(payments[i].provider == payments[j].provider && payments[i].eventId == payments[j].eventId)
  }

  lemma NewIsDistinct(db: Db, e: PaymentEvent)
    requires Distinct(db.payments) && !KnownEvent(db, e.provider, e.eventId, e.digest)
    ensures Distinct(db.payments + [e])
  {
    forall i | 0 <= i < |db.payments|
      ensures db.payments[i].digest != e.digest
      ensures !(db.payments[i].provider == e.provider && db.payments[i].eventId == e.eventId)
    {
      assert !SameEvent(db.payments[i], e.provider, e.eventId, e.digest);
    }
  }

  lemma RecordIsNew(db: Db, t: nat, k: Task, now: int)
    ensures var e := NextMove(db, t, k, now).effect;
            && (e.AddPayment? ==> !KnownEvent(db, e.payment.provider, e.payment.eventId, e.payment.digest))
            && (!e.AddPayment? ==> Effected(db, e).payments == db.payments)
  {
  }

  lemma {:induction false} OneRecordPerEvent(s: State, actions: seq<Action>)
    requires Opening(s)
    ensures Distinct(Steps(s, actions).db.payments)
  {
    if actions != [] {
      var n := |actions| - 1;
      var before, a := Steps(s, actions[..n]), actions[n];
      OneRecordPerEvent(s, actions[..n]);
      if a.RunTask? && a.task < |before.tasks| {
        RecordIsNew(before.db, a.task, before.tasks[a.task], a.now);
        var e := NextMove(before.db, a.task, before.tasks[a.task], a.now).effect;
        if e.AddPayment? { NewIsDistinct(before.db, e.payment); }
      }
    }
  }

  // ---------------------------------------------------------------- one transition per outcome

  /** A consistent order that has had an outcome cannot move to it again. */
  lemma OutcomeIsPast(o: Order, i: nat, target: PaymentStatus)
    requires Consistent(o) && i < |o.history| && o.history[i].to == target
    ensures o.payment == target || !CanTransitionPayment(o.payment, target)
  {
    var last := |o.history| - 1;
    if i < last {
      HistoryClimbs(o.history, o.payment, i, last);
    }
  }

  /** The event's order has had the event's outcome. */
  predicate HadOutcome(db: Db, e: PaymentEvent) {
    OrderAt(db, e.order).Some? &&
    exists i :: 0 <= i < |OrderAt(db, e.order).value.history| && OrderAt(db, e.order).value.history[i].to == e.target
  }

  lemma LateMove(db: Db, t: nat, k: Task, now: int, i: nat)
    requires k.Webhook? && WebhookOk(k) && OrderAt(db, k.event.order).Some?
    requires Consistent(OrderAt(db, k.event.order).value)
    requires i < |OrderAt(db, k.event.order).value.history|
    requires OrderAt(db, k.event.order).value.history[i].to == k.event.target
    ensures Effected(db, NextMove(db, t, k, now).effect).orders == db.orders
  {
    OutcomeIsPast(OrderAt(db, k.event.order).value, i, k.event.target);
  }

  /**
   * After any run, a webhook that has checked whatever stale copy it read may still change its order
   * only if the order never had the outcome before. So of any number of deliveries with the same
   * outcome, concurrent or not, one moves the order and the others leave it alone.
   */
  lemma {:induction false} LateDeliveryChangesNoOrder(s: State, actions: seq<Action>, t: nat, now: int)
    requires Opening(s)
    ensures var s' := Steps(s, actions);
            t < |s'.tasks| && s'.tasks[t].Webhook? && HadOutcome(s'.db, s'.tasks[t].event) ==>
              Step(s', RunTask(t, now)).db.orders == s'.db.orders
  {
    RunOrders(s, actions);
    var s' := Steps(s, actions);
    if t < |s'.tasks| && s'.tasks[t].Webhook? && HadOutcome(s'.db, s'.tasks[t].event) {
      var e := s'.tasks[t].event;
      assert WebhookOk(s'.tasks[t]) && OrderOk(s'.db.orders[e.order]);
      var i :| 0 <= i < |OrderAt(s'.db, e.order).value.history|
        && OrderAt(s'.db, e.order).value.history[i].to == e.target;
      LateMove(s'.db, t, s'.tasks[t], now, i);
    }
  }
}
