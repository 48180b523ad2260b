/**
 * Repeated deliveries of one payment event, concurrent or not: once one of them is on record the order has
 * had the outcome and its reservations are settled, and no other delivery of it changes an order or a
 * reservation any more.
 */
module Repeats {
  import opened Wrappers
  import opened Orders
  import opened Store
  import opened Protocol
  import opened Conservation
  import opened RefundEvents
  import opened Standing
  import opened Books
  import opened Deliveries

  // ---------------------------------------------------------------- settled orders

  /** Nobody interfered with the order's checkout while that was running. */
  predicate LeftAlone(s: State, o: nat) {
    s.touched == {} || (OrderAt(s.db, o).Some? && OrderAt(s.db, o).value.checkout !in s.touched)
  }

  /** A payment has nothing left to commit; a failure or refund has nothing left to release. */
  predicate RowsSettled(rows: seq<Reservation>, e: PaymentEvent) {
    forall r :: 0 <= r < |rows| && rows[r].order == Some(e.order) ==>
      if e.target == Paid then rows[r].status != Reserved else !Active(rows[r])
  }

  predicate OnlyListed(rows: seq<Reservation>, o: nat, todo: seq<nat>) {
    forall r :: 0 <= r < |rows| && ActiveFor(rows[r], o) ==> r in todo
  }

  /** Nothing happens to an order that is left alone before its checkout has ended. */
  predicate Untold(s: State, o: nat) {
    OrderAt(s.db, o).Some? ==>
      var order := OrderAt(s.db, o).value;
      order.checkout !in s.touched && InFlight(s, order.checkout) ==> order.history == []
  }

  predicate Achieved(s: State, e: PaymentEvent) {
    e.order < |s.db.orders| && (LeftAlone(s, e.order) ==> HadOutcome(s.db, e))
  }

  /** What a delivery under way has achieved. */
  predicate DeliveryOk(s: State, k: Task) {
    match k
    case Webhook(e, stage, _) =>
      && ((stage.Settling? && stage.payment == e.target) || stage.Committing? || stage.Recording? ==> Achieved(s, e))
      && (stage.Committing? ==> e.target == Paid)
      && (stage.Recording? && LeftAlone(s, e.order) ==> RowsSettled(s.db.reservations, e))
    case Releasing(o, _, release, after) =>
      after.RecordPayment? ==>
        && after.event.order == o && after.event.target in {Failed, Refunded} && Achieved(s, after.event)
        && (release.Listed? && LeftAlone(s, o) ==> OnlyListed(s.db.reservations, o, release.todo))
        && (release.Owing? && LeftAlone(s, o) ==> OnlyListed(s.db.reservations, o, release.todo))
    case _ => true
  }

  /** What a payment record stands for. */
  predicate RecordOk(s: State, e: PaymentEvent) {
    Achieved(s, e) && (LeftAlone(s, e.order) ==> RowsSettled(s.db.reservations, e))
  }

  predicate AllUntold(s: State) {
    forall o :: 0 <= o < |s.db.orders| ==> Untold(s, o)
  }

  predicate DeliveriesOk(s: State) {
    forall t :: 0 <= t < |s.tasks| ==> DeliveryOk(s, s.tasks[t])
  }

  predicate RecordsOk(s: State) {
    forall i :: 0 <= i < |s.db.payments| ==> RecordOk(s, s.db.payments[i])
  }

  predicate Settlements(s: State) {
    AllUntold(s) && DeliveriesOk(s) && RecordsOk(s)
  }

  // ---------------------------------------------------------------- what any step leaves as it is

  /** An order keeps its checkout and adds to its history, and is not deleted once its checkout is over. */
  predicate OrderGoesOn(s: State, s': State, o: nat) {
    OrderAt(s'.db, o).Some? || (OrderAt(s.db, o).Some? && Ended(s, OrderAt(s.db, o).value.checkout)) ==>
      && OrderAt(s.db, o).Some? && OrderAt(s'.db, o).Some?
      && OrderAt(s'.db, o).value.checkout == OrderAt(s.db, o).value.checkout
      && OrderAt(s.db, o).value.history <= OrderAt(s'.db, o).value.history
  }

  /** A row of an order past its checkout is not new and only loses standing. */
  predicate RowGoesOn(s: State, s': State, o: nat, r: nat) {
    OrderAt(s.db, o).Some? && Ended(s, OrderAt(s.db, o).value.checkout)
    && r < |s'.db.reservations| && s'.db.reservations[r].order == Some(o) ==>
      && r < |s.db.reservations| && s.db.reservations[r].order == Some(o)
      && (Active(s'.db.reservations[r]) ==> Active(s.db.reservations[r]))
      && (s'.db.reservations[r].status == Reserved ==> s.db.reservations[r].status == Reserved)
  }

  predicate GoesOn(s: State, s': State) {
    && s.touched <= s'.touched && |s.db.orders| <= |s'.db.orders|
    && (forall o :: 0 <= o < |s.db.orders| ==> OrderGoesOn(s, s', o))
    && (forall o, r :: 0 <= o < |s.db.orders| && 0 <= r < |s'.db.reservations| ==> RowGoesOn(s, s', o, r))
  }

  lemma HistoryGrows(db: Db, e: Effect, o: nat)
    requires o < |db.orders|
    ensures var db' := Effected(db, e);
            && o < |db'.orders|
            && (OrderAt(db', o).Some? ==>
                  && OrderAt(db, o).Some? && OrderAt(db', o).value.checkout == OrderAt(db, o).value.checkout
                  && OrderAt(db, o).value.history <= OrderAt(db', o).value.history
                  && (OrderAt(db', o).value.history != OrderAt(db, o).value.history ==> e.ChangeOrder? && e.id == o))
            && (OrderAt(db, o).Some? && OrderAt(db', o).None? ==> e == DeleteOrderRow(o))
  {
  }

  lemma StepOrderGoesOn(s: State, t: nat, now: int, o: nat)
    requires Inv(s) && t < |s.tasks| && o < |s.db.orders|
    ensures OrderGoesOn(s, After(s, t, now), o)
  {
    MoveEffectOk(s, t, now);
    HistoryGrows(s.db, NextMove(s.db, t, s.tasks[t], now).effect, o);
  }

  lemma EffectRowGoesOn(s: State, t: nat, m: Move, o: nat, r: nat)
    requires t < |s.tasks| && EffectOk(s, t, m.effect)
    requires r < |s.db.reservations| ==> RowOk(s, r)
    ensures RowGoesOn(s, Perform(s, t, m), o, r)
  {
    NewRow(s, t, m.effect);
    if r < |s.db.reservations| { RowAfter(s, t, m.effect, r); }
  }

  lemma StepRowGoesOn(s: State, t: nat, now: int, o: nat, r: nat)
    requires Inv(s) && t < |s.tasks|
    ensures RowGoesOn(s, After(s, t, now), o, r)
  {
    MoveEffectOk(s, t, now);
    EffectRowGoesOn(s, t, NextMove(s.db, t, s.tasks[t], now), o, r);
  }

  lemma OrdersAddUp(db: Db, e: Effect)
    ensures |db.orders| <= |Effected(db, e).orders|
  {
  }

  lemma StepGoesOn(s: State, t: nat, now: int)
    requires Inv(s) && t < |s.tasks|
    ensures GoesOn(s, After(s, t, now))
  {
    var s' := After(s, t, now);
    OrdersAddUp(s.db, NextMove(s.db, t, s.tasks[t], now).effect);
    forall o | 0 <= o < |s.db.orders| ensures OrderGoesOn(s, s', o) { StepOrderGoesOn(s, t, now, o); }
    forall o, r | 0 <= o < |s.db.orders| && 0 <= r < |s'.db.reservations| ensures RowGoesOn(s, s', o, r) {
      StepRowGoesOn(s, t, now, o, r);
    }
  }

  lemma SameGoesOn(s: State, s': State)
    requires s'.db == s.db && s.touched <= s'.touched
    ensures GoesOn(s, s')
  {
  }

  // ---------------------------------------------------------------- what has been achieved stays

  /** An order with an outcome, left alone, is past its checkout. */
  lemma ToldIsEnded(s: State, e: PaymentEvent)
    requires Known(s, e.order) && Untold(s, e.order) && LeftAlone(s, e.order) && HadOutcome(s.db, e)
    ensures Ended(s, OrderAt(s.db, e.order).value.checkout)
  {
  }

  lemma AloneBefore(s: State, s': State, o: nat)
    requires GoesOn(s, s') && o < |s.db.orders| && LeftAlone(s', o)
    ensures LeftAlone(s, o)
  {
    assert OrderGoesOn(s, s', o);
  }

  lemma OutcomeStays(s: State, s': State, e: PaymentEvent)
    requires GoesOn(s, s') && HadOutcome(s.db, e) && Ended(s, OrderAt(s.db, e.order).value.checkout)
    ensures HadOutcome(s'.db, e)
  {
    assert OrderGoesOn(s, s', e.order);
    var i :| 0 <= i < |OrderAt(s.db, e.order).value.history| && OrderAt(s.db, e.order).value.history[i].to == e.target;
    assert OrderAt(s'.db, e.order).value.history[i].to == e.target;
  }

  lemma SettledStays(s: State, s': State, e: PaymentEvent)
    requires GoesOn(s, s') && OrderAt(s.db, e.order).Some? && Ended(s, OrderAt(s.db, e.order).value.checkout)
    requires RowsSettled(s.db.reservations, e)
    ensures RowsSettled(s'.db.reservations, e)
  {
    forall r | 0 <= r < |s'.db.reservations| && s'.db.reservations[r].order == Some(e.order)
      ensures if e.target == Paid then s'.db.reservations[r].status != Reserved else !Active(s'.db.reservations[r])
    {
      assert RowGoesOn(s, s', e.order, r);
    }
  }

  lemma ListedStays(s: State, s': State, o: nat, todo: seq<nat>)
    requires GoesOn(s, s') && OrderAt(s.db, o).Some? && Ended(s, OrderAt(s.db, o).value.checkout)
    requires OnlyListed(s.db.reservations, o, todo)
    ensures OnlyListed(s'.db.reservations, o, todo)
  {
    forall r | 0 <= r < |s'.db.reservations| && ActiveFor(s'.db.reservations[r], o)
      ensures r in todo
    {
      assert RowGoesOn(s, s', o, r);
    }
  }

  lemma AchievedStays(s: State, s': State, e: PaymentEvent)
    requires GoesOn(s, s') && Achieved(s, e) && Known(s, e.order) && Untold(s, e.order)
    ensures Achieved(s', e)
    ensures LeftAlone(s', e.order) ==>
              LeftAlone(s, e.order) && OrderAt(s.db, e.order).Some? && Ended(s, OrderAt(s.db, e.order).value.checkout)
  {
    if LeftAlone(s', e.order) {
      AloneBefore(s, s', e.order);
      ToldIsEnded(s, e);
      OutcomeStays(s, s', e);
    }
  }

  lemma RecordStays(s: State, s': State, e: PaymentEvent)
    requires GoesOn(s, s') && RecordOk(s, e) && Known(s, e.order) && Untold(s, e.order)
    ensures RecordOk(s', e)
  {
    AchievedStays(s, s', e);
    if LeftAlone(s', e.order) { SettledStays(s, s', e); }
  }

  predicate Placid(s: State) {
    AllUntold(s) && forall o :: 0 <= o < |s.db.orders| ==> Known(s, o)
  }

  lemma DeliveryStays(s: State, s': State, k: Task)
    requires GoesOn(s, s') && Placid(s) && DeliveryOk(s, k)
    ensures DeliveryOk(s', k)
  {
    match k
    case Webhook(e, stage, _) =>
      if (stage.Settling? && stage.payment == e.target) || stage.Committing? || stage.Recording? {
        AchievedStays(s, s', e);
        if stage.Recording? { RecordStays(s, s', e); }
      }
    case Releasing(o, _, release, after) =>
      if after.RecordPayment? {
        AchievedStays(s, s', after.event);
        if LeftAlone(s', o) {
          if release.Listed? { ListedStays(s, s', o, release.todo); }
          if release.Owing? { ListedStays(s, s', o, release.todo); }
        }
      }
    case _ =>
  }

  // ---------------------------------------------------------------- a delivery's own steps

  /** An order whose payment is this outcome has it in its history. */
  lemma PaymentIsPast(db: Db, e: PaymentEvent)
    requires EventOk(e) && OrderAt(db, e.order).Some? && Consistent(OrderAt(db, e.order).value)
    requires OrderAt(db, e.order).value.payment == e.target
    ensures HadOutcome(db, e)
  {
    var h := OrderAt(db, e.order).value.history;
    assert h[|h| - 1].to == e.target;
  }

  lemma ReadOk(s: State, s': State, k: Task)
    requires k.Webhook? && (k.stage.Looking? || k.stage.Reading?) && WebhookOk(k) && s'.db == s.db
    requires OrderAt(s.db, k.event.order).Some? ==> Consistent(OrderAt(s.db, k.event.order).value)
    ensures DeliveryOk(s', MoveWebhook(s.db, k).next)
  {
    if OrderAt(s.db, k.event.order).Some? && OrderAt(s.db, k.event.order).value.payment == k.event.target {
      PaymentIsPast(s.db, k.event);
    }
  }

  lemma SettleWrites(db: Db, k: Task)
    requires k.Webhook? && k.stage.Settling?
    ensures var m := MoveWebhook(db, k);
            m.effect.ChangeOrder? ==> HadOutcome(Effected(db, m.effect), k.event)
  {
    var m := MoveWebhook(db, k);
    if m.effect.ChangeOrder? {
      var h := OrderAt(Effected(db, m.effect), k.event.order).value.history;
      assert h[|h| - 1].to == k.event.target;
    }
  }

  lemma SettleOk(s: State, s': State, k: Task)
    requires k.Webhook? && k.stage.Settling? && WebhookOk(k) && s'.db == Effected(s.db, MoveWebhook(s.db, k).effect)
    requires k.stage.payment == k.event.target ==> Achieved(s', k.event)
    ensures DeliveryOk(s', MoveWebhook(s.db, k).next)
  {
    SettleWrites(s.db, k);
  }

  lemma CommitOk(s: State, s': State, k: Task)
    requires k.Webhook? && (k.stage.Committing? || k.stage.Recording?) && DeliveryOk(s, k)
    requires s'.db == Effected(s.db, MoveWebhook(s.db, k).effect) && Achieved(s', k.event)
    ensures DeliveryOk(s', MoveWebhook(s.db, k).next)
  {
  }

  lemma OwnWebhookOk(s: State, s': State, k: Task)
    requires k.Webhook? && DeliveryOk(s, k) && WebhookOk(k) && Placid(s) && GoesOn(s, s')
    requires OrderAt(s.db, k.event.order).Some? ==> Consistent(OrderAt(s.db, k.event.order).value)
    requires s'.db == Effected(s.db, MoveWebhook(s.db, k).effect)
    ensures DeliveryOk(s', MoveWebhook(s.db, k).next)
  {
    if k.stage.Looking? || k.stage.Reading? {
      ReadOk(s, s', k);
    } else if k.stage.Settling? {
      if k.stage.payment == k.event.target { AchievedStays(s, s', k.event); }
      SettleOk(s, s', k);
    } else {
      AchievedStays(s, s', k.event);
      CommitOk(s, s', k);
    }
  }

  /** The rows still listed after one step of a release. */
  lemma ReleaseLists(db: Db, k: Task)
    requires k.Releasing? && FlipsDown(k)
    requires k.release.Listed? ==> OnlyListed(db.reservations, k.order, k.release.todo)
    requires k.release.Owing? ==> OnlyListed(db.reservations, k.order, k.release.todo)
    ensures var m := MoveRelease(db, k);
            var rows' := Effected(db, m.effect).reservations;
            if m.next.Releasing? then
              && m.next.order == k.order && m.next.after == k.after && !m.next.release.Finding?
              && OnlyListed(rows', k.order, m.next.release.todo)
            else k.release == Listed([]) && OnlyListed(rows', k.order, [])
  {
    var m := MoveRelease(db, k);
    var rows' := Effected(db, m.effect).reservations;
    assert |rows'| == |db.reservations|;
    if k.release.Listed? && k.release.todo != [] {
      var todo := k.release.todo;
      forall r | 0 <= r < |rows'| && ActiveFor(rows'[r], k.order)
        ensures r in todo[1..]
      {
        assert ActiveFor(db.reservations[r], k.order);
        assert r in todo && r != todo[0];
      }
    }
  }

  lemma OwnReleaseOk(s: State, s': State, k: Task)
    requires k.Releasing? && DeliveryOk(s, k) && FlipsDown(k) && Placid(s) && GoesOn(s, s')
    requires s'.db == Effected(s.db, MoveRelease(s.db, k).effect)
    ensures DeliveryOk(s', MoveRelease(s.db, k).next)
  {
    if k.after.RecordPayment? {
      AchievedStays(s, s', k.after.event);
      if LeftAlone(s', k.order) { ReleaseLists(s.db, k); }
    }
  }

  lemma OthersDeliverNothing(db: Db, t: nat, k: Task, now: int)
    requires !k.Webhook? && !k.Releasing?
    ensures var next := NextMove(db, t, k, now).next;
            !next.Webhook? && (next.Releasing? ==> !next.after.RecordPayment?)
  {
  }

  lemma OwnDeliveryOk(s: State, t: nat, now: int)
    requires Inv(s) && Settlements(s) && t < |s.tasks|
    ensures DeliveryOk(After(s, t, now), After(s, t, now).tasks[t])
  {
    var k, s' := s.tasks[t], After(s, t, now);
    assert DeliveryOk(s, k) && WebhookOk(k) && FlipsDown(k);
    StepGoesOn(s, t, now);
    if k.Webhook? {
      assert k.event.order < |s.db.orders| ==> OrderOk(s.db.orders[k.event.order]);
      OwnWebhookOk(s, s', k);
    } else if k.Releasing? {
      OwnReleaseOk(s, s', k);
    } else {
      OthersDeliverNothing(s.db, t, k, now);
    }
  }

  // ---------------------------------------------------------------- every step keeps all of it

  lemma NewIsUntold(db: Db, t: nat, k: Task, now: int)
    ensures var e := NextMove(db, t, k, now).effect; e.PlaceOrder? ==> e.placedOrder.history == []
  {
  }

  lemma OldIsUntold(s: State, t: nat, m: Move, o: nat)
    requires t < |s.tasks| && o < |s.db.orders| && Untold(s, o)
    requires forall c :: InFlight(Perform(s, t, m), c) ==> InFlight(s, c)
    ensures Untold(Perform(s, t, m), o)
  {
    HistoryGrows(s.db, m.effect, o);
  }

  lemma UntoldStays(s: State, t: nat, now: int, o: nat)
    requires Inv(s) && Settlements(s) && t < |s.tasks| && o < |After(s, t, now).db.orders|
    ensures Untold(After(s, t, now), o)
  {
    var m := NextMove(s.db, t, s.tasks[t], now);
    OnlyCheckoutsGoOn(s.db, t, s.tasks[t], now);
    if o < |s.db.orders| {
      OldIsUntold(s, t, m, o);
    } else {
      MoveEffectOk(s, t, now);
      NewRow(s, t, m.effect);
      NewIsUntold(s.db, t, s.tasks[t], now);
    }
  }

  lemma RecordedBy(db: Db, t: nat, k: Task, now: int)
    ensures var e := NextMove(db, t, k, now).effect;
            && (e.AddPayment? ==> k.Webhook? && k.stage == Recording && e.payment == k.event)
            && Effected(db, e).payments == if e.AddPayment? then db.payments + [e.payment] else db.payments
  {
  }

  lemma RecordsKept(s: State, s': State, k: Task, e: Effect)
    requires Placid(s) && RecordsOk(s) && DeliveryOk(s, k) && GoesOn(s, s')
    requires e.AddPayment? ==> k.Webhook? && k.stage == Recording && e.payment == k.event
    requires s'.db.payments == if e.AddPayment? then s.db.payments + [e.payment] else s.db.payments
    ensures RecordsOk(s')
  {
    forall i | 0 <= i < |s'.db.payments|
      ensures RecordOk(s', s'.db.payments[i])
    {
      RecordStays(s, s', s'.db.payments[i]);
    }
  }

  lemma InvIsPlacid(s: State)
    requires Inv(s) && Settlements(s)
    ensures Placid(s)
  {
  }

  lemma DeliveriesKept(s: State, t: nat, now: int)
    requires Inv(s) && Settlements(s) && t < |s.tasks|
    ensures DeliveriesOk(After(s, t, now))
  {
    var s' := After(s, t, now);
    InvIsPlacid(s);
    StepGoesOn(s, t, now);
    forall i | 0 <= i < |s'.tasks|
      ensures DeliveryOk(s', s'.tasks[i])
    {
      if i == t {
        OwnDeliveryOk(s, t, now);
      } else {
        assert DeliveryOk(s, s.tasks[i]);
        DeliveryStays(s, s', s.tasks[i]);
      }
    }
  }

  lemma SettlementsRun(s: State, t: nat, now: int)
    requires Inv(s) && Settlements(s) && t < |s.tasks|
    ensures Settlements(After(s, t, now))
  {
    var s' := After(s, t, now);
    forall o | 0 <= o < |s'.db.orders| ensures Untold(s', o) { UntoldStays(s, t, now, o); }
    DeliveriesKept(s, t, now);
    InvIsPlacid(s);
    StepGoesOn(s, t, now);
    assert DeliveryOk(s, s.tasks[t]);
    RecordedBy(s.db, t, s.tasks[t], now);
    RecordsKept(s, s', s.tasks[t], NextMove(s.db, t, s.tasks[t], now).effect);
  }

  lemma NewDeliveryOk(s: State, k: Task)
    requires Begins(k)
    ensures DeliveryOk(s, k)
  {
  }

  /** Actions that leave the database alone. */
  lemma SettlementsSame(s: State, s': State)
    requires Placid(s) && Settlements(s) && s'.db == s.db && s.touched <= s'.touched && |s.tasks| <= |s'.tasks|
    requires forall t :: 0 <= t < |s.tasks| && s'.tasks[t].Checkout? ==> s.tasks[t].Checkout?
    requires forall t :: 0 <= t < |s'.tasks| ==> DeliveryOk(s, s'.tasks[t])
    ensures Settlements(s')
  {
    SameGoesOn(s, s');
    forall o | 0 <= o < |s'.db.orders| ensures Untold(s', o) { assert Untold(s, o) && Known(s, o); }
    forall t | 0 <= t < |s'.tasks| ensures DeliveryOk(s', s'.tasks[t]) { DeliveryStays(s, s', s'.tasks[t]); }
    forall i | 0 <= i < |s'.db.payments|
      ensures RecordOk(s', s'.db.payments[i])
    {
      RecordStays(s, s', s.db.payments[i]);
    }
  }

  lemma SettlementsQuiet(s: State, a: Action)
    requires Inv(s) && Settlements(s) && !a.RunTask?
    ensures Settlements(Step(s, a))
  {
    var s' := Step(s, a);
    QuietAction(s, a);
    InvIsPlacid(s);
    forall t | 0 <= t < |s'.tasks|
      ensures DeliveryOk(s, s'.tasks[t])
    {
      if t < |s.tasks| {
        assert DeliveryOk(s, s.tasks[t]);
      } else {
        StartsOnly(s, a);
        NewDeliveryOk(s, s'.tasks[t]);
      }
    }
    SettlementsSame(s, s');
  }

  lemma SettlementsKept(s: State, a: Action)
    requires Inv(s) && Settlements(s)
    ensures Settlements(Step(s, a))
  {
    if a.RunTask? {
      if a.task < |s.tasks| { SettlementsRun(s, a.task, a.now); }
    } else {
      SettlementsQuiet(s, a);
    }
  }

  lemma {:induction false} RunSettlements(s: State, actions: seq<Action>)
    requires Opening(s)
    ensures Settlements(Steps(s, actions))
  {
    if actions != [] {
      var n := |actions| - 1;
      RunSettlements(s, actions[..n]);
      RunBooks(s, actions[..n], 0);
      SettlementsKept(Steps(s, actions[..n]), actions[n]);
    }
  }

  // ---------------------------------------------------------------- main results

  /**
   * In every state of every run a payment record means that its order, if its checkout was not disturbed,
   * has had the outcome, and that the order's reservations are settled: none of a paid one waits to be
   * committed, and a failed or refunded one holds none.
   */
  lemma {:induction false} RecordMeansSettled(s: State, actions: seq<Action>, i: nat)
    requires Opening(s)
    ensures var s' := Steps(s, actions);
            i < |s'.db.payments| && LeftAlone(s', s'.db.payments[i].order) ==>
              HadOutcome(s'.db, s'.db.payments[i]) && RowsSettled(s'.db.reservations, s'.db.payments[i])
  {
    RunSettlements(s, actions);
    assert RecordsOk(Steps(s, actions));
  }

  /** A delivery of this outcome to this order, at whatever stage, its release included. */
  predicate Delivers(k: Task, e: PaymentEvent) {
    match k
    case Webhook(e', _, _) => e'.order == e.order && e'.target == e.target
    case Releasing(_, _, _, after) =>
      after.RecordPayment? && after.event.order == e.order && after.event.target == e.target
    case _ => false
  }

  /** It has taken units over from a reservation and not put them back yet. */
  predicate Owes(k: Task) {
    k.Releasing? && k.release.Owing?
  }

  /** Only payments, and the stock a task owes, may differ. */
  predicate OnlyPaysBack(db: Db, k: Task, db': Db, k': Task) {
    && db' == db.(products := db'.products, payments := db'.payments)
    && (forall p :: p in db.products ==> StockOf(db', p) + Owed(p)(k') == StockOf(db, p) + Owed(p)(k))
    && (db'.products != db.products <==> Owes(k) && k.release.product in db.products)
    && (Owes(k') ==> Owes(k))
  }

  lemma RepeatSettles(db: Db, k: Task, e: PaymentEvent)
    requires k.Webhook? && k.stage.Settling? && Delivers(k, e) && WebhookOk(k)
    requires HadOutcome(db, e) && Consistent(OrderAt(db, e.order).value)
    ensures MoveWebhook(db, k).effect == Nothing
  {
    var i :| 0 <= i < |OrderAt(db, e.order).value.history| && OrderAt(db, e.order).value.history[i].to == e.target;
    OutcomeIsPast(OrderAt(db, e.order).value, i, e.target);
  }

  lemma RepeatCommits(db: Db, e: PaymentEvent)
    requires e.target == Paid && RowsSettled(db.reservations, e)
    ensures CommitReservations(db, e.order) == db
  {
    assert CommitReservations(db, e.order).reservations == db.reservations;
  }

  /** Looking up, reading and recording change at most the payment records. */
  lemma EarlyOrLate(db: Db, k: Task)
    requires k.Webhook? && (k.stage.Looking? || k.stage.Reading? || k.stage.Recording?)
    ensures var m := MoveWebhook(db, k);
            Effected(db, m.effect) == db.(payments := Effected(db, m.effect).payments)
              && (m.next.Finished? || m.next.Webhook?)
  {
  }

  lemma RepeatWebhook(s: State, k: Task, e: PaymentEvent)
    requires k.Webhook? && Delivers(k, e) && WebhookOk(k) && DeliveryOk(s, k)
    requires HadOutcome(s.db, e) && Consistent(OrderAt(s.db, e.order).value) && RowsSettled(s.db.reservations, e)
    ensures var m := MoveWebhook(s.db, k);
            OnlyPaysBack(s.db, k, Effected(s.db, m.effect), m.next)
  {
    if k.stage.Settling? {
      RepeatSettles(s.db, k, e);
    } else if k.stage.Committing? {
      RepeatCommits(s.db, e);
    } else {
      EarlyOrLate(s.db, k);
    }
  }

  lemma RepeatRelease(s: State, k: Task, e: PaymentEvent)
    requires k.Releasing? && Delivers(k, e) && ReleaserOk(s, k) && DeliveryOk(s, k) && RowsSettled(s.db.reservations, e)
    ensures var m := MoveRelease(s.db, k);
            OnlyPaysBack(s.db, k, Effected(s.db, m.effect), m.next)
  {
    if k.release.Listed? && k.release.todo != [] {
      assert s.db.reservations[k.release.todo[0]].order == Some(e.order);
    }
    if k.release.Owing? && k.release.product in s.db.products {
      var p := k.release.product;
      assert StockOf(AddStock(s.db, p, k.release.quantity), p) != StockOf(s.db, p);
    }
  }

  lemma RepeatStep(s: State, t: nat, now: int, e: PaymentEvent)
    requires t < |s.tasks| && Delivers(s.tasks[t], e)
    requires DeliveryOk(s, s.tasks[t]) && WebhookOk(s.tasks[t]) && ReleaserOk(s, s.tasks[t])
    requires HadOutcome(s.db, e) && OrderOk(OrderAt(s.db, e.order)) && RowsSettled(s.db.reservations, e)
    ensures var s' := Step(s, RunTask(t, now));
            OnlyPaysBack(s.db, s.tasks[t], s'.db, s'.tasks[t])
  {
    if s.tasks[t].Webhook? {
      RepeatWebhook(s, s.tasks[t], e);
    } else {
      RepeatRelease(s, s.tasks[t], e);
    }
  }

  lemma PartsOk(s: State, t: nat, o: nat)
    requires Inv(s) && Settlements(s) && t < |s.tasks|
    ensures DeliveryOk(s, s.tasks[t]) && WebhookOk(s.tasks[t]) && ReleaserOk(s, s.tasks[t]) && OrderOk(OrderAt(s.db, o))
  {
    assert DeliveriesOk(s) && AllWebhooksOk(s) && TasksOk(s) && AllConsistent(s);
  }

  /**
   * From the moment one delivery of an event is on record, whatever else runs beside it, no step of any
   * other delivery of the same outcome to the same order, its release included, changes an order or a
   * reservation. It can still put back units that it had taken over from a reservation before the record
   * was written, and nothing else: a delivery that owes nothing changes no stock and never owes any.
   */
  lemma {:induction false} RepeatChangesNothing(s: State, actions: seq<Action>, i: nat, t: nat, now: int)
    requires Opening(s)
    ensures var s' := Steps(s, actions);
            i < |s'.db.payments| && LeftAlone(s', s'.db.payments[i].order) && t < |s'.tasks|
            && Delivers(s'.tasks[t], s'.db.payments[i]) ==>
              var s'' := Step(s', RunTask(t, now));
              OnlyPaysBack(s'.db, s'.tasks[t], s''.db, s''.tasks[t])
  {
    var s' := Steps(s, actions);
    RunSettlements(s, actions);
    RunBooks(s, actions, 0);
    if i < |s'.db.payments| && LeftAlone(s', s'.db.payments[i].order) && t < |s'.tasks|
       && Delivers(s'.tasks[t], s'.db.payments[i]) {
      var e := s'.db.payments[i];
      assert RecordsOk(s') && RecordOk(s', e);
      PartsOk(s', t, e.order);
      RepeatStep(s', t, now, e);
    }
  }

  /** A delivery's lookup changes nothing, and ends it exactly if its id or its signed content is on record. */
  lemma LaterDeliveryEnds(s: State, t: nat, now: int)
    requires t < |s.tasks| && s.tasks[t].Webhook? && s.tasks[t].stage.Looking?
    ensures var e, s' := s.tasks[t].event, Step(s, RunTask(t, now));
            && s' == s.(tasks := s.tasks[t := s'.tasks[t]])
            && (s'.tasks[t].Finished? <==>
                exists i :: 0 <= i < |s.db.payments|
                            && (s.db.payments[i].digest == e.digest
                                || (s.db.payments[i].provider == e.provider && s.db.payments[i].eventId == e.eventId)))
  {
    var e := s.tasks[t].event;
    if i :| 0 <= i < |s.db.payments| && (s.db.payments[i].digest == e.digest
                                         || (s.db.payments[i].provider == e.provider
                                             && s.db.payments[i].eventId == e.eventId)) {
      assert SameEvent(s.db.payments[i], e.provider, e.eventId, e.digest);
    }
    assert Step(s, RunTask(t, now)).tasks[t].Finished? <==> KnownEvent(s.db, e.provider, e.eventId, e.digest);
  }
}
