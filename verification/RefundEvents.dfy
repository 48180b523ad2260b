/**
 * Orders inside the protocol: every order document stays one of the reachable states and only moves
 * along its tables, and a refund is announced at most once.
 */
module RefundEvents {
  import opened Wrappers
  import opened Orders
  import opened Sums
  import opened Store
  import opened Protocol

  // ---------------------------------------------------------------- admissible webhooks

  predicate EventOk(e: PaymentEvent) {
    e.target in {Paid, Failed, Refunded}
  }

  /** What a webhook has checked on the copy of the order it read. */
  predicate WebhookOk(k: Task) {
    match k
    case Webhook(e, stage, _) =>
      && EventOk(e)
      && (stage.Settling? ==>
            CanTransitionPayment(stage.payment, e.target) && !(stage.status == Cancelled && e.target == Paid))
    case Releasing(_, _, _, after) => after.RecordPayment? ==> EventOk(after.event)
    case _ => true
  }

  predicate AllWebhooksOk(s: State) {
    forall t :: 0 <= t < |s.tasks| ==> WebhookOk(s.tasks[t])
  }

  lemma MoveWebhookOk(db: Db, t: nat, k: Task, now: int)
    requires WebhookOk(k)
    ensures var m := NextMove(db, t, k, now);
            WebhookOk(m.next) && (m.effect.ChangeOrder? ==>
                                  Admissible(m.effect.update) && CanUpdate(db, m.effect.id, m.effect.update))
  {
  }

  lemma WebhooksKept(s: State, a: Action)
    requires AllWebhooksOk(s)
    ensures AllWebhooksOk(Step(s, a))
  {
    var s' := Step(s, a);
    forall t | 0 <= t < |s'.tasks|
      ensures WebhookOk(s'.tasks[t])
    {
      if t < |s.tasks| {
        assert WebhookOk(s.tasks[t]);
        if a.RunTask? && a.task == t {
          MoveWebhookOk(s.db, t, s.tasks[t], a.now);
        }
      }
    }
  }

  // ---------------------------------------------------------------- every order stays consistent

  predicate OrderOk(o: Option<Order>) {
    o.Some? ==> Consistent(o.value)
  }

  predicate AllConsistent(s: State) {
    forall o :: 0 <= o < |s.db.orders| ==> OrderOk(s.db.orders[o])
  }

  /** What a step may do to an order: delete it, or move it along its tables. */
  predicate OrderMoves(o: Option<Order>, o': Option<Order>) {
    o'.Some? ==> o.Some? && Moves(o.value, o'.value)
  }

  lemma MovesNowhere(o: Option<Order>)
    requires OrderOk(o)
    ensures OrderMoves(o, o)
  {
  }

  /** Every effect but an update leaves an order as it is or deletes it. */
  lemma OtherEffectOnOrder(db: Db, e: Effect, o: nat)
    requires o < |db.orders| && !e.ChangeOrder?
    ensures |db.orders| <= |Effected(db, e).orders|
    ensures Effected(db, e).orders[o] == db.orders[o] || Effected(db, e).orders[o] == None
  {
  }

  lemma UpdateOnOrder(db: Db, id: nat, u: Update, o: nat)
    requires o < |db.orders| && OrderOk(db.orders[o]) && Admissible(u) && CanUpdate(db, id, u)
    ensures |UpdateOrder(db, id, u).orders| == |db.orders|
    ensures OrderOk(UpdateOrder(db, id, u).orders[o]) && OrderMoves(db.orders[o], UpdateOrder(db, id, u).orders[o])
  {
    if id == o {
      UpdateKeepsConsistent(db.orders[o].value, u);
    } else {
      MovesNowhere(db.orders[o]);
    }
  }

  lemma EffectOnOrder(db: Db, e: Effect, o: nat)
    requires o < |db.orders| && OrderOk(db.orders[o])
    requires e.ChangeOrder? ==> Admissible(e.update) && CanUpdate(db, e.id, e.update)
    ensures |db.orders| <= |Effected(db, e).orders|
    ensures OrderOk(Effected(db, e).orders[o]) && OrderMoves(db.orders[o], Effected(db, e).orders[o])
  {
    if e.ChangeOrder? {
      UpdateOnOrder(db, e.id, e.update, o);
    } else {
      OtherEffectOnOrder(db, e, o);
      MovesNowhere(db.orders[o]);
    }
  }

  lemma NewOrderOk(db: Db, t: nat, k: Task, now: int)
    ensures var e := NextMove(db, t, k, now).effect;
            && (e.PlaceOrder? ==> Consistent(e.placedOrder) && e.placedOrder.refundRequestedAt == None)
            && (!e.PlaceOrder? ==> |Effected(db, e).orders| == |db.orders|)
  {
  }

  predicate OrdersMove(orders: seq<Option<Order>>, orders': seq<Option<Order>>) {
    && |orders| <= |orders'|
    && (forall o :: 0 <= o < |orders'| ==> OrderOk(orders'[o]))
    && (forall o :: 0 <= o < |orders| ==> OrderMoves(orders[o], orders'[o]))
  }

  lemma EffectOnOrders(db: Db, e: Effect)
    requires forall o :: 0 <= o < |db.orders| ==> OrderOk(db.orders[o])
    requires e.ChangeOrder? ==> Admissible(e.update) && CanUpdate(db, e.id, e.update)
    requires e.PlaceOrder? ==> Consistent(e.placedOrder)
    requires !e.PlaceOrder? ==> |Effected(db, e).orders| == |db.orders|
    ensures OrdersMove(db.orders, Effected(db, e).orders)
  {
    var orders' := Effected(db, e).orders;
    forall o | 0 <= o < |orders'|
      ensures OrderOk(orders'[o])
      ensures o < |db.orders| ==> OrderMoves(db.orders[o], orders'[o])
    {
      if o < |db.orders| { EffectOnOrder(db, e, o); }
    }
  }

  /** Every step, by whomever and on however stale a copy, moves every order along the tables. */
  lemma OrdersKept(s: State, a: Action)
    requires AllWebhooksOk(s) && AllConsistent(s)
    ensures AllConsistent(Step(s, a))
    ensures |s.db.orders| <= |Step(s, a).db.orders|
    ensures forall o :: 0 <= o < |s.db.orders| ==> OrderMoves(s.db.orders[o], Step(s, a).db.orders[o])
  {
    if a.RunTask? && a.task < |s.tasks| {
      var k := s.tasks[a.task];
      assert WebhookOk(k);
      MoveWebhookOk(s.db, a.task, k, a.now);
      NewOrderOk(s.db, a.task, k, a.now);
      EffectOnOrders(s.db, NextMove(s.db, a.task, k, a.now).effect);
    } else {
      forall o | 0 <= o < |s.db.orders|
        ensures OrderMoves(s.db.orders[o], s.db.orders[o])
      {
        MovesNowhere(s.db.orders[o]);
      }
    }
  }

  // ---------------------------------------------------------------- one announcement per refund

  function Announces(order: nat): DomainEvent -> int {
    (e: DomainEvent) => if e == DomainEvent(RefundWasRequested, order) then 1 else 0
  }

  /** A request that has opened the refund of the order and still has to announce it. */
  function WillAnnounce(order: nat): Task -> int {
    (k: Task) =>
      match k
      case Releasing(o, _, _, after) => if o == order && after == TellCancelled(true) then 1 else 0
      case Telling(o, _, refund) => if o == order && refund then 1 else 0
      case _ => 0
  }

  function LostFor(order: nat): nat -> int {
    (o: nat) => if o == order then 1 else 0
  }

  function Announcements(s: State, o: nat): int {
    Sum(s.db.events, Announces(o))
  }

  function Accounted(s: State, o: nat): int {
    Announcements(s, o) + Sum(s.tasks, WillAnnounce(o)) + Sum(s.dropped, LostFor(o))
  }

  function Opened(o: Option<Order>): int {
    if o.Some? && o.value.refundRequestedAt.Some? then 1 else 0
  }

  predicate AnnouncedOnce(s: State, o: nat) {
    && Accounted(s, o) <= 1
    && (o >= |s.db.orders| ==> Accounted(s, o) == 0)
    && (OrderAt(s.db, o).Some? ==> Accounted(s, o) == Opened(OrderAt(s.db, o)))
  }

  function EventChange(e: Effect, o: nat): int {
    if e.AddEvent? then Announces(o)(e.event) else 0
  }

  lemma EffectOnEvents(db: Db, e: Effect, o: nat)
    ensures Sum(Effected(db, e).events, Announces(o)) == Sum(db.events, Announces(o)) + EventChange(e, o)
  {
    if e.AddEvent? {
      SumAppend(db.events, e.event, Announces(o));
    }
  }

  /** Whether an effect opens the refund of the order. */
  function Opens(e: Effect, o: nat): int {
    if e.ChangeOrder? && e.id == o && (e.update.CancelPaid? || e.update.RequestRefund?) then 1 else 0
  }

  lemma EffectOpens(db: Db, e: Effect, o: nat)
    requires o < |db.orders| && OrderOk(db.orders[o])
    requires e.ChangeOrder? ==> CanUpdate(db, e.id, e.update)
    ensures OrderAt(Effected(db, e), o).Some? ==>
            Opened(OrderAt(Effected(db, e), o)) == Opened(db.orders[o]) + Opens(e, o)
  {
  }

  lemma MoveAnnounces(db: Db, t: nat, k: Task, now: int, o: nat)
    ensures var m := NextMove(db, t, k, now);
            EventChange(m.effect, o) + WillAnnounce(o)(m.next) - WillAnnounce(o)(k) == Opens(m.effect, o)
  {
  }

  lemma PerformAnnounces(s: State, t: nat, now: int, o: nat)
    requires t < |s.tasks|
    ensures var m := NextMove(s.db, t, s.tasks[t], now);
            Accounted(Perform(s, t, m), o) == Accounted(s, o) + Opens(m.effect, o)
  {
    var m := NextMove(s.db, t, s.tasks[t], now);
    MoveAnnounces(s.db, t, s.tasks[t], now, o);
    EffectOnEvents(s.db, m.effect, o);
    SumUpdate(s.tasks, t, m.next, WillAnnounce(o));
  }

  lemma RunAnnouncedKept(s: State, t: nat, now: int, o: nat)
    requires AllWebhooksOk(s) && AllConsistent(s) && AnnouncedOnce(s, o) && t < |s.tasks|
    ensures AnnouncedOnce(Perform(s, t, NextMove(s.db, t, s.tasks[t], now)), o)
  {
    var m := NextMove(s.db, t, s.tasks[t], now);
    assert WebhookOk(s.tasks[t]);
    MoveWebhookOk(s.db, t, s.tasks[t], now);
    PerformAnnounces(s, t, now, o);
    NewOrderOk(s.db, t, s.tasks[t], now);
    if o < |s.db.orders| {
      assert OrderOk(s.db.orders[o]);
      EffectOpens(s.db, m.effect, o);
      EffectOnOrder(s.db, m.effect, o);
    }
  }

  /** A failing request loses its announcement or keeps it. */
  lemma FailureAccounts(k: Task, o: nat)
    ensures WillAnnounce(o)(k)
            == WillAnnounce(o)(FailedTask(k)) + if k.Telling? && k.refund then LostFor(o)(k.order) else 0
  {
  }

  lemma FailAnnounced(s: State, t: nat, o: nat)
    requires t < |s.tasks| && AnnouncedOnce(s, o)
    ensures AnnouncedOnce(Step(s, FailTask(t)), o)
  {
    var k := s.tasks[t];
    FailureAccounts(k, o);
    SumUpdate(s.tasks, t, FailedTask(k), WillAnnounce(o));
    if k.Telling? && k.refund {
      SumAppend(s.dropped, k.order, LostFor(o));
    }
    assert Accounted(Step(s, FailTask(t)), o) == Accounted(s, o);
  }

  lemma StartAnnounced(s: State, a: Action, o: nat)
    requires !a.RunTask? && !a.FailTask? && AnnouncedOnce(s, o)
    ensures AnnouncedOnce(Step(s, a), o)
  {
    var s' := Step(s, a);
    StartsOnly(s, a);
    if s'.tasks != s.tasks {
      SumAppend(s.tasks, s'.tasks[|s.tasks|], WillAnnounce(o));
    }
  }

  lemma AnnouncedKept(s: State, a: Action, o: nat)
    requires AllWebhooksOk(s) && AllConsistent(s) && AnnouncedOnce(s, o)
    ensures AnnouncedOnce(Step(s, a), o)
  {
    match a
    case RunTask(t, now) => if t < |s.tasks| { RunAnnouncedKept(s, t, now, o); }
    case FailTask(t) => if t < |s.tasks| { FailAnnounced(s, t, o); }
    case _ => StartAnnounced(s, a, o);
  }

  // ---------------------------------------------------------------- whole runs

  lemma {:induction false} RunOrders(s: State, actions: seq<Action>)
    requires Opening(s)
    ensures AllWebhooksOk(Steps(s, actions)) && AllConsistent(Steps(s, actions))
  {
    if actions != [] {
      var n := |actions| - 1;
      RunOrders(s, actions[..n]);
      WebhooksKept(Steps(s, actions[..n]), actions[n]);
      OrdersKept(Steps(s, actions[..n]), actions[n]);
    }
  }

  lemma {:induction false} RunAnnounced(s: State, actions: seq<Action>, o: nat)
    requires Opening(s)
    ensures AnnouncedOnce(Steps(s, actions), o)
  {
    if actions != [] {
      var n := |actions| - 1;
      RunAnnounced(s, actions[..n], o);
      RunOrders(s, actions[..n]);
      AnnouncedKept(Steps(s, actions[..n]), actions[n], o);
    }
  }

  /**
   * In every state of every interleaving an order, deleted ones included, has at most one refund
   * announcement. One that is there has exactly one as soon as a cancellation or a request has opened
   * the refund, once that request is done, unless the record itself could not be written; it has none if
   * nobody opened a refund.
   */
  lemma {:induction false} RefundAnnouncedOnce(s: State, actions: seq<Action>, o: nat)
    requires Opening(s)
    ensures var s' := Steps(s, actions);
            && 0 <= Announcements(s', o) <= 1
            && (OrderAt(s'.db, o).Some? ==>
                  var order := OrderAt(s'.db, o).value;
                  && (Announcements(s', o) == 1 ==> order.refundRequestedAt.Some?)
                  && (Sum(s'.tasks, WillAnnounce(o)) == 0 && Sum(s'.dropped, LostFor(o)) == 0 ==>
                        (Announcements(s', o) == 1 <==> order.refundRequestedAt.Some?)))
  {
    var s' := Steps(s, actions);
    RunAnnounced(s, actions, o);
    SumNonNegative(s'.db.events, Announces(o));
    SumNonNegative(s'.tasks, WillAnnounce(o));
    SumNonNegative(s'.dropped, LostFor(o));
  }

  // ---------------------------------------------------------------- atomic refunds

  /** A request that has opened a refund and still has to announce it. */
  predicate OpenRefund(k: Task) {
    match k
    case Releasing(_, _, _, after) => after == TellCancelled(true)
    case Telling(_, _, refund) => refund
    case _ => false
  }

  predicate HasOpened(s: State, task: nat) {
    task < |s.tasks| && OpenRefund(s.tasks[task])
  }

  /** A transaction: a request that has opened a refund goes on, without a failure, until it has announced it. */
  ghost predicate AtomicRefunds(s: State, actions: seq<Action>) {
    forall i, c :: 0 <= i < |actions| && HasOpened(Steps(s, actions[..i]), c) ==>
      actions[i].RunTask? && actions[i].task == c
  }

  lemma NothingDropped(s: State, a: Action)
    requires forall c :: HasOpened(s, c) ==> a.RunTask?
    ensures Step(s, a).dropped == s.dropped
  {
    assert a.FailTask? ==> !HasOpened(s, a.task);
  }

  lemma {:induction false} AtomicDropsNothing(s: State, actions: seq<Action>)
    requires Opening(s) && AtomicRefunds(s, actions)
    ensures Steps(s, actions).dropped == []
  {
    if actions != [] {
      var n := |actions| - 1;
      forall i, c | 0 <= i < n && HasOpened(Steps(s, actions[..n][..i]), c)
        ensures actions[..n][i].RunTask? && actions[..n][i].task == c
      {
        assert actions[..n][..i] == actions[..i];
      }
      AtomicDropsNothing(s, actions[..n]);
      NothingDropped(Steps(s, actions[..n]), actions[n]);
    }
  }

  /**
   * With transactions no announcement is lost: whenever none of them is half-way, the event exists
   * exactly if the refund of the order has been opened.
   */
  lemma {:induction false} AtomicRefundsAnnounced(s: State, actions: seq<Action>, o: nat)
    requires Opening(s) && AtomicRefunds(s, actions)
    ensures var s' := Steps(s, actions);
            OrderAt(s'.db, o).Some? && (forall c :: !HasOpened(s', c)) ==>
              (Announcements(s', o) == 1 <==> OrderAt(s'.db, o).value.refundRequestedAt.Some?)
  {
    var s' := Steps(s, actions);
    RefundAnnouncedOnce(s, actions, o);
    AtomicDropsNothing(s, actions);
    if forall c :: !HasOpened(s', c) {
      forall c | 0 <= c < |s'.tasks|
        ensures WillAnnounce(o)(s'.tasks[c]) == 0
      {
        assert !HasOpened(s', c);
      }
      SumZero(s'.tasks, WillAnnounce(o));
    }
  }

  /** One of the fifteen combinations, a history that is a path, and no outcome twice. */
  predicate Lived(order: Order) {
    && Closed(order.status, order.payment, order.refund)
    && HistoryOk(order.history, order.payment)
    && (forall i, j :: 0 <= i < j < |order.history| ==> order.history[i].to != order.history[j].to)
  }

  /**
   * In every state of every interleaving each order is in one of the fifteen reachable combinations,
   * its history is a path through the payment table, and no payment outcome was written twice.
   */
  lemma {:induction false} OrdersAlwaysConsistent(s: State, actions: seq<Action>, o: nat)
    requires Opening(s)
    ensures OrderAt(Steps(s, actions).db, o).Some? ==> Lived(OrderAt(Steps(s, actions).db, o).value)
  {
    RunOrders(s, actions);
    if OrderAt(Steps(s, actions).db, o).Some? {
      var order := OrderAt(Steps(s, actions).db, o).value;
      assert OrderOk(Steps(s, actions).db.orders[o]);
      forall i, j | 0 <= i < j < |order.history|
        ensures order.history[i].to != order.history[j].to
      {
        HistoryClimbs(order.history, order.payment, i, j);
      }
    }
  }
}
