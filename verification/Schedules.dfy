/**
 * Schedules that leave running checkouts alone. Two things, both of which can be told before an action is
 * taken, keep the books exact without transactions: a sweep starts before the deadline of every checkout
 * still running, and no request names an order whose checkout is still running.
 */
module Schedules {
  import opened Wrappers
  import opened Sums
  import opened Store
  import opened Protocol
  import opened Conservation
  import opened RefundEvents
  import opened Standing
  import opened Books
  import opened Resting
  import Races
  import Runs

  // ---------------------------------------------------------------- the condition

  /** A request that came with this order's id. */
  predicate Names(k: Task, o: nat) {
    match k
    case Cancelling(order, _, _) => order == o
    case AskingRefund(order, _, _) => order == o
    case Webhook(e, _, _) => e.order == o
    case Shipping(order, _, _) => order == o
    case _ => false
  }

  /** No request under way names the order of a running checkout: its buyer has not been told of it yet. */
  predicate Discreet(s: State) {
    forall t, c :: 0 <= t < |s.tasks| && 0 <= c < |s.tasks| && s.tasks[c].Checkout? && s.tasks[c].placed.Some? ==>
      !Names(s.tasks[t], s.tasks[c].placed.value)
  }

  /** No running checkout has reached the deadline of its reservations. */
  predicate Patient(s: State, now: int) {
    forall c :: 0 <= c < |s.tasks| && s.tasks[c].Checkout? && s.tasks[c].at != ReadCart ==> now < s.tasks[c].deadline
  }

  predicate Timely(s: State, a: Action) {
    Discreet(s) && (a.StartSweep? ==> Patient(s, a.now))
  }

  predicate OnSchedule(s: State, actions: seq<Action>) {
    forall i :: 0 <= i < |actions| ==> Timely(Steps(s, actions[..i]), actions[i])
  }

  // ---------------------------------------------------------------- orders that are over

  predicate LinksOver(s: State, o: nat) {
    forall r :: 0 <= r < |s.db.reservations| && s.db.reservations[r].order == Some(o) ==>
      Ended(s, s.db.reservations[r].checkout)
  }

  /** The checkout of the order, and of every row linked to it, has ended. */
  predicate Over(s: State, o: nat) {
    o < |s.db.orders| && (s.db.orders[o].Some? ==> Ended(s, s.db.orders[o].value.checkout)) && LinksOver(s, o)
  }

  predicate ListingOver(s: State, x: Expiry) {
    && x.id < |s.db.reservations| && Ended(s, s.db.reservations[x.id].checkout)
    && (x.order.Some? ==> Over(s, x.order.value))
  }

  predicate SweepOver(s: State, w: Sweep) {
    forall i :: 0 <= i < |w.rest| ==> ListingOver(s, w.rest[i])
  }

  /** Requests that have got hold of an order or of a row have one whose checkout is over. */
  predicate TaskOver(s: State, k: Task) {
    && (SweepOf(k).Some? ==> SweepOver(s, SweepOf(k).value))
    && match k
       case Releasing(o, _, _, _) => Over(s, o)
       case SweepLooking(o, _) => Over(s, o)
       case Webhook(e, stage, _) => stage.Settling? ==> Over(s, e.order)
       case _ => true
  }

  predicate Apart(s: State) {
    forall t :: 0 <= t < |s.tasks| ==> TaskOver(s, s.tasks[t])
  }

  lemma NamedIsOver(s: State, t: nat, o: nat)
    requires Inv(s) && Discreet(s) && t < |s.tasks| && Names(s.tasks[t], o) && OrderAt(s.db, o).Some?
    ensures Over(s, o)
  {
    assert Known(s, o);
    forall r | 0 <= r < |s.db.reservations| && s.db.reservations[r].order == Some(o)
      ensures Ended(s, s.db.reservations[r].checkout)
    {
      assert RowOk(s, r);
    }
  }

  /** At its start a patient sweep lists only rows whose checkout is over. */
  lemma ListedIsOver(s: State, now: int, r: nat)
    requires Inv(s) && Timed(s) && Patient(s, now) && r < |s.db.reservations| && IsExpired(s.db.reservations[r], now)
    ensures s.db.reservations[r].order.Some? && ListingOver(s, Expiry(r, s.db.reservations[r].order))
  {
    assert RowOk(s, r) && RowTimed(s, r);
    var o := s.db.reservations[r].order.value;
    forall q | 0 <= q < |s.db.reservations| && s.db.reservations[q].order == Some(o)
      ensures Ended(s, s.db.reservations[q].checkout)
    {
      assert RowOk(s, q);
    }
  }

  // ---------------------------------------------------------------- what is over stays over

  lemma EndedStays(s: State, t: nat, now: int, c: nat)
    requires t < |s.tasks| && Ended(s, c)
    ensures Ended(After(s, t, now), c)
  {
    CheckoutsEnd(s.db, t, s.tasks[t], now);
  }

  lemma LinksStayOver(s: State, t: nat, now: int, o: nat)
    requires Inv(s) && t < |s.tasks| && Over(s, o)
    ensures LinksOver(After(s, t, now), o)
  {
    var s', e := After(s, t, now), NextMove(s.db, t, s.tasks[t], now).effect;
    MoveEffectOk(s, t, now);
    NewRow(s, t, e);
    forall r | 0 <= r < |s'.db.reservations| && s'.db.reservations[r].order == Some(o)
      ensures Ended(s', s'.db.reservations[r].checkout)
    {
      if r < |s.db.reservations| {
        RowAfter(s, t, e, r);
        EndedStays(s, t, now, s.db.reservations[r].checkout);
      }
    }
  }

  lemma OverStays(s: State, t: nat, now: int, o: nat)
    requires Inv(s) && t < |s.tasks| && Over(s, o)
    ensures Over(After(s, t, now), o)
  {
    MoveEffectOk(s, t, now);
    assert OrderOk(s.db.orders[o]);
    OrderAfter(s, t, NextMove(s.db, t, s.tasks[t], now).effect, o);
    if s.db.orders[o].Some? { EndedStays(s, t, now, s.db.orders[o].value.checkout); }
    LinksStayOver(s, t, now, o);
  }

  lemma ListingStaysOver(s: State, t: nat, now: int, x: Expiry)
    requires Inv(s) && t < |s.tasks| && ListingOver(s, x)
    ensures ListingOver(After(s, t, now), x)
  {
    DeadlinesStay(s.db, NextMove(s.db, t, s.tasks[t], now).effect, x.id);
    EndedStays(s, t, now, s.db.reservations[x.id].checkout);
    if x.order.Some? { OverStays(s, t, now, x.order.value); }
  }

  lemma SweepStaysOver(s: State, t: nat, now: int, w: Sweep)
    requires Inv(s) && t < |s.tasks| && SweepOver(s, w)
    ensures SweepOver(After(s, t, now), w)
  {
    forall i | 0 <= i < |w.rest|
      ensures ListingOver(After(s, t, now), w.rest[i])
    {
      ListingStaysOver(s, t, now, w.rest[i]);
    }
  }

  lemma TaskStaysOver(s: State, t: nat, now: int, k: Task)
    requires Inv(s) && t < |s.tasks| && TaskOver(s, k)
    ensures TaskOver(After(s, t, now), k)
  {
    if SweepOf(k).Some? { SweepStaysOver(s, t, now, SweepOf(k).value); }
    match k
    case Releasing(o, _, _, _) => OverStays(s, t, now, o);
    case SweepLooking(o, _) => OverStays(s, t, now, o);
    case Webhook(e, stage, _) => if stage.Settling? { OverStays(s, t, now, e.order); }
    case _ =>
  }

  // ---------------------------------------------------------------- each request takes only what is over

  /** Where a request's next task got its order from. */
  lemma TakesFrom(db: Db, t: nat, k: Task, now: int)
    ensures var m := NextMove(db, t, k, now);
            && (m.next.Releasing? ==>
                  || (k.Releasing? && k.order == m.next.order)
                  || (k.SweepLooking? && k.order == m.next.order)
                  || (k.Webhook? && k.stage.Settling? && k.event.order == m.next.order)
                  || (Names(k, m.next.order) && OrderAt(db, m.next.order).Some?)
                  || (k.Sweeping? && k.sweep.rest != [] && k.sweep.rest[0].order == Some(m.next.order)))
            && (m.next.SweepLooking? ==>
                k.Sweeping? && k.sweep.rest != [] && k.sweep.rest[0].order == Some(m.next.order))
            && (m.next.Webhook? && m.next.stage.Settling? ==>
                  Names(k, m.next.event.order) && OrderAt(db, m.next.event.order).Some?)
  {
  }

  lemma NextIsOver(s: State, t: nat, now: int)
    requires Inv(s) && Apart(s) && Discreet(s) && t < |s.tasks|
    ensures TaskOver(s, NextMove(s.db, t, s.tasks[t], now).next)
  {
    var k, next := s.tasks[t], NextMove(s.db, t, s.tasks[t], now).next;
    assert TaskOver(s, k);
    TakesFrom(s.db, t, k, now);
    SweepGoesDown(s.db, t, k, now);
    if k.Sweeping? && k.sweep.rest != [] { assert ListingOver(s, k.sweep.rest[0]); }
    match next
    case Releasing(o, _, _, _) => if Names(k, o) && OrderAt(s.db, o).Some? { NamedIsOver(s, t, o); }
    case Webhook(e, stage, _) => if stage.Settling? { NamedIsOver(s, t, e.order); }
    case _ =>
  }

  lemma ApartRun(s: State, t: nat, now: int)
    requires Inv(s) && Apart(s) && Discreet(s) && t < |s.tasks|
    ensures Apart(After(s, t, now))
  {
    var s' := After(s, t, now);
    NextIsOver(s, t, now);
    forall i | 0 <= i < |s'.tasks|
      ensures TaskOver(s', s'.tasks[i])
    {
      assert TaskOver(s, s.tasks[i]);
      TaskStaysOver(s, t, now, s'.tasks[i]);
    }
  }

  /** With the same rows and orders, and ended checkouts still ended, nothing changes for a task. */
  lemma TaskSameOver(s: State, s': State, k: Task)
    requires s'.db == s.db && TaskOver(s, k) && forall c :: Ended(s, c) ==> Ended(s', c)
    ensures TaskOver(s', k)
  {
    if SweepOf(k).Some? {
      var w := SweepOf(k).value;
      forall i | 0 <= i < |w.rest| ensures ListingOver(s', w.rest[i]) { assert ListingOver(s, w.rest[i]); }
    }
  }

  lemma ApartFail(s: State, t: nat)
    requires Apart(s) && t < |s.tasks|
    ensures Apart(Step(s, FailTask(t)))
  {
    var s' := Step(s, FailTask(t));
    forall i | 0 <= i < |s'.tasks|
      ensures TaskOver(s', s'.tasks[i])
    {
      assert TaskOver(s, s.tasks[i]);
      TaskSameOver(s, s', s.tasks[i]);
    }
  }

  lemma ApartSweep(s: State, now: int, batch: seq<nat>)
    requires Inv(s) && Timed(s) && Apart(s) && Patient(s, now)
    ensures Apart(Step(s, StartSweep(now, batch))) && Step(s, StartSweep(now, batch)).touched == s.touched
  {
    var s' := Step(s, StartSweep(now, batch));
    if IsBatch(s.db, now, batch) {
      forall i | 0 <= i < |batch|
        ensures s.db.reservations[batch[i]].order.Some? && ListingOver(s, Expiries(s.db, batch)[i])
      {
        ListedIsOver(s, now, batch[i]);
      }
      forall i | 0 <= i < |s'.tasks|
        ensures TaskOver(s', s'.tasks[i])
      {
        if i < |s.tasks| { assert TaskOver(s, s.tasks[i]); }
        TaskSameOver(s, s', s'.tasks[i]);
      }
      assert Unlinked(s, batch) == {};
    }
  }

  lemma ApartStart(s: State, a: Action)
    requires Apart(s) && !a.RunTask? && !a.FailTask? && !a.StartSweep?
    ensures Apart(Step(s, a)) && Step(s, a).touched == s.touched
  {
    var s' := Step(s, a);
    StartsOnly(s, a);
    forall i | 0 <= i < |s'.tasks|
      ensures TaskOver(s', s'.tasks[i])
    {
      if i < |s.tasks| {
        assert TaskOver(s, s.tasks[i]);
        TaskSameOver(s, s', s.tasks[i]);
      }
    }
  }

  // ---------------------------------------------------------------- so nobody is disturbed

  /** Where a request's change of a row or an order came from. */
  lemma ChangesFrom(db: Db, t: nat, k: Task, now: int)
    requires WebhookOk(k)
    ensures var e := NextMove(db, t, k, now).effect;
            && (e.FlipRow? ==>
                  || (k.Releasing? && k.release.Listed? && k.release.todo != [] && k.release.todo[0] == e.id)
                  || (k.Sweeping? && k.sweep.rest != [] && k.sweep.rest[0].id == e.id))
            && (e.ChangeOrder? ==>
                  && OrderAt(db, e.id).Some?
                  && (Names(k, e.id) || (k.Sweeping? && k.sweep.rest != [] && k.sweep.rest[0].order == Some(e.id))))
  {
  }

  lemma NobodyDisturbed(s: State, t: nat, now: int)
    requires Inv(s) && Apart(s) && Discreet(s) && t < |s.tasks|
    ensures After(s, t, now).touched == s.touched
  {
    var k, e := s.tasks[t], NextMove(s.db, t, s.tasks[t], now).effect;
    assert TaskOver(s, k) && WebhookOk(k) && ReleaserOk(s, k);
    ChangesFrom(s.db, t, k, now);
    if k.Sweeping? && k.sweep.rest != [] { assert ListingOver(s, k.sweep.rest[0]); }
    if e.ChangeOrder? && Names(k, e.id) { NamedIsOver(s, t, e.id); }
  }

  lemma StepApart(s: State, a: Action)
    requires Inv(s) && Timed(s) && Apart(s) && Timely(s, a)
    ensures Apart(Step(s, a)) && Step(s, a).touched == s.touched
  {
    match a
    case RunTask(t, now) =>
      if t < |s.tasks| {
        ApartRun(s, t, now);
        NobodyDisturbed(s, t, now);
      }
    case FailTask(t) => if t < |s.tasks| { ApartFail(s, t); }
    case StartSweep(now, batch) => ApartSweep(s, now, batch);
    case _ => ApartStart(s, a);
  }

  lemma {:induction false} ScheduleShorter(s: State, actions: seq<Action>)
    requires OnSchedule(s, actions) && actions != []
    ensures OnSchedule(s, actions[..|actions| - 1])
    ensures Timely(Steps(s, actions[..|actions| - 1]), actions[|actions| - 1])
  {
    var init := actions[..|actions| - 1];
    forall i | 0 <= i < |init|
      ensures Timely(Steps(s, init[..i]), init[i])
    {
      assert init[..i] == actions[..i];
      assert Timely(Steps(s, actions[..i]), actions[i]);
    }
  }

  lemma {:induction false} RunApart(s: State, actions: seq<Action>)
    requires Opening(s) && OnSchedule(s, actions)
    ensures Apart(Steps(s, actions)) && Steps(s, actions).touched == {}
  {
    if actions != [] {
      var n := |actions| - 1;
      ScheduleShorter(s, actions);
      RunApart(s, actions[..n]);
      RunBooks(s, actions[..n], 0);
      RunTimed(s, actions[..n]);
      StepApart(Steps(s, actions[..n]), actions[n]);
    }
  }

  // ---------------------------------------------------------------- main results

  /**
   * Without transactions: on such a schedule no running checkout is ever disturbed and no unit is returned
   * twice, and stock is conserved exactly in every state.
   */
  lemma {:induction false} ConservedOnSchedule(s: State, actions: seq<Action>, product: int)
    requires Opening(s) && product in s.db.products && OnSchedule(s, actions)
    ensures var s' := Steps(s, actions);
            && s'.touched == {} && s'.extra == []
            && StockOf(s'.db, product) + Held(s', product) + InHands(s', product) == StockOf(s.db, product)
  {
    RunApart(s, actions);
    RunBooks(s, actions, product);
    ConservedUntouched(s, actions, product);
  }

  /** And at rest each shelf holds its opening stock less the lines of the orders that stand. */
  lemma {:induction false} BooksCloseOnSchedule(s: State, actions: seq<Action>, product: int)
    requires Opening(s) && product in s.db.products && OnSchedule(s, actions) && AtRest(Steps(s, actions))
    ensures StockOf(Steps(s, actions).db, product)
            == StockOf(s.db, product) - Sum(Steps(s, actions).db.orders, EntitledTo(product))
  {
    RunApart(s, actions);
    BooksClose(s, actions, product);
  }

  /** The run that returns units twice is not on such a schedule: its sweep starts at the checkout's deadline. */
  lemma RaceIsOffSchedule()
    ensures !OnSchedule(Races.S0, Races.RUN)
  {
    Races.Reach4();
    Runs.LeadsSteps(Races.S0, Races.RUN, 4, Races.S4);
    assert !Patient(Races.S4, RESERVATION_WINDOW) by { assert Races.S4.tasks[0].deadline == RESERVATION_WINDOW; }
    assert !Timely(Steps(Races.S0, Races.RUN[..4]), Races.RUN[4]);
  }
}
