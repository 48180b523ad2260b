/** Sweeps inside the protocol: orders lapse as a whole, and what a sweep cannot clear is passing or was disturbed. */
module Resting {
  import opened Wrappers
  import opened Store
  import opened Protocol
  import opened Conservation
  import opened RefundEvents
  import opened Standing
  import opened Books
  import Sweeper

  // ---------------------------------------------------------------- one deadline per checkout

  predicate RowTimed(s: State, r: nat)
    requires r < |s.db.reservations|
  {
    var row := s.db.reservations[r];
    InFlight(s, row.checkout) ==>
      s.tasks[row.checkout].at != ReadCart && row.expiresAt == s.tasks[row.checkout].deadline
  }

  predicate Timed(s: State) {
    && (forall r :: 0 <= r < |s.db.reservations| ==> RowTimed(s, r))
    && (forall r, q :: 0 <= r < |s.db.reservations| && 0 <= q < |s.db.reservations|
                       && s.db.reservations[r].checkout == s.db.reservations[q].checkout ==>
          s.db.reservations[r].expiresAt == s.db.reservations[q].expiresAt)
  }

  lemma DeadlinesStay(db: Db, e: Effect, r: nat)
    requires r < |db.reservations|
    ensures r < |Effected(db, e).reservations|
            && Effected(db, e).reservations[r].expiresAt == db.reservations[r].expiresAt
    ensures Effected(db, e).reservations[r].checkout == db.reservations[r].checkout
  {
  }

  lemma OwnDeadline(db: Db, t: nat, k: Task, now: int)
    requires k.Checkout?
    ensures var m := MoveCheckout(db, t, k, now);
            && (m.next.Checkout? && k.at != ReadCart ==> m.next.at != ReadCart && m.next.deadline == k.deadline)
            && (m.effect.AddRow? ==> k.at != ReadCart && m.next.Checkout? && m.effect.row.expiresAt == k.deadline)
  {
  }

  lemma RowTimedKept(s: State, t: nat, now: int, r: nat)
    requires Inv(s) && Timed(s) && t < |s.tasks|
    ensures r < |After(s, t, now).db.reservations| ==> RowTimed(After(s, t, now), r)
  {
    var e := NextMove(s.db, t, s.tasks[t], now).effect;
    MoveEffectOk(s, t, now);
    NewRow(s, t, e);
    OnlyCheckoutsGoOn(s.db, t, s.tasks[t], now);
    if s.tasks[t].Checkout? { OwnDeadline(s.db, t, s.tasks[t], now); }
    if r < |s.db.reservations| {
      assert RowTimed(s, r);
      DeadlinesStay(s.db, e, r);
    }
  }

  lemma SameDeadlines(s: State, t: nat, e: Effect, rows': seq<Reservation>)
    requires Timed(s) && t < |s.tasks| && |s.db.reservations| <= |rows'|
    requires forall r :: 0 <= r < |s.db.reservations| ==>
               rows'[r].expiresAt == s.db.reservations[r].expiresAt
                 && rows'[r].checkout == s.db.reservations[r].checkout
    requires forall r :: |s.db.reservations| <= r < |rows'| ==>
               e.AddRow? && rows'[r] == e.row && e.row.checkout == t && InFlight(s, t)
                 && e.row.expiresAt == s.tasks[t].deadline
    ensures forall r, q :: 0 <= r < |rows'| && 0 <= q < |rows'| && rows'[r].checkout == rows'[q].checkout ==>
              rows'[r].expiresAt == rows'[q].expiresAt
  {
    forall r, q | 0 <= r < |rows'| && 0 <= q < |rows'| && rows'[r].checkout == rows'[q].checkout
      ensures rows'[r].expiresAt == rows'[q].expiresAt
    {
      if r < |s.db.reservations| { assert RowTimed(s, r); }
      if q < |s.db.reservations| { assert RowTimed(s, q); }
    }
  }

  lemma NewDeadline(db: Db, t: nat, k: Task, now: int)
    ensures var e := NextMove(db, t, k, now).effect;
            e.AddRow? ==> k.Checkout? && e.row.checkout == t && e.row.expiresAt == k.deadline
  {
  }

  /** Every row of a state keeps its deadline, and new ones take their checkout's. */
  lemma RunTimedKept(s: State, t: nat, now: int)
    requires Inv(s) && Timed(s) && t < |s.tasks|
    ensures Timed(After(s, t, now))
  {
    var s' := After(s, t, now);
    var e := NextMove(s.db, t, s.tasks[t], now).effect;
    forall r | 0 <= r < |s'.db.reservations| ensures RowTimed(s', r) { RowTimedKept(s, t, now, r); }
    forall r | 0 <= r < |s.db.reservations|
      ensures r < |s'.db.reservations| && s'.db.reservations[r].expiresAt == s.db.reservations[r].expiresAt
      ensures s'.db.reservations[r].checkout == s.db.reservations[r].checkout
    {
      DeadlinesStay(s.db, e, r);
    }
    MoveEffectOk(s, t, now);
    NewRow(s, t, e);
    NewDeadline(s.db, t, s.tasks[t], now);
    SameDeadlines(s, t, e, s'.db.reservations);
  }

  lemma TimedKept(s: State, a: Action)
    requires Inv(s) && Timed(s)
    ensures Timed(Step(s, a))
  {
    if a.RunTask? {
      if a.task < |s.tasks| { RunTimedKept(s, a.task, a.now); }
    } else {
      QuietAction(s, a);
      forall r | 0 <= r < |s.db.reservations|
        ensures RowTimed(Step(s, a), r)
      {
        assert RowTimed(s, r) && RowOk(s, r);
      }
    }
  }

  lemma {:induction false} RunTimed(s: State, actions: seq<Action>)
    requires Opening(s)
    ensures Timed(Steps(s, actions))
  {
    if actions != [] {
      var n := |actions| - 1;
      RunTimed(s, actions[..n]);
      RunBooks(s, actions[..n], 0);
      TimedKept(Steps(s, actions[..n]), actions[n]);
    }
  }

  // ---------------------------------------------------------------- sweeps under way

  function SweepOf(k: Task): Option<Sweep> {
    match k
    case Sweeping(w, _) => Some(w)
    case SweepLooking(_, w) => Some(w)
    case SweepCommitting(_, w) => Some(w)
    case Releasing(_, _, _, after) => if after.KeepSweeping? then Some(after.sweep) else None
    case _ => None
  }

  /** Every row still to be swept had expired when the sweep began, and is linked as it was then. */
  predicate SweepTimed(rows: seq<Reservation>, w: Sweep) {
    forall i :: 0 <= i < |w.rest| ==> ListingTimed(rows, w.rest[i], w.now)
  }

  predicate ListingTimed(rows: seq<Reservation>, x: Expiry, now: int) {
    x.id < |rows| && rows[x.id].expiresAt <= now && (x.order.Some? ==> rows[x.id].order == x.order)
  }

  predicate TaskTimed(rows: seq<Reservation>, k: Task) {
    SweepOf(k).Some? ==> SweepTimed(rows, SweepOf(k).value)
  }

  predicate SweepsTimed(s: State) {
    forall t :: 0 <= t < |s.tasks| ==> TaskTimed(s.db.reservations, s.tasks[t])
  }

  /** A move of a sweep keeps its time and takes at most its first row off the list. */
  lemma SweepGoesDown(db: Db, t: nat, k: Task, now: int)
    ensures var next := NextMove(db, t, k, now).next;
            SweepOf(next).Some? ==>
              && SweepOf(k).Some? && SweepOf(next).value.now == SweepOf(k).value.now
              && var rest, rest' := SweepOf(k).value.rest, SweepOf(next).value.rest;
                 rest' == rest || (rest != [] && rest' == rest[1..])
  {
  }

  lemma ListingStays(s: State, t: nat, now: int, x: Expiry, time: int)
    requires Inv(s) && t < |s.tasks| && ListingTimed(s.db.reservations, x, time)
    ensures ListingTimed(After(s, t, now).db.reservations, x, time)
  {
    DeadlinesStay(s.db, NextMove(s.db, t, s.tasks[t], now).effect, x.id);
    if x.order.Some? {
      LinkedRowsStay(s, t, now, x.id, x.order.value);
    }
  }

  lemma TaskTimedStays(s: State, t: nat, now: int, k: Task)
    requires Inv(s) && t < |s.tasks| && TaskTimed(s.db.reservations, k)
    ensures TaskTimed(After(s, t, now).db.reservations, k)
  {
    if SweepOf(k).Some? {
      var w := SweepOf(k).value;
      forall i | 0 <= i < |w.rest| ensures ListingTimed(After(s, t, now).db.reservations, w.rest[i], w.now)
      {
        ListingStays(s, t, now, w.rest[i], w.now);
      }
    }
  }

  lemma ShorterTimed(rows: seq<Reservation>, k: Task, k': Task)
    requires TaskTimed(rows, k)
    requires SweepOf(k').Some? ==>
               && SweepOf(k).Some? && SweepOf(k').value.now == SweepOf(k).value.now
               && var rest, rest' := SweepOf(k).value.rest, SweepOf(k').value.rest;
                  rest' == rest || (rest != [] && rest' == rest[1..])
    ensures TaskTimed(rows, k')
  {
  }

  lemma SweepsTimedRun(s: State, t: nat, now: int)
    requires Inv(s) && SweepsTimed(s) && t < |s.tasks|
    ensures SweepsTimed(After(s, t, now))
  {
    var s' := After(s, t, now);
    forall i | 0 <= i < |s'.tasks|
      ensures TaskTimed(s'.db.reservations, s'.tasks[i])
    {
      assert TaskTimed(s.db.reservations, s.tasks[i]);
      TaskTimedStays(s, t, now, s.tasks[i]);
      if i == t {
        SweepGoesDown(s.db, t, s.tasks[t], now);
        ShorterTimed(s'.db.reservations, s.tasks[t], s'.tasks[t]);
      }
    }
  }

  /** A failing request is not in a sweep, or goes on with it. */
  lemma FailedSweep(k: Task)
    ensures SweepOf(FailedTask(k)).Some? ==> SweepOf(FailedTask(k)) == SweepOf(k)
  {
  }

  lemma SweepsTimedFail(s: State, t: nat)
    requires SweepsTimed(s) && t < |s.tasks|
    ensures SweepsTimed(Step(s, FailTask(t)))
  {
    assert TaskTimed(s.db.reservations, s.tasks[t]);
    FailedSweep(s.tasks[t]);
  }

  lemma SweepsTimedKept(s: State, a: Action)
    requires Inv(s) && SweepsTimed(s)
    ensures SweepsTimed(Step(s, a))
  {
    match a
    case RunTask(t, now) => if t < |s.tasks| { SweepsTimedRun(s, t, now); }
    case FailTask(t) => if t < |s.tasks| { SweepsTimedFail(s, t); }
    case _ => StartsOnly(s, a);
  }

  lemma {:induction false} RunSweepsTimed(s: State, actions: seq<Action>)
    requires Opening(s)
    ensures SweepsTimed(Steps(s, actions))
  {
    if actions != [] {
      var n := |actions| - 1;
      RunSweepsTimed(s, actions[..n]);
      RunBooks(s, actions[..n], 0);
      SweepsTimedKept(Steps(s, actions[..n]), actions[n]);
    }
  }

  // ---------------------------------------------------------------- orders lapse as a whole

  /** All of an order's reservations have run out. */
  predicate Lapsed(db: Db, now: int, o: nat) {
    forall r :: 0 <= r < |db.reservations| && db.reservations[r].order == Some(o) ==>
      db.reservations[r].expiresAt <= now
  }

  lemma OneDeadline(s: State, now: int, o: nat, q: nat)
    requires Inv(s) && Timed(s) && OrderAt(s.db, o).Some?
    requires q < |s.db.reservations| && s.db.reservations[q].order == Some(o) && s.db.reservations[q].expiresAt <= now
    ensures Lapsed(s.db, now, o)
  {
    assert RowOk(s, q);
    forall r | 0 <= r < |s.db.reservations| && s.db.reservations[r].order == Some(o)
      ensures s.db.reservations[r].expiresAt <= now
    {
      assert RowOk(s, r);
    }
  }

  lemma AllLinked(s: State)
    requires Inv(s)
    ensures Sweeper.LinksOk(s.db)
  {
    forall r | 0 <= r < |s.db.reservations| && s.db.reservations[r].order.Some?
      ensures s.db.reservations[r].order.value < |s.db.orders|
    {
      assert RowOk(s, r);
    }
  }

  /** An uninterrupted pass, after any run, cancels an order only if every one of its reservations has expired. */
  lemma {:induction false} LapsesAsAWhole(s: State, actions: seq<Action>, now: int, limit: nat, batch: seq<nat>, o: nat)
    requires Opening(s)
    ensures var db := Steps(s, actions).db;
            Sweeper.IsOldest(db, now, limit, batch)
              && o in Sweeper.Turned(db, Sweeper.SweepBatch(db, now, batch).db) ==>
              Lapsed(db, now, o)
  {
    var s' := Steps(s, actions);
    if Sweeper.IsOldest(s'.db, now, limit, batch)
       && o in Sweeper.Turned(s'.db, Sweeper.SweepBatch(s'.db, now, batch).db) {
      RunBooks(s, actions, 0);
      RunTimed(s, actions);
      AllLinked(s');
      Sweeper.PassCancels(s'.db, now, limit, batch, o);
      var q :| 0 <= q < |s'.db.reservations| && s'.db.reservations[q].order == Some(o)
        && IsExpired(s'.db.reservations[q], now);
      OneDeadline(s', now, o, q);
    }
  }

  /** Only a sweep gives an order up for not being paid, and it does so for a row it has listed. */
  lemma ExpiresListed(db: Db, t: nat, k: Task, now: int)
    ensures var e := NextMove(db, t, k, now).effect;
            e.ChangeOrder? && e.update.ExpireUnpaid? ==>
              && k.Sweeping? && k.sweep.rest != [] && k.sweep.rest[0].order == Some(e.id) && e.update.at == k.sweep.now
              && CanUpdate(db, e.id, e.update)
  {
  }

  /**
   * A sweep under way, whatever has happened since it began and whatever happens beside it, cancels an
   * order only if every one of the order's reservations had expired when the sweep began.
   */
  lemma {:induction false} SweepCancelsLapsed(s: State, actions: seq<Action>, t: nat, now: int)
    requires Opening(s)
    ensures var s' := Steps(s, actions);
            t < |s'.tasks| ==>
              var e := NextMove(s'.db, t, s'.tasks[t], now).effect;
              e.ChangeOrder? && e.update.ExpireUnpaid? ==>
                s'.tasks[t].Sweeping? && e.update.at == s'.tasks[t].sweep.now
                  && Lapsed(s'.db, s'.tasks[t].sweep.now, e.id)
  {
    var s' := Steps(s, actions);
    RunBooks(s, actions, 0);
    RunTimed(s, actions);
    RunSweepsTimed(s, actions);
    if t < |s'.tasks| {
      var e := NextMove(s'.db, t, s'.tasks[t], now).effect;
      ExpiresListed(s'.db, t, s'.tasks[t], now);
      if e.ChangeOrder? && e.update.ExpireUnpaid? {
        var w := s'.tasks[t].sweep;
        assert TaskTimed(s'.db.reservations, s'.tasks[t]);
        assert ListingTimed(s'.db.reservations, w.rest[0], w.now);
        OneDeadline(s', w.now, e.id, w.rest[0].id);
      }
    }
  }

  // ---------------------------------------------------------------- what a sweep can leave behind

  /**
   * A reserved row that no sweep would clear as things stand belongs to a checkout still running, to one
   * that was disturbed, or to an order somebody is just now releasing.
   */
  lemma StuckRow(s: State, r: nat)
    requires Inv(s) && Booked(s, 0) && r < |s.db.reservations|
    requires s.db.reservations[r].status == Reserved && Sweeper.Stuck(s.db, r)
    ensures var row := s.db.reservations[r];
            InFlight(s, row.checkout) || row.checkout in s.touched
              || (row.order.Some? && BeingReleased(s, row.order.value))
  {
    assert RowOk(s, r);
    var o := s.db.reservations[r].order.value;
    if OrderAt(s.db, o).Some? {
      assert Known(s, o) && RefundEvents.OrderOk(s.db.orders[o]);
      if Ended(s, s.db.reservations[r].checkout) && s.db.reservations[r].checkout !in s.touched
         && !BeingReleased(s, o) {
        OrderHolds(s, o, 0);
      }
    }
  }

  /** So in every state of every run: what a sweep leaves behind is passing, or was disturbed. */
  lemma {:induction false} StuckIsPassing(s: State, actions: seq<Action>, r: nat)
    requires Opening(s)
    ensures var s' := Steps(s, actions);
            && Sweeper.LinksOk(s'.db)
            && (r < |s'.db.reservations| && s'.db.reservations[r].status == Reserved && Sweeper.Stuck(s'.db, r) ==>
                  var row := s'.db.reservations[r];
                  InFlight(s', row.checkout) || row.checkout in s'.touched || BeingReleased(s', row.order.value))
  {
    var s' := Steps(s, actions);
    RunBooks(s, actions, 0);
    AllLinked(s');
    if r < |s'.db.reservations| && s'.db.reservations[r].status == Reserved && Sweeper.Stuck(s'.db, r) {
      StuckRow(s', r);
    }
  }

  /**
   * So once nothing is under way and no running checkout was disturbed, every expired reservation can be
   * cleared, and `PassesDrain` applies as it stands.
   */
  lemma {:induction false} RestingNeverStuck(s: State, actions: seq<Action>, now: int)
    requires Opening(s)
    ensures var s' := Steps(s, actions); AtRest(s') && s'.touched == {} ==>
            Sweeper.LinksOk(s'.db) && Sweeper.NoneStuck(s'.db, now)
  {
    var s' := Steps(s, actions);
    RunBooks(s, actions, 0);
    AllLinked(s');
    if AtRest(s') && s'.touched == {} {
      forall r | r in Sweeper.ExpiredSet(s'.db, now)
        ensures !Sweeper.Stuck(s'.db, r)
      {
        assert RowOk(s', r);
        StuckIsPassing(s, actions, r);
      }
    }
  }
}
