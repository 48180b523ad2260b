/**
 * Why one order per key has three provisos. A request that runs past the stale limit is overtaken; an
 * outcome that was not stored is not there to be replayed; an expired record is not either. In each case
 * one concrete run places two orders, with the other two provisos met.
 */
module Provisos {
  import opened Sums
  import opened Idempotency

  function Five(s: Server, five: seq<Action>): Server
    requires |five| == 5
  {
    Step(Step(Step(Step(Step(s, five[0]), five[1]), five[2]), five[3]), five[4])
  }

  lemma {:induction false} OneMoreStep(s: Server, before: seq<Action>, a: Action)
    ensures Steps(s, before + [a]) == Step(Steps(s, before), a)
  {
    assert (before + [a])[..|before|] == before;
  }

  lemma InOrder(before: seq<Action>, five: seq<Action>)
    requires |five| == 5
    ensures before + five == before + [five[0]] + [five[1]] + [five[2]] + [five[3]] + [five[4]]
  {
  }

  lemma {:induction false} StepsOfFive(s: Server, before: seq<Action>, five: seq<Action>)
    requires |five| == 5
    ensures Steps(s, before + five) == Five(Steps(s, before), five)
  {
    OneMoreStep(s, before, five[0]);
    OneMoreStep(s, before + [five[0]], five[1]);
    OneMoreStep(s, before + [five[0]] + [five[1]], five[2]);
    OneMoreStep(s, before + [five[0]] + [five[1]] + [five[2]], five[3]);
    OneMoreStep(s, before + [five[0]] + [five[1]] + [five[2]] + [five[3]], five[4]);
    InOrder(before, five);
  }

  lemma {:induction false} TwoFives(s: Server, first: seq<Action>, second: seq<Action>)
    requires |first| == |second| == 5
    ensures Steps(s, first + second) == Five(Five(s, first), second)
  {
    StepsOfFive(s, [], first);
    assert [] + first == first;
    StepsOfFive(s, first, second);
  }

  lemma {:induction false} TwoOrders(orders: seq<Key>)
    requires orders == [0, 0]
    ensures Sum(orders, For(0)) == 2
  {
    SumAppend<Key>([], 0, For(0));
    SumAppend<Key>([0], 0, For(0));
    assert [] + [0] == [0] && [0] + [0] == orders;
  }

  const PLACED := Response(201, "order")

  // ---------------------------------------------------------------- overtaken

  const BEGIN := [Arrive(0, "form"), Run(0), Run(0), Wait(STALE_PROCESSING), Arrive(0, "form")]
  const OVERTAKE := [Run(1), Run(1), Run(1), Finish(0, PLACED), Finish(1, PLACED)]

  /** One request is still at work when its record turns stale and another arrives. */
  predicate TurnedStale(s: Server) {
    && s.nextId > 0
    && s.requests == [Working(0, "form", s.nextId - 1), Arrived(0, "form")]
    && s.records == map[0 := Record(s.nextId - 1, "form", Processing, s.now - STALE_PROCESSING,
                                    s.now - STALE_PROCESSING + TTL)]
    && s.orders == [] && s.slow == {} && s.unsaved == {} && s.expired == {}
  }

  lemma FirstTurnsStale(s: Server)
    requires Opening(s)
    ensures TurnedStale(Five(s, BEGIN))
  {
    var working := Step(Step(Step(s, BEGIN[0]), BEGIN[1]), BEGIN[2]);
    assert working.requests == [Working(0, "form", s.nextId)];
  }

  lemma SecondOvertakes(s: Server)
    requires TurnedStale(s)
    ensures var s' := Five(s, OVERTAKE);
            s'.orders == [0, 0] && s'.slow == {0} && s'.unsaved == {} && s'.expired == {}
  {
    assert Owns(s.requests[0], s.nextId - 1);
    var looked := Step(s, Run(1));
    assert looked.requests == [Working(0, "form", s.nextId - 1), Replacing(0, "form", s.nextId - 1)];
    assert Owns(looked.requests[0], s.nextId - 1);
    var removed := Step(looked, Run(1));
    var both := Step(removed, Run(1));
    assert both.requests == [Working(0, "form", s.nextId - 1), Working(0, "form", s.nextId)];
    assert [] + [0] == [0];
  }

  /** A request that outlives the stale limit is overtaken, and both place an order. */
  lemma {:induction false} SlowRequestOrdersTwice(s: Server)
    requires Opening(s)
    ensures var s' := Steps(s, BEGIN + OVERTAKE);
            OrdersFor(s', 0) == 2 && 0 in s'.slow && 0 !in s'.unsaved && 0 !in s'.expired
  {
    TwoFives(s, BEGIN, OVERTAKE);
    FirstTurnsStale(s);
    SecondOvertakes(Five(s, BEGIN));
    TwoOrders(Five(Five(s, BEGIN), OVERTAKE).orders);
  }

  // ---------------------------------------------------------------- not stored

  const LOSE := [Arrive(0, "form"), Run(0), Run(0), Finish(0, PLACED), Crash(0)]
  const RETRY := [Wait(STALE_PROCESSING), Arrive(0, "form"), Run(1), Run(1), Run(1)]

  /** The order is placed, but its answer was lost before it was stored. */
  predicate Lost(s: Server) {
    && s.nextId > 0 && s.requests == [Gone(0)]
    && s.records == map[0 := Record(s.nextId - 1, "form", Processing, s.now, s.now + TTL)]
    && s.orders == [0] && s.slow == {} && s.unsaved == {0} && s.expired == {}
  }

  lemma FirstIsLost(s: Server)
    requires Opening(s)
    ensures Lost(Five(s, LOSE))
  {
    var working := Step(Step(Step(s, LOSE[0]), LOSE[1]), LOSE[2]);
    assert working.requests == [Working(0, "form", s.nextId)];
    assert [] + [0] == [0];
  }

  lemma RetryStarts(s: Server)
    requires Lost(s)
    ensures var s' := Five(s, RETRY);
            && s'.requests == [Gone(0), Working(0, "form", s.nextId)]
            && s'.orders == [0] && s'.slow == {} && s'.unsaved == {0} && s'.expired == {}
  {
    var arrived := Step(Step(s, RETRY[0]), RETRY[1]);
    assert arrived.requests == [Gone(0), Arrived(0, "form")];
    var looked := Step(arrived, RETRY[2]);
    assert looked.requests == [Gone(0), Replacing(0, "form", s.nextId - 1)];
    var removed := Step(looked, RETRY[3]);
    assert removed.requests == [Gone(0), Creating(0, "form")] && removed.records == map[] && removed.slow == {};
  }

  /** An outcome that is never stored is not replayed, and the retry places a second order. */
  lemma {:induction false} UnsavedOutcomeOrdersTwice(s: Server)
    requires Opening(s)
    ensures var s' := Steps(s, LOSE + RETRY + [Finish(1, PLACED)]);
            OrdersFor(s', 0) == 2 && 0 !in s'.slow && 0 in s'.unsaved && 0 !in s'.expired
  {
    TwoFives(s, LOSE, RETRY);
    FirstIsLost(s);
    RetryStarts(Five(s, LOSE));
    OneMoreStep(s, LOSE + RETRY, Finish(1, PLACED));
    TwoOrders(Step(Five(Five(s, LOSE), RETRY), Finish(1, PLACED)).orders);
  }

  // ---------------------------------------------------------------- expired

  const ANSWER := [Arrive(0, "form"), Run(0), Run(0), Finish(0, PLACED), Run(0)]
  const EXPIRE := [Wait(TTL), Expire(0), Arrive(0, "form"), Run(1), Run(1)]

  predicate Stored(s: Server) {
    && s.nextId > 0 && s.requests == [Replied(0, "form", Fresh(PLACED))]
    && s.records == map[0 := Record(s.nextId - 1, "form", Completed(PLACED), s.now, s.now + TTL)]
    && s.orders == [0] && s.slow == {} && s.unsaved == {} && s.expired == {}
  }

  lemma FirstIsStored(s: Server)
    requires Opening(s)
    ensures Stored(Five(s, ANSWER))
  {
    var working := Step(Step(Step(s, ANSWER[0]), ANSWER[1]), ANSWER[2]);
    assert working.requests == [Working(0, "form", s.nextId)];
    assert [] + [0] == [0];
  }

  lemma LateStarts(s: Server)
    requires Stored(s)
    ensures var s' := Five(s, EXPIRE);
            && s'.requests == [Replied(0, "form", Fresh(PLACED)), Working(0, "form", s.nextId)]
            && s'.orders == [0] && s'.slow == {} && s'.unsaved == {} && s'.expired == {0}
  {
    var gone := Step(Step(s, EXPIRE[0]), EXPIRE[1]);
    assert gone.records == map[];
    var arrived := Step(gone, EXPIRE[2]);
    assert arrived.requests == [Replied(0, "form", Fresh(PLACED)), Arrived(0, "form")];
    var looked := Step(arrived, EXPIRE[3]);
    assert looked.requests == [Replied(0, "form", Fresh(PLACED)), Creating(0, "form")];
  }

  /** A retry after the record's life is over places a second order. */
  lemma {:induction false} ExpiredRecordOrdersTwice(s: Server)
    requires Opening(s)
    ensures var s' := Steps(s, ANSWER + EXPIRE + [Finish(1, PLACED)]);
            OrdersFor(s', 0) == 2 && 0 !in s'.slow && 0 !in s'.unsaved && 0 in s'.expired
  {
    TwoFives(s, ANSWER, EXPIRE);
    FirstIsStored(s);
    LateStarts(Five(s, ANSWER));
    OneMoreStep(s, ANSWER + EXPIRE, Finish(1, PLACED));
    TwoOrders(Step(Five(Five(s, ANSWER), EXPIRE), Finish(1, PLACED)).orders);
  }

  // ---------------------------------------------------------------- when a proviso fails

  predicate StaleOk(s: Server, q: Request) {
    q.Replacing? ==>
      && q.stale < s.nextId
      && (HasRow(s, q.key, q.stale) ==> s.records[q.key].createdAt + 120000 <= s.now)
  }

  predicate RecordsOk(s: Server) {
    forall key :: key in s.records ==>
      s.records[key].expiresAt == s.records[key].createdAt + 24 * 3600000 && s.records[key].id < s.nextId
  }

  predicate TimesOk(s: Server) {
    RecordsOk(s) && forall i :: 0 <= i < |s.requests| ==> StaleOk(s, s.requests[i])
  }

  lemma RecordsStayOk(s: Server, a: Action)
    requires RecordsOk(s)
    ensures RecordsOk(Step(s, a)) && s.nextId <= Step(s, a).nextId && s.now <= Step(s, a).now
  {
  }

  /** A record that is there after a step was there before, or is new. */
  lemma OldOrNew(s: Server, a: Action, key: Key)
    requires key in Step(s, a).records
    ensures var r := Step(s, a).records[key];
            r.id != s.nextId ==>
              key in s.records && s.records[key].id == r.id && s.records[key].createdAt == r.createdAt
  {
  }

  lemma StaleStays(s: Server, s': Server, q: Request)
    requires StaleOk(s, q) && q.Replacing? && s.nextId <= s'.nextId && s.now <= s'.now
    requires q.key in s'.records && s'.records[q.key].id != s.nextId ==>
               q.key in s.records && s.records[q.key].id == s'.records[q.key].id
               && s.records[q.key].createdAt == s'.records[q.key].createdAt
    ensures StaleOk(s', q)
  {
  }

  lemma BecomesStale(s: Server, a: Action, i: nat)
    requires RecordsOk(s) && i < |Step(s, a).requests| && Step(s, a).requests[i].Replacing?
    requires i < |s.requests| ==> Step(s, a).requests[i] != s.requests[i]
    ensures StaleOk(Step(s, a), Step(s, a).requests[i])
  {
  }

  lemma TimesKept(s: Server, a: Action)
    requires TimesOk(s)
    ensures TimesOk(Step(s, a))
  {
    var s' := Step(s, a);
    RecordsStayOk(s, a);
    forall i | 0 <= i < |s'.requests| && s'.requests[i].Replacing?
      ensures StaleOk(s', s'.requests[i])
    {
      var q := s'.requests[i];
      if i < |s.requests| && s.requests[i] == q {
        assert StaleOk(s, q);
        if q.key in s'.records { OldOrNew(s, a, q.key); }
        StaleStays(s, s', q);
      } else {
        BecomesStale(s, a, i);
      }
    }
  }

  lemma {:induction false} RunTimes(s: Server, actions: seq<Action>)
    requires Opening(s)
    ensures TimesOk(Steps(s, actions))
  {
    if actions != [] {
      RunTimes(s, actions[..|actions| - 1]);
      TimesKept(Steps(s, actions[..|actions| - 1]), actions[|actions| - 1]);
    }
  }

  /** A handler is still busy with a record that is two minutes old. */
  predicate Overtaken(s: Server, key: Key) {
    key in s.records && s.records[key].createdAt + 120000 <= s.now &&
    exists i :: 0 <= i < |s.requests| && (s.requests[i].Working? || s.requests[i].Saving?)
                && s.requests[i].id == s.records[key].id
  }

  /** The action ends a request of the key that has an outcome, and the outcome is not on record afterwards. */
  predicate LosesOutcome(s: Server, a: Action, key: Key) {
    && (a.Run? || a.Crash? || a.SaveFails?) && a.request < |s.requests|
    && s.requests[a.request].Saving? && s.requests[a.request].key == key
    && (a.Run? ==> !HasRow(s, key, s.requests[a.request].id))
  }

  /** The record of the key is a day old. */
  predicate DayOld(s: Server, key: Key) {
    key in s.records && s.records[key].createdAt + 24 * 3600000 <= s.now
  }

  /**
   * In every run a proviso fails at one of three moments only: a record is taken over after two minutes
   * from a handler that is still busy, an outcome is lost, or a record is removed after a day.
   */
  lemma {:induction false} ImproperMeans(s: Server, actions: seq<Action>, a: Action, key: Key)
    requires Opening(s) && Proper(Steps(s, actions), key) && !Proper(Step(Steps(s, actions), a), key)
    ensures var before := Steps(s, actions);
            Overtaken(before, key) || LosesOutcome(before, a, key) || DayOld(before, key)
  {
    var before := Steps(s, actions);
    RunTimes(s, actions);
    if a.Run? && a.request < |before.requests| {
      assert StaleOk(before, before.requests[a.request]);
    }
  }
}
