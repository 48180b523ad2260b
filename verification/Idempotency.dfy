/**
 * Idempotent checkout on the server: key records of one user on one route, and any number of requests
 * under way at once. The digest of a body stands for the body itself. Time passes between any two calls.
 *
 * `slow`, `unsaved` and `expired` are bookkeeping that no step reads: keys with a request that was still
 * running when its record was taken over as stale, keys with an outcome that was never stored, and keys
 * whose record reached the end of its life.
 */
module Idempotency {
  import opened Sums

  type Key = nat

  datatype Response = Response(status: int, payload: string)

  datatype RecordState = Processing | Completed(response: Response)

  datatype Record = Record(id: nat, body: string, state: RecordState, createdAt: int, expiresAt: int)

  datatype Answer = Fresh(answered: Response) | Replayed(stored: Response) | Mismatch | StillProcessing | Duplicate

  datatype Request =
    | Arrived(key: Key, body: string)
    | Replacing(key: Key, body: string, stale: nat)
    | Creating(key: Key, body: string)
    | Working(key: Key, body: string, id: nat)
    | Saving(key: Key, body: string, id: nat, outcome: Response)
    | Replied(key: Key, body: string, answer: Answer)
    | Gone(key: Key)

  datatype Server = Server(
    records: map<Key, Record>, requests: seq<Request>, orders: seq<Key>, now: int, nextId: nat,
    slow: set<Key>, unsaved: set<Key>, expired: set<Key>)

  const STALE_PROCESSING := 2 * 60 * 1000
  const TTL := 24 * 60 * 60 * 1000

  datatype Action =
    | Arrive(key: Key, body: string)
    | Run(request: nat)
    | Finish(request: nat, response: Response)
    | Crash(request: nat)
    | SaveFails(request: nat)
    | Wait(time: nat)
    | Expire(key: Key)

  // ---------------------------------------------------------------- steps

  /** The handler of a request that owns this record is still running, or its outcome is not stored yet. */
  predicate Owns(q: Request, id: nat) {
    (q.Working? || q.Saving?) && q.id == id
  }

  /** Checkout places an order exactly when it answers with success. */
  predicate Success(r: Response) {
    r.status < 400
  }

  function Look(s: Server, key: Key, body: string): Request {
    if key !in s.records then Creating(key, body)
    else
      var r := s.records[key];
      if r.body != body then Replied(key, body, Mismatch)
      else if r.state.Completed? then Replied(key, body, Replayed(r.state.response))
      else if s.now - r.createdAt < STALE_PROCESSING then Replied(key, body, StillProcessing)
      else Replacing(key, body, r.id)
  }

  /** The delete of a stale record names the row and its status, so it misses a row created since. */
  predicate Removes(s: Server, key: Key, stale: nat) {
    key in s.records && s.records[key].id == stale && s.records[key].state.Processing?
  }

  predicate Superseded(s: Server, id: nat) {
    exists i :: 0 <= i < |s.requests| && Owns(s.requests[i], id)
  }

  predicate HasRow(s: Server, key: Key, id: nat) {
    key in s.records && s.records[key].id == id
  }

  function RunRequest(s: Server, i: nat): Server
    requires i < |s.requests|
  {
    match s.requests[i]
    case Arrived(key, body) => s.(requests := s.requests[i := Look(s, key, body)])
    case Replacing(key, body, stale) =>
      var moved := s.(requests := s.requests[i := Creating(key, body)]);
      if Removes(s, key, stale) then
        moved.(records := s.records - {key}, slow := if Superseded(s, stale) then s.slow + {key} else s.slow)
      else moved
    case Creating(key, body) =>
      if key in s.records then s.(requests := s.requests[i := Replied(key, body, Duplicate)])
      else
        s.(requests := s.requests[i := Working(key, body, s.nextId)],
           records := s.records[key := Record(s.nextId, body, Processing, s.now, s.now + TTL)],
           nextId := s.nextId + 1)
    case Saving(key, body, id, outcome) =>
      var moved := s.(requests := s.requests[i := Replied(key, body, Fresh(outcome))]);
      if outcome.status >= 500 then
        if HasRow(s, key, id) then moved.(records := s.records - {key}) else moved
      else if HasRow(s, key, id) then moved.(records := s.records[key := s.records[key].(state := Completed(outcome))])
      else moved.(unsaved := s.unsaved + {key})
    case _ => s
  }

  function Step(s: Server, a: Action): Server {
    match a
    case Arrive(key, body) => s.(requests := s.requests + [Arrived(key, body)])
    case Run(i) => if i < |s.requests| then RunRequest(s, i) else s
    case Finish(i, response) =>
      if i < |s.requests| && s.requests[i].Working? then
        var q := s.requests[i];
        s.(requests := s.requests[i := Saving(q.key, q.body, q.id, response)],
           orders := if Success(response) then s.orders + [q.key] else s.orders)
      else s
    case Crash(i) =>
      if i < |s.requests| && !s.requests[i].Replied? then
        var q := s.requests[i];
        s.(requests := s.requests[i := Gone(q.key)], unsaved := if q.Saving? then s.unsaved + {q.key} else s.unsaved)
      else s
    case SaveFails(i) =>
      if i < |s.requests| && s.requests[i].Saving? then
        var q := s.requests[i];
        s.(requests := s.requests[i := Replied(q.key, q.body, Fresh(q.outcome))], unsaved := s.unsaved + {q.key})
      else s
    case Wait(time) => s.(now := s.now + time)
    case Expire(key) =>
      if key in s.records && s.records[key].expiresAt <= s.now then
        s.(records := s.records - {key}, expired := s.expired + {key})
      else s
  }

  function Steps(s: Server, actions: seq<Action>): Server {
    if actions == [] then s else Step(Steps(s, actions[..|actions| - 1]), actions[|actions| - 1])
  }

  predicate Opening(s: Server) {
    s.records == map[] && s.requests == [] && s.orders == [] && s.slow == {} && s.unsaved == {} && s.expired == {}
  }

  // ---------------------------------------------------------------- who owns which record

  /** A record that some request owns is that request's: same key, same body, not completed. */
  ghost predicate OwnerOk(s: Server, q: Request) {
    q.Working? || q.Saving? ==>
      q.id < s.nextId && forall key :: HasRow(s, key, q.id) ==> Belongs(s.records[key], key, q)
  }

  predicate Belongs(r: Record, key: Key, q: Request) {
    (q.Working? || q.Saving?) && key == q.key && r.state.Processing? && r.body == q.body
  }

  ghost predicate OwnersOk(s: Server) {
    forall i :: 0 <= i < |s.requests| ==> OwnerOk(s, s.requests[i])
  }

  predicate ShareRecord(a: Request, b: Request) {
    (a.Working? || a.Saving?) && (b.Working? || b.Saving?) && a.id == b.id
  }

  predicate OneOwner(s: Server) {
    forall i, j :: 0 <= i < j < |s.requests| ==> !ShareRecord(s.requests[i], s.requests[j])
  }

  predicate IdsUsed(s: Server) {
    forall key :: key in s.records ==> s.records[key].id < s.nextId
  }

  ghost predicate Owners(s: Server) {
    OwnersOk(s) && OneOwner(s) && IdsUsed(s)
  }

  lemma OwnersOkKept(s: Server, a: Action)
    requires Owners(s)
    ensures OwnersOk(Step(s, a))
  {
    var s' := Step(s, a);
    forall i | 0 <= i < |s'.requests|
      ensures OwnerOk(s', s'.requests[i])
    {
      if a.Run? && a.request < |s.requests| {
        RunOwnerOk(s, a.request, i);
      } else if i < |s.requests| {
        assert OwnerOk(s, s.requests[i]);
      }
    }
  }

  lemma RunOwnerOk(s: Server, t: nat, i: nat)
    requires Owners(s) && t < |s.requests| && i < |s.requests|
    ensures OwnerOk(RunRequest(s, t), RunRequest(s, t).requests[i])
  {
    var s', q := RunRequest(s, t), RunRequest(s, t).requests[i];
    assert OwnerOk(s, s.requests[i]) && OwnerOk(s, s.requests[t]);
    if q.Working? || q.Saving? {
      forall key | HasRow(s', key, q.id)
        ensures Belongs(s'.records[key], key, q)
      {
        if HasRow(s, key, q.id) && i != t {
          assert Belongs(s.records[key], key, s.requests[i]);
          assert !ShareRecord(s.requests[i], s.requests[t]) && !ShareRecord(s.requests[t], s.requests[i]);
        }
      }
    }
  }

  /** The request a step changes keeps its record, drops it, or takes a new one. */
  lemma OwnRecord(s: Server, i: nat)
    requires i < |s.requests|
    ensures var s', q := RunRequest(s, i), RunRequest(s, i).requests[i];
            && s'.requests == s.requests[i := q] && s.nextId <= s'.nextId
            && (q.Working? || q.Saving? ==> q == s.requests[i] || q.id == s.nextId)
  {
  }

  lemma RunOneOwner(s: Server, t: nat)
    requires Owners(s) && t < |s.requests|
    ensures OneOwner(RunRequest(s, t))
  {
    var s' := RunRequest(s, t);
    OwnRecord(s, t);
    forall i, j | 0 <= i < j < |s'.requests|
      ensures !ShareRecord(s'.requests[i], s'.requests[j])
    {
      assert OwnerOk(s, s.requests[i]) && OwnerOk(s, s.requests[j]);
      assert !ShareRecord(s.requests[i], s.requests[j]);
    }
  }

  lemma OneOwnerKept(s: Server, a: Action)
    requires Owners(s)
    ensures OneOwner(Step(s, a))
  {
    var s' := Step(s, a);
    if a.Run? {
      if a.request < |s.requests| { RunOneOwner(s, a.request); }
    } else {
      forall i, j | 0 <= i < j < |s'.requests|
        ensures !ShareRecord(s'.requests[i], s'.requests[j])
      {
        if j < |s.requests| { assert !ShareRecord(s.requests[i], s.requests[j]); }
      }
    }
  }

  lemma IdsStayUsed(s: Server, a: Action)
    requires IdsUsed(s)
    ensures IdsUsed(Step(s, a))
  {
  }

  lemma OwnersKept(s: Server, a: Action)
    requires Owners(s)
    ensures Owners(Step(s, a))
  {
    OwnersOkKept(s, a);
    OneOwnerKept(s, a);
    IdsStayUsed(s, a);
  }

  // ---------------------------------------------------------------- a completed record is final

  predicate Answered(s: Server, key: Key, r: Response) {
    key in s.records && s.records[key].state == Completed(r)
  }

  lemma CompletedKept(s: Server, a: Action, key: Key, r: Response)
    requires Owners(s) && Answered(s, key, r) && key !in Step(s, a).expired
    ensures Answered(Step(s, a), key, r) && Step(s, a).records[key] == s.records[key]
  {
    if a.Run? && a.request < |s.requests| {
      assert OwnerOk(s, s.requests[a.request]);
    }
  }

  // ---------------------------------------------------------------- counting orders

  function For(key: Key): Key -> int {
    (k: Key) => if k == key then 1 else 0
  }

  function OwnerOf(key: Key): Request -> int {
    (q: Request) => if (q.Working? || q.Saving?) && q.key == key then 1 else 0
  }

  /** An order whose outcome is still to be stored. */
  function UnstoredFor(key: Key): Request -> int {
    (q: Request) => if q.Saving? && q.key == key && Success(q.outcome) then 1 else 0
  }

  function OrdersFor(s: Server, key: Key): int {
    Sum(s.orders, For(key))
  }

  function Stored(s: Server, key: Key): int {
    if key in s.records && s.records[key].state.Completed? && Success(s.records[key].state.response) then 1 else 0
  }

  /** No request of the key was overtaken, no outcome of it was lost, and its record has not expired. */
  predicate Proper(s: Server, key: Key) {
    key !in s.slow && key !in s.unsaved && key !in s.expired
  }

  predicate Vacant(s: Server, key: Key) {
    key !in s.records || s.records[key].state.Completed?
  }

  /** Every running request of the key holds its record, at most one runs, and every order is accounted for. */
  predicate Counted(s: Server, key: Key) {
    && (forall i :: 0 <= i < |s.requests| && OwnerOf(key)(s.requests[i]) == 1 ==> HasRow(s, key, s.requests[i].id))
    && Sum(s.requests, OwnerOf(key)) <= (if Vacant(s, key) then 0 else 1)
    && OrdersFor(s, key) == Stored(s, key) + Sum(s.requests, UnstoredFor(key))
  }

  lemma ReplaceSums(s: Server, i: nat, q: Request, key: Key)
    requires i < |s.requests|
    ensures Sum(s.requests[i := q], OwnerOf(key))
            == Sum(s.requests, OwnerOf(key)) - OwnerOf(key)(s.requests[i]) + OwnerOf(key)(q)
    ensures Sum(s.requests[i := q], UnstoredFor(key))
            == Sum(s.requests, UnstoredFor(key)) - UnstoredFor(key)(s.requests[i]) + UnstoredFor(key)(q)
    ensures OwnerOf(key)(s.requests[i]) <= Sum(s.requests, OwnerOf(key))
    ensures 0 <= UnstoredFor(key)(s.requests[i]) <= Sum(s.requests, UnstoredFor(key)) <= Sum(s.requests, OwnerOf(key))
  {
    SumUpdate(s.requests, i, q, OwnerOf(key));
    SumUpdate(s.requests, i, q, UnstoredFor(key));
    SumNonNegative(s.requests, OwnerOf(key));
    SumNonNegative(s.requests, UnstoredFor(key));
    SumBelow(s.requests, key);
  }

  lemma {:induction false} SumBelow(requests: seq<Request>, key: Key)
    ensures Sum(requests, UnstoredFor(key)) <= Sum(requests, OwnerOf(key))
  {
    if requests != [] {
      SumBelow(requests[..|requests| - 1], key);
    }
  }

  /** A stale record that nobody owns may go: no request of the key is running. */
  lemma NobodyRuns(s: Server, key: Key, stale: nat)
    requires Counted(s, key) && HasRow(s, key, stale) && !Superseded(s, stale)
    ensures Sum(s.requests, OwnerOf(key)) == 0
  {
    forall i | 0 <= i < |s.requests|
      ensures OwnerOf(key)(s.requests[i]) == 0
    {
      assert !Owns(s.requests[i], stale);
    }
    SumZero(s.requests, OwnerOf(key));
  }

  /** The request changes, and the record of no key but its own. */
  lemma OtherKeySame(s: Server, i: nat, key: Key)
    requires i < |s.requests| && s.requests[i].key != key
    ensures var s' := RunRequest(s, i);
            && |s'.requests| == |s.requests| && s'.requests == s.requests[i := s'.requests[i]]
            && s'.requests[i].key != key
            && s'.orders == s.orders && (key in s'.records <==> key in s.records)
            && (key in s.records ==> s'.records[key] == s.records[key])
  {
  }

  lemma OtherKeyCounted(s: Server, i: nat, key: Key)
    requires Counted(s, key) && i < |s.requests| && s.requests[i].key != key
    ensures Counted(RunRequest(s, i), key)
  {
    OtherKeySame(s, i, key);
    ReplaceSums(s, i, RunRequest(s, i).requests[i], key);
  }

  lemma RemovedCounted(s: Server, i: nat, key: Key)
    requires Counted(s, key) && i < |s.requests| && Proper(RunRequest(s, i), key)
    requires s.requests[i].Replacing? && s.requests[i].key == key
    ensures Counted(RunRequest(s, i), key)
  {
    var s', stale := RunRequest(s, i), s.requests[i].stale;
    ReplaceSums(s, i, s'.requests[i], key);
    if Removes(s, key, stale) {
      NobodyRuns(s, key, stale);
      SumNonNegative(s'.requests, OwnerOf(key));
    }
  }

  lemma CreatedCounted(s: Server, i: nat, key: Key)
    requires Owners(s) && Counted(s, key) && i < |s.requests|
    requires s.requests[i].Creating? && s.requests[i].key == key
    ensures Counted(RunRequest(s, i), key)
  {
    var s' := RunRequest(s, i);
    ReplaceSums(s, i, s'.requests[i], key);
    if key !in s.records {
      SumNonNegative(s.requests, OwnerOf(key));
    }
  }

  lemma SavedCounted(s: Server, i: nat, key: Key)
    requires Counted(s, key) && i < |s.requests|
    requires s.requests[i].Saving? && s.requests[i].key == key
    ensures Counted(RunRequest(s, i), key)
  {
    var s' := RunRequest(s, i);
    ReplaceSums(s, i, s'.requests[i], key);
    assert OwnerOf(key)(s.requests[i]) == 1;
    assert HasRow(s, key, s.requests[i].id);
    SumNonNegative(s'.requests, OwnerOf(key));
  }

  lemma RunCounted(s: Server, i: nat, key: Key)
    requires Owners(s) && Counted(s, key) && i < |s.requests| && Proper(RunRequest(s, i), key)
    ensures Counted(RunRequest(s, i), key)
  {
    if s.requests[i].key != key {
      OtherKeyCounted(s, i, key);
    } else {
      match s.requests[i]
      case Arrived(_, _) => ReplaceSums(s, i, RunRequest(s, i).requests[i], key);
      case Replacing(_, _, _) => RemovedCounted(s, i, key);
      case Creating(_, _) => CreatedCounted(s, i, key);
      case Saving(_, _, _, _) => SavedCounted(s, i, key);
      case _ =>
    }
  }

  lemma FinishCounted(s: Server, i: nat, response: Response, key: Key)
    requires Counted(s, key) && i < |s.requests|
    ensures Counted(Step(s, Finish(i, response)), key)
  {
    ReplaceSums(s, i, Step(s, Finish(i, response)).requests[i], key);
    SumAppend(s.orders, s.requests[i].key, For(key));
  }

  lemma StoppedCounted(s: Server, a: Action, key: Key)
    requires Counted(s, key) && (a.Crash? || a.SaveFails?) && a.request < |s.requests| && Proper(Step(s, a), key)
    ensures Counted(Step(s, a), key)
  {
    ReplaceSums(s, a.request, Step(s, a).requests[a.request], key);
  }

  lemma ArriveCounted(s: Server, k: Key, body: string, key: Key)
    requires Counted(s, key)
    ensures Counted(Step(s, Arrive(k, body)), key)
  {
    SumAppend(s.requests, Arrived(k, body), OwnerOf(key));
    SumAppend(s.requests, Arrived(k, body), UnstoredFor(key));
  }

  lemma StepCounted(s: Server, a: Action, key: Key)
    requires Owners(s) && Counted(s, key) && Proper(Step(s, a), key)
    ensures Counted(Step(s, a), key)
  {
    match a
    case Run(i) => if i < |s.requests| { RunCounted(s, i, key); }
    case Arrive(k, body) => ArriveCounted(s, k, body, key);
    case Finish(i, response) => if i < |s.requests| { FinishCounted(s, i, response, key); }
    case Crash(i) => if i < |s.requests| { StoppedCounted(s, a, key); }
    case SaveFails(i) => if i < |s.requests| { StoppedCounted(s, a, key); }
    case _ =>
  }

  // ---------------------------------------------------------------- whole runs

  lemma StepImproper(s: Server, a: Action, key: Key)
    ensures Proper(Step(s, a), key) ==> Proper(s, key)
  {
  }

  lemma {:induction false} RunKeeps(s: Server, actions: seq<Action>, key: Key)
    requires Opening(s)
    ensures Owners(Steps(s, actions))
    ensures Proper(Steps(s, actions), key) ==> Counted(Steps(s, actions), key)
  {
    if actions != [] {
      var n := |actions| - 1;
      var before, a := Steps(s, actions[..n]), actions[n];
      RunKeeps(s, actions[..n], key);
      OwnersKept(before, a);
      StepImproper(before, a, key);
      if Proper(Steps(s, actions), key) {
        StepCounted(before, a, key);
      }
    }
  }

  /**
   * Any number of requests with one key, concurrent or not, place at most one order, provided no request
   * ran past the stale limit, every outcome was stored and the record has not expired. An order placed
   * and answered is on record, to be replayed.
   */
  lemma {:induction false} OneOrderPerKey(s: Server, actions: seq<Action>, key: Key)
    requires Opening(s) && Proper(Steps(s, actions), key)
    ensures var s' := Steps(s, actions);
            && OrdersFor(s', key) <= 1
            && (OrdersFor(s', key) == 1 ==>
                  || (exists r :: Answered(s', key, r) && r.status < 400)
                  || (exists i :: 0 <= i < |s'.requests| && s'.requests[i].Saving? && s'.requests[i].key == key
                                  && s'.requests[i].outcome.status < 400))
  {
    RunKeeps(s, actions, key);
    var s' := Steps(s, actions);
    SumBelow(s'.requests, key);
    if OrdersFor(s', key) == 1 {
      if Stored(s', key) == 1 {
        assert Answered(s', key, s'.records[key].state.response);
      } else if forall i :: 0 <= i < |s'.requests| ==> UnstoredFor(key)(s'.requests[i]) == 0 {
        SumZero(s'.requests, UnstoredFor(key));
      }
    }
  }

  lemma ExpiredStays(s: Server, a: Action)
    ensures s.expired <= Step(s, a).expired
  {
  }

  lemma LastOfBoth(actions: seq<Action>, more: seq<Action>)
    requires more != []
    ensures var n, both := |more| - 1, actions + more;
            both != [] && both[..|both| - 1] == actions + more[..n] && both[|both| - 1] == more[n]
  {
  }

  lemma {:induction false} OneMoreStep(s: Server, actions: seq<Action>, more: seq<Action>)
    requires more != []
    ensures Steps(s, actions + more) == Step(Steps(s, actions + more[..|more| - 1]), more[|more| - 1])
  {
    LastOfBoth(actions, more);
  }

  /** A stored outcome survives one action that does not let its record expire. */
  lemma {:induction false} StoredStep(s: Server, actions: seq<Action>, a: Action, key: Key, r: Response)
    requires Opening(s) && Answered(Steps(s, actions), key, r) && key !in Step(Steps(s, actions), a).expired
    ensures Answered(Step(Steps(s, actions), a), key, r)
    ensures Step(Steps(s, actions), a).records[key] == Steps(s, actions).records[key]
  {
    RunKeeps(s, actions, key);
    CompletedKept(Steps(s, actions), a, key, r);
  }

  lemma {:induction false} StoredStays(s: Server, actions: seq<Action>, more: seq<Action>, key: Key, r: Response)
    requires Opening(s) && Answered(Steps(s, actions), key, r) && key !in Steps(s, actions + more).expired
    ensures Answered(Steps(s, actions + more), key, r)
    ensures Steps(s, actions + more).records[key] == Steps(s, actions).records[key]
  {
    if more == [] {
      assert actions + more == actions;
    } else {
      var n := |more| - 1;
      OneMoreStep(s, actions, more);
      ExpiredStays(Steps(s, actions + more[..n]), more[n]);
      StoredStays(s, actions, more[..n], key, r);
      StoredStep(s, actions + more[..n], more[n], key, r);
    }
  }

  /**
   * A stored outcome, success or client error alike, is replayed unchanged until its record expires: a
   * later request with the same body is answered with it, one with another body is refused, and neither
   * places an order. A stored 423 is therefore replayed too, however free the lock has become.
   */
  lemma {:induction false} ReplayedUnchanged(s: Server, actions: seq<Action>, more: seq<Action>, key: Key,
                                             r: Response, i: nat)
    requires Opening(s) && Answered(Steps(s, actions), key, r) && key !in Steps(s, actions + more).expired
    requires i < |Steps(s, actions + more).requests| && Steps(s, actions + more).requests[i].Arrived?
    requires Steps(s, actions + more).requests[i].key == key
    ensures var later := Steps(s, actions + more);
            var next := Step(later, Run(i));
            && next.orders == later.orders && next.records == later.records
            && next.requests[i].Replied?
            && next.requests[i].answer
               == (if later.requests[i].body == Steps(s, actions).records[key].body then Replayed(r) else Mismatch)
  {
    StoredStays(s, actions, more, key, r);
  }
}
