/**
 * The expiring, owner-checked lock of one process. Tokens are numbered as they are handed out, so each is
 * new, as random identifiers are; the clock does not run backwards.
 */
module Locks {
  import opened Wrappers

  datatype Lock = Lock(token: nat, expiresAt: int)

  type Locks = map<string, Lock>

  predicate Taken(locks: Locks, key: string, now: int) {
    key in locks && locks[key].expiresAt > now
  }

  predicate OwnedBy(locks: Locks, key: string, token: nat) {
    key in locks && locks[key].token == token
  }

  class LockTable {
    var locks: Locks
    var tokens: nat

    constructor ()
      ensures locks == map[] && tokens == 0
    {
      locks, tokens := map[], 0;
    }

    method AcquireLock(key: string, ttl: int, now: int) returns (token: Option<nat>)
      modifies this
      ensures token.None? <==> Taken(old(locks), key, now)
      ensures token.None? <==> key in old(locks) && now < old(locks)[key].expiresAt
      ensures token.None? ==> locks == old(locks) && tokens == old(tokens)
      ensures token.Some? ==> token.value == old(tokens) && tokens == old(tokens) + 1
                              && locks == old(locks)[key := Lock(old(tokens), now + ttl)]
    {
      if key in locks && locks[key].expiresAt > now {
        return None;
      }
      token := Some(tokens);
      tokens := tokens + 1;
      locks := locks[key := Lock(token.value, now + ttl)];
    }

    method ReleaseLock(key: string, token: nat) returns (released: bool)
      modifies this`locks
      ensures released <==> OwnedBy(old(locks), key, token)
      ensures released <==> key in old(locks) && old(locks)[key].token == token
      ensures locks == if released then old(locks) - {key} else old(locks)
    {
      if key !in locks || locks[key].token != token {
        return false;
      }
      locks := locks - {key};
      return true;
    }
  }

  // ---------------------------------------------------------------- traces

  /** One run of the guarded body, from the lock being acquired to its release. */
  datatype Section = Section(key: string, token: nat, enteredAt: int, ttl: int, running: bool)

  datatype State = State(locks: Locks, sections: seq<Section>, now: int)

  datatype Action = Enter(key: string, ttl: int) | Leave(section: nat) | Wait(time: nat)

  function Step(s: State, a: Action): State {
    match a
    case Enter(key, ttl) =>
      if Taken(s.locks, key, s.now) then s
      else
        var token := |s.sections|;
        s.(locks := s.locks[key := Lock(token, s.now + ttl)],
           sections := s.sections + [Section(key, token, s.now, ttl, true)])
    case Leave(i) =>
      if i < |s.sections| && s.sections[i].running then
        var x := s.sections[i];
        s.(sections := s.sections[i := x.(running := false)],
           locks := if OwnedBy(s.locks, x.key, x.token) then s.locks - {x.key} else s.locks)
      else s
    case Wait(time) => s.(now := s.now + time)
  }

  function Steps(s: State, actions: seq<Action>): State {
    if actions == [] then s else Step(Steps(s, actions[..|actions| - 1]), actions[|actions| - 1])
  }

  predicate Outlived(x: Section, now: int) {
    x.enteredAt + x.ttl <= now
  }

  /** A body that has not outlived its lock owns it. */
  predicate Holds(s: State, i: nat)
    requires i < |s.sections|
  {
    var x := s.sections[i];
    && x.token == i && x.enteredAt <= s.now
    && (x.running && !Outlived(x, s.now) ==> OwnedBy(s.locks, x.key, x.token))
    && (OwnedBy(s.locks, x.key, x.token) ==> x.running && s.locks[x.key].expiresAt == x.enteredAt + x.ttl)
  }

  predicate Inv(s: State) {
    && (forall i :: 0 <= i < |s.sections| ==> Holds(s, i))
    && (forall key :: key in s.locks ==> s.locks[key].token < |s.sections| && s.sections[s.locks[key].token].key == key)
  }

  /** Bodies of one key that run at the same time. */
  predicate Overlap(s: State, i: nat, j: nat)
    requires i < |s.sections| && j < |s.sections|
  {
    s.sections[i].running && s.sections[j].running && s.sections[i].key == s.sections[j].key
  }

  /** The earlier of two overlapping bodies had outlived its lock when the later one began. */
  predicate OverlapsExplained(s: State) {
    forall i, j :: 0 <= i < j < |s.sections| && Overlap(s, i, j) ==> Outlived(s.sections[i], s.sections[j].enteredAt)
  }

  lemma StepKeeps(s: State, a: Action)
    requires Inv(s) && OverlapsExplained(s)
    ensures Inv(Step(s, a)) && OverlapsExplained(Step(s, a))
  {
    var s' := Step(s, a);
    forall i | 0 <= i < |s'.sections|
      ensures Holds(s', i)
    {
      if i < |s.sections| { assert Holds(s, i); }
      if a.Leave? && a.section < |s.sections| { assert Holds(s, a.section); }
    }
    forall i, j | 0 <= i < j < |s'.sections| && Overlap(s', i, j)
      ensures Outlived(s'.sections[i], s'.sections[j].enteredAt)
    {
      assert Holds(s, i);
      if j < |s.sections| { assert Overlap(s, i, j); }
    }
  }

  lemma {:induction false} RunKeeps(start: int, actions: seq<Action>)
    ensures Inv(Steps(State(map[], [], start), actions)) && OverlapsExplained(Steps(State(map[], [], start), actions))
  {
    if actions != [] {
      RunKeeps(start, actions[..|actions| - 1]);
      StepKeeps(Steps(State(map[], [], start), actions[..|actions| - 1]), actions[|actions| - 1]);
    }
  }

  /**
   * Over every trace: two bodies guarded by one key run at once only if the earlier one had outlived its
   * time limit when the later one began; and whoever leaves, however late, the lock of another body that
   * still owns it stays with that body.
   */
  lemma {:induction false} MutualExclusion(start: int, actions: seq<Action>, i: nat, j: nat)
    requires i < |Steps(State(map[], [], start), actions).sections|
    requires j < |Steps(State(map[], [], start), actions).sections|
    requires i != j
    ensures var s := Steps(State(map[], [], start), actions);
            && (Overlap(s, i, j) ==> Outlived(s.sections[if i < j then i else j],
                                              s.sections[if i < j then j else i].enteredAt))
            && (s.sections[j].running && !Outlived(s.sections[j], s.now) ==>
                OwnedBy(s.locks, s.sections[j].key, s.sections[j].token))
            && (OwnedBy(s.locks, s.sections[j].key, s.sections[j].token) ==>
                  OwnedBy(Step(s, Leave(i)).locks, s.sections[j].key, s.sections[j].token))
  {
    RunKeeps(start, actions);
    var s := Steps(State(map[], [], start), actions);
    assert Holds(s, i) && Holds(s, j);
  }
}
