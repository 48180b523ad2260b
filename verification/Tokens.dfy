/**
 * Refresh-token rotation. Refreshes, sign-ins and sign-outs of many devices run at once, one database
 * call at a time, and any of them may break off. A token row is named by its position; a token signed
 * anew is never one signed before. The chain of a token is the sign-in it descends from.
 */
module Tokens {
  import opened Wrappers
  import opened Sums

  datatype Token = Token(session: int, chain: nat, parent: Option<nat>, live: bool, expiresAt: int)

  /** `barred`: the refresh began while its session was signed out and nobody has signed in on it since. */
  datatype Task =
    | Presenting(token: nat, session: int, barred: bool)
    | Checking(token: nat, session: int, chain: nat, barred: bool)
    | Issuing(token: nat, session: int, chain: nat, barred: bool)
    | SigningIn(session: int)
    | SigningOut(session: int)
    | Over

  datatype State = State(tokens: seq<Token>, signedOut: set<int>, tasks: seq<Task>, now: int, lifetime: int)

  datatype Action =
    | Refresh(token: nat)
    | SignIn(session: int)
    | SignOut(token: nat, session: int)
    | Run(task: nat)
    | Break(task: nat)
    | Wait(time: nat)

  // ---------------------------------------------------------------- steps

  /** The atomic revoke of an active, unexpired token. */
  predicate CanConsume(s: State, token: nat) {
    token < |s.tokens| && s.tokens[token].live && s.now < s.tokens[token].expiresAt
  }

  function Kill(tokens: seq<Token>, token: nat): seq<Token> {
    if token < |tokens| then tokens[token := tokens[token].(live := false)] else tokens
  }

  function Unbar(k: Task, session: int): Task {
    match k
    case Presenting(token, d, barred) => Presenting(token, d, barred && d != session)
    case Checking(token, d, chain, barred) => Checking(token, d, chain, barred && d != session)
    case Issuing(token, d, chain, barred) => Issuing(token, d, chain, barred && d != session)
    case _ => k
  }

  function UnbarAll(tasks: seq<Task>, session: int): seq<Task> {
    seq(|tasks|, i requires 0 <= i < |tasks| => Unbar(tasks[i], session))
  }

  function RunTask(s: State, i: nat): State
    requires i < |s.tasks|
  {
    match s.tasks[i]
    case Presenting(token, session, barred) =>
      if CanConsume(s, token) then
        s.(tokens := Kill(s.tokens, token),
           tasks := s.tasks[i := Checking(token, session, s.tokens[token].chain, barred)])
      else s.(tasks := s.tasks[i := Over])
    case Checking(token, session, chain, barred) =>
      s.(tasks := s.tasks[i := if session in s.signedOut then Over else Issuing(token, session, chain, barred)])
    case Issuing(token, session, chain, barred) =>
      s.(tokens := s.tokens + [Token(session, chain, Some(token), true, s.now + s.lifetime)],
         tasks := s.tasks[i := Over])
    case SigningIn(session) =>
      s.(tokens := s.tokens + [Token(session, |s.tokens|, None, true, s.now + s.lifetime)], tasks := s.tasks[i := Over])
    case SigningOut(session) => s.(signedOut := s.signedOut + {session}, tasks := s.tasks[i := Over])
    case Over => s
  }

  function Step(s: State, a: Action): State {
    match a
    case Refresh(token) =>
      if token < |s.tokens| then
        var session := s.tokens[token].session;
        s.(tasks := s.tasks + [Presenting(token, session, session in s.signedOut)])
      else s
    case SignIn(session) =>
      s.(signedOut := s.signedOut - {session}, tasks := UnbarAll(s.tasks, session) + [SigningIn(session)])
    case SignOut(token, session) => s.(tokens := Kill(s.tokens, token), tasks := s.tasks + [SigningOut(session)])
    case Run(i) => if i < |s.tasks| then RunTask(s, i) else s
    case Break(i) => if i < |s.tasks| then s.(tasks := s.tasks[i := Over]) else s
    case Wait(time) => s.(now := s.now + time)
  }

  function Steps(s: State, actions: seq<Action>): State {
    if actions == [] then s else Step(Steps(s, actions[..|actions| - 1]), actions[|actions| - 1])
  }

  predicate Opening(s: State) {
    s.tokens == [] && s.tasks == []
  }

  // ---------------------------------------------------------------- counting

  /** The successors of a token. */
  function ChildOf(token: nat): Token -> int {
    (t: Token) => if t.parent == Some(token) then 1 else 0
  }

  /** A refresh that has consumed the token and not issued its successor. */
  function Exchanging(token: nat): Task -> int {
    (k: Task) => if (k.Checking? || k.Issuing?) && k.token == token then 1 else 0
  }

  function LiveIn(chain: nat): Token -> int {
    (t: Token) => if t.chain == chain && t.live then 1 else 0
  }

  function CarryingOn(chain: nat): Task -> int {
    (k: Task) => if (k.Checking? || k.Issuing?) && k.chain == chain then 1 else 0
  }

  function Unspent(s: State, token: nat): int {
    if token < |s.tokens| && s.tokens[token].live then 1 else 0
  }

  /** A token is unspent, being exchanged, or exchanged: at most one of them, and once. */
  predicate SpentOnce(s: State, token: nat) {
    Unspent(s, token) + Sum(s.tasks, Exchanging(token))
      + Sum(s.tokens, ChildOf(token)) <= (if token < |s.tokens| then 1 else 0)
  }

  /** A sign-in leaves at most one token that still works. */
  predicate OneLive(s: State, chain: nat) {
    Sum(s.tokens, LiveIn(chain)) + Sum(s.tasks, CarryingOn(chain)) <= (if chain < |s.tokens| then 1 else 0)
  }

  /** A barred refresh has a signed-out session and has not passed the check. */
  predicate BarHolds(s: State, k: Task) {
    match k
    case Presenting(token, session, barred) => barred ==> session in s.signedOut
    case Checking(_, session, _, barred) => barred ==> session in s.signedOut
    case Issuing(_, _, _, barred) => !barred
    case _ => true
  }

  predicate AllBars(s: State) {
    forall i :: 0 <= i < |s.tasks| ==> BarHolds(s, s.tasks[i])
  }

  // ---------------------------------------------------------------- every step keeps them

  lemma BarsKept(s: State, a: Action)
    requires AllBars(s)
    ensures AllBars(Step(s, a))
  {
    forall i | 0 <= i < |Step(s, a).tasks|
      ensures BarHolds(Step(s, a), Step(s, a).tasks[i])
    {
      if i < |s.tasks| { assert BarHolds(s, s.tasks[i]); }
    }
  }

  lemma {:induction false} UnbarSame(tasks: seq<Task>, session: int, token: nat, chain: nat)
    ensures Sum(UnbarAll(tasks, session), Exchanging(token)) == Sum(tasks, Exchanging(token))
    ensures Sum(UnbarAll(tasks, session), CarryingOn(chain)) == Sum(tasks, CarryingOn(chain))
  {
    SumSame(UnbarAll(tasks, session), tasks, Exchanging(token), Exchanging(token));
    SumSame(UnbarAll(tasks, session), tasks, CarryingOn(chain), CarryingOn(chain));
  }

  /** Revoking a token row changes neither its place in the chain nor its descent. */
  lemma {:induction false} Killed(tokens: seq<Token>, victim: nat, token: nat, chain: nat)
    ensures Sum(Kill(tokens, victim), ChildOf(token)) == Sum(tokens, ChildOf(token))
    ensures Sum(Kill(tokens, victim), LiveIn(chain))
            == Sum(tokens, LiveIn(chain)) - (if victim < |tokens| then LiveIn(chain)(tokens[victim]) else 0)
  {
    if victim < |tokens| {
      SumUpdate(tokens, victim, tokens[victim].(live := false), ChildOf(token));
      SumUpdate(tokens, victim, tokens[victim].(live := false), LiveIn(chain));
    }
  }

  lemma TaskReplaced(tasks: seq<Task>, i: nat, k: Task, token: nat, chain: nat)
    requires i < |tasks|
    ensures Sum(tasks[i := k], Exchanging(token))
            == Sum(tasks, Exchanging(token)) - Exchanging(token)(tasks[i]) + Exchanging(token)(k)
    ensures Sum(tasks[i := k], CarryingOn(chain))
            == Sum(tasks, CarryingOn(chain)) - CarryingOn(chain)(tasks[i]) + CarryingOn(chain)(k)
  {
    SumUpdate(tasks, i, k, Exchanging(token));
    SumUpdate(tasks, i, k, CarryingOn(chain));
  }

  lemma NothingNegative(s: State, token: nat, chain: nat)
    ensures 0 <= Sum(s.tasks, Exchanging(token)) && 0 <= Sum(s.tokens, ChildOf(token))
    ensures 0 <= Sum(s.tokens, LiveIn(chain)) && 0 <= Sum(s.tasks, CarryingOn(chain))
    ensures forall i :: 0 <= i < |s.tasks| ==> Exchanging(token)(s.tasks[i]) <= Sum(s.tasks, Exchanging(token))
    ensures forall i :: 0 <= i < |s.tasks| ==> CarryingOn(chain)(s.tasks[i]) <= Sum(s.tasks, CarryingOn(chain))
  {
    SumNonNegative(s.tasks, Exchanging(token));
    SumNonNegative(s.tokens, ChildOf(token));
    SumNonNegative(s.tokens, LiveIn(chain));
    SumNonNegative(s.tasks, CarryingOn(chain));
  }

  predicate Counts(s: State, token: nat, chain: nat) {
    SpentOnce(s, token) && OneLive(s, chain)
  }

  lemma PresentKept(s: State, i: nat, token: nat, chain: nat)
    requires Counts(s, token, chain) && i < |s.tasks| && s.tasks[i].Presenting?
    ensures Counts(RunTask(s, i), token, chain)
  {
    var s', t := RunTask(s, i), s.tasks[i].token;
    TaskReplaced(s.tasks, i, s'.tasks[i], token, chain);
    if CanConsume(s, t) { Killed(s.tokens, t, token, chain); }
  }

  lemma IssueKept(s: State, i: nat, token: nat, chain: nat)
    requires Counts(s, token, chain) && i < |s.tasks| && s.tasks[i].Issuing?
    ensures Counts(RunTask(s, i), token, chain)
  {
    var s' := RunTask(s, i);
    var k, issued := s.tasks[i], s'.tokens[|s.tokens|];
    TaskReplaced(s.tasks, i, Over, token, chain);
    SumAppend(s.tokens, issued, ChildOf(token));
    SumAppend(s.tokens, issued, LiveIn(chain));
    NothingNegative(s, token, chain);
    assert Exchanging(token)(k) <= Sum(s.tasks, Exchanging(token));
    assert CarryingOn(chain)(k) <= Sum(s.tasks, CarryingOn(chain));
  }

  lemma SignedInKept(s: State, i: nat, token: nat, chain: nat)
    requires Counts(s, token, chain) && i < |s.tasks| && s.tasks[i].SigningIn?
    ensures Counts(RunTask(s, i), token, chain)
  {
    var s' := RunTask(s, i);
    var issued := s'.tokens[|s.tokens|];
    TaskReplaced(s.tasks, i, Over, token, chain);
    SumAppend(s.tokens, issued, ChildOf(token));
    SumAppend(s.tokens, issued, LiveIn(chain));
    NothingNegative(s, token, chain);
  }

  lemma RunKept(s: State, i: nat, token: nat, chain: nat)
    requires Counts(s, token, chain) && i < |s.tasks|
    ensures Counts(RunTask(s, i), token, chain)
  {
    match s.tasks[i]
    case Presenting(_, _, _) => PresentKept(s, i, token, chain);
    case Issuing(_, _, _, _) => IssueKept(s, i, token, chain);
    case SigningIn(_) => SignedInKept(s, i, token, chain);
    case _ => TaskReplaced(s.tasks, i, RunTask(s, i).tasks[i], token, chain);
  }

  lemma {:induction false} TaskAdded(tasks: seq<Task>, k: Task, token: nat, chain: nat)
    requires !k.Checking? && !k.Issuing?
    ensures Sum(tasks + [k], Exchanging(token)) == Sum(tasks, Exchanging(token))
    ensures Sum(tasks + [k], CarryingOn(chain)) == Sum(tasks, CarryingOn(chain))
  {
    SumAppend(tasks, k, Exchanging(token));
    SumAppend(tasks, k, CarryingOn(chain));
  }

  /** A token killed and a task added that counts for nothing. */
  lemma KillCounts(s: State, s': State, victim: nat, k: Task, token: nat, chain: nat)
    requires Counts(s, token, chain) && s'.tokens == Kill(s.tokens, victim) && s'.tasks == s.tasks + [k]
    requires !k.Checking? && !k.Issuing?
    ensures Counts(s', token, chain)
  {
    Killed(s.tokens, victim, token, chain);
    TaskAdded(s.tasks, k, token, chain);
  }

  lemma SignOutKept(s: State, victim: nat, session: int, token: nat, chain: nat)
    requires Counts(s, token, chain)
    ensures Counts(Step(s, SignOut(victim, session)), token, chain)
  {
    KillCounts(s, Step(s, SignOut(victim, session)), victim, SigningOut(session), token, chain);
  }

  lemma SignInKept(s: State, session: int, token: nat, chain: nat)
    requires Counts(s, token, chain)
    ensures Counts(Step(s, SignIn(session)), token, chain)
  {
    UnbarSame(s.tasks, session, token, chain);
    TaskAdded(UnbarAll(s.tasks, session), SigningIn(session), token, chain);
  }

  lemma StepKept(s: State, a: Action, token: nat, chain: nat)
    requires Counts(s, token, chain)
    ensures Counts(Step(s, a), token, chain)
  {
    match a
    case Run(i) => if i < |s.tasks| { RunKept(s, i, token, chain); }
    case Break(i) => if i < |s.tasks| { TaskReplaced(s.tasks, i, Over, token, chain); }
    case Refresh(t) =>
      if t < |s.tokens| {
        TaskAdded(s.tasks, Presenting(t, s.tokens[t].session, s.tokens[t].session in s.signedOut), token, chain);
      }
    case SignIn(session) => SignInKept(s, session, token, chain);
    case SignOut(victim, session) => SignOutKept(s, victim, session, token, chain);
    case Wait(_) =>
  }

  lemma {:induction false} RunKeeps(s: State, actions: seq<Action>, token: nat, chain: nat)
    requires Opening(s)
    ensures var s' := Steps(s, actions); Counts(s', token, chain) && AllBars(s')
  {
    if actions != [] {
      var n := |actions| - 1;
      RunKeeps(s, actions[..n], token, chain);
      StepKept(Steps(s, actions[..n]), actions[n], token, chain);
      BarsKept(Steps(s, actions[..n]), actions[n]);
    }
  }

  // ---------------------------------------------------------------- main result

  /** The tokens a token was exchanged for. */
  function Children(s: State, token: nat): set<nat> {
    set c | 0 <= c < |s.tokens| && s.tokens[c].parent == Some(token)
  }

  /** The tokens of one sign-in that still work. */
  function Working(s: State, chain: nat): set<nat> {
    set c | 0 <= c < |s.tokens| && s.tokens[c].chain == chain && s.tokens[c].live
  }

  predicate Barred(k: Task) {
    (k.Presenting? || k.Checking? || k.Issuing?) && k.barred
  }

  /**
   * Whatever runs at once: a refresh token is exchanged at most once; each sign-in has at most one token
   * that still works; and a refresh that began between a sign-out and the next sign-in on the device
   * issues nothing, whatever step it runs next.
   */
  lemma {:induction false} RotationIsSafe(s: State, actions: seq<Action>, token: nat, chain: nat, i: nat)
    requires Opening(s) && i < |Steps(s, actions).tasks|
    ensures var s' := Steps(s, actions);
            && |Children(s', token)| <= 1
            && (token < |s'.tokens| && s'.tokens[token].live ==> Children(s', token) == {})
            && |Working(s', chain)| <= 1
            && (Barred(s'.tasks[i]) ==> |Step(s', Run(i)).tokens| == |s'.tokens|)
  {
    var s' := Steps(s, actions);
    RunKeeps(s, actions, token, chain);
    NothingNegative(s', token, chain);
    SumIsSize(s'.tokens, ChildOf(token), Children(s', token));
    SumIsSize(s'.tokens, LiveIn(chain), Working(s', chain));
    assert BarHolds(s', s'.tasks[i]);
  }

  /**
   * A refresh with nothing else going on: a token that works and has not expired is revoked, and exchanged
   * unless its session is signed out; any other token is refused and nothing changes.
   */
  lemma LoneRefresh(s: State, i: nat)
    requires i < |s.tasks| && s.tasks[i].Presenting?
    ensures var k, s' := s.tasks[i], Step(Step(Step(s, Run(i)), Run(i)), Run(i));
            if k.token < |s.tokens| && s.tokens[k.token].live && s.now < s.tokens[k.token].expiresAt then
              var was := s.tokens[k.token];
              var revoked := s.tokens[k.token := was.(live := false)];
              s'.tokens == if k.session in s.signedOut then revoked
                           else revoked + [Token(k.session, was.chain, Some(k.token), true, s.now + s.lifetime)]
            else s'.tokens == s.tokens
  {
  }

  /** At this action a refresh presented the token while it worked and had not expired. */
  predicate PresentedInTime(s: State, actions: seq<Action>, j: nat, token: nat)
    requires j < |actions|
  {
    var at := Steps(s, actions[..j]);
    && actions[j].Run? && actions[j].task < |at.tasks| && at.tasks[actions[j].task].Presenting?
    && at.tasks[actions[j].task].token == token
    && token < |at.tokens| && at.tokens[token].live && at.now < at.tokens[token].expiresAt
  }

  /** Some task is exchanging the token, or it has been exchanged. */
  predicate Spending(s: State, token: nat) {
    || (exists i :: 0 <= i < |s.tasks| && (s.tasks[i].Checking? || s.tasks[i].Issuing?) && s.tasks[i].token == token)
    || (exists c :: 0 <= c < |s.tokens| && s.tokens[c].parent == Some(token))
  }

  lemma StartsSpending(s: State, a: Action, token: nat)
    requires Spending(Step(s, a), token) && !Spending(s, token)
    ensures a.Run? && a.task < |s.tasks| && s.tasks[a.task].Presenting? && s.tasks[a.task].token == token
    ensures token < |s.tokens| && s.tokens[token].live && s.now < s.tokens[token].expiresAt
  {
    var s' := Step(s, a);
    if i :| 0 <= i < |s'.tasks| && (s'.tasks[i].Checking? || s'.tasks[i].Issuing?) && s'.tasks[i].token == token {
      assert i < |s.tasks| ==> !((s.tasks[i].Checking? || s.tasks[i].Issuing?) && s.tasks[i].token == token);
    }
  }

  /** Over every run, no token is exchanged, or even taken for an exchange, unless it was presented in time. */
  lemma {:induction false} ExchangedInTime(s: State, actions: seq<Action>, token: nat) returns (j: nat)
    requires Opening(s) && Spending(Steps(s, actions), token)
    ensures j < |actions| && PresentedInTime(s, actions, j, token)
  {
    var n := |actions| - 1;
    if Spending(Steps(s, actions[..n]), token) {
      j := ExchangedInTime(s, actions[..n], token);
      assert actions[..n][..j] == actions[..j];
    } else {
      StartsSpending(Steps(s, actions[..n]), actions[n], token);
      j := n;
    }
  }

  // ---------------------------------------------------------------- after a sign-out

  predicate NoSignIn(actions: seq<Action>, session: int) {
    forall i :: 0 <= i < |actions| ==> actions[i] != SignIn(session)
  }

  lemma {:induction false} StaysSignedOut(s: State, actions: seq<Action>, session: int)
    requires session in s.signedOut && NoSignIn(actions, session)
    ensures session in Steps(s, actions).signedOut
  {
    if actions != [] {
      StaysSignedOut(s, actions[..|actions| - 1], session);
    }
  }

  /** A refresh on this session that has not passed the check, or is over. */
  predicate NotPast(k: Task, session: int) {
    k.Over? || ((k.Presenting? || k.Checking?) && k.session == session)
  }

  lemma StepNotPast(s: State, a: Action, i: nat, session: int)
    requires session in s.signedOut && i < |s.tasks| && NotPast(s.tasks[i], session)
    ensures i < |Step(s, a).tasks| && NotPast(Step(s, a).tasks[i], session)
    ensures |Step(s, Run(i)).tokens| == |s.tokens|
  {
  }

  lemma {:induction false} NeverPast(s: State, actions: seq<Action>, i: nat, session: int)
    requires session in s.signedOut && NoSignIn(actions, session)
    requires i < |s.tasks| && NotPast(s.tasks[i], session)
    ensures i < |Steps(s, actions).tasks| && NotPast(Steps(s, actions).tasks[i], session)
  {
    if actions != [] {
      var n := |actions| - 1;
      NeverPast(s, actions[..n], i, session);
      StaysSignedOut(s, actions[..n], session);
      StepNotPast(Steps(s, actions[..n]), actions[n], i, session);
    }
  }

  /**
   * From any state: once a sign-out of a session is done, and until the next sign-in on it, a refresh with
   * any token of that session, whenever it begins and whatever runs beside it, issues no token.
   */
  lemma {:induction false} SignedOutIssuesNothing(s: State, t: nat, session: int, between: seq<Action>, token: nat,
                                                  more: seq<Action>)
    requires t < |s.tasks| && s.tasks[t] == SigningOut(session)
    requires NoSignIn(between, session) && NoSignIn(more, session)
    ensures var begun := Steps(Step(s, Run(t)), between);
            var later, i := Steps(Step(begun, Refresh(token)), more), |begun.tasks|;
            token < |begun.tokens| && begun.tokens[token].session == session ==>
              i < |later.tasks| && |Step(later, Run(i)).tokens| == |later.tokens|
  {
    var begun := Steps(Step(s, Run(t)), between);
    StaysSignedOut(Step(s, Run(t)), between, session);
    if token < |begun.tokens| && begun.tokens[token].session == session {
      var started, i := Step(begun, Refresh(token)), |begun.tasks|;
      NeverPast(started, more, i, session);
      StaysSignedOut(started, more, session);
      StepNotPast(Steps(started, more), Run(i), i, session);
    }
  }
}
