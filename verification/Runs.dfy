/** Following one concrete run of the protocol state by state. */
module Runs {
  import opened Protocol

  /** The states a run passes through. */
  predicate Passes(s: State, run: seq<Action>, xs: seq<State>) {
    && |xs| == |run| + 1 && xs[0] == s
    && forall i {:trigger Step(xs[i], run[i])} :: 0 <= i < |run| ==> Step(xs[i], run[i]) == xs[i + 1]
  }

  /** The first `n` actions lead from `s` to `s'`. */
  ghost predicate Leads(s: State, run: seq<Action>, n: nat, s': State) {
    n <= |run| && exists xs :: Passes(s, run[..n], xs) && xs[n] == s'
  }

  lemma Stays(s: State, run: seq<Action>)
    ensures Leads(s, run, 0, s)
  {
    assert Passes(s, run[..0], [s]);
  }

  lemma Extends(s: State, run: seq<Action>, xs: seq<State>, a: Action)
    requires Passes(s, run, xs)
    ensures Passes(s, run + [a], xs + [Step(xs[|run|], a)])
  {
    var run', xs' := run + [a], xs + [Step(xs[|run|], a)];
    forall i {:trigger Step(xs'[i], run'[i])} | 0 <= i < |run'|
      ensures Step(xs'[i], run'[i]) == xs'[i + 1]
    {
      if i < |run| {
        assert Step(xs[i], run[i]) == xs[i + 1];
      }
    }
  }

  lemma Onward(s: State, run: seq<Action>, n: nat, x: State, a: Action, x': State)
    requires n < |run| && run[n] == a && Leads(s, run, n, x) && Step(x, a) == x'
    ensures Leads(s, run, n + 1, x')
  {
    var xs :| Passes(s, run[..n], xs) && xs[n] == x;
    Extends(s, run[..n], xs, a);
    assert run[..n] + [a] == run[..n + 1];
  }

  lemma {:induction false} PassesSteps(s: State, run: seq<Action>, xs: seq<State>)
    requires Passes(s, run, xs)
    ensures Steps(s, run) == xs[|run|]
  {
    if run != [] {
      var n := |run| - 1;
      assert Step(xs[n], run[n]) == xs[n + 1];
      PassesSteps(s, run[..n], xs[..n + 1]);
    }
  }

  lemma {:induction false} LeadsSteps(s: State, run: seq<Action>, n: nat, x: State)
    requires Leads(s, run, n, x)
    ensures Steps(s, run[..n]) == x
  {
    var xs :| Passes(s, run[..n], xs) && xs[n] == x;
    PassesSteps(s, run[..n], xs);
  }

  lemma SameStart(s: State, run: seq<Action>, other: seq<Action>, n: nat, x: State)
    requires Leads(s, run, n, x) && n <= |other| && run[..n] == other[..n]
    ensures Leads(s, other, n, x)
  {
  }
}
