/** Weighted sums over the rows of a collection. A count is a sum of zeros and ones. */
module Sums {

  function Sum<T>(s: seq<T>, f: T -> int): int {
    if s == [] then 0 else Sum(s[..|s| - 1], f) + f(s[|s| - 1])
  }

  lemma {:induction false} SumAppend<T>(s: seq<T>, x: T, f: T -> int)
    ensures Sum(s + [x], f) == Sum(s, f) + f(x)
  {
    assert (s + [x])[..|s|] == s;
  }

  lemma {:induction false} SumUpdate<T>(s: seq<T>, i: nat, x: T, f: T -> int)
    requires i < |s|
    ensures Sum(s[i := x], f) == Sum(s, f) - f(s[i]) + f(x)
  {
    var n := |s| - 1;
    if i == n {
      assert s[i := x][..n] == s[..n];
    } else {
      assert s[i := x][..n] == s[..n][i := x];
      SumUpdate(s[..n], i, x, f);
    }
  }

  lemma {:induction false} SumSame<S, T>(s: seq<S>, s': seq<T>, f: S -> int, g: T -> int)
    requires |s| == |s'|
    requires forall i :: 0 <= i < |s| ==> f(s[i]) == g(s'[i])
    ensures Sum(s, f) == Sum(s', g)
  {
    if s != [] {
      SumSame(s[..|s| - 1], s'[..|s| - 1], f, g);
    }
  }

  lemma {:induction false} SumZero<T>(s: seq<T>, f: T -> int)
    requires forall i :: 0 <= i < |s| ==> f(s[i]) == 0
    ensures Sum(s, f) == 0
  {
    if s != [] {
      SumZero(s[..|s| - 1], f);
    }
  }

  lemma {:induction false} SumNonNegative<T>(s: seq<T>, f: T -> int)
    requires forall i :: 0 <= i < |s| ==> f(s[i]) >= 0
    ensures Sum(s, f) >= 0
    ensures forall i :: 0 <= i < |s| ==> f(s[i]) <= Sum(s, f)
  {
    if s != [] {
      SumNonNegative(s[..|s| - 1], f);
      assert forall i :: 0 <= i < |s| - 1 ==> s[i] == s[..|s| - 1][i];
    }
  }

  /** A sum of zeros and ones is the number of the ones. */
  lemma {:induction false} SumIsSize<T>(s: seq<T>, f: T -> int, ones: set<nat>)
    requires forall i :: 0 <= i < |s| ==> f(s[i]) == if i in ones then 1 else 0
    requires forall i :: i in ones ==> i < |s|
    ensures Sum(s, f) == |ones|
  {
    if s == [] {
      assert ones == {};
    } else {
      var n := |s| - 1;
      assert ones == (if n in ones then (ones - {n}) + {n} else ones - {n});
      SumIsSize(s[..n], f, ones - {n});
    }
  }
}
