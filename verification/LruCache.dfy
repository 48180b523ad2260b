/**
 * The in-memory cache: a map in insertion order, re-inserted on read, trimmed from the front on write.
 * The clock is a parameter of each call and need not be monotone.
 */
module LruCache {
  import opened Wrappers

  datatype Slot<V> = Slot(key: string, value: V, expiresAt: int)

  // ---------------------------------------------------------------- the ordered map

  function Find<V>(s: seq<Slot<V>>, key: string): Option<Slot<V>> {
    if s == [] then None else if s[0].key == key then Some(s[0]) else Find(s[1..], key)
  }

  function Without<V>(s: seq<Slot<V>>, key: string): seq<Slot<V>> {
    if s == [] then [] else if s[0].key == key then Without(s[1..], key) else [s[0]] + Without(s[1..], key)
  }

  function WithoutPrefix<V>(s: seq<Slot<V>>, prefix: string): seq<Slot<V>> {
    if s == [] then []
    else if prefix <= s[0].key then WithoutPrefix(s[1..], prefix)
    else [s[0]] + WithoutPrefix(s[1..], prefix)
  }

  /** The newest entries that fit. */
  function Trim<V>(s: seq<Slot<V>>, limit: nat): seq<Slot<V>> {
    if |s| <= limit then s else s[|s| - limit..]
  }

  predicate Distinct<V>(s: seq<Slot<V>>) {
    forall i, j :: 0 <= i < j < |s| ==> s[i].key != s[j].key
  }

  function Hit<V>(s: seq<Slot<V>>, key: string, now: int): Option<V> {
    var slot := Find(s, key);
    if slot.Some? && slot.value.expiresAt > now then Some(slot.value.value) else None
  }

  function AfterGet<V>(s: seq<Slot<V>>, key: string, now: int): seq<Slot<V>> {
    var slot := Find(s, key);
    if slot.None? then s
    else if slot.value.expiresAt <= now then Without(s, key)
    else Without(s, key) + [slot.value]
  }

  function AfterSet<V>(s: seq<Slot<V>>, limit: nat, key: string, value: V, ttl: int, now: int): seq<Slot<V>> {
    Trim(Without(s, key) + [Slot(key, value, now + ttl * 1000)], limit)
  }

  // ---------------------------------------------------------------- the class

  class Cache<V> {
    var entries: seq<Slot<V>>
    const limit: nat

    constructor (limit: nat)
      requires 1 <= limit
      ensures this.limit == limit && entries == []
    {
      this.limit, entries := limit, [];
    }

    method Delete(key: string)
      modifies this
      ensures entries == Without(old(entries), key)
    {
      entries := Without(entries, key);
    }

    method Get(key: string, now: int) returns (value: Option<V>)
      modifies this
      ensures value == Hit(old(entries), key, now)
      ensures entries == AfterGet(old(entries), key, now)
    {
      var slot := Find(entries, key);
      if slot.None? { return None; }
      Delete(key);
      if slot.value.expiresAt <= now { return None; }
      entries := entries + [slot.value];
      return Some(slot.value.value);
    }

    method Set(key: string, value: V, ttl: int, now: int)
      modifies this
      ensures entries == AfterSet(old(entries), limit, key, value, ttl, now)
      ensures |entries| <= limit
    {
      Delete(key);
      entries := entries + [Slot(key, value, now + ttl * 1000)];
      ghost var all := entries;
      while |entries| > limit
        invariant |entries| <= |all| && entries == all[|all| - |entries|..]
        invariant |entries| >= limit || entries == all
      {
        entries := entries[1..];
      }
    }

    method Del(prefix: string)
      modifies this
      ensures entries == WithoutPrefix(old(entries), prefix)
    {
      var i := 0;
      while i < |entries|
        invariant 0 <= i <= |entries|
        invariant WithoutPrefix(old(entries), prefix) == entries[..i] + WithoutPrefix(entries[i..], prefix)
        decreases |entries| - i
      {
        if prefix <= entries[i].key {
          assert (entries[..i] + entries[i + 1..])[i..] == entries[i..][1..];
          entries := entries[..i] + entries[i + 1..];
        } else {
          assert entries[i..][1..] == entries[i + 1..];
          i := i + 1;
        }
      }
      assert entries[..i] == entries;
    }
  }

  // ---------------------------------------------------------------- histories

  datatype Op<V> = Get(key: string, now: int) | Set(key: string, value: V, ttl: int, now: int) | Del(prefix: string)

  function Apply<V>(s: seq<Slot<V>>, limit: nat, op: Op<V>): seq<Slot<V>> {
    match op
    case Get(key, now) => AfterGet(s, key, now)
    case Set(key, value, ttl, now) => AfterSet(s, limit, key, value, ttl, now)
    case Del(prefix) => WithoutPrefix(s, prefix)
  }

  function Run<V>(limit: nat, ops: seq<Op<V>>): seq<Slot<V>> {
    if ops == [] then [] else Apply(Run(limit, ops[..|ops| - 1]), limit, ops[|ops| - 1])
  }

  /** A cache without a bound: what a key holds when nothing is ever evicted. */
  function Live<V>(ops: seq<Op<V>>, key: string): Option<Slot<V>> {
    if ops == [] then None
    else
      var before := Live(ops[..|ops| - 1], key);
      match ops[|ops| - 1]
      case Get(k, now) => if k == key && before.Some? && before.value.expiresAt <= now then None else before
      case Set(k, value, ttl, now) => if k == key then Some(Slot(key, value, now + ttl * 1000)) else before
      case Del(prefix) => if prefix <= key then None else before
  }

  /** The other keys set or hit since this one was last set or hit. */
  function Recent<V>(limit: nat, ops: seq<Op<V>>, key: string): set<string> {
    if ops == [] then {}
    else
      var init, op := ops[..|ops| - 1], ops[|ops| - 1];
      var before := Recent(limit, init, key);
      if !Touches(Run(limit, init), op) then before else if op.key == key then {} else before + {op.key}
  }

  predicate Touches<V>(s: seq<Slot<V>>, op: Op<V>) {
    op.Set? || (op.Get? && Hit(s, op.key, op.now).Some?)
  }

  // ---------------------------------------------------------------- looking up after each operation

  lemma {:induction false} FindMember<V>(s: seq<Slot<V>>, key: string)
    ensures Find(s, key).Some? <==> exists i :: 0 <= i < |s| && s[i].key == key
    ensures Find(s, key).Some? ==> Find(s, key).value.key == key
  {
    if s != [] {
      FindMember(s[1..], key);
      if i :| 0 <= i < |s| && s[i].key == key {
        assert i > 0 ==> s[1..][i - 1].key == key;
      }
    }
  }

  lemma {:induction false} FindWithout<V>(s: seq<Slot<V>>, k: string, key: string)
    ensures Find(Without(s, k), key) == if k == key then None else Find(s, key)
  {
    if s != [] {
      FindWithout(s[1..], k, key);
      if s[0].key != k { assert Without(s, k)[1..] == Without(s[1..], k); }
    }
  }

  lemma {:induction false} FindWithoutPrefix<V>(s: seq<Slot<V>>, prefix: string, key: string)
    ensures Find(WithoutPrefix(s, prefix), key) == if prefix <= key then None else Find(s, key)
  {
    if s != [] {
      FindWithoutPrefix(s[1..], prefix, key);
      if !(prefix <= s[0].key) { assert WithoutPrefix(s, prefix)[1..] == WithoutPrefix(s[1..], prefix); }
    }
  }

  lemma {:induction false} FindAppend<V>(s: seq<Slot<V>>, x: Slot<V>, key: string)
    ensures Find(s + [x], key) == if Find(s, key).Some? then Find(s, key) else if x.key == key then Some(x) else None
  {
    if s == [] {
      assert s + [x] == [x];
    } else {
      assert (s + [x])[1..] == s[1..] + [x];
      FindAppend(s[1..], x, key);
    }
  }

  lemma {:induction false} FindTrim<V>(s: seq<Slot<V>>, limit: nat, key: string)
    requires Distinct(s)
    ensures Find(Trim(s, limit), key).Some? ==> Find(Trim(s, limit), key) == Find(s, key)
  {
    if |s| > limit {
      assert Trim(s, limit) == Trim(s[1..], limit);
      FindTrim(s[1..], limit, key);
      if Find(s[1..], key).Some? {
        FindMember(s[1..], key);
      }
    }
  }

  // ---------------------------------------------------------------- keys stay distinct and bounded

  lemma {:induction false} WithoutShrinks<V>(s: seq<Slot<V>>, key: string)
    requires Distinct(s)
    ensures Distinct(Without(s, key)) && |Without(s, key)| <= |s|
    ensures Find(s, key).Some? ==> |Without(s, key)| < |s|
    ensures forall i :: 0 <= i < |Without(s, key)| ==>
            Without(s, key)[i].key != key && Find(s, Without(s, key)[i].key).Some?
  {
    if s != [] {
      WithoutShrinks(s[1..], key);
      var rest := Without(s[1..], key);
      forall i | 0 <= i < |rest|
        ensures rest[i].key != s[0].key
      {
        FindMember(s[1..], rest[i].key);
      }
    }
  }

  lemma {:induction false} WithoutPrefixShrinks<V>(s: seq<Slot<V>>, prefix: string)
    requires Distinct(s)
    ensures Distinct(WithoutPrefix(s, prefix)) && |WithoutPrefix(s, prefix)| <= |s|
    ensures forall i :: 0 <= i < |WithoutPrefix(s, prefix)| ==> Find(s, WithoutPrefix(s, prefix)[i].key).Some?
  {
    if s != [] {
      WithoutPrefixShrinks(s[1..], prefix);
      var rest := WithoutPrefix(s[1..], prefix);
      forall i | 0 <= i < |rest|
        ensures rest[i].key != s[0].key
      {
        FindMember(s[1..], rest[i].key);
      }
    }
  }

  /** However it is used, the cache has one entry per key and no more entries than its bound. */
  lemma {:induction false} NeverAboveBound<V>(limit: nat, ops: seq<Op<V>>)
    requires 1 <= limit
    ensures Distinct(Run(limit, ops)) && |Run(limit, ops)| <= limit
  {
    if ops != [] {
      var s := Run(limit, ops[..|ops| - 1]);
      NeverAboveBound(limit, ops[..|ops| - 1]);
      match ops[|ops| - 1]
      case Get(key, _) =>
        WithoutShrinks(s, key);
        FindMember(s, key);
      case Set(key, _, _, _) => WithoutShrinks(s, key);
      case Del(prefix) => WithoutPrefixShrinks(s, prefix);
    }
  }

  // ---------------------------------------------------------------- what is cached is what was set

  lemma {:induction false} FindAfterGet<V>(s: seq<Slot<V>>, k: string, now: int, key: string)
    ensures Find(AfterGet(s, k, now), key)
            == if k == key && Find(s, key).Some? && Find(s, key).value.expiresAt <= now then None else Find(s, key)
  {
    FindWithout(s, k, key);
    FindMember(s, k);
    if Find(s, k).Some? { FindAppend(Without(s, k), Find(s, k).value, key); }
  }

  lemma {:induction false} FindAfterSet<V>(s: seq<Slot<V>>, limit: nat, k: string, value: V, ttl: int, now: int,
                                           key: string)
    requires Distinct(s)
    ensures var found := Find(AfterSet(s, limit, k, value, ttl, now), key);
            found.None? || found == if k == key then Some(Slot(key, value, now + ttl * 1000)) else Find(s, key)
  {
    var x := Slot(k, value, now + ttl * 1000);
    FindWithout(s, k, key);
    WithoutShrinks(s, k);
    FindAppend(Without(s, k), x, key);
    FindTrim(Without(s, k) + [x], limit, key);
  }

  /** Whatever the cache still holds for a key is what a cache that never evicts would hold. */
  lemma {:induction false} CachedIsLive<V>(limit: nat, ops: seq<Op<V>>, key: string)
    requires 1 <= limit
    ensures Find(Run(limit, ops), key).Some? ==> Find(Run(limit, ops), key) == Live(ops, key)
  {
    if ops != [] {
      var init := ops[..|ops| - 1];
      var s := Run(limit, init);
      CachedIsLive(limit, init, key);
      NeverAboveBound(limit, init);
      match ops[|ops| - 1]
      case Get(k, now) => FindAfterGet(s, k, now, key);
      case Set(k, value, ttl, now) => FindAfterSet(s, limit, k, value, ttl, now, key);
      case Del(prefix) => FindWithoutPrefix(s, prefix, key);
    }
  }

  /** Operation `i` set the key to this, and nothing since has set it again, deleted it, or read it expired. */
  predicate SetLast<V(==)>(ops: seq<Op<V>>, key: string, slot: Slot<V>, i: nat) {
    && i < |ops| && ops[i].Set? && ops[i].key == key
    && slot == Slot(key, ops[i].value, ops[i].now + ops[i].ttl * 1000)
    && forall j :: i < j < |ops| ==> Leaves(ops[j], key, slot.expiresAt)
  }

  predicate Leaves<V>(op: Op<V>, key: string, expiresAt: int) {
    match op
    case Get(k, now) => k == key ==> now < expiresAt
    case Set(k, _, _, _) => k != key
    case Del(prefix) => !(prefix <= key)
  }

  lemma {:induction false} LiveIsLatest<V>(ops: seq<Op<V>>, key: string, slot: Slot<V>)
    ensures Live(ops, key) == Some(slot) <==> exists i :: SetLast(ops, key, slot, i)
  {
    if ops != [] {
      var n := |ops| - 1;
      var init := ops[..n];
      LiveIsLatest(init, key, slot);
      if Live(ops, key) == Some(slot) {
        if ops[n].Set? && ops[n].key == key {
          assert SetLast(ops, key, slot, n);
        } else {
          var i :| SetLast(init, key, slot, i);
          assert SetLast(ops, key, slot, i);
        }
      }
      if i: nat :| SetLast(ops, key, slot, i) {
        if i < n {
          assert SetLast(init, key, slot, i);
          assert Leaves(ops[n], key, slot.expiresAt);
        }
      }
    }
  }

  /**
   * A hit returns the value of the latest set of its key, which has not expired and has not been removed
   * by a prefix delete since.
   */
  lemma {:induction false} HitIsLatestSet<V>(limit: nat, ops: seq<Op<V>>, key: string, now: int)
    requires 1 <= limit && Hit(Run(limit, ops), key, now).Some?
    ensures exists i, slot ::
              SetLast(ops, key, slot, i) && now < slot.expiresAt && Hit(Run(limit, ops), key, now) == Some(slot.value)
  {
    CachedIsLive(limit, ops, key);
    var slot := Find(Run(limit, ops), key).value;
    LiveIsLatest(ops, key, slot);
    var i :| SetLast(ops, key, slot, i);
    assert SetLast(ops, key, slot, i) && now < slot.expiresAt;
  }

  // ---------------------------------------------------------------- what is used is kept

  /** The key is present, and every entry behind it is one of these. */
  predicate Guarded<V>(s: seq<Slot<V>>, key: string, recent: set<string>) {
    s != [] &&
    if s[0].key == key then forall i :: 1 <= i < |s| ==> s[i].key in recent
    else Guarded(s[1..], key, recent)
  }

  lemma {:induction false} GuardedFound<V>(s: seq<Slot<V>>, key: string, recent: set<string>)
    requires Guarded(s, key, recent)
    ensures Find(s, key).Some?
  {
    if s[0].key != key { GuardedFound(s[1..], key, recent); }
  }

  lemma {:induction false} GuardedWithout<V>(s: seq<Slot<V>>, k: string, key: string, recent: set<string>)
    requires Distinct(s) && Guarded(s, key, recent) && k != key
    ensures Guarded(Without(s, k), key, recent)
  {
    if s[0].key == key {
      WithoutShrinks(s[1..], k);
      var rest := Without(s[1..], k);
      forall i | 0 <= i < |rest|
        ensures rest[i].key in recent
      {
        FindMember(s[1..], rest[i].key);
      }
    } else {
      GuardedWithout(s[1..], k, key, recent);
      if s[0].key != k { assert Without(s, k)[1..] == Without(s[1..], k); }
    }
  }

  lemma {:induction false} GuardedWithoutPrefix<V>(s: seq<Slot<V>>, prefix: string, key: string, recent: set<string>)
    requires Distinct(s) && Guarded(s, key, recent) && !(prefix <= key)
    ensures Guarded(WithoutPrefix(s, prefix), key, recent)
  {
    if s[0].key == key {
      WithoutPrefixShrinks(s[1..], prefix);
      var rest := WithoutPrefix(s[1..], prefix);
      forall i | 0 <= i < |rest|
        ensures rest[i].key in recent
      {
        FindMember(s[1..], rest[i].key);
      }
    } else {
      GuardedWithoutPrefix(s[1..], prefix, key, recent);
      if !(prefix <= s[0].key) { assert WithoutPrefix(s, prefix)[1..] == WithoutPrefix(s[1..], prefix); }
    }
  }

  lemma {:induction false} GuardedAppend<V>(s: seq<Slot<V>>, x: Slot<V>, key: string, recent: set<string>)
    requires Guarded(s, key, recent)
    ensures Guarded(s + [x], key, recent + {x.key})
  {
    if s[0].key != key {
      GuardedAppend(s[1..], x, key, recent);
      assert (s + [x])[1..] == s[1..] + [x];
    }
  }

  lemma {:induction false} GuardedLast<V>(s: seq<Slot<V>>, x: Slot<V>)
    requires Find(s, x.key).None?
    ensures Guarded(s + [x], x.key, {})
  {
    if s != [] {
      GuardedLast(s[1..], x);
      assert (s + [x])[1..] == s[1..] + [x];
    }
  }

  lemma {:induction false} KeysCount<V>(s: seq<Slot<V>>, keys: set<string>)
    requires Distinct(s) && forall i :: 0 <= i < |s| ==> s[i].key in keys
    ensures |s| <= |keys|
  {
    if s != [] {
      KeysCount(s[1..], keys - {s[0].key});
    }
  }

  lemma {:induction false} GuardedTrim<V>(s: seq<Slot<V>>, limit: nat, key: string, recent: set<string>)
    requires Distinct(s) && Guarded(s, key, recent) && |recent| < limit
    ensures Guarded(Trim(s, limit), key, recent)
  {
    if |s| > limit {
      if s[0].key == key { KeysCount(s[1..], recent); }
      GuardedTrim(s[1..], limit, key, recent);
      assert Trim(s, limit) == Trim(s[1..], limit);
    }
  }

  lemma GuardedSet<V>(s: seq<Slot<V>>, limit: nat, k: string, x: Slot<V>, key: string, recent: set<string>)
    requires Distinct(s) && x.key == k && 1 <= limit
    requires k != key ==> Guarded(s, key, recent) && |recent + {k}| < limit
    ensures Guarded(Trim(Without(s, k) + [x], limit), key, if k == key then {} else recent + {k})
  {
    WithoutShrinks(s, k);
    if k == key {
      FindWithout(s, k, k);
      GuardedLast(Without(s, k), x);
      GuardedTrim(Without(s, k) + [x], limit, key, {});
    } else {
      GuardedWithout(s, k, key, recent);
      GuardedAppend(Without(s, k), x, key, recent);
      GuardedTrim(Without(s, k) + [x], limit, key, recent + {k});
    }
  }

  lemma GuardedHit<V>(s: seq<Slot<V>>, k: string, key: string, recent: set<string>)
    requires Distinct(s) && Find(s, k).Some? && (k != key ==> Guarded(s, key, recent))
    ensures Guarded(Without(s, k) + [Find(s, k).value], key, if k == key then {} else recent + {k})
  {
    FindMember(s, k);
    if k == key {
      FindWithout(s, k, k);
      GuardedLast(Without(s, k), Find(s, k).value);
    } else {
      GuardedWithout(s, k, key, recent);
      GuardedAppend(Without(s, k), Find(s, k).value, key, recent);
    }
  }

  /** An operation that touches this key, so that nothing is behind it afterwards. */
  predicate Renews<V>(s: seq<Slot<V>>, op: Op<V>, key: string) {
    Touches(s, op) && op.key == key
  }

  lemma SmallerSet(a: set<string>, b: set<string>)
    requires a <= b
    ensures |a| <= |b|
  {
    if b - a != {} {
      var x :| x in b - a;
      assert a <= b - {x};
      SmallerSet(a, b - {x});
    } else {
      assert forall x :: x in b && x !in a ==> x in b - a;
      assert a == b;
    }
  }

  lemma GuardedGet<V>(s: seq<Slot<V>>, k: string, now: int, key: string, recent: set<string>)
    requires Distinct(s) && (k != key || Hit(s, k, now).None? ==> Guarded(s, key, recent))
    requires k == key && Find(s, k).Some? ==> Find(s, k).value.expiresAt > now
    ensures Guarded(AfterGet(s, k, now), key,
                    if Hit(s, k, now).None? then recent else if k == key then {} else recent + {k})
  {
    if Find(s, k).Some? {
      if Find(s, k).value.expiresAt > now { GuardedHit(s, k, key, recent); } else { GuardedWithout(s, k, key, recent); }
    }
  }

  /** One operation keeps the key guarded, if it was or if the operation renews it. */
  lemma {:induction false} GuardedApply<V>(s: seq<Slot<V>>, limit: nat, op: Op<V>, key: string, recent: set<string>,
                                           recent': set<string>)
    requires Distinct(s) && 1 <= limit && |recent'| < limit
    requires recent' == if !Touches(s, op) then recent else if op.key == key then {} else recent + {op.key}
    requires !Renews(s, op, key) ==> Guarded(s, key, recent)
    requires op.Get? && op.key == key && Find(s, key).Some? ==> Find(s, key).value.expiresAt > op.now
    requires op.Del? ==> !(op.prefix <= key)
    ensures Guarded(Apply(s, limit, op), key, recent')
  {
    match op
    case Get(k, now) => GuardedGet(s, k, now, key, recent);
    case Set(k, value, ttl, now) => GuardedSet(s, limit, k, Slot(k, value, now + ttl * 1000), key, recent);
    case Del(prefix) => GuardedWithoutPrefix(s, prefix, key, recent);
  }

  lemma {:induction false} RecentKept<V>(limit: nat, ops: seq<Op<V>>, key: string)
    requires 1 <= limit && Live(ops, key).Some? && |Recent(limit, ops, key)| < limit
    ensures Guarded(Run(limit, ops), key, Recent(limit, ops, key))
  {
    var init, op := ops[..|ops| - 1], ops[|ops| - 1];
    var s, recent, recent' := Run(limit, init), Recent(limit, init, key), Recent(limit, ops, key);
    NeverAboveBound(limit, init);
    CachedIsLive(limit, init, key);
    if !Renews(s, op, key) {
      SmallerSet(recent, recent');
      RecentKept(limit, init, key);
    }
    GuardedApply(s, limit, op, key, recent, recent');
  }

  /**
   * An entry that has not expired or been deleted still hits if fewer distinct other keys than the bound
   * were set or hit since it was last set or hit.
   */
  lemma {:induction false} UsedKeysHit<V>(limit: nat, ops: seq<Op<V>>, key: string, now: int)
    requires 1 <= limit && Live(ops, key).Some? && Live(ops, key).value.expiresAt > now
    requires |Recent(limit, ops, key)| < limit
    ensures Hit(Run(limit, ops), key, now) == Some(Live(ops, key).value.value)
  {
    RecentKept(limit, ops, key);
    GuardedFound(Run(limit, ops), key, Recent(limit, ops, key));
    CachedIsLive(limit, ops, key);
  }
}
