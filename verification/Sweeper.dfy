/** The sweep over expired reservations: its loops, what they amount to, and how repeated sweeps drain. */
module Sweeper {
  import opened Wrappers
  import opened Orders
  import opened Sums
  import opened Store
  import opened Database
  import opened Inventory

  // ---------------------------------------------------------------- the loop, as a fold

  datatype Pass = Pass(db: Db, released: nat, cancelled: nat, handled: set<nat>)

  function Release(p: Pass, o: nat): Pass {
    p.(db := ReleaseOrder(p.db, o, Expired), released := p.released + |ActiveRows(p.db, o)|)
  }

  function SweepOrder(p: Pass, now: int, o: nat): Pass {
    if CanUpdate(p.db, o, ExpireUnpaid(now)) then
      var q := Release(p.(db := UpdateOrder(p.db, o, ExpireUnpaid(now))), o);
      q.(db := InsertEvent(q.db, DomainEvent(OrderCancelled, o)), cancelled := p.cancelled + 1)
    else
      match OrderAt(p.db, o)
      case None => Release(p, o)
      case Some(order) =>
        if order.payment == Paid || order.payment == Authorized then p.(db := CommitReservations(p.db, o)) else p
  }

  function SweepRow(p: Pass, now: int, x: Expiry): Pass {
    match x.order
    case None =>
      if CanFlip(p.db, x.id, {Reserved}) then
        p.(db := ReleaseRow(p.db, x.id, Expired, {Reserved}), released := p.released + 1)
      else p
    case Some(o) =>
      if o in p.handled then p else SweepOrder(p, now, o).(handled := p.handled + {o})
  }

  function SweepRows(p: Pass, now: int, xs: seq<Expiry>): Pass {
    if xs == [] then p else SweepRow(SweepRows(p, now, xs[..|xs| - 1]), now, xs[|xs| - 1])
  }

  function SweepBatch(db: Db, now: int, batch: seq<nat>): Pass
    requires IsBatch(db, now, batch)
  {
    SweepRows(Pass(db, 0, 0, {}), now, Expiries(db, batch))
  }

  // ---------------------------------------------------------------- what it amounts to

  /** A pending, unpaid order loses its window; a deleted one has no claim. */
  predicate Lapsed(db: Db, o: nat) {
    OrderAt(db, o).None? || (OrderAt(db, o).value.status == Pending && OrderAt(db, o).value.payment == Unpaid)
  }

  predicate Settled(db: Db, o: nat) {
    OrderAt(db, o).Some? && OrderAt(db, o).value.payment in {Paid, Authorized}
  }

  function Outcome(db: Db, o: nat, r: Reservation): Reservation {
    if Lapsed(db, o) then ReleasedRow(r, o, Expired)
    else if Settled(db, o) then Committing(r, o)
    else r
  }

  /** One row after the sweep, read off the state before it. */
  function SweptRow(db: Db, listed: set<nat>, handled: set<nat>, id: nat): Reservation
    requires id < |db.reservations|
  {
    var r := db.reservations[id];
    match r.order
    case None => if id in listed then r.(status := Expired) else r
    case Some(o) => if o in handled then Outcome(db, o, r) else r
  }

  function SweptOrder(db: Db, now: int, handled: set<nat>, o: nat): Option<Order>
    requires o < |db.orders|
  {
    if o in handled && CanUpdate(db, o, ExpireUnpaid(now)) then Some(Written(db.orders[o].value, ExpireUnpaid(now)))
       else db.orders[o]
  }

  function ListedIds(xs: seq<Expiry>): set<nat> {
    set i | 0 <= i < |xs| :: xs[i].id
  }

  function OrdersOf(xs: seq<Expiry>): set<nat> {
    set i | 0 <= i < |xs| && xs[i].order.Some? :: xs[i].order.value
  }

  /** Rows that were active and no longer are, and orders that turned cancelled. */
  function Freed(db: Db, db': Db): set<nat> {
    set r | 0 <= r < |db.reservations| && r < |db'.reservations| && Active(db.reservations[r])
      && !Active(db'.reservations[r])
  }

  function Turned(db: Db, db': Db): set<nat> {
    set o | 0 <= o < |db.orders| && OrderAt(db, o).Some? && OrderAt(db', o).Some?
            && OrderAt(db, o).value.status != Cancelled && OrderAt(db', o).value.status == Cancelled
  }

  predicate RowsAmount(db: Db, listed: set<nat>, p: Pass) {
    && |p.db.reservations| == |db.reservations|
    && forall r :: 0 <= r < |db.reservations| ==> p.db.reservations[r] == SweptRow(db, listed, p.handled, r)
  }

  predicate OrdersAmount(db: Db, now: int, p: Pass) {
    && |p.db.orders| == |db.orders|
    && forall o :: 0 <= o < |db.orders| ==> p.db.orders[o] == SweptOrder(db, now, p.handled, o)
  }

  predicate CountsAmount(db: Db, p: Pass) {
    p.released == |Freed(db, p.db)| && p.cancelled == |Turned(db, p.db)|
  }

  predicate StockAmounts(db: Db, db': Db) {
    && db'.products.Keys == db.products.Keys
    && forall product :: product in db.products ==>
         StockOf(db', product) + Sum(db'.reservations, Holding(product))
           == StockOf(db, product) + Sum(db.reservations, Holding(product))
  }

  predicate Amounts(db: Db, now: int, xs: seq<Expiry>, p: Pass) {
    && p.handled == OrdersOf(xs)
    && RowsAmount(db, ListedIds(xs), p) && OrdersAmount(db, now, p) && CountsAmount(db, p) && StockAmounts(db, p.db)
  }

  predicate Listing(db: Db, now: int, xs: seq<Expiry>) {
    && (forall i :: 0 <= i < |xs| ==>
          xs[i].id < |db.reservations| && IsExpired(db.reservations[xs[i].id], now)
            && xs[i].order == db.reservations[xs[i].id].order)
    && (forall i, j :: 0 <= i < j < |xs| ==> xs[i].id != xs[j].id)
  }

  lemma OneMore(db: Db, now: int, xs: seq<Expiry>, x: Expiry)
    requires Listing(db, now, xs + [x])
    ensures Listing(db, now, xs) && x.id !in ListedIds(xs)
    ensures ListedIds(xs + [x]) == ListedIds(xs) + {x.id}
    ensures OrdersOf(xs + [x]) == OrdersOf(xs) + if x.order.Some? then {x.order.value} else {}
  {
    var xs' := xs + [x];
    assert xs'[|xs|] == x;
    forall i | 0 <= i < |xs|
      ensures xs'[i] == xs[i] && xs[i].id != x.id && xs[i].id in ListedIds(xs')
      ensures xs[i].order.Some? ==> xs[i].order.value in OrdersOf(xs')
    {
      assert xs'[i] == xs[i];
    }
  }

  lemma UnlinkedAmounts(db: Db, now: int, xs: seq<Expiry>, x: Expiry, p: Pass)
    requires Listing(db, now, xs + [x]) && Amounts(db, now, xs, p) && x.order.None?
    ensures Amounts(db, now, xs + [x], SweepRow(p, now, x))
  {
    OneMore(db, now, xs, x);
    var xs' := xs + [x];
    assert xs'[|xs|] == x;
    UnlinkedStep(db, now, ListedIds(xs), x, p);
  }

  lemma UnlinkedStep(db: Db, now: int, listed: set<nat>, x: Expiry, p: Pass)
    requires x.id < |db.reservations| && db.reservations[x.id].status == Reserved && db.reservations[x.id].order.None?
    requires x.id !in listed && x.order.None?
    requires RowsAmount(db, listed, p) && OrdersAmount(db, now, p) && CountsAmount(db, p) && StockAmounts(db, p.db)
    ensures var q := SweepRow(p, now, x);
            && q.handled == p.handled
            && RowsAmount(db, listed + {x.id}, q) && OrdersAmount(db, now, q) && CountsAmount(db, q)
            && StockAmounts(db, q.db)
  {
    assert p.db.reservations[x.id] == db.reservations[x.id];
    var q := SweepRow(p, now, x);
    assert q.db.reservations == p.db.reservations[x.id := db.reservations[x.id].(status := Expired)]
           && q.db.orders == p.db.orders;
    UnlinkedCounts(db, x.id, p, q);
    forall product | product in db.products
      ensures q.db.products.Keys == db.products.Keys
      ensures StockOf(q.db, product) + Sum(q.db.reservations, Holding(product))
              == StockOf(db, product) + Sum(db.reservations, Holding(product))
    {
      RowBalances(p.db, x.id, Expired, {Reserved}, product);
    }
  }

  lemma UnlinkedCounts(db: Db, id: nat, p: Pass, q: Pass)
    requires id < |db.reservations| && |p.db.reservations| == |db.reservations| && CountsAmount(db, p)
    requires Active(db.reservations[id]) && p.db.reservations[id] == db.reservations[id]
    requires q.db.reservations == p.db.reservations[id := db.reservations[id].(status := Expired)]
    requires q.db.orders == p.db.orders
    requires q.released == p.released + 1 && q.cancelled == p.cancelled
    ensures CountsAmount(db, q)
  {
    assert Freed(db, q.db) == Freed(db, p.db) + {id};
    assert Turned(db, q.db) == Turned(db, p.db);
  }

  // ---------------------------------------------------------------- one order's turn

  function LapsedRows(db: Db, o: nat): set<nat> {
    if Lapsed(db, o) then ActiveRows(db, o) else {}
  }

  /** One order's turn, seen from the state just before it. */
  lemma OrderTurn(p: Pass, now: int, o: nat)
    ensures var q := SweepOrder(p, now, o);
            && |q.db.reservations| == |p.db.reservations|
            && (forall r :: 0 <= r < |p.db.reservations| ==>
                q.db.reservations[r] == Outcome(p.db, o, p.db.reservations[r]))
            && q.db.orders == (if CanUpdate(p.db, o, ExpireUnpaid(now))
                               then p.db.orders[o := Some(Written(p.db.orders[o].value, ExpireUnpaid(now)))]
                                 else p.db.orders)
            && q.released == p.released + |LapsedRows(p.db, o)|
            && q.cancelled == p.cancelled + (if CanUpdate(p.db, o, ExpireUnpaid(now)) then 1 else 0)
            && q.handled == p.handled
            && StockAmounts(p.db, q.db)
  {
    var q := SweepOrder(p, now, o);
    if Lapsed(p.db, o) {
      var start := if CanUpdate(p.db, o, ExpireUnpaid(now)) then UpdateOrder(p.db, o, ExpireUnpaid(now)) else p.db;
      ReleaseOrderExact(start, o, Expired);
      assert ActiveRows(start, o) == ActiveRows(p.db, o);
      LapsedBalances(start, o);
    } else {
      forall product
        ensures Sum(q.db.reservations, Holding(product)) == Sum(p.db.reservations, Holding(product))
      {
        SumSame(q.db.reservations, p.db.reservations, Holding(product), Holding(product));
      }
    }
  }

  lemma LapsedBalances(db: Db, o: nat)
    ensures StockAmounts(db, ReleaseOrder(db, o, Expired))
  {
    var ids := FindActive(db.reservations, o);
    ReleaseRowsExact(db, ids, Expired);
  }

  lemma LinkedRows(db: Db, now: int, listed: set<nat>, o: nat, p: Pass)
    requires o !in p.handled && RowsAmount(db, listed, p) && OrdersAmount(db, now, p)
    ensures OrderAt(p.db, o) == OrderAt(db, o) && Lapsed(p.db, o) == Lapsed(db, o) && Settled(p.db, o) == Settled(db, o)
    ensures forall r :: 0 <= r < |db.reservations| && db.reservations[r].order == Some(o) ==>
            p.db.reservations[r] == db.reservations[r]
    ensures forall r :: 0 <= r < |db.reservations| ==> p.db.reservations[r].order == db.reservations[r].order
    ensures ActiveRows(p.db, o) == ActiveRows(db, o)
  {
  }

  lemma LinkedStep(db: Db, now: int, listed: set<nat>, o: nat, id: nat, p: Pass)
    requires o !in p.handled && o < |db.orders|
    requires id < |db.reservations| && db.reservations[id].order == Some(o)
    requires RowsAmount(db, listed, p) && OrdersAmount(db, now, p) && CountsAmount(db, p) && StockAmounts(db, p.db)
    ensures var q := SweepOrder(p, now, o).(handled := p.handled + {o});
            && RowsAmount(db, listed + {id}, q) && OrdersAmount(db, now, q) && CountsAmount(db, q)
            && StockAmounts(db, q.db)
  {
    var q := SweepOrder(p, now, o).(handled := p.handled + {o});
    OrderTurn(p, now, o);
    LinkedRows(db, now, listed, o, p);
    LinkedRowsAmount(db, now, listed, o, id, p, q);
    assert OrdersAmount(db, now, q);
    LinkedCounts(db, now, listed, o, p, q);
  }

  lemma LinkedRowsAmount(db: Db, now: int, listed: set<nat>, o: nat, id: nat, p: Pass, q: Pass)
    requires o !in p.handled && id < |db.reservations| && db.reservations[id].order == Some(o)
    requires RowsAmount(db, listed, p) && OrdersAmount(db, now, p) && q.handled == p.handled + {o}
    requires |q.db.reservations| == |p.db.reservations|
    requires forall r :: 0 <= r < |p.db.reservations| ==> q.db.reservations[r] == Outcome(p.db, o, p.db.reservations[r])
    ensures RowsAmount(db, listed + {id}, q)
  {
    LinkedRows(db, now, listed, o, p);
    forall r | 0 <= r < |db.reservations|
      ensures q.db.reservations[r] == SweptRow(db, listed + {id}, q.handled, r)
    {
      if db.reservations[r].order == Some(o) {
        assert p.db.reservations[r] == db.reservations[r];
      } else {
        assert Outcome(p.db, o, p.db.reservations[r]) == p.db.reservations[r];
      }
    }
  }

  lemma LinkedCounts(db: Db, now: int, listed: set<nat>, o: nat, p: Pass, q: Pass)
    requires o !in p.handled && o < |db.orders|
    requires RowsAmount(db, listed, p) && OrdersAmount(db, now, p) && CountsAmount(db, p)
    requires |q.db.reservations| == |p.db.reservations|
    requires forall r :: 0 <= r < |p.db.reservations| ==> q.db.reservations[r] == Outcome(p.db, o, p.db.reservations[r])
    requires q.db.orders == (if CanUpdate(p.db, o, ExpireUnpaid(now))
                             then p.db.orders[o := Some(Written(p.db.orders[o].value, ExpireUnpaid(now)))]
                               else p.db.orders)
    requires q.released == p.released + |LapsedRows(p.db, o)|
    requires q.cancelled == p.cancelled + (if CanUpdate(p.db, o, ExpireUnpaid(now)) then 1 else 0)
    ensures CountsAmount(db, q)
  {
    FreedGrow(db, now, listed, o, p, q);
    TurnedCount(db, now, o, p, q);
  }

  lemma FreedGrow(db: Db, now: int, listed: set<nat>, o: nat, p: Pass, q: Pass)
    requires o !in p.handled && o < |db.orders|
    requires RowsAmount(db, listed, p) && OrdersAmount(db, now, p)
    requires |q.db.reservations| == |p.db.reservations|
    requires forall r :: 0 <= r < |p.db.reservations| ==> q.db.reservations[r] == Outcome(p.db, o, p.db.reservations[r])
    ensures Freed(db, q.db) == Freed(db, p.db) + LapsedRows(p.db, o) && Freed(db, p.db) !! LapsedRows(p.db, o)
  {
    LinkedRows(db, now, listed, o, p);
    forall r | 0 <= r < |db.reservations|
      ensures r in Freed(db, q.db) <==> r in Freed(db, p.db) || r in LapsedRows(p.db, o)
      ensures !(r in Freed(db, p.db) && r in LapsedRows(p.db, o))
    {
      if db.reservations[r].order == Some(o) {
        assert p.db.reservations[r] == db.reservations[r];
      } else {
        assert Outcome(p.db, o, p.db.reservations[r]) == p.db.reservations[r];
      }
    }
  }

  lemma TurnedCount(db: Db, now: int, o: nat, p: Pass, q: Pass)
    requires o !in p.handled && o < |db.orders| && OrdersAmount(db, now, p)
    requires q.db.orders == (if CanUpdate(p.db, o, ExpireUnpaid(now))
                             then p.db.orders[o := Some(Written(p.db.orders[o].value, ExpireUnpaid(now)))]
                               else p.db.orders)
    ensures |Turned(db, q.db)| == |Turned(db, p.db)| + (if CanUpdate(p.db, o, ExpireUnpaid(now)) then 1 else 0)
  {
    if CanUpdate(p.db, o, ExpireUnpaid(now)) {
      assert Turned(db, q.db) == Turned(db, p.db) + {o};
      assert o !in Turned(db, p.db);
    } else {
      assert Turned(db, q.db) == Turned(db, p.db);
    }
  }

  /** Rows are only ever linked to orders that exist or existed. */
  predicate LinksOk(db: Db) {
    forall r :: 0 <= r < |db.reservations| && db.reservations[r].order.Some? ==>
      db.reservations[r].order.value < |db.orders|
  }

  lemma ListedAgain(db: Db, listed: set<nat>, id: nat, p: Pass)
    requires RowsAmount(db, listed, p) && id < |db.reservations| && db.reservations[id].order.Some?
    ensures RowsAmount(db, listed + {id}, p)
  {
    forall r | 0 <= r < |db.reservations|
      ensures SweptRow(db, listed + {id}, p.handled, r) == SweptRow(db, listed, p.handled, r)
    {
    }
  }

  /** The loop does what `SweptRow` and `SweptOrder` say, counts what it changed, and conserves stock. */
  lemma {:induction false} SweepAmounts(db: Db, now: int, xs: seq<Expiry>)
    requires Listing(db, now, xs) && LinksOk(db)
    ensures Amounts(db, now, xs, SweepRows(Pass(db, 0, 0, {}), now, xs))
  {
    if xs == [] {
      assert Freed(db, db) == {} && Turned(db, db) == {};
    } else {
      var n := |xs| - 1;
      var init, x := xs[..n], xs[n];
      assert init + [x] == xs;
      OneMore(db, now, init, x);
      SweepAmounts(db, now, init);
      var p := SweepRows(Pass(db, 0, 0, {}), now, init);
      if x.order.None? {
        UnlinkedAmounts(db, now, init, x, p);
      } else if x.order.value in p.handled {
        ListedAgain(db, ListedIds(init), x.id, p);
        assert OrdersOf(xs) == OrdersOf(init);
      } else {
        LinkedStep(db, now, ListedIds(init), x.order.value, x.id, p);
      }
    }
  }

  // ---------------------------------------------------------------- the query and the method

  function ExpiredSet(db: Db, now: int): set<nat> {
    set r | 0 <= r < |db.reservations| && IsExpired(db.reservations[r], now)
  }

  predicate Sorted(rows: seq<Reservation>, batch: seq<nat>)
    requires forall i :: 0 <= i < |batch| ==> batch[i] < |rows|
  {
    forall i, j :: 0 <= i < j < |batch| ==> rows[batch[i]].expiresAt <= rows[batch[j]].expiresAt
  }

  predicate NoLater(rows: seq<Reservation>, batch: seq<nat>, rest: set<nat>)
    requires (forall i :: 0 <= i < |batch| ==> batch[i] < |rows|) && (forall r :: r in rest ==> r < |rows|)
  {
    forall i, r :: 0 <= i < |batch| && r in rest ==> rows[batch[i]].expiresAt <= rows[r].expiresAt
  }

  /** The oldest deadlines first, at most `limit` of them; ties are broken any way. */
  predicate IsOldest(db: Db, now: int, limit: nat, batch: seq<nat>) {
    && IsBatch(db, now, batch)
    && (forall i, j :: 0 <= i < j < |batch| ==> batch[i] != batch[j])
    && |batch| == (if limit < |ExpiredSet(db, now)| then limit else |ExpiredSet(db, now)|)
    && Sorted(db.reservations, batch)
    && NoLater(db.reservations, batch, set r | r in ExpiredSet(db, now) && r !in batch)
  }

  lemma {:induction false} OldestExists(rows: seq<Reservation>, ids: set<nat>)
    requires ids != {} && forall r :: r in ids ==> r < |rows|
    ensures exists m :: m in ids && forall r :: r in ids ==> rows[m].expiresAt <= rows[r].expiresAt
  {
    var x :| x in ids;
    if ids == {x} {
      assert forall r :: r in ids ==> r == x;
    } else {
      OldestExists(rows, ids - {x});
      var m :| m in ids - {x} && forall r :: r in ids - {x} ==> rows[m].expiresAt <= rows[r].expiresAt;
      var best := if rows[x].expiresAt < rows[m].expiresAt then x else m;
      assert forall r :: r in ids ==> r == x || r in ids - {x};
      assert best in ids && forall r :: r in ids ==> rows[best].expiresAt <= rows[r].expiresAt;
    }
  }

  /** The oldest of the rest goes to the end of what has been taken. */
  lemma TakeOldest(rows: seq<Reservation>, batch: seq<nat>, rest: set<nat>, m: nat)
    requires (forall i :: 0 <= i < |batch| ==> batch[i] < |rows|) && (forall r :: r in rest ==> r < |rows|)
    requires Sorted(rows, batch) && NoLater(rows, batch, rest)
    requires m in rest && forall r :: r in rest ==> rows[m].expiresAt <= rows[r].expiresAt
    ensures forall i :: 0 <= i < |batch + [m]| ==> (batch + [m])[i] < |rows|
    ensures Sorted(rows, batch + [m]) && NoLater(rows, batch + [m], rest - {m})
  {
  }

  lemma {:induction false} DistinctIds(batch: seq<nat>, all: set<nat>)
    requires forall i :: 0 <= i < |batch| ==> batch[i] in all
    requires forall i, j :: 0 <= i < j < |batch| ==> batch[i] != batch[j]
    ensures |batch| <= |all| && |(set i | 0 <= i < |batch| :: batch[i])| == |batch|
  {
    var ids := set i | 0 <= i < |batch| :: batch[i];
    if batch == [] {
      assert ids == {};
    } else {
      var n := |batch| - 1;
      DistinctIds(batch[..n], all - {batch[n]});
      var fewer := set i | 0 <= i < n :: batch[..n][i];
      assert ids == fewer + {batch[n]} by {
        forall i | 0 <= i < |batch| ensures batch[i] in fewer
          + {batch[n]} { assert i < n ==> batch[..n][i] == batch[i]; }
        forall i | 0 <= i < n ensures batch[..n][i] in ids { assert batch[..n][i] == batch[i]; }
      }
      assert batch[n] !in fewer;
    }
  }

  /** Which rows a query lists, by status and deadline alone. */
  predicate OldestWaiting(rows: seq<Reservation>, now: int, limit: nat, batch: seq<nat>) {
    && (forall i :: 0 <= i < |batch| ==>
          batch[i] < |rows| && rows[batch[i]].status == Reserved && rows[batch[i]].expiresAt <= now)
    && (forall i, j :: 0 <= i < j < |batch| ==>
          batch[i] != batch[j] && rows[batch[i]].expiresAt <= rows[batch[j]].expiresAt)
    && |batch| <= limit
    && (forall r: nat :: r < |rows| && rows[r].status == Reserved && rows[r].expiresAt <= now && r !in batch ==>
          |batch| == limit && forall i :: 0 <= i < |batch| ==> rows[batch[i]].expiresAt <= rows[r].expiresAt)
  }

  /** A batch that has every expired row of a set of its own size misses none. */
  lemma {:induction false} NoneMissing(batch: seq<nat>, all: set<nat>, r: nat)
    requires forall i :: 0 <= i < |batch| ==> batch[i] in all
    requires forall i, j :: 0 <= i < j < |batch| ==> batch[i] != batch[j]
    requires |batch| == |all| && r in all
    ensures r in batch
  {
    if r !in batch { DistinctIds(batch, all - {r}); }
  }

  lemma OldestIsWaiting(db: Db, now: int, limit: nat, batch: seq<nat>)
    requires IsOldest(db, now, limit, batch)
    ensures OldestWaiting(db.reservations, now, limit, batch)
  {
    var all, rows := ExpiredSet(db, now), db.reservations;
    forall r: nat | r < |rows| && rows[r].status == Reserved && rows[r].expiresAt <= now && r !in batch
      ensures |batch| == limit && forall i :: 0 <= i < |batch| ==> rows[batch[i]].expiresAt <= rows[r].expiresAt
    {
      assert r in all;
      if |batch| == |all| { NoneMissing(batch, all, r); }
      assert r in set x | x in all && x !in batch;
    }
  }

  /** The rows reserved past their window with the oldest deadlines; none is left out unless the batch is full. */
  method FindExpired(db: Collections, now: int, limit: nat) returns (batch: seq<nat>)
    ensures IsOldest(db.Now(), now, limit, batch)
    ensures OldestWaiting(db.reservations, now, limit, batch)
  {
    var rows := db.reservations;
    var all := ExpiredSet(db.Now(), now);
    var rest := all;
    batch := [];
    while |batch| < limit && rest != {}
      invariant rest <= all && |batch| <= limit && |batch| + |rest| == |all|
      invariant forall i :: 0 <= i < |batch| ==> batch[i] in all && batch[i] !in rest
      invariant forall r :: r in all ==> r in rest || r in batch
      invariant forall i, j :: 0 <= i < j < |batch| ==> batch[i] != batch[j]
      invariant Sorted(rows, batch) && NoLater(rows, batch, rest)
      decreases |rest|
    {
      OldestExists(rows, rest);
      var m :| m in rest && forall r :: r in rest ==> rows[m].expiresAt <= rows[r].expiresAt;
      TakeOldest(rows, batch, rest, m);
      batch := batch + [m];
      rest := rest - {m};
    }
    assert rest == set r | r in all && r !in batch;
    OldestIsWaiting(db.Now(), now, limit, batch);
  }

  /** The turn of one order in the loop. */
  method ExpireOrder(db: Collections, now: int, o: nat) returns (released: nat, cancelled: nat)
    modifies db
    ensures var p := SweepOrder(Pass(old(db.Now()), 0, 0, {}), now, o);
            db.Now() == p.db && released == p.released && cancelled == p.cancelled
  {
    released, cancelled := 0, 0;
    var turned := db.UpdateIf(o, ExpireUnpaid(now));
    if turned.Some? {
      cancelled := 1;
      released := ReleaseOrderReservations(db, o, Expired);
      db.RecordEvent(DomainEvent(OrderCancelled, o));
      return;
    }
    var order := OrderAt(db.Now(), o);
    if order.None? {
      released := ReleaseOrderReservations(db, o, Expired);
    } else if order.value.payment == Paid || order.value.payment == Authorized {
      db.CommitOrderReservations(o);
    }
  }

  /** The turn of one listed row. */
  method ExpireRow(db: Collections, now: int, x: Expiry, handled: set<nat>)
    returns (released: nat, cancelled: nat, handled': set<nat>)
    modifies db
    ensures SweepRow(Pass(old(db.Now()), 0, 0, handled), now, x) == Pass(db.Now(), released, cancelled, handled')
  {
    released, cancelled, handled' := 0, 0, handled;
    if x.order.None? {
      var done := ReleaseReservation(db, x.id, Expired, {Reserved});
      if done {
        released := 1;
      }
    } else if x.order.value !in handled {
      handled' := handled + {x.order.value};
      released, cancelled := ExpireOrder(db, now, x.order.value);
    }
  }

  lemma TurnsAdd(p: Pass, now: int, x: Expiry)
    ensures var q := SweepRow(Pass(p.db, 0, 0, p.handled), now, x);
            SweepRow(p, now, x) == Pass(q.db, p.released + q.released, p.cancelled + q.cancelled, q.handled)
  {
  }

  lemma BatchListing(db: Db, now: int, batch: seq<nat>)
    requires IsBatch(db, now, batch) && forall i, j :: 0 <= i < j < |batch| ==> batch[i] != batch[j]
    ensures Listing(db, now, Expiries(db, batch))
    ensures forall i :: 0 <= i < |batch| ==> batch[i] in ListedIds(Expiries(db, batch))
    ensures forall id :: id in ListedIds(Expiries(db, batch)) ==> id in batch
    ensures forall i :: 0 <= i < |batch| && db.reservations[batch[i]].order.Some? ==>
              db.reservations[batch[i]].order.value in OrdersOf(Expiries(db, batch))
    ensures forall o :: o in OrdersOf(Expiries(db, batch)) ==>
              exists i :: 0 <= i < |batch| && db.reservations[batch[i]].order == Some(o)
  {
    var xs := Expiries(db, batch);
    forall i | 0 <= i < |batch|
      ensures batch[i] in ListedIds(xs)
      ensures db.reservations[batch[i]].order.Some? ==> db.reservations[batch[i]].order.value in OrdersOf(xs)
    {
      assert xs[i].id == batch[i];
    }
  }

  function HandledBy(db: Db, batch: seq<nat>): set<nat>
    requires forall i :: 0 <= i < |batch| ==> batch[i] < |db.reservations|
  {
    OrdersOf(Expiries(db, batch))
  }

  /** The rows and orders after a pass. */
  lemma PassResult(db: Db, now: int, limit: nat, batch: seq<nat>)
    requires IsOldest(db, now, limit, batch) && LinksOk(db)
    ensures var p := SweepBatch(db, now, batch);
            && p.handled == HandledBy(db, batch)
            && RowsAmount(db, ListedIds(Expiries(db, batch)), p) && OrdersAmount(db, now, p)
            && CountsAmount(db, p) && StockAmounts(db, p.db)
  {
    BatchListing(db, now, batch);
    SweepAmounts(db, now, Expiries(db, batch));
  }

  /** Some listed row is of this order. */
  predicate OrderListed(rows: seq<Reservation>, batch: seq<nat>, o: nat)
    requires forall i :: 0 <= i < |batch| ==> batch[i] < |rows|
  {
    exists i :: 0 <= i < |batch| && rows[batch[i]].order == Some(o)
  }

  /**
   * The status of a row after a pass: an unlinked row that is listed expires; the rows of a listed order
   * expire if it is gone or still waits for its payment, and are committed if it is paid.
   */
  predicate RowAfter(before: Db, batch: seq<nat>, r: nat, status: ReservationStatus)
    requires (forall i :: 0 <= i < |batch| ==> batch[i] < |before.reservations|) && r < |before.reservations|
  {
    var row := before.reservations[r];
    if row.order.None? then status == if r in batch then Expired else row.status
    else if !OrderListed(before.reservations, batch, row.order.value) then status == row.status
    else match OrderAt(before, row.order.value)
      case None => status == if row.status in {Reserved, Committed} then Expired else row.status
      case Some(o) =>
        if o.status == Pending && o.payment == Unpaid then
          status == if row.status in {Reserved, Committed} then Expired else row.status
        else if o.payment in {Paid, Authorized} then
          status == if row.status == Reserved then Committed else row.status
        else status == row.status
  }

  /** A listed order that still waits for its payment is cancelled; no other order changes. */
  predicate OrderAfter(before: Db, batch: seq<nat>, now: int, o: nat, order: Option<Order>)
    requires (forall i :: 0 <= i < |batch| ==> batch[i] < |before.reservations|) && o < |before.orders|
  {
    match before.orders[o]
    case None => order == None
    case Some(was) =>
      if OrderListed(before.reservations, batch, o) && was.status == Pending && was.payment == Unpaid then
        order == Some(was.(status := Cancelled, updatedAt := now))
      else order == Some(was)
  }

  predicate SameRecords(a: Db, b: Db) {
    a.coupons == b.coupons && a.redemptions == b.redemptions && a.payments == b.payments && a.carts == b.carts
  }

  /** One announcement per cancelled order, and nothing changed but stock, rows, orders and announcements. */
  predicate Announced(before: Db, db: Db, cancelled: nat) {
    && before.events <= db.events && |db.events| == |before.events| + cancelled
    && (forall k :: |before.events| <= k < |db.events| ==>
          && db.events[k].kind == OrderCancelled
          && OrderAt(db, db.events[k].order).Some? && OrderAt(db, db.events[k].order).value.status == Cancelled)
    && SameRecords(before, db)
  }

  lemma ReleaseKeeps(db: Db, o: nat)
    ensures var db' := ReleaseOrder(db, o, Expired);
            SameRecords(db, db') && db'.events == db.events && db'.orders == db.orders
  {
    ReleaseOrderExact(db, o, Expired);
  }

  lemma TurnKeeps(p: Pass, now: int, o: nat)
    ensures var q := SweepOrder(p, now, o);
            && SameRecords(p.db, q.db)
            && q.db.events == (if CanUpdate(p.db, o, ExpireUnpaid(now))
                               then p.db.events + [DomainEvent(OrderCancelled, o)] else p.db.events)
  {
    ReleaseKeeps(UpdateOrder(p.db, o, ExpireUnpaid(now)), o);
    ReleaseKeeps(p.db, o);
  }

  lemma OneMoreAnnounced(before: Db, cancelled: nat, p: Pass, q: Pass, now: int, o: nat)
    requires Announced(before, p.db, cancelled) && SameRecords(p.db, q.db)
    requires q.db.events == (if CanUpdate(p.db, o, ExpireUnpaid(now))
                             then p.db.events + [DomainEvent(OrderCancelled, o)] else p.db.events)
    requires q.db.orders == (if CanUpdate(p.db, o, ExpireUnpaid(now))
                             then p.db.orders[o := Some(Written(p.db.orders[o].value, ExpireUnpaid(now)))]
                               else p.db.orders)
    ensures Announced(before, q.db, if CanUpdate(p.db, o, ExpireUnpaid(now)) then cancelled + 1 else cancelled)
  {
  }

  lemma {:induction false} PassAnnounces(db: Db, now: int, xs: seq<Expiry>)
    ensures var p := SweepRows(Pass(db, 0, 0, {}), now, xs); Announced(db, p.db, p.cancelled)
  {
    if xs != [] {
      var n := |xs| - 1;
      var p := SweepRows(Pass(db, 0, 0, {}), now, xs[..n]);
      PassAnnounces(db, now, xs[..n]);
      if xs[n].order.Some? && xs[n].order.value !in p.handled {
        var o := xs[n].order.value;
        OrderTurn(p, now, o);
        TurnKeeps(p, now, o);
        OneMoreAnnounced(db, p.cancelled, p, SweepOrder(p, now, o), now, o);
      }
    }
  }

  /** What one pass over a batch does to every row and every order. */
  predicate PassMade(before: Db, batch: seq<nat>, now: int, db: Db)
    requires forall i :: 0 <= i < |batch| ==> batch[i] < |before.reservations|
  {
    && |db.reservations| == |before.reservations| && |db.orders| == |before.orders|
    && (forall r :: 0 <= r < |db.reservations| ==>
          && db.reservations[r] == before.reservations[r].(status := db.reservations[r].status)
          && RowAfter(before, batch, r, db.reservations[r].status))
    && (forall o :: 0 <= o < |db.orders| ==> OrderAfter(before, batch, now, o, db.orders[o]))
  }

  lemma HandledIsListed(db: Db, now: int, batch: seq<nat>, o: nat)
    requires IsBatch(db, now, batch) && forall i, j :: 0 <= i < j < |batch| ==> batch[i] != batch[j]
    ensures o in HandledBy(db, batch) <==> OrderListed(db.reservations, batch, o)
  {
    BatchListing(db, now, batch);
  }

  lemma RowIsAfter(db: Db, now: int, batch: seq<nat>, handled: set<nat>, r: nat)
    requires IsBatch(db, now, batch) && forall i, j :: 0 <= i < j < |batch| ==> batch[i] != batch[j]
    requires handled == HandledBy(db, batch) && r < |db.reservations|
    ensures var row := SweptRow(db, ListedIds(Expiries(db, batch)), handled, r);
            row == db.reservations[r].(status := row.status) && RowAfter(db, batch, r, row.status)
  {
    BatchListing(db, now, batch);
    if db.reservations[r].order.Some? { HandledIsListed(db, now, batch, db.reservations[r].order.value); }
  }

  lemma RowsAreAfter(db: Db, now: int, batch: seq<nat>, p: Pass)
    requires IsBatch(db, now, batch) && forall i, j :: 0 <= i < j < |batch| ==> batch[i] != batch[j]
    requires p.handled == HandledBy(db, batch) && RowsAmount(db, ListedIds(Expiries(db, batch)), p)
    ensures forall r :: 0 <= r < |db.reservations| ==>
              && p.db.reservations[r] == db.reservations[r].(status := p.db.reservations[r].status)
              && RowAfter(db, batch, r, p.db.reservations[r].status)
  {
    forall r | 0 <= r < |db.reservations|
      ensures p.db.reservations[r] == db.reservations[r].(status := p.db.reservations[r].status)
      ensures RowAfter(db, batch, r, p.db.reservations[r].status)
    {
      RowIsAfter(db, now, batch, p.handled, r);
    }
  }

  lemma OrderIsAfter(db: Db, now: int, batch: seq<nat>, handled: set<nat>, o: nat)
    requires IsBatch(db, now, batch) && o < |db.orders|
    requires o in handled <==> OrderListed(db.reservations, batch, o)
    ensures OrderAfter(db, batch, now, o, SweptOrder(db, now, handled, o))
  {
  }

  lemma OrdersAreAfter(db: Db, now: int, batch: seq<nat>, p: Pass)
    requires IsBatch(db, now, batch) && forall i, j :: 0 <= i < j < |batch| ==> batch[i] != batch[j]
    requires p.handled == HandledBy(db, batch) && OrdersAmount(db, now, p)
    ensures forall o :: 0 <= o < |db.orders| ==> OrderAfter(db, batch, now, o, p.db.orders[o])
  {
    forall o | 0 <= o < |db.orders|
      ensures OrderAfter(db, batch, now, o, p.db.orders[o])
    {
      HandledIsListed(db, now, batch, o);
      OrderIsAfter(db, now, batch, p.handled, o);
    }
  }

  lemma PassIsMade(db: Db, now: int, limit: nat, batch: seq<nat>)
    requires IsOldest(db, now, limit, batch) && LinksOk(db)
    ensures PassMade(db, batch, now, SweepBatch(db, now, batch).db)
  {
    PassResult(db, now, limit, batch);
    RowsAreAfter(db, now, batch, SweepBatch(db, now, batch));
    OrdersAreAfter(db, now, batch, SweepBatch(db, now, batch));
  }

  /** One pass. The batch is whichever of the oldest rows the query returned. */
  method ReleaseExpiredReservations(db: Collections, now: int, limit: nat)
    returns (released: nat, cancelled: nat, ghost batch: seq<nat>)
    modifies db
    ensures IsOldest(old(db.Now()), now, limit, batch)
    ensures OldestWaiting(old(db.reservations), now, limit, batch)
    ensures var p := SweepBatch(old(db.Now()), now, batch);
            db.Now() == p.db && released == p.released && cancelled == p.cancelled
    ensures old(LinksOk(db.Now())) ==> PassMade(old(db.Now()), batch, now, db.Now())
    ensures Announced(old(db.Now()), db.Now(), cancelled)
  {
    ghost var before := db.Now();
    var found := FindExpired(db, now, limit);
    batch := found;
    var expired := Expiries(db.Now(), found);
    var handled: set<nat> := {};
    released, cancelled := 0, 0;
    for i := 0 to |expired|
      invariant SweepRows(Pass(before, 0, 0, {}), now, expired[..i]) == Pass(db.Now(), released, cancelled, handled)
    {
      assert expired[..i + 1][..i] == expired[..i];
      TurnsAdd(Pass(db.Now(), released, cancelled, handled), now, expired[i]);
      var n, c;
      n, c, handled := ExpireRow(db, now, expired[i], handled);
      released, cancelled := released + n, cancelled + c;
    }
    assert expired[..|expired|] == expired;
    assert LinksOk(before) ==> PassMade(before, batch, now, SweepBatch(before, now, batch).db) by {
      if LinksOk(before) { PassIsMade(before, now, limit, batch); }
    }
    PassAnnounces(before, now, expired);
  }

  // ---------------------------------------------------------------- what a pass achieves

  /** A reserved row whose order is neither pending and unpaid, nor paid, nor gone; a pass leaves it. */
  predicate Stuck(db: Db, r: nat)
    requires r < |db.reservations|
  {
    db.reservations[r].order.Some? && !Lapsed(db, db.reservations[r].order.value)
      && !Settled(db, db.reservations[r].order.value)
  }

  lemma RowCleared(db: Db, now: int, listed: set<nat>, handled: set<nat>, r: nat)
    requires r < |db.reservations| && IsExpired(db.reservations[r], now)
    requires if db.reservations[r].order.None? then r in listed else db.reservations[r].order.value in handled
    ensures SweptRow(db, listed, handled, r).status == Reserved <==> Stuck(db, r)
  {
  }

  lemma ListedCleared(db: Db, now: int, batch: seq<nat>, p: Pass, i: nat)
    requires IsBatch(db, now, batch) && (forall i, j :: 0 <= i < j < |batch| ==> batch[i] != batch[j]) && i < |batch|
    requires RowsAmount(db, ListedIds(Expiries(db, batch)), p) && p.handled == HandledBy(db, batch)
    ensures |p.db.reservations| == |db.reservations|
    ensures p.db.reservations[batch[i]].status == Reserved <==> Stuck(db, batch[i])
  {
    BatchListing(db, now, batch);
    RowCleared(db, now, ListedIds(Expiries(db, batch)), p.handled, batch[i]);
  }

  lemma NoneReserved(db: Db, now: int, listed: set<nat>, p: Pass)
    requires RowsAmount(db, listed, p)
    ensures |p.db.reservations| == |db.reservations| && ExpiredSet(p.db, now) <= ExpiredSet(db, now)
  {
  }

  /** A listed row stays reserved exactly if it was stuck; no other row becomes reserved. */
  lemma PassClears(db: Db, now: int, limit: nat, batch: seq<nat>)
    requires IsOldest(db, now, limit, batch) && LinksOk(db)
    ensures var p := SweepBatch(db, now, batch);
            && |p.db.reservations| == |db.reservations|
            && (forall i :: 0 <= i < |batch| ==>
                (p.db.reservations[batch[i]].status == Reserved <==> Stuck(db, batch[i])))
            && ExpiredSet(p.db, now) <= ExpiredSet(db, now)
  {
    var p := SweepBatch(db, now, batch);
    PassResult(db, now, limit, batch);
    NoneReserved(db, now, ListedIds(Expiries(db, batch)), p);
    forall i | 0 <= i < |batch|
      ensures p.db.reservations[batch[i]].status == Reserved <==> Stuck(db, batch[i])
    {
      ListedCleared(db, now, batch, p, i);
    }
  }

  /** The two counts are the rows that stopped being active and the orders that became cancelled; stock is conserved. */
  lemma PassCounts(db: Db, now: int, limit: nat, batch: seq<nat>)
    requires IsOldest(db, now, limit, batch) && LinksOk(db)
    ensures var p := SweepBatch(db, now, batch);
            p.released == |Freed(db, p.db)| && p.cancelled == |Turned(db, p.db)| && StockAmounts(db, p.db)
  {
    PassResult(db, now, limit, batch);
  }

  /** Some row of the order was reserved past its window. */
  predicate HasExpired(db: Db, now: int, o: nat) {
    exists r :: 0 <= r < |db.reservations| && db.reservations[r].order == Some(o) && IsExpired(db.reservations[r], now)
  }

  lemma HandledHasExpired(db: Db, now: int, batch: seq<nat>, o: nat)
    requires IsBatch(db, now, batch) && (forall i, j :: 0 <= i < j < |batch| ==> batch[i] != batch[j])
    requires o in HandledBy(db, batch)
    ensures HasExpired(db, now, o)
  {
    BatchListing(db, now, batch);
    var i :| 0 <= i < |batch| && db.reservations[batch[i]].order == Some(o);
    assert IsExpired(db.reservations[batch[i]], now);
  }

  /**
   * Every order a pass cancels was pending and unpaid, had a reservation whose window had passed, and holds
   * nothing now.
   */
  lemma PassCancels(db: Db, now: int, limit: nat, batch: seq<nat>, o: nat)
    requires IsOldest(db, now, limit, batch) && LinksOk(db) && o in Turned(db, SweepBatch(db, now, batch).db)
    ensures OrderAt(db, o).value.status == Pending && OrderAt(db, o).value.payment == Unpaid
    ensures HasExpired(db, now, o) && HoldsNothing(SweepBatch(db, now, batch).db, o)
  {
    PassResult(db, now, limit, batch);
    TurnedMeans(db, now, ListedIds(Expiries(db, batch)), SweepBatch(db, now, batch), o);
    HandledHasExpired(db, now, batch, o);
  }

  lemma TurnedMeans(db: Db, now: int, listed: set<nat>, p: Pass, o: nat)
    requires RowsAmount(db, listed, p) && OrdersAmount(db, now, p) && o in Turned(db, p.db)
    ensures o in p.handled && CanUpdate(db, o, ExpireUnpaid(now)) && HoldsNothing(p.db, o)
  {
    forall r | 0 <= r < |p.db.reservations| && p.db.reservations[r].order == Some(o)
      ensures !Active(p.db.reservations[r])
    {
      assert p.db.reservations[r] == SweptRow(db, listed, p.handled, r);
    }
  }

  predicate NoneStuck(db: Db, now: int) {
    forall r :: r in ExpiredSet(db, now) ==> !Stuck(db, r)
  }

  /** If nothing is stuck, a pass of size b takes min(b, n) of the n expired rows away, and sticks none. */
  lemma PassDrains(db: Db, now: int, limit: nat, batch: seq<nat>)
    requires IsOldest(db, now, limit, batch) && LinksOk(db) && NoneStuck(db, now)
    ensures var p := SweepBatch(db, now, batch);
            && |ExpiredSet(p.db, now)| <= |ExpiredSet(db, now)| - |batch|
            && NoneStuck(p.db, now) && LinksOk(p.db)
  {
    var p := SweepBatch(db, now, batch);
    PassClears(db, now, limit, batch);
    DistinctIds(batch, ExpiredSet(db, now));
    var ids := set i | 0 <= i < |batch| :: batch[i];
    assert ids <= ExpiredSet(db, now);
    assert ExpiredSet(p.db, now) <= ExpiredSet(db, now) - ids;
    CardinalityOfSubset(ExpiredSet(p.db, now), ExpiredSet(db, now) - ids);
    StuckStays(db, now, limit, batch);
  }

  lemma {:induction false} CardinalityOfSubset(a: set<nat>, b: set<nat>)
    requires a <= b
    ensures |a| <= |b|
  {
    if a != {} {
      var x :| x in a;
      CardinalityOfSubset(a - {x}, b - {x});
    }
  }

  lemma RowStaysFree(db: Db, now: int, listed: set<nat>, p: Pass, r: nat)
    requires RowsAmount(db, listed, p) && OrdersAmount(db, now, p) && LinksOk(db)
    requires r < |db.reservations| && p.db.reservations[r].status == Reserved && !Stuck(db, r)
    ensures !Stuck(p.db, r)
  {
    var row := db.reservations[r];
    assert p.db.reservations[r] == SweptRow(db, listed, p.handled, r);
    if row.order.Some? {
      var o := row.order.value;
      assert p.db.orders[o] == SweptOrder(db, now, p.handled, o);
    }
  }

  lemma StuckStays(db: Db, now: int, limit: nat, batch: seq<nat>)
    requires IsOldest(db, now, limit, batch) && LinksOk(db) && NoneStuck(db, now)
    ensures NoneStuck(SweepBatch(db, now, batch).db, now) && LinksOk(SweepBatch(db, now, batch).db)
  {
    PassResult(db, now, limit, batch);
    PassClears(db, now, limit, batch);
    var p := SweepBatch(db, now, batch);
    forall r | r in ExpiredSet(p.db, now)
      ensures !Stuck(p.db, r)
    {
      assert r in ExpiredSet(db, now);
      RowStaysFree(db, now, ListedIds(Expiries(db, batch)), p, r);
    }
    LinksStay(db, ListedIds(Expiries(db, batch)), now, p);
  }

  lemma LinksStay(db: Db, listed: set<nat>, now: int, p: Pass)
    requires RowsAmount(db, listed, p) && OrdersAmount(db, now, p) && LinksOk(db)
    ensures LinksOk(p.db)
  {
  }

  ghost predicate PassTo(db: Db, now: int, limit: nat, db': Db) {
    exists batch :: IsOldest(db, now, limit, batch) && db' == SweepBatch(db, now, batch).db
  }

  /** A series of passes with nothing in between, each from the state the last one left. */
  ghost predicate Passes(dbs: seq<Db>, now: int, limit: nat) {
    dbs != [] && forall i :: 0 < i < |dbs| ==> PassTo(dbs[i - 1], now, limit, dbs[i])
  }

  lemma OnePassDrains(db: Db, now: int, limit: nat, db': Db)
    requires PassTo(db, now, limit, db') && LinksOk(db) && NoneStuck(db, now)
    ensures LinksOk(db') && NoneStuck(db', now)
    ensures |ExpiredSet(db', now)| == 0 || |ExpiredSet(db', now)| + limit <= |ExpiredSet(db, now)|
  {
    var batch :| IsOldest(db, now, limit, batch) && db' == SweepBatch(db, now, batch).db;
    PassDrains(db, now, limit, batch);
  }

  /** At most n - kb rows are left, or none. */
  predicate LeftAfter(passes: nat, limit: nat, left: nat, initial: nat) {
    left == 0 || left + passes * limit <= initial
  }

  lemma OnePassMore(passes: nat, limit: nat, left: nat, left': nat, initial: nat)
    requires LeftAfter(passes, limit, left, initial) && (left' == 0 || left' + limit <= left)
    ensures LeftAfter(passes + 1, limit, left', initial)
  {
    assert (passes + 1) * limit == passes * limit + limit;
  }

  lemma {:induction false} LeftAfterPasses(dbs: seq<Db>, now: int, limit: nat)
    requires Passes(dbs, now, limit) && LinksOk(dbs[0]) && NoneStuck(dbs[0], now)
    ensures var last := dbs[|dbs| - 1];
            && LinksOk(last) && NoneStuck(last, now)
            && LeftAfter(|dbs| - 1, limit, |ExpiredSet(last, now)|, |ExpiredSet(dbs[0], now)|)
  {
    if |dbs| > 1 {
      var n := |dbs| - 1;
      LeftAfterPasses(dbs[..n], now, limit);
      OnePassDrains(dbs[n - 1], now, limit, dbs[n]);
      OnePassMore(n - 1, limit, |ExpiredSet(dbs[n - 1], now)|, |ExpiredSet(dbs[n], now)|, |ExpiredSet(dbs[0], now)|);
    }
  }

  /** The rows that are reserved and whose deadline has come. */
  function Overdue(rows: seq<Reservation>, now: int): set<nat> {
    set r | 0 <= r < |rows| && rows[r].status == Reserved && rows[r].expiresAt <= now
  }

  /**
   * After k passes of size b at most n - kb of n overdue rows are left. So after ceil(n / b) passes every
   * row still reserved has its deadline ahead.
   */
  lemma PassesDrain(dbs: seq<Db>, now: int, limit: nat)
    requires Passes(dbs, now, limit) && LinksOk(dbs[0]) && NoneStuck(dbs[0], now)
    ensures var first, last := dbs[0].reservations, dbs[|dbs| - 1].reservations;
            && LeftAfter(|dbs| - 1, limit, |Overdue(last, now)|, |Overdue(first, now)|)
            && (|Overdue(first, now)| <= (|dbs| - 1) * limit ==>
                  forall r :: 0 <= r < |last| && last[r].status == Reserved ==> now < last[r].expiresAt)
  {
    LeftAfterPasses(dbs, now, limit);
    var first, last := dbs[0], dbs[|dbs| - 1];
    assert Overdue(first.reservations, now) == ExpiredSet(first, now);
    assert Overdue(last.reservations, now) == ExpiredSet(last, now);
    if |Overdue(first.reservations, now)| <= (|dbs| - 1) * limit {
      assert Overdue(last.reservations, now) == {};
      forall r | 0 <= r < |last.reservations| && last.reservations[r].status == Reserved
        ensures now < last.reservations[r].expiresAt
      {
        assert r !in Overdue(last.reservations, now);
      }
    }
  }

  /** With nothing expired a pass changes nothing and reports (0, 0). */
  lemma IdlePass(db: Db, now: int, limit: nat, batch: seq<nat>)
    requires IsOldest(db, now, limit, batch) && ExpiredSet(db, now) == {}
    ensures SweepBatch(db, now, batch) == Pass(db, 0, 0, {})
  {
    assert batch == [];
    assert Expiries(db, batch) == [];
  }
}
