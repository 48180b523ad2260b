/**
 * Returning stock: one reservation, one order, and the sweep over expired reservations, as the service
 * runs them when nothing else interferes.
 */
module Inventory {
  import opened Wrappers
  import opened Sums
  import opened Store
  import opened Database

  // ---------------------------------------------------------------- one reservation

  function ReleaseRow(db: Db, id: nat, to: ReservationStatus, from: set<ReservationStatus>): Db {
    if CanFlip(db, id, from) then
      AddStock(SetStatus(db, id, to), db.reservations[id].product, db.reservations[id].quantity)
    else db
  }

  method ReleaseReservation(db: Collections, id: nat, to: ReservationStatus, from: set<ReservationStatus>)
    returns (done: bool)
    modifies db
    ensures done == CanFlip(old(db.Now()), id, from)
    ensures db.Now() == ReleaseRow(old(db.Now()), id, to, from)
  {
    var row := db.FlipReservation(id, from, to);
    if row.None? {
      return false;
    }
    db.IncStock(row.value.product, row.value.quantity);
    return true;
  }

  // ---------------------------------------------------------------- one order

  function ReleaseRows(db: Db, ids: seq<nat>, to: ReservationStatus): Db {
    if ids == [] then db
    else ReleaseRow(ReleaseRows(db, ids[..|ids| - 1], to), ids[|ids| - 1], to, ACTIVE)
  }

  /** What releasing an order means, without a loop. */
  function ReleasedRow(r: Reservation, order: nat, to: ReservationStatus): Reservation {
    if ActiveFor(r, order) then r.(status := to) else r
  }

  function ActiveRows(db: Db, order: nat): set<nat> {
    set r | 0 <= r < |db.reservations| && ActiveFor(db.reservations[r], order)
  }

  function ReleaseOrder(db: Db, order: nat, to: ReservationStatus): Db {
    ReleaseRows(db, FindActive(db.reservations, order), to)
  }

  function UnitsFor(order: nat, product: int): Reservation -> int {
    (r: Reservation) => if ActiveFor(r, order) && r.product == product then r.quantity else 0
  }

  lemma {:induction false} SumSplit<T>(s: seq<T>, s': seq<T>, f: T -> int, g: T -> int, h: T -> int)
    requires |s| == |s'|
    requires forall i :: 0 <= i < |s| ==> f(s[i]) == g(s'[i]) + h(s[i])
    ensures Sum(s, f) == Sum(s', g) + Sum(s, h)
  {
    if s != [] {
      SumSplit(s[..|s| - 1], s'[..|s| - 1], f, g, h);
    }
  }

  lemma RowBalances(db: Db, id: nat, to: ReservationStatus, from: set<ReservationStatus>, product: int)
    requires to !in ACTIVE && from <= ACTIVE && product in db.products
    ensures var db' := ReleaseRow(db, id, to, from);
            && db'.products.Keys == db.products.Keys
            && StockOf(db', product) + Sum(db'.reservations, Holding(product))
               == StockOf(db, product) + Sum(db.reservations, Holding(product))
  {
    if CanFlip(db, id, from) {
      SumUpdate(db.reservations, id, db.reservations[id].(status := to), Holding(product));
    }
  }

  /** Only reservation statuses and stock change. */
  predicate SameElsewhere(db: Db, db': Db) {
    db'.orders == db.orders && db'.coupons == db.coupons && db'.redemptions == db.redemptions
      && db'.payments == db.payments
    && db'.events == db.events && db'.carts == db.carts && |db'.reservations| == |db.reservations|
    && db'.products.Keys == db.products.Keys
  }

  /** The ids are of active rows, in order and so without repetition. */
  predicate ActiveIds(rows: seq<Reservation>, ids: seq<nat>) {
    && (forall i :: 0 <= i < |ids| ==> ids[i] < |rows| && Active(rows[ids[i]]))
    && (forall i, j :: 0 <= i < j < |ids| ==> ids[i] < ids[j])
  }

  predicate Turned(rows: seq<Reservation>, rows': seq<Reservation>, ids: seq<nat>, to: ReservationStatus) {
    |rows'| == |rows| && forall r: nat :: r < |rows| ==>
      rows'[r] == if r in ids then rows[r].(status := to) else rows[r]
  }

  predicate Rebalanced(db: Db, db': Db, product: int) {
    StockOf(db', product) + Sum(db'.reservations, Holding(product))
      == StockOf(db, product) + Sum(db.reservations, Holding(product))
  }

  lemma LastIsNew(ids: seq<nat>)
    requires ids != [] && forall i, j :: 0 <= i < j < |ids| ==> ids[i] < ids[j]
    ensures ids[|ids| - 1] !in ids[..|ids| - 1]
    ensures forall r :: r in ids <==> r in ids[..|ids| - 1] || r == ids[|ids| - 1]
  {
  }

  lemma TurnedOneMore(db: Db, before: Db, ids: seq<nat>, to: ReservationStatus)
    requires ids != [] && to !in ACTIVE && ActiveIds(db.reservations, ids)
    requires SameElsewhere(db, before) && Turned(db.reservations, before.reservations, ids[..|ids| - 1], to)
    ensures var id, db' := ids[|ids| - 1], ReleaseRow(before, ids[|ids| - 1], to, ACTIVE);
            CanFlip(before, id, ACTIVE) && SameElsewhere(db, db') && Turned(db.reservations, db'.reservations, ids, to)
  {
    LastIsNew(ids);
  }

  lemma {:induction false} ReleaseRowsExact(db: Db, ids: seq<nat>, to: ReservationStatus)
    requires to !in ACTIVE && ActiveIds(db.reservations, ids)
    ensures var db' := ReleaseRows(db, ids, to);
            && SameElsewhere(db, db') && Turned(db.reservations, db'.reservations, ids, to)
            && forall product :: product in db.products ==> Rebalanced(db, db', product)
  {
    if ids != [] {
      var n := |ids| - 1;
      var before := ReleaseRows(db, ids[..n], to);
      ReleaseRowsExact(db, ids[..n], to);
      TurnedOneMore(db, before, ids, to);
      forall product | product in db.products
        ensures Rebalanced(db, ReleaseRows(db, ids, to), product)
      {
        assert Rebalanced(db, before, product);
        RowBalances(before, ids[n], to, ACTIVE, product);
      }
    }
  }

  /** Listing the active rows of an order turns exactly those. */
  lemma {:induction false} TurnsOrder(rows: seq<Reservation>, rows': seq<Reservation>, order: nat,
                                      to: ReservationStatus)
    requires Turned(rows, rows', FindActive(rows, order), to)
    ensures forall r :: 0 <= r < |rows| ==> rows'[r] == ReleasedRow(rows[r], order, to)
  {
  }

  lemma ReturnsUnits(db: Db, db': Db, order: nat, to: ReservationStatus, product: int)
    requires to !in ACTIVE && |db'.reservations| == |db.reservations| && Rebalanced(db, db', product)
    requires forall r :: 0 <= r < |db.reservations| ==>
             db'.reservations[r] == ReleasedRow(db.reservations[r], order, to)
    ensures StockOf(db', product) == StockOf(db, product) + Sum(db.reservations, UnitsFor(order, product))
  {
    SumSplit(db.reservations, db'.reservations, Holding(product), Holding(product), UnitsFor(order, product));
  }

  /** Releasing an order turns exactly its active rows and returns exactly their units. */
  lemma {:induction false} ReleaseOrderExact(db: Db, order: nat, to: ReservationStatus)
    requires to !in ACTIVE
    ensures var db' := ReleaseOrder(db, order, to);
            && SameElsewhere(db, db')
            && (forall r :: 0 <= r < |db.reservations| ==>
                db'.reservations[r] == ReleasedRow(db.reservations[r], order, to))
            && (forall product :: product in db.products ==>
                  StockOf(db', product) == StockOf(db, product) + Sum(db.reservations, UnitsFor(order, product)))
    ensures |FindActive(db.reservations, order)| == |ActiveRows(db, order)|
  {
    var ids := FindActive(db.reservations, order);
    var db' := ReleaseOrder(db, order, to);
    ReleaseRowsExact(db, ids, to);
    TurnsOrder(db.reservations, db'.reservations, order, to);
    forall product | product in db.products
      ensures StockOf(db', product) == StockOf(db, product) + Sum(db.reservations, UnitsFor(order, product))
    {
      assert Rebalanced(db, db', product);
      ReturnsUnits(db, db', order, to, product);
    }
    IdsCount(ids, ActiveRows(db, order));
  }

  lemma {:induction false} IdsCount(ids: seq<nat>, all: set<nat>)
    requires forall i, j :: 0 <= i < j < |ids| ==> ids[i] != ids[j]
    requires forall r :: r in all <==> r in ids
    ensures |ids| == |all|
  {
    if ids != [] {
      var n := |ids| - 1;
      assert forall r :: r in ids <==> r in ids[..n] || r == ids[n];
      assert ids[n] !in ids[..n];
      IdsCount(ids[..n], all - {ids[n]});
    } else {
      assert all == {};
    }
  }

  lemma {:induction false} ReleaseLast(db: Db, ids: seq<nat>, to: ReservationStatus)
    requires ids != [] && to !in ACTIVE && ActiveIds(db.reservations, ids)
    ensures var before, id := ReleaseRows(db, ids[..|ids| - 1], to), ids[|ids| - 1];
            CanFlip(before, id, ACTIVE) && ReleaseRows(db, ids, to) == ReleaseRow(before, id, to, ACTIVE)
  {
    ReleaseRowsExact(db, ids[..|ids| - 1], to);
    TurnedOneMore(db, ReleaseRows(db, ids[..|ids| - 1], to), ids, to);
  }

  lemma FirstOf(ids: seq<nat>, i: nat)
    requires i < |ids|
    ensures ids[..i + 1][..i] == ids[..i] && ids[..i + 1][i] == ids[i]
  {
  }

  /** Every listed row is still active when its turn comes. */
  lemma {:induction false} NextRow(db: Db, order: nat, to: ReservationStatus, i: nat)
    requires to !in ACTIVE && i < |FindActive(db.reservations, order)|
    ensures var ids := FindActive(db.reservations, order);
            var before := ReleaseRows(db, ids[..i], to);
            && CanFlip(before, ids[i], ACTIVE)
            && ReleaseRows(db, ids[..i + 1], to) == ReleaseRow(before, ids[i], to, ACTIVE)
  {
    var ids := FindActive(db.reservations, order);
    FirstOf(ids, i);
    ReleaseLast(db, ids[..i + 1], to);
  }

  /** Every row of the order is inactive. */
  predicate HoldsNothing(db: Db, o: nat) {
    forall r :: 0 <= r < |db.reservations| && db.reservations[r].order == Some(o) ==> !Active(db.reservations[r])
  }

  method ReleaseOrderReservations(db: Collections, order: nat, to: ReservationStatus) returns (released: nat)
    requires to !in ACTIVE
    modifies db
    ensures db.Now() == ReleaseOrder(old(db.Now()), order, to)
    ensures released == |ActiveRows(old(db.Now()), order)|
  {
    var ids := FindActive(db.reservations, order);
    released := 0;
    ghost var before := db.Now();
    var i := 0;
    while i < |ids|
      invariant 0 <= i <= |ids| && released == i
      invariant db.Now() == ReleaseRows(before, ids[..i], to)
    {
      NextRow(before, order, to, i);
      var done := ReleaseReservation(db, ids[i], to, ACTIVE);
      if done {
        released := released + 1;
      }
      i := i + 1;
    }
    assert ids[..|ids|] == ids;
    ReleaseOrderExact(before, order, to);
  }
}
