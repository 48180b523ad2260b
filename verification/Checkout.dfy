/**
 * One checkout run on its own: what it buys when it succeeds, and what its undo list restores when any
 * call fails. Calls are numbered; `faults` are the numbers of the calls that throw.
 */
module Checkout {
  import opened Wrappers
  import opened Orders
  import opened Sums
  import opened Store
  import opened Database
  import Pricing

  // ---------------------------------------------------------------- the undo list

  function UndoAll(db: Db, undo: seq<Undo>): Db
    decreases |undo|
  {
    if undo == [] then db else UndoAll(UndoOne(db, undo[|undo| - 1]), undo[..|undo| - 1])
  }

  method Compensate(db: Collections, undo: seq<Undo>)
    modifies db
    ensures db.Now() == UndoAll(old(db.Now()), undo)
  {
    var i := |undo|;
    assert undo[..|undo|] == undo;
    while i > 0
      invariant 0 <= i <= |undo|
      invariant UndoAll(db.Now(), undo[..i]) == UndoAll(old(db.Now()), undo)
    {
      i := i - 1;
      assert undo[..i + 1][..i] == undo[..i];
      db.Undo(undo[i]);
    }
  }

  /** What the shop shows: stock, coupons, carts, active reservations and orders. */
  datatype Visible = Visible(
    products: map<int, Product>, coupons: map<int, Coupon>, carts: map<int, seq<Line>>,
    active: map<nat, Reservation>, orders: map<nat, Order>)

  function Show(db: Db): Visible {
    Visible(db.products, db.coupons, db.carts,
            map r | 0 <= r < |db.reservations| && Active(db.reservations[r]) :: db.reservations[r],
            map o | 0 <= o < |db.orders| && db.orders[o].Some? :: db.orders[o].value)
  }

  /** `db` is `before` but for dead rows at the end. */
  predicate Restored(before: Db, db: Db) {
    && db.products == before.products && db.coupons == before.coupons && db.carts == before.carts
    && |before.reservations| <= |db.reservations| && |before.orders| <= |db.orders|
    && (forall r :: 0 <= r < |before.reservations| ==> db.reservations[r] == before.reservations[r])
    && (forall r :: |before.reservations| <= r < |db.reservations| ==> !Active(db.reservations[r]))
    && (forall o :: 0 <= o < |before.orders| ==> db.orders[o] == before.orders[o])
    && (forall o :: |before.orders| <= o < |db.orders| ==> db.orders[o].None?)
  }

  lemma RestoredShowsTheSame(before: Db, db: Db)
    requires Restored(before, db)
    ensures Show(db) == Show(before)
  {
  }

  /** The list only names rows that exist. */
  predicate InRange(db: Db, undo: seq<Undo>) {
    forall i :: 0 <= i < |undo| ==>
      && (undo[i].DropReservation? ==> undo[i].id < |db.reservations|)
      && (undo[i].RemoveOrder? ==> undo[i].id < |db.orders|)
  }

  predicate Undoes(before: Db, db: Db, undo: seq<Undo>) {
    InRange(db, undo) && Restored(before, UndoAll(db, undo))
  }

  function WithRow(db: Db, row: Reservation): Db {
    db.(reservations := db.reservations + [row])
  }

  function WithGap(db: Db): Db {
    db.(orders := db.orders + [None])
  }

  lemma {:induction false} DeadRow(db: Db, undo: seq<Undo>, row: Reservation)
    requires InRange(db, undo)
    ensures UndoAll(WithRow(db, row), undo) == WithRow(UndoAll(db, undo), row)
    decreases |undo|
  {
    if undo != [] {
      var u := undo[|undo| - 1];
      if u.DropReservation? {
        assert (db.reservations + [row])[u.id := db.reservations[u.id].(status := Released)]
            == db.reservations[u.id := db.reservations[u.id].(status := Released)] + [row];
      }
      assert UndoOne(WithRow(db, row), u) == WithRow(UndoOne(db, u), row);
      DeadRow(UndoOne(db, u), undo[..|undo| - 1], row);
    }
  }

  lemma {:induction false} DeadOrder(db: Db, undo: seq<Undo>)
    requires InRange(db, undo)
    ensures UndoAll(WithGap(db), undo) == WithGap(UndoAll(db, undo))
    decreases |undo|
  {
    if undo != [] {
      var u := undo[|undo| - 1];
      if u.RemoveOrder? {
        assert (db.orders + [None])[u.id := None] == db.orders[u.id := None] + [None];
      }
      assert UndoOne(WithGap(db), u) == WithGap(UndoOne(db, u));
      DeadOrder(UndoOne(db, u), undo[..|undo| - 1]);
    }
  }

  lemma LinkOne(db: Db, u: Undo, ids: seq<nat>, o: nat)
    ensures UndoOne(LinkReservations(db, ids, o), u) == LinkReservations(UndoOne(db, u), ids, o)
  {
    assert UndoOne(LinkReservations(db, ids, o), u).reservations
           == LinkReservations(UndoOne(db, u), ids, o).reservations;
  }

  lemma {:induction false} LinkCommutes(db: Db, undo: seq<Undo>, ids: seq<nat>, o: nat)
    ensures UndoAll(LinkReservations(db, ids, o), undo) == LinkReservations(UndoAll(db, undo), ids, o)
    decreases |undo|
  {
    if undo != [] {
      LinkOne(db, undo[|undo| - 1], ids, o);
      LinkCommutes(UndoOne(db, undo[|undo| - 1]), undo[..|undo| - 1], ids, o);
    }
  }

  lemma RedemptionOne(db: Db, u: Undo, rs: seq<Redemption>)
    ensures UndoOne(db.(redemptions := rs), u) == UndoOne(db, u).(redemptions := rs)
  {
  }

  lemma {:induction false} RedemptionCommutes(db: Db, undo: seq<Undo>, rs: seq<Redemption>)
    ensures UndoAll(db.(redemptions := rs), undo) == UndoAll(db, undo).(redemptions := rs)
    decreases |undo|
  {
    if undo != [] {
      RedemptionOne(db, undo[|undo| - 1], rs);
      RedemptionCommutes(UndoOne(db, undo[|undo| - 1]), undo[..|undo| - 1], rs);
    }
  }

  lemma {:induction false} Push(db: Db, undo: seq<Undo>, u: Undo)
    ensures UndoAll(db, undo + [u]) == UndoAll(UndoOne(db, u), undo)
  {
    assert (undo + [u])[..|undo|] == undo;
  }

  // ---------------------------------------------------------------- each forward step keeps the list good

  lemma TakeUndoes(before: Db, db: Db, undo: seq<Undo>, product: int, quantity: Quantity)
    requires Undoes(before, db, undo) && product in db.products
    ensures Undoes(before, AddStock(db, product, -(quantity as int)), undo + [ReturnUnits(product, quantity)])
  {
    var db' := AddStock(db, product, -(quantity as int));
    Push(db', undo, ReturnUnits(product, quantity));
    assert UndoOne(db', ReturnUnits(product, quantity)).products == db.products;
  }

  lemma InsertUndoes(before: Db, db: Db, undo: seq<Undo>, row: Reservation)
    requires Undoes(before, db, undo)
    ensures Undoes(before, db.(reservations := db.reservations + [row]), undo + [DropReservation(|db.reservations|)])
  {
    var db' := db.(reservations := db.reservations + [row]);
    var id := |db.reservations|;
    Push(db', undo, DropReservation(id));
    assert (db.reservations + [row])[id := row.(status := Released)] == db.reservations + [row.(status := Released)];
    DeadRow(db, undo, row.(status := Released));
  }

  lemma ClaimUndoes(before: Db, db: Db, undo: seq<Undo>, coupon: int)
    requires Undoes(before, db, undo) && coupon in db.coupons && 0 <= db.coupons[coupon].usedCount
    ensures Undoes(before, AddUse(db, coupon, 1), undo + [ReturnUse(coupon)])
  {
    var db' := AddUse(db, coupon, 1);
    Push(db', undo, ReturnUse(coupon));
    assert UndoOne(db', ReturnUse(coupon)).coupons == db.coupons;
  }

  lemma CreateUndoes(before: Db, db: Db, undo: seq<Undo>, o: Order)
    requires Undoes(before, db, undo)
    ensures Undoes(before, InsertOrder(db, o), undo + [RemoveOrder(|db.orders|)])
  {
    var db' := InsertOrder(db, o);
    var id := |db.orders|;
    Push(db', undo, RemoveOrder(id));
    assert (db.orders + [Some(o)])[id := None] == db.orders + [None];
    DeadOrder(db, undo);
  }

  lemma LinkUndoes(before: Db, db: Db, undo: seq<Undo>, ids: seq<nat>, o: nat)
    requires Undoes(before, db, undo) && forall i :: 0 <= i < |ids| ==> |before.reservations| <= ids[i]
    ensures Undoes(before, LinkReservations(db, ids, o), undo)
  {
    LinkCommutes(db, undo, ids, o);
  }

  lemma RedeemUndoes(before: Db, db: Db, undo: seq<Undo>, rs: seq<Redemption>)
    requires Undoes(before, db, undo)
    ensures Undoes(before, db.(redemptions := rs), undo)
  {
    RedemptionCommutes(db, undo, rs);
  }

  // ---------------------------------------------------------------- the calls, which may throw

  /** Numbers the calls of one request and knows which of them throw. */
  class Connection {
    const faults: set<nat>
    var calls: nat

    constructor (faults: set<nat>)
      ensures this.faults == faults
    {
      this.faults, calls := faults, 0;
    }

    method Call() returns (ok: bool)
      modifies this
      ensures ok <==> old(calls) !in faults
      ensures calls == old(calls) + 1
    {
      ok := calls !in faults;
      calls := calls + 1;
    }
  }

  // ---------------------------------------------------------------- what can be bought

  /** What a line costs, in cents, at the price of the moment. */
  function LinePrice(db: Db): Line -> int {
    (l: Line) => if l.product in db.products then Pricing.ToCents(db.products[l.product].price) * l.quantity else 0
  }

  /** Every line's product is offered, and the shelf has the units of all its lines together. */
  predicate OnSale(db: Db, lines: seq<Line>) {
    forall i :: 0 <= i < |lines| ==>
      && lines[i].product in db.products && db.products[lines[i].product].available
      && Sum(lines, LineUnits(lines[i].product)) <= db.products[lines[i].product].stock
  }

  /** The user may use the coupon on a cart of this price now. */
  predicate Honoured(db: Db, code: int, user: int, price: int, now: int) {
    code in db.coupons &&
    var c := db.coupons[code];
    && c.active
    && (c.startsAt.Some? ==> c.startsAt.value <= now)
    && (c.expiresAt.Some? ==> now <= c.expiresAt.value)
    && Pricing.ToCents(c.terms.minOrderTotal) <= price
    && c.usedCount < c.usageLimit
    && |RedemptionsOf(db, code, user)| < c.perUserLimit
  }

  /** Which of the six conditions is the first that the coupon misses. */
  predicate RefusedFor(e: Refusal, db: Db, code: int, user: int, price: int, now: int) {
    if code !in db.coupons || !db.coupons[code].active then e == InvalidCoupon
    else
      var c := db.coupons[code];
      var begun := c.startsAt.Some? ==> c.startsAt.value <= now;
      var ended := c.expiresAt.Some? && c.expiresAt.value < now;
      var enough := Pricing.ToCents(c.terms.minOrderTotal) <= price;
      match e
      case CouponNotStarted => !begun
      case CouponExpired => begun && ended
      case BelowMinimum => begun && !ended && !enough
      case UsageLimitReached => begun && !ended && enough && c.usageLimit <= c.usedCount
      case AlreadyUsed =>
        begun && !ended && enough && c.usedCount < c.usageLimit && c.perUserLimit <= |RedemptionsOf(db, code, user)|
      case _ => false
  }

  lemma CouponChecked(db: Db, code: int, user: int, price: int, now: int)
    ensures var checked := ValidateCoupon(db, Some(code), user, price, now);
            if checked.Ok? then Honoured(db, code, user, price, now) && CanClaim(db, code)
            else RefusedFor(checked.error, db, code, user, price, now)
  {
    RedemptionsCounted(db, code, user);
  }

  lemma PricedAsCart(db: Db, lines: seq<Line>, items: seq<Item>)
    requires Priced(db, lines, items)
    ensures Subtotal(items) == Sum(lines, LinePrice(db))
  {
    SumSame(items, lines, LineCents(), LinePrice(db));
  }

  lemma {:induction false} UnitsOfSome(lines: seq<Line>, product: int, i: nat)
    requires i <= |lines|
    ensures Sum(lines[..i], LineUnits(product)) <= Sum(lines, LineUnits(product))
  {
    if i == |lines| {
      assert lines[..i] == lines;
    } else {
      var n := |lines| - 1;
      assert lines[..n][..i] == lines[..i];
      UnitsOfSome(lines[..n], product, i);
    }
  }

  lemma SomeOnSale(db: Db, lines: seq<Line>, i: nat)
    requires OnSale(db, lines) && i <= |lines|
    ensures OnSale(db, lines[..i])
  {
    forall j | 0 <= j < i
      ensures Sum(lines[..i], LineUnits(lines[j].product)) <= Sum(lines, LineUnits(lines[j].product))
    {
      UnitsOfSome(lines, lines[j].product, i);
    }
  }

  /** With some lines taken, the shelf grants the next one exactly if all of them together were on sale. */
  lemma OneMoreOnSale(before: Db, db: Db, lines: seq<Line>, line: Line)
    requires TookLines(before, db, lines) && OnSale(before, lines)
    ensures CanTake(db, line.product, line.quantity) <==> OnSale(before, lines + [line])
  {
    var more := lines + [line];
    assert more[|lines|] == line;
    forall i | 0 <= i < |lines|
      ensures more[i] == lines[i]
      ensures Sum(more, LineUnits(lines[i].product))
              == Sum(lines, LineUnits(lines[i].product)) + LineUnits(lines[i].product)(line)
    {
      SumAppend(lines, line, LineUnits(lines[i].product));
    }
    SumAppend(lines, line, LineUnits(line.product));
  }

  // ---------------------------------------------------------------- reserving the cart

  function RowsFor(request: nat, user: int, deadline: int, lines: seq<Line>): seq<Reservation> {
    seq(|lines|, i requires 0 <= i < |lines| =>
      Reservation(request, user, lines[i].product, lines[i].quantity, Reserved, None, deadline))
  }

  function LineUnits(product: int): Line -> int {
    (l: Line) => if l.product == product then l.quantity else 0
  }

  /** Only stock has changed in the products, by the lines taken. */
  predicate TookLines(before: Db, db: Db, lines: seq<Line>) {
    && db.products.Keys == before.products.Keys
    && forall p :: p in before.products ==>
         db.products[p] == before.products[p].(stock := before.products[p].stock - Sum(lines, LineUnits(p)))
  }

  predicate Priced(before: Db, lines: seq<Line>, items: seq<Item>) {
    |items| == |lines| && forall i :: 0 <= i < |lines| ==>
      && lines[i].product in before.products
      && items[i] == Item(lines[i].product, lines[i].quantity, Pricing.ToCents(before.products[lines[i].product].price))
  }

  function Ids(from: nat, n: nat): seq<nat> {
    seq(n, i requires 0 <= i < n => from + i)
  }

  predicate ReservedLines(before: Db, db: Db, request: nat, user: int, deadline: int, lines: seq<Line>) {
    && TookLines(before, db, lines)
    && db == before.(products := db.products,
                     reservations := before.reservations + RowsFor(request, user, deadline, lines))
  }

  lemma TookOne(before: Db, db: Db, lines: seq<Line>, line: Line)
    requires TookLines(before, db, lines) && line.product in before.products
    ensures TookLines(before, AddStock(db, line.product, -(line.quantity as int)), lines + [line])
  {
    var db' := AddStock(db, line.product, -(line.quantity as int));
    forall p | p in before.products
      ensures db'.products[p] == before.products[p].(stock := before.products[p].stock
                                                     - Sum(lines + [line], LineUnits(p)))
    {
      SumAppend(lines, line, LineUnits(p));
    }
  }

  lemma OneMoreLine(request: nat, user: int, deadline: int, lines: seq<Line>, line: Line)
    ensures RowsFor(request, user, deadline, lines + [line])
            == RowsFor(request, user, deadline, lines)
               + [Reservation(request, user, line.product, line.quantity, Reserved, None, deadline)]
  {
  }

  function WithLine(db: Db, line: Line, row: Reservation): Db {
    var taken := AddStock(db, line.product, -(line.quantity as int));
    taken.(reservations := taken.reservations + [row])
  }

  lemma LineReserved(before: Db, db: Db, request: nat, user: int, deadline: int, lines: seq<Line>, line: Line)
    requires ReservedLines(before, db, request, user, deadline, lines) && line.product in before.products
    ensures ReservedLines(before, WithLine(db, line,
                                           Reservation(request, user, line.product, line.quantity, Reserved, None,
                                                       deadline)),
                          request, user, deadline, lines + [line])
  {
    TookOne(before, db, lines, line);
    OneMoreLine(request, user, deadline, lines, line);
    assert before.reservations + RowsFor(request, user, deadline, lines + [line])
        == before.reservations + RowsFor(request, user, deadline, lines)
           + [Reservation(request, user, line.product, line.quantity, Reserved, None, deadline)];
  }

  /** One line: take the units, then write the reservation, each with its undo entry. */
  method ReserveLine(db: Collections, link: Connection, request: nat, user: int, deadline: int, line: Line,
                     undo: seq<Undo>,
                     ghost before: Db)
    returns (failed: Option<Refusal>, undo': seq<Undo>, id: nat, unitCents: int)
    requires Undoes(before, db.Now(), undo)
    modifies db, link
    ensures Undoes(before, db.Now(), undo')
    ensures db.redemptions == old(db.redemptions) && db.coupons == old(db.coupons)
    ensures failed.Some? ==> failed.value in {OutOfStock, DatabaseError}
    ensures failed == Some(OutOfStock) ==> !CanTake(old(db.Now()), line.product, line.quantity)
    ensures failed == Some(DatabaseError) ==> link.faults != {}
    ensures failed.None? ==>
              && CanTake(old(db.Now()), line.product, line.quantity)
              && id == |old(db.reservations)| && unitCents == Pricing.ToCents(old(db.products)[line.product].price)
              && db.Now() == WithLine(old(db.Now()), line,
                                      Reservation(request, user, line.product, line.quantity, Reserved, None, deadline))
  {
    undo', id, unitCents := undo, 0, 0;
    ghost var start := db.Now();
    var ok := link.Call();
    if !ok { return Some(DatabaseError), undo', id, unitCents; }
    var product := db.TakeUnits(line.product, line.quantity);
    if product.None? { return Some(OutOfStock), undo', id, unitCents; }
    TakeUndoes(before, start, undo', line.product, line.quantity);
    undo' := undo' + [ReturnUnits(line.product, line.quantity)];

    ok := link.Call();
    if !ok { return Some(DatabaseError), undo', id, unitCents; }
    ghost var taken := db.Now();
    var row := Reservation(request, user, line.product, line.quantity, Reserved, None, deadline);
    id := db.InsertReservation(row);
    InsertUndoes(before, taken, undo', row);
    undo' := undo' + [DropReservation(id)];
    unitCents := Pricing.ToCents(product.value.price);
    failed := None;
  }

  lemma LinePriced(before: Db, db: Db, request: nat, user: int, deadline: int, lines: seq<Line>, line: Line,
                   items: seq<Item>)
    requires ReservedLines(before, db, request, user, deadline, lines) && Priced(before, lines, items)
    requires line.product in db.products
    ensures var item := Item(line.product, line.quantity, Pricing.ToCents(db.products[line.product].price));
            && Priced(before, lines + [line], items + [item])
            && Subtotal(items + [item]) == Subtotal(items) + item.unitCents * item.quantity
  {
    SumAppend(items, Item(line.product, line.quantity, Pricing.ToCents(db.products[line.product].price)), LineCents());
  }

  /** How far the loop over the cart has come. */
  predicate Reserving(before: Db, db: Db, request: nat, user: int, deadline: int, lines: seq<Line>, items: seq<Item>,
                      held: seq<nat>, subtotal: int) {
    && ReservedLines(before, db, request, user, deadline, lines) && Priced(before, lines, items)
    && OnSale(before, lines) && subtotal == Subtotal(items) && held == Ids(|before.reservations|, |lines|)
  }

  lemma StartsReserving(before: Db, request: nat, user: int, deadline: int)
    ensures Reserving(before, before, request, user, deadline, [], [], [], 0)
  {
    assert before.reservations + RowsFor(request, user, deadline, []) == before.reservations;
  }

  lemma ReservesOneMore(before: Db, db: Db, request: nat, user: int, deadline: int, lines: seq<Line>, line: Line,
                        items: seq<Item>, held: seq<nat>, subtotal: int)
    requires Reserving(before, db, request, user, deadline, lines, items, held, subtotal)
    requires CanTake(db, line.product, line.quantity)
    ensures var row := Reservation(request, user, line.product, line.quantity, Reserved, None, deadline);
            var item := Item(line.product, line.quantity, Pricing.ToCents(db.products[line.product].price));
            Reserving(before, WithLine(db, line, row), request, user, deadline, lines + [line], items + [item],
                      held + [|db.reservations|], subtotal + item.unitCents * line.quantity)
  {
    LineReserved(before, db, request, user, deadline, lines, line);
    LinePriced(before, db, request, user, deadline, lines, line, items);
    OneMoreOnSale(before, db, lines, line);
    assert |db.reservations| == |before.reservations| + |lines|;
  }

  lemma FirstLines(lines: seq<Line>, i: nat)
    requires i < |lines|
    ensures lines[..i + 1] == lines[..i] + [lines[i]]
  {
  }

  lemma CannotTake(before: Db, db: Db, lines: seq<Line>, i: nat)
    requires i < |lines| && TookLines(before, db, lines[..i]) && OnSale(before, lines[..i])
    requires !CanTake(db, lines[i].product, lines[i].quantity)
    ensures !OnSale(before, lines)
  {
    FirstLines(lines, i);
    OneMoreOnSale(before, db, lines[..i], lines[i]);
    if OnSale(before, lines) { SomeOnSale(before, lines, i + 1); }
  }

  /** The loop over the cart. On failure it leaves the undo list of the calls that went through. */
  method ReserveCart(db: Collections, link: Connection, request: nat, user: int, deadline: int, lines: seq<Line>)
    returns (failed: Option<Refusal>, undo: seq<Undo>, items: seq<Item>, held: seq<nat>, subtotal: int)
    modifies db, link
    ensures Undoes(old(db.Now()), db.Now(), undo)
    ensures old(db.Now()).redemptions == db.redemptions && old(db.coupons) == db.coupons
    ensures failed.None? ==>
              && ReservedLines(old(db.Now()), db.Now(), request, user, deadline, lines)
              && Priced(old(db.Now()), lines, items) && subtotal == Subtotal(items)
              && held == Ids(|old(db.reservations)|, |lines|)
    ensures failed.Some? ==> failed.value in {OutOfStock, DatabaseError}
    ensures failed == Some(DatabaseError) ==> link.faults != {}
    ensures failed != Some(DatabaseError) ==> (failed.None? <==> OnSale(old(db.Now()), lines))
  {
    ghost var before := db.Now();
    undo, items, held, subtotal := [], [], [], 0;
    StartsReserving(before, request, user, deadline);
    var i := 0;
    while i < |lines|
      invariant 0 <= i <= |lines|
      invariant Undoes(before, db.Now(), undo)
      invariant Reserving(before, db.Now(), request, user, deadline, lines[..i], items, held, subtotal)
    {
      ghost var start := db.Now();
      var id, unitCents;
      failed, undo, id, unitCents := ReserveLine(db, link, request, user, deadline, lines[i], undo, before);
      if failed.Some? {
        if failed == Some(OutOfStock) { CannotTake(before, start, lines, i); }
        return;
      }
      var item := Item(lines[i].product, lines[i].quantity, unitCents);
      assert Reserving(before, db.Now(), request, user, deadline, lines[..i + 1], items + [item], held + [id],
                       subtotal + unitCents * lines[i].quantity) by {
        FirstLines(lines, i);
        ReservesOneMore(before, start, request, user, deadline, lines[..i], lines[i], items, held, subtotal);
      }
      held := held + [id];
      subtotal := subtotal + unitCents * lines[i].quantity;
      items := items + [item];
      i := i + 1;
    }
    assert lines[..|lines|] == lines;
    failed := None;
  }

  // ---------------------------------------------------------------- the whole checkout

  function LinkedTo(rows: seq<Reservation>, order: nat): seq<Reservation> {
    seq(|rows|, i requires 0 <= i < |rows| => rows[i].(order := Some(order)))
  }

  lemma LinkNewRows(db: Db, earlier: seq<Reservation>, rows: seq<Reservation>, order: nat)
    requires db.reservations == earlier + rows
    ensures LinkReservations(db, Ids(|earlier|, |rows|), order).reservations == earlier + LinkedTo(rows, order)
  {
    var ids := Ids(|earlier|, |rows|);
    forall i | 0 <= i < |db.reservations|
      ensures i in ids <==> |earlier| <= i
    {
      if |earlier| <= i { assert ids[i - |earlier|] == i; }
    }
  }

  /** Everything a successful checkout of `lines` changes, and nothing else. */
  predicate Bought(before: Db, db: Db, request: nat, user: int, code: Option<int>, now: int, lines: seq<Line>,
                   order: Order) {
    && lines == CartOf(before, user) != []
    && Priced(before, lines, order.items)
    && order == NewOrder(request, user, order.items, code, order.totalCents, now)
    && (match ValidateCoupon(before, code, user, Subtotal(order.items), now)
        case Ok(discount) => order.totalCents == Pricing.Max(Subtotal(order.items) - discount, 0)
        case Err(_) => false)
    && (code.Some? ==> CanClaim(before, code.value))
    && TookLines(before, db, lines)
    && db.reservations == before.reservations
       + LinkedTo(RowsFor(request, user, now + RESERVATION_WINDOW, lines), |before.orders|)
    && db.orders == before.orders + [Some(order)]
    && db.coupons == (if code.Some? then AddUse(before, code.value, 1).coupons else before.coupons)
    && db.redemptions == before.redemptions
       + (if code.Some? then [Redemption(code.value, user, |before.orders|)] else [])
    && db.carts == before.carts[user := []] && db.payments == before.payments && db.events == before.events
  }

  predicate CountersValid(db: Db) {
    forall c :: c in db.coupons ==> 0 <= db.coupons[c].usedCount
  }

  function Claimed(db: Db, code: Option<int>): Db {
    if code.Some? then AddUse(db, code.value, 1) else db
  }

  /** The atomic check-and-count of the coupon. */
  method ClaimCoupon(db: Collections, link: Connection, code: Option<int>, undo: seq<Undo>, ghost before: Db)
    returns (failed: Option<Refusal>, undo': seq<Undo>)
    requires Undoes(before, db.Now(), undo) && CountersValid(db.Now())
    modifies db, link
    ensures Undoes(before, db.Now(), undo') && db.redemptions == old(db.redemptions)
    ensures failed.Some? ==>
              || (failed == Some(DatabaseError) && link.faults != {})
              || (failed == Some(UsageLimitReached) && code.Some? && !CanClaim(old(db.Now()), code.value))
    ensures failed.None? ==>
              db.Now() == Claimed(old(db.Now()), code) && (code.Some? ==> CanClaim(old(db.Now()), code.value))
  {
    undo', failed := undo, None;
    if code.Some? {
      ghost var start := db.Now();
      var ok := link.Call();
      if !ok { return Some(DatabaseError), undo'; }
      var claimed := db.ClaimUse(code.value);
      if !claimed { return Some(UsageLimitReached), undo'; }
      ClaimUndoes(before, start, undo', code.value);
      undo' := undo' + [ReturnUse(code.value)];
    }
  }

  function WithOrder(db: Db, order: Order, held: seq<nat>): Db {
    var placed := LinkReservations(InsertOrder(db, order), held, |db.orders|);
    var redeemed :=
      if order.coupon.Some? then placed.redemptions + [Redemption(order.coupon.value, order.user, |db.orders|)]
      else placed.redemptions;
    placed.(redemptions := redeemed, carts := placed.carts[order.user := []])
  }

  /** The order, the links, the redemption and the cart. */
  method WriteRows(db: Collections, link: Connection, order: Order, held: seq<nat>, undo: seq<Undo>, ghost before: Db)
    returns (failed: Option<Refusal>, undo': seq<Undo>)
    requires Undoes(before, db.Now(), undo)
    requires forall i :: 0 <= i < |held| ==> |before.reservations| <= held[i]
    modifies db, link
    ensures failed.Some? ==> Undoes(before, db.Now(), undo') && old(db.redemptions) <= db.redemptions
                             && failed == Some(DatabaseError) && link.faults != {}
    ensures failed.None? ==> db.Now() == WithOrder(old(db.Now()), order, held)
  {
    undo' := undo;
    ghost var start := db.Now();
    var ok := link.Call();
    if !ok { return Some(DatabaseError), undo'; }
    var id := db.CreateOrder(order);
    CreateUndoes(before, start, undo', order);
    undo' := undo' + [RemoveOrder(id)];

    ok := link.Call();
    if !ok { return Some(DatabaseError), undo'; }
    ghost var placed := db.Now();
    db.LinkOrderReservations(held, id);
    LinkUndoes(before, placed, undo', held, id);

    if order.coupon.Some? {
      ok := link.Call();
      if !ok { return Some(DatabaseError), undo'; }
      ghost var linked := db.Now();
      db.InsertRedemption(Redemption(order.coupon.value, order.user, id));
      RedeemUndoes(before, linked, undo', db.redemptions);
    }

    ok := link.Call();
    if !ok { return Some(DatabaseError), undo'; }
    db.SaveEmptyCart(order.user);
    failed := None;
  }

  lemma WithOrderFields(db: Db, order: Order, held: seq<nat>)
    ensures var w := WithOrder(db, order, held);
            && w.products == db.products && w.coupons == db.coupons && w.payments == db.payments
            && w.events == db.events
            && w.orders == db.orders + [Some(order)] && w.carts == db.carts[order.user := []]
            && w.reservations == LinkReservations(InsertOrder(db, order), held, |db.orders|).reservations
            && w.redemptions == db.redemptions
                                + (if order.coupon.Some? then [Redemption(order.coupon.value, order.user, |db.orders|)]
                                   else [])
  {
    assert db.redemptions + [] == db.redemptions;
  }

  lemma ClaimedFields(before: Db, db: Db, code: Option<int>)
    requires db == before.(products := db.products, reservations := db.reservations)
    ensures var c := Claimed(db, code);
            && c == before.(products := db.products, reservations := db.reservations, coupons := c.coupons)
            && c.coupons == (if code.Some? then AddUse(before, code.value, 1).coupons else before.coupons)
  {
  }

  lemma WithOrderIsBought(before: Db, db: Db, request: nat, user: int, code: Option<int>, now: int, lines: seq<Line>,
                          order: Order)
    requires ReservedLines(before, db, request, user, now + RESERVATION_WINDOW, lines)
    requires lines == CartOf(before, user) != []
    requires Priced(before, lines, order.items)
    requires order == NewOrder(request, user, order.items, code, order.totalCents, now)
    requires ValidateCoupon(before, code, user, Subtotal(order.items), now).Ok?
    requires order.totalCents
             == Pricing.Max(Subtotal(order.items)
                            - ValidateCoupon(before, code, user, Subtotal(order.items), now).value, 0)
    requires code.Some? ==> CanClaim(before, code.value)
    ensures Bought(before, WithOrder(Claimed(db, code), order, Ids(|before.reservations|, |lines|)), request, user,
                   code, now, lines, order)
  {
    var claimed, held := Claimed(db, code), Ids(|before.reservations|, |lines|);
    ClaimedFields(before, db, code);
    WithOrderFields(claimed, order, held);
    LinkNewRows(InsertOrder(claimed, order), before.reservations,
                RowsFor(request, user, now + RESERVATION_WINDOW, lines), |before.orders|);
  }

  lemma SameCoupons(before: Db, db: Db, code: int, user: int, price: int, now: int)
    requires db.coupons == before.coupons && db.redemptions == before.redemptions
    ensures Honoured(db, code, user, price, now) <==> Honoured(before, code, user, price, now)
    ensures ValidateCoupon(db, Some(code), user, price, now) == ValidateCoupon(before, Some(code), user, price, now)
  {
  }

  lemma SameRefusal(e: Refusal, before: Db, db: Db, code: int, user: int, price: int, now: int)
    requires db.coupons == before.coupons && db.redemptions == before.redemptions
    ensures RefusedFor(e, db, code, user, price, now) <==> RefusedFor(e, before, code, user, price, now)
  {
  }

  /** The look at the coupon; without one there is nothing to look at. */
  method CheckCoupon(db: Collections, link: Connection, code: Option<int>, user: int, subtotal: int, now: int,
                     ghost before: Db)
    returns (r: Result<int, Refusal>)
    requires db.coupons == before.coupons && db.redemptions == before.redemptions
    modifies link
    ensures r.Ok? ==> r == ValidateCoupon(before, code, user, subtotal, now)
    ensures r.Ok? && code.Some? ==> Honoured(before, code.value, user, subtotal, now) && CanClaim(before, code.value)
    ensures r.Err? ==> || (r.error == DatabaseError && link.faults != {})
                       || (code.Some? && RefusedFor(r.error, before, code.value, user, subtotal, now))
  {
    var ok := link.Call();
    if !ok { return Err(DatabaseError); }
    r := ValidateCoupon(db.Now(), code, user, subtotal, now);
    if code.Some? {
      CouponChecked(db.Now(), code.value, user, subtotal, now);
      SameCoupons(before, db.Now(), code.value, user, subtotal, now);
      if r.Err? { SameRefusal(r.error, before, db.Now(), code.value, user, subtotal, now); }
    }
  }

  /** Validation, coupon, order and the rest, after the cart is reserved. */
  method WriteOrder(db: Collections, link: Connection, request: nat, user: int, code: Option<int>, now: int,
                    items: seq<Item>, held: seq<nat>, subtotal: int, undo: seq<Undo>, ghost before: Db,
                      ghost lines: seq<Line>)
    returns (r: Result<nat, Refusal>, undo': seq<Undo>)
    requires Undoes(before, db.Now(), undo) && CountersValid(before) && lines == CartOf(before, user) != []
    requires ReservedLines(before, db.Now(), request, user, now + RESERVATION_WINDOW, lines)
    requires Priced(before, lines, items) && subtotal == Subtotal(items) && held == Ids(|before.reservations|, |lines|)
    modifies db, link
    ensures r.Err? ==> Undoes(before, db.Now(), undo')
    ensures r.Err? ==> || (r.error == DatabaseError && link.faults != {})
                       || (code.Some? && RefusedFor(r.error, before, code.value, user, subtotal, now))
    ensures r.Ok? && code.Some? ==> Honoured(before, code.value, user, subtotal, now)
    ensures r.Ok? ==> r.value == |before.orders| < |db.orders| && db.orders[r.value].Some?
                      && Bought(before, db.Now(), request, user, code, now, lines, db.orders[r.value].value)
  {
    undo' := undo;
    ghost var start := db.Now();
    var valid := CheckCoupon(db, link, code, user, subtotal, now, before);
    if valid.Err? { return Err(valid.error), undo'; }
    var order := NewOrder(request, user, items, code, Pricing.Max(subtotal - valid.value, 0), now);

    var failed;
    failed, undo' := ClaimCoupon(db, link, code, undo', before);
    if failed.Some? { return Err(failed.value), undo'; }
    failed, undo' := WriteRows(db, link, order, held, undo', before);
    if failed.Some? { return Err(failed.value), undo'; }
    WithOrderIsBought(before, start, request, user, code, now, lines, order);
    r := Ok(|db.orders| - 1);
  }

  /** The user's cart, as it is, can be bought with this coupon now. */
  predicate MayBuy(db: Db, user: int, code: Option<int>, now: int) {
    var lines := CartOf(db, user);
    && lines != [] && OnSale(db, lines)
    && (code.Some? ==> Honoured(db, code.value, user, Sum(lines, LinePrice(db)), now))
  }

  /** What a refusal says about the shop. */
  predicate RefusedWith(e: Refusal, db: Db, user: int, code: Option<int>, now: int) {
    var lines := CartOf(db, user);
    match e
    case EmptyCart => lines == []
    case OutOfStock => lines != [] && !OnSale(db, lines)
    case DatabaseError => false
    case _ =>
      && lines != [] && OnSale(db, lines) && code.Some?
      && RefusedFor(e, db, code.value, user, Sum(lines, LinePrice(db)), now)
  }

  lemma RefusedCannotBuy(e: Refusal, db: Db, user: int, code: Option<int>, now: int)
    requires RefusedWith(e, db, user, code, now)
    ensures !MayBuy(db, user, code, now)
  {
  }

  /** The cart's rows are the last ones, reserved for the new order until this deadline. */
  predicate HeldUntil(before: Db, db: Db, request: nat, user: int, deadline: int) {
    var lines := CartOf(before, user);
    && |db.reservations| == |before.reservations| + |lines|
    && forall i :: 0 <= i < |lines| ==>
         db.reservations[|before.reservations| + i]
         == Reservation(request, user, lines[i].product, lines[i].quantity, Reserved, Some(|before.orders|), deadline)
  }

  /** The order waits for its payment, and nothing has happened to it. */
  predicate JustPlaced(o: Order, request: nat, user: int, code: Option<int>, now: int) {
    && o.checkout == request && o.user == user && o.coupon == code
    && o.status == Pending && o.payment == Unpaid && o.refund == NoRefund && o.history == []
    && o.refundRequestedAt == None && o.deliveredAt == None && o.updatedAt == now
  }

  lemma BoughtIsHeld(before: Db, db: Db, request: nat, user: int, code: Option<int>, now: int, lines: seq<Line>,
                     order: Order)
    requires Bought(before, db, request, user, code, now, lines, order)
    ensures HeldUntil(before, db, request, user, now + 900000) && JustPlaced(order, request, user, code, now)
  {
  }

  /** The body of checkout, with the undo list of the calls that went through. */
  method Execute(db: Collections, link: Connection, request: nat, user: int, code: Option<int>, now: int)
    returns (r: Result<nat, Refusal>, undo: seq<Undo>)
    requires CountersValid(db.Now())
    modifies db, link
    ensures r.Err? ==> Undoes(old(db.Now()), db.Now(), undo)
    ensures r.Err? ==> if r.error == DatabaseError then link.faults != {}
                       else RefusedWith(r.error, old(db.Now()), user, code, now)
    ensures r.Ok? ==> r.value == |old(db.orders)| < |db.orders| && db.orders[r.value].Some?
                      && Bought(old(db.Now()), db.Now(), request, user, code, now, CartOf(old(db.Now()), user),
                                db.orders[r.value].value)
                      && MayBuy(old(db.Now()), user, code, now)
  {
    var before := db.Now();
    undo := [];
    var ok := link.Call();
    if !ok { return Err(DatabaseError), undo; }
    var lines := CartOf(db.Now(), user);
    if lines == [] { return Err(EmptyCart), undo; }

    var failed, items, held, subtotal;
    failed, undo, items, held, subtotal := ReserveCart(db, link, request, user, now + RESERVATION_WINDOW, lines);
    if failed.Some? { return Err(failed.value), undo; }
    PricedAsCart(before, lines, items);
    r, undo := WriteOrder(db, link, request, user, code, now, items, held, subtotal, undo, before, lines);
  }

  /**
   * Checkout on its own, for a cart of any length and a failure at any call. With a transaction a
   * failure is rolled back; without one the undo list runs. Either way the shop looks as before. Only
   * a redemption row, which no entry undoes, may stay behind without a transaction. Unless a call throws,
   * it succeeds exactly when the cart may be bought, and a refusal names what stood in the way; the
   * units are held for fifteen minutes.
   */
  method ExecuteCheckout(db: Collections, link: Connection, request: nat, user: int, code: Option<int>, now: int,
                         session: bool)
    returns (r: Result<nat, Refusal>)
    requires CountersValid(db.Now())
    modifies db, link
    ensures r.Err? ==> Show(db.Now()) == Show(old(db.Now()))
    ensures r.Err? && session ==> db.Now() == old(db.Now())
    ensures r.Err? && !session ==> Restored(old(db.Now()), db.Now())
    ensures r.Err? && r.error == DatabaseError ==> link.faults != {}
    ensures r.Err? && r.error != DatabaseError ==> RefusedWith(r.error, old(db.Now()), user, code, now)
    ensures r.Ok? ==> MayBuy(old(db.Now()), user, code, now)
    ensures link.faults == {} ==> (r.Ok? <==> MayBuy(old(db.Now()), user, code, now))
    ensures r.Ok? ==> r.value == |old(db.orders)| < |db.orders| && db.orders[r.value].Some?
                      && Bought(old(db.Now()), db.Now(), request, user, code, now, CartOf(old(db.Now()), user),
                                db.orders[r.value].value)
                      && HeldUntil(old(db.Now()), db.Now(), request, user, now + 900000)
                      && JustPlaced(db.orders[r.value].value, request, user, code, now)
  {
    var before := db.Now();
    var undo;
    r, undo := Execute(db, link, request, user, code, now);
    if r.Err? {
      if session {
        Rollback(db, before);
      } else {
        Compensate(db, undo);
      }
      RestoredShowsTheSame(before, db.Now());
      if r.error != DatabaseError { RefusedCannotBuy(r.error, before, user, code, now); }
    } else {
      BoughtIsHeld(before, db.Now(), request, user, code, now, CartOf(before, user), db.orders[r.value].value);
    }
  }

  /** A transaction that aborts leaves the database as it found it. */
  method Rollback(db: Collections, before: Db)
    modifies db
    ensures db.Now() == before
  {
    db.products, db.reservations, db.orders := before.products, before.reservations, before.orders;
    db.coupons, db.redemptions, db.payments := before.coupons, before.redemptions, before.payments;
    db.events, db.carts := before.events, before.carts;
  }

  // ---------------------------------------------------------------- what the customer pays

  lemma {:induction false} SubtotalNonNegative(before: Db, lines: seq<Line>, items: seq<Item>)
    requires Priced(before, lines, items)
    requires forall p :: p in before.products ==> 0.0 <= before.products[p].price
    ensures 0 <= Subtotal(items)
  {
    forall i | 0 <= i < |items|
      ensures LineCents()(items[i]) >= 0
    {
      var price := before.products[lines[i].product].price;
      Pricing.ToCentsFaithful(0.0, price);
      assert Pricing.ToCents(0.0) == 0;
      assert items[i].unitCents >= 0;
    }
    SumNonNegative(items, LineCents());
  }

  /** The order total is the price of the cart less the coupon's discount, and neither is negative. */
  lemma PaysSumLessDiscount(before: Db, db: Db, request: nat, user: int, code: Option<int>, now: int, lines: seq<Line>,
                            order: Order)
    requires Bought(before, db, request, user, code, now, lines, order)
    requires forall p :: p in before.products ==> 0.0 <= before.products[p].price
    ensures var terms := if code.Some? then Some(before.coupons[code.value].terms) else None;
            var price := Sum(lines, LinePrice(before));
            && order.totalCents + Pricing.DiscountCents(terms, price) == price
            && 0 <= order.totalCents <= price
  {
    SubtotalNonNegative(before, lines, order.items);
    PricedAsCart(before, lines, order.items);
    var terms := if code.Some? then Some(before.coupons[code.value].terms) else None;
    Pricing.DiscountSplitsSubtotal(terms, Subtotal(order.items));
  }
}
