/**
 * Orders and the stock they hold, over every interleaving.
 *
 * An order that still stands (not cancelled, payment not failed or refunded) holds exactly its lines;
 * one that must give its stock back holds nothing once the request that turned it is done. The only
 * orders exempt are those whose checkout was disturbed while it was still running.
 */
module Standing {
  import opened Wrappers
  import opened Orders
  import opened Sums
  import opened Store
  import opened Protocol
  import opened Conservation
  import opened CouponLimits
  import opened RefundEvents

  predicate MustRelease(o: Order) {
    o.status == Cancelled || o.payment in {Failed, Refunded}
  }

  predicate Ended(s: State, checkout: nat) {
    checkout < |s.tasks| && s.tasks[checkout].Finished?
  }

  // ---------------------------------------------------------------- rows

  /** A row belongs to a checkout; its link is to that checkout's order; an ended checkout leaves no active orphan. */
  predicate RowOk(s: State, r: nat)
    requires r < |s.db.reservations|
  {
    var row := s.db.reservations[r];
    && (InFlight(s, row.checkout) || Ended(s, row.checkout))
    && (row.order.Some? ==>
          && row.order.value < |s.db.orders|
          && (s.db.orders[row.order.value].Some? ==> s.db.orders[row.order.value].value.checkout == row.checkout))
    && (Active(row) && Ended(s, row.checkout) ==> row.order.Some? && OrderAt(s.db, row.order.value).Some?)
  }

  predicate RowsOk(s: State) {
    forall r :: 0 <= r < |s.db.reservations| ==> RowOk(s, r)
  }

  function WrittenBy(checkout: nat, product: int): Reservation -> int {
    (r: Reservation) => if r.checkout == checkout && r.product == product then r.quantity else 0
  }

  function ItemUnits(product: int): Item -> int {
    (i: Item) => if i.product == product then i.quantity else 0
  }

  // ---------------------------------------------------------------- orders

  predicate Known(s: State, o: nat) {
    OrderAt(s.db, o).Some? ==>
      var c := OrderAt(s.db, o).value.checkout;
      && (InFlight(s, c) || Ended(s, c))
      && (InFlight(s, c) ==> s.tasks[c].placed == Some(o) && Top(s.tasks[c].undo) == Some(RemoveOrder(o)))
  }

  predicate Linked(s: State, o: nat) {
    OrderAt(s.db, o).Some? && Ended(s, OrderAt(s.db, o).value.checkout) ==>
      forall r :: 0 <= r < |s.db.reservations| && s.db.reservations[r].checkout == OrderAt(s.db, o).value.checkout ==>
        s.db.reservations[r].order == Some(o)
  }

  predicate Measured(s: State, o: nat, product: int) {
    OrderAt(s.db, o).Some? ==>
      Sum(s.db.reservations, WrittenBy(OrderAt(s.db, o).value.checkout, product))
        == Sum(OrderAt(s.db, o).value.items, ItemUnits(product))
  }

  predicate Stands(s: State, o: nat) {
    OrderAt(s.db, o).Some? && !MustRelease(OrderAt(s.db, o).value)
    && OrderAt(s.db, o).value.checkout !in s.touched && Ended(s, OrderAt(s.db, o).value.checkout) ==>
      forall r :: 0 <= r < |s.db.reservations| && s.db.reservations[r].checkout == OrderAt(s.db, o).value.checkout ==>
        Active(s.db.reservations[r])
  }

  predicate Covers(k: Task, o: nat, r: nat) {
    k.Releasing? && k.order == o &&
    match k.release
    case Finding => true
    case Listed(todo) => r in todo
    case Owing(_, _, todo) => r in todo
  }

  predicate Covered(s: State, o: nat, r: nat) {
    exists t :: 0 <= t < |s.tasks| && Covers(s.tasks[t], o, r)
  }

  predicate Drains(s: State, o: nat) {
    OrderAt(s.db, o).Some? && MustRelease(OrderAt(s.db, o).value) && OrderAt(s.db, o).value.checkout !in s.touched ==>
      && Ended(s, OrderAt(s.db, o).value.checkout)
      && forall r :: 0 <= r < |s.db.reservations| && ActiveFor(s.db.reservations[r], o) ==> Covered(s, o, r)
  }

  predicate OrdersOk(s: State) {
    && (forall o :: 0 <= o < |s.db.orders| ==> Known(s, o))
    && (forall o :: 0 <= o < |s.db.orders| ==> Linked(s, o))
    && (forall o :: 0 <= o < |s.db.orders| ==> Stands(s, o))
    && (forall o :: 0 <= o < |s.db.orders| ==> Drains(s, o))
  }

  // ---------------------------------------------------------------- requests

  /** The rows a checkout wrote are the ones it lists. */
  predicate MakerHeld(rows: seq<Reservation>, t: nat, held: seq<nat>) {
    && (forall r :: 0 <= r < |rows| && rows[r].checkout == t ==> r in held)
    && (forall i :: 0 <= i < |held| ==> held[i] < |rows| && rows[held[i]].checkout == t)
  }

  /** Each of its rows that is still active has its undo entry. */
  predicate MakerUndo(rows: seq<Reservation>, t: nat, undo: seq<Undo>) {
    && (forall r :: 0 <= r < |rows| && rows[r].checkout == t && Active(rows[r]) ==> DropReservation(r) in undo)
    && (forall i :: 0 <= i < |undo| && undo[i].DropReservation? ==>
        undo[i].id < |rows| && rows[undo[i].id].checkout == t)
  }

  predicate MakerLinks(rows: seq<Reservation>, t: nat, k: Task)
    requires k.Checkout?
  {
    && (k.at in {Redeem, ClearCart} ==> forall r :: 0 <= r < |rows| && rows[r].checkout == t ==>
        rows[r].order == k.placed)
    && (k.at !in {Redeem, ClearCart, Undoing} ==> forall r :: 0 <= r < |rows| && rows[r].checkout == t ==>
        rows[r].order == None)
  }

  /** Left alone, a checkout that has not failed holds everything it reserved. */
  predicate MakerHolds(s: State, t: nat, k: Task)
    requires k.Checkout?
  {
    t !in s.touched && k.at != Undoing ==>
      forall r :: 0 <= r < |s.db.reservations| && s.db.reservations[r].checkout == t ==> Active(s.db.reservations[r])
  }

  predicate MakerUnturned(s: State, t: nat, k: Task)
    requires k.Checkout?
  {
    t !in s.touched && k.at in {Link, Redeem, ClearCart} && k.placed.Some? && OrderAt(s.db, k.placed.value).Some? ==>
      !MustRelease(OrderAt(s.db, k.placed.value).value)
  }

  predicate MakerOk(s: State, t: nat)
    requires t < |s.tasks|
  {
    var k := s.tasks[t];
    k.Checkout? ==>
      && MakerHeld(s.db.reservations, t, k.held) && MakerUndo(s.db.reservations, t, k.undo)
      && MakerLinks(s.db.reservations, t, k) && MakerHolds(s, t, k) && MakerUnturned(s, t, k)
  }

  predicate Gauged(s: State, t: nat, product: int) {
    InFlight(s, t) ==> Sum(s.db.reservations, WrittenBy(t, product)) == Sum(s.tasks[t].items, ItemUnits(product))
  }

  /** The order is deleted or must give its stock back, and always will. */
  predicate Gone(s: State, o: nat) {
    o < |s.db.orders| && (s.db.orders[o].Some? ==> MustRelease(s.db.orders[o].value))
  }

  /** A row listed before it was linked: its checkout was caught, or ended without an order. */
  predicate Loose(s: State, r: nat) {
    r < |s.db.reservations| &&
    var row := s.db.reservations[r];
    row.checkout in s.touched || (Ended(s, row.checkout) && row.order.None?)
  }

  predicate SweepOk(s: State, w: Sweep) {
    forall i :: 0 <= i < |w.rest| ==>
      match w.rest[i].order
      case Some(o) => o < |s.db.orders|
      case None => Loose(s, w.rest[i].id)
  }

  predicate TodoOk(s: State, o: nat, todo: seq<nat>) {
    forall i :: 0 <= i < |todo| ==> todo[i] < |s.db.reservations| && s.db.reservations[todo[i]].order == Some(o)
  }

  predicate ReleaserOk(s: State, k: Task) {
    match k
    case Releasing(o, _, release, after) =>
      && Gone(s, o)
      && (release.Listed? ==> TodoOk(s, o, release.todo))
      && (release.Owing? ==> TodoOk(s, o, release.todo))
      && (after.KeepSweeping? ==> SweepOk(s, after.sweep))
    case Webhook(e, stage, _) =>
      stage.Settling? && stage.payment == e.target && e.target != Paid ==> Gone(s, e.order)
    case Sweeping(w, _) => SweepOk(s, w)
    case SweepLooking(o, w) => o < |s.db.orders| && SweepOk(s, w)
    case SweepCommitting(_, w) => SweepOk(s, w)
    case _ => true
  }

  predicate TasksOk(s: State) {
    forall t :: 0 <= t < |s.tasks| ==> MakerOk(s, t) && ReleaserOk(s, s.tasks[t])
  }

  /** What every step keeps on its own. */
  predicate Base(s: State) {
    Shapes(s) && AllFlipDown(s) && AllPlaced(s) && AllWebhooksOk(s) && AllConsistent(s)
  }

  predicate Inv(s: State) {
    Base(s) && RowsOk(s) && OrdersOk(s) && TasksOk(s)
  }

  // ---------------------------------------------------------------- what an effect may do, and to whom

  predicate NoOrderOf(s: State, t: nat) {
    forall o :: 0 <= o < |s.db.orders| && s.db.orders[o].Some? ==> s.db.orders[o].value.checkout != t
  }

  predicate EffectOk(s: State, t: nat, e: Effect) {
    match e
    case AddRow(row) => row.checkout == t && InFlight(s, t) && row.order.None? && Active(row) && NoOrderOf(s, t)
    case DropRow(id) => InFlight(s, t) && id < |s.db.reservations| && s.db.reservations[id].checkout == t
    case LinkRows(ids, o) =>
      && InFlight(s, t) && OrderAt(s.db, o).Some? && OrderAt(s.db, o).value.checkout == t
      && forall i :: 0 <= i < |ids| ==> ids[i] < |s.db.reservations| && s.db.reservations[ids[i]].checkout == t
    case DeleteOrderRow(o) => InFlight(s, t) && OrderAt(s.db, o).Some? && OrderAt(s.db, o).value.checkout == t
    case PlaceOrder(o) => o.checkout == t && InFlight(s, t) && !MustRelease(o) && Consistent(o) && NoOrderOf(s, t)
    case FlipRow(id, to) =>
      && to !in ACTIVE && id < |s.db.reservations|
      && (Loose(s, id) || (s.db.reservations[id].order.Some? && Gone(s, s.db.reservations[id].order.value)))
    case ChangeOrder(o, u) => Admissible(u) && CanUpdate(s.db, o, u)
    case _ => true
  }

  lemma CheckoutEffectOk(s: State, t: nat, now: int)
    requires Inv(s) && InFlight(s, t)
    ensures EffectOk(s, t, MoveCheckout(s.db, t, s.tasks[t], now).effect)
  {
    var k := s.tasks[t];
    assert MakerOk(s, t) && CheckoutShape(s, k) && PlacedOk(s.db, t, k);
    if k.at in {Insert, Create} {
      forall o | 0 <= o < |s.db.orders| && s.db.orders[o].Some?
        ensures s.db.orders[o].value.checkout != t
      {
        assert Known(s, o);
      }
    }
    if k.undo != [] {
      assert PlacedFits(s.db, t, k, |k.undo| - 1);
    }
  }

  lemma OtherEffectOk(s: State, t: nat, now: int)
    requires Inv(s) && t < |s.tasks| && !s.tasks[t].Checkout?
    ensures EffectOk(s, t, NextMove(s.db, t, s.tasks[t], now).effect)
  {
    assert ReleaserOk(s, s.tasks[t]) && WebhookOk(s.tasks[t]) && FlipsDown(s.tasks[t]);
    MoveWebhookOk(s.db, t, s.tasks[t], now);
  }

  lemma MoveEffectOk(s: State, t: nat, now: int)
    requires Inv(s) && t < |s.tasks|
    ensures EffectOk(s, t, NextMove(s.db, t, s.tasks[t], now).effect)
  {
    if s.tasks[t].Checkout? {
      CheckoutEffectOk(s, t, now);
    } else {
      OtherEffectOk(s, t, now);
    }
  }

  /** How one effect changes one row. */
  lemma RowAfter(s: State, t: nat, e: Effect, r: nat)
    requires EffectOk(s, t, e) && r < |s.db.reservations|
    ensures var rows' := Effected(s.db, e).reservations;
            && |s.db.reservations| <= |rows'|
            && rows'[r].checkout == s.db.reservations[r].checkout
            && rows'[r].product == s.db.reservations[r].product && rows'[r].quantity == s.db.reservations[r].quantity
            && (rows'[r].order != s.db.reservations[r].order ==>
                  e.LinkRows? && rows'[r].order == Some(e.order) && rows'[r].checkout == t)
            && (Active(rows'[r]) ==> Active(s.db.reservations[r]))
            && (Active(s.db.reservations[r]) && !Active(rows'[r]) ==> (e.FlipRow? || e.DropRow?) && e.id == r)
  {
  }

  /** How one effect changes one order. */
  lemma OrderAfter(s: State, t: nat, e: Effect, o: nat)
    requires EffectOk(s, t, e) && o < |s.db.orders| && OrderOk(s.db.orders[o])
    ensures var orders' := Effected(s.db, e).orders;
            && |s.db.orders| <= |orders'|
            && (orders'[o].Some? ==>
                  && s.db.orders[o].Some?
                  && orders'[o].value.checkout == s.db.orders[o].value.checkout
                  && orders'[o].value.items == s.db.orders[o].value.items
                  && (MustRelease(s.db.orders[o].value) ==> MustRelease(orders'[o].value))
                  && (!MustRelease(s.db.orders[o].value) && MustRelease(orders'[o].value) ==>
                      e.ChangeOrder? && e.id == o))
            && (s.db.orders[o].Some? && orders'[o].None? ==> e == DeleteOrderRow(o))
  {
    if e.ChangeOrder? && e.id == o {
      UpdateKeepsConsistent(s.db.orders[o].value, e.update);
    }
  }

  lemma NewRow(s: State, t: nat, e: Effect)
    requires EffectOk(s, t, e)
    ensures var rows' := Effected(s.db, e).reservations;
            forall r :: |s.db.reservations| <= r < |rows'| ==> e.AddRow? && rows'[r] == e.row
    ensures var orders' := Effected(s.db, e).orders;
            forall o :: |s.db.orders| <= o < |orders'| ==>
              e.PlaceOrder? && orders'[o] == Some(e.placedOrder) && o == |s.db.orders|
    ensures |s.db.reservations| <= |Effected(s.db, e).reservations| && |s.db.orders| <= |Effected(s.db, e).orders|
  {
  }

  // ---------------------------------------------------------------- one move keeps the invariant

  function After(s: State, t: nat, now: int): State
    requires t < |s.tasks|
  {
    Perform(s, t, NextMove(s.db, t, s.tasks[t], now))
  }

  lemma CheckoutsEnd(db: Db, t: nat, k: Task, now: int)
    ensures var m := NextMove(db, t, k, now);
            && (k.Checkout? ==> m.next.Checkout? || m.next.Finished?)
            && (k.Finished? ==> m.next.Finished?)
            && (m.effect.AddRow? || m.effect.PlaceOrder? || m.effect.LinkRows? || m.effect.DropRow?
                || m.effect.DeleteOrderRow? ==>
                  m.next.Checkout?)
            && (m.next.Finished? && k.Checkout? ==> k.at == ClearCart || (k.at == Undoing && k.undo == []))
  {
  }

  lemma GoneStays(s: State, t: nat, now: int, o: nat)
    requires Inv(s) && t < |s.tasks| && Gone(s, o)
    ensures Gone(After(s, t, now), o)
  {
    MoveEffectOk(s, t, now);
    assert OrderOk(s.db.orders[o]);
    OrderAfter(s, t, NextMove(s.db, t, s.tasks[t], now).effect, o);
  }

  lemma LooseStays(s: State, t: nat, now: int, r: nat)
    requires Inv(s) && t < |s.tasks| && Loose(s, r)
    ensures Loose(After(s, t, now), r)
  {
    MoveEffectOk(s, t, now);
    CheckoutsEnd(s.db, t, s.tasks[t], now);
    RowAfter(s, t, NextMove(s.db, t, s.tasks[t], now).effect, r);
  }

  /** A checkout that ends leaves its active rows linked to an order that exists. */
  lemma EndLinked(s: State, t: nat, now: int, r: nat)
    requires Inv(s) && InFlight(s, t) && MoveCheckout(s.db, t, s.tasks[t], now).next.Finished?
    requires r < |s.db.reservations| && s.db.reservations[r].checkout == t && Active(s.db.reservations[r])
    ensures s.db.reservations[r].order.Some? && OrderAt(s.db, s.db.reservations[r].order.value).Some?
  {
    var k := s.tasks[t];
    CheckoutsEnd(s.db, t, k, now);
    assert MakerOk(s, t) && CheckoutShape(s, k) && PlacedOk(s.db, t, k);
    if k.undo != [] {
      assert PlacedFits(s.db, t, k, |k.undo| - 1);
    }
  }

  lemma RowFollows(s: State, t: nat, m: Move, r: nat)
    requires t < |s.tasks| && r < |s.db.reservations| && RowOk(s, r) && EffectOk(s, t, m.effect)
    requires forall o :: 0 <= o < |s.db.orders| ==> OrderOk(s.db.orders[o])
    requires (s.tasks[t].Checkout? ==> m.next.Checkout? || m.next.Finished?)
    requires (s.tasks[t].Finished? ==> m.next.Finished?)
    requires m.effect.LinkRows? || m.effect.DropRow? || m.effect.DeleteOrderRow? ==> m.next.Checkout?
    requires InFlight(s, t) && m.next.Finished? && s.db.reservations[r].checkout == t
             && Active(s.db.reservations[r]) ==>
               s.db.reservations[r].order.Some? && OrderAt(s.db, s.db.reservations[r].order.value).Some?
    ensures r < |Perform(s, t, m).db.reservations| && RowOk(Perform(s, t, m), r)
  {
    RowAfter(s, t, m.effect, r);
    var row' := Effected(s.db, m.effect).reservations[r];
    if row'.order.Some? {
      OrderAfter(s, t, m.effect, row'.order.value);
    }
  }

  lemma OldRowKept(s: State, t: nat, now: int, r: nat)
    requires Inv(s) && t < |s.tasks| && r < |s.db.reservations|
    ensures r < |After(s, t, now).db.reservations| && RowOk(After(s, t, now), r)
  {
    var m := NextMove(s.db, t, s.tasks[t], now);
    MoveEffectOk(s, t, now);
    CheckoutsEnd(s.db, t, s.tasks[t], now);
    assert RowOk(s, r);
    if InFlight(s, t) && m.next.Finished? && s.db.reservations[r].checkout == t && Active(s.db.reservations[r]) {
      EndLinked(s, t, now, r);
    }
    RowFollows(s, t, m, r);
  }

  lemma RowsKept(s: State, t: nat, now: int)
    requires Inv(s) && t < |s.tasks|
    ensures RowsOk(After(s, t, now))
  {
    var s' := After(s, t, now);
    MoveEffectOk(s, t, now);
    CheckoutsEnd(s.db, t, s.tasks[t], now);
    NewRow(s, t, NextMove(s.db, t, s.tasks[t], now).effect);
    forall r | 0 <= r < |s'.db.reservations|
      ensures RowOk(s', r)
    {
      if r < |s.db.reservations| {
        OldRowKept(s, t, now, r);
      }
    }
  }

  lemma OldKnownKept(s: State, t: nat, now: int, o: nat)
    requires Inv(s) && t < |s.tasks| && o < |s.db.orders|
    ensures Known(After(s, t, now), o)
  {
    var k := s.tasks[t];
    MoveEffectOk(s, t, now);
    CheckoutsEnd(s.db, t, k, now);
    assert Known(s, o) && OrderOk(s.db.orders[o]);
    OrderAfter(s, t, NextMove(s.db, t, k, now).effect, o);
    if s.db.orders[o].Some? && s.db.orders[o].value.checkout == t && k.Checkout? {
      PlacedOrderStays(s, t, now, o);
    }
  }

  lemma PlacesKnown(db: Db, t: nat, k: Task, now: int)
    ensures var m := NextMove(db, t, k, now);
            m.effect.PlaceOrder? ==>
              && k.Checkout? && m.next.Checkout? && m.effect.placedOrder.checkout == t
              && m.next.placed == Some(|db.orders|) && Top(m.next.undo) == Some(RemoveOrder(|db.orders|))
  {
  }

  lemma NewKnown(s: State, t: nat, m: Move)
    requires t < |s.tasks| && m.effect.PlaceOrder? && m.next.Checkout? && m.effect.placedOrder.checkout == t
    requires m.next.placed == Some(|s.db.orders|) && Top(m.next.undo) == Some(RemoveOrder(|s.db.orders|))
    ensures Known(Perform(s, t, m), |s.db.orders|)
  {
  }

  lemma KnownKept(s: State, t: nat, now: int, o: nat)
    requires Inv(s) && t < |s.tasks|
    ensures Known(After(s, t, now), o)
  {
    if o < |s.db.orders| {
      OldKnownKept(s, t, now, o);
    } else {
      var m := NextMove(s.db, t, s.tasks[t], now);
      MoveEffectOk(s, t, now);
      NewRow(s, t, m.effect);
      if m.effect.PlaceOrder? && o == |s.db.orders| {
        PlacesKnown(s.db, t, s.tasks[t], now);
        NewKnown(s, t, m);
      }
    }
  }

  /** A checkout with its order in place undoes nothing else before it removes that order. */
  lemma PlacedOrderStays(s: State, t: nat, now: int, o: nat)
    requires Inv(s) && InFlight(s, t) && OrderAt(s.db, o).Some? && OrderAt(s.db, o).value.checkout == t
    ensures var m := MoveCheckout(s.db, t, s.tasks[t], now);
            && s.tasks[t].placed == Some(o) && Top(s.tasks[t].undo) == Some(RemoveOrder(o))
            && s.tasks[t].at in {Link, Redeem, ClearCart, Undoing}
            && (m.next.Checkout? ==>
                  || (m.next.placed == Some(o) && m.next.undo == s.tasks[t].undo)
                  || m.effect == DeleteOrderRow(o))
            && (m.next.Finished? ==> s.tasks[t].at == ClearCart)
  {
    assert Known(s, o) && CheckoutShape(s, s.tasks[t]);
  }

  lemma LinkedKept(s: State, t: nat, now: int, o: nat)
    requires Inv(s) && t < |s.tasks|
    ensures Linked(After(s, t, now), o)
  {
    var s' := After(s, t, now);
    var k := s.tasks[t];
    var m := NextMove(s.db, t, k, now);
    MoveEffectOk(s, t, now);
    CheckoutsEnd(s.db, t, k, now);
    NewRow(s, t, m.effect);
    if OrderAt(s'.db, o).Some? && Ended(s', OrderAt(s'.db, o).value.checkout) && o < |s.db.orders| {
      assert OrderOk(s.db.orders[o]) && Linked(s, o) && Known(s, o) && MakerOk(s, t);
      OrderAfter(s, t, m.effect, o);
      var c := s.db.orders[o].value.checkout;
      if InFlight(s, c) { PlacedOrderStays(s, t, now, o); }
      forall r | 0 <= r < |s'.db.reservations| && s'.db.reservations[r].checkout == c
        ensures s'.db.reservations[r].order == Some(o)
      {
        if r < |s.db.reservations| { RowAfter(s, t, m.effect, r); }
      }
    }
  }

  lemma StandsKept(s: State, t: nat, now: int, o: nat)
    requires Inv(s) && t < |s.tasks|
    ensures Stands(After(s, t, now), o)
  {
    var s' := After(s, t, now);
    var k := s.tasks[t];
    var m := NextMove(s.db, t, k, now);
    MoveEffectOk(s, t, now);
    CheckoutsEnd(s.db, t, k, now);
    NewRow(s, t, m.effect);
    if OrderAt(s'.db, o).Some? && !MustRelease(s'.db.orders[o].value) && s'.db.orders[o].value.checkout !in s'.touched
       && Ended(s', s'.db.orders[o].value.checkout) && o < |s.db.orders| {
      assert OrderOk(s.db.orders[o]) && Linked(s, o) && Stands(s, o) && Known(s, o) && MakerOk(s, t);
      OrderAfter(s, t, m.effect, o);
      var c := s.db.orders[o].value.checkout;
      if InFlight(s, c) { PlacedOrderStays(s, t, now, o); }
      forall r | 0 <= r < |s'.db.reservations| && s'.db.reservations[r].checkout == c
        ensures Active(s'.db.reservations[r])
      {
        if r < |s.db.reservations| { RowAfter(s, t, m.effect, r); }
      }
    }
  }

  /** Whoever makes an order give its stock back goes on to release it. */
  lemma TurnsIntoRelease(s: State, t: nat, now: int)
    requires t < |s.tasks|
    ensures var m := NextMove(s.db, t, s.tasks[t], now);
            m.effect.ChangeOrder? && !MustRelease(OrderAt(s.db, m.effect.id).value)
            && MustRelease(Written(OrderAt(s.db, m.effect.id).value, m.effect.update)) ==>
              m.next.Releasing? && m.next.order == m.effect.id && m.next.release == Finding
  {
  }

  lemma CoverStays(s: State, t: nat, now: int, o: nat, r: nat)
    requires t < |s.tasks| && FlipsDown(s.tasks[t]) && r < |s.db.reservations| && ActiveFor(s.db.reservations[r], o)
    requires Covered(s, o, r)
    ensures r < |After(s, t, now).db.reservations|
    ensures ActiveFor(After(s, t, now).db.reservations[r], o) ==> Covered(After(s, t, now), o, r)
  {
    var s' := After(s, t, now);
    RowsOnlyGrow(s.db, NextMove(s.db, t, s.tasks[t], now).effect);
    if ActiveFor(s'.db.reservations[r], o) {
      var i :| 0 <= i < |s.tasks| && Covers(s.tasks[i], o, r);
      if i == t { CoverMoves(s.db, s.tasks[t], o, r); }
      assert Covers(s'.tasks[i], o, r);
    }
  }

  /** A release drops a row from its list only once the row is inactive. */
  lemma CoverMoves(db: Db, k: Task, o: nat, r: nat)
    requires Covers(k, o, r) && FlipsDown(k) && r < |db.reservations| && ActiveFor(db.reservations[r], o)
    ensures var m := MoveRelease(db, k);
            Covers(m.next, o, r) || (m.effect.FlipRow? && m.effect.id == r && m.effect.to !in ACTIVE)
  {
  }

  lemma DrainsKept(s: State, t: nat, now: int, o: nat)
    requires Inv(s) && t < |s.tasks|
    ensures Drains(After(s, t, now), o)
  {
    var s' := After(s, t, now);
    var k := s.tasks[t];
    var m := NextMove(s.db, t, k, now);
    MoveEffectOk(s, t, now);
    CheckoutsEnd(s.db, t, k, now);
    NewRow(s, t, m.effect);
    if OrderAt(s'.db, o).Some? && MustRelease(s'.db.orders[o].value) && s'.db.orders[o].value.checkout !in s'.touched
       && o < |s.db.orders| {
      assert OrderOk(s.db.orders[o]) && Drains(s, o) && Known(s, o);
      OrderAfter(s, t, m.effect, o);
      TurnsIntoRelease(s, t, now);
      var c := s.db.orders[o].value.checkout;
      assert Ended(s', c);
      forall r | 0 <= r < |s'.db.reservations| && ActiveFor(s'.db.reservations[r], o)
        ensures Covered(s', o, r)
      {
        if r < |s.db.reservations| {
          RowAfter(s, t, m.effect, r);
          if MustRelease(s.db.orders[o].value) {
            assert FlipsDown(s.tasks[t]);
            CoverStays(s, t, now, o, r);
          } else {
            assert Covers(s'.tasks[t], o, r);
          }
        }
      }
    }
  }

  /** How a move of one request looks to the rows of another, running, checkout. */
  lemma OtherRows(s: State, t: nat, now: int, i: nat, r: nat)
    requires Inv(s) && t < |s.tasks| && InFlight(s, i) && i != t && r < |s.db.reservations|
    ensures var s' := After(s, t, now);
            && r < |s'.db.reservations|
            && s'.db.reservations[r].checkout == s.db.reservations[r].checkout
            && (Active(s'.db.reservations[r]) ==> Active(s.db.reservations[r]))
            && (s.db.reservations[r].checkout == i ==>
                  && s'.db.reservations[r].order == s.db.reservations[r].order
                  && (i !in s'.touched && Active(s.db.reservations[r]) ==> Active(s'.db.reservations[r])))
  {
    MoveEffectOk(s, t, now);
    RowAfter(s, t, NextMove(s.db, t, s.tasks[t], now).effect, r);
  }

  lemma OtherMakerKept(s: State, t: nat, now: int, i: nat)
    requires Inv(s) && t < |s.tasks| && InFlight(s, i) && i != t
    ensures MakerOk(After(s, t, now), i)
  {
    var s' := After(s, t, now);
    var k := s.tasks[i];
    MoveEffectOk(s, t, now);
    NewRow(s, t, NextMove(s.db, t, s.tasks[t], now).effect);
    assert MakerOk(s, i);
    forall r | 0 <= r < |s.db.reservations|
      ensures s'.db.reservations[r].checkout == s.db.reservations[r].checkout
      ensures Active(s'.db.reservations[r]) ==> Active(s.db.reservations[r])
      ensures s.db.reservations[r].checkout == i ==>
                && s'.db.reservations[r].order == s.db.reservations[r].order
                && (i !in s'.touched && Active(s.db.reservations[r]) ==> Active(s'.db.reservations[r]))
    {
      OtherRows(s, t, now, i, r);
    }
    assert MakerHeld(s'.db.reservations, i, k.held) && MakerUndo(s'.db.reservations, i, k.undo);
    assert MakerLinks(s'.db.reservations, i, k);
    assert MakerHolds(s', i, k);
    OtherUnturned(s, t, now, i);
  }

  lemma OtherUnturned(s: State, t: nat, now: int, i: nat)
    requires Inv(s) && t < |s.tasks| && InFlight(s, i) && i != t
    ensures MakerUnturned(After(s, t, now), i, s.tasks[i])
  {
    var k := s.tasks[i];
    assert MakerOk(s, i) && PlacedOk(s.db, i, k) && CheckoutShape(s, k);
    MoveEffectOk(s, t, now);
    if k.placed.Some? && k.at in {Link, Redeem, ClearCart} {
      assert PlacedFits(s.db, i, k, |k.undo| - 1);
      assert OrderOk(s.db.orders[k.placed.value]);
      OrderAfter(s, t, NextMove(s.db, t, s.tasks[t], now).effect, k.placed.value);
    }
  }

  lemma HeldAfter(rows: seq<Reservation>, rows': seq<Reservation>, t: nat, held: seq<nat>, held': seq<nat>)
    requires MakerHeld(rows, t, held) && |rows| <= |rows'|
    requires forall r :: 0 <= r < |rows| ==> rows'[r].checkout == rows[r].checkout
    requires (|rows'| == |rows| && held' == held)
             || (|rows'| == |rows| + 1 && rows'[|rows|].checkout == t && held' == held + [|rows|])
    ensures MakerHeld(rows', t, held')
  {
    forall r | 0 <= r < |rows'| && rows'[r].checkout == t
      ensures r in held'
    {
      if r < |rows| {
        assert r in held;
      } else {
        assert held'[|held|] == r;
      }
    }
  }

  /** Pushing keeps the entries; popping an entry drops its row. */
  lemma UndoAfter(rows: seq<Reservation>, rows': seq<Reservation>, t: nat, undo: seq<Undo>, undo': seq<Undo>)
    requires MakerUndo(rows, t, undo) && |rows| <= |rows'|
    requires forall r :: 0 <= r < |rows| ==>
             rows'[r].checkout == rows[r].checkout && (Active(rows'[r]) ==> Active(rows[r]))
    requires || (undo' == undo && |rows'| == |rows|)
             || (|undo'| == |undo| + 1 && undo'[..|undo|] == undo && !undo'[|undo|].DropReservation?
                 && |rows'| == |rows|)
             || (undo' == undo + [DropReservation(|rows|)] && |rows'| == |rows| + 1 && rows'[|rows|].checkout == t)
             || (undo != [] && undo' == undo[..|undo| - 1] && |rows'| == |rows|
                 && (undo[|undo| - 1].DropReservation? && undo[|undo| - 1].id < |rows| ==>
                     !Active(rows'[undo[|undo| - 1].id])))
    ensures MakerUndo(rows', t, undo')
  {
    forall r | 0 <= r < |rows'| && rows'[r].checkout == t && Active(rows'[r])
      ensures DropReservation(r) in undo'
    {
      if r < |rows| {
        var i :| 0 <= i < |undo| && undo[i] == DropReservation(r);
        assert i < |undo'| && undo'[i] == DropReservation(r);
      } else {
        assert undo'[|undo|] == DropReservation(r);
      }
    }
    forall i | 0 <= i < |undo'| && undo'[i].DropReservation?
      ensures undo'[i].id < |rows'| && rows'[undo'[i].id].checkout == t
    {
      assert i < |undo| ==> undo'[i] == undo[i];
    }
  }

  /** A checkout lists the row it adds, and otherwise pushes some other entry or runs its last one. */
  predicate UndoFollows(db: Db, t: nat, k: Task, m: Move)
    requires k.Checkout? && m.next.Checkout?
  {
    if m.effect.AddRow? then
      && m.effect.row.checkout == t && m.next.held == k.held + [|db.reservations|]
      && m.next.undo == k.undo + [DropReservation(|db.reservations|)]
    else
      && m.next.held == k.held
      && (|| (m.next.undo == k.undo && !m.effect.DropRow?)
          || (|m.next.undo| == |k.undo| + 1 && m.next.undo[..|k.undo|] == k.undo
              && !m.next.undo[|k.undo|].DropReservation?
              && !m.effect.DropRow?)
          || (k.undo != [] && m.next.undo == k.undo[..|k.undo| - 1] && m.effect == UndoEffect(k.undo[|k.undo| - 1])))
  }

  lemma CheckoutUndo(db: Db, t: nat, k: Task, now: int)
    requires k.Checkout? && MoveCheckout(db, t, k, now).next.Checkout?
    ensures UndoFollows(db, t, k, MoveCheckout(db, t, k, now))
  {
  }

  lemma OwnRowsKept(s: State, t: nat, now: int)
    requires Inv(s) && InFlight(s, t) && MoveCheckout(s.db, t, s.tasks[t], now).next.Checkout?
    ensures MakerHeld(After(s, t, now).db.reservations, t, After(s, t, now).tasks[t].held)
    ensures MakerUndo(After(s, t, now).db.reservations, t, After(s, t, now).tasks[t].undo)
  {
    var k := s.tasks[t];
    var m := MoveCheckout(s.db, t, k, now);
    CheckoutUndo(s.db, t, k, now);
    MoveEffectOk(s, t, now);
    NewRow(s, t, m.effect);
    OwnRowsFollow(s, t, m);
  }

  lemma OwnRowsFollow(s: State, t: nat, m: Move)
    requires InFlight(s, t) && MakerOk(s, t) && m.next.Checkout? && EffectOk(s, t, m.effect)
    requires UndoFollows(s.db, t, s.tasks[t], m)
    ensures MakerHeld(Effected(s.db, m.effect).reservations, t, m.next.held)
    ensures MakerUndo(Effected(s.db, m.effect).reservations, t, m.next.undo)
  {
    var k := s.tasks[t];
    var rows, rows' := s.db.reservations, Effected(s.db, m.effect).reservations;
    NewRow(s, t, m.effect);
    assert m.effect.AddRow? || |rows'| == |rows|;
    forall r | 0 <= r < |rows|
      ensures rows'[r].checkout == rows[r].checkout
      ensures Active(rows'[r]) ==> Active(rows[r])
    {
      RowAfter(s, t, m.effect, r);
    }
    HeldAfter(rows, rows', t, k.held, m.next.held);
    UndoAfter(rows, rows', t, k.undo, m.next.undo);
  }

  lemma LinkFollows(db: Db, t: nat, k: Task, now: int)
    requires k.Checkout? && k.at == Link && k.placed.Some? && MakerHeld(db.reservations, t, k.held)
    ensures var m := MoveCheckout(db, t, k, now); MakerLinks(Effected(db, m.effect).reservations, t, m.next)
  {
    var rows' := LinkReservations(db, k.held, k.placed.value).reservations;
    forall r | 0 <= r < |rows'| && rows'[r].checkout == t
      ensures rows'[r].order == k.placed
    {
      assert db.reservations[r].checkout == t;
      assert r in k.held;
    }
  }

  /** No other step links a row. */
  lemma OthersDoNotLink(db: Db, t: nat, k: Task, now: int)
    requires k.Checkout? && k.at != Link && TopFits(k) && MoveCheckout(db, t, k, now).next.Checkout?
    ensures var m := MoveCheckout(db, t, k, now);
            && !m.effect.LinkRows? && !m.effect.CommitRows? && !m.effect.FlipRow?
            && (m.effect.AddRow? ==> m.effect.row.order.None? && m.next.at == Take)
            && m.next.placed == (if k.at == Create then Some(|db.orders|) else k.placed)
            && (m.next.at in {Redeem, ClearCart} ==> k.at in {Redeem, ClearCart})
            && (m.next.at !in {Redeem, ClearCart, Undoing} ==> k.at !in {Redeem, ClearCart, Undoing})
  {
  }

  lemma UnlinkedFollow(db: Db, t: nat, k: Task, m: Move)
    requires k.Checkout? && m.next.Checkout? && MakerLinks(db.reservations, t, k)
    requires !m.effect.LinkRows? && !m.effect.CommitRows? && !m.effect.FlipRow?
    requires m.effect.AddRow? ==> m.effect.row.order.None? && m.next.at == Take
    requires m.next.at in {Redeem, ClearCart} ==> k.at in {Redeem, ClearCart} && m.next.placed == k.placed
    requires m.next.at !in {Redeem, ClearCart, Undoing} ==> k.at !in {Redeem, ClearCart, Undoing}
    ensures MakerLinks(Effected(db, m.effect).reservations, t, m.next)
  {
    var rows, rows' := db.reservations, Effected(db, m.effect).reservations;
    assert |rows'| == |rows| || (m.effect.AddRow? && rows' == rows + [m.effect.row]);
    forall r | 0 <= r < |rows|
      ensures rows'[r].order == rows[r].order && rows'[r].checkout == rows[r].checkout
    {
    }
  }

  lemma LinksFollow(db: Db, t: nat, k: Task, now: int)
    requires k.Checkout? && MakerHeld(db.reservations, t, k.held) && MakerLinks(db.reservations, t, k) && TopFits(k)
    requires MoveCheckout(db, t, k, now).next.Checkout?
    ensures var m := MoveCheckout(db, t, k, now); MakerLinks(Effected(db, m.effect).reservations, t, m.next)
  {
    if k.at == Link {
      LinkFollows(db, t, k, now);
    } else {
      OthersDoNotLink(db, t, k, now);
      UnlinkedFollow(db, t, k, MoveCheckout(db, t, k, now));
    }
  }

  lemma OwnLinksKept(s: State, t: nat, now: int)
    requires Inv(s) && InFlight(s, t) && MoveCheckout(s.db, t, s.tasks[t], now).next.Checkout?
    ensures MakerLinks(After(s, t, now).db.reservations, t, After(s, t, now).tasks[t])
  {
    assert MakerOk(s, t) && CheckoutShape(s, s.tasks[t]);
    LinksFollow(s.db, t, s.tasks[t], now);
  }

  /** A step of its own checkout keeps a row's maker, and its standing unless it is undone. */
  lemma OwnRows(s: State, t: nat, m: Move)
    requires EffectOk(s, t, m.effect) && !m.effect.FlipRow?
    ensures |s.db.reservations| <= |Effected(s.db, m.effect).reservations|
    ensures forall r :: 0 <= r < |s.db.reservations| ==>
              && Effected(s.db, m.effect).reservations[r].checkout == s.db.reservations[r].checkout
              && (Active(s.db.reservations[r]) && !m.effect.DropRow? ==>
                  Active(Effected(s.db, m.effect).reservations[r]))
  {
    forall r | 0 <= r < |s.db.reservations|
      ensures Effected(s.db, m.effect).reservations[r].checkout == s.db.reservations[r].checkout
      ensures Active(s.db.reservations[r]) && !m.effect.DropRow? ==> Active(Effected(s.db, m.effect).reservations[r])
    {
      RowAfter(s, t, m.effect, r);
    }
    NewRow(s, t, m.effect);
  }

  lemma OwnHoldsKept(s: State, t: nat, now: int)
    requires Inv(s) && InFlight(s, t) && MoveCheckout(s.db, t, s.tasks[t], now).next.Checkout?
    ensures MakerHolds(After(s, t, now), t, After(s, t, now).tasks[t])
  {
    var m := MoveCheckout(s.db, t, s.tasks[t], now);
    assert MakerOk(s, t);
    MoveEffectOk(s, t, now);
    NewRow(s, t, m.effect);
    OwnRows(s, t, m);
  }

  /** From its order's creation on, a checkout that goes forward leaves all orders alone. */
  lemma ForwardOrders(db: Db, t: nat, k: Task, now: int)
    requires k.Checkout? && k.at != Undoing && MoveCheckout(db, t, k, now).next.Checkout?
    ensures var m := MoveCheckout(db, t, k, now);
            m.next.at in {Link, Redeem, ClearCart} ==>
              if k.at == Create then m.effect.PlaceOrder? && m.next.placed == Some(|db.orders|)
                 && !MustRelease(m.effect.placedOrder)
              else k.at in {Link, Redeem} && m.next.placed == k.placed && Effected(db, m.effect).orders == db.orders
  {
  }

  lemma OwnUnturnedKept(s: State, t: nat, now: int)
    requires Inv(s) && InFlight(s, t) && MoveCheckout(s.db, t, s.tasks[t], now).next.Checkout?
    ensures MakerUnturned(After(s, t, now), t, After(s, t, now).tasks[t])
  {
    assert MakerOk(s, t);
    if s.tasks[t].at != Undoing { ForwardOrders(s.db, t, s.tasks[t], now); }
  }

  // ---------------------------------------------------------------- releases and sweeps

  lemma TodoStays(s: State, t: nat, now: int, o: nat, todo: seq<nat>)
    requires Inv(s) && t < |s.tasks| && TodoOk(s, o, todo) && o < |s.db.orders|
    ensures TodoOk(After(s, t, now), o, todo)
  {
    MoveEffectOk(s, t, now);
    var e := NextMove(s.db, t, s.tasks[t], now).effect;
    forall i | 0 <= i < |todo|
      ensures todo[i] < |After(s, t, now).db.reservations| && After(s, t, now).db.reservations[todo[i]].order == Some(o)
    {
      RowAfter(s, t, e, todo[i]);
      assert RowOk(s, todo[i]);
      LinkedRowsStay(s, t, now, todo[i], o);
    }
  }

  /** A linked row is never linked to another order. */
  lemma LinkedRowsStay(s: State, t: nat, now: int, r: nat, o: nat)
    requires Inv(s) && t < |s.tasks| && r < |s.db.reservations| && s.db.reservations[r].order == Some(o)
    ensures r < |After(s, t, now).db.reservations| && After(s, t, now).db.reservations[r].order == Some(o)
  {
    MoveEffectOk(s, t, now);
    var e := NextMove(s.db, t, s.tasks[t], now).effect;
    RowAfter(s, t, e, r);
    assert RowOk(s, r);
    if e.LinkRows? {
      assert Known(s, e.order) && MakerOk(s, t);
    }
  }

  lemma SweepStays(s: State, t: nat, now: int, w: Sweep)
    requires Inv(s) && t < |s.tasks| && SweepOk(s, w)
    ensures SweepOk(After(s, t, now), w)
  {
    MoveEffectOk(s, t, now);
    NewRow(s, t, NextMove(s.db, t, s.tasks[t], now).effect);
    forall i | 0 <= i < |w.rest| && w.rest[i].order.None?
      ensures Loose(After(s, t, now), w.rest[i].id)
    {
      LooseStays(s, t, now, w.rest[i].id);
    }
  }

  /** What a release, webhook or sweep relies on is not undone by anybody's move. */
  lemma ReleaserStays(s: State, t: nat, now: int, k: Task)
    requires Inv(s) && t < |s.tasks| && ReleaserOk(s, k)
    ensures ReleaserOk(After(s, t, now), k)
  {
    MoveEffectOk(s, t, now);
    NewRow(s, t, NextMove(s.db, t, s.tasks[t], now).effect);
    match k
    case Releasing(o, _, release, after) =>
      GoneStays(s, t, now, o);
      if release.Listed? { TodoStays(s, t, now, o, release.todo); }
      if release.Owing? { TodoStays(s, t, now, o, release.todo); }
      if after.KeepSweeping? { SweepStays(s, t, now, after.sweep); }
    case Webhook(e, stage, _) =>
      if stage.Settling? && stage.payment == e.target && e.target != Paid { GoneStays(s, t, now, e.order); }
    case Sweeping(w, _) => SweepStays(s, t, now, w);
    case SweepLooking(_, w) => SweepStays(s, t, now, w);
    case SweepCommitting(_, w) => SweepStays(s, t, now, w);
    case _ =>
  }

  lemma SweepRest(s: State, w: Sweep, handled: set<nat>)
    requires SweepOk(s, w) && w.rest != []
    ensures SweepOk(s, Sweep(w.now, w.rest[1..], handled))
  {
    var w' := Sweep(w.now, w.rest[1..], handled);
    forall i | 0 <= i < |w'.rest|
      ensures match w'.rest[i].order case Some(o) => o < |s.db.orders| case None => Loose(s, w'.rest[i].id)
    {
      assert w'.rest[i] == w.rest[i + 1];
    }
  }

  lemma SweepMoveOk(s: State, t: nat, k: Task)
    requires k.Sweeping? && ReleaserOk(s, k) && !MoveSweep(s.db, k).effect.ChangeOrder?
    ensures ReleaserOk(s, MoveSweep(s.db, k).next)
  {
    if k.sweep.rest != [] {
      SweepRest(s, k.sweep, k.sweep.handled);
      if k.sweep.rest[0].order.Some? {
        SweepRest(s, k.sweep, k.sweep.handled + {k.sweep.rest[0].order.value});
      }
    }
  }

  lemma ReleaseMoveOk(s: State, k: Task)
    requires k.Releasing? && ReleaserOk(s, k)
    ensures ReleaserOk(s, MoveRelease(s.db, k).next)
  {
  }

  lemma OtherMoveOk(s: State, t: nat, k: Task, now: int)
    requires !k.Sweeping? && !k.Releasing? && ReleaserOk(s, k) && WebhookOk(k)
    requires !NextMove(s.db, t, k, now).effect.ChangeOrder?
    ensures ReleaserOk(s, NextMove(s.db, t, k, now).next)
  {
  }

  /** What is left of a sweep after its first row, whoever moves meanwhile. */
  lemma SweepGoesOn(s: State, t: nat, now: int, w: Sweep, handled: set<nat>)
    requires Inv(s) && t < |s.tasks| && SweepOk(s, w) && w.rest != []
    ensures SweepOk(After(s, t, now), Sweep(w.now, w.rest[1..], handled))
  {
    SweepRest(s, w, handled);
    SweepStays(s, t, now, Sweep(w.now, w.rest[1..], handled));
  }

  lemma ChangedIsGone(s: State, t: nat, m: Move)
    requires t < |s.tasks| && m.effect.ChangeOrder? && EffectOk(s, t, m.effect) && m.next.Releasing?
    requires m.next.order == m.effect.id
    requires MustRelease(Written(OrderAt(s.db, m.effect.id).value, m.effect.update))
    ensures Gone(Perform(s, t, m), m.effect.id)
  {
  }

  /** A move that changes an order either goes on to release it, or asks nothing more of it. */
  lemma ChangeLeadsOn(db: Db, t: nat, k: Task, now: int)
    requires NextMove(db, t, k, now).effect.ChangeOrder? && WebhookOk(k)
    ensures var m := NextMove(db, t, k, now);
            && CanUpdate(db, m.effect.id, m.effect.update)
            && (m.next.Releasing? ==>
                  && m.next.order == m.effect.id && m.next.release == Finding
                  && MustRelease(Written(OrderAt(db, m.effect.id).value, m.effect.update))
                  && (m.next.after.KeepSweeping? ==>
                        k.Sweeping? && k.sweep.rest != []
                        && m.next.after.sweep == Sweep(k.sweep.now, k.sweep.rest[1..], m.next.after.sweep.handled)))
            && (!m.next.Releasing? ==>
                  m.next.Finished? || m.next.Telling? || (m.next.Webhook? && m.next.stage == Committing))
  {
  }

  lemma ChangeMoveOk(s: State, t: nat, now: int)
    requires Inv(s) && t < |s.tasks| && NextMove(s.db, t, s.tasks[t], now).effect.ChangeOrder?
    ensures ReleaserOk(After(s, t, now), NextMove(s.db, t, s.tasks[t], now).next)
  {
    var k := s.tasks[t];
    var m := NextMove(s.db, t, k, now);
    assert WebhookOk(k) && ReleaserOk(s, k);
    MoveEffectOk(s, t, now);
    ChangeLeadsOn(s.db, t, k, now);
    if m.next.Releasing? {
      ChangedIsGone(s, t, m);
      if m.next.after.KeepSweeping? { SweepGoesOn(s, t, now, k.sweep, m.next.after.sweep.handled); }
    }
  }

  lemma OwnReleaserKept(s: State, t: nat, now: int)
    requires Inv(s) && t < |s.tasks|
    ensures ReleaserOk(After(s, t, now), After(s, t, now).tasks[t])
  {
    var k := s.tasks[t];
    var m := NextMove(s.db, t, k, now);
    assert ReleaserOk(s, k) && WebhookOk(k);
    if m.effect.ChangeOrder? {
      ChangeMoveOk(s, t, now);
    } else {
      if k.Sweeping? {
        SweepMoveOk(s, t, k);
      } else if k.Releasing? {
        ReleaseMoveOk(s, k);
      } else {
        OtherMoveOk(s, t, k, now);
      }
      ReleaserStays(s, t, now, m.next);
    }
  }

  lemma TasksKept(s: State, t: nat, now: int)
    requires Inv(s) && t < |s.tasks|
    ensures TasksOk(After(s, t, now))
  {
    var s' := After(s, t, now);
    forall i | 0 <= i < |s'.tasks|
      ensures MakerOk(s', i) && ReleaserOk(s', s'.tasks[i])
    {
      assert MakerOk(s, i) && ReleaserOk(s, s.tasks[i]);
      CheckoutsEnd(s.db, t, s.tasks[t], now);
      OnlyCheckoutsGoOn(s.db, t, s.tasks[t], now);
      if i == t {
        OwnReleaserKept(s, t, now);
        if s'.tasks[t].Checkout? {
          OwnRowsKept(s, t, now);
          OwnLinksKept(s, t, now);
          OwnHoldsKept(s, t, now);
          OwnUnturnedKept(s, t, now);
        }
      } else {
        ReleaserStays(s, t, now, s.tasks[i]);
        if s.tasks[i].Checkout? { OtherMakerKept(s, t, now, i); }
      }
    }
  }

  lemma OrdersOkKept(s: State, t: nat, now: int)
    requires Inv(s) && t < |s.tasks|
    ensures OrdersOk(After(s, t, now))
  {
    forall o | 0 <= o < |After(s, t, now).db.orders|
      ensures Known(After(s, t, now), o) && Linked(After(s, t, now), o) && Stands(After(s, t, now), o)
              && Drains(After(s, t, now), o)
    {
      KnownKept(s, t, now, o);
      LinkedKept(s, t, now, o);
      StandsKept(s, t, now, o);
      DrainsKept(s, t, now, o);
    }
  }

  lemma BaseKept(s: State, a: Action)
    requires Base(s)
    ensures Base(Step(s, a))
  {
    ShapesKept(s, a);
    FlipDownKept(s, a);
    PlacedKept(s, a);
    WebhooksKept(s, a);
    OrdersKept(s, a);
  }

  lemma RunKeepsInv(s: State, t: nat, now: int)
    requires Inv(s) && t < |s.tasks|
    ensures Inv(After(s, t, now))
  {
    BaseKept(s, RunTask(t, now));
    RowsKept(s, t, now);
    TasksKept(s, t, now);
    OrdersOkKept(s, t, now);
  }

  // ---------------------------------------------------------------- the other actions

  /** A call that throws, a new request or a lock timeout changes no row, no order, and who is touched only upwards. */
  predicate Quiet(s: State, s': State) {
    && s'.db == s.db && s.touched <= s'.touched && |s.tasks| <= |s'.tasks|
    && (forall t :: 0 <= t < |s.tasks| ==>
          || s'.tasks[t] == s.tasks[t]
          || (s.tasks[t].Checkout? && s'.tasks[t] == s.tasks[t].(at := Undoing))
          || (s'.tasks[t].Finished? && !s.tasks[t].Checkout? && !s.tasks[t].Releasing?))
    && (forall t :: |s.tasks| <= t < |s'.tasks| ==>
          && !s'.tasks[t].Releasing? && !s'.tasks[t].Finished?
          && ReleaserOk(s', s'.tasks[t])
          && (s'.tasks[t].Checkout? ==>
                && s'.tasks[t].at == ReadCart && s'.tasks[t].held == [] && s'.tasks[t].items == []
                && s'.tasks[t].undo == []))
  }

  lemma QuietRows(s: State, s': State)
    requires Inv(s) && Quiet(s, s')
    ensures RowsOk(s')
  {
    forall r | 0 <= r < |s'.db.reservations|
      ensures RowOk(s', r)
    {
      assert RowOk(s, r);
    }
  }

  lemma QuietOrders(s: State, s': State)
    requires Inv(s) && Quiet(s, s')
    ensures OrdersOk(s')
  {
    forall o | 0 <= o < |s'.db.orders|
      ensures Known(s', o) && Linked(s', o) && Stands(s', o) && Drains(s', o)
    {
      assert Known(s, o) && Linked(s, o) && Stands(s, o) && Drains(s, o);
      if OrderAt(s.db, o).Some? && MustRelease(OrderAt(s.db, o).value)
         && OrderAt(s.db, o).value.checkout !in s'.touched {
        forall r | 0 <= r < |s'.db.reservations| && ActiveFor(s'.db.reservations[r], o)
          ensures Covered(s', o, r)
        {
          var t :| 0 <= t < |s.tasks| && Covers(s.tasks[t], o, r);
          assert Covers(s'.tasks[t], o, r);
        }
      }
    }
  }

  lemma QuietSweep(s: State, s': State, w: Sweep)
    requires Inv(s) && Quiet(s, s') && SweepOk(s, w)
    ensures SweepOk(s', w)
  {
  }

  lemma QuietTasks(s: State, s': State)
    requires Inv(s) && Quiet(s, s')
    ensures TasksOk(s')
  {
    forall t | 0 <= t < |s'.tasks|
      ensures MakerOk(s', t) && ReleaserOk(s', s'.tasks[t])
    {
      if t < |s.tasks| {
        assert MakerOk(s, t) && ReleaserOk(s, s.tasks[t]);
        match s.tasks[t]
        case Releasing(_, _, _, after) => if after.KeepSweeping? { QuietSweep(s, s', after.sweep); }
        case Sweeping(w, _) => QuietSweep(s, s', w);
        case SweepLooking(_, w) => QuietSweep(s, s', w);
        case SweepCommitting(_, w) => QuietSweep(s, s', w);
        case _ =>
      } else {
        forall r | 0 <= r < |s'.db.reservations|
          ensures s'.db.reservations[r].checkout != t
        {
          assert RowOk(s, r);
        }
      }
    }
  }

  /** A sweep that starts has caught every unlinked row it lists. */
  lemma NewSweepOk(s: State, now: int, batch: seq<nat>)
    requires Inv(s) && IsBatch(s.db, now, batch)
    ensures SweepOk(Step(s, StartSweep(now, batch)), Sweep(now, Expiries(s.db, batch), {}))
  {
    var s' := Step(s, StartSweep(now, batch));
    forall i | 0 <= i < |batch|
      ensures match s.db.reservations[batch[i]].order case Some(o) => o < |s.db.orders| case None => Loose(s', batch[i])
    {
      assert RowOk(s, batch[i]);
    }
  }

  lemma QuietFailure(s: State, t: nat)
    requires Inv(s)
    ensures Quiet(s, Step(s, FailTask(t)))
  {
  }

  lemma QuietAction(s: State, a: Action)
    requires Inv(s) && !a.RunTask?
    ensures Quiet(s, Step(s, a))
  {
    if a.FailTask? {
      QuietFailure(s, a.task);
    } else if a.StartSweep? && IsBatch(s.db, a.now, a.batch) {
      NewSweepOk(s, a.now, a.batch);
    }
  }

  lemma StepKeepsInv(s: State, a: Action)
    requires Inv(s)
    ensures Inv(Step(s, a))
  {
    if a.RunTask? {
      if a.task < |s.tasks| { RunKeepsInv(s, a.task, a.now); }
    } else {
      BaseKept(s, a);
      QuietAction(s, a);
      QuietRows(s, Step(s, a));
      QuietOrders(s, Step(s, a));
      QuietTasks(s, Step(s, a));
    }
  }
}
