/**
 * The books of the shop: what standing orders hold, and what that leaves on the shelves once nothing is
 * under way.
 */
module Books {
  import opened Wrappers
  import opened Orders
  import opened Sums
  import opened Store
  import opened Protocol
  import opened Conservation
  import opened RefundEvents
  import opened Standing

  // ---------------------------------------------------------------- rows add up to lines

  predicate Booked(s: State, product: int) {
    && (forall t :: 0 <= t < |s.tasks| ==> Gauged(s, t, product))
    && (forall o :: 0 <= o < |s.db.orders| ==> Measured(s, o, product))
  }

  lemma WrittenAfter(s: State, t: nat, e: Effect, checkout: nat, product: int)
    requires EffectOk(s, t, e)
    ensures Sum(Effected(s.db, e).reservations, WrittenBy(checkout, product))
            == Sum(s.db.reservations, WrittenBy(checkout, product))
               + if e.AddRow? then WrittenBy(checkout, product)(e.row) else 0
  {
    var rows, rows' := s.db.reservations, Effected(s.db, e).reservations;
    NewRow(s, t, e);
    if e.AddRow? {
      SumAppend(rows, e.row, WrittenBy(checkout, product));
    } else {
      forall r | 0 <= r < |rows|
        ensures WrittenBy(checkout, product)(rows[r]) == WrittenBy(checkout, product)(rows'[r])
      {
        RowAfter(s, t, e, r);
      }
      SumSame(rows, rows', WrittenBy(checkout, product), WrittenBy(checkout, product));
    }
  }

  lemma ItemsFollow(db: Db, t: nat, k: Task, now: int)
    requires k.Checkout?
    ensures var m := MoveCheckout(db, t, k, now);
            && (m.effect.AddRow? ==>
                  && m.next.Checkout?
                  && m.next.items == k.items + [Item(m.effect.row.product, m.effect.row.quantity, k.unitCents)])
            && (!m.effect.AddRow? && m.next.Checkout? ==> m.next.items == k.items)
            && (m.effect.PlaceOrder? ==> m.effect.placedOrder.items == k.items)
  {
  }

  lemma OtherGauged(s: State, t: nat, m: Move, i: nat, product: int)
    requires t < |s.tasks| && i < |s.tasks| && i != t && EffectOk(s, t, m.effect) && Gauged(s, i, product)
    ensures Gauged(Perform(s, t, m), i, product)
  {
    WrittenAfter(s, t, m.effect, i, product);
  }

  lemma OwnGauged(s: State, t: nat, now: int, product: int)
    requires InFlight(s, t) && Gauged(s, t, product)
    requires EffectOk(s, t, MoveCheckout(s.db, t, s.tasks[t], now).effect)
    ensures Gauged(After(s, t, now), t, product)
  {
    var k := s.tasks[t];
    var e := MoveCheckout(s.db, t, k, now).effect;
    WrittenAfter(s, t, e, t, product);
    ItemsFollow(s.db, t, k, now);
    if e.AddRow? {
      SumAppend(k.items, Item(e.row.product, e.row.quantity, k.unitCents), ItemUnits(product));
    }
  }

  lemma GaugedKept(s: State, t: nat, now: int, i: nat, product: int)
    requires Inv(s) && Booked(s, product) && t < |s.tasks| && i < |s.tasks|
    ensures Gauged(After(s, t, now), i, product)
  {
    MoveEffectOk(s, t, now);
    OnlyCheckoutsGoOn(s.db, t, s.tasks[t], now);
    assert Gauged(s, i, product);
    if i != t {
      OtherGauged(s, t, NextMove(s.db, t, s.tasks[t], now), i, product);
    } else if s.tasks[t].Checkout? {
      OwnGauged(s, t, now, product);
    }
  }

  lemma MeasuredKept(s: State, t: nat, now: int, o: nat, product: int)
    requires Inv(s) && Booked(s, product) && t < |s.tasks|
    ensures Measured(After(s, t, now), o, product)
  {
    var k := s.tasks[t];
    var m := NextMove(s.db, t, k, now);
    MoveEffectOk(s, t, now);
    NewRow(s, t, m.effect);
    if k.Checkout? {
      ItemsFollow(s.db, t, k, now);
      WrittenAfter(s, t, m.effect, t, product);
      assert Gauged(s, t, product);
    }
    if OrderAt(s.db, o).Some? {
      assert Measured(s, o, product) && OrderOk(s.db.orders[o]);
      OrderAfter(s, t, m.effect, o);
      WrittenAfter(s, t, m.effect, s.db.orders[o].value.checkout, product);
    } else if o < |s.db.orders| {
      assert OrderOk(s.db.orders[o]);
      OrderAfter(s, t, m.effect, o);
    }
  }

  lemma NewTaskGauged(s: State, a: Action, product: int)
    requires Inv(s) && !a.RunTask? && |Step(s, a).tasks| > |s.tasks|
    ensures Gauged(Step(s, a), |s.tasks|, product)
  {
    forall r | 0 <= r < |s.db.reservations|
      ensures WrittenBy(|s.tasks|, product)(s.db.reservations[r]) == 0
    {
      assert RowOk(s, r);
    }
    SumZero(s.db.reservations, WrittenBy(|s.tasks|, product));
    QuietAction(s, a);
  }

  lemma RunBookedKept(s: State, t: nat, now: int, product: int)
    requires Inv(s) && Booked(s, product) && t < |s.tasks|
    ensures Booked(After(s, t, now), product)
  {
    var s' := After(s, t, now);
    forall i | 0 <= i < |s.tasks| ensures Gauged(s', i, product) { GaugedKept(s, t, now, i, product); }
    forall o | 0 <= o < |s'.db.orders| ensures Measured(s', o, product) { MeasuredKept(s, t, now, o, product); }
  }

  lemma QuietBookedKept(s: State, a: Action, product: int)
    requires Inv(s) && Booked(s, product) && !a.RunTask?
    ensures Booked(Step(s, a), product)
  {
    var s' := Step(s, a);
    QuietAction(s, a);
    forall i | 0 <= i < |s'.tasks|
      ensures Gauged(s', i, product)
    {
      if i < |s.tasks| {
        assert Gauged(s, i, product);
      } else {
        NewTaskGauged(s, a, product);
      }
    }
    forall o | 0 <= o < |s'.db.orders| ensures Measured(s', o, product) { assert Measured(s, o, product); }
  }

  lemma BookedKept(s: State, a: Action, product: int)
    requires Inv(s) && Booked(s, product)
    ensures Booked(Step(s, a), product)
  {
    if a.RunTask? {
      if a.task < |s.tasks| { RunBookedKept(s, a.task, a.now, product); }
    } else {
      QuietBookedKept(s, a, product);
    }
  }

  // ---------------------------------------------------------------- undisturbed checkouts return nothing twice

  /** Every row on the undo list of an undisturbed checkout is still active, and listed once. */
  predicate Fresh(s: State, t: nat)
    requires t < |s.tasks|
  {
    var k := s.tasks[t];
    k.Checkout? && t !in s.touched ==>
      && (forall i :: 0 <= i < |k.undo| && k.undo[i].DropReservation? ==>
            k.undo[i].id < |s.db.reservations| && Active(s.db.reservations[k.undo[i].id]))
      && (forall i, j :: 0 <= i < j < |k.undo| && k.undo[i].DropReservation? ==> k.undo[i] != k.undo[j])
  }

  predicate AllFresh(s: State) {
    forall t :: 0 <= t < |s.tasks| ==> Fresh(s, t)
  }

  lemma OwnFreshKept(s: State, t: nat, now: int)
    requires Inv(s) && AllFresh(s) && InFlight(s, t)
    ensures Fresh(After(s, t, now), t)
  {
    var k := s.tasks[t];
    var m := MoveCheckout(s.db, t, k, now);
    assert Fresh(s, t) && MakerOk(s, t);
    if m.next.Checkout? {
      CheckoutUndo(s.db, t, k, now);
      MoveEffectOk(s, t, now);
      FreshFollows(s, t, m);
    }
  }

  lemma FreshFollows(s: State, t: nat, m: Move)
    requires InFlight(s, t) && Fresh(s, t) && MakerOk(s, t) && EffectOk(s, t, m.effect)
    requires m.next.Checkout? && UndoFollows(s.db, t, s.tasks[t], m)
    requires !m.effect.FlipRow?
    ensures Fresh(Perform(s, t, m), t)
  {
    var k := s.tasks[t];
    var rows, rows' := s.db.reservations, Effected(s.db, m.effect).reservations;
    NewRow(s, t, m.effect);
    if t !in Perform(s, t, m).touched {
      forall i | 0 <= i < |m.next.undo| && m.next.undo[i].DropReservation?
        ensures m.next.undo[i].id < |rows'| && Active(rows'[m.next.undo[i].id])
      {
        if i < |k.undo| {
          assert m.next.undo[i] == k.undo[i];
          RowAfter(s, t, m.effect, k.undo[i].id);
        }
      }
      forall i, j | 0 <= i < j < |m.next.undo| && m.next.undo[i].DropReservation?
        ensures m.next.undo[i] != m.next.undo[j]
      {
        assert m.next.undo[i] == k.undo[i];
        if j < |k.undo| { assert m.next.undo[j] == k.undo[j]; }
      }
    }
  }

  /** A step of another request leaves the rows of an undisturbed checkout active. */
  lemma OtherFreshKept(s: State, i: nat, now: int, t: nat)
    requires t < |s.tasks| && Inv(s) && Fresh(s, t) && i < |s.tasks| && InFlight(s, t) && i != t
    ensures Fresh(After(s, i, now), t)
  {
    var s' := After(s, i, now);
    assert MakerOk(s, t);
    forall r | 0 <= r < |s.db.reservations| && s.db.reservations[r].checkout == t && t !in s'.touched
      ensures r < |s'.db.reservations| && (Active(s.db.reservations[r]) ==> Active(s'.db.reservations[r]))
    {
      OtherRows(s, i, now, t, r);
    }
  }

  lemma RunFreshKept(s: State, i: nat, now: int, t: nat)
    requires Inv(s) && AllFresh(s) && t < |s.tasks| && i < |s.tasks|
    ensures Fresh(After(s, i, now), t)
  {
    OnlyCheckoutsGoOn(s.db, i, s.tasks[i], now);
    assert Fresh(s, t);
    if InFlight(s, t) {
      if i == t {
        OwnFreshKept(s, t, now);
      } else {
        OtherFreshKept(s, i, now, t);
      }
    }
  }

  lemma QuietFreshKept(s: State, s': State, t: nat)
    requires Quiet(s, s') && t < |s'.tasks| && (t < |s.tasks| ==> Fresh(s, t))
    ensures Fresh(s', t)
  {
  }

  lemma FreshKept(s: State, a: Action)
    requires Inv(s) && AllFresh(s)
    ensures AllFresh(Step(s, a))
  {
    var s' := Step(s, a);
    if !a.RunTask? { QuietAction(s, a); }
    forall t | 0 <= t < |s'.tasks|
      ensures Fresh(s', t)
    {
      if a.RunTask? {
        assert t < |s.tasks| && Fresh(s, t);
        if a.task < |s.tasks| { RunFreshKept(s, a.task, a.now, t); }
      } else {
        QuietFreshKept(s, s', t);
      }
    }
  }

  /** An undisturbed checkout undoes only rows it still holds. */
  lemma OwnNotTwice(s: State, t: nat, now: int)
    requires Inv(s) && AllFresh(s) && InFlight(s, t) && t !in s.touched
    ensures Surplus(s.db, MoveCheckout(s.db, t, s.tasks[t], now).effect) == []
  {
    assert Fresh(s, t);
  }

  lemma OthersDropNothing(db: Db, t: nat, k: Task, now: int)
    requires !k.Checkout?
    ensures Surplus(db, NextMove(db, t, k, now).effect) == []
  {
  }

  lemma NothingTwice(s: State, a: Action)
    requires Inv(s) && AllFresh(s) && (s.touched == {} ==> s.extra == [])
    ensures s.touched <= Step(s, a).touched
    ensures Step(s, a).touched == {} ==> Step(s, a).extra == []
  {
    if a.RunTask? {
      if a.task < |s.tasks| && s.touched == {} {
        if s.tasks[a.task].Checkout? {
          OwnNotTwice(s, a.task, a.now);
        } else {
          OthersDropNothing(s.db, a.task, s.tasks[a.task], a.now);
        }
      }
    } else if a.FailTask? {
      assert Surplus(s.db, Nothing) == [];
    } else {
      StartsOnly(s, a);
    }
  }

  // ---------------------------------------------------------------- whole runs

  lemma {:induction false} RunBooks(s: State, actions: seq<Action>, product: int)
    requires Opening(s)
    ensures var s' := Steps(s, actions);
            Inv(s') && Booked(s', product) && AllFresh(s') && (s'.touched == {} ==> s'.extra == [])
  {
    if actions != [] {
      var n := |actions| - 1;
      var before := Steps(s, actions[..n]);
      RunBooks(s, actions[..n], product);
      StepKeepsInv(before, actions[n]);
      BookedKept(before, actions[n], product);
      FreshKept(before, actions[n]);
      NothingTwice(before, actions[n]);
    }
  }

  function HeldFor(order: nat, product: int): Reservation -> int {
    (r: Reservation) => if ActiveFor(r, order) && r.product == product then r.quantity else 0
  }

  /** Some request is still giving back the stock of the order. */
  predicate BeingReleased(s: State, o: nat) {
    exists t :: 0 <= t < |s.tasks| && s.tasks[t].Releasing? && s.tasks[t].order == o
  }

  /** What an order in the database is entitled to hold. */
  function Entitled(o: Option<Order>, product: int): int {
    if o.Some? && !MustRelease(o.value) then Sum(o.value.items, ItemUnits(product)) else 0
  }

  lemma CoverIsRelease(s: State, o: nat, r: nat)
    ensures Covered(s, o, r) ==> BeingReleased(s, o)
  {
    if Covered(s, o, r) {
      var t :| 0 <= t < |s.tasks| && Covers(s.tasks[t], o, r);
      assert s.tasks[t].Releasing? && s.tasks[t].order == o;
    }
  }

  lemma OrderHolds(s: State, o: nat, product: int)
    requires Inv(s) && Booked(s, product) && OrderAt(s.db, o).Some?
    requires Ended(s, OrderAt(s.db, o).value.checkout) && OrderAt(s.db, o).value.checkout !in s.touched
    requires MustRelease(OrderAt(s.db, o).value) ==> !BeingReleased(s, o)
    ensures Sum(s.db.reservations, HeldFor(o, product)) == Entitled(OrderAt(s.db, o), product)
    ensures !MustRelease(OrderAt(s.db, o).value) ==>
              forall r :: 0 <= r < |s.db.reservations| && s.db.reservations[r].order == Some(o) ==>
                Active(s.db.reservations[r])
    ensures MustRelease(OrderAt(s.db, o).value) ==>
              forall r :: 0 <= r < |s.db.reservations| && s.db.reservations[r].order == Some(o) ==>
                !Active(s.db.reservations[r])
  {
    var order := OrderAt(s.db, o).value;
    assert Known(s, o) && Linked(s, o) && Stands(s, o) && Drains(s, o) && Measured(s, o, product);
    forall r | 0 <= r < |s.db.reservations|
      ensures s.db.reservations[r].order == Some(o) <==> s.db.reservations[r].checkout == order.checkout
      ensures MustRelease(order) && s.db.reservations[r].order == Some(o) ==> !Active(s.db.reservations[r])
    {
      assert RowOk(s, r);
      CoverIsRelease(s, o, r);
    }
    if MustRelease(order) {
      SumZero(s.db.reservations, HeldFor(o, product));
    } else {
      SumSame(s.db.reservations, s.db.reservations, HeldFor(o, product), WrittenBy(order.checkout, product));
    }
  }

  /**
   * In every state of every interleaving, take any order whose checkout is over and was left alone. If
   * it stands, all its reservations are active and, product by product, add up to its lines. If it was
   * cancelled, failed or refunded, then once nobody is releasing it any more it holds nothing.
   */
  lemma {:induction false} OrdersHoldTheirLines(s: State, actions: seq<Action>, o: nat, product: int)
    requires Opening(s)
    ensures var s' := Steps(s, actions);
            OrderAt(s'.db, o).Some? && Ended(s', OrderAt(s'.db, o).value.checkout)
            && OrderAt(s'.db, o).value.checkout !in s'.touched ==>
              var order := OrderAt(s'.db, o).value;
              && (!MustRelease(order) ==>
                    && (forall r :: 0 <= r < |s'.db.reservations| && s'.db.reservations[r].order == Some(o) ==>
                        Active(s'.db.reservations[r]))
                    && Sum(s'.db.reservations, HeldFor(o, product)) == Sum(order.items, ItemUnits(product)))
              && (MustRelease(order) && !BeingReleased(s', o) ==>
                    forall r :: 0 <= r < |s'.db.reservations| && s'.db.reservations[r].order == Some(o) ==>
                      !Active(s'.db.reservations[r]))
  {
    var s' := Steps(s, actions);
    RunBooks(s, actions, product);
    if OrderAt(s'.db, o).Some? && Ended(s', OrderAt(s'.db, o).value.checkout)
       && OrderAt(s'.db, o).value.checkout !in s'.touched
       && (MustRelease(OrderAt(s'.db, o).value) ==> !BeingReleased(s', o)) {
      OrderHolds(s', o, product);
    }
  }

  // ---------------------------------------------------------------- closing the books

  function HeldByOrders(rows: seq<Reservation>, n: nat, product: int): int {
    if n == 0 then 0 else HeldByOrders(rows, n - 1, product) + Sum(rows, HeldFor(n - 1, product))
  }

  lemma {:induction false} OneMoreRow(rows: seq<Reservation>, n: nat, product: int)
    requires rows != []
    ensures var row := rows[|rows| - 1];
            HeldByOrders(rows, n, product) == HeldByOrders(rows[..|rows| - 1], n, product)
                                              + if row.order.Some? && row.order.value < n then Holding(product)(row)
                                                else 0
  {
    if n > 0 {
      OneMoreRow(rows, n - 1, product);
    }
  }

  lemma {:induction false} NoRows(n: nat, product: int)
    ensures HeldByOrders([], n, product) == 0
  {
    if n > 0 {
      NoRows(n - 1, product);
    }
  }

  /** Active rows, counted order by order, are all the active rows. */
  lemma {:induction false} CountByOrder(rows: seq<Reservation>, n: nat, product: int)
    requires forall r :: 0 <= r < |rows| && Active(rows[r]) ==> rows[r].order.Some? && rows[r].order.value < n
    ensures Sum(rows, Holding(product)) == HeldByOrders(rows, n, product)
  {
    if rows == [] {
      NoRows(n, product);
    } else {
      CountByOrder(rows[..|rows| - 1], n, product);
      OneMoreRow(rows, n, product);
    }
  }

  function EntitledTo(product: int): Option<Order> -> int {
    (o: Option<Order>) => Entitled(o, product)
  }

  lemma {:induction false} EntitlementsAdd(s: State, n: nat, product: int)
    requires n <= |s.db.orders|
    requires forall o :: 0 <= o < n ==> Sum(s.db.reservations, HeldFor(o, product)) == Entitled(s.db.orders[o], product)
    ensures HeldByOrders(s.db.reservations, n, product) == Sum(s.db.orders[..n], EntitledTo(product))
  {
    if n > 0 {
      EntitlementsAdd(s, n - 1, product);
      assert s.db.orders[..n][..n - 1] == s.db.orders[..n - 1];
    }
  }

  /** Nothing is under way. */
  predicate AtRest(s: State) {
    forall t :: 0 <= t < |s.tasks| ==> s.tasks[t].Finished?
  }

  lemma DeletedHoldsNothing(s: State, o: nat, product: int)
    requires Inv(s) && AtRest(s) && o < |s.db.orders| && s.db.orders[o].None?
    ensures Sum(s.db.reservations, HeldFor(o, product)) == 0
  {
    forall r | 0 <= r < |s.db.reservations|
      ensures HeldFor(o, product)(s.db.reservations[r]) == 0
    {
      assert RowOk(s, r);
    }
    SumZero(s.db.reservations, HeldFor(o, product));
  }

  /**
   * Whatever raced with whatever: when nothing is under way and no running checkout was disturbed, the
   * shelf of each product holds its opening stock less the lines of the orders that stand. So stock is
   * a function of the order documents alone, however often webhooks were delivered and in whatever order.
   */
  lemma {:induction false} BooksClose(s: State, actions: seq<Action>, product: int)
    requires Opening(s) && product in s.db.products
    ensures var s' := Steps(s, actions);
            AtRest(s') && s'.touched == {} ==>
              StockOf(s'.db, product) == StockOf(s.db, product) - Sum(s'.db.orders, EntitledTo(product))
  {
    var s' := Steps(s, actions);
    RunBooks(s, actions, product);
    StockConserved(s, actions, product);
    if AtRest(s') && s'.touched == {} {
      SumZero(s'.tasks, Owed(product));
      forall o | 0 <= o < |s'.db.orders|
        ensures Sum(s'.db.reservations, HeldFor(o, product)) == Entitled(s'.db.orders[o], product)
      {
        if s'.db.orders[o].Some? {
          assert Known(s', o);
          OrderHolds(s', o, product);
        } else {
          DeletedHoldsNothing(s', o, product);
        }
      }
      forall r | 0 <= r < |s'.db.reservations| && Active(s'.db.reservations[r])
        ensures s'.db.reservations[r].order.Some? && s'.db.reservations[r].order.value < |s'.db.orders|
      {
        assert RowOk(s', r);
      }
      CountByOrder(s'.db.reservations, |s'.db.orders|, product);
      EntitlementsAdd(s', |s'.db.orders|, product);
      assert s'.db.orders[..|s'.db.orders|] == s'.db.orders;
    }
  }

  /** Without a disturbed checkout, conservation is exact in every state, at rest or not. */
  lemma {:induction false} ConservedUntouched(s: State, actions: seq<Action>, product: int)
    requires Opening(s) && product in s.db.products
    ensures var s' := Steps(s, actions);
            s'.touched == {} ==>
              StockOf(s'.db, product) + Held(s', product) + InHands(s', product) == StockOf(s.db, product)
  {
    RunBooks(s, actions, product);
    StockConserved(s, actions, product);
  }

  // ---------------------------------------------------------------- atomic checkouts

  /** A transaction: from its first call to its end nothing else happens. */
  ghost predicate AtomicCheckouts(s: State, actions: seq<Action>) {
    forall i, c :: 0 <= i < |actions| && InFlight(Steps(s, actions[..i]), c) ==>
      (actions[i].RunTask? || actions[i].FailTask?) && actions[i].task == c
  }

  /** With transactions no running checkout can be disturbed, so all of the above holds without exception. */
  lemma {:induction false} TransactionsDisturbNothing(s: State, actions: seq<Action>)
    requires Opening(s) && AtomicCheckouts(s, actions)
    ensures Steps(s, actions).touched == {} && Steps(s, actions).extra == []
  {
    if actions != [] {
      var n := |actions| - 1;
      var before := Steps(s, actions[..n]);
      forall i, c | 0 <= i < n && InFlight(Steps(s, actions[..n][..i]), c)
        ensures (actions[..n][i].RunTask? || actions[..n][i].FailTask?) && actions[..n][i].task == c
      {
        assert actions[..n][..i] == actions[..i];
      }
      TransactionsDisturbNothing(s, actions[..n]);
      assert forall c :: InFlight(before, c) ==> (actions[n].RunTask? || actions[n].FailTask?) && actions[n].task == c;
      AtomicStep(before, actions[n]);
      RunBooks(s, actions, 0);
    }
  }

  lemma AtomicStep(s: State, a: Action)
    requires s.touched == {}
    requires forall c :: InFlight(s, c) ==> (a.RunTask? || a.FailTask?) && a.task == c
    ensures Step(s, a).touched == {}
  {
    if a.RunTask? && a.task < |s.tasks| {
      var e := NextMove(s.db, a.task, s.tasks[a.task], a.now).effect;
      assert s.tasks[a.task].Checkout? ==> !e.FlipRow? && !e.ChangeOrder?;
    }
  }
}
