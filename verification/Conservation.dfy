/**
 * Conservation of stock over every interleaving: what is on the shelf, what reservations hold and what
 * half-finished requests owe the shelf add up to the opening stock, plus the units that a checkout's
 * unguarded undo returned a second time.
 */
module Conservation {
  import opened Wrappers
  import opened Sums
  import opened Store
  import opened Protocol

  // ---------------------------------------------------------------- the undo list of a running checkout

  function Top(undo: seq<Undo>): Option<Undo> {
    if undo == [] then None else Some(undo[|undo| - 1])
  }

  /** What lies directly below an entry of the undo list. */
  predicate RestsOn(rows: seq<Reservation>, u: Undo, below: Option<Undo>) {
    match u
    case ReturnUnits(_, _) => below.None? || below.value.DropReservation?
    case DropReservation(id) => id < |rows| && below == Some(ReturnUnits(rows[id].product, rows[id].quantity))
    case ReturnUse(_) => below.Some? && below.value.DropReservation?
    case RemoveOrder(_) => below.Some? && (below.value.DropReservation? || below.value.ReturnUse?)
  }

  predicate StackOk(rows: seq<Reservation>, undo: seq<Undo>) {
    forall i :: 0 <= i < |undo| ==> RestsOn(rows, undo[i], Top(undo[..i]))
  }

  /** Where a checkout is tells what it undoes first. */
  predicate TopFits(k: Task)
    requires k.Checkout?
  {
    && |k.held| <= |k.lines| && |k.items| == |k.held|
    && match k.at
       case ReadCart => k.undo == [] && k.held == []
       case Take => k.lines != [] && (if k.held == [] then k.undo == []
                                      else Top(k.undo).Some? && Top(k.undo).value.DropReservation?)
       case Insert =>
         && |k.held| < |k.lines|
         && Top(k.undo) == Some(ReturnUnits(k.lines[|k.held|].product, k.lines[|k.held|].quantity))
       case Validate => |k.held| == |k.lines| && Top(k.undo).Some? && Top(k.undo).value.DropReservation?
       case Claim => k.coupon.Some? && |k.held| == |k.lines| && Top(k.undo).Some? && Top(k.undo).value.DropReservation?
       case Create =>
         && |k.held| == |k.lines| && Top(k.undo).Some?
         && (if k.coupon.Some? then Top(k.undo).value == ReturnUse(k.coupon.value)
             else Top(k.undo).value.DropReservation?)
       case Undoing => true
       case _ =>
         && |k.held| == |k.lines| && k.placed.Some? && Top(k.undo) == Some(RemoveOrder(k.placed.value))
         && (k.at == Redeem ==> k.coupon.Some?)
  }

  predicate CheckoutShape(s: State, k: Task) {
    k.Checkout? ==> StackOk(s.db.reservations, k.undo) && TopFits(k)
  }

  predicate Shapes(s: State) {
    forall t :: 0 <= t < |s.tasks| ==> CheckoutShape(s, s.tasks[t])
  }

  /** Reservation rows are only appended, and their product and quantity never change. */
  predicate RowsGrow(rows: seq<Reservation>, rows': seq<Reservation>) {
    && |rows| <= |rows'|
    && forall i :: 0 <= i < |rows| ==>
         && rows'[i].product == rows[i].product && rows'[i].quantity == rows[i].quantity
         && rows'[i].checkout == rows[i].checkout && rows'[i].user == rows[i].user
  }

  lemma StackPush(rows: seq<Reservation>, rows': seq<Reservation>, undo: seq<Undo>, u: Undo)
    requires StackOk(rows, undo) && RowsGrow(rows, rows') && RestsOn(rows', u, Top(undo))
    ensures StackOk(rows', undo + [u]) && Top(undo + [u]) == Some(u)
  {
    var undo' := undo + [u];
    forall i | 0 <= i < |undo'|
      ensures RestsOn(rows', undo'[i], Top(undo'[..i]))
    {
      if i < |undo| {
        assert undo'[..i] == undo[..i];
        assert RestsOn(rows, undo[i], Top(undo[..i]));
      } else {
        assert undo'[..i] == undo;
      }
    }
  }

  lemma StackPop(rows: seq<Reservation>, rows': seq<Reservation>, undo: seq<Undo>)
    requires StackOk(rows, undo) && RowsGrow(rows, rows') && undo != []
    ensures StackOk(rows', undo[..|undo| - 1])
    ensures RestsOn(rows, undo[|undo| - 1], Top(undo[..|undo| - 1]))
  {
    var rest := undo[..|undo| - 1];
    forall i | 0 <= i < |rest|
      ensures RestsOn(rows', rest[i], Top(rest[..i]))
    {
      assert rest[..i] == undo[..i];
      assert RestsOn(rows, undo[i], Top(undo[..i]));
    }
  }

  lemma StackStays(rows: seq<Reservation>, rows': seq<Reservation>, undo: seq<Undo>)
    requires StackOk(rows, undo) && RowsGrow(rows, rows')
    ensures StackOk(rows', undo)
  {
    forall i | 0 <= i < |undo|
      ensures RestsOn(rows', undo[i], Top(undo[..i]))
    {
      assert RestsOn(rows, undo[i], Top(undo[..i]));
    }
  }

  lemma RowsOnlyGrow(db: Db, e: Effect)
    ensures RowsGrow(db.reservations, Effected(db, e).reservations)
  {
  }

  predicate ShapedAfter(db: Db, m: Move) {
    m.next.Checkout? ==> StackOk(Effected(db, m.effect).reservations, m.next.undo) && TopFits(m.next)
  }

  lemma TakeShape(db: Db, t: nat, k: Task, now: int)
    requires k.Checkout? && StackOk(db.reservations, k.undo) && TopFits(k) && k.at == Take
    ensures ShapedAfter(db, MoveCheckout(db, t, k, now))
  {
    var m := MoveCheckout(db, t, k, now);
    RowsOnlyGrow(db, m.effect);
    if |m.next.undo| > |k.undo| {
      StackPush(db.reservations, Effected(db, m.effect).reservations, k.undo, m.next.undo[|k.undo|]);
    } else {
      StackStays(db.reservations, Effected(db, m.effect).reservations, k.undo);
    }
  }

  lemma InsertShape(db: Db, t: nat, k: Task, now: int)
    requires k.Checkout? && StackOk(db.reservations, k.undo) && TopFits(k) && k.at == Insert
    ensures ShapedAfter(db, MoveCheckout(db, t, k, now))
  {
    var m := MoveCheckout(db, t, k, now);
    RowsOnlyGrow(db, m.effect);
    StackPush(db.reservations, Effected(db, m.effect).reservations, k.undo, m.next.undo[|k.undo|]);
  }

  lemma ClaimShape(db: Db, t: nat, k: Task, now: int)
    requires k.Checkout? && StackOk(db.reservations, k.undo) && TopFits(k) && k.at == Claim
    ensures ShapedAfter(db, MoveCheckout(db, t, k, now))
  {
    var m := MoveCheckout(db, t, k, now);
    RowsOnlyGrow(db, m.effect);
    if |m.next.undo| > |k.undo| {
      StackPush(db.reservations, Effected(db, m.effect).reservations, k.undo, m.next.undo[|k.undo|]);
    } else {
      StackStays(db.reservations, Effected(db, m.effect).reservations, k.undo);
    }
  }

  lemma CreateShape(db: Db, t: nat, k: Task, now: int)
    requires k.Checkout? && StackOk(db.reservations, k.undo) && TopFits(k) && k.at == Create
    ensures ShapedAfter(db, MoveCheckout(db, t, k, now))
  {
    var m := MoveCheckout(db, t, k, now);
    RowsOnlyGrow(db, m.effect);
    StackPush(db.reservations, Effected(db, m.effect).reservations, k.undo, m.next.undo[|k.undo|]);
  }

  lemma OtherShape(db: Db, t: nat, k: Task, now: int)
    requires k.Checkout? && StackOk(db.reservations, k.undo) && TopFits(k) && k.at !in {Take, Insert, Claim, Create}
    ensures ShapedAfter(db, MoveCheckout(db, t, k, now))
  {
    var m := MoveCheckout(db, t, k, now);
    RowsOnlyGrow(db, m.effect);
    if k.at == Undoing && k.undo != [] {
      StackPop(db.reservations, Effected(db, m.effect).reservations, k.undo);
    } else if m.next.Checkout? {
      StackStays(db.reservations, Effected(db, m.effect).reservations, k.undo);
    }
  }

  lemma OnlyCheckoutsGoOn(db: Db, t: nat, k: Task, now: int)
    ensures NextMove(db, t, k, now).next.Checkout? ==> k.Checkout?
  {
  }

  lemma MoveShape(s: State, t: nat, now: int)
    requires Shapes(s) && t < |s.tasks|
    ensures ShapedAfter(s.db, NextMove(s.db, t, s.tasks[t], now))
  {
    var k := s.tasks[t];
    OnlyCheckoutsGoOn(s.db, t, k, now);
    if k.Checkout? {
      assert CheckoutShape(s, k);
      match k.at
      case Take => TakeShape(s.db, t, k, now);
      case Insert => InsertShape(s.db, t, k, now);
      case Claim => ClaimShape(s.db, t, k, now);
      case Create => CreateShape(s.db, t, k, now);
      case _ => OtherShape(s.db, t, k, now);
    }
  }

  lemma PerformKeepsShapes(s: State, t: nat, m: Move)
    requires Shapes(s) && t < |s.tasks|
    requires ShapedAfter(s.db, m)
    ensures Shapes(Perform(s, t, m))
  {
    var s' := Perform(s, t, m);
    RowsOnlyGrow(s.db, m.effect);
    forall i | 0 <= i < |s'.tasks|
      ensures CheckoutShape(s', s'.tasks[i])
    {
      assert CheckoutShape(s, s.tasks[i]);
      if i != t && s.tasks[i].Checkout? {
        StackStays(s.db.reservations, s'.db.reservations, s.tasks[i].undo);
      }
    }
  }

  lemma ShapesKept(s: State, a: Action)
    requires Shapes(s)
    ensures Shapes(Step(s, a))
  {
    if a.RunTask? && a.task < |s.tasks| {
      MoveShape(s, a.task, a.now);
      PerformKeepsShapes(s, a.task, NextMove(s.db, a.task, s.tasks[a.task], a.now));
    } else if a.FailTask? && a.task < |s.tasks| {
      assert CheckoutShape(s, s.tasks[a.task]);
      PerformKeepsShapes(s, a.task, Move(FailedTask(s.tasks[a.task]), Nothing));
    } else {
      forall i | 0 <= i < |Step(s, a).tasks|
        ensures CheckoutShape(Step(s, a), Step(s, a).tasks[i])
      {
        assert i < |s.tasks| ==> CheckoutShape(s, s.tasks[i]);
      }
    }
  }

  // ---------------------------------------------------------------- the books

  /** Units a request has taken off the shelf, or off a reservation, and not yet passed on. */
  function Owed(product: int): Task -> int {
    (k: Task) =>
      match k
      case Checkout(_, _, _, _, _, _, _, _, _, _, undo) =>
        if undo != [] && undo[|undo| - 1].ReturnUnits? && undo[|undo| - 1].product == product
        then undo[|undo| - 1].quantity else 0
      case Releasing(_, _, release, _) =>
        if release.Owing? && release.product == product then release.quantity else 0
      case Sweeping(_, owed) =>
        if owed.Some? && owed.value.product == product then owed.value.quantity else 0
      case _ => 0
  }

  function UnitsOf(product: int): Line -> int {
    (l: Line) => if l.product == product then l.quantity else 0
  }

  function Held(s: State, product: int): int {
    Sum(s.db.reservations, Holding(product))
  }

  function InHands(s: State, product: int): int {
    Sum(s.tasks, Owed(product))
  }

  function ReturnedTwice(s: State, product: int): int {
    Sum(s.extra, UnitsOf(product))
  }

  function Balance(s: State, product: int): int {
    StockOf(s.db, product) + Held(s, product) + InHands(s, product) - ReturnedTwice(s, product)
  }

  /** Change an effect makes to the shelf and to what reservations hold. */
  function ShelfChange(db: Db, e: Effect, product: int): int {
    if e.Shelve? && e.product == product then e.delta else 0
  }

  function HeldChange(db: Db, e: Effect, product: int): int {
    match e
    case AddRow(row) => Holding(product)(row)
    case FlipRow(id, _) => if id < |db.reservations| then -Holding(product)(db.reservations[id]) else 0
    case DropRow(id) => if id < |db.reservations| then -Holding(product)(db.reservations[id]) else 0
    case _ => 0
  }

  lemma EffectOnHeld(db: Db, e: Effect, product: int)
    requires e.FlipRow? ==> e.to !in ACTIVE
    ensures Sum(Effected(db, e).reservations, Holding(product))
            == Sum(db.reservations, Holding(product)) + HeldChange(db, e, product)
  {
    var rows, rows' := db.reservations, Effected(db, e).reservations;
    match e
    case AddRow(row) => SumAppend(rows, row, Holding(product));
    case FlipRow(id, to) =>
      if id < |rows| { SumUpdate(rows, id, rows[id].(status := to), Holding(product)); }
    case DropRow(id) =>
      if id < |rows| { SumUpdate(rows, id, rows[id].(status := Released), Holding(product)); }
    case CommitRows(_) => SumSame(rows, rows', Holding(product), Holding(product));
    case LinkRows(_, _) => SumSame(rows, rows', Holding(product), Holding(product));
    case _ =>
  }

  lemma EffectOnShelf(db: Db, e: Effect, product: int)
    requires product in db.products
    ensures Effected(db, e).products.Keys == db.products.Keys
    ensures StockOf(Effected(db, e), product) == StockOf(db, product) + ShelfChange(db, e, product)
  {
  }

  lemma EffectOnSurplus(s: State, e: Effect, product: int)
    ensures Sum(s.extra + Surplus(s.db, e), UnitsOf(product))
            == ReturnedTwice(s, product) + Sum(Surplus(s.db, e), UnitsOf(product))
  {
    var x := Surplus(s.db, e);
    if x == [] {
      assert s.extra + x == s.extra;
    } else {
      assert x == [x[0]];
      assert x[..0] == [];
      SumAppend(s.extra, x[0], UnitsOf(product));
    }
  }

  /** Releases and sweeps only ever leave a row inactive. */
  predicate FlipsDown(k: Task) {
    k.Releasing? ==> k.to !in ACTIVE
  }

  predicate AllFlipDown(s: State) {
    forall t :: 0 <= t < |s.tasks| ==> FlipsDown(s.tasks[t])
  }

  lemma FlipDownKept(s: State, a: Action)
    requires AllFlipDown(s)
    ensures AllFlipDown(Step(s, a))
  {
    if a.RunTask? && a.task < |s.tasks| {
      assert FlipsDown(s.tasks[a.task]);
      assert FlipsDown(NextMove(s.db, a.task, s.tasks[a.task], a.now).next);
    }
  }

  /** One move of one request keeps its own books. */
  predicate Balanced(db: Db, k: Task, m: Move, product: int) {
    && (m.effect.FlipRow? ==> m.effect.to !in ACTIVE)
    && ShelfChange(db, m.effect, product) + HeldChange(db, m.effect, product) + Owed(product)(m.next) - Owed(product)(k)
       == Sum(Surplus(db, m.effect), UnitsOf(product))
  }

  lemma SurplusSum(db: Db, e: Effect, product: int)
    ensures Sum(Surplus(db, e), UnitsOf(product))
            == if e.DropRow? && e.id < |db.reservations| && !Active(db.reservations[e.id])
                  && db.reservations[e.id].product == product
               then db.reservations[e.id].quantity else 0
  {
    if Surplus(db, e) != [] {
      assert Surplus(db, e)[..0] == [];
    }
  }

  lemma TakeBalances(db: Db, t: nat, k: Task, now: int, product: int)
    requires k.Checkout? && TopFits(k) && k.at == Take
    ensures Balanced(db, k, MoveCheckout(db, t, k, now), product)
  {
    SurplusSum(db, MoveCheckout(db, t, k, now).effect, product);
  }

  lemma InsertBalances(db: Db, t: nat, k: Task, now: int, product: int)
    requires k.Checkout? && TopFits(k) && k.at == Insert
    ensures Balanced(db, k, MoveCheckout(db, t, k, now), product)
  {
    SurplusSum(db, MoveCheckout(db, t, k, now).effect, product);
  }

  lemma RestBalances(db: Db, t: nat, k: Task, now: int, product: int)
    requires k.Checkout? && TopFits(k) && k.at !in {Take, Insert, Undoing}
    ensures Balanced(db, k, MoveCheckout(db, t, k, now), product)
  {
    SurplusSum(db, MoveCheckout(db, t, k, now).effect, product);
  }

  lemma CheckoutBalances(db: Db, t: nat, k: Task, now: int, product: int)
    requires k.Checkout? && TopFits(k) && k.at != Undoing
    ensures Balanced(db, k, MoveCheckout(db, t, k, now), product)
  {
    if k.at == Take {
      TakeBalances(db, t, k, now, product);
    } else if k.at == Insert {
      InsertBalances(db, t, k, now, product);
    } else {
      RestBalances(db, t, k, now, product);
    }
  }

  /** What a checkout with this undo entry on top has in its hands. */
  function OwedFor(u: Option<Undo>, product: int): int {
    if u.Some? && u.value.ReturnUnits? && u.value.product == product then u.value.quantity else 0
  }

  lemma EntryBalances(db: Db, u: Undo, below: Option<Undo>, product: int)
    requires RestsOn(db.reservations, u, below)
    ensures var e := UndoEffect(u);
            ShelfChange(db, e, product) + HeldChange(db, e, product) + OwedFor(below, product)
              - OwedFor(Some(u), product)
            == Sum(Surplus(db, e), UnitsOf(product))
  {
    SurplusSum(db, UndoEffect(u), product);
  }

  lemma UndoBalances(db: Db, t: nat, k: Task, now: int, product: int)
    requires k.Checkout? && StackOk(db.reservations, k.undo) && k.at == Undoing
    ensures Balanced(db, k, MoveCheckout(db, t, k, now), product)
  {
    if k.undo == [] {
      SurplusSum(db, Nothing, product);
    } else {
      var n := |k.undo| - 1;
      StackPop(db.reservations, db.reservations, k.undo);
      EntryBalances(db, k.undo[n], Top(k.undo[..n]), product);
      assert Owed(product)(k) == OwedFor(Some(k.undo[n]), product);
      assert Owed(product)(k.(undo := k.undo[..n])) == OwedFor(Top(k.undo[..n]), product);
    }
  }

  lemma OthersBalance(db: Db, t: nat, k: Task, now: int, product: int)
    requires !k.Checkout? && FlipsDown(k)
    ensures Balanced(db, k, NextMove(db, t, k, now), product)
  {
    SurplusSum(db, NextMove(db, t, k, now).effect, product);
  }

  lemma MoveBalances(s: State, t: nat, now: int, product: int)
    requires Shapes(s) && AllFlipDown(s) && t < |s.tasks|
    ensures Balanced(s.db, s.tasks[t], NextMove(s.db, t, s.tasks[t], now), product)
  {
    var k := s.tasks[t];
    assert CheckoutShape(s, k) && FlipsDown(k);
    if k.Checkout? {
      if k.at == Undoing {
        UndoBalances(s.db, t, k, now, product);
      } else {
        CheckoutBalances(s.db, t, k, now, product);
      }
    } else {
      OthersBalance(s.db, t, k, now, product);
    }
  }

  lemma PerformBalances(s: State, t: nat, m: Move, product: int)
    requires t < |s.tasks| && product in s.db.products
    requires Balanced(s.db, s.tasks[t], m, product)
    ensures Balance(Perform(s, t, m), product) == Balance(s, product)
    ensures Perform(s, t, m).db.products.Keys == s.db.products.Keys
  {
    EffectOnHeld(s.db, m.effect, product);
    EffectOnShelf(s.db, m.effect, product);
    EffectOnSurplus(s, m.effect, product);
    SumUpdate(s.tasks, t, m.next, Owed(product));
  }

  lemma FailBalances(s: State, t: nat, product: int)
    requires t < |s.tasks| && product in s.db.products
    ensures Balanced(s.db, s.tasks[t], Move(FailedTask(s.tasks[t]), Nothing), product)
  {
    SurplusSum(s.db, Nothing, product);
  }

  lemma StartBalances(s: State, a: Action, product: int)
    requires !a.RunTask? && !a.FailTask?
    ensures Step(s, a).db == s.db && Balance(Step(s, a), product) == Balance(s, product)
  {
    var s' := Step(s, a);
    StartsOnly(s, a);
    if s'.tasks != s.tasks {
      SumAppend(s.tasks, s'.tasks[|s.tasks|], Owed(product));
    }
  }

  lemma StepBalances(s: State, a: Action, product: int)
    requires Shapes(s) && AllFlipDown(s) && product in s.db.products
    ensures Balance(Step(s, a), product) == Balance(s, product)
    ensures Step(s, a).db.products.Keys == s.db.products.Keys
  {
    match a
    case RunTask(t, now) =>
      if t < |s.tasks| {
        MoveBalances(s, t, now, product);
        PerformBalances(s, t, NextMove(s.db, t, s.tasks[t], now), product);
      }
    case FailTask(t) =>
      if t < |s.tasks| {
        FailBalances(s, t, product);
        PerformBalances(s, t, Move(FailedTask(s.tasks[t]), Nothing), product);
      }
    case _ => StartBalances(s, a, product);
  }

  // ---------------------------------------------------------------- never below zero

  predicate ShelvesFull(s: State) {
    forall p :: p in s.db.products ==> 0 <= s.db.products[p].stock
  }

  /** Only a guarded decrement takes units off a shelf. */
  lemma TakesGuarded(db: Db, t: nat, k: Task, now: int)
    ensures var e := NextMove(db, t, k, now).effect;
            e.Shelve? && e.delta < 0 ==> CanTake(db, e.product, -e.delta)
  {
  }

  lemma EffectKeepsShelves(db: Db, e: Effect)
    requires e.Shelve? && e.delta < 0 ==> CanTake(db, e.product, -e.delta)
    requires forall p :: p in db.products ==> 0 <= db.products[p].stock
    ensures forall p :: p in Effected(db, e).products ==> 0 <= Effected(db, e).products[p].stock
  {
  }

  lemma ShelvesKept(s: State, a: Action)
    requires ShelvesFull(s)
    ensures ShelvesFull(Step(s, a))
  {
    if a.RunTask? && a.task < |s.tasks| {
      TakesGuarded(s.db, a.task, s.tasks[a.task], a.now);
      EffectKeepsShelves(s.db, NextMove(s.db, a.task, s.tasks[a.task], a.now).effect);
    }
  }

  // ---------------------------------------------------------------- whole runs

  lemma {:induction false} RunShapes(s: State, actions: seq<Action>)
    requires Opening(s)
    ensures Shapes(Steps(s, actions)) && AllFlipDown(Steps(s, actions)) && ShelvesFull(Steps(s, actions))
  {
    if actions != [] {
      var n := |actions| - 1;
      RunShapes(s, actions[..n]);
      ShapesKept(Steps(s, actions[..n]), actions[n]);
      FlipDownKept(Steps(s, actions[..n]), actions[n]);
      ShelvesKept(Steps(s, actions[..n]), actions[n]);
    }
  }

  /**
   * In every state of every interleaving, the shelf, the active reservations and the hands of
   * half-finished requests together hold the opening stock plus whatever was returned twice; stock is
   * never negative, and the balance is exact precisely when nothing was returned twice.
   */
  lemma {:induction false} StockConserved(s: State, actions: seq<Action>, product: int)
    requires Opening(s) && product in s.db.products
    ensures var s' := Steps(s, actions);
            && product in s'.db.products && 0 <= StockOf(s'.db, product)
            && StockOf(s'.db, product) + Held(s', product) + InHands(s', product)
               == StockOf(s.db, product) + ReturnedTwice(s', product)
            && 0 <= Held(s', product) && 0 <= InHands(s', product) && 0 <= ReturnedTwice(s', product)
  {
    var s' := Steps(s, actions);
    if actions != [] {
      var n := |actions| - 1;
      StockConserved(s, actions[..n], product);
      RunShapes(s, actions[..n]);
      StepBalances(Steps(s, actions[..n]), actions[n], product);
    }
    RunShapes(s, actions);
    SumNonNegative(s'.db.reservations, Holding(product));
    SumNonNegative(s'.tasks, Owed(product));
    SumNonNegative(s'.extra, UnitsOf(product));
  }
}
