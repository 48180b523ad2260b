/**
 * The step system and the service agree on checkout: a checkout task that nobody interrupts does what the
 * service's method promises, and one that fails at any of its calls leaves the shop as it was.
 */
module Agreement {
  import opened Wrappers
  import opened Orders
  import opened Sums
  import opened Store
  import opened Protocol
  import Pricing
  import Service = Checkout

  /** The database and one task on its own. */
  datatype Lone = Lone(db: Db, k: Task)

  /** The buyer's request: its id, the user and the coupon code, all at one time. */
  datatype Buyer = Buyer(request: nat, user: int, code: Option<int>, now: int)

  function OneStep(x: Lone, b: Buyer): Lone {
    var m := NextMove(x.db, b.request, x.k, b.now);
    Lone(Effected(x.db, m.effect), m.next)
  }

  function Alone(x: Lone, b: Buyer, n: nat): Lone {
    if n == 0 then x else OneStep(Alone(x, b, n - 1), b)
  }

  function Start(before: Db, b: Buyer): Lone {
    Lone(before, Checkout(b.user, b.code, ReadCart, [], 0, 0, [], [], 0, None, []))
  }

  function Deadline(b: Buyer): int {
    b.now + RESERVATION_WINDOW
  }

  // ---------------------------------------------------------------- how far a checkout has come

  /** The first lines were on sale and are off the shelf, and the first rows are written. */
  predicate Reserved(before: Db, db: Db, b: Buyer, taken: seq<Line>, rows: seq<Line>) {
    && Service.TookLines(before, db, taken) && Service.OnSale(before, taken)
    && db.reservations == before.reservations + Service.RowsFor(b.request, b.user, Deadline(b), rows)
  }

  /** Nothing but products and reservations has changed. */
  predicate OnlyStock(before: Db, db: Db) {
    db == before.(products := db.products, reservations := db.reservations)
  }

  predicate Carries(before: Db, k: Task, b: Buyer)
    requires k.Checkout?
  {
    && k.user == b.user && k.coupon == b.code
    && (k.at != ReadCart ==> k.lines == CartOf(before, b.user) != [] && k.deadline == Deadline(b))
  }

  /** Items and held rows for the first lines. */
  predicate Lists(before: Db, k: Task, n: nat)
    requires k.Checkout? && n <= |k.lines|
  {
    Service.Priced(before, k.lines[..n], k.items) && k.held == Service.Ids(|before.reservations|, n)
  }

  predicate Valid(before: Db, k: Task, b: Buyer)
    requires k.Checkout?
  {
    match ValidateCoupon(before, b.code, b.user, Subtotal(k.items), b.now)
    case Ok(discount) => k.totalCents == Pricing.Max(Subtotal(k.items) - discount, 0)
    case Err(_) => false
  }

  function OrderOf(k: Task, b: Buyer): Order
    requires k.Checkout?
  {
    NewOrder(b.request, b.user, k.items, b.code, k.totalCents, b.now)
  }

  /** Everything reserved and validated, the coupon counted, before the order is written. */
  predicate Ready(before: Db, db: Db, k: Task, b: Buyer)
    requires k.Checkout?
  {
    && Lists(before, k, |k.lines|) && Reserved(before, db, b, k.lines, k.lines) && Valid(before, k, b)
    && (b.code.Some? ==> CanClaim(before, b.code.value))
    && db == Service.Claimed(before, b.code).(products := db.products, reservations := db.reservations)
  }

  /** The database after the order, the links and the redemption, as far as the stage says. */
  function Placed(d: Db, k: Task, b: Buyer): Db
    requires k.Checkout?
  {
    var order := OrderOf(k, b);
    var placed := InsertOrder(d, order);
    var linked := LinkReservations(placed, k.held, |d.orders|);
    match k.at
    case Link => placed
    case ClearCart =>
      if b.code.Some? then
        linked.(redemptions := linked.redemptions + [Redemption(b.code.value, b.user, |d.orders|)])
      else linked
    case _ => linked
  }

  predicate WasReady(before: Db, d: Db, x: Lone, b: Buyer)
    requires x.k.Checkout?
  {
    && Ready(before, d, x.k, b) && x.k.placed == Some(|before.orders|) && x.db == Placed(d, x.k, b)
    && (x.k.at == Redeem ==> b.code.Some?)
  }

  ghost predicate Far(before: Db, x: Lone, b: Buyer)
    requires x.k.Checkout?
  {
    var k, db := x.k, x.db;
    match k.at
    case ReadCart => db == before && k.held == [] && k.items == []
    case Take =>
      |k.held| <= |k.lines| && Lists(before, k, |k.held|) && OnlyStock(before, db)
      && Reserved(before, db, b, k.lines[..|k.held|], k.lines[..|k.held|])
    case Insert =>
      |k.held| < |k.lines| && Lists(before, k, |k.held|) && OnlyStock(before, db)
      && Reserved(before, db, b, k.lines[..|k.held| + 1], k.lines[..|k.held|])
      && k.lines[|k.held|].product in before.products
      && k.unitCents == Pricing.ToCents(before.products[k.lines[|k.held|].product].price)
    case Validate => Lists(before, k, |k.lines|) && OnlyStock(before, db) && Reserved(before, db, b, k.lines, k.lines)
    case Claim =>
      b.code.Some? && Lists(before, k, |k.lines|) && OnlyStock(before, db) && Reserved(before, db, b, k.lines, k.lines)
        && Valid(before, k, b)
    case Create => Ready(before, db, k, b)
    case Undoing => false
    case _ => exists d :: WasReady(before, d, x, b)
  }

  /** A checkout on its way, with an undo list that would restore the shop. */
  ghost predicate OnItsWay(before: Db, x: Lone, b: Buyer) {
    x.k.Checkout? && x.k.at != Undoing && Carries(before, x.k, b) && Far(before, x, b)
      && Service.Undoes(before, x.db, x.k.undo)
  }

  predicate GivingUp(before: Db, x: Lone) {
    x.k.Checkout? && x.k.at == Undoing && Service.Undoes(before, x.db, x.k.undo)
  }

  /** What the service demands of a purchase, before anything has happened. */
  predicate MayBuy(before: Db, b: Buyer) {
    Service.MayBuy(before, b.user, b.code, b.now)
  }

  /** The order is in, exactly as the service's method would have made it. */
  ghost predicate Done(before: Db, x: Lone, b: Buyer) {
    x.k.Finished? && MayBuy(before, b)
    && exists order :: Service.Bought(before, x.db, b.request, b.user, b.code, b.now, CartOf(before, b.user), order)
  }

  // ---------------------------------------------------------------- one step at a time

  lemma ReadStep(before: Db, x: Lone, b: Buyer)
    requires OnItsWay(before, x, b) && x.k.at == ReadCart
    ensures OnItsWay(before, OneStep(x, b), b) || GivingUp(before, OneStep(x, b))
  {
    var y := OneStep(x, b);
    if y.k.at == Take {
      assert y.k.lines[..0] == [];
      forall p | p in before.products
        ensures before.products[p] == before.products[p].(stock := before.products[p].stock
                                                          - Sum([], Service.LineUnits(p)))
      {
      }
      assert Service.RowsFor(b.request, b.user, Deadline(b), []) == [];
      assert Service.Ids(|before.reservations|, 0) == [];
    }
  }

  /** The line that comes next, when its units can be taken. */
  function TakenLine(x: Lone): Lone
    requires x.k.Checkout? && |x.k.held| < |x.k.lines| && x.k.lines[|x.k.held|].product in x.db.products
  {
    var line := x.k.lines[|x.k.held|];
    Lone(AddStock(x.db, line.product, -(line.quantity as int)),
         x.k.(at := Insert, unitCents := Pricing.ToCents(x.db.products[line.product].price),
              undo := x.k.undo + [ReturnUnits(line.product, line.quantity)]))
  }

  lemma TakesOneMore(before: Db, x: Lone, b: Buyer)
    requires OnItsWay(before, x, b) && x.k.at == Take && |x.k.held| < |x.k.lines|
    requires CanTake(x.db, x.k.lines[|x.k.held|].product, x.k.lines[|x.k.held|].quantity)
    ensures x.k.lines[|x.k.held|].product in before.products
    ensures Reserved(before, TakenLine(x).db, b, x.k.lines[..|x.k.held| + 1], x.k.lines[..|x.k.held|])
  {
    var line := x.k.lines[|x.k.held|];
    assert line.product in before.products;
    Service.TookOne(before, x.db, x.k.lines[..|x.k.held|], line);
    Service.OneMoreOnSale(before, x.db, x.k.lines[..|x.k.held|], line);
    Service.FirstLines(x.k.lines, |x.k.held|);
  }

  lemma TakeLine(before: Db, x: Lone, b: Buyer)
    requires OnItsWay(before, x, b) && x.k.at == Take && |x.k.held| < |x.k.lines|
    requires CanTake(x.db, x.k.lines[|x.k.held|].product, x.k.lines[|x.k.held|].quantity)
    ensures OnItsWay(before, TakenLine(x), b)
  {
    var line := x.k.lines[|x.k.held|];
    TakesOneMore(before, x, b);
    Service.TakeUndoes(before, x.db, x.k.undo, line.product, line.quantity);
  }

  lemma TakeMoves(x: Lone, b: Buyer)
    requires x.k.Checkout? && x.k.at == Take && OneStep(x, b).k.Checkout? && OneStep(x, b).k.at == Insert
    ensures |x.k.held| < |x.k.lines| && CanTake(x.db, x.k.lines[|x.k.held|].product, x.k.lines[|x.k.held|].quantity)
    ensures OneStep(x, b) == TakenLine(x)
  {
  }

  lemma TakeStep(before: Db, x: Lone, b: Buyer)
    requires OnItsWay(before, x, b) && x.k.at == Take
    ensures OnItsWay(before, OneStep(x, b), b) || GivingUp(before, OneStep(x, b))
  {
    if OneStep(x, b).k.at == Insert {
      TakeMoves(x, b);
      TakeLine(before, x, b);
    } else {
      assert x.k.lines[..|x.k.lines|] == x.k.lines;
    }
  }

  function InsertedRow(x: Lone, b: Buyer): Lone
    requires x.k.Checkout? && |x.k.held| < |x.k.lines|
  {
    var k, id := x.k, |x.db.reservations|;
    var line := k.lines[|k.held|];
    var row := Reservation(b.request, k.user, line.product, line.quantity, Store.Reserved, None, k.deadline);
    Lone(x.db.(reservations := x.db.reservations + [row]),
         k.(at := Take, held := k.held + [id], items := k.items + [Item(line.product, line.quantity, k.unitCents)],
            undo := k.undo + [DropReservation(id)]))
  }

  lemma HoldsOneMore(before: Db, x: Lone, b: Buyer)
    requires OnItsWay(before, x, b) && x.k.at == Insert && |x.k.held| < |x.k.lines|
    ensures |x.db.reservations| == |before.reservations| + |x.k.held|
    ensures Lists(before, InsertedRow(x, b).k, |x.k.held| + 1)
    ensures Reserved(before, InsertedRow(x, b).db, b, x.k.lines[..|x.k.held| + 1], x.k.lines[..|x.k.held| + 1])
  {
    var n := |x.k.held|;
    Service.FirstLines(x.k.lines, n);
    Service.OneMoreLine(b.request, b.user, Deadline(b), x.k.lines[..n], x.k.lines[n]);
    assert Service.Ids(|before.reservations|, n + 1)
           == Service.Ids(|before.reservations|, n) + [|before.reservations| + n];
  }

  lemma InsertRow(before: Db, x: Lone, b: Buyer)
    requires OnItsWay(before, x, b) && x.k.at == Insert && |x.k.held| < |x.k.lines|
    ensures OnItsWay(before, InsertedRow(x, b), b)
  {
    var line := x.k.lines[|x.k.held|];
    HoldsOneMore(before, x, b);
    Service.InsertUndoes(before, x.db, x.k.undo,
                         Reservation(b.request, b.user, line.product, line.quantity, Store.Reserved, None,
                                     Deadline(b)));
  }

  lemma InsertStep(before: Db, x: Lone, b: Buyer)
    requires OnItsWay(before, x, b) && x.k.at == Insert
    ensures OnItsWay(before, OneStep(x, b), b)
  {
    assert |x.k.held| < |x.k.lines| && OneStep(x, b) == InsertedRow(x, b);
    InsertRow(before, x, b);
  }

  lemma ValidateStep(before: Db, x: Lone, b: Buyer)
    requires OnItsWay(before, x, b) && x.k.at == Validate
    ensures OnItsWay(before, OneStep(x, b), b) || GivingUp(before, OneStep(x, b))
  {
    assert ValidateCoupon(x.db, b.code, b.user, Subtotal(x.k.items), b.now)
        == ValidateCoupon(before, b.code, b.user, Subtotal(x.k.items), b.now);
  }

  lemma ClaimUse(before: Db, x: Lone, b: Buyer)
    requires OnItsWay(before, x, b) && x.k.at == Claim && Service.CountersValid(before) && CanClaim(x.db, b.code.value)
    ensures OnItsWay(before, Lone(AddUse(x.db, b.code.value, 1),
                                  x.k.(at := Create, undo := x.k.undo + [ReturnUse(b.code.value)])), b)
  {
    Service.ClaimUndoes(before, x.db, x.k.undo, b.code.value);
  }

  lemma ClaimStep(before: Db, x: Lone, b: Buyer)
    requires OnItsWay(before, x, b) && x.k.at == Claim && Service.CountersValid(before)
    ensures OnItsWay(before, OneStep(x, b), b) || GivingUp(before, OneStep(x, b))
  {
    if CanClaim(x.db, b.code.value) { ClaimUse(before, x, b); }
  }

  function WithPlaced(x: Lone, b: Buyer): Lone
    requires x.k.Checkout?
  {
    var id := |x.db.orders|;
    Lone(InsertOrder(x.db, NewOrder(b.request, x.k.user, x.k.items, x.k.coupon, x.k.totalCents, b.now)),
         x.k.(at := Link, placed := Some(id), undo := x.k.undo + [RemoveOrder(id)]))
  }

  lemma JustPlaced(before: Db, x: Lone, b: Buyer)
    requires x.k.Checkout? && x.k.at == Create && x.k.user == b.user && x.k.coupon == b.code
    requires Ready(before, x.db, x.k, b)
    ensures WasReady(before, x.db, WithPlaced(x, b), b)
  {
  }

  lemma PlaceOrderRow(before: Db, x: Lone, b: Buyer)
    requires OnItsWay(before, x, b) && x.k.at == Create
    ensures OnItsWay(before, WithPlaced(x, b), b)
  {
    Service.CreateUndoes(before, x.db, x.k.undo, OrderOf(x.k, b));
    JustPlaced(before, x, b);
  }

  lemma CreateStep(before: Db, x: Lone, b: Buyer)
    requires OnItsWay(before, x, b) && x.k.at == Create
    ensures OnItsWay(before, OneStep(x, b), b)
  {
    assert OneStep(x, b) == WithPlaced(x, b);
    PlaceOrderRow(before, x, b);
  }

  function WithLinks(x: Lone): Lone
    requires x.k.Checkout? && x.k.placed.Some?
  {
    Lone(LinkReservations(x.db, x.k.held, x.k.placed.value), x.k.(at := if x.k.coupon.Some? then Redeem else ClearCart))
  }

  lemma LinkRow(before: Db, x: Lone, b: Buyer)
    requires OnItsWay(before, x, b) && x.k.at == Link && x.k.placed.Some?
    ensures OnItsWay(before, WithLinks(x), b)
  {
    var d :| WasReady(before, d, x, b);
    Service.LinkUndoes(before, x.db, x.k.undo, x.k.held, |before.orders|);
    assert WasReady(before, d, WithLinks(x), b);
  }

  lemma LinkStep(before: Db, x: Lone, b: Buyer)
    requires OnItsWay(before, x, b) && x.k.at == Link
    ensures OnItsWay(before, OneStep(x, b), b)
  {
    assert x.k.placed.Some? && OneStep(x, b) == WithLinks(x);
    LinkRow(before, x, b);
  }

  lemma RedeemRow(before: Db, x: Lone, b: Buyer, rs: seq<Redemption>)
    requires OnItsWay(before, x, b) && x.k.at == Redeem && x.k.placed.Some? && x.k.coupon.Some?
    requires rs == x.db.redemptions + [Redemption(x.k.coupon.value, x.k.user, x.k.placed.value)]
    ensures OnItsWay(before, Lone(x.db.(redemptions := rs), x.k.(at := ClearCart)), b)
  {
    var d :| WasReady(before, d, x, b);
    Service.RedeemUndoes(before, x.db, x.k.undo, rs);
    assert WasReady(before, d, Lone(x.db.(redemptions := rs), x.k.(at := ClearCart)), b);
  }

  lemma RedeemStep(before: Db, x: Lone, b: Buyer)
    requires OnItsWay(before, x, b) && x.k.at == Redeem
    ensures OnItsWay(before, OneStep(x, b), b)
  {
    assert x.k.placed.Some? && x.k.coupon.Some?;
    RedeemRow(before, x, b, OneStep(x, b).db.redemptions);
  }

  lemma ReadyIsBought(before: Db, d: Db, k: Task, b: Buyer)
    requires k.Checkout? && Carries(before, k, b) && k.at != ReadCart && Ready(before, d, k, b)
    ensures Service.Bought(before, Service.WithOrder(d, OrderOf(k, b), k.held), b.request, b.user, b.code, b.now,
                           CartOf(before, b.user), OrderOf(k, b))
  {
    var base := before.(products := d.products, reservations := d.reservations);
    assert k.lines[..|k.lines|] == k.lines;
    assert d == Service.Claimed(base, b.code);
    Service.WithOrderIsBought(before, base, b.request, b.user, b.code, b.now, k.lines, OrderOf(k, b));
  }

  lemma ReadyMayBuy(before: Db, d: Db, k: Task, b: Buyer)
    requires k.Checkout? && Carries(before, k, b) && k.at != ReadCart && Ready(before, d, k, b)
    ensures MayBuy(before, b)
  {
    assert k.lines[..|k.lines|] == k.lines;
    Service.PricedAsCart(before, k.lines, k.items);
    if b.code.Some? { Service.CouponChecked(before, b.code.value, b.user, Subtotal(k.items), b.now); }
  }

  lemma LastWrite(before: Db, d: Db, x: Lone, b: Buyer)
    requires x.k.Checkout? && x.k.at == ClearCart && WasReady(before, d, x, b) && x.k.user == b.user
    ensures OneStep(x, b) == Lone(Service.WithOrder(d, OrderOf(x.k, b), x.k.held), Finished)
  {
  }

  lemma ClearStep(before: Db, x: Lone, b: Buyer)
    requires OnItsWay(before, x, b) && x.k.at == ClearCart
    ensures Done(before, OneStep(x, b), b)
  {
    var d :| WasReady(before, d, x, b);
    LastWrite(before, d, x, b);
    ReadyIsBought(before, d, x.k, b);
    ReadyMayBuy(before, d, x.k, b);
  }

  lemma ForwardStep(before: Db, x: Lone, b: Buyer)
    requires OnItsWay(before, x, b) && Service.CountersValid(before)
    ensures var y := OneStep(x, b); OnItsWay(before, y, b) || GivingUp(before, y) || Done(before, y, b)
  {
    match x.k.at
    case ReadCart => ReadStep(before, x, b);
    case Take => TakeStep(before, x, b);
    case Insert => InsertStep(before, x, b);
    case Validate => ValidateStep(before, x, b);
    case Claim => ClaimStep(before, x, b);
    case Create => CreateStep(before, x, b);
    case Link => LinkStep(before, x, b);
    case Redeem => RedeemStep(before, x, b);
    case ClearCart => ClearStep(before, x, b);
  }

  // ---------------------------------------------------------------- it gives up only if it must

  lemma TakeGoesOn(before: Db, x: Lone, b: Buyer)
    requires OnItsWay(before, x, b) && x.k.at == Take && |x.k.held| < |x.k.lines| && MayBuy(before, b)
    ensures CanTake(x.db, x.k.lines[|x.k.held|].product, x.k.lines[|x.k.held|].quantity)
  {
    var n := |x.k.held|;
    Service.FirstLines(x.k.lines, n);
    Service.SomeOnSale(before, x.k.lines, n + 1);
    Service.OneMoreOnSale(before, x.db, x.k.lines[..n], x.k.lines[n]);
  }

  lemma HonouredPasses(before: Db, b: Buyer, lines: seq<Line>, items: seq<Item>)
    requires MayBuy(before, b) && b.code.Some? && lines == CartOf(before, b.user)
    requires Service.Priced(before, lines, items)
    ensures ValidateCoupon(before, b.code, b.user, Subtotal(items), b.now).Ok? && CanClaim(before, b.code.value)
  {
    Service.PricedAsCart(before, lines, items);
    Service.CouponChecked(before, b.code.value, b.user, Subtotal(items), b.now);
  }

  lemma CouponGoesOn(before: Db, x: Lone, b: Buyer)
    requires OnItsWay(before, x, b) && x.k.at in {Validate, Claim} && MayBuy(before, b) && b.code.Some?
    ensures ValidateCoupon(x.db, x.k.coupon, x.k.user, Subtotal(x.k.items), b.now).Ok?
    ensures CanClaim(x.db, b.code.value)
  {
    assert x.k.lines[..|x.k.lines|] == x.k.lines;
    HonouredPasses(before, b, x.k.lines, x.k.items);
    Service.SameCoupons(before, x.db, b.code.value, b.user, Subtotal(x.k.items), b.now);
  }

  lemma GoesForward(before: Db, x: Lone, b: Buyer)
    requires OnItsWay(before, x, b) && MayBuy(before, b)
    ensures var y := OneStep(x, b); y.k.Checkout? ==> y.k.at != Undoing
  {
    if x.k.at == Take && |x.k.held| < |x.k.lines| { TakeGoesOn(before, x, b); }
    if x.k.at in {Validate, Claim} && b.code.Some? { CouponGoesOn(before, x, b); }
  }

  lemma BackStep(before: Db, x: Lone, b: Buyer)
    requires GivingUp(before, x)
    ensures var y := OneStep(x, b);
            if x.k.undo == [] then y.k.Finished? && Service.Restored(before, y.db)
            else GivingUp(before, y) && |y.k.undo| == |x.k.undo| - 1
  {
  }

  // ---------------------------------------------------------------- whole runs

  /** Steps still to come, giving up included. */
  function Remaining(before: Db, k: Task): nat
    requires k.Checkout?
  {
    var lines := if k.at == ReadCart then |CartOf(before, k.user)| else |k.lines|;
    var toReserve := if |k.held| <= lines then lines - |k.held| else 0;
    var forward :=
      match k.at
      case ReadCart => 2 * lines + 8
      case Take => 2 * toReserve + 7
      case Insert => 2 * toReserve + 6
      case Validate => 6
      case Claim => 5
      case Create => 4
      case Link => 3
      case Redeem => 2
      case ClearCart => 1
      case Undoing => 0;
    3 * forward + |k.undo| + 1
  }

  /** What a task on its way knows of its cart and of its place in it. */
  predicate TaskFits(before: Db, k: Task, b: Buyer)
    requires k.Checkout?
  {
    && k.user == b.user
    && (k.at == ReadCart ==> k.held == [])
    && (k.at == Insert ==> |k.held| < |k.lines|)
    && (k.at in {Link, Redeem} ==> k.placed.Some?) && (k.at == Redeem ==> k.coupon.Some?)
  }

  lemma Fits(before: Db, x: Lone, b: Buyer)
    requires OnItsWay(before, x, b)
    ensures TaskFits(before, x.k, b) && (x.k.at == ReadCart ==> x.db == before)
  {
  }

  lemma Closer(before: Db, x: Lone, b: Buyer)
    requires x.k.Checkout? && x.k.at != Undoing && TaskFits(before, x.k, b) && (x.k.at == ReadCart ==> x.db == before)
    ensures OneStep(x, b).k.Checkout? ==> Remaining(before, OneStep(x, b).k) < Remaining(before, x.k)
  {
  }

  lemma {:induction false} AloneFrom(x: Lone, b: Buyer, n: nat)
    ensures Alone(OneStep(x, b), b, n) == Alone(x, b, n + 1)
  {
    if n > 0 { AloneFrom(x, b, n - 1); }
  }

  /** A checkout that gives up runs its undo list to the end and leaves the shop as it was. */
  lemma {:induction false} GivesUp(before: Db, x: Lone, b: Buyer)
    requires GivingUp(before, x)
    ensures var end := Alone(x, b, |x.k.undo| + 1); end.k.Finished? && Service.Restored(before, end.db)
    decreases |x.k.undo|
  {
    var y := OneStep(x, b);
    BackStep(before, x, b);
    if x.k.undo == [] {
      assert Alone(x, b, 1) == OneStep(Alone(x, b, 0), b) == y;
    } else {
      GivesUp(before, y, b);
      AloneFrom(x, b, |x.k.undo|);
    }
  }

  /** The purchase the service promises, if the cart may be bought; otherwise the shop as it was. */
  ghost predicate Ends(before: Db, x: Lone, b: Buyer) {
    if MayBuy(before, b) then exists n :: Done(before, Alone(x, b, n), b)
    else exists n :: Alone(x, b, n).k.Finished? && Service.Restored(before, Alone(x, b, n).db)
  }

  lemma EndsLater(before: Db, x: Lone, b: Buyer)
    requires Ends(before, OneStep(x, b), b)
    ensures Ends(before, x, b)
  {
    var y := OneStep(x, b);
    if MayBuy(before, b) {
      var n :| Done(before, Alone(y, b, n), b);
      AloneFrom(x, b, n);
    } else {
      var n :| Alone(y, b, n).k.Finished? && Service.Restored(before, Alone(y, b, n).db);
      AloneFrom(x, b, n);
    }
  }

  lemma {:induction false} GoesOn(before: Db, x: Lone, b: Buyer)
    requires OnItsWay(before, x, b) || (GivingUp(before, x) && !MayBuy(before, b))
    requires Service.CountersValid(before)
    ensures Ends(before, x, b)
    decreases Remaining(before, x.k)
  {
    var y := OneStep(x, b);
    if GivingUp(before, x) {
      GivesUp(before, x, b);
    } else {
      ForwardStep(before, x, b);
      if MayBuy(before, b) { GoesForward(before, x, b); }
      Fits(before, x, b);
      Closer(before, x, b);
      if Done(before, y, b) {
        assert Alone(x, b, 1) == OneStep(Alone(x, b, 0), b) == y;
      } else {
        GoesOn(before, y, b);
        EndsLater(before, x, b);
      }
    }
  }

  lemma {:induction false} KeepsOn(before: Db, b: Buyer, n: nat)
    requires Service.CountersValid(before)
    ensures var x := Alone(Start(before, b), b, n);
            OnItsWay(before, x, b) || GivingUp(before, x) || Done(before, x, b)
              || (x.k.Finished? && Service.Restored(before, x.db))
  {
    if n > 0 {
      KeepsOn(before, b, n - 1);
      var x := Alone(Start(before, b), b, n - 1);
      if OnItsWay(before, x, b) { ForwardStep(before, x, b); }
      if GivingUp(before, x) { BackStep(before, x, b); }
    }
  }

  lemma FailedEnds(before: Db, x: Lone, b: Buyer)
    requires x.k.Checkout? && Service.Undoes(before, x.db, x.k.undo)
    ensures var end := Alone(Lone(x.db, FailedTask(x.k)), b, |x.k.undo| + 1);
            end.k.Finished? && Service.Restored(before, end.db) && Service.Show(end.db) == Service.Show(before)
  {
    var failed := Lone(x.db, FailedTask(x.k));
    GivesUp(before, failed, b);
    Service.RestoredShowsTheSame(before, Alone(failed, b, |x.k.undo| + 1).db);
  }

  lemma StartsOnItsWay(before: Db, b: Buyer)
    ensures OnItsWay(before, Start(before, b), b)
  {
  }

  /**
   * A checkout task nobody interrupts ends with exactly the purchase that the service's method promises if
   * the cart may be bought, and with the shop as it was if not; and if it fails after any number of calls, it
   * ends with the shop as it was.
   */
  lemma {:induction false} LoneCheckoutAgrees(before: Db, b: Buyer, n: nat)
    requires Service.CountersValid(before)
    ensures Ends(before, Start(before, b), b)
    ensures var x := Alone(Start(before, b), b, n);
            x.k.Checkout? ==>
              var failed := Lone(x.db, FailedTask(x.k));
              var end := Alone(failed, b, |x.k.undo| + 1);
              end.k.Finished? && Service.Restored(before, end.db) && Service.Show(end.db) == Service.Show(before)
  {
    StartsOnItsWay(before, b);
    GoesOn(before, Start(before, b), b);
    KeepsOn(before, b, n);
    var x := Alone(Start(before, b), b, n);
    if x.k.Checkout? { FailedEnds(before, x, b); }
  }
}
