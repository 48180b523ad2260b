/**
 * Coupon limits over every interleaving: the usage counter equals the orders that use the coupon plus
 * the claims of checkouts that have no order yet, and never passes the limit; and no user redeems a
 * coupon more often than allowed unless one of the user's checkouts outlived its lock.
 */
module CouponLimits {
  import opened Wrappers
  import opened Orders
  import opened Sums
  import opened Store
  import opened Protocol
  import opened Conservation

  // ---------------------------------------------------------------- the order a running checkout has placed

  predicate PlacedFits(db: Db, t: nat, k: Task, i: nat)
    requires k.Checkout? && i < |k.undo|
  {
    k.undo[i].RemoveOrder? ==>
      var o := OrderAt(db, k.undo[i].id);
      && i == |k.undo| - 1
      && o.Some? && o.value.checkout == t && o.value.coupon == k.coupon
      && Top(k.undo[..i]).Some?
      && (if k.coupon.Some? then Top(k.undo[..i]).value == ReturnUse(k.coupon.value)
          else Top(k.undo[..i]).value.DropReservation?)
  }

  predicate PlacedOk(db: Db, t: nat, k: Task) {
    k.Checkout? ==> forall i :: 0 <= i < |k.undo| ==> PlacedFits(db, t, k, i)
  }

  predicate AllPlaced(s: State) {
    forall t :: 0 <= t < |s.tasks| ==> PlacedOk(s.db, t, s.tasks[t])
  }

  lemma PlacedPush(db: Db, db': Db, t: nat, k: Task, k': Task, u: Undo)
    requires k.Checkout? && k'.Checkout? && k'.undo == k.undo + [u] && k'.coupon == k.coupon
    requires PlacedOk(db, t, k) && (k.undo != [] ==> !Top(k.undo).value.RemoveOrder?)
    requires PlacedFits(db', t, k', |k.undo|)
    ensures PlacedOk(db', t, k')
  {
    forall i | 0 <= i < |k'.undo|
      ensures PlacedFits(db', t, k', i)
    {
      if i < |k.undo| {
        assert PlacedFits(db, t, k, i);
        assert k'.undo[..i] == k.undo[..i];
      }
    }
  }

  lemma PlacedPop(db: Db, db': Db, t: nat, k: Task, k': Task)
    requires k.Checkout? && k'.Checkout? && k.undo != [] && k'.undo == k.undo[..|k.undo| - 1] && k'.coupon == k.coupon
    requires PlacedOk(db, t, k)
    ensures PlacedOk(db', t, k')
    ensures forall i :: 0 <= i < |k'.undo| ==> !k'.undo[i].RemoveOrder?
  {
    forall i | 0 <= i < |k'.undo|
      ensures !k'.undo[i].RemoveOrder?
    {
      assert PlacedFits(db, t, k, i);
    }
  }

  lemma PlacedStays(db: Db, db': Db, t: nat, k: Task, k': Task)
    requires k.Checkout? && k'.Checkout? && k'.undo == k.undo && k'.coupon == k.coupon && PlacedOk(db, t, k)
    requires db'.orders == db.orders
    ensures PlacedOk(db', t, k')
  {
    forall i | 0 <= i < |k'.undo|
      ensures PlacedFits(db', t, k', i)
    {
      assert PlacedFits(db, t, k, i);
    }
  }

  /** A checkout adds entries on top, takes the top one off, or leaves the list and the orders alone. */
  lemma UndoMoves(db: Db, t: nat, k: Task, now: int)
    requires k.Checkout? && MoveCheckout(db, t, k, now).next.Checkout?
    ensures var m := MoveCheckout(db, t, k, now);
            && m.next.coupon == k.coupon
            && (|m.next.undo| > |k.undo| ==>
                k.at in {Take, Insert, Claim, Create} && m.next.undo == k.undo + [m.next.undo[|k.undo|]])
            && (|m.next.undo| < |k.undo| ==> k.undo != [] && m.next.undo == k.undo[..|k.undo| - 1])
            && (|m.next.undo| == |k.undo| ==> m.next.undo == k.undo && Effected(db, m.effect).orders == db.orders)
  {
  }

  lemma PushFits(db: Db, t: nat, k: Task, now: int)
    requires k.Checkout? && TopFits(k) && k.at in {Take, Insert, Claim, Create}
    requires MoveCheckout(db, t, k, now).next.Checkout? && |MoveCheckout(db, t, k, now).next.undo| > |k.undo|
    ensures k.undo != [] ==> !Top(k.undo).value.RemoveOrder?
    ensures var m := MoveCheckout(db, t, k, now); PlacedFits(Effected(db, m.effect), t, m.next, |k.undo|)
  {
    var m := MoveCheckout(db, t, k, now);
    assert m.next.undo[..|k.undo|] == k.undo;
  }

  lemma CheckoutPlaced(db: Db, t: nat, k: Task, now: int)
    requires k.Checkout? && TopFits(k) && PlacedOk(db, t, k) && MoveCheckout(db, t, k, now).next.Checkout?
    ensures var m := MoveCheckout(db, t, k, now); PlacedOk(Effected(db, m.effect), t, m.next)
  {
    var m := MoveCheckout(db, t, k, now);
    var db' := Effected(db, m.effect);
    UndoMoves(db, t, k, now);
    if |m.next.undo| > |k.undo| {
      PushFits(db, t, k, now);
      PlacedPush(db, db', t, k, m.next, m.next.undo[|k.undo|]);
    } else if |m.next.undo| < |k.undo| {
      PlacedPop(db, db', t, k, m.next);
    } else {
      PlacedStays(db, db', t, k, m.next);
    }
  }

  lemma MovePlaced(s: State, t: nat, now: int)
    requires Shapes(s) && AllPlaced(s) && t < |s.tasks|
    ensures var m := NextMove(s.db, t, s.tasks[t], now); PlacedOk(Effected(s.db, m.effect), t, m.next)
  {
    OnlyCheckoutsGoOn(s.db, t, s.tasks[t], now);
    if s.tasks[t].Checkout? {
      assert CheckoutShape(s, s.tasks[t]) && PlacedOk(s.db, t, s.tasks[t]);
      if MoveCheckout(s.db, t, s.tasks[t], now).next.Checkout? { CheckoutPlaced(s.db, t, s.tasks[t], now); }
    }
  }

  /** Orders are only touched in ways that keep their maker and coupon; only the maker deletes one. */
  predicate OwnDeletes(db: Db, t: nat, e: Effect) {
    e.DeleteOrderRow? ==> OrderAt(db, e.id).Some? && OrderAt(db, e.id).value.checkout == t
  }

  lemma MoveDeletesOwn(s: State, t: nat, now: int)
    requires AllPlaced(s) && t < |s.tasks|
    ensures OwnDeletes(s.db, t, NextMove(s.db, t, s.tasks[t], now).effect)
  {
    var k := s.tasks[t];
    assert PlacedOk(s.db, t, k);
    if k.Checkout? && k.undo != [] {
      assert PlacedFits(s.db, t, k, |k.undo| - 1);
    }
  }

  lemma OrderSurvives(db: Db, t: nat, e: Effect, o: nat)
    requires OwnDeletes(db, t, e) && OrderAt(db, o).Some? && OrderAt(db, o).value.checkout != t
    ensures OrderAt(Effected(db, e), o).Some?
    ensures OrderAt(Effected(db, e), o).value.checkout == OrderAt(db, o).value.checkout
    ensures OrderAt(Effected(db, e), o).value.coupon == OrderAt(db, o).value.coupon
  {
  }

  lemma PerformKeepsPlaced(s: State, t: nat, m: Move)
    requires AllPlaced(s) && t < |s.tasks|
    requires OwnDeletes(s.db, t, m.effect) && PlacedOk(Effected(s.db, m.effect), t, m.next)
    ensures AllPlaced(Perform(s, t, m))
  {
    var s' := Perform(s, t, m);
    forall i | 0 <= i < |s'.tasks|
      ensures PlacedOk(s'.db, i, s'.tasks[i])
    {
      var k := s.tasks[i];
      if i != t && k.Checkout? {
        forall j | 0 <= j < |k.undo|
          ensures PlacedFits(s'.db, i, k, j)
        {
          assert PlacedFits(s.db, i, k, j);
          if k.undo[j].RemoveOrder? {
            OrderSurvives(s.db, t, m.effect, k.undo[j].id);
          }
        }
      }
    }
  }

  lemma PlacedKept(s: State, a: Action)
    requires Shapes(s) && AllPlaced(s)
    ensures AllPlaced(Step(s, a))
  {
    var s' := Step(s, a);
    if a.RunTask? && a.task < |s.tasks| {
      MovePlaced(s, a.task, a.now);
      MoveDeletesOwn(s, a.task, a.now);
      PerformKeepsPlaced(s, a.task, NextMove(s.db, a.task, s.tasks[a.task], a.now));
    } else if a.FailTask? && a.task < |s.tasks| {
      var k := s.tasks[a.task];
      assert PlacedOk(s.db, a.task, k);
      if k.Checkout? {
        PlacedStays(s.db, s.db, a.task, k, FailedTask(k));
      }
      PerformKeepsPlaced(s, a.task, Move(FailedTask(k), Nothing));
    } else {
      forall i | 0 <= i < |s'.tasks|
        ensures PlacedOk(s'.db, i, s'.tasks[i])
      {
        if i < |s.tasks| {
          assert PlacedOk(s.db, i, s.tasks[i]);
          if s.tasks[i].Checkout? {
            PlacedStays(s.db, s'.db, i, s.tasks[i], s.tasks[i]);
          }
        }
      }
    }
  }

  // ---------------------------------------------------------------- the usage counter

  function UsedBy(coupon: int): Option<Order> -> int {
    (o: Option<Order>) => if o.Some? && o.value.coupon == Some(coupon) then 1 else 0
  }

  /** A checkout that has counted a use and has no order for it (yet, or any more). */
  function ClaimOf(coupon: int): Task -> int {
    (k: Task) => if k.Checkout? && k.undo != [] && k.undo[|k.undo| - 1] == ReturnUse(coupon) then 1 else 0
  }

  function Uses(s: State, coupon: int): int {
    Sum(s.db.orders, UsedBy(coupon)) + Sum(s.tasks, ClaimOf(coupon))
  }

  predicate CountsRight(s: State, coupon: int) {
    coupon in s.db.coupons ==>
      var c := s.db.coupons[coupon];
      c.usedCount == Uses(s, coupon) && c.usedCount <= c.usageLimit
  }

  function UseChange(db: Db, e: Effect, coupon: int): int {
    match e
    case UseCoupon(c) => if c == coupon then 1 else 0
    case ReturnCoupon(c) => if c == coupon then -1 else 0
    case _ => 0
  }

  function OrderChange(db: Db, e: Effect, coupon: int): int {
    match e
    case PlaceOrder(o) => UsedBy(coupon)(Some(o))
    case DeleteOrderRow(id) => -UsedBy(coupon)(OrderAt(db, id))
    case _ => 0
  }

  lemma DeletionOnOrders(orders: seq<Option<Order>>, id: nat, coupon: int)
    requires id < |orders|
    ensures Sum(orders[id := None], UsedBy(coupon)) == Sum(orders, UsedBy(coupon)) - UsedBy(coupon)(orders[id])
  {
    SumUpdate(orders, id, None, UsedBy(coupon));
  }

  lemma UpdateOnOrders(db: Db, id: nat, u: Update, coupon: int)
    ensures Sum(UpdateOrder(db, id, u).orders, UsedBy(coupon)) == Sum(db.orders, UsedBy(coupon))
  {
    if CanUpdate(db, id, u) {
      var o' := Some(Written(db.orders[id].value, u));
      assert UsedBy(coupon)(o') == UsedBy(coupon)(db.orders[id]);
      SumUpdate(db.orders, id, o', UsedBy(coupon));
    }
  }

  lemma EffectOnOrders(db: Db, e: Effect, coupon: int)
    ensures Sum(Effected(db, e).orders, UsedBy(coupon)) == Sum(db.orders, UsedBy(coupon)) + OrderChange(db, e, coupon)
  {
    match e
    case PlaceOrder(o) => SumAppend(db.orders, Some(o), UsedBy(coupon));
    case DeleteOrderRow(id) => if id < |db.orders| { DeletionOnOrders(db.orders, id, coupon); }
    case ChangeOrder(id, u) => UpdateOnOrders(db, id, u, coupon);
    case _ =>
  }

  predicate ClaimBalanced(db: Db, k: Task, m: Move, coupon: int) {
    && UseChange(db, m.effect, coupon) == OrderChange(db, m.effect, coupon) + ClaimOf(coupon)(m.next)
       - ClaimOf(coupon)(k)
    && (m.effect == UseCoupon(coupon) ==> CanClaim(db, coupon))
    && (m.effect == ReturnCoupon(coupon) ==> ClaimOf(coupon)(k) == 1)
  }

  lemma UndoneClaimBalances(db: Db, t: nat, k: Task, now: int, coupon: int)
    requires k.Checkout? && k.at == Undoing && StackOk(db.reservations, k.undo) && PlacedOk(db, t, k)
    ensures ClaimBalanced(db, k, MoveCheckout(db, t, k, now), coupon)
  {
    if k.undo != [] {
      assert PlacedFits(db, t, k, |k.undo| - 1);
      StackPop(db.reservations, db.reservations, k.undo);
    }
  }

  lemma ForwardClaimBalances(db: Db, t: nat, k: Task, now: int, coupon: int)
    requires k.Checkout? && k.at != Undoing && TopFits(k)
    ensures ClaimBalanced(db, k, MoveCheckout(db, t, k, now), coupon)
  {
  }

  lemma OthersClaimNothing(db: Db, t: nat, k: Task, now: int, coupon: int)
    requires !k.Checkout?
    ensures ClaimBalanced(db, k, NextMove(db, t, k, now), coupon)
  {
  }

  lemma MoveClaims(s: State, t: nat, now: int, coupon: int)
    requires Shapes(s) && AllPlaced(s) && t < |s.tasks|
    ensures ClaimBalanced(s.db, s.tasks[t], NextMove(s.db, t, s.tasks[t], now), coupon)
  {
    var k := s.tasks[t];
    assert CheckoutShape(s, k) && PlacedOk(s.db, t, k);
    if !k.Checkout? {
      OthersClaimNothing(s.db, t, k, now, coupon);
    } else if k.at == Undoing {
      UndoneClaimBalances(s.db, t, k, now, coupon);
    } else {
      ForwardClaimBalances(s.db, t, k, now, coupon);
    }
  }

  lemma EffectOnCoupons(db: Db, e: Effect, coupon: int)
    requires coupon in db.coupons && (e == ReturnCoupon(coupon) ==> db.coupons[coupon].usedCount > 0)
    ensures var c, c' := db.coupons[coupon], Effected(db, e).coupons[coupon];
            c' == c.(usedCount := c.usedCount + UseChange(db, e, coupon))
  {
  }

  lemma CouponRowsStay(db: Db, e: Effect)
    ensures Effected(db, e).coupons.Keys == db.coupons.Keys
  {
  }

  lemma PerformCounts(s: State, t: nat, m: Move, coupon: int)
    requires t < |s.tasks| && CountsRight(s, coupon) && ClaimBalanced(s.db, s.tasks[t], m, coupon)
    ensures CountsRight(Perform(s, t, m), coupon)
  {
    CouponRowsStay(s.db, m.effect);
    if coupon in s.db.coupons {
      SumNonNegative(s.db.orders, UsedBy(coupon));
      SumNonNegative(s.tasks, ClaimOf(coupon));
      EffectOnCoupons(s.db, m.effect, coupon);
      EffectOnOrders(s.db, m.effect, coupon);
      SumUpdate(s.tasks, t, m.next, ClaimOf(coupon));
      var s' := Perform(s, t, m);
      assert UseChange(s.db, m.effect, coupon) == 1 ==> m.effect == UseCoupon(coupon);
      assert s'.db.coupons[coupon].usedCount == Uses(s', coupon);
    }
  }

  lemma StartCounts(s: State, a: Action, coupon: int)
    requires CountsRight(s, coupon) && !(a.RunTask? && a.task < |s.tasks|) && !(a.FailTask? && a.task < |s.tasks|)
    ensures CountsRight(Step(s, a), coupon)
  {
    if !a.RunTask? && !a.FailTask? { StartsOnly(s, a); }
    if |Step(s, a).tasks| > |s.tasks| {
      SumAppend(s.tasks, Step(s, a).tasks[|s.tasks|], ClaimOf(coupon));
    }
  }

  lemma CountsKept(s: State, a: Action, coupon: int)
    requires Shapes(s) && AllPlaced(s) && CountsRight(s, coupon)
    ensures CountsRight(Step(s, a), coupon)
  {
    if a.RunTask? && a.task < |s.tasks| {
      MoveClaims(s, a.task, a.now, coupon);
      PerformCounts(s, a.task, NextMove(s.db, a.task, s.tasks[a.task], a.now), coupon);
    } else if a.FailTask? && a.task < |s.tasks| {
      PerformCounts(s, a.task, Move(FailedTask(s.tasks[a.task]), Nothing), coupon);
    } else {
      StartCounts(s, a, coupon);
    }
  }

  lemma {:induction false} RunPlaced(s: State, actions: seq<Action>)
    requires Opening(s)
    ensures AllPlaced(Steps(s, actions))
  {
    if actions != [] {
      var n := |actions| - 1;
      RunPlaced(s, actions[..n]);
      RunShapes(s, actions[..n]);
      PlacedKept(Steps(s, actions[..n]), actions[n]);
    }
  }

  /** The orders that exist and use the coupon. */
  function OrdersUsing(db: Db, coupon: int): set<nat> {
    set o | 0 <= o < |db.orders| && db.orders[o].Some? && db.orders[o].value.coupon == Some(coupon)
  }

  /** The running checkouts whose last entry to undo is a use of the coupon. */
  function ClaimsInFlight(s: State, coupon: int): set<nat> {
    set t | 0 <= t < |s.tasks| && s.tasks[t].Checkout? && s.tasks[t].undo != []
            && s.tasks[t].undo[|s.tasks[t].undo| - 1] == ReturnUse(coupon)
  }

  lemma UsesCounted(s: State, coupon: int)
    ensures Uses(s, coupon) == |OrdersUsing(s.db, coupon)| + |ClaimsInFlight(s, coupon)|
  {
    SumIsSize(s.db.orders, UsedBy(coupon), OrdersUsing(s.db, coupon));
    SumIsSize(s.tasks, ClaimOf(coupon), ClaimsInFlight(s, coupon));
  }

  lemma {:induction false} RunCounts(s: State, actions: seq<Action>, coupon: int)
    requires Opening(s) && coupon in s.db.coupons
    ensures var s' := Steps(s, actions);
            && coupon in s'.db.coupons && CountsRight(s', coupon)
            && s'.db.coupons[coupon].usageLimit == s.db.coupons[coupon].usageLimit
            && s'.db.coupons[coupon].perUserLimit == s.db.coupons[coupon].perUserLimit
  {
    if actions != [] {
      var n := |actions| - 1;
      var before := Steps(s, actions[..n]);
      RunCounts(s, actions[..n], coupon);
      RunShapes(s, actions[..n]);
      RunPlaced(s, actions[..n]);
      CountsKept(before, actions[n], coupon);
      LimitsStay(before, actions[n], coupon);
    }
  }

  /** In every state of every interleaving the counter is right and within the limit. */
  lemma {:induction false} UsageLimitHolds(s: State, actions: seq<Action>, coupon: int)
    requires Opening(s) && coupon in s.db.coupons
    ensures var s' := Steps(s, actions);
            && coupon in s'.db.coupons
            && s'.db.coupons[coupon].usedCount == |OrdersUsing(s'.db, coupon)| + |ClaimsInFlight(s', coupon)|
            && s'.db.coupons[coupon].usedCount <= s'.db.coupons[coupon].usageLimit
            && s'.db.coupons[coupon].usageLimit == s.db.coupons[coupon].usageLimit
            && s'.db.coupons[coupon].perUserLimit == s.db.coupons[coupon].perUserLimit
  {
    RunCounts(s, actions, coupon);
    UsesCounted(Steps(s, actions), coupon);
  }

  lemma LimitsStay(s: State, a: Action, coupon: int)
    requires coupon in s.db.coupons
    ensures coupon in Step(s, a).db.coupons
    ensures Step(s, a).db.coupons[coupon].usageLimit == s.db.coupons[coupon].usageLimit
    ensures Step(s, a).db.coupons[coupon].perUserLimit == s.db.coupons[coupon].perUserLimit
  {
    if a.RunTask? && a.task < |s.tasks| {
      CouponTermsStay(s.db, NextMove(s.db, a.task, s.tasks[a.task], a.now).effect, coupon);
    }
  }

  lemma CouponTermsStay(db: Db, e: Effect, coupon: int)
    requires coupon in db.coupons
    ensures coupon in Effected(db, e).coupons
    ensures Effected(db, e).coupons[coupon].usageLimit == db.coupons[coupon].usageLimit
    ensures Effected(db, e).coupons[coupon].perUserLimit == db.coupons[coupon].perUserLimit
  {
  }
}
