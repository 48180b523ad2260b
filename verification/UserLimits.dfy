/**
 * The per-user coupon limit. Checkout holds a per-user lock with a time limit; as long as none of a
 * user's checkouts outlives it, the user has at most one checkout running and the count it read when
 * it validated the coupon is still true when it writes the redemption.
 */
module UserLimits {
  import opened Wrappers
  import opened Sums
  import opened Store
  import opened Protocol
  import CouponLimits

  predicate LockOk(s: State, user: int)
    requires user in s.locks
  {
    InFlight(s, s.locks[user]) && s.tasks[s.locks[user]].user == user
  }

  predicate LocksOk(s: State) {
    forall user :: user in s.locks ==> LockOk(s, user)
  }

  /** A running checkout holds its user's lock, unless a lock of that user has timed out. */
  predicate HoldsLock(s: State, t: nat)
    requires t < |s.tasks|
  {
    s.tasks[t].Checkout? && s.tasks[t].user !in s.overran ==>
      s.tasks[t].user in s.locks && s.locks[s.tasks[t].user] == t
  }

  predicate AllHoldLocks(s: State) {
    forall t :: 0 <= t < |s.tasks| ==> HoldsLock(s, t)
  }

  lemma SameUser(db: Db, t: nat, k: Task, now: int)
    ensures var k' := NextMove(db, t, k, now).next;
            k'.Checkout? ==> k.Checkout? && k'.user == k.user && k'.coupon == k.coupon
  {
  }

  lemma LocksStayOk(s: State, a: Action)
    requires LocksOk(s)
    ensures LocksOk(Step(s, a))
  {
    if a.RunTask? && a.task < |s.tasks| {
      SameUser(s.db, a.task, s.tasks[a.task], a.now);
    }
    forall user | user in Step(s, a).locks
      ensures LockOk(Step(s, a), user)
    {
      if user in s.locks { assert LockOk(s, user); }
    }
  }

  lemma StillHoldsLock(s: State, a: Action, t: nat)
    requires LocksOk(s) && t < |Step(s, a).tasks| && (t < |s.tasks| ==> HoldsLock(s, t))
    ensures HoldsLock(Step(s, a), t)
  {
    var s' := Step(s, a);
    if a.RunTask? && a.task < |s.tasks| {
      SameUser(s.db, a.task, s.tasks[a.task], a.now);
    }
    if t < |s.tasks| && s'.tasks[t].Checkout? && s'.tasks[t].user in s.locks { assert LockOk(s, s'.tasks[t].user); }
  }

  lemma LocksKept(s: State, a: Action)
    requires LocksOk(s) && AllHoldLocks(s)
    ensures LocksOk(Step(s, a)) && AllHoldLocks(Step(s, a))
  {
    LocksStayOk(s, a);
    forall t | 0 <= t < |Step(s, a).tasks|
      ensures HoldsLock(Step(s, a), t)
    {
      if t < |s.tasks| { assert HoldsLock(s, t); }
      StillHoldsLock(s, a, t);
    }
  }

  // ---------------------------------------------------------------- redemptions promised and made

  /** A checkout that has passed validation and will write a redemption unless it fails. */
  function Promise(user: int, coupon: int): Task -> int {
    (k: Task) =>
      if k.Checkout? && k.user == user && k.coupon == Some(coupon) && k.at in {Claim, Create, Link, Redeem} then 1
         else 0
  }

  function Redeemed(s: State, user: int, coupon: int): int {
    Sum(s.db.redemptions, RedeemedBy(coupon, user))
  }

  predicate WithinLimit(s: State, user: int, coupon: int) {
    coupon in s.db.coupons && user !in s.overran ==>
      Redeemed(s, user, coupon) + Sum(s.tasks, Promise(user, coupon)) <= s.db.coupons[coupon].perUserLimit
  }

  /** When a checkout validates, none of its user's checkouts has a promise outstanding. */
  lemma NoOtherPromise(s: State, t: nat, user: int, coupon: int)
    requires AllHoldLocks(s) && user !in s.overran && t < |s.tasks|
    requires s.tasks[t].Checkout? && s.tasks[t].user == user && s.tasks[t].at == Validate
    ensures Sum(s.tasks, Promise(user, coupon)) == 0
  {
    assert HoldsLock(s, t);
    forall i | 0 <= i < |s.tasks|
      ensures Promise(user, coupon)(s.tasks[i]) == 0
    {
      assert HoldsLock(s, i);
    }
    SumZero(s.tasks, Promise(user, coupon));
  }

  function RedemptionChange(e: Effect, user: int, coupon: int): int {
    if e.AddRedemption? then RedeemedBy(coupon, user)(e.redemption) else 0
  }

  lemma EffectOnRedemptions(db: Db, e: Effect, user: int, coupon: int)
    ensures Sum(Effected(db, e).redemptions, RedeemedBy(coupon, user))
            == Sum(db.redemptions, RedeemedBy(coupon, user)) + RedemptionChange(e, user, coupon)
  {
    if e.AddRedemption? {
      SumAppend(db.redemptions, e.redemption, RedeemedBy(coupon, user));
    }
  }

  lemma MovePromises(db: Db, t: nat, k: Task, now: int, user: int, coupon: int)
    ensures var m := NextMove(db, t, k, now);
            || RedemptionChange(m.effect, user, coupon) + Promise(user, coupon)(m.next) <= Promise(user, coupon)(k)
            || (&& k.Checkout? && k.at == Validate && k.user == user && k.coupon == Some(coupon) && m.effect == Nothing
                && coupon in db.coupons
                && Sum(db.redemptions, RedeemedBy(coupon, user)) < db.coupons[coupon].perUserLimit)
  {
  }

  lemma PerformWithin(s: State, t: nat, now: int, user: int, coupon: int)
    requires AllHoldLocks(s) && WithinLimit(s, user, coupon) && t < |s.tasks|
    ensures WithinLimit(Perform(s, t, NextMove(s.db, t, s.tasks[t], now)), user, coupon)
  {
    var m := NextMove(s.db, t, s.tasks[t], now);
    CouponLimits.CouponRowsStay(s.db, m.effect);
    if coupon in s.db.coupons && user !in s.overran {
      CouponLimits.CouponTermsStay(s.db, m.effect, coupon);
      EffectOnRedemptions(s.db, m.effect, user, coupon);
      SumUpdate(s.tasks, t, m.next, Promise(user, coupon));
      MovePromises(s.db, t, s.tasks[t], now, user, coupon);
      if s.tasks[t].Checkout? && s.tasks[t].at == Validate && s.tasks[t].user == user {
        NoOtherPromise(s, t, user, coupon);
      }
    }
  }

  lemma FailWithin(s: State, t: nat, user: int, coupon: int)
    requires t < |s.tasks| && WithinLimit(s, user, coupon)
    ensures WithinLimit(Step(s, FailTask(t)), user, coupon)
  {
    SumUpdate(s.tasks, t, FailedTask(s.tasks[t]), Promise(user, coupon));
  }

  lemma StartWithin(s: State, a: Action, user: int, coupon: int)
    requires !a.RunTask? && !a.FailTask? && WithinLimit(s, user, coupon)
    ensures WithinLimit(Step(s, a), user, coupon)
  {
    var s' := Step(s, a);
    StartsOnly(s, a);
    if s'.tasks != s.tasks {
      SumAppend(s.tasks, s'.tasks[|s.tasks|], Promise(user, coupon));
    }
  }

  lemma WithinKept(s: State, a: Action, user: int, coupon: int)
    requires AllHoldLocks(s) && WithinLimit(s, user, coupon)
    ensures WithinLimit(Step(s, a), user, coupon)
  {
    match a
    case RunTask(t, now) => if t < |s.tasks| { PerformWithin(s, t, now, user, coupon); }
    case FailTask(t) => if t < |s.tasks| { FailWithin(s, t, user, coupon); }
    case _ => StartWithin(s, a, user, coupon);
  }

  /** No user redeems a coupon more often than allowed, unless one of the user's locks timed out. */
  lemma {:induction false} PerUserLimitHolds(s: State, actions: seq<Action>, user: int, coupon: int)
    requires Opening(s) && coupon in s.db.coupons
    ensures LocksOk(Steps(s, actions)) && AllHoldLocks(Steps(s, actions))
            && WithinLimit(Steps(s, actions), user, coupon)
    ensures coupon in Steps(s, actions).db.coupons
    ensures user !in Steps(s, actions).overran ==>
              |RedemptionsOf(Steps(s, actions).db, coupon, user)| <= s.db.coupons[coupon].perUserLimit
  {
    CouponLimits.UsageLimitHolds(s, actions, coupon);
    if actions != [] {
      var n := |actions| - 1;
      PerUserLimitHolds(s, actions[..n], user, coupon);
      LocksKept(Steps(s, actions[..n]), actions[n]);
      WithinKept(Steps(s, actions[..n]), actions[n], user, coupon);
    }
    SumNonNegative(Steps(s, actions).tasks, Promise(user, coupon));
    RedemptionsCounted(Steps(s, actions).db, coupon, user);
  }

  /** A checkout starts exactly when its user's lock is free, and takes it; a time-out frees it for the next one. */
  lemma LockDecides(s: State, user: int, coupon: Option<int>)
    ensures var s', freed := Step(s, StartCheckout(user, coupon)), Step(s, LockTimeout(user));
            && (if user in s.locks then s' == s
                else |s'.tasks| == |s.tasks| + 1 && s'.tasks[|s.tasks|].Checkout? && s'.tasks[|s.tasks|].user == user
                     && user in s'.locks && s'.locks[user] == |s.tasks|)
            && user !in freed.locks && freed.db == s.db && freed.tasks == s.tasks
  {
    assert (s.tasks + [Checkout(user, coupon, ReadCart, [], 0, 0, [], [], 0, None, [])])[..|s.tasks|] == s.tasks;
  }

  /** A cart can be filled at any time, by its user's next request; so a user may buy again and again. */
  lemma CartIsFilled(s: State, user: int, lines: seq<Line>, now: int)
    ensures var s' := Step(Step(s, StartFill(user, lines)), RunTask(|s.tasks|, now));
            && CartOf(s'.db, user) == lines && s'.db == s.db.(carts := s'.db.carts)
            && forall other :: other != user ==> CartOf(s'.db, other) == CartOf(s.db, other)
  {
    assert (s.tasks + [Filling(user, lines)])[|s.tasks|] == Filling(user, lines);
  }
}
