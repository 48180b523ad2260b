/**
 * Money and discounts. Amounts are exact reals, cents are integers; the two roundings of the source
 * (six decimals, then whole cents) are both half-up.
 */
module Pricing {
  import opened Wrappers

  function RoundHalfUp(x: real): int {
    (x + 0.5).Floor
  }

  function ToFixed6(x: real): real {
    RoundHalfUp(x * 1000000.0) as real / 1000000.0
  }

  function Sign(x: real): int {
    if x < 0.0 then -1 else if x > 0.0 then 1 else 0
  }

  function Abs(x: real): real {
    if x < 0.0 then -x else x
  }

  function ToCents(amount: real): int {
    Sign(amount) * RoundHalfUp(ToFixed6(Abs(amount) * 100.0))
  }

  function FromCents(cents: int): real {
    cents as real / 100.0
  }

  function RoundMoney(amount: real): real {
    FromCents(ToCents(amount))
  }

  function PercentOf(cents: int, percent: real): int {
    RoundHalfUp(cents as real * percent / 100.0)
  }

  // ---------------------------------------------------------------- cents

  lemma RoundNearest(x: real)
    ensures x - 0.5 < RoundHalfUp(x) as real <= x + 0.5
  {
  }

  lemma RoundMonotone(x: real, y: real)
    requires x <= y
    ensures RoundHalfUp(x) <= RoundHalfUp(y)
  {
  }

  lemma ToFixed6Near(x: real)
    ensures x - 0.0000005 <= ToFixed6(x) <= x + 0.0000005
  {
    RoundNearest(x * 1000000.0);
  }

  lemma ToFixed6Monotone(x: real, y: real)
    requires x <= y
    ensures ToFixed6(x) <= ToFixed6(y)
  {
    RoundMonotone(x * 1000000.0, y * 1000000.0);
  }

  lemma MagnitudeNonNegative(x: real)
    requires 0.0 <= x
    ensures 0 <= RoundHalfUp(ToFixed6(x * 100.0))
  {
    ToFixed6Monotone(0.0, x * 100.0);
    assert ToFixed6(0.0) == 0.0;
    RoundMonotone(0.0, ToFixed6(x * 100.0));
  }

  lemma ToCentsOdd(a: real)
    ensures ToCents(-a) == -ToCents(a)
  {
  }

  lemma ToCentsSigned(a: real)
    ensures 0.0 < a ==> ToCents(a) == RoundHalfUp(ToFixed6(a * 100.0)) && 0 <= ToCents(a)
    ensures a == 0.0 ==> ToCents(a) == 0
    ensures a < 0.0 ==> ToCents(a) == -RoundHalfUp(ToFixed6(-a * 100.0)) && ToCents(a) <= 0
  {
    MagnitudeNonNegative(Abs(a));
  }

  lemma MagnitudeMonotone(a: real, b: real)
    requires a <= b
    ensures RoundHalfUp(ToFixed6(a * 100.0)) <= RoundHalfUp(ToFixed6(b * 100.0))
  {
    ToFixed6Monotone(a * 100.0, b * 100.0);
    RoundMonotone(ToFixed6(a * 100.0), ToFixed6(b * 100.0));
  }

  lemma ToCentsMonotone(a: real, b: real)
    requires a <= b
    ensures ToCents(a) <= ToCents(b)
  {
    ToCentsSigned(a);
    ToCentsSigned(b);
    if 0.0 < a {
      MagnitudeMonotone(a, b);
    } else if b < 0.0 {
      MagnitudeMonotone(-b, -a);
    }
  }

  lemma ToCentsNear(a: real)
    ensures 100.0 * a - 0.5000005 <= ToCents(a) as real <= 100.0 * a + 0.5000005
  {
    ToFixed6Near(Abs(a) * 100.0);
    RoundNearest(ToFixed6(Abs(a) * 100.0));
    MagnitudeNonNegative(Abs(a));
  }

  /** Conversion is odd, monotone, and never off by more than half a cent and the six-decimal slack. */
  lemma ToCentsFaithful(a: real, b: real)
    ensures ToCents(-a) == -ToCents(a)
    ensures a <= b ==> ToCents(a) <= ToCents(b)
    ensures 100.0 * a - 0.5000005 <= ToCents(a) as real <= 100.0 * a + 0.5000005
  {
    ToCentsOdd(a);
    if a <= b { ToCentsMonotone(a, b); }
    ToCentsNear(a);
  }

  lemma RoundWhole(n: int)
    ensures RoundHalfUp(n as real) == n
  {
  }

  /** Cents survive the trip through decimal units, so rounding money twice changes nothing. */
  lemma CentsRoundTrip(c: int, amount: real)
    ensures ToCents(FromCents(c)) == c
    ensures RoundMoney(RoundMoney(amount)) == RoundMoney(amount)
  {
    CentsReturn(c);
    CentsReturn(ToCents(amount));
  }

  lemma CentsReturn(c: int)
    ensures ToCents(FromCents(c)) == c
  {
    var m := if c < 0 then -c else c;
    assert Abs(FromCents(c)) * 100.0 == m as real;
    RoundWhole(m * 1000000);
    assert m as real * 1000000.0 == (m * 1000000) as real;
    assert ToFixed6(m as real) == m as real;
    RoundWhole(m);
  }

  // ---------------------------------------------------------------- discounts

  datatype CouponType = Percentage | Fixed

  datatype Terms = Terms(kind: CouponType, value: real, maxDiscount: Option<real>, minOrderTotal: real)

  /** The schema keeps every amount of a coupon at zero or more; a percentage may exceed one hundred. */
  predicate ValidTerms(t: Terms) {
    && 0.0 <= t.value && 0.0 <= t.minOrderTotal
    && (t.maxDiscount.Some? ==> 0.0 <= t.maxDiscount.value)
  }

  function Min(a: int, b: int): int {
    if a < b then a else b
  }

  function Max(a: int, b: int): int {
    if a < b then b else a
  }

  function RawDiscount(t: Terms, subtotal: int): int {
    if t.kind == Percentage then PercentOf(subtotal, t.value) else ToCents(t.value)
  }

  /** A cap of zero counts as no cap. */
  function DiscountCents(coupon: Option<Terms>, subtotal: int): int {
    match coupon
    case None => 0
    case Some(t) =>
      var raw := RawDiscount(t, subtotal);
      var cap := if t.maxDiscount.Some? && t.maxDiscount.value != 0.0 then ToCents(t.maxDiscount.value) else raw;
      Max(0, Min(Min(raw, cap), subtotal))
  }

  function TotalCents(coupon: Option<Terms>, subtotal: int): int {
    Max(subtotal - DiscountCents(coupon, subtotal), 0)
  }

  lemma ScaleMonotone(a: real, b: real, c: real)
    requires a <= b && 0.0 <= c
    ensures a * c <= b * c && c * a <= c * b
  {
  }

  lemma ShareGrowth(x: real, y: real, percent: real, px: real, py: real)
    requires 0.0 <= x <= y && 0.0 <= percent && px == x * percent && py == y * percent
    ensures px <= py
    ensures percent <= 100.0 ==> py <= px + (y - x) * 100.0
    ensures 100.0 <= percent ==> x * 100.0 <= px
  {
    ScaleMonotone(x, y, percent);
    assert y * percent == x * percent + (y - x) * percent;
    if percent <= 100.0 {
      ScaleMonotone(percent, 100.0, y - x);
    } else {
      ScaleMonotone(100.0, percent, x);
    }
  }

  lemma RoundShift(x: real, n: int)
    ensures RoundHalfUp(x + n as real) == RoundHalfUp(x) + n
  {
  }

  lemma RoundGrowth(x: real, y: real, d: int)
    requires x <= y
    ensures RoundHalfUp(x / 100.0) <= RoundHalfUp(y / 100.0)
    ensures y <= x + d as real * 100.0 ==> RoundHalfUp(y / 100.0) <= RoundHalfUp(x / 100.0) + d
    ensures d as real * 100.0 <= x ==> d <= RoundHalfUp(x / 100.0)
  {
    RoundMonotone(x / 100.0, y / 100.0);
    if y <= x + d as real * 100.0 {
      RoundMonotone(y / 100.0, x / 100.0 + d as real);
      RoundShift(x / 100.0, d);
    }
    if d as real * 100.0 <= x {
      RoundMonotone(d as real, x / 100.0);
      RoundWhole(d);
    }
  }

  lemma PercentGrowth(s: int, t: int, percent: real)
    requires 0 <= s <= t && 0.0 <= percent
    ensures PercentOf(s, percent) <= PercentOf(t, percent)
    ensures percent <= 100.0 ==> PercentOf(t, percent) <= PercentOf(s, percent) + (t - s)
    ensures 100.0 <= percent ==> s <= PercentOf(s, percent)
  {
    var a, b := s as real, t as real;
    var x, y := a * percent, b * percent;
    ShareGrowth(a, b, percent, x, y);
    assert (t - s) as real == b - a;
    RoundGrowth(x, y, t - s);
    RoundGrowth(x, y, s);
  }

  /** The discount stays within the subtotal and is exactly what the customer does not pay. */
  lemma DiscountSplitsSubtotal(coupon: Option<Terms>, subtotal: int)
    requires 0 <= subtotal
    ensures 0 <= DiscountCents(coupon, subtotal) <= subtotal
    ensures DiscountCents(coupon, subtotal) + TotalCents(coupon, subtotal) == subtotal
  {
  }

  /**
   * For every coupon, a dearer basket gets at least the discount of a cheaper one but gains at most
   * one cent of discount per cent of price, so it never costs less.
   */
  lemma DearerNeverCheaper(coupon: Option<Terms>, s: int, t: int)
    requires 0 <= s <= t && (coupon.Some? ==> ValidTerms(coupon.value))
    ensures DiscountCents(coupon, s) <= DiscountCents(coupon, t) <= DiscountCents(coupon, s) + (t - s)
    ensures TotalCents(coupon, s) <= TotalCents(coupon, t)
  {
    if coupon.Some? && coupon.value.kind == Percentage {
      PercentGrowth(s, t, coupon.value.value);
      PercentGrowth(t, t, coupon.value.value);
    }
    DiscountSplitsSubtotal(coupon, s);
    DiscountSplitsSubtotal(coupon, t);
  }

  // ---------------------------------------------------------------- what a coupon is worth

  function LeastReal(a: real, b: real): real {
    if a < b then a else b
  }

  /** A percentage takes that share of the subtotal, a fixed coupon its value. */
  function Share(t: Terms, subtotal: int): real {
    if t.kind == Percentage then subtotal as real * t.value / 100.0 else 100.0 * t.value
  }

  /** No more than a cap that is set and not zero. */
  function Capped(share: real, cap: Option<real>): real {
    if cap.Some? && cap.value != 0.0 then LeastReal(share, 100.0 * cap.value) else share
  }

  /** What a coupon is worth in cents, without rounding. */
  function Worth(t: Terms, subtotal: int): real {
    LeastReal(Capped(Share(t, subtotal), t.maxDiscount), subtotal as real)
  }

  predicate Near(cents: int, x: real) {
    x - 0.5000005 <= cents as real <= x + 0.5000005
  }

  lemma LeastNear(a: int, b: int, x: real, y: real)
    requires Near(a, x) && Near(b, y)
    ensures Near(Min(a, b), LeastReal(x, y))
  {
  }

  lemma AtLeastNothingNear(a: int, x: real)
    requires Near(a, x) && 0.0 <= x
    ensures Near(Max(0, a), x)
  {
  }

  lemma ShareNear(t: Terms, subtotal: int)
    ensures Near(RawDiscount(t, subtotal), Share(t, subtotal))
  {
    RoundNearest(subtotal as real * t.value / 100.0);
    ToCentsNear(t.value);
  }

  lemma CappedNear(raw: int, share: real, cap: Option<real>, subtotal: int)
    requires Near(raw, share)
    ensures var most := if cap.Some? && cap.value != 0.0 then ToCents(cap.value) else raw;
            Near(Min(Min(raw, most), subtotal), LeastReal(Capped(share, cap), subtotal as real))
  {
    var most := if cap.Some? && cap.value != 0.0 then ToCents(cap.value) else raw;
    if cap.Some? && cap.value != 0.0 {
      ToCentsNear(cap.value);
      LeastNear(raw, most, share, 100.0 * cap.value);
    }
    LeastNear(Min(raw, most), subtotal, Capped(share, cap), subtotal as real);
  }

  lemma WorthNonNegative(t: Terms, subtotal: int)
    requires ValidTerms(t) && 0 <= subtotal
    ensures 0.0 <= Worth(t, subtotal)
  {
    ScaleMonotone(0.0, subtotal as real, t.value);
  }

  lemma DiscountIs(t: Terms, raw: int, subtotal: int)
    requires raw == RawDiscount(t, subtotal)
    ensures var most := if t.maxDiscount.Some? && t.maxDiscount.value != 0.0 then ToCents(t.maxDiscount.value) else raw;
            DiscountCents(Some(t), subtotal) == Max(0, Min(Min(raw, most), subtotal))
  {
  }

  /** The discount granted is what the coupon is worth, to within one rounding. */
  lemma DiscountIsWorth(t: Terms, subtotal: int)
    requires ValidTerms(t) && 0 <= subtotal
    ensures Near(DiscountCents(Some(t), subtotal), Worth(t, subtotal))
  {
    var raw, share := RawDiscount(t, subtotal), Share(t, subtotal);
    ShareNear(t, subtotal);
    CappedNear(raw, share, t.maxDiscount, subtotal);
    WorthNonNegative(t, subtotal);
    DiscountIs(t, raw, subtotal);
    var most := if t.maxDiscount.Some? && t.maxDiscount.value != 0.0 then ToCents(t.maxDiscount.value) else raw;
    AtLeastNothingNear(Min(Min(raw, most), subtotal), Worth(t, subtotal));
  }
}
