/**
 * The gateway's consumption tests: Int64 counters divided and scaled in System.Decimal.
 *
 * A System.Decimal is an integer of at most 96 bits divided by a power of ten of at most 28; a
 * result that needs more digits keeps the largest scale that fits, rounded half to even.
 */
module DecimalThreshold {
  import opened Common

  const INT64_MAX := 0x7FFF_FFFF_FFFF_FFFF
  const INT64_SPAN := 0x1_0000_0000_0000_0000
  const INT32_SPAN := 0x1_0000_0000
  const DECIMAL_LIMIT := 0x1_0000_0000_0000_0000_0000_0000
  const MAX_SCALE := 28

  predicate IsInt64(x: int) { -INT64_MAX - 1 <= x <= INT64_MAX }

  /** Unchecked Int64 arithmetic keeps the low 64 bits. */
  function Wrap64(x: int): (y: int)
    ensures IsInt64(y)
    ensures IsInt64(x) ==> y == x
  {
    (x + INT64_MAX + 1) % INT64_SPAN - INT64_MAX - 1
  }

  function Wrap32(x: int): int { (x + INT32_SPAN / 2) % INT32_SPAN - INT32_SPAN / 2 }

  function Pow10(t: nat): (p: nat)
    ensures p > 0
  {
    if t == 0 then 1 else 10 * Pow10(t - 1)
  }

  lemma {:induction false} Pow10Adds(s: nat, t: nat)
    ensures Pow10(s + t) == Pow10(s) * Pow10(t)
  {
    if s > 0 { Pow10Adds(s - 1, t); }
  }

  function Shifted(x: nat, t: nat): nat { x * Pow10(t) }

  function RoundHalfEven(x: nat, b: nat): nat
    requires b > 0
  {
    var q, r := x / b, x % b;
    if 2 * r > b || (2 * r == b && q % 2 == 1) then q + 1 else q
  }

  datatype Decimal = Decimal(mantissa: int, scale: nat)

  predicate IsDecimal(d: Decimal) {
    -DECIMAL_LIMIT < d.mantissa < DECIMAL_LIMIT && d.scale <= MAX_SCALE
  }

  /** The largest scale, from `t` down, at which the rounded quotient fits. */
  function ScaleFrom(x: nat, b: nat, t: nat): (s: nat)
    requires b > 0
    ensures s <= t
  {
    if t == 0 || RoundHalfEven(Shifted(x, t), b) < DECIMAL_LIMIT then t else ScaleFrom(x, b, t - 1)
  }

  lemma {:induction false} ScaleFromIs(x: nat, b: nat, t: nat)
    requires b > 0
    ensures ScaleFrom(x, b, t) > 0 ==> RoundHalfEven(Shifted(x, ScaleFrom(x, b, t)), b) < DECIMAL_LIMIT
    ensures forall u :: ScaleFrom(x, b, t) < u <= t ==> RoundHalfEven(Shifted(x, u), b) >= DECIMAL_LIMIT
  {
    hide RoundHalfEven, Shifted;
    if t > 0 { ScaleFromIs(x, b, t - 1); }
  }

  /** `None` is the thrown OverflowException. */
  function Fit(negative: bool, x: nat, b: nat): Option<Decimal>
    requires b > 0
  {
    var t := ScaleFrom(x, b, MAX_SCALE);
    var m: int := RoundHalfEven(Shifted(x, t), b);
    if m >= DECIMAL_LIMIT then None else Some(Decimal(if negative then -m else m, t))
  }

  lemma FitIsDecimal(negative: bool, x: nat, b: nat)
    requires b > 0 && Fit(negative, x, b).Some?
    ensures IsDecimal(Fit(negative, x, b).value)
  {
    hide RoundHalfEven, ScaleFrom, Shifted;
    ScaleFromIs(x, b, MAX_SCALE);
  }

  function Abs(x: int): nat { if x < 0 then -x else x }

  function Divide(a: int, b: int): Option<Decimal>
    requires b > 0
  {
    Fit(a < 0, Abs(a), b)
  }

  function Scale(d: Decimal, k: nat): Option<Decimal> { Fit(d.mantissa < 0, Abs(d.mantissa) * k, Pow10(d.scale)) }

  predicate AtLeast(d: Decimal, n: int) { d.mantissa >= n * Pow10(d.scale) }

  // ----- why rounding never shows

  lemma MulMono(a: nat, b: nat, c: nat)
    requires a <= b
    ensures a * c <= b * c
  {}

  lemma Quotient(x: nat, b: nat, q: nat, r: nat)
    requires b > 0 && q == x / b && r == x % b
    ensures x == b * q + r && r < b
  {}

  lemma RoundingIsNear(x: nat, b: nat)
    requires b > 0
    ensures var m := RoundHalfEven(x, b);
      2 * (b * m) <= 2 * x + b && 2 * x <= 2 * (b * m) + b
    ensures b * RoundHalfEven(x, b) <= x + b
  {
    var q, r := x / b, x % b;
    Quotient(x, b, q, r);
    assert b * (q + 1) == b * q + b;
  }

  lemma RoundingExact(m: nat, b: nat)
    requires b > 0
    ensures RoundHalfEven(m * b, b) == m
  {
    DivExact(m, b, m * b / b, m * b % b);
  }

  lemma DivExact(m: nat, b: nat, q: nat, r: nat)
    requires b > 0 && q == m * b / b && r == m * b % b
    ensures q == m && r == 0
  {
    Quotient(m * b, b, q, r);
    assert b * (m - q) == r by { Distribute(m, q, b); }
    if m - q >= 1 { MulMono(1, m - q, b); }
    if q - m >= 1 { MulMono(1, q - m, b); }
  }

  lemma FactorBound(m: nat, b: nat, bound: nat)
    requires b > 0 && b * m <= bound + b
    ensures m <= bound + 1
  {
    if m > bound + 1 {
      MulMono(bound + 2, m, b);
      assert (bound + 2) * b == bound * b + 2 * b;
      MulMono(1, b, bound);
    }
  }

  /** Nine digits always fit: the dividend has at most nineteen, and 96 bits hold twenty-eight. */
  lemma NineDigitsFit(a: nat, b: nat)
    requires 0 < b && a <= INT64_MAX + 1
    ensures ScaleFrom(a, b, MAX_SCALE) >= 9
  {
    hide RoundHalfEven;
    ScaleFromIs(a, b, MAX_SCALE);
    var x := Shifted(a, 9);
    assert Pow10(9) == 1_000_000_000;
    assert x == a * 1_000_000_000;
    RoundingIsNear(x, b);
    FactorBound(RoundHalfEven(x, b), b, x);
  }

  lemma FineArithmetic(p: nat, b: nat, x: nat)
    requires (DECIMAL_LIMIT - 2) * b <= x <= (INT64_MAX + 1) * (10 * p) && b > 0
    ensures p > 10_000 * b
  {}

  /** The scale chosen is fine enough to tell apart any two counters of a quota this large. */
  lemma ScaleIsFine(a: nat, b: nat, t: nat)
    requires 0 < b <= INT64_MAX && a <= INT64_MAX + 1 && t == ScaleFrom(a, b, MAX_SCALE)
    ensures Pow10(t) > 10_000 * b
  {
    hide RoundHalfEven, ScaleFrom;
    ScaleFromIs(a, b, MAX_SCALE);
    if t == MAX_SCALE {
      TwentyEight();
    } else {
      var x, m := Shifted(a, t + 1), RoundHalfEven(Shifted(a, t + 1), b);
      RoundingIsNear(x, b);
      MulMono(DECIMAL_LIMIT, m, b);
      assert Pow10(t + 1) == 10 * Pow10(t);
      MulMono(a, INT64_MAX + 1, 10 * Pow10(t));
      FineArithmetic(Pow10(t), b, x);
    }
  }

  lemma TwentyEight()
    ensures Pow10(28) == 10_000_000_000_000_000_000_000_000_000
  {
    Pow10Adds(14, 14);
    Pow10Adds(7, 7);
    assert Pow10(7) == 10_000_000;
  }

  /** A quotient compared with a multiple of a fine enough unit compares as its rounding does. */
  lemma RoundingKeepsOrder(x: nat, b: nat, g: nat)
    requires b > 0
    requires x < g * b ==> 2 * (g * b - x) > b
    requires x > g * b ==> 2 * (x - g * b) > b
    ensures RoundHalfEven(x, b) >= g <==> x >= g * b
    ensures RoundHalfEven(x, b) <= g <==> x <= g * b
  {
    var m := RoundHalfEven(x, b);
    RoundingIsNear(x, b);
    if x == g * b {
      RoundingExact(g, b);
    } else if x < g * b {
      if m >= g { MulMono(g, m, b); }
    } else {
      if m <= g { MulMono(m, g, b); }
    }
  }

  /** Multiplying by a power of ten no larger than the scale is exact. */
  lemma ScalingIsExact(d: Decimal, k: nat, digits: nat)
    requires IsDecimal(d) && digits <= d.scale && k == Pow10(digits)
    ensures Scale(d, k).Some?
    ensures forall n: int :: AtLeast(Scale(d, k).value, n) <==> d.mantissa >= n * Pow10(d.scale - digits)
  {
    hide RoundHalfEven, ScaleFrom, Shifted, Pow10;
    var m, u := Abs(d.mantissa), d.scale - digits;
    var t := ScaleFrom(m * k, Pow10(d.scale), MAX_SCALE);
    ScaleFromIs(m * k, Pow10(d.scale), MAX_SCALE);
    ScaledQuotient(m, digits, u, u);
    NothingAdded(u);
    assert RoundHalfEven(Shifted(m * k, u), Pow10(d.scale)) == m * Pow10(u - u) == m;
    assert t >= u;
    ScaledQuotient(m, digits, u, t);
    var r := Pow10(t - u);
    assert Scale(d, k).Some?;
    forall n: int ensures AtLeast(Scale(d, k).value, n) <==> d.mantissa >= n * Pow10(u) {
      assert Scale(d, k).value.mantissa == d.mantissa * r by { if d.mantissa < 0 { NegativeProduct(m, r); } }
      Pow10Adds(u, t - u);
      MulAssoc(n, Pow10(u), r);
      CancelFactor(d.mantissa, n * Pow10(u), r);
    }
  }

  lemma NothingAdded(u: nat)
    ensures Pow10(u - u) == 1
  {}

  lemma NegativeProduct(m: int, r: int)
    ensures (0 - m) * r == 0 - m * r
  {}

  lemma MulAssoc(a: int, b: int, c: int)
    ensures a * (b * c) == (a * b) * c
  {}

  lemma CancelFactor(a: int, b: int, r: nat)
    requires r > 0
    ensures a * r >= b * r <==> a >= b
  {
    if a >= b { assert (a - b) * r >= 0; } else { assert (b - a) * r > 0; }
  }

  /** Once the digits of the factor are used up, what was divided is a whole multiple of the divisor. */
  lemma ScaledQuotient(m: nat, digits: nat, u: nat, t: nat)
    requires u <= t
    ensures RoundHalfEven(Shifted(m * Pow10(digits), t), Pow10(digits + u)) == m * Pow10(t - u)
  {
    hide RoundHalfEven;
    var k, r := Pow10(digits), Pow10(t - u);
    Pow10Adds(u, t - u);
    Pow10Adds(digits, u);
    Regroup(m, k, Pow10(u), r);
    RoundingExact(m * r, k * Pow10(u));
  }

  lemma Regroup(m: nat, k: nat, u: nat, r: nat)
    ensures (m * k) * (u * r) == (m * r) * (k * u)
  {}

  /**
   * For every Int64 counter and every positive Int64 quota, dividing, scaling to hundredths or to
   * basis points and comparing agrees with exact integer cross-multiplication, and nothing overflows.
   */
  lemma DecimalTestIsExact(used: int, quota: int, k: nat, digits: nat, n: int)
    requires IsInt64(used) && IsInt64(quota) && quota > 0
    requires digits <= 4 && k == Pow10(digits)
    ensures Divide(used, quota).Some? && Scale(Divide(used, quota).value, k).Some?
    ensures AtLeast(Scale(Divide(used, quota).value, k).value, n) <==> used * k >= n * quota
  {
    hide RoundHalfEven, ScaleFrom, Scale, AtLeast, Shifted, Pow10;
    var a := Abs(used);
    ScaleFromIs(a, quota, MAX_SCALE);
    var t := ScaleFrom(a, quota, MAX_SCALE);
    NineDigitsFit(a, quota);
    ScaleIsFine(a, quota, t);
    var m := RoundHalfEven(Shifted(a, t), quota);
    var d := Divide(used, quota).value;
    FitIsDecimal(used < 0, a, quota);
    ScalingIsExact(d, k, digits);
    var unit := Pow10(t - digits);
    Pow10Adds(digits, t - digits);
    ShiftedIs(a, t, k * unit);
    SmallPowers(digits);
    UnitIsCoarse(k, unit, quota);
    if used >= 0 {
      if n >= 0 { CompareAtUnit(a, quota, k, unit, n); }
      else {
        NegativeProduct(-n, unit);
        NegativeProduct(-n, quota);
        MulMono(0, -n, unit);
        MulMono(0, -n, quota);
        MulMono(0, used, k);
      }
    } else {
      NegativeCase(a, m, k, unit, quota, n);
      if n <= 0 { CompareAtUnit(a, quota, k, unit, -n); }
    }
  }

  lemma ShiftedIs(x: nat, t: nat, p: nat)
    requires p == Pow10(t)
    ensures Shifted(x, t) == x * p
  {}

  lemma SmallPowers(digits: nat)
    requires digits <= 4
    ensures Pow10(digits) <= 10_000
  {
    assert Pow10(4) == 10_000 && Pow10(3) == 1_000 && Pow10(2) == 100 && Pow10(1) == 10;
  }

  lemma UnitIsCoarse(k: nat, unit: nat, b: nat)
    requires 0 < k <= 10_000 && k * unit > 10_000 * b
    ensures unit > b
  {
    if unit <= b { MulMono(unit, b, k); MulMono(k, 10_000, b); }
  }

  /** With a unit larger than the divisor, quotients of different multiples are never rounded together. */
  lemma CompareAtUnit(a: nat, b: nat, k: nat, unit: nat, n: nat)
    requires 0 < b < unit && 0 < k
    ensures RoundHalfEven(a * (k * unit), b) >= n * unit <==> a * k >= n * b
    ensures RoundHalfEven(a * (k * unit), b) <= n * unit <==> a * k <= n * b
  {
    hide RoundHalfEven;
    var x, g, l, r := a * (k * unit), n * unit, a * k, n * b;
    MulAssoc(a, k, unit);
    Swap(n, unit, b);
    assert x == l * unit && g * b == r * unit;
    CancelFactor(l, r, unit);
    CancelFactor(r, l, unit);
    Apart(l, r, unit);
    Apart(r, l, unit);
    RoundingKeepsOrder(x, b, g);
  }

  lemma Swap(n: int, u: int, b: int)
    ensures (n * u) * b == (n * b) * u
  {}

  lemma Apart(x: nat, y: nat, u: nat)
    ensures x < y ==> y * u - x * u >= u
  {
    if x < y {
      MulMono(1, y - x, u);
      Distribute(y, x, u);
    }
  }

  lemma Distribute(x: int, y: int, u: int)
    ensures (x - y) * u == x * u - y * u
  {}

  lemma NegativeCase(a: int, m: int, k: int, unit: int, b: int, n: int)
    requires k > 0 && unit > 0 && b > 0 && a > 0 && m >= 0
    ensures (0 - m) >= n * unit <==> m <= (0 - n) * unit
    ensures (0 - a) * k >= n * b <==> a * k <= (0 - n) * b
    ensures n > 0 ==> !((0 - m) >= n * unit) && !((0 - a) * k >= n * b)
  {
    NegativeProduct(n, unit);
    NegativeProduct(n, b);
    NegativeProduct(a, k);
    assert a * k > 0;
    if n > 0 { assert n * unit > 0 && n * b > 0; }
  }

  // ----- the two tests

  const HUNDRED: nat := 100
  const BASIS: nat := 10_000

  /** `((decimal)(quota - remaining) / (decimal)quota) * scale >= at`, with Int64 subtraction. */
  predicate Crossed(against: int, from: int, remaining: int, scale: nat, at: int)
    requires against > 0
  {
    var share := Divide(Wrap64(from - remaining), against);
    share.Some? && Scale(share.value, scale).Some? && AtLeast(Scale(share.value, scale).value, at)
  }

  /** The subtraction leaves Int64: the counter is so far below zero that the consumption no longer fits. */
  predicate Wraps(from: int, remaining: int) { from - remaining > INT64_MAX }

  lemma WrapIsNegative(from: int, remaining: int)
    requires IsInt64(from) && IsInt64(remaining) && from >= 0
    ensures Wrap64(from - remaining) == if Wraps(from, remaining) then from - remaining - INT64_SPAN else from - remaining
    ensures Wraps(from, remaining) ==> Wrap64(from - remaining) < 0
  {}

  /**
   * Against a positive mark the test is exactly "this much was consumed", for every quota and
   * counter, except that a counter far enough below zero makes it answer no.
   */
  lemma CrossedExactly(against: int, from: int, remaining: int, digits: nat, scale: nat, at: int)
    requires IsInt64(against) && against > 0 && IsInt64(from) && from >= 0 && IsInt64(remaining)
    requires digits <= 4 && scale == Pow10(digits)
    ensures Divide(Wrap64(from - remaining), against).Some?
    ensures Scale(Divide(Wrap64(from - remaining), against).value, scale).Some?
    ensures at > 0 ==>
      (Crossed(against, from, remaining, scale, at) <==>
       !Wraps(from, remaining) && (from - remaining) * scale >= at * against)
    ensures !Wraps(from, remaining) ==>
      (Crossed(against, from, remaining, scale, at) <==> (from - remaining) * scale >= at * against)
  {
    hide Divide, Scale, AtLeast, Wrap64;
    WrapIsNegative(from, remaining);
    var used := Wrap64(from - remaining);
    DecimalTestIsExact(used, against, scale, digits, at);
    if Wraps(from, remaining) && at > 0 {
      assert used * scale <= 0 by { MulMono(0, -used, scale); }
      assert at * against > 0;
    }
  }

  /** More consumption un-crosses a positive mark exactly when the subtraction wraps. */
  lemma CrossedIsMonotone(against: int, from: int, more: int, less: int, digits: nat, scale: nat, at: int)
    requires IsInt64(against) && against > 0 && IsInt64(from) && from >= 0 && IsInt64(more) && IsInt64(less)
    requires digits <= 4 && scale == Pow10(digits)
    requires less <= more && Crossed(against, from, more, scale, at)
    ensures !Wraps(from, less) ==> Crossed(against, from, less, scale, at)
    ensures at > 0 ==> (Crossed(against, from, less, scale, at) <==> !Wraps(from, less))
  {
    hide Crossed;
    CrossedExactly(against, from, more, digits, scale, at);
    CrossedExactly(against, from, less, digits, scale, at);
    MulMono(from - more + INT64_SPAN, from - less + INT64_SPAN, scale);
    Distribute(from - more + INT64_SPAN, INT64_SPAN, scale);
    Distribute(from - less + INT64_SPAN, INT64_SPAN, scale);
  }

  /** The whole budget and more consumed, and the test says nothing was. */
  lemma WrapHidesExhaustion(quota: int, remaining: int, at: int)
    requires IsInt64(quota) && quota > 0 && IsInt64(remaining) && Wraps(quota, remaining) && at > 0
    ensures !Crossed(quota, quota, remaining, HUNDRED, at)
    ensures quota - remaining > quota
  {
    assert Pow10(2) == HUNDRED;
    CrossedExactly(quota, quota, remaining, 2, HUNDRED, at);
  }
}
