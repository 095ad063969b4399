/**
 * Exact decimal arithmetic in the manner of java.math.BigDecimal: a number is an
 * unscaled integer together with a scale, and denotes unscaled / 10^scale.
 * Only the operations the payment core uses are modelled: compareTo, multiply,
 * pow and setScale with RoundingMode.HALF_UP.
 */
module Money {

  function Pow(b: int, e: nat): (r: int)
    ensures b > 0 ==> r > 0
  {
    if e == 0 then 1 else b * Pow(b, e - 1)
  }

  /** Real-number power, the reference meaning of Pow over reals. */
  function RealPow(b: real, e: nat): real
  {
    if e == 0 then 1.0 else b * RealPow(b, e - 1)
  }

  lemma {:induction false} PowAdd(b: int, m: nat, n: nat)
    ensures Pow(b, m + n) == Pow(b, m) * Pow(b, n)
  {
    if m > 0 {
      PowAdd(b, m - 1, n);
      assert Pow(b, m + n) == b * Pow(b, m - 1 + n);
      MulAssoc(b, Pow(b, m - 1), Pow(b, n));
    }
  }

  lemma MulAssoc(a: int, b: int, c: int)
    ensures a * (b * c) == (a * b) * c
  {
  }

  /** A BigDecimal: the number unscaled / 10^scale. Negative scales are not modelled. */
  datatype Decimal = Decimal(unscaled: int, scale: nat)

  /** The rational number a decimal denotes: unscaled / 10^scale. */
  function Value(d: Decimal): real
    decreases d.scale
  {
    if d.scale == 0 then d.unscaled as real else Value(Decimal(d.unscaled, d.scale - 1)) / 10.0
  }

  lemma {:induction false} ValueIsQuotient(d: Decimal)
    decreases d.scale
    ensures Value(d) == d.unscaled as real / Pow(10, d.scale) as real
  {
    if d.scale > 0 {
      var e := Decimal(d.unscaled, d.scale - 1);
      ValueIsQuotient(e);
      var p := Pow(10, e.scale) as real;
      assert p > 0.0;
      assert Pow(10, d.scale) as real == 10.0 * p;
      assert (d.unscaled as real / p) / 10.0 == d.unscaled as real / (10.0 * p);
    }
  }

  lemma DivCross(a: real, p: real, b: real, q: real)
    requires p > 0.0 && q > 0.0
    ensures a / p < b / q <==> a * q < b * p
    ensures a / p == b / q <==> a * q == b * p
  {
    var x, y := a / p, b / q;
    assert a == x * p && b == y * q;
    assert a * q == x * (p * q) && b * p == y * (p * q);
    assert x < y <==> x * (p * q) < y * (p * q);
    assert x == y <==> x * (p * q) == y * (p * q);
  }

  /** Cross-multiplying the unscaled values orders two decimals by value. */
  lemma CompareByCrossProduct(x: Decimal, y: Decimal)
    ensures x.unscaled * Pow(10, y.scale) < y.unscaled * Pow(10, x.scale) <==> Value(x) < Value(y)
    ensures x.unscaled * Pow(10, y.scale) == y.unscaled * Pow(10, x.scale) <==> Value(x) == Value(y)
  {
    ValueIsQuotient(x);
    ValueIsQuotient(y);
    IntCross(x.unscaled, Pow(10, x.scale), y.unscaled, Pow(10, y.scale));
  }

  lemma IntCross(a: int, p: int, b: int, q: int)
    requires p > 0 && q > 0
    ensures a * q < b * p <==> a as real / p as real < b as real / q as real
    ensures a * q == b * p <==> a as real / p as real == b as real / q as real
  {
    DivCross(a as real, p as real, b as real, q as real);
    assert (a * q) as real == a as real * q as real;
    assert (b * p) as real == b as real * p as real;
  }

  /** BigDecimal.compareTo: -1, 0 or 1 as x is numerically below, equal to or above y. */
  function Compare(x: Decimal, y: Decimal): (c: int)
    ensures c == -1 || c == 0 || c == 1
    ensures c < 0 <==> Value(x) < Value(y)
    ensures c == 0 <==> Value(x) == Value(y)
    ensures c > 0 <==> Value(x) > Value(y)
  {
    var l, r := x.unscaled * Pow(10, y.scale), y.unscaled * Pow(10, x.scale);
    CompareByCrossProduct(x, y);
    if l < r then -1 else if l > r then 1 else 0
  }

  /** BigDecimal.multiply: exact, the scale is the sum of the scales. */
  function Multiply(x: Decimal, y: Decimal): (r: Decimal)
    ensures Value(r) == Value(x) * Value(y)
  {
    var r := Decimal(x.unscaled * y.unscaled, x.scale + y.scale);
    PowAdd(10, x.scale, y.scale);
    ValueIsQuotient(x);
    ValueIsQuotient(y);
    ValueIsQuotient(r);
    ValueOfProduct(x.unscaled, Pow(10, x.scale), y.unscaled, Pow(10, y.scale));
    r
  }

  lemma ValueOfProduct(a: int, p: int, b: int, q: int)
    requires p > 0 && q > 0
    ensures (a * b) as real / (p * q) as real == (a as real / p as real) * (b as real / q as real)
  {
    var x, y := a as real / p as real, b as real / q as real;
    assert a as real == x * p as real && b as real == y * q as real;
    assert (a * b) as real == a as real * b as real;
    assert (p * q) as real == p as real * q as real;
    assert (a * b) as real == (x * y) * (p as real * q as real);
  }

  /** Multiply's value, as a fact at the call site. */
  lemma MultiplyValue(x: Decimal, y: Decimal)
    ensures Value(Multiply(x, y)) == Value(x) * Value(y)
  {
  }

  /** BigDecimal.pow(n) for n in range: exact, the scale is scale * n. */
  function DecimalPow(d: Decimal, n: nat): (r: Decimal)
    ensures Value(r) == RealPow(Value(d), n)
  {
    if n == 0 then Decimal(1, 0)
    else
      var r := Multiply(d, DecimalPow(d, n - 1));
      assert d.scale + d.scale * (n - 1) == d.scale * n;
      r
  }

  /**
   * Division of num by den rounded to the nearest integer, ties away from zero:
   * RoundingMode.HALF_UP. The ensures clauses say that num/den lies within half a
   * unit of r, with the tie on the side away from zero.
   */
  function RoundHalfUp(num: int, den: int): (r: int)
    requires den > 0
    ensures num >= 0 ==> r >= 0 && 2 * den * r - den <= 2 * num < 2 * den * r + den
    ensures num < 0 ==> r <= 0 && 2 * den * r - den < 2 * num <= 2 * den * r + den
  {
    if num >= 0 then HalfUpNonNegative(num, den)
    else var q: int := HalfUpNonNegative(-num, den); -q
  }

  function HalfUpNonNegative(num: nat, den: int): (r: nat)
    requires den > 0
    ensures 2 * den * r - den <= 2 * num < 2 * den * r + den
  {
    var q := (2 * num + den) / (2 * den);
    DivBounds(2 * num + den, 2 * den);
    q
  }

  lemma DivBounds(a: nat, b: int)
    requires b > 0
    ensures b * (a / b) <= a < b * (a / b) + b
  {
  }

  /**
   * BigDecimal.setScale(newScale, RoundingMode.HALF_UP): exact when the scale grows,
   * rounded half-up when it shrinks. The result always has the new scale, and for a
   * non-negative input its value is within half a unit of the last place of the input,
   * ties rounded up.
   */
  function SetScaleHalfUp(d: Decimal, newScale: nat): (r: Decimal)
    ensures r.scale == newScale
    ensures newScale >= d.scale ==> Value(r) == Value(d)
    ensures Value(d) >= 0.0 ==> Value(r) >= 0.0
    ensures Value(d) >= 0.0 ==> WithinHalfUnit(Value(r), Value(d), newScale)
    ensures Value(d) < 0.0 ==> Value(r) <= 0.0
    ensures Value(d) < 0.0 ==> WithinHalfUnitTieAbove(Value(r), Value(d), newScale)
  {
    ValueSign(d);
    if newScale >= d.scale then
      var r := Decimal(d.unscaled * Pow(10, newScale - d.scale), newScale);
      ScaleUp(d, newScale);
      HalfUnitPositive(newScale);
      r
    else
      var r := Decimal(RoundHalfUp(d.unscaled, Pow(10, d.scale - newScale)), newScale);
      ScaleDown(d, newScale);
      ValueSign(r);
      r
  }

  /** SetScaleHalfUp's bounds for a non-negative decimal, as facts at the call site. */
  lemma SetScaleBounds(d: Decimal, newScale: nat)
    requires Value(d) >= 0.0
    ensures var r := SetScaleHalfUp(d, newScale);
      r.scale == newScale && Value(r) >= 0.0 && WithinHalfUnit(Value(r), Value(d), newScale)
  {
  }

  /** HALF_UP ties go away from zero on both sides: 0.005 becomes 0.01 and -0.005 becomes -0.01. */
  lemma SetScaleTies()
    ensures SetScaleHalfUp(Decimal(5, 3), 2) == Decimal(1, 2)
    ensures SetScaleHalfUp(Decimal(-5, 3), 2) == Decimal(-1, 2)
    ensures SetScaleHalfUp(Decimal(-4, 3), 2) == Decimal(0, 2)
  {
    assert Pow(10, 1) == 10;
  }

  /** A decimal is non-negative exactly when its unscaled value is. */
  lemma ValueSign(d: Decimal)
    ensures Value(d) >= 0.0 <==> d.unscaled >= 0
    ensures Value(d) <= 0.0 <==> d.unscaled <= 0
  {
    ValueIsQuotient(d);
    QuotientSign(d.unscaled as real, Pow(10, d.scale) as real);
  }

  lemma QuotientSign(a: real, p: real)
    requires p > 0.0
    ensures a / p >= 0.0 <==> a >= 0.0
    ensures a / p <= 0.0 <==> a <= 0.0
  {
    var v := a / p;
    assert a == v * p;
  }

  lemma ScaleUp(d: Decimal, newScale: nat)
    requires newScale >= d.scale
    ensures var r := Decimal(d.unscaled * Pow(10, newScale - d.scale), newScale);
      Value(r) == Value(d) &&
      (d.unscaled >= 0 ==> Value(r) - HalfUnit(newScale) <= Value(d) < Value(r) + HalfUnit(newScale))
  {
    var k := Pow(10, newScale - d.scale);
    PowAdd(10, newScale - d.scale, d.scale);
    ScaleUpValue(d.unscaled, k, Pow(10, d.scale));
    ValueIsQuotient(d);
    ValueIsQuotient(Decimal(d.unscaled * k, newScale));
    HalfUnitPositive(newScale);
  }

  lemma ScaleDown(d: Decimal, newScale: nat)
    requires newScale < d.scale
    ensures var r := Decimal(RoundHalfUp(d.unscaled, Pow(10, d.scale - newScale)), newScale);
      (d.unscaled >= 0 ==> r.unscaled >= 0) &&
      (d.unscaled >= 0 ==> Value(r) - HalfUnit(newScale) <= Value(d) < Value(r) + HalfUnit(newScale)) &&
      (d.unscaled < 0 ==> r.unscaled <= 0) &&
      (d.unscaled < 0 ==> Value(r) - HalfUnit(newScale) < Value(d) <= Value(r) + HalfUnit(newScale))
  {
    var den := Pow(10, d.scale - newScale);
    var q := RoundHalfUp(d.unscaled, den);
    PowAdd(10, d.scale - newScale, newScale);
    RoundedValue(d.unscaled, q, den, Pow(10, newScale));
    ValueIsQuotient(d);
    ValueIsQuotient(Decimal(q, newScale));
    HalfUnitIsQuotient(newScale);
  }

  /**
   * Two decimals on the grid of scale k: if t plus half a unit of that scale exceeds a,
   * then t is not below a, since both are whole multiples of the unit.
   */
  lemma NotBelowOnGrid(t: Decimal, a: Decimal, k: nat)
    requires t.scale == k && a.scale <= k
    requires Value(a) < Value(t) + HalfUnit(k)
    ensures Value(a) <= Value(t)
  {
    ScaleUp(a, k);
    var a' := Decimal(a.unscaled * Pow(10, k - a.scale), k);
    ValueIsQuotient(t);
    ValueIsQuotient(a');
    HalfUnitIsQuotient(k);
    GridStep(t.unscaled, a'.unscaled, Pow(10, k));
  }

  lemma GridStep(x: int, y: int, p: int)
    requires p > 0
    requires y as real / p as real < x as real / p as real + 1.0 / (2 * p) as real
    ensures y as real / p as real <= x as real / p as real
  {
    var q := p as real;
    assert (2 * p) as real == 2.0 * q;
    assert y as real / q * (2.0 * q) == 2.0 * y as real;
    assert (x as real / q + 1.0 / (2.0 * q)) * (2.0 * q) == 2.0 * x as real + 1.0;
    assert 2 * y < 2 * x + 1;
    assert y <= x;
    DivMonotone(y as real, x as real, q);
  }

  /** x lies within half a unit of the last place of scale k around t, a tie below. */
  predicate WithinHalfUnit(t: real, x: real, k: nat)
  {
    t - HalfUnit(k) <= x < t + HalfUnit(k)
  }

  /**
   * x lies within half a unit of the last place of scale k around t, a tie above: the
   * HALF_UP rounding of a negative number, whose tie goes away from zero, down to t.
   */
  predicate WithinHalfUnitTieAbove(t: real, x: real, k: nat)
  {
    t - HalfUnit(k) < x <= t + HalfUnit(k)
  }

  lemma HalfCent()
    ensures HalfUnit(2) == 0.005
  {
  }

  /** Half a unit in the last place at the given scale: 1 / (2 * 10^scale). */
  function HalfUnit(scale: nat): real
  {
    if scale == 0 then 0.5 else HalfUnit(scale - 1) / 10.0
  }

  lemma {:induction false} HalfUnitIsQuotient(scale: nat)
    ensures HalfUnit(scale) == 1.0 / (2 * Pow(10, scale)) as real
  {
    if scale > 0 {
      HalfUnitIsQuotient(scale - 1);
      var p := (2 * Pow(10, scale - 1)) as real;
      assert p > 0.0;
      assert (2 * Pow(10, scale)) as real == 10.0 * p;
      assert (1.0 / p) / 10.0 == 1.0 / (10.0 * p);
    }
  }

  lemma {:induction false} HalfUnitPositive(scale: nat)
    ensures HalfUnit(scale) > 0.0
  {
    if scale > 0 {
      HalfUnitPositive(scale - 1);
    }
  }

  lemma ScaleUpValue(u: int, k: int, p: int)
    requires k > 0 && p > 0
    ensures (u * k) as real / (k * p) as real == u as real / p as real
  {
    ValueOfProduct(u, 1, k, k * p);
    assert (u * k) as real == u as real * k as real;
    assert (k * p) as real == k as real * p as real;
  }

  lemma RoundedValue(u: int, r: int, den: int, p: int)
    requires den > 0 && p > 0
    requires u >= 0 ==> 2 * den * r - den <= 2 * u < 2 * den * r + den
    requires u < 0 ==> 2 * den * r - den < 2 * u <= 2 * den * r + den
    ensures u >= 0 ==>
      r as real / p as real - 1.0 / (2 * p) as real
        <= u as real / (den * p) as real
        <  r as real / p as real + 1.0 / (2 * p) as real
    ensures u < 0 ==>
      r as real / p as real - 1.0 / (2 * p) as real
        <  u as real / (den * p) as real
        <= r as real / p as real + 1.0 / (2 * p) as real
  {
    var U, R, N, P := u as real, r as real, den as real, p as real;
    assert (2 * den * r - den) as real == 2.0 * N * R - N;
    assert (2 * den * r + den) as real == 2.0 * N * R + N;
    assert (den * p) as real == N * P;
    assert (2 * p) as real == 2.0 * P;
    if u >= 0 {
      HalfBounds(U, R, N, P);
    } else {
      HalfBoundsTieAbove(U, R, N, P);
    }
  }

  /** Dividing 2NR - N <= 2U < 2NR + N by 2NP. */
  lemma HalfBounds(U: real, R: real, N: real, P: real)
    requires N > 0.0 && P > 0.0
    requires 2.0 * N * R - N <= 2.0 * U < 2.0 * N * R + N
    ensures R / P - 1.0 / (2.0 * P) <= U / (N * P) < R / P + 1.0 / (2.0 * P)
  {
    var D := 2.0 * N * P;
    DivMonotone(2.0 * N * R - N, 2.0 * U, D);
    DivStrict(2.0 * U, 2.0 * N * R + N, D);
    assert 2.0 * U / D == U / (N * P);
    assert (2.0 * N * R - N) / D == R / P - 1.0 / (2.0 * P);
    assert (2.0 * N * R + N) / D == R / P + 1.0 / (2.0 * P);
  }

  /** Dividing 2NR - N < 2U <= 2NR + N by 2NP. */
  lemma HalfBoundsTieAbove(U: real, R: real, N: real, P: real)
    requires N > 0.0 && P > 0.0
    requires 2.0 * N * R - N < 2.0 * U <= 2.0 * N * R + N
    ensures R / P - 1.0 / (2.0 * P) < U / (N * P) <= R / P + 1.0 / (2.0 * P)
  {
    var D := 2.0 * N * P;
    DivStrict(2.0 * N * R - N, 2.0 * U, D);
    DivMonotone(2.0 * U, 2.0 * N * R + N, D);
    assert 2.0 * U / D == U / (N * P);
    assert (2.0 * N * R - N) / D == R / P - 1.0 / (2.0 * P);
    assert (2.0 * N * R + N) / D == R / P + 1.0 / (2.0 * P);
  }

  lemma DivMonotone(a: real, b: real, d: real)
    requires d > 0.0 && a <= b
    ensures a / d <= b / d
  {
  }

  lemma DivStrict(a: real, b: real, d: real)
    requires d > 0.0 && a < b
    ensures a / d < b / d
  {
  }
}
