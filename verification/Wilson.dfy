/**
 kernel/afa_kernel/confidence.py over the reals: the Wilson score interval. The square root is a parameter,
 so the laws below hold for any function that is one.
 */
module Wilson {
  const Z95: real := 1.96

  ghost predicate IsSqrt(sqrt: real -> real) {
    forall x :: x >= 0.0 ==> sqrt(x) >= 0.0 && sqrt(x) * sqrt(x) == x
  }

  datatype Interval = Interval(low: real, high: real)

  function Max(a: real, b: real): real {
    if a >= b then a else b
  }

  function Min(a: real, b: real): real {
    if a <= b then a else b
  }

  function Centre(p: real, n: real, z: real): real
    requires n > 0.0
  {
    (p + z * z / (2.0 * n)) / (1.0 + z * z / n)
  }

  function Half(sqrt: real -> real, p: real, n: real, z: real): real
    requires n > 0.0
  {
    z / (1.0 + z * z / n) * sqrt(Max(0.0, p * (1.0 - p) / n + z * z / (4.0 * n * n)))
  }

  function WilsonInterval(sqrt: real -> real, c: real, n: real, z: real): Interval {
    if n <= 0.0 then Interval(0.0, 1.0)
    else
      var p := c / n;
      Interval(if p <= 0.0 then 0.0 else Max(0.0, Centre(p, n, z) - Half(sqrt, p, n, z)),
               if p >= 1.0 then 1.0 else Min(1.0, Centre(p, n, z) + Half(sqrt, p, n, z)))
  }

  // ---- The quadratic behind the interval -------------------------------------------------

  /** x is as far from p as a binomial with success rate x allows at this z: the score test's boundary. */
  predicate OnBoundary(p: real, a: real, x: real) {
    (p - x) * (p - x) == a * x * (1.0 - x)
  }

  predicate Inside(p: real, a: real, x: real) {
    (p - x) * (p - x) < a * x * (1.0 - x)
  }

  /** Both ends, scaled by d = 1 + a with a = z*z/n: t is the scaled half width. */
  predicate Ends(p: real, a: real, t: real, lo: real, hi: real) {
    && a > 0.0 && t >= 0.0 && t * t == p * (1.0 - p) * a + a * a / 4.0
    && lo * (1.0 + a) == p + a / 2.0 - t && hi * (1.0 + a) == p + a / 2.0 + t
  }

  lemma Scaled(p: real, a: real, t: real, x: real)
    requires a > 0.0 && t * t == p * (1.0 - p) * a + a * a / 4.0
    requires x * (1.0 + a) == p + a / 2.0 + t
    ensures OnBoundary(p, a, x)
  {
    var d := 1.0 + a;
    assert d * x * x == (p + a / 2.0 + t) * x;
    // d * ((p - x)^2 - a x (1 - x)) == d * (d x^2 - (2p + a) x + p^2)
    assert (p - x) * (p - x) - a * x * (1.0 - x) == d * x * x - (2.0 * p + a) * x + p * p;
    assert (p - x) * (p - x) - a * x * (1.0 - x) == (t - p - a / 2.0) * x + p * p;
    assert d * ((t - p - a / 2.0) * x + p * p) == (t - p - a / 2.0) * (p + a / 2.0 + t) + d * p * p;
    assert (t - p - a / 2.0) * (p + a / 2.0 + t) == t * t - (p + a / 2.0) * (p + a / 2.0);
    assert d * ((t - p - a / 2.0) * x + p * p) == 0.0;
    ZeroFactor(d, (t - p - a / 2.0) * x + p * p);
  }

  lemma ZeroFactor(d: real, y: real)
    requires d > 0.0 && d * y == 0.0
    ensures y == 0.0
  {
  }

  lemma EndsOnBoundary(p: real, a: real, t: real, lo: real, hi: real)
    requires Ends(p, a, t, lo, hi)
    ensures OnBoundary(p, a, lo) && OnBoundary(p, a, hi)
  {
    Scaled(p, a, t, hi);
    assert (-t) * (-t) == t * t;
    Scaled(p, a, -t, lo);
  }

  /** The quadratic factors through its two ends. */
  lemma Factored(p: real, a: real, t: real, lo: real, hi: real, x: real)
    requires Ends(p, a, t, lo, hi)
    ensures (p - x) * (p - x) - a * x * (1.0 - x) == (1.0 + a) * ((x - lo) * (x - hi))
  {
    var d, s := 1.0 + a, p + a / 2.0;
    EndsOnBoundary(p, a, t, lo, hi);
    assert d * (lo + hi) == 2.0 * s;
    assert d * (lo * hi) == p * p by {
      assert d * (d * (lo * hi)) == (d * lo) * (d * hi) == (s - t) * (s + t) == s * s - t * t;
      assert s * s - t * t == d * (p * p);
      ZeroFactor(d, d * (lo * hi) - p * p);
    }
    assert d * ((x - lo) * (x - hi)) == d * (x * x) - d * (lo + hi) * x + d * (lo * hi);
  }

  lemma NonNegative(x: real, y: real)
    requires x >= 0.0 && y >= 0.0
    ensures x * y >= 0.0
  {
  }

  lemma Positive(x: real, y: real)
    requires x > 0.0 && y > 0.0
    ensures x * y > 0.0
  {
  }

  lemma SquareOf(x: real) returns (s: real)
    requires x > 0.0
    ensures s == x * x && s > 0.0
  {
    s := ProductOf(x, x);
  }

  lemma ProductOf(x: real, y: real) returns (m: real)
    requires x > 0.0 && y > 0.0
    ensures m == x * y && m > 0.0
  {
    m := x * y;
  }

  /** Non-negative numbers compare as their squares do. */
  lemma Square(x: real, y: real)
    requires x >= 0.0 && y >= 0.0
    ensures x * x <= y * y ==> x <= y
    ensures x * x < y * y ==> x < y
    ensures x > y ==> x * x > y * y
  {
    if x > y {
      Positive(x - y, x + y);
      assert x * x - y * y == (x - y) * (x + y);
    }
    if x == y { assert x * x == y * y; }
  }

  lemma Unscale(d: real, x: real, y: real)
    requires d > 0.0
    ensures x * d <= y * d ==> x <= y
    ensures x * d < y * d ==> x < y
  {
    if x > y { Positive(x - y, d); }
  }

  /** The half width stays below the distance from the centre to zero, strictly so unless the proportion is zero. */
  lemma WidthBelow(p: real, a: real, t: real)
    requires a > 0.0 && t >= 0.0 && t * t == p * (1.0 - p) * a + a * a / 4.0 && 0.0 <= p
    ensures t <= p + a / 2.0 && (p > 0.0 ==> t < p + a / 2.0)
    ensures p == 0.0 ==> t == a / 2.0
  {
    var m := p + a / 2.0;
    assert m * m - t * t == p * p * (1.0 + a);
    NonNegative(p, p);
    NonNegative(p * p, 1.0 + a);
    if p > 0.0 {
      var s := SquareOf(p);
      Positive(s, 1.0 + a);
      assert m * m - t * t == s * (1.0 + a);
    }
    Square(t, m);
    Square(m, t);
  }

  /** And at least the distance from the centre to the proportion, strictly so for a proportion inside (0, 1]. */
  lemma WidthAbove(p: real, a: real, t: real)
    requires a > 0.0 && t >= 0.0 && t * t == p * (1.0 - p) * a + a * a / 4.0 && 0.0 <= p <= 1.0
    ensures a / 2.0 - p * a <= t && (p > 0.0 ==> a / 2.0 - p * a < t)
  {
    var u, v := a * (0.5 - p), p * (1.0 - p);
    assert u == a / 2.0 - p * a;
    if p <= 0.5 {
      assert t * t - u * u == v * (a * (1.0 + a));
      NonNegative(a, 0.5 - p);
      NonNegative(p, 1.0 - p);
      Positive(a, 1.0 + a);
      NonNegative(v, a * (1.0 + a));
      if p > 0.0 {
        Positive(p, 1.0 - p);
        Positive(v, a * (1.0 + a));
      }
      Square(u, t);
    } else {
      Positive(a, p - 0.5);
    }
  }

  /** The lower end lies in [0, p], and strictly inside once p is positive. */
  lemma LowEnd(p: real, a: real, t: real, lo: real)
    requires a > 0.0 && t >= 0.0 && t * t == p * (1.0 - p) * a + a * a / 4.0 && 0.0 <= p <= 1.0
    requires lo * (1.0 + a) == p + a / 2.0 - t
    ensures 0.0 <= lo <= p && (p == 0.0 ==> lo == 0.0) && (p > 0.0 ==> 0.0 < lo < p)
  {
    WidthBelow(p, a, t);
    WidthAbove(p, a, t);
    hide *;
    Unscale(1.0 + a, 0.0, lo);
    Unscale(1.0 + a, lo, p);
    if p == 0.0 { Unscale(1.0 + a, lo, 0.0); }
  }

  /** For a proportion, the ends enclose it and stay within [0, 1]; the upper end mirrors the lower. */
  lemma EndsEnclose(p: real, a: real, t: real, lo: real, hi: real)
    requires Ends(p, a, t, lo, hi) && 0.0 <= p <= 1.0
    ensures 0.0 <= lo <= p <= hi <= 1.0
    ensures p == 0.0 ==> lo == 0.0
    ensures p == 1.0 ==> hi == 1.0
    ensures p > 0.0 ==> 0.0 < lo < p
  {
    LowEnd(p, a, t, lo);
    Mirror(p, a, t, hi);
    LowEnd(1.0 - p, a, t, 1.0 - hi);
  }

  lemma Mirror(p: real, a: real, t: real, hi: real)
    requires t * t == p * (1.0 - p) * a + a * a / 4.0 && hi * (1.0 + a) == p + a / 2.0 + t
    ensures t * t == (1.0 - p) * (1.0 - (1.0 - p)) * a + a * a / 4.0
    ensures (1.0 - hi) * (1.0 + a) == (1.0 - p) + a / 2.0 - t
  {
  }

  // ---- The interval has those ends -------------------------------------------------------

  /** The scaled half width. */
  function Width(sqrt: real -> real, p: real, n: real, z: real): real
    requires n > 0.0
  {
    z * sqrt(Max(0.0, p * (1.0 - p) / n + z * z / (4.0 * n * n)))
  }

  lemma RawEnds(sqrt: real -> real, p: real, n: real, z: real)
    requires IsSqrt(sqrt) && n > 0.0 && z > 0.0 && 0.0 <= p <= 1.0
    ensures Ends(p, z * z / n, Width(sqrt, p, n, z), Centre(p, n, z) - Half(sqrt, p, n, z), Centre(p, n, z) + Half(sqrt, p, n, z))
  {
    var zz := SquareOf(z);
    var a := Slope(zz, n);
    hide Width, Centre, Half, Ends;
    WidthSquared(sqrt, p, n, z, zz, a);
    CentreScaled(p, n, z, zz, a);
    HalfScaled(sqrt, p, n, z, a);
    EndsFrom(p, a, Width(sqrt, p, n, z), Centre(p, n, z), Half(sqrt, p, n, z));
  }

  lemma EndsFrom(p: real, a: real, t: real, centre: real, half: real)
    requires a > 0.0 && t >= 0.0 && t * t == p * (1.0 - p) * a + a * a / 4.0
    requires centre * (1.0 + a) == p + a / 2.0 && half * (1.0 + a) == t
    ensures Ends(p, a, t, centre - half, centre + half)
  {
    assert (centre - half) * (1.0 + a) == centre * (1.0 + a) - half * (1.0 + a);
    assert (centre + half) * (1.0 + a) == centre * (1.0 + a) + half * (1.0 + a);
  }

  lemma WidthSquared(sqrt: real -> real, p: real, n: real, z: real, zz: real, a: real)
    requires IsSqrt(sqrt) && n > 0.0 && z > 0.0 && 0.0 <= p <= 1.0 && zz == z * z && zz > 0.0 && a == zz / n
    ensures var t := Width(sqrt, p, n, z); t >= 0.0 && t * t == p * (1.0 - p) * a + a * a / 4.0
  {
    var pq := p * (1.0 - p);
    NonNegative(p, 1.0 - p);
    var v := pq / n + zz / (4.0 * n * n);
    Variance(pq, zz, n, a);
    var s := sqrt(v);
    assert s * s == v && s >= 0.0;
    SquareOfProduct(z, s);
    NonNegative(z, s);
  }

  lemma CentreScaled(p: real, n: real, z: real, zz: real, a: real)
    requires n > 0.0 && zz == z * z && zz > 0.0 && a == zz / n && a > 0.0
    ensures Centre(p, n, z) * (1.0 + a) == p + a / 2.0
  {
    assert zz / (2.0 * n) == a / 2.0;
    DivMul(p + a / 2.0, 1.0 + a);
  }

  lemma HalfScaled(sqrt: real -> real, p: real, n: real, z: real, a: real)
    requires n > 0.0 && a == z * z / n && a > 0.0
    ensures Half(sqrt, p, n, z) * (1.0 + a) == Width(sqrt, p, n, z)
  {
    Rearranged(z, 1.0 + a, sqrt(Max(0.0, p * (1.0 - p) / n + z * z / (4.0 * n * n))));
  }

  lemma Slope(zz: real, n: real) returns (a: real)
    requires zz > 0.0 && n > 0.0
    ensures a == zz / n && a > 0.0
  {
    a := zz / n;
  }

  lemma Variance(pq: real, zz: real, n: real, a: real)
    requires pq >= 0.0 && zz > 0.0 && n > 0.0 && a == zz / n
    ensures var v := pq / n + zz / (4.0 * n * n); v >= 0.0 && zz * v == pq * a + a * a / 4.0
  {
    assert zz / (4.0 * n * n) == a / n / 4.0;
    assert zz * (pq / n) == pq * a;
    assert zz * (a / n) == a * a;
  }

  lemma SquareOfProduct(z: real, s: real)
    ensures (z * s) * (z * s) == (z * z) * (s * s)
  {
  }

  lemma Rearranged(z: real, d: real, s: real)
    requires d > 0.0
    ensures z / d * s * d == z * s
  {
    DivMul(z, d);
  }

  lemma DivMul(x: real, d: real)
    requires d > 0.0
    ensures x / d * d == x
  {
  }

  lemma DivUnique(x: real, d: real, u: real)
    requires d > 0.0 && u * d == x
    ensures x / d == u
  {
  }

  lemma DivLess(x: real, y: real, d: real)
    requires d > 0.0 && x < y
    ensures x / d < y / d
  {
    var u, v := x / d, y / d;
    DivMul(x, d);
    DivMul(y, d);
    Unscale(d, u, v);
  }

  lemma IntervalIsEnds(sqrt: real -> real, c: real, n: real, z: real)
    requires IsSqrt(sqrt) && n > 0.0 && z > 0.0 && 0.0 <= c <= n
    ensures var p, w := c / n, WilsonInterval(sqrt, c, n, z);
      && 0.0 <= p <= 1.0 && Ends(p, z * z / n, Width(sqrt, p, n, z), w.low, w.high)
      && w == Interval(Centre(p, n, z) - Half(sqrt, p, n, z), Centre(p, n, z) + Half(sqrt, p, n, z))
  {
    var p := c / n;
    DivMul(c, n);
    assert p * n == c;
    Unscale(n, 0.0, p);
    Unscale(n, p, 1.0);
    RawEnds(sqrt, p, n, z);
    EndsEnclose(p, z * z / n, Width(sqrt, p, n, z), Centre(p, n, z) - Half(sqrt, p, n, z), Centre(p, n, z) + Half(sqrt, p, n, z));
  }

  // ---- What the interval means -----------------------------------------------------------

  /** Over the reals the clamps and the snapped end points change nothing: the bounds are the centre minus and plus the half
      width, they enclose the proportion, and they stay in [0, 1]. */
  lemma BoundsAreUnclamped(sqrt: real -> real, c: real, n: real, z: real)
    requires IsSqrt(sqrt) && n > 0.0 && z > 0.0 && 0.0 <= c <= n
    ensures var p, w := c / n, WilsonInterval(sqrt, c, n, z);
      && w.low == Centre(p, n, z) - Half(sqrt, p, n, z) && w.high == Centre(p, n, z) + Half(sqrt, p, n, z)
      && 0.0 <= w.low <= p <= w.high <= 1.0
  {
    IntervalIsEnds(sqrt, c, n, z);
    var p, w := c / n, WilsonInterval(sqrt, c, n, z);
    EndsEnclose(p, z * z / n, Width(sqrt, p, n, z), w.low, w.high);
  }

  /** The bounds are exactly the rates at which the score test is on its boundary; between them it passes, outside it fails. */
  lemma BoundsAreTheRoots(sqrt: real -> real, c: real, n: real, z: real, x: real)
    requires IsSqrt(sqrt) && n > 0.0 && z > 0.0 && 0.0 <= c <= n
    ensures var p, a, w := c / n, z * z / n, WilsonInterval(sqrt, c, n, z);
      && (OnBoundary(p, a, x) <==> x == w.low || x == w.high)
      && (Inside(p, a, x) <==> w.low < x < w.high)
  {
    IntervalIsEnds(sqrt, c, n, z);
    var w := WilsonInterval(sqrt, c, n, z);
    EndsAreTheRoots(c / n, z * z / n, Width(sqrt, c / n, n, z), w.low, w.high, x);
  }

  lemma EndsAreTheRoots(p: real, a: real, t: real, lo: real, hi: real, x: real)
    requires Ends(p, a, t, lo, hi) && 0.0 <= p <= 1.0
    ensures OnBoundary(p, a, x) <==> x == lo || x == hi
    ensures Inside(p, a, x) <==> lo < x < hi
  {
    EndsEnclose(p, a, t, lo, hi);
    Factored(p, a, t, lo, hi, x);
    SignOfFactored(1.0 + a, (p - x) * (p - x) - a * x * (1.0 - x), x - lo, x - hi);
  }

  lemma SignOfFactored(d: real, q: real, u: real, v: real)
    requires d > 0.0 && v <= u && q == d * (u * v)
    ensures q == 0.0 <==> u == 0.0 || v == 0.0
    ensures q < 0.0 <==> v < 0.0 < u
  {
    SignOfProduct(d, u, v);
  }

  lemma SignOfProduct(d: real, u: real, v: real)
    requires d > 0.0 && v <= u
    ensures d * (u * v) == 0.0 <==> u == 0.0 || v == 0.0
    ensures d * (u * v) < 0.0 <==> v < 0.0 < u
  {
    if v < 0.0 < u {
      assert u * v < 0.0;
    } else if u == 0.0 || v == 0.0 {
      assert u * v == 0.0;
    } else {
      assert u * v > 0.0;
    }
  }

  /** A rate q lies below the lower bound exactly when it is below the proportion and the score test rejects it. */
  lemma BelowTheLowerBound(sqrt: real -> real, c: real, n: real, z: real, q: real)
    requires IsSqrt(sqrt) && n > 0.0 && z > 0.0 && 0.0 <= c <= n
    ensures q < WilsonInterval(sqrt, c, n, z).low <==> q < c / n && (c / n - q) * (c / n - q) > z * z / n * q * (1.0 - q)
  {
    hide WilsonInterval, Centre, Half, OnBoundary;
    BoundsAreUnclamped(sqrt, c, n, z);
    BoundsAreTheRoots(sqrt, c, n, z, q);
    RejectedMeansOutside(c / n, z * z / n, q);
  }

  lemma RejectedMeansOutside(p: real, a: real, q: real)
    ensures OnBoundary(p, a, q) || Inside(p, a, q) <==> (p - q) * (p - q) <= a * q * (1.0 - q)
  {
  }

  /** For one sample size, more passes strictly raise the lower bound. */
  lemma LowerBoundIncreases(sqrt: real -> real, c: real, more: real, n: real, z: real)
    requires IsSqrt(sqrt) && n > 0.0 && z > 0.0 && 0.0 <= c < more <= n
    ensures WilsonInterval(sqrt, c, n, z).low < WilsonInterval(sqrt, more, n, z).low
  {
    hide WilsonInterval, Width;
    var q, p := WilsonInterval(sqrt, c, n, z).low, c / n;
    var zz := SquareOf(z);
    var a := Slope(zz, n);
    IntervalIsEnds(sqrt, c, n, z);
    EndsOnBoundary(p, a, Width(sqrt, p, n, z), q, WilsonInterval(sqrt, c, n, z).high);
    EndsEnclose(p, a, Width(sqrt, p, n, z), q, WilsonInterval(sqrt, c, n, z).high);
    DivLess(c, more, n);
    HigherProportionRejects(p, more / n, a, q);
    BelowTheLowerBound(sqrt, more, n, z, q);
  }

  lemma HigherProportionRejects(p: real, p': real, a: real, q: real)
    requires OnBoundary(p, a, q) && q <= p < p'
    ensures (p' - q) * (p' - q) > a * q * (1.0 - q)
  {
    Square(p' - q, p - q);
  }

  /** For one pass rate above zero, a larger sample strictly raises the lower bound. */
  lemma LargerSampleRaisesLowerBound(sqrt: real -> real, c: real, n: real, c': real, n': real, z: real)
    requires IsSqrt(sqrt) && z > 0.0 && 0.0 < c <= n < n' && 0.0 <= c' <= n' && c' / n' == c / n
    ensures WilsonInterval(sqrt, c, n, z).low < WilsonInterval(sqrt, c', n', z).low
  {
    hide WilsonInterval, Width;
    var q, p := WilsonInterval(sqrt, c, n, z).low, c / n;
    DivLess(0.0, c, n);
    var zz := SquareOf(z);
    var a := Slope(zz, n);
    SmallerSlope(zz, n, n');
    IntervalIsEnds(sqrt, c, n, z);
    EndsOnBoundary(p, a, Width(sqrt, p, n, z), q, WilsonInterval(sqrt, c, n, z).high);
    EndsEnclose(p, a, Width(sqrt, p, n, z), q, WilsonInterval(sqrt, c, n, z).high);
    SmallerSlopeRejects(p, a, zz / n', q);
    BelowTheLowerBound(sqrt, c', n', z, q);
  }

  lemma SmallerSlopeRejects(p: real, a: real, a': real, q: real)
    requires OnBoundary(p, a, q) && 0.0 < q < 1.0 && a' < a
    ensures (p - q) * (p - q) > a' * q * (1.0 - q)
  {
    var spread := ProductOf(q, 1.0 - q);
    var gap := ProductOf(a - a', spread);
    assert a * q * (1.0 - q) == a * spread && a' * q * (1.0 - q) == a' * spread;
  }

  lemma SmallerSlope(s: real, n: real, m: real)
    requires s > 0.0 && 0.0 < n < m
    ensures s / m < s / n
  {
    DivMul(s, n);
    DivMul(s, m);
    if s / m >= s / n {
      NonNegative(s / m - s / n, m);
      Positive(s / n, m - n);
    }
  }
}
