/** The statistics the analytics rely on, over exact reals:
    population and sample variance (NumPy's `np.std`/SciPy's `zscore` use the
    former, pandas' `Series.std` the latter), NumPy's default percentile
    (linear interpolation between order statistics) and the least-squares
    line through the points (i, y_i), i = 0 .. n-1.  Square roots never appear:
    a z-score test is stated on squares, and where the source does take a
    square root the model takes `sqrt` as a parameter. */
module Stats {
  import opened Common
  import Sorting

  lemma MulPositive(a: real, b: real)
    requires a > 0.0 && b > 0.0
    ensures a * b > 0.0
  {
  }

  lemma MulNonNegative(a: real, b: real)
    requires a >= 0.0 && b >= 0.0
    ensures a * b >= 0.0
  {
  }

  lemma SquareNonNegative(a: real)
    ensures a * a >= 0.0
  {
    if a < 0.0 {
      MulPositive(-a, -a);
    } else {
      MulNonNegative(a, a);
    }
  }

  lemma MulMonotone(f: real, g: real, d: real)
    requires f <= g && d >= 0.0
    ensures f * d <= g * d
  {
    MulNonNegative(g - f, d);
    assert g * d - f * d == (g - f) * d;
  }

  /** Sum of squared deviations of the elements from `m`. */
  function SumSqDev(xs: seq<real>, m: real): (r: real)
    ensures r >= 0.0
  {
    if |xs| == 0 then 0.0
    else
      SquareNonNegative(xs[|xs| - 1] - m);
      SumSqDev(xs[..|xs| - 1], m) + (xs[|xs| - 1] - m) * (xs[|xs| - 1] - m)
  }

  /** Population variance (ddof 0). */
  function PopVar(xs: seq<real>): (v: real)
    requires |xs| > 0
    ensures v >= 0.0
  {
    SumSqDev(xs, Mean(xs)) / |xs| as real
  }

  /** Sample variance (ddof 1); pandas yields NaN for fewer than two values,
      so callers test the length first. */
  function SampleVar(xs: seq<real>): (v: real)
    requires |xs| >= 2
    ensures v >= 0.0
  {
    SumSqDev(xs, Mean(xs)) / (|xs| - 1) as real
  }

  /** Squared deviations from a value every element equals sum to zero. */
  lemma {:induction false} SumSqDevConstant(xs: seq<real>, c: real)
    requires forall i :: 0 <= i < |xs| ==> xs[i] == c
    ensures SumSqDev(xs, c) == 0.0
    decreases |xs|
  {
    if |xs| > 0 {
      SumSqDevConstant(xs[..|xs| - 1], c);
    }
  }

  /** A constant series has its value as mean and no spread at all. */
  lemma ConstantSeries(xs: seq<real>, c: real)
    requires |xs| > 0
    requires forall i :: 0 <= i < |xs| ==> xs[i] == c
    ensures Mean(xs) == c
    ensures PopVar(xs) == 0.0
    ensures |xs| >= 2 ==> SampleVar(xs) == 0.0
  {
    SumConstant(xs, c);
    assert Sum(xs) / |xs| as real == c;
    SumSqDevConstant(xs, c);
  }

  function Abs(x: real): real
  {
    if x < 0.0 then -x else x
  }

  lemma DivideExceeds(d: real, s: real, k: real)
    requires s > 0.0
    ensures d / s > k <==> d > k * s
  {
    var z := d / s;
    assert z * s == d;
    assert z * s - k * s == (z - k) * s;
    if z > k {
      MulPositive(z - k, s);
    } else {
      MulNonNegative(k - z, s);
      assert k * s - z * s == (k - z) * s;
    }
  }

  lemma SquareExceeds(u: real, v: real)
    requires u >= 0.0 && v >= 0.0
    ensures u > v <==> u * u > v * v
  {
    assert u * u - v * v == (u - v) * (u + v);
    if u > v {
      MulPositive(u - v, u + v);
    } else {
      MulNonNegative(v - u, u + v);
      assert v * v - u * u == (v - u) * (u + v);
    }
  }

  /** The squared z-score test agrees with the test on `|x - m| / s` for any
      positive standard deviation `s` whose square is the variance. */
  lemma SquaredZTest(x: real, m: real, s: real, k: real)
    requires s > 0.0 && k >= 0.0
    ensures Abs(x - m) / s > k <==> (x - m) * (x - m) > k * k * (s * s)
  {
    var d := Abs(x - m);
    assert d * d == (x - m) * (x - m);
    assert (k * s) * (k * s) == k * k * (s * s);
    DivideExceeds(d, s, k);
    MulNonNegative(k, s);
    SquareExceeds(d, k * s);
  }

  // ---------------------------------------------------------------- percentiles

  function Neg(x: real): real
  {
    -x
  }

  /** The values in ascending order (NumPy sorts before interpolating). */
  function SortAsc(xs: seq<real>): (ys: seq<real>)
    ensures |ys| == |xs|
  {
    Sorting.SortDescProperties(xs, Neg);
    Sorting.SortDesc(xs, Neg)
  }

  ghost predicate Ascending(ys: seq<real>)
  {
    forall i, j :: 0 <= i < j < |ys| ==> ys[i] <= ys[j]
  }

  lemma SortAscProperties(xs: seq<real>)
    ensures |SortAsc(xs)| == |xs|
    ensures multiset(SortAsc(xs)) == multiset(xs)
    ensures Ascending(SortAsc(xs))
  {
    Sorting.SortDescProperties(xs, Neg);
    var ys := SortAsc(xs);
    forall i, j | 0 <= i < j < |ys|
      ensures ys[i] <= ys[j]
    {
      assert Neg(ys[i]) >= Neg(ys[j]);
    }
  }

  lemma MulLeft(a: nat, p: nat, q: nat)
    requires p <= q
    ensures a * p <= a * q
  {
    assert a * q - a * p == a * (q - p);
  }

  /** Position of the `p`-th percentile among `n` order statistics, split into
      the lower index and the fraction towards the next one:
      (n - 1) * p / 100 = lo + frac. */
  function PercentileLow(n: nat, p: nat): (lo: nat)
    requires n > 0 && p <= 100
    ensures lo < n
  {
    MulLeft(n - 1, p, 100);
    (n - 1) * p / 100
  }

  function PercentileFrac(n: nat, p: nat): (f: real)
    requires n > 0 && p <= 100
    ensures 0.0 <= f < 1.0
  {
    ((n - 1) * p % 100) as real / 100.0
  }

  /** The value a fraction `f` of the way from `ys[lo]` to the next element. */
  function Interpolate(ys: seq<real>, lo: nat, f: real): real
    requires lo < |ys|
  {
    if lo + 1 < |ys| then ys[lo] + f * (ys[lo + 1] - ys[lo]) else ys[lo]
  }

  /** `np.percentile(xs, p)` with the default linear interpolation. */
  function Percentile(xs: seq<real>, p: nat): real
    requires |xs| > 0 && p <= 100
  {
    Interpolate(SortAsc(xs), PercentileLow(|xs|, p), PercentileFrac(|xs|, p))
  }

  lemma InterpolateBetween(ys: seq<real>, lo: nat, f: real)
    requires Ascending(ys) && lo < |ys| && 0.0 <= f <= 1.0
    ensures ys[lo] <= Interpolate(ys, lo, f)
    ensures lo + 1 < |ys| ==> Interpolate(ys, lo, f) <= ys[lo + 1]
  {
    if lo + 1 < |ys| {
      var d := ys[lo + 1] - ys[lo];
      MulNonNegative(f, d);
      MulMonotone(f, 1.0, d);
    }
  }

  /** Interpolating further along an ascending sequence never gives less. */
  lemma InterpolateMonotone(ys: seq<real>, l1: nat, f1: real, l2: nat, f2: real)
    requires Ascending(ys) && l1 < |ys| && l2 < |ys|
    requires 0.0 <= f1 < 1.0 && 0.0 <= f2 < 1.0
    requires l1 < l2 || (l1 == l2 && f1 <= f2)
    ensures Interpolate(ys, l1, f1) <= Interpolate(ys, l2, f2)
  {
    InterpolateBetween(ys, l1, f1);
    InterpolateBetween(ys, l2, f2);
    if l1 == l2 {
      if l1 + 1 < |ys| {
        MulMonotone(f1, f2, ys[l1 + 1] - ys[l1]);
      }
    } else {
      assert ys[l1 + 1] <= ys[l2];
    }
  }

  lemma PercentilePositionMonotone(n: nat, p: nat, q: nat)
    requires n > 0 && p <= q <= 100
    ensures PercentileLow(n, p) <= PercentileLow(n, q)
    ensures PercentileLow(n, p) == PercentileLow(n, q) ==> PercentileFrac(n, p) <= PercentileFrac(n, q)
  {
    var a := (n - 1) * p;
    var b := (n - 1) * q;
    MulLeft(n - 1, p, q);
    assert a == a / 100 * 100 + a % 100;
    assert b == b / 100 * 100 + b % 100;
  }

  /** A higher percentile is never smaller: in particular Q1 <= Q3. */
  lemma PercentileMonotone(xs: seq<real>, p: nat, q: nat)
    requires |xs| > 0 && p <= q <= 100
    ensures Percentile(xs, p) <= Percentile(xs, q)
  {
    SortAscProperties(xs);
    PercentilePositionMonotone(|xs|, p, q);
    InterpolateMonotone(SortAsc(xs), PercentileLow(|xs|, p), PercentileFrac(|xs|, p),
                        PercentileLow(|xs|, q), PercentileFrac(|xs|, q));
  }

  /** Every percentile of a constant series is that constant. */
  lemma PercentileConstant(xs: seq<real>, c: real, p: nat)
    requires |xs| > 0 && p <= 100
    requires forall i :: 0 <= i < |xs| ==> xs[i] == c
    ensures Percentile(xs, p) == c
  {
    SortAscProperties(xs);
    var ys := SortAsc(xs);
    forall i | 0 <= i < |ys|
      ensures ys[i] == c
    {
      assert ys[i] in multiset(xs);
    }
  }

  // ---------------------------------------------------------------- least squares

  /** 0 + 1 + ... + (n - 1). */
  function IndexSum(n: nat): real
  {
    if n == 0 then 0.0 else IndexSum(n - 1) + (n - 1) as real
  }

  /** 0² + 1² + ... + (n - 1)². */
  function IndexSqSum(n: nat): real
  {
    if n == 0 then 0.0 else IndexSqSum(n - 1) + (n - 1) as real * (n - 1) as real
  }

  /** Σ i · ys[i]. */
  function CrossSum(ys: seq<real>): real
  {
    if |ys| == 0 then 0.0
    else CrossSum(ys[..|ys| - 1]) + (|ys| - 1) as real * ys[|ys| - 1]
  }

  /** The denominator n·Σi² - (Σi)² of the closed-form slope, from the sums
      n = count, sx = Σi, sxx = Σi². */
  function DenominatorOf(n: real, sx: real, sxx: real): real
  {
    n * sxx - sx * sx
  }

  /** The closed-form least-squares slope (n·Σxy - Σx·Σy) / (n·Σx² - (Σx)²). */
  function SlopeOf(n: real, sx: real, sxx: real, sy: real, sxy: real): real
    requires DenominatorOf(n, sx, sxx) != 0.0
  {
    (n * sxy - sx * sy) / DenominatorOf(n, sx, sxx)
  }

  /** The intercept that puts the line with slope `b` through the centroid. */
  function InterceptOf(n: real, sx: real, sy: real, b: real): real
    requires n != 0.0
  {
    (sy - b * sx) / n
  }

  function SlopeDenominator(n: nat): real
  {
    DenominatorOf(n as real, IndexSum(n), IndexSqSum(n))
  }

  /** Slope of the least-squares line through (i, ys[i]).  The denominator
      vanishes exactly for fewer than two points (`DenominatorZeroIff`), so
      two are needed. */
  function Slope(ys: seq<real>): real
    requires |ys| >= 2
  {
    DenominatorZeroIff(|ys|);
    SlopeOf(|ys| as real, IndexSum(|ys|), IndexSqSum(|ys|), Sum(ys), CrossSum(ys))
  }

  /** Intercept of the least-squares line with slope `b`. */
  function Intercept(ys: seq<real>, b: real): real
    requires |ys| > 0
  {
    InterceptOf(|ys| as real, IndexSum(|ys|), Sum(ys), b)
  }

  /** The residuals y_i - (a + b·i). */
  function Residuals(ys: seq<real>, a: real, b: real): (r: seq<real>)
    ensures |r| == |ys|
  {
    if |ys| == 0 then []
    else
      var k := |ys| - 1;
      Residuals(ys[..k], a, b) + [ys[k] - (a + b * k as real)]
  }

  lemma {:induction false} ResidualAt(ys: seq<real>, a: real, b: real, i: nat)
    requires i < |ys|
    ensures Residuals(ys, a, b)[i] == ys[i] - (a + b * i as real)
    decreases |ys|
  {
    var k := |ys| - 1;
    if i < k {
      ResidualAt(ys[..k], a, b, i);
    }
  }

  lemma {:induction false} IndexSumClosed(n: nat)
    ensures 2.0 * IndexSum(n) == n as real * (n as real - 1.0)
    decreases n
  {
    if n > 0 {
      IndexSumClosed(n - 1);
    }
  }

  lemma {:induction false} IndexSqSumClosed(n: nat)
    ensures 6.0 * IndexSqSum(n) == (n as real - 1.0) * n as real * (2.0 * n as real - 1.0)
    decreases n
  {
    if n > 0 {
      IndexSqSumClosed(n - 1);
      var m := (n - 1) as real;
      assert 6.0 * IndexSqSum(n) == (m - 1.0) * m * (2.0 * m - 1.0) + 6.0 * m * m;
    }
  }

  /** 12 · (n·Σi² - (Σi)²) = n²(n - 1)(n + 1). */
  lemma DenominatorClosed(n: nat)
    ensures 12.0 * SlopeDenominator(n) == n as real * n as real * (n as real - 1.0) * (n as real + 1.0)
  {
    IndexSumClosed(n);
    IndexSqSumClosed(n);
    var x := n as real;
    var s1 := IndexSum(n);
    var s2 := IndexSqSum(n);
    assert 12.0 * (s1 * s1) == 3.0 * (2.0 * s1) * (2.0 * s1);
    assert 12.0 * (x * s2) == 2.0 * x * (6.0 * s2);
  }

  /** The slope's denominator vanishes exactly when there are fewer than two
      points. */
  lemma DenominatorZeroIff(n: nat)
    ensures SlopeDenominator(n) == 0.0 <==> n < 2
  {
    DenominatorClosed(n);
    var x := n as real;
    if n >= 2 {
      assert x * x * (x - 1.0) * (x + 1.0) > 0.0 by {
        assert x * x > 0.0;
        assert (x - 1.0) * (x + 1.0) > 0.0;
        assert x * x * (x - 1.0) * (x + 1.0) == (x * x) * ((x - 1.0) * (x + 1.0));
      }
    }
  }

  /** The intercept puts the line through the centroid, on plain numbers. */
  lemma InterceptAlgebra(n: real, sx: real, sy: real, b: real)
    requires n > 0.0
    ensures n * InterceptOf(n, sx, sy, b) + b * sx == sy
  {
  }

  /** First normal equation of least squares: whatever the slope b, its
      intercept a puts the line through the centroid, n·a + b·Σi = Σy. */
  lemma InterceptCentroid(ys: seq<real>, b: real)
    requires |ys| > 0
    ensures |ys| as real * Intercept(ys, b) + b * IndexSum(|ys|) == Sum(ys)
  {
    InterceptAlgebra(|ys| as real, IndexSum(|ys|), Sum(ys), b);
  }

  lemma IndexStep(n: nat, x: real)
    requires n > 0 && x == (n - 1) as real
    ensures IndexSum(n) == IndexSum(n - 1) + x
    ensures IndexSqSum(n) == IndexSqSum(n - 1) + x * x
  {
  }

  lemma LineStep(n: real, s1: real, s2: real, x: real, a: real, b: real)
    ensures (n * a + b * s1) + (a + b * x) == (n + 1.0) * a + b * (s1 + x)
    ensures (a * s1 + b * s2) + x * (a + b * x) == a * (s1 + x) + b * (s2 + x * x)
  {
  }

  /** Every point lies on the line a + b·i. */
  ghost predicate OnLine(ys: seq<real>, a: real, b: real)
  {
    forall i :: 0 <= i < |ys| ==> ys[i] == a + b * i as real
  }

  /** The values of a line add up to n·a + b·Σi ... */
  lemma {:induction false} LineSum(ys: seq<real>, a: real, b: real)
    requires OnLine(ys, a, b)
    ensures Sum(ys) == |ys| as real * a + b * IndexSum(|ys|)
    decreases |ys|
  {
    if |ys| > 0 {
      var k := |ys| - 1;
      assert OnLine(ys[..k], a, b);
      LineSum(ys[..k], a, b);
      IndexStep(|ys|, k as real);
      LineStep(k as real, IndexSum(k), IndexSqSum(k), k as real, a, b);
    }
  }

  /** ... and weighted by the index to a·Σi + b·Σi². */
  lemma {:induction false} LineCrossSum(ys: seq<real>, a: real, b: real)
    requires OnLine(ys, a, b)
    ensures CrossSum(ys) == a * IndexSum(|ys|) + b * IndexSqSum(|ys|)
    decreases |ys|
  {
    if |ys| > 0 {
      var k := |ys| - 1;
      assert OnLine(ys[..k], a, b);
      LineCrossSum(ys[..k], a, b);
      IndexStep(|ys|, k as real);
      LineStep(k as real, IndexSum(k), IndexSqSum(k), k as real, a, b);
    }
  }

  /** Recovering a line from its sums, on plain numbers. */
  lemma LineAlgebra(n: real, sx: real, sxx: real, sy: real, sxy: real, a: real, b: real)
    requires n > 0.0 && DenominatorOf(n, sx, sxx) != 0.0
    requires sy == n * a + b * sx && sxy == a * sx + b * sxx
    ensures SlopeOf(n, sx, sxx, sy, sxy) == b
    ensures InterceptOf(n, sx, sy, b) == a
  {
    assert n * sxy - sx * sy == b * DenominatorOf(n, sx, sxx);
  }

  /** Points lying on a line give back that line's slope ... */
  lemma ExactLineSlope(ys: seq<real>, a: real, b: real)
    requires |ys| >= 2 && OnLine(ys, a, b)
    ensures Slope(ys) == b
  {
    DenominatorZeroIff(|ys|);
    LineSum(ys, a, b);
    LineCrossSum(ys, a, b);
    LineAlgebra(|ys| as real, IndexSum(|ys|), IndexSqSum(|ys|), Sum(ys), CrossSum(ys), a, b);
  }

  /** ... and its intercept. */
  lemma ExactLineIntercept(ys: seq<real>, a: real, b: real)
    requires |ys| >= 2 && OnLine(ys, a, b)
    ensures Intercept(ys, b) == a
  {
    DenominatorZeroIff(|ys|);
    LineSum(ys, a, b);
    LineCrossSum(ys, a, b);
    LineAlgebra(|ys| as real, IndexSum(|ys|), IndexSqSum(|ys|), Sum(ys), CrossSum(ys), a, b);
  }
}
