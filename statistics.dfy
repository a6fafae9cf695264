/**
 * The statistics helpers of the dashboard: the simple moving average and the
 * correlation coefficient of two price series. Numbers are modelled as `real`
 * (no floating-point rounding); `Math.sqrt` is a foreign function and is passed
 * in as `sqrt`, constrained by `IsSqrt`.
 */
module Statistics {

  function Min(x: int, y: int): int { if x <= y then x else y }

  /** The sum `s.reduce((a, b) => a + b, 0)`: a left fold from the first element. */
  function Sum(s: seq<real>): real
  {
    if |s| == 0 then 0.0 else Sum(s[..|s| - 1]) + s[|s| - 1]
  }

  // ---------------------------------------------------------------------------
  // Simple moving average
  // ---------------------------------------------------------------------------

  /**
   * The trailing-window means of `data`: one mean for every window of `period`
   * consecutive elements, in the order the windows end. Defined by how the
   * series grows when one more element arrives.
   */
  function MovingAverage(data: seq<real>, period: nat): (r: seq<real>)
    requires period >= 1
    ensures |r| == if |data| < period then 0 else |data| - period + 1
    decreases |data|
  {
    if |data| < period then []
    else MovingAverage(data[..|data| - 1], period) + [Sum(data[|data| - period..]) / period as real]
  }

  /** One more element adds the mean of the window it ends to the moving average. */
  lemma MovingAverageSnoc(data: seq<real>, period: nat)
    requires period >= 1 && period <= |data|
    ensures MovingAverage(data, period)
      == MovingAverage(data[..|data| - 1], period) + [Sum(data[|data| - period..]) / period as real]
  {
  }

  /** Element j of the moving average is the mean of data[j], ..., data[j + period - 1]. */
  lemma {:induction false} MovingAverageAt(data: seq<real>, period: nat, j: nat)
    requires period >= 1
    requires j < |MovingAverage(data, period)|
    ensures j + period <= |data|
    ensures MovingAverage(data, period)[j] == Sum(data[j..j + period]) / period as real
    decreases |data|
  {
    var n := |data|;
    var front := data[..n - 1];
    MovingAverageSnoc(data, period);
    if j < |MovingAverage(front, period)| {
      MovingAverageAt(front, period, j);
      assert front[j..j + period] == data[j..j + period];
    } else {
      assert j == n - period;
      assert data[n - period..] == data[j..j + period];
    }
  }

  /** A series shorter than the window has no moving average at all. */
  lemma MovingAverageShortSeries(data: seq<real>, period: nat)
    requires period >= 1 && |data| < period
    ensures MovingAverage(data, period) == []
  {
  }

  /**
   * `calculateSMA`: for i from period - 1 up to the last index, push the mean
   * of the window ending at i.
   */
  method CalculateSma(data: seq<real>, period: nat) returns (sma: seq<real>)
    requires period >= 1
    ensures sma == MovingAverage(data, period)
    ensures |sma| == if |data| < period then 0 else |data| - period + 1
    ensures forall j :: 0 <= j < |sma| ==> j + period <= |data| && sma[j] == Sum(data[j..j + period]) / period as real
  {
    sma := [];
    var i := period - 1;
    while i < |data|
      invariant period - 1 <= i
      invariant i <= |data| || i == period - 1
      invariant sma == MovingAverage(data[..Min(i, |data|)], period)
    {
      var window := data[i - period + 1..i + 1];
      var average := Sum(window) / period as real;
      assert data[..i + 1][..i] == data[..i];
      assert data[..i + 1][i + 1 - period..] == window;
      sma := sma + [average];
      i := i + 1;
    }
    assert data[..Min(i, |data|)] == data;
    forall j | 0 <= j < |sma|
      ensures j + period <= |data| && sma[j] == Sum(data[j..j + period]) / period as real
    {
      MovingAverageAt(data, period, j);
    }
  }

  // ---------------------------------------------------------------------------
  // Facts of real arithmetic the solver needs spelled out
  // ---------------------------------------------------------------------------

  /**
   * The product of two positive numbers is positive. The product comes back
   * as a named value: the solver rewrites a fact `0 < u * u` into `u != 0`,
   * which loses it.
   */
  lemma ProductPositive(x: real, y: real) returns (p: real)
    requires 0.0 < x && 0.0 < y
    ensures p == x * y && 0.0 < p
  {
    p := x * y;
  }

  lemma ProductNonNegative(x: real, y: real)
    requires 0.0 <= x && 0.0 <= y
    ensures 0.0 <= x * y
  {
  }

  /** The square of a non-zero number is positive. */
  lemma SquarePositive(u: real) returns (sq: real)
    requires u != 0.0
    ensures sq == u * u && 0.0 < sq
  {
    if u < 0.0 {
      sq := ProductPositive(-u, -u);
    } else {
      sq := ProductPositive(u, u);
    }
  }

  lemma SquareStrictlyMonotone(x: real, y: real)
    requires 0.0 <= x < y
    ensures x * x < y * y
  {
    assert x * (y - x) >= 0.0;
    assert y * (y - x) > 0.0;
  }

  /** Dividing both sides of r * r <= p * q by n twice. */
  lemma DivideInequality(r: real, p: real, q: real, n: real)
    requires 0.0 < n && r * r <= p * q
    ensures (r / n) * (r / n) <= (p / n) * (q / n)
  {
    var r', p', q' := r / n, p / n, q / n;
    assert r == r' * n && p == p' * n && q == q' * n;
    var lhs, rhs := r' * r', p' * q';
    assert r * r == (lhs * n) * n;
    assert p * q == (rhs * n) * n;
    if lhs > rhs {
      var _ := ProductPositive(lhs - rhs, n);
      var _ := ProductPositive(lhs * n - rhs * n, n);
    }
  }

  /** A number no larger in magnitude than a positive s, divided by s, lies in [-1, 1]. */
  lemma QuotientBounded(c: real, s: real)
    requires 0.0 < s && -s <= c <= s
    ensures -1.0 <= c / s <= 1.0
  {
    var q := c / s;
    assert c == q * s;
    if q > 1.0 {
      var _ := ProductPositive(q - 1.0, s);
    } else if q < -1.0 {
      var _ := ProductPositive(-1.0 - q, s);
    }
  }

  /** Multiplying by a positive n and dividing by it again gives the number back. */
  lemma ScaledQuotient(c: real, n: real)
    requires 0.0 < n
    ensures (c * n) / n == c
  {
    var q := (c * n) / n;
    assert q * n == c * n;
    if q < c {
      var _ := ProductPositive(c - q, n);
    } else if q > c {
      var _ := ProductPositive(q - c, n);
    }
  }

  // ---------------------------------------------------------------------------
  // The square root that `Math.sqrt` computes
  // ---------------------------------------------------------------------------

  /** `sqrt` returns, for every non-negative x, the non-negative number whose square is x. */
  ghost predicate IsSqrt(sqrt: real -> real)
  {
    forall x {:trigger IsRootOf(sqrt, x)} :: 0.0 <= x ==> IsRootOf(sqrt, x)
  }

  /** sqrt(x) is the non-negative square root of x. */
  ghost predicate IsRootOf(sqrt: real -> real, x: real)
  {
    0.0 <= sqrt(x) && sqrt(x) * sqrt(x) == x
  }

  /** The square root of a square is the (non-negative) number itself. */
  lemma SqrtOfSquare(sqrt: real -> real, v: real)
    requires IsSqrt(sqrt) && 0.0 <= v
    ensures sqrt(v * v) == v
  {
    var s := sqrt(v * v);
    assert IsRootOf(sqrt, v * v);
    if s < v {
      SquareStrictlyMonotone(s, v);
    } else if v < s {
      SquareStrictlyMonotone(v, s);
    }
  }

  /** The square root is monotone. */
  lemma SqrtMonotone(sqrt: real -> real, x: real, y: real)
    requires IsSqrt(sqrt) && 0.0 <= x <= y
    ensures sqrt(x) <= sqrt(y)
  {
    var sx, sy := sqrt(x), sqrt(y);
    assert IsRootOf(sqrt, x) && IsRootOf(sqrt, y);
    if sx > sy {
      SquareStrictlyMonotone(sy, sx);
    }
  }

  /** The square root of a positive number is positive. */
  lemma SqrtPositive(sqrt: real -> real, x: real)
    requires IsSqrt(sqrt) && 0.0 < x
    ensures 0.0 < sqrt(x)
  {
    assert IsRootOf(sqrt, x);
  }

  // ---------------------------------------------------------------------------
  // Correlation
  // ---------------------------------------------------------------------------

  /** The first n elements of s, each minus m: the `array[i] - mean` differences. */
  function Deviations(s: seq<real>, m: real, n: nat): (d: seq<real>)
    requires n <= |s|
    ensures |d| == n
  {
    seq(n, i requires 0 <= i < n => s[i] - m)
  }

  /** The sum of the products x[i] * y[i], accumulated from index 0 upwards. */
  function Dot(x: seq<real>, y: seq<real>): real
    requires |x| == |y|
  {
    if |x| == 0 then 0.0 else Dot(x[..|x| - 1], y[..|y| - 1]) + x[|x| - 1] * y[|y| - 1]
  }

  lemma {:induction false} DotSymmetric(x: seq<real>, y: seq<real>)
    requires |x| == |y|
    ensures Dot(x, y) == Dot(y, x)
  {
    if |x| > 0 {
      DotSymmetric(x[..|x| - 1], y[..|y| - 1]);
    }
  }

  /** A sum of squares is never negative. */
  lemma {:induction false} DotSelfNonNegative(x: seq<real>)
    ensures Dot(x, x) >= 0.0
  {
    if |x| > 0 {
      DotSelfNonNegative(x[..|x| - 1]);
    }
  }

  /** A sum of squares with one non-zero term is positive. */
  lemma {:induction false} DotSelfPositive(x: seq<real>, k: nat)
    requires k < |x| && x[k] != 0.0
    ensures Dot(x, x) > 0.0
  {
    var n := |x|;
    DotSelfNonNegative(x[..n - 1]);
    if k < n - 1 {
      DotSelfPositive(x[..n - 1], k);
    } else {
      var sq := SquarePositive(x[n - 1]);
    }
  }

  /** If every x[i] is c, the sum of products is c times the sum of y. */
  lemma {:induction false} DotConstantLeft(x: seq<real>, y: seq<real>, c: real)
    requires |x| == |y|
    requires forall i :: 0 <= i < |x| ==> x[i] == c
    ensures Dot(x, y) == c * Sum(y)
  {
    if |x| > 0 {
      DotConstantLeft(x[..|x| - 1], y[..|y| - 1], c);
    }
  }

  /** The sum of the deviations of the first n elements from m. */
  lemma {:induction false} SumDeviations(s: seq<real>, m: real, n: nat)
    requires n <= |s|
    ensures Sum(Deviations(s, m, n)) == Sum(s[..n]) - n as real * m
  {
    if n > 0 {
      SumDeviations(s, m, n - 1);
      assert Deviations(s, m, n)[..n - 1] == Deviations(s, m, n - 1);
      assert s[..n][..n - 1] == s[..n - 1];
    }
  }

  /** A series whose elements all equal c sums to |s| * c. */
  lemma {:induction false} SumConstant(s: seq<real>, c: real)
    requires forall i :: 0 <= i < |s| ==> s[i] == c
    ensures Sum(s) == |s| as real * c
  {
    if |s| > 0 {
      SumConstant(s[..|s| - 1], c);
    }
  }

  /** The step of Cauchy-Schwarz: a quadratic form with B*B <= A*C is non-negative. */
  lemma QuadraticFormNonNegative(a: real, b: real, c: real, u: real, w: real)
    requires 0.0 <= a && 0.0 <= c && b * b <= a * c
    ensures 2.0 * b * u * w <= a * w * w + c * u * u
  {
    if a == 0.0 {
      assert a * c == 0.0;
      if b != 0.0 {
        var sq := SquarePositive(b);
      }
      ProductNonNegative(c, u * u);
    } else {
      var q := a * w * w - 2.0 * b * u * w + c * u * u;
      assert a * q == (a * w - b * u) * (a * w - b * u) + (a * c - b * b) * (u * u);
      assert 0.0 <= (a * w - b * u) * (a * w - b * u);
      assert 0.0 <= (a * c - b * b) * (u * u);
      assert 0.0 <= a * q;
      if q < 0.0 {
        var _ := ProductPositive(a, -q);
      }
    }
  }

  /** One more pair of terms keeps the Cauchy-Schwarz inequality. */
  lemma CauchySchwarzStep(a: real, b: real, c: real, u: real, w: real, xy: real, xx: real, yy: real)
    requires 0.0 <= a && 0.0 <= c && b * b <= a * c
    requires xy == b + u * w && xx == a + u * u && yy == c + w * w
    ensures xy * xy <= xx * yy
  {
    QuadraticFormNonNegative(a, b, c, u, w);
    assert xy * xy == b * b + 2.0 * b * u * w + (u * u) * (w * w);
    assert xx * yy == a * c + a * (w * w) + c * (u * u) + (u * u) * (w * w);
  }

  /** Cauchy-Schwarz: (sum x*y)^2 <= (sum x*x) * (sum y*y). */
  lemma {:induction false} CauchySchwarz(x: seq<real>, y: seq<real>)
    requires |x| == |y|
    ensures Dot(x, y) * Dot(x, y) <= Dot(x, x) * Dot(y, y)
  {
    if |x| > 0 {
      var x', y' := x[..|x| - 1], y[..|y| - 1];
      CauchySchwarz(x', y');
      DotSelfNonNegative(x');
      DotSelfNonNegative(y');
      CauchySchwarzStep(Dot(x', x'), Dot(x', y'), Dot(y', y'), x[|x| - 1], y[|y| - 1],
        Dot(x, y), Dot(x, x), Dot(y, y));
    }
  }

  /** The quotient of a non-negative number by a positive one is non-negative. */
  lemma QuotientNonNegative(x: real, n: real)
    requires 0.0 <= x && 0.0 < n
    ensures 0.0 <= x / n
  {
    var q := x / n;
    assert x == q * n;
    if q < 0.0 {
      var _ := ProductPositive(-q, n);
    }
  }

  /**
   * The last step of the coefficient: the covariance over the square root of
   * the product of the two variances, or 0 when either variance is 0.
   */
  function Ratio(covariance: real, variance1: real, variance2: real, sqrt: real -> real): real
    requires IsSqrt(sqrt) && 0.0 <= variance1 && 0.0 <= variance2
  {
    if variance1 == 0.0 || variance2 == 0.0 then 0.0
    else
      SqrtPositive(sqrt, variance1 * variance2);
      covariance / sqrt(variance1 * variance2)
  }

  /**
   * The coefficient computed from the two series' differences from their
   * means, each accumulator divided by the number of terms.
   */
  function Coefficient(d1: seq<real>, d2: seq<real>, sqrt: real -> real): real
    requires IsSqrt(sqrt) && |d1| == |d2| && |d1| > 0
  {
    var n := |d1| as real;
    DotSelfNonNegative(d1);
    DotSelfNonNegative(d2);
    QuotientNonNegative(Dot(d1, d1), n);
    QuotientNonNegative(Dot(d2, d2), n);
    Ratio(Dot(d1, d2) / n, Dot(d1, d1) / n, Dot(d2, d2) / n, sqrt)
  }

  /**
   * The value `calculateCorrelation` returns. Its means divide the sum of the
   * WHOLE series by n = min(|a|, |b|), while the differences are only taken
   * over the first n elements.
   */
  function Correlation(a: seq<real>, b: seq<real>, sqrt: real -> real): real
    requires IsSqrt(sqrt)
  {
    if |a| == 0 || |b| == 0 then 0.0
    else
      var n := Min(|a|, |b|);
      if n < 2 then 0.0
      else Coefficient(Deviations(a, Sum(a) / n as real, n), Deviations(b, Sum(b) / n as real, n), sqrt)
  }

  /** Fewer than two paired elements give the fallback 0. */
  lemma CorrelationShortSeries(a: seq<real>, b: seq<real>, sqrt: real -> real)
    requires IsSqrt(sqrt) && (|a| < 2 || |b| < 2)
    ensures Correlation(a, b, sqrt) == 0.0
  {
  }

  lemma RatioSymmetric(covariance: real, variance1: real, variance2: real, sqrt: real -> real)
    requires IsSqrt(sqrt) && 0.0 <= variance1 && 0.0 <= variance2
    ensures Ratio(covariance, variance1, variance2, sqrt) == Ratio(covariance, variance2, variance1, sqrt)
  {
    assert variance1 * variance2 == variance2 * variance1;
  }

  lemma CoefficientSymmetric(d1: seq<real>, d2: seq<real>, sqrt: real -> real)
    requires IsSqrt(sqrt) && |d1| == |d2| && |d1| > 0
    ensures Coefficient(d1, d2, sqrt) == Coefficient(d2, d1, sqrt)
  {
    var n := |d1| as real;
    DotSymmetric(d1, d2);
    DotSelfNonNegative(d1);
    DotSelfNonNegative(d2);
    QuotientNonNegative(Dot(d1, d1), n);
    QuotientNonNegative(Dot(d2, d2), n);
    RatioSymmetric(Dot(d1, d2) / n, Dot(d1, d1) / n, Dot(d2, d2) / n, sqrt);
  }

  /** Swapping the two series does not change the coefficient. */
  lemma CorrelationSymmetric(a: seq<real>, b: seq<real>, sqrt: real -> real)
    requires IsSqrt(sqrt)
    ensures Correlation(a, b, sqrt) == Correlation(b, a, sqrt)
  {
    if |a| > 0 && |b| > 0 && Min(|a|, |b|) >= 2 {
      var n := Min(|a|, |b|);
      assert n == Min(|b|, |a|);
      CoefficientSymmetric(Deviations(a, Sum(a) / n as real, n), Deviations(b, Sum(b) / n as real, n), sqrt);
    }
  }

  /** A covariance whose square is at most the product of the variances gives a ratio in [-1, 1]. */
  lemma RatioBounded(covariance: real, variance1: real, variance2: real, sqrt: real -> real)
    requires IsSqrt(sqrt) && 0.0 <= variance1 && 0.0 <= variance2
    requires covariance * covariance <= variance1 * variance2
    ensures -1.0 <= Ratio(covariance, variance1, variance2, sqrt) <= 1.0
  {
    if variance1 != 0.0 && variance2 != 0.0 {
      var v := variance1 * variance2;
      var _ := ProductPositive(variance1, variance2);
      SqrtPositive(sqrt, v);
      var m := if covariance >= 0.0 then covariance else -covariance;
      assert m * m == covariance * covariance;
      SqrtOfSquare(sqrt, m);
      SqrtMonotone(sqrt, m * m, v);
      QuotientBounded(covariance, sqrt(v));
    }
  }

  lemma CoefficientBounded(d1: seq<real>, d2: seq<real>, sqrt: real -> real)
    requires IsSqrt(sqrt) && |d1| == |d2| && |d1| > 0
    ensures -1.0 <= Coefficient(d1, d2, sqrt) <= 1.0
  {
    var n := |d1| as real;
    DotSelfNonNegative(d1);
    DotSelfNonNegative(d2);
    QuotientNonNegative(Dot(d1, d1), n);
    QuotientNonNegative(Dot(d2, d2), n);
    CauchySchwarz(d1, d2);
    DivideInequality(Dot(d1, d2), Dot(d1, d1), Dot(d2, d2), n);
    RatioBounded(Dot(d1, d2) / n, Dot(d1, d1) / n, Dot(d2, d2) / n, sqrt);
  }

  /** The coefficient never leaves [-1, 1]; the colour bands of the heat map rely on this. */
  lemma CorrelationBounded(a: seq<real>, b: seq<real>, sqrt: real -> real)
    requires IsSqrt(sqrt)
    ensures -1.0 <= Correlation(a, b, sqrt) <= 1.0
  {
    if |a| > 0 && |b| > 0 && Min(|a|, |b|) >= 2 {
      var n := Min(|a|, |b|);
      CoefficientBounded(Deviations(a, Sum(a) / n as real, n), Deviations(b, Sum(b) / n as real, n), sqrt);
    }
  }

  /** The quotient of two positive numbers is positive. */
  lemma QuotientPositive(x: real, n: real)
    requires 0.0 < x && 0.0 < n
    ensures 0.0 < x / n
  {
    var q := x / n;
    assert x == q * n;
    if q <= 0.0 {
      ProductNonNegative(-q, n);
    }
  }

  lemma RatioSelf(variance: real, sqrt: real -> real)
    requires IsSqrt(sqrt) && 0.0 < variance
    ensures Ratio(variance, variance, variance, sqrt) == 1.0
  {
    SqrtOfSquare(sqrt, variance);
    var q := variance / variance;
    assert variance == q * variance;
    if q > 1.0 {
      var _ := ProductPositive(q - 1.0, variance);
    } else if q < 1.0 {
      var _ := ProductPositive(1.0 - q, variance);
    }
  }

  lemma CoefficientSelf(d: seq<real>, sqrt: real -> real)
    requires IsSqrt(sqrt) && |d| > 0 && Dot(d, d) > 0.0
    ensures Coefficient(d, d, sqrt) == 1.0
  {
    var n := |d| as real;
    QuotientPositive(Dot(d, d), n);
    RatioSelf(Dot(d, d) / n, sqrt);
  }

  /** A series with two different values among its elements correlates perfectly with itself. */
  lemma SelfCorrelationIsOne(a: seq<real>, sqrt: real -> real, i: nat, j: nat)
    requires IsSqrt(sqrt)
    requires i < |a| && j < |a| && a[i] != a[j]
    ensures Correlation(a, a, sqrt) == 1.0
  {
    var n := |a|;
    var d := Deviations(a, Sum(a) / n as real, n);
    var k := if d[i] != 0.0 then i else j;
    DotSelfPositive(d, k);
    CoefficientSelf(d, sqrt);
  }

  /** A zero variance on either side or a zero covariance makes the ratio 0. */
  lemma RatioZero(covariance: real, variance1: real, variance2: real, sqrt: real -> real)
    requires IsSqrt(sqrt) && 0.0 <= variance1 && 0.0 <= variance2
    requires variance1 == 0.0 || variance2 == 0.0 || covariance == 0.0
    ensures Ratio(covariance, variance1, variance2, sqrt) == 0.0
  {
    if variance1 != 0.0 && variance2 != 0.0 {
      var _ := ProductPositive(variance1, variance2);
      SqrtPositive(sqrt, variance1 * variance2);
    }
  }

  lemma CoefficientZeroCovariance(d1: seq<real>, d2: seq<real>, sqrt: real -> real)
    requires IsSqrt(sqrt) && |d1| == |d2| && |d1| > 0
    requires Dot(d1, d1) == 0.0 || Dot(d2, d2) == 0.0 || Dot(d1, d2) == 0.0
    ensures Coefficient(d1, d2, sqrt) == 0.0
  {
    var n := |d1| as real;
    var v1, v2, cov := Dot(d1, d1), Dot(d2, d2), Dot(d1, d2);
    DotSelfNonNegative(d1);
    DotSelfNonNegative(d2);
    QuotientNonNegative(v1, n);
    QuotientNonNegative(v2, n);
    assert v1 / n == 0.0 || v2 / n == 0.0 || cov / n == 0.0;
    RatioZero(cov / n, v1 / n, v2 / n, sqrt);
  }

  /**
   * A constant series has correlation 0 with every series. When it is the
   * shorter one its variance is 0; when it is the longer one its inflated mean
   * still leaves the covariance at 0, since the other series' differences sum to 0.
   */
  lemma ConstantSeriesCorrelatesZero(a: seq<real>, b: seq<real>, sqrt: real -> real, c: real)
    requires IsSqrt(sqrt)
    requires forall i :: 0 <= i < |a| ==> a[i] == c
    ensures Correlation(a, b, sqrt) == 0.0
  {
    if |a| > 0 && |b| > 0 && Min(|a|, |b|) >= 2 {
      var n := Min(|a|, |b|);
      var m1, m2 := Sum(a) / n as real, Sum(b) / n as real;
      var d1 := Deviations(a, m1, n);
      var d2 := Deviations(b, m2, n);
      if |a| <= |b| {
        SumConstant(a, c);
        assert Sum(a) == c * n as real;
        ScaledQuotient(c, n as real);
        assert m1 == c;
        DotConstantLeft(d1, d1, 0.0);
      } else {
        DotConstantLeft(d1, d2, c - m1);
        SumDeviations(b, m2, n);
        assert b[..n] == b;
        assert Sum(b) == m2 * n as real;
        assert Sum(d2) == 0.0;
      }
      CoefficientZeroCovariance(d1, d2, sqrt);
    }
  }

  /**
   * A zero accumulated variance on either side gives 0: the fallback of the
   * coefficient, whatever the other series and the covariance are.
   */
  lemma ZeroVarianceGivesZero(a: seq<real>, b: seq<real>, sqrt: real -> real, n: nat, d1: seq<real>, d2: seq<real>)
    requires IsSqrt(sqrt) && n == Min(|a|, |b|) && 2 <= n
    requires d1 == Deviations(a, Sum(a) / n as real, n) && d2 == Deviations(b, Sum(b) / n as real, n)
    requires Dot(d1, d1) == 0.0 || Dot(d2, d2) == 0.0
    ensures Correlation(a, b, sqrt) == 0.0
  {
    CoefficientZeroCovariance(d1, d2, sqrt);
  }

  /**
   * Zero variance without a constant series: the mean of [1, 1, 0] is its sum 2
   * over n = 2, so both of its first two differences are 0.
   */
  lemma ZeroVarianceExample(sqrt: real -> real)
    requires IsSqrt(sqrt)
    ensures Correlation([1.0, 1.0, 0.0], [5.0, 7.0], sqrt) == 0.0
  {
    var a, b := [1.0, 1.0, 0.0], [5.0, 7.0];
    assert Sum(a) == 2.0 by {
      assert a[..2] == [1.0, 1.0] && [1.0, 1.0][..1] == [1.0] && [1.0][..0] == [];
    }
    var d1 := Deviations(a, 1.0, 2);
    assert d1 == [0.0, 0.0];
    assert d1[..1] == [0.0] && [0.0][..0] == [];
    assert Dot(d1, d1) == 0.0;
    ZeroVarianceGivesZero(a, b, sqrt, 2, d1, Deviations(b, Sum(b) / 2.0, 2));
  }

  /**
   * The means sum the whole series: [1, 2, 3] against [1, 2] compares two equal
   * pairs, yet the coefficient is below 1.
   */
  lemma WholeSeriesMeanExample(sqrt: real -> real)
    requires IsSqrt(sqrt)
    ensures Correlation([1.0, 2.0, 3.0], [1.0, 2.0], sqrt) < 1.0
  {
    var a, b := [1.0, 2.0, 3.0], [1.0, 2.0];
    assert Sum(a) == 6.0 by {
      assert a[..2] == [1.0, 2.0] && [1.0, 2.0][..1] == [1.0] && [1.0][..0] == [];
    }
    assert Sum(b) == 3.0 by {
      assert b[..1] == [1.0] && [1.0][..0] == [];
    }
    var d1 := Deviations(a, 3.0, 2);
    var d2 := Deviations(b, 1.5, 2);
    assert d1 == [-2.0, -1.0] && d2 == [-0.5, 0.5];
    assert d1[..1] == [-2.0] && d2[..1] == [-0.5] && [-2.0][..0] == [] && [-0.5][..0] == [];
    assert Dot([-2.0], [-2.0]) == 4.0 && Dot([-0.5], [-0.5]) == 0.25 && Dot([-2.0], [-0.5]) == 1.0;
    assert Dot(d1, d1) == 5.0 && Dot(d2, d2) == 0.5 && Dot(d1, d2) == 0.5;
    var s := sqrt(0.625);
    assert 2.5 * 0.25 == 0.625;
    assert Correlation(a, b, sqrt) == 0.25 / s;
    assert IsRootOf(sqrt, 0.625);
    if s < 0.25 {
      SquareStrictlyMonotone(s, 0.25);
    }
    var q := 0.25 / s;
    assert 0.25 == q * s;
    if q >= 1.0 {
      ProductNonNegative(q - 1.0, s);
    }
  }

  /**
   * The loop of `calculateCorrelation`: running sums of squared and multiplied
   * differences from the two means over the first n elements.
   */
  method SumDeviationProducts(series1: seq<real>, series2: seq<real>, mean1: real, mean2: real, n: nat)
    returns (variance1: real, variance2: real, covariance: real)
    requires n <= |series1| && n <= |series2|
    ensures variance1 == Dot(Deviations(series1, mean1, n), Deviations(series1, mean1, n))
    ensures variance2 == Dot(Deviations(series2, mean2, n), Deviations(series2, mean2, n))
    ensures covariance == Dot(Deviations(series1, mean1, n), Deviations(series2, mean2, n))
  {
    ghost var d1 := Deviations(series1, mean1, n);
    ghost var d2 := Deviations(series2, mean2, n);
    variance1, variance2, covariance := 0.0, 0.0, 0.0;
    for i := 0 to n
      invariant variance1 == Dot(d1[..i], d1[..i])
      invariant variance2 == Dot(d2[..i], d2[..i])
      invariant covariance == Dot(d1[..i], d2[..i])
    {
      var diff1 := series1[i] - mean1;
      var diff2 := series2[i] - mean2;
      assert d1[..i + 1][..i] == d1[..i] && d2[..i + 1][..i] == d2[..i];
      variance1 := variance1 + diff1 * diff1;
      variance2 := variance2 + diff2 * diff2;
      covariance := covariance + diff1 * diff2;
    }
    assert d1[..n] == d1 && d2[..n] == d2;
  }

  /** Both variances positive: the ratio is the covariance over the root of their product. */
  lemma RatioValue(covariance: real, variance1: real, variance2: real, sqrt: real -> real)
    requires IsSqrt(sqrt) && 0.0 < variance1 && 0.0 < variance2
    ensures 0.0 < sqrt(variance1 * variance2)
    ensures Ratio(covariance, variance1, variance2, sqrt) == covariance / sqrt(variance1 * variance2)
  {
    var _ := ProductPositive(variance1, variance2);
    SqrtPositive(sqrt, variance1 * variance2);
  }

  /** For two or more pairs the coefficient is the ratio of the averaged sums. */
  lemma CorrelationAsRatio(a: seq<real>, b: seq<real>, sqrt: real -> real, n: nat)
    requires IsSqrt(sqrt) && n == Min(|a|, |b|) && 2 <= n
    ensures
      var d1 := Deviations(a, Sum(a) / n as real, n);
      var d2 := Deviations(b, Sum(b) / n as real, n);
      0.0 <= Dot(d1, d1) / n as real && 0.0 <= Dot(d2, d2) / n as real &&
      Correlation(a, b, sqrt) == Ratio(Dot(d1, d2) / n as real, Dot(d1, d1) / n as real, Dot(d2, d2) / n as real, sqrt)
  {
    var d1 := Deviations(a, Sum(a) / n as real, n);
    var d2 := Deviations(b, Sum(b) / n as real, n);
    DotSelfNonNegative(d1);
    DotSelfNonNegative(d2);
    QuotientNonNegative(Dot(d1, d1), n as real);
    QuotientNonNegative(Dot(d2, d2), n as real);
  }

  /**
   * `calculateCorrelation`: 0 for an empty series or fewer than two pairs,
   * otherwise the averaged sums turned into the coefficient.
   */
  method CalculateCorrelation(series1: seq<real>, series2: seq<real>, sqrt: real -> real) returns (r: real)
    requires IsSqrt(sqrt)
    ensures r == Correlation(series1, series2, sqrt)
    ensures -1.0 <= r <= 1.0
    ensures |series1| < 2 || |series2| < 2 ==> r == 0.0
  {
    CorrelationBounded(series1, series2, sqrt);
    if |series1| == 0 || |series2| == 0 {
      return 0.0;
    }
    var n := Min(|series1|, |series2|);
    if n < 2 {
      return 0.0;
    }
    var mean1 := Sum(series1) / n as real;
    var mean2 := Sum(series2) / n as real;
    var sum1, sum2, sumProducts := SumDeviationProducts(series1, series2, mean1, mean2, n);
    var variance1 := sum1 / n as real;
    var variance2 := sum2 / n as real;
    var covariance := sumProducts / n as real;
    CorrelationAsRatio(series1, series2, sqrt, n);
    if variance1 == 0.0 || variance2 == 0.0 {
      return 0.0;
    }
    RatioValue(covariance, variance1, variance2, sqrt);
    r := covariance / sqrt(variance1 * variance2);
  }
}
