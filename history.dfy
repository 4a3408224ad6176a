/**
 * The collector's rolling history: two `deque(maxlen=10)` series (RTT means
 * and throughputs, one entry per non-empty window) and the trend features
 * read from them: the last difference, the mean and the slope of a degree-1
 * least-squares fit against the index 0..n-1 (`np.polyfit(x, y, 1)[0]`).
 */
module History {
  import opened Stats

  const Capacity: nat := 10

  // ---------------------------------------------------------------- bounded FIFO

  /** `d.append(x)` on a deque with maxlen = Capacity: keeps the last Capacity entries of h + [x]. */
  function Push(h: seq<real>, x: real): (r: seq<real>)
    ensures |r| == if |h| < Capacity then |h| + 1 else Capacity
    ensures |r| <= Capacity && r[|r| - 1] == x
  {
    var all := h + [x];
    if |all| <= Capacity then all else all[|all| - Capacity..]
  }

  /** Below capacity nothing is evicted. */
  lemma {:induction false} PushBelowCapacity(h: seq<real>, x: real)
    requires |h| < Capacity
    ensures Push(h, x) == h + [x]
  {
  }

  /** At capacity exactly the oldest entry is evicted. */
  lemma {:induction false} PushAtCapacity(h: seq<real>, x: real)
    requires |h| == Capacity
    ensures Push(h, x) == h[1..] + [x]
  {
    assert (h + [x])[1..] == h[1..] + [x];
  }

  /** The entry before the new one is the previous newest entry, evicting or not. */
  lemma {:induction false} PushKeepsPrevious(h: seq<real>, x: real)
    requires 0 < |h| <= Capacity
    ensures |Push(h, x)| >= 2 && Push(h, x)[|Push(h, x)| - 2] == h[|h| - 1]
  {
    if |h| < Capacity {
      PushBelowCapacity(h, x);
    } else {
      PushAtCapacity(h, x);
    }
  }

  // ---------------------------------------------------------------- gradient and mean

  /** `history[-1] - history[-2]` when there are at least two entries, else 0. */
  function Gradient(h: seq<real>): real {
    if |h| >= 2 then h[|h| - 1] - h[|h| - 2] else 0.0
  }

  /**
   * Read after appending the current value, the gradient is the current value
   * minus the previous window's value, and 0 when there was none.
   */
  lemma {:induction false} GradientAfterPush(h: seq<real>, x: real)
    requires |h| <= Capacity
    ensures Gradient(Push(h, x)) == if |h| == 0 then 0.0 else x - h[|h| - 1]
  {
    if |h| > 0 {
      PushKeepsPrevious(h, x);
    }
  }

  // ---------------------------------------------------------------- least squares

  /** Σ i for i < n. */
  function SumX(n: nat): int {
    if n == 0 then 0 else SumX(n - 1) + (n - 1)
  }

  /** Σ i² for i < n. */
  function SumXX(n: nat): int {
    if n == 0 then 0 else SumXX(n - 1) + (n - 1) * (n - 1)
  }

  /** Σ i·y[i]. */
  function SumXY(y: seq<real>): real {
    if |y| == 0 then 0.0 else SumXY(y[..|y| - 1]) + (|y| - 1) as real * y[|y| - 1]
  }

  lemma {:induction false} SumXClosed(n: nat)
    ensures 2 * SumX(n) == n * (n - 1)
  {
    if n > 0 {
      SumXClosed(n - 1);
      assert (n - 1) * (n - 2) + 2 * (n - 1) == n * (n - 1);
    }
  }

  lemma {:induction false} SumXXClosed(n: nat)
    ensures 6 * SumXX(n) == (n - 1) * n * (2 * n - 1)
  {
    if n > 0 {
      SumXXClosed(n - 1);
      SquaresStep(n - 1);
    }
  }

  lemma {:induction false} SquaresStep(m: int)
    ensures (m - 1) * m * (2 * m - 1) + 6 * m * m == m * (m + 1) * (2 * m + 1)
  {
  }

  /** n·Σi² - (Σi)², the determinant of the normal equations for x = 0..n-1. */
  function Det(n: nat): int {
    n * SumXX(n) - SumX(n) * SumX(n)
  }

  lemma {:induction false} DetClosed(n: nat)
    ensures 12 * Det(n) == n * n * (n - 1) * (n + 1)
  {
    SumXClosed(n);
    SumXXClosed(n);
    DetIdentity(n, SumX(n), SumXX(n));
  }

  lemma {:induction false} DetIdentity(n: int, s: int, q: int)
    requires 2 * s == n * (n - 1) && 6 * q == (n - 1) * n * (2 * n - 1)
    ensures 12 * (n * q - s * s) == n * n * (n - 1) * (n + 1)
  {
    assert 12 * (n * q - s * s) == 2 * n * (6 * q) - 3 * (2 * s) * (2 * s);
  }

  /** With two or more points the index values are not all equal, so the fit is determined. */
  lemma {:induction false} DetPositive(n: nat)
    requires n >= 2
    ensures Det(n) > 0
  {
    DetClosed(n);
    MulPositive(n * n, (n - 1) * (n + 1));
    assert n * n * (n - 1) * (n + 1) == (n * n) * ((n - 1) * (n + 1));
  }

  /** The same determinant, computed on reals as the fit does. */
  lemma {:induction false} DetPositiveReal(n: nat)
    requires n >= 2
    ensures n as real * SumXX(n) as real - SumX(n) as real * SumX(n) as real > 0.0
  {
    DetPositive(n);
    var q, x := SumXX(n), SumX(n);
    CastProduct(n, q);
    CastProduct(x, x);
  }

  lemma {:induction false} CastProduct(a: int, b: int)
    ensures (a * b) as real == a as real * b as real
  {
  }

  lemma {:induction false} MulPositive(a: int, b: int)
    requires a > 0 && b > 0
    ensures a * b > 0
  {
  }

  /**
   * The slope of the least-squares line through n points, from the sums
   * sx = Σx, sxx = Σx², sy = Σy and sxy = Σx·y (Cramer's rule on the normal
   * equations). The determinant is never zero for two or more distinct x
   * values (DetPositiveReal); the guard only makes the function total.
   */
  function FitSlope(n: real, sx: real, sxx: real, sy: real, sxy: real): real {
    var det := n * sxx - sx * sx;
    if det == 0.0 then 0.0 else (n * sxy - sx * sy) / det
  }

  /** The intercept of that line. */
  function FitIntercept(n: real, sx: real, sxx: real, sy: real, sxy: real): real {
    if n == 0.0 then 0.0 else (sy - FitSlope(n, sx, sxx, sy, sxy) * sx) / n
  }

  /** The slope of the least-squares line through (i, y[i]), i = 0..|y|-1. */
  function Slope(y: seq<real>): real {
    FitSlope(|y| as real, SumX(|y|) as real, SumXX(|y|) as real, SumReal(y), SumXY(y))
  }

  /** The intercept of the same line. */
  function Intercept(y: seq<real>): real {
    FitIntercept(|y| as real, SumX(|y|) as real, SumXX(|y|) as real, SumReal(y), SumXY(y))
  }

  /** `rolling_slope_rtt`: 0 unless the history holds more than 3 points. */
  function RollingSlope(h: seq<real>): real {
    if |h| > 3 then Slope(h) else 0.0
  }

  /** Σ (y[i] - a - b·i), the sum of the residuals of the line a + b·x. */
  function Residuals(y: seq<real>, a: real, b: real): real {
    if |y| == 0 then 0.0
    else Residuals(y[..|y| - 1], a, b) + (y[|y| - 1] - a - b * (|y| - 1) as real)
  }

  /** Σ i·(y[i] - a - b·i), the residuals weighted by the index, multiplied out as i·y[i] - a·i - b·i². */
  function WeightedResiduals(y: seq<real>, a: real, b: real): real {
    if |y| == 0 then 0.0
    else
      var i := (|y| - 1) as real;
      WeightedResiduals(y[..|y| - 1], a, b) + (i * y[|y| - 1] - a * i - b * (i * i))
  }

  lemma {:induction false} ResidualsExpand(y: seq<real>, a: real, b: real)
    ensures Residuals(y, a, b) == SumReal(y) - |y| as real * a - b * SumX(|y|) as real
  {
    if |y| > 0 {
      ResidualsExpand(y[..|y| - 1], a, b);
    }
  }

  lemma {:induction false} WeightedResidualsExpand(y: seq<real>, a: real, b: real)
    ensures WeightedResiduals(y, a, b) == SumXY(y) - a * SumX(|y|) as real - b * SumXX(|y|) as real
  {
    WeightedResidualsSplit(y, a, b);
    IndexSumScales(y, a);
    SquareSumScales(y, b);
  }

  /** Σ a·i for i < n. */
  ghost function IndexSum(n: nat, a: real): real {
    if n == 0 then 0.0 else IndexSum(n - 1, a) + a * (n - 1) as real
  }

  /** Σ b·i² for i < n. */
  ghost function SquareSum(n: nat, b: real): real {
    if n == 0 then 0.0 else SquareSum(n - 1, b) + b * ((n - 1) as real * (n - 1) as real)
  }

  lemma {:induction false} WeightedResidualsSplit(y: seq<real>, a: real, b: real)
    ensures WeightedResiduals(y, a, b) == SumXY(y) - IndexSum(|y|, a) - SquareSum(|y|, b)
  {
    if |y| > 0 {
      WeightedResidualsSplit(y[..|y| - 1], a, b);
    }
  }

  lemma {:induction false} IndexSumScales(y: seq<real>, a: real)
    ensures IndexSum(|y|, a) == a * SumX(|y|) as real
  {
    if |y| > 0 {
      IndexSumScales(y[..|y| - 1], a);
      Distribute(a, SumX(|y|) as real, SumX(|y| - 1) as real, (|y| - 1) as real);
    }
  }

  lemma {:induction false} SquareSumScales(y: seq<real>, b: real)
    ensures SquareSum(|y|, b) == b * SumXX(|y|) as real
  {
    if |y| > 0 {
      SquareSumScales(y[..|y| - 1], b);
      SumXXStep(|y|);
      Distribute(b, SumXX(|y|) as real, SumXX(|y| - 1) as real, (|y| - 1) as real * (|y| - 1) as real);
    }
  }

  lemma {:induction false} Distribute(a: real, s: real, p: real, x: real)
    requires s == p + x
    ensures a * s == a * p + a * x
  {
  }

  /** SumXX's last step, with the square taken over the reals. */
  lemma {:induction false} SumXXStep(n: nat)
    requires n > 0
    ensures SumXX(n) as real == SumXX(n - 1) as real + (n - 1) as real * (n - 1) as real
  {
    CastProduct(n - 1, n - 1);
  }

  /**
   * The least-squares line is the one whose residuals sum to zero and are
   * uncorrelated with the index (the normal equations), and it is the only one:
   * a line a + b·x satisfies both equations exactly when b is Slope(y) and a is
   * Intercept(y).
   */
  lemma {:induction false} NormalEquations(y: seq<real>, a: real, b: real)
    requires |y| >= 2
    ensures (Residuals(y, a, b) == 0.0 && WeightedResiduals(y, a, b) == 0.0)
            <==> (b == Slope(y) && a == Intercept(y))
  {
    NormalEquationsAt(y, a, b, |y| as real, SumX(|y|) as real, SumXX(|y|) as real, SumReal(y), SumXY(y),
                      Residuals(y, a, b), WeightedResiduals(y, a, b), Slope(y), Intercept(y));
  }

  /** NormalEquations with every sum, residual and coefficient named. */
  lemma {:induction false} NormalEquationsAt(y: seq<real>, a: real, b: real, n: real, sx: real, sxx: real,
                                             sy: real, sxy: real, e1: real, e2: real, slope: real, intercept: real)
    requires |y| >= 2 && n == |y| as real
    requires sx == SumX(|y|) as real && sxx == SumXX(|y|) as real
    requires sy == SumReal(y) && sxy == SumXY(y)
    requires e1 == Residuals(y, a, b) && e2 == WeightedResiduals(y, a, b)
    requires slope == FitSlope(n, sx, sxx, sy, sxy)
    requires intercept == FitIntercept(n, sx, sxx, sy, sxy)
    ensures (e1 == 0.0 && e2 == 0.0) <==> (b == slope && a == intercept)
  {
    ResidualsAsSum(y, a, b, n, sx, sy, e1);
    WeightedResidualsAsSum(y, a, b, sx, sxx, sxy, e2);
    DetPositiveAt(|y|, n, sx, sxx);
    NormalSolution(n, sx, sxx, sy, sxy, a, b, e1, e2, slope, intercept);
  }

  lemma {:induction false} ResidualsAsSum(y: seq<real>, a: real, b: real, n: real, sx: real, sy: real, e1: real)
    requires n == |y| as real && sx == SumX(|y|) as real && sy == SumReal(y) && e1 == Residuals(y, a, b)
    ensures e1 == sy - n * a - b * sx
  {
    ResidualsExpand(y, a, b);
  }

  lemma {:induction false} WeightedResidualsAsSum(y: seq<real>, a: real, b: real, sx: real, sxx: real, sxy: real, e2: real)
    requires sx == SumX(|y|) as real && sxx == SumXX(|y|) as real && sxy == SumXY(y)
    requires e2 == WeightedResiduals(y, a, b)
    ensures e2 == sxy - a * sx - b * sxx
  {
    WeightedResidualsExpand(y, a, b);
  }

  /** DetPositiveReal with the sums named. */
  lemma {:induction false} DetPositiveAt(m: nat, n: real, sx: real, sxx: real)
    requires m >= 2 && n == m as real && sx == SumX(m) as real && sxx == SumXX(m) as real
    ensures n * sxx - sx * sx > 0.0
  {
    DetPositiveReal(m);
  }

  /**
   * The 2×2 system n·a + sx·b = sy, sx·a + sxx·b = sxy (residuals e1 and e2
   * zero) has exactly one solution, the one Cramer's rule gives.
   */
  lemma {:induction false} NormalSolution(n: real, sx: real, sxx: real, sy: real, sxy: real, a: real, b: real,
                       e1: real, e2: real, slope: real, intercept: real)
    requires n > 0.0 && n * sxx - sx * sx > 0.0
    requires e1 == sy - n * a - b * sx
    requires e2 == sxy - a * sx - b * sxx
    requires slope == FitSlope(n, sx, sxx, sy, sxy)
    requires intercept == FitIntercept(n, sx, sxx, sy, sxy)
    ensures (e1 == 0.0 && e2 == 0.0) <==> (b == slope && a == intercept)
  {
    if e1 == 0.0 && e2 == 0.0 {
      NormalSolutionUnique(n, sx, sxx, sy, sxy, a, b, slope, intercept);
    }
    if b == slope && a == intercept {
      NormalSolutionSolves(n, sx, sxx, sy, sxy, a, b, e1, e2);
    }
  }

  /** Any solution of the normal equations is the Cramer's rule one. */
  lemma {:induction false} NormalSolutionUnique(n: real, sx: real, sxx: real, sy: real, sxy: real, a: real, b: real,
                             slope: real, intercept: real)
    requires n > 0.0 && n * sxx - sx * sx > 0.0
    requires sy - n * a - b * sx == 0.0 && sxy - a * sx - b * sxx == 0.0
    requires slope == FitSlope(n, sx, sxx, sy, sxy)
    requires intercept == FitIntercept(n, sx, sxx, sy, sxy)
    ensures b == slope && a == intercept
  {
    var det := n * sxx - sx * sx;
    assert slope * det == n * sxy - sx * sy;
    assert n * a == sy - b * sx;
    assert n * sxy == (n * a) * sx + b * (n * sxx) by {
      assert sxy == a * sx + b * sxx;
    }
    assert b * det == slope * det;
    CancelFactor(b, slope, det);
    assert intercept * n == sy - slope * sx;
    CancelFactor(a, intercept, n);
  }

  /** The Cramer's rule coefficients solve the normal equations. */
  lemma {:induction false} NormalSolutionSolves(n: real, sx: real, sxx: real, sy: real, sxy: real, a: real, b: real,
                             e1: real, e2: real)
    requires n > 0.0 && n * sxx - sx * sx > 0.0
    requires e1 == sy - n * a - b * sx
    requires e2 == sxy - a * sx - b * sxx
    requires b == FitSlope(n, sx, sxx, sy, sxy)
    requires a == FitIntercept(n, sx, sxx, sy, sxy)
    ensures e1 == 0.0 && e2 == 0.0
  {
    var det := n * sxx - sx * sx;
    assert b * det == n * sxy - sx * sy;
    assert a * n == sy - b * sx;
    assert n * e2 == n * sxy - (n * a) * sx - b * (n * sxx);
    assert n * e2 == 0.0;
    CancelFactor(e2, 0.0, n);
  }

  lemma {:induction false} CancelFactor(x: real, y: real, k: real)
    requires k != 0.0 && x * k == y * k
    ensures x == y
  {
    assert (x - y) * k == 0.0;
  }

  /** The values a + d·i for i = 0..n-1: points on a line. */
  function Line(a: real, d: real, n: nat): (y: seq<real>)
    ensures |y| == n
  {
    if n == 0 then [] else Line(a, d, n - 1) + [a + d * (n - 1) as real]
  }

  /** Points exactly on a line have that line as their least-squares fit. */
  lemma {:induction false} SlopeOfLine(a: real, d: real, n: nat)
    requires n >= 2
    ensures Slope(Line(a, d, n)) == d && Intercept(Line(a, d, n)) == a
  {
    var y := Line(a, d, n);
    LineResiduals(a, d, n);
    NormalEquations(y, a, d);
  }

  lemma {:induction false} LineResiduals(a: real, d: real, n: nat)
    ensures Residuals(Line(a, d, n), a, d) == 0.0
    ensures WeightedResiduals(Line(a, d, n), a, d) == 0.0
  {
    if n > 0 {
      var y := Line(a, d, n);
      assert y[..n - 1] == Line(a, d, n - 1);
      LineResiduals(a, d, n - 1);
    }
  }

  /** The slope `np.polyfit` returns for the RTT history [10, 12, 14, 16, 18] is 2. */
  lemma {:induction false} SlopeExample()
    ensures RollingSlope([10.0, 12.0, 14.0, 16.0, 18.0]) == 2.0
  {
    var y := [10.0, 12.0, 14.0, 16.0, 18.0];
    assert Line(10.0, 2.0, 5) == y by {
      assert Line(10.0, 2.0, 1) == [10.0];
      assert Line(10.0, 2.0, 2) == [10.0, 12.0];
      assert Line(10.0, 2.0, 3) == [10.0, 12.0, 14.0];
      assert Line(10.0, 2.0, 4) == [10.0, 12.0, 14.0, 16.0];
    }
    SlopeOfLine(10.0, 2.0, 5);
  }

  /** A flat history has slope 0. */
  lemma {:induction false} FlatSlope(c: real, n: nat)
    requires n >= 2
    ensures Slope(Line(c, 0.0, n)) == 0.0
  {
    SlopeOfLine(c, 0.0, n);
  }
}
