/**
 * The curve comparison engine of utils/math.js: a sample curve and a target curve are
 * clipped to their common abscissa interval, resampled onto one grid by linear
 * interpolation, and compared by three metrics.
 *
 * Numbers are exact reals; floating-point drift is not modelled.
 */
module CurveMath {

  /** A JavaScript number as the comparator can produce it: finite, or the result of
      dividing by zero. */
  datatype Number = Finite(r: real) | NaN | Infinity | NegativeInfinity

  /** JavaScript's `num / den`. */
  function Divide(num: real, den: real): (q: Number)
    ensures q.Finite? <==> den != 0.0
    ensures q.Finite? ==> q.r * den == num
    ensures den == 0.0 ==> (q == NaN <==> num == 0.0)
    ensures den == 0.0 && num > 0.0 ==> q == Infinity
  {
    if den != 0.0 then Finite(num / den)
    else if num == 0.0 then NaN
    else if num > 0.0 then Infinity
    else NegativeInfinity
  }

  /** JavaScript's `n * 100`. */
  function Times100(n: Number): (m: Number)
    ensures m.Finite? <==> n.Finite?
    ensures m.Finite? ==> m.r == 100.0 * n.r
    ensures !n.Finite? ==> m == n
  {
    match n
    case Finite(r) => Finite(100.0 * r)
    case _ => n
  }

  function MaxReal(a: real, b: real): real { if a >= b then a else b }

  function MinReal(a: real, b: real): real { if a <= b then a else b }

  function MaxInt(a: int, b: int): int { if a >= b then a else b }

  /** `a * b`, kept behind a name so that sign facts about a square are stated once. */
  function Product(a: real, b: real): real { a * b }

  lemma ProductOfPositives(a: real, b: real)
    requires a > 0.0 && b > 0.0
    ensures Product(a, b) > 0.0
  {
  }

  lemma ProductOfNegatives(a: real, b: real)
    requires a < 0.0 && b < 0.0
    ensures Product(a, b) > 0.0
  {
    ProductOfPositives(-a, -b);
    assert Product(-a, -b) == Product(a, b);
  }

  /** `Math.pow(v, 2)`: never negative, and zero only for zero. */
  function Sq(v: real): (s: real)
    ensures s >= 0.0
    ensures s == 0.0 <==> v == 0.0
  {
    if v > 0.0 then ProductOfPositives(v, v); Product(v, v)
    else if v < 0.0 then ProductOfNegatives(v, v); Product(v, v)
    else Product(v, v)
  }

  /** `Math.abs(v)` */
  function Abs(v: real): (a: real)
    ensures a >= 0.0
    ensures a == v || a == -v
  {
    if v < 0.0 then -v else v
  }

  /** A curve as the comparator sees it: the abscissa array `x` and the ordinate array `y`. */
  datatype Sampled = Sampled(x: seq<real>, y: seq<real>)

  ghost predicate StrictlyIncreasing(xs: seq<real>) {
    forall i, j :: 0 <= i < j < |xs| ==> xs[i] < xs[j]
  }

  /** At least two points, an ordinate for every abscissa, abscissae ascending and distinct. */
  ghost predicate ValidCurve(c: Sampled) {
    2 <= |c.x| <= |c.y| && StrictlyIncreasing(c.x)
  }

  // ------------------------------------------------------------------ linspace

  /** `a + k * n`: the running value after `k` steps of size `n`. */
  ghost function AfterSteps(a: real, n: real, k: nat): real {
    a + k as real * n
  }

  /** Accumulates `a, a + n, a + 2n, ...` while the running value stays at or below `b`.
      The loop exits only when `a > b` or the step `n` is positive. */
  method Linspace(a: real, b: real, n: real) returns (arr: seq<real>)
    requires a > b || n > 0.0
    ensures a > b ==> arr == []
    ensures a <= b ==> |arr| > 0 && arr[0] == a
    ensures forall i :: 0 <= i < |arr| ==> arr[i] == AfterSteps(a, n, i)
    ensures forall i :: 0 <= i < |arr| ==> a <= arr[i] <= b
    ensures StrictlyIncreasing(arr)
    ensures AfterSteps(a, n, |arr|) > b
  {
    ghost var bound: nat := 0;
    if n > 0.0 {
      bound := StepBound(a, b, n);
    }
    arr := [];
    var current := a;
    while current <= b
      invariant a > b ==> arr == []
      invariant current == AfterSteps(a, n, |arr|)
      invariant a <= current
      invariant forall i :: 0 <= i < |arr| ==> arr[i] == AfterSteps(a, n, i)
      invariant forall i :: 0 <= i < |arr| ==> a <= arr[i] <= b && arr[i] < current
      invariant StrictlyIncreasing(arr)
      invariant |arr| <= bound
      decreases bound - |arr|
    {
      arr := arr + [current];
      current := current + n;
    }
  }

  /** With a positive step, only finitely many running values stay at or below `b`. */
  lemma StepBound(a: real, b: real, n: real) returns (bound: nat)
    requires n > 0.0
    ensures forall k: nat :: AfterSteps(a, n, k) <= b ==> k < bound
  {
    var q := (b - a) / n;
    DivideThenMultiply(b - a, n);
    bound := MaxInt(q.Floor + 1, 0);
    forall k: nat | AfterSteps(a, n, k) <= b ensures k < bound {
      StepsUpTo(a, b, n, q, k as real, AfterSteps(a, n, k));
    }
  }

  /** Why `Linspace` demands `a > b || n > 0.0`: with `a <= b` and a step that is not
      positive the running value never exceeds `b`, so the loop never exits. */
  lemma LinspaceNeverExits(a: real, b: real, n: real)
    requires a <= b && n <= 0.0
    ensures forall k: nat :: AfterSteps(a, n, k) <= b
  {
    forall k: nat ensures AfterSteps(a, n, k) <= b {
      NonPositiveSteps(k as real, n);
    }
  }

  lemma NonPositiveSteps(k: real, n: real)
    requires k >= 0.0 && n <= 0.0
    ensures k * n <= 0.0
  {
  }

  /** A running value `v = a + k * n` at or below `b = a + q * n` has taken at most `q`
      steps; one above `b` has taken more than `q`. */
  lemma StepsUpTo(a: real, b: real, n: real, q: real, k: real, v: real)
    requires n > 0.0 && q * n == b - a && v == a + k * n
    ensures v <= b <==> k <= q
  {
    CancelPositiveFactor(k, q, n);
  }

  /** With exact arithmetic, accumulating the step `(b - a) / (n - 1)` from `a` while at or
      below `b` yields exactly the `n` evenly spaced points from `a` to `b`. */
  lemma {:induction false} AccumulatedGridIsEvenGrid(a: real, b: real, n: nat, arr: seq<real>)
    requires a < b && n >= 2
    requires forall i :: 0 <= i < |arr| ==> arr[i] == AfterSteps(a, (b - a) / (n - 1) as real, i)
    requires forall i :: 0 <= i < |arr| ==> arr[i] <= b
    requires AfterSteps(a, (b - a) / (n - 1) as real, |arr|) > b
    ensures arr == EvenGrid(a, b, n)
  {
    var m := (n - 1) as real;
    var step := (b - a) / m;
    QuotientOfPositives(b - a, m);
    StepsUpTo(a, b, step, m, |arr| as real, AfterSteps(a, step, |arr|));
    assert |arr| > 0;
    var last := |arr| - 1;
    assert arr[last] <= b;
    StepsUpTo(a, b, step, m, last as real, arr[last]);
    assert |arr| == n;
    forall i | 0 <= i < n ensures arr[i] == EvenGrid(a, b, n)[i] {
    }
  }

  /** Multiplying both sides by a positive factor keeps the order. */
  lemma CancelPositiveFactor(k: real, l: real, step: real)
    requires step > 0.0
    ensures k * step <= l * step <==> k <= l
  {
  }

  lemma DivideThenMultiply(p: real, q: real)
    requires q != 0.0
    ensures p / q * q == p
  {
  }

  lemma QuotientOfPositives(p: real, q: real)
    requires p > 0.0 && q > 0.0
    ensures p / q > 0.0
    ensures p / q * q == p
  {
  }

  // ------------------------------------------------------- interval search

  /** One narrowing step of the bisection: compare with the middle element and keep the
      half that still brackets `point`. */
  function Narrow(point: real, intervals: seq<real>, left: int, right: int): (lr: (int, int))
    requires 0 <= left <= right < |intervals|
    ensures left <= lr.0 <= lr.1 <= right
    ensures right - left >= 2 ==> lr.0 < lr.1 && lr.1 - lr.0 < right - left
    ensures lr.0 == left || intervals[lr.0] <= point
    ensures lr.1 == right || point < intervals[lr.1]
  {
    var indexOfNumberToCompare := left + (right - left) / 2;
    if point >= intervals[indexOfNumberToCompare] then (indexOfNumberToCompare, right)
    else (left, indexOfNumberToCompare)
  }

  /** The border index of the interval of `intervals` that holds `point`: 0 below the first
      element, the last index above the last one, and otherwise the left border `j` (or
      `j + 1` with `useRightBorder`) of an interval with `intervals[j] <= point` and
      `point < intervals[j + 1]` unless `j + 1` is the last index. */
  method FindIntervalBorderIndex(point: real, intervals: seq<real>, useRightBorder: bool) returns (k: int)
    requires |intervals| >= 2 || (|intervals| == 1 && point != intervals[0])
    ensures point < intervals[0] ==> k == 0
    ensures intervals[0] <= point && point > intervals[|intervals| - 1] ==> k == |intervals| - 1
    ensures intervals[0] <= point <= intervals[|intervals| - 1] ==>
              var j := if useRightBorder then k - 1 else k;
              && 0 <= j <= |intervals| - 2
              && intervals[j] <= point
              && (point < intervals[j + 1] || j + 1 == |intervals| - 1)
  {
    if point < intervals[0] {
      return 0;
    }
    if point > intervals[|intervals| - 1] {
      return |intervals| - 1;
    }
    var leftBorderIndex, rightBorderIndex := 0, |intervals| - 1;
    while rightBorderIndex - leftBorderIndex != 1
      invariant 0 <= leftBorderIndex < rightBorderIndex < |intervals|
      invariant intervals[leftBorderIndex] <= point
      invariant point < intervals[rightBorderIndex] || rightBorderIndex == |intervals| - 1
      decreases rightBorderIndex - leftBorderIndex
    {
      var lr := Narrow(point, intervals, leftBorderIndex, rightBorderIndex);
      leftBorderIndex, rightBorderIndex := lr.0, lr.1;
    }
    k := if useRightBorder then rightBorderIndex else leftBorderIndex;
  }

  /** With a single abscissa equal to the point, neither early return is taken and the
      bisection state `(0, 0)` is a fixed point whose width never becomes 1: the loop of
      `FindIntervalBorderIndex` does not terminate there. */
  lemma BisectionStallsOnSingleAbscissa(point: real, intervals: seq<real>)
    requires |intervals| == 1 && point == intervals[0]
    ensures !(point < intervals[0]) && !(point > intervals[|intervals| - 1])
    ensures Narrow(point, intervals, 0, |intervals| - 1) == (0, |intervals| - 1)
    ensures (|intervals| - 1) - 0 != 1
  {
  }

  // ---------------------------------------------------------- interpolation

  /** The line through `(x0, y0)` and `(x1, y1)`, evaluated at `x`. */
  function LinearInterpolation(x: real, x0: real, y0: real, x1: real, y1: real): (y: real)
    requires x0 != x1
    ensures x == x0 ==> y == y0
    ensures x == x1 ==> y == y1
  {
    var a := (y1 - y0) / (x1 - x0);
    var b := -a * x0 + y0;
    a * x + b
  }

  /** Between its two nodes the line stays between their ordinates. */
  lemma LinearInterpolationBetween(x: real, x0: real, y0: real, x1: real, y1: real)
    requires x0 < x1 && x0 <= x <= x1
    ensures MinReal(y0, y1) <= LinearInterpolation(x, x0, y0, x1, y1) <= MaxReal(y0, y1)
  {
    var w := x1 - x0;
    var a := (y1 - y0) / w;
    assert a * w == y1 - y0;
    assert LinearInterpolation(x, x0, y0, x1, y1) == y0 + a * (x - x0);
    if a >= 0.0 {
      ScaleMonotone(a, 0.0, x - x0);
      ScaleMonotone(a, x - x0, w);
    } else {
      ScaleMonotone(-a, 0.0, x - x0);
      ScaleMonotone(-a, x - x0, w);
    }
  }

  /** Multiplying both sides by a factor that is not negative keeps the order. */
  lemma ScaleMonotone(c: real, u: real, v: real)
    requires c >= 0.0 && u <= v
    ensures c * u <= c * v
  {
  }

  function SegmentFrom(xs: seq<real>, p: real, j: nat): (s: nat)
    requires j <= |xs| - 2
    ensures j <= s <= |xs| - 2
    decreases |xs| - j
  {
    if j + 1 < |xs| - 1 && xs[j + 1] <= p then SegmentFrom(xs, p, j + 1) else j
  }

  /** Reference choice of the interval used to evaluate at `p`, by a linear scan from the
      left: the last interval start before the final abscissa that is at or below `p`, and
      the first interval when `p` lies below the curve. */
  function Segment(xs: seq<real>, p: real): (j: nat)
    requires |xs| >= 2
    ensures j <= |xs| - 2
  {
    SegmentFrom(xs, p, 0)
  }

  /** On ascending abscissae, any interval `j` that brackets `p` (or clamps it at an end) is
      the one the scan finds. */
  lemma {:induction false} SegmentFromFinds(xs: seq<real>, p: real, i: nat, j: nat)
    requires StrictlyIncreasing(xs) && i <= j <= |xs| - 2
    requires xs[j] <= p || j == 0
    requires p < xs[j + 1] || j == |xs| - 2
    ensures SegmentFrom(xs, p, i) == j
    decreases j - i
  {
    if i < j {
      assert xs[i + 1] <= xs[j];
      SegmentFromFinds(xs, p, i + 1, j);
    }
  }

  /** The ordinate of the curve `(xs, ys)` at `p` by linear interpolation on the interval
      `Segment(xs, p)`; outside the abscissa range the first or last line is extended. */
  function Interpolate(xs: seq<real>, ys: seq<real>, p: real): real
    requires 2 <= |xs| <= |ys| && StrictlyIncreasing(xs)
  {
    var j := Segment(xs, p);
    LinearInterpolation(p, xs[j], ys[j], xs[j + 1], ys[j + 1])
  }

  /** Resampling at an original abscissa reproduces that abscissa's ordinate. */
  lemma InterpolateAtAbscissa(xs: seq<real>, ys: seq<real>, k: nat)
    requires 2 <= |xs| <= |ys| && StrictlyIncreasing(xs) && k < |xs|
    ensures Interpolate(xs, ys, xs[k]) == ys[k]
  {
    if k <= |xs| - 2 {
      SegmentFromFinds(xs, xs[k], 0, k);
    } else {
      SegmentFromFinds(xs, xs[k], 0, k - 1);
    }
  }

  /** Inside the abscissa range, interpolation does not extrapolate: the value lies between
      the ordinates of the bracketing interval's two points. */
  lemma InterpolateWithinRange(xs: seq<real>, ys: seq<real>, p: real)
    requires 2 <= |xs| <= |ys| && StrictlyIncreasing(xs)
    requires xs[0] <= p <= xs[|xs| - 1]
    ensures var j := Segment(xs, p);
      && xs[j] <= p <= xs[j + 1]
      && MinReal(ys[j], ys[j + 1]) <= Interpolate(xs, ys, p) <= MaxReal(ys[j], ys[j + 1])
  {
    var j := BracketOf(xs, p, 0);
    SegmentFromFinds(xs, p, 0, j);
    LinearInterpolationBetween(p, xs[j], ys[j], xs[j + 1], ys[j + 1]);
  }

  /** An interval start `j` with `xs[j] <= p < xs[j + 1]`, or the last interval. */
  lemma {:induction false} BracketOf(xs: seq<real>, p: real, i: nat) returns (j: nat)
    requires StrictlyIncreasing(xs) && 2 <= |xs| && i <= |xs| - 2
    requires xs[i] <= p <= xs[|xs| - 1]
    ensures i <= j <= |xs| - 2 && xs[j] <= p <= xs[j + 1]
    ensures p < xs[j + 1] || j == |xs| - 2
    decreases |xs| - i
  {
    if i == |xs| - 2 || p < xs[i + 1] {
      j := i;
    } else {
      j := BracketOf(xs, p, i + 1);
    }
  }

  /** Evaluates the interpolating lines of `(functionValuesX, functionValuesY)` at every
      point, one value per point, with the interval found by bisection. */
  method EvaluateLinear(pointsToEvaluate: seq<real>, functionValuesX: seq<real>, functionValuesY: seq<real>)
    returns (results: seq<real>)
    requires 2 <= |functionValuesX| <= |functionValuesY| && StrictlyIncreasing(functionValuesX)
    ensures |results| == |pointsToEvaluate|
    ensures forall i :: 0 <= i < |results| ==>
              results[i] == Interpolate(functionValuesX, functionValuesY, pointsToEvaluate[i])
  {
    results := [];
    for i := 0 to |pointsToEvaluate|
      invariant |results| == i
      invariant forall k :: 0 <= k < i ==>
                  results[k] == Interpolate(functionValuesX, functionValuesY, pointsToEvaluate[k])
    {
      var point := pointsToEvaluate[i];
      var index := FindIntervalBorderIndex(point, functionValuesX, false);
      if index == |functionValuesX| - 1 {
        index := index - 1;
      }
      SegmentFromFinds(functionValuesX, point, 0, index);
      results := results + [LinearInterpolation(point, functionValuesX[index], functionValuesY[index],
                                                functionValuesX[index + 1], functionValuesY[index + 1])];
    }
  }

  // ----------------------------------------------------------------- metrics

  /** The squared trapezoid term `((x[i] - x[i-1]) * (y[i] + y[i-1]) * 0.5)^2`. */
  function SquaredTrapezoid(xs: seq<real>, ys: seq<real>, i: nat): real
    requires 1 <= i < |xs| && i < |ys|
  {
    Sq((xs[i] - xs[i - 1]) * (ys[i] + ys[i - 1]) * 0.5)
  }

  /** The area metric of one curve over the first `n` grid points: the sum of the squared
      trapezoid terms of the intervals `1 <= i < n`. It is never negative. */
  function SquaredArea(xs: seq<real>, ys: seq<real>, n: nat): (area: real)
    requires n <= |xs| && n <= |ys|
    ensures area >= 0.0
  {
    if n <= 1 then 0.0 else SquaredArea(xs, ys, n - 1) + SquaredTrapezoid(xs, ys, n - 1)
  }

  /** The sum of the squared differences of the first `n` ordinate pairs. It is never
      negative, and zero exactly when the two arrays agree on those points. */
  function SumOfSquares(sampleY: seq<real>, targetY: seq<real>, n: nat): (s: real)
    requires n <= |sampleY| && n <= |targetY|
    ensures s >= 0.0
    ensures s == 0.0 <==> forall i :: 0 <= i < n ==> sampleY[i] == targetY[i]
  {
    if n == 0 then 0.0 else SumOfSquares(sampleY, targetY, n - 1) + Sq(sampleY[n - 1] - targetY[n - 1])
  }

  /** The largest absolute difference of the first `n` ordinate pairs, or 0 when there are
      none: never negative, at least every difference, and equal to one of them (or 0). */
  function MaxDeviation(sampleY: seq<real>, targetY: seq<real>, n: nat): (d: real)
    requires n <= |sampleY| && n <= |targetY|
    ensures d >= 0.0
    ensures forall i :: 0 <= i < n ==> Abs(sampleY[i] - targetY[i]) <= d
    ensures d == 0.0 || exists i :: 0 <= i < n && d == Abs(sampleY[i] - targetY[i])
  {
    if n == 0 then 0.0 else MaxReal(MaxDeviation(sampleY, targetY, n - 1), Abs(sampleY[n - 1] - targetY[n - 1]))
  }

  /** Swapping sample and target leaves the maximum deviation unchanged. */
  lemma {:induction false} MaxDeviationSymmetric(sampleY: seq<real>, targetY: seq<real>, n: nat)
    requires n <= |sampleY| && n <= |targetY|
    ensures MaxDeviation(sampleY, targetY, n) == MaxDeviation(targetY, sampleY, n)
  {
    if n > 0 {
      MaxDeviationSymmetric(sampleY, targetY, n - 1);
      assert Abs(sampleY[n - 1] - targetY[n - 1]) == Abs(targetY[n - 1] - sampleY[n - 1]);
    }
  }

  /** Swapping sample and target leaves the sum of squares unchanged. */
  lemma {:induction false} SumOfSquaresSymmetric(sampleY: seq<real>, targetY: seq<real>, n: nat)
    requires n <= |sampleY| && n <= |targetY|
    ensures SumOfSquares(sampleY, targetY, n) == SumOfSquares(targetY, sampleY, n)
  {
    if n > 0 {
      SumOfSquaresSymmetric(sampleY, targetY, n - 1);
      assert Sq(sampleY[n - 1] - targetY[n - 1]) == Sq(targetY[n - 1] - sampleY[n - 1]);
    }
  }

  /** The maximum deviation is zero exactly when the arrays agree on the first `n` points. */
  lemma MaxDeviationZeroIffEqual(sampleY: seq<real>, targetY: seq<real>, n: nat)
    requires n <= |sampleY| && n <= |targetY|
    ensures MaxDeviation(sampleY, targetY, n) == 0.0 <==> forall i :: 0 <= i < n ==> sampleY[i] == targetY[i]
  {
    if MaxDeviation(sampleY, targetY, n) == 0.0 {
      forall i | 0 <= i < n ensures sampleY[i] == targetY[i] {
        assert Abs(sampleY[i] - targetY[i]) <= 0.0;
      }
    } else {
      var i :| 0 <= i < n && MaxDeviation(sampleY, targetY, n) == Abs(sampleY[i] - targetY[i]);
      assert sampleY[i] != targetY[i];
    }
  }

  /** The three numbers `compareByAreaMetric` returns. */
  datatype AreaMetric = AreaMetric(sampleAreaMetric: real, targetAreaMetric: real, sampleToTargetAreaRatio: Number)

  /** The ordinates of both curves on the common grid. */
  datatype Resampled = Resampled(newX: seq<real>, newSampleY: seq<real>, newTargetY: seq<real>)

  function CommonXmin(s: Sampled, t: Sampled): real
    requires |s.x| > 0 && |t.x| > 0
  {
    MaxReal(s.x[0], t.x[0])
  }

  function CommonXmax(s: Sampled, t: Sampled): real
    requires |s.x| > 0 && |t.x| > 0
  {
    MinReal(s.x[|s.x| - 1], t.x[|t.x| - 1])
  }

  function CommonNewLength(s: Sampled, t: Sampled): nat {
    MaxInt(|s.x|, |t.x|) * 2
  }

  /** Two curves the comparator can process. When the common interval shrinks to one point
      the grid step is 0 and `linspace` never exits, so that case is excluded. */
  ghost predicate Comparable(s: Sampled, t: Sampled) {
    ValidCurve(s) && ValidCurve(t) && CommonXmin(s, t) != CommonXmax(s, t)
  }

  /** `n` evenly spaced points from `a` to `b`: `a + i * (b - a) / (n - 1)`. */
  function EvenGrid(a: real, b: real, n: nat): (g: seq<real>)
    requires n >= 2
    ensures |g| == n
  {
    seq(n, i requires 0 <= i < n => a + i as real * ((b - a) / (n - 1) as real))
  }

  /** An evenly spaced grid over `[a, b]` starts at `a`, ends at `b`, stays inside the
      interval and ascends strictly. */
  lemma EvenGridShape(a: real, b: real, n: nat)
    requires a < b && n >= 2
    ensures var g := EvenGrid(a, b, n);
      && g[0] == a && g[n - 1] == b
      && (forall i :: 0 <= i < n ==> a <= g[i] <= b)
      && StrictlyIncreasing(g)
  {
    var g := EvenGrid(a, b, n);
    var step := (b - a) / (n - 1) as real;
    assert (n - 1) as real * step == b - a;
    forall i | 0 <= i < n ensures a <= g[i] <= b {
      EvenGridPoint(a, b, n, i, i);
    }
    forall i, j | 0 <= i < j < n ensures g[i] < g[j] {
      EvenGridPoint(a, b, n, i, j);
    }
  }

  lemma EvenGridPoint(a: real, b: real, n: nat, i: nat, j: nat)
    requires a < b && n >= 2 && i <= j < n
    ensures a <= EvenGrid(a, b, n)[i] <= b
    ensures i < j ==> EvenGrid(a, b, n)[i] < EvenGrid(a, b, n)[j]
  {
    QuotientOfPositives(b - a, (n - 1) as real);
    StepsWithin(a, b, (n - 1) as real, (b - a) / (n - 1) as real, i as real, j as real, EvenGrid(a, b, n)[i], EvenGrid(a, b, n)[j]);
  }

  /** The points `k` and `l` steps of size `step` from `a`, with `0 <= k <= l <= m` and
      `m` steps reaching `b`, lie in `[a, b]` and keep the order of `k` and `l`. */
  lemma StepsWithin(a: real, b: real, m: real, step: real, k: real, l: real, gk: real, gl: real)
    requires step > 0.0 && step * m == b - a && 0.0 <= k <= l <= m
    requires gk == a + k * step && gl == a + l * step
    ensures a <= gk <= b
    ensures k < l ==> gk < gl
  {
    CancelPositiveFactor(k, m, step);
    CancelPositiveFactor(0.0, k, step);
    CancelPositiveFactor(l, k, step);
  }
  /** Reference common grid, by count instead of by accumulation: `CommonNewLength` evenly
      spaced points from the lower to the upper end of the common interval, or none when
      the interval is empty. */
  function CommonGrid(s: Sampled, t: Sampled): seq<real>
    requires ValidCurve(s) && ValidCurve(t)
  {
    var a, b, n := CommonXmin(s, t), CommonXmax(s, t), CommonNewLength(s, t);
    if a < b then EvenGrid(a, b, n) else []
  }

  /** Reference resampling: the common grid and both curves interpolated on it. */
  function Resample(s: Sampled, t: Sampled): (r: Resampled)
    requires ValidCurve(s) && ValidCurve(t)
    ensures r.newX == CommonGrid(s, t)
    ensures |r.newSampleY| == |r.newX| && |r.newTargetY| == |r.newX|
  {
    var g := CommonGrid(s, t);
    Resampled(g, seq(|g|, i requires 0 <= i < |g| => Interpolate(s.x, s.y, g[i])),
                 seq(|g|, i requires 0 <= i < |g| => Interpolate(t.x, t.y, g[i])))
  }

  /** The common grid starts at the larger first abscissa, ends at the smaller last one,
      stays between them, ascends strictly, and has `2 * max(lenS, lenT)` points, unless
      the curves do not overlap, when it is empty. */
  lemma CommonGridShape(s: Sampled, t: Sampled)
    requires ValidCurve(s) && ValidCurve(t)
    ensures var g, a, b := CommonGrid(s, t), CommonXmin(s, t), CommonXmax(s, t);
      && (forall i :: 0 <= i < |g| ==> a <= g[i] <= b)
      && StrictlyIncreasing(g)
      && (a < b ==> |g| == CommonNewLength(s, t) && g[0] == a && g[|g| - 1] == b)
      && (a >= b ==> g == [])
  {
    if CommonXmin(s, t) < CommonXmax(s, t) {
      EvenGridShape(CommonXmin(s, t), CommonXmax(s, t), CommonNewLength(s, t));
    }
  }

  /** The common grid never leaves either curve's abscissa range, so resampling never
      extrapolates. */
  lemma CommonGridWithinBothCurves(s: Sampled, t: Sampled, i: nat)
    requires ValidCurve(s) && ValidCurve(t) && i < |CommonGrid(s, t)|
    ensures s.x[0] <= CommonGrid(s, t)[i] <= s.x[|s.x| - 1]
    ensures t.x[0] <= CommonGrid(s, t)[i] <= t.x[|t.x| - 1]
  {
    CommonGridShape(s, t);
  }

  /** When a grid point coincides with an abscissa of the sample curve, the resampled
      ordinate is that abscissa's ordinate. */
  lemma ResampleAtSampleAbscissa(s: Sampled, t: Sampled, i: nat, k: nat)
    requires ValidCurve(s) && ValidCurve(t)
    requires i < |CommonGrid(s, t)| && k < |s.x| && CommonGrid(s, t)[i] == s.x[k]
    ensures i < |Resample(s, t).newSampleY| && Resample(s, t).newSampleY[i] == s.y[k]
  {
    InterpolateAtAbscissa(s.x, s.y, k);
  }

  /** The area metrics of a resampled pair: the squared-trapezoid area of each curve over
      the grid, and the relative difference `(sample - target) / target`. */
  function AreaMetricOf(r: Resampled): AreaMetric
    requires |r.newX| <= |r.newSampleY| && |r.newX| <= |r.newTargetY|
  {
    var sampleArea, targetArea := SquaredArea(r.newX, r.newSampleY, |r.newX|), SquaredArea(r.newX, r.newTargetY, |r.newX|);
    AreaMetric(sampleArea, targetArea, Divide(sampleArea - targetArea, targetArea))
  }

  /**
   * Compares a sample curve with a target curve. The constructor resamples both once and
   * freezes the three metrics computed from that one resampled pair.
   */
  class CurveComparator {
    const sampleCurve: Sampled
    const targetCurve: Sampled
    const areaMetric: AreaMetric
    const sumOfSquaresMetric: real
    const maxDeviationMetric: real

    constructor (sampleCurve: Sampled, targetCurve: Sampled)
      requires Comparable(sampleCurve, targetCurve)
      ensures this.sampleCurve == sampleCurve && this.targetCurve == targetCurve
      ensures areaMetric == AreaMetricOf(Resample(sampleCurve, targetCurve))
      ensures var r := Resample(sampleCurve, targetCurve);
        sumOfSquaresMetric == SumOfSquares(r.newSampleY, r.newTargetY, |r.newX|)
      ensures var r := Resample(sampleCurve, targetCurve);
        maxDeviationMetric == MaxDeviation(r.newSampleY, r.newTargetY, |r.newX|)
    {
      this.sampleCurve := sampleCurve;
      this.targetCurve := targetCurve;
      var interp := TransformToCommonAbscissa(sampleCurve, targetCurve);
      var area := CompareByAreaMetric(interp.newX, interp.newSampleY, interp.newTargetY);
      var sumOfSquares := CompareBySumOfSquaresMetric(interp.newX, interp.newSampleY, interp.newTargetY);
      var maxDeviation := CompareByMaximumDeviationMetric(interp.newX, interp.newSampleY, interp.newTargetY);
      this.areaMetric := area;
      this.sumOfSquaresMetric := sumOfSquares;
      this.maxDeviationMetric := maxDeviation;
    }

    /** Clips both curves to their common abscissa interval, builds the grid by
        accumulation and interpolates both curves on it; the result is the reference
        resampling. */
    static method TransformToCommonAbscissa(sampleCurve: Sampled, targetCurve: Sampled) returns (interp: Resampled)
      requires Comparable(sampleCurve, targetCurve)
      ensures interp == Resample(sampleCurve, targetCurve)
    {
      var sampleCurveLength := |sampleCurve.x|;
      var targetCurveLength := |targetCurve.x|;
      var commonXmin := MaxReal(sampleCurve.x[0], targetCurve.x[0]);
      var commonXmax := MinReal(sampleCurve.x[sampleCurveLength - 1], targetCurve.x[targetCurveLength - 1]);
      var commonNewLength := MaxInt(sampleCurveLength, targetCurveLength) * 2;
      var step := (commonXmax - commonXmin) / (commonNewLength - 1) as real;
      var commonAbscissa := Linspace(commonXmin, commonXmax, step);
      if commonXmin < commonXmax {
        AccumulatedGridIsEvenGrid(commonXmin, commonXmax, commonNewLength, commonAbscissa);
      }
      assert commonAbscissa == CommonGrid(sampleCurve, targetCurve);
      var interpolatedSampleOrdinate := EvaluateLinear(commonAbscissa, sampleCurve.x, sampleCurve.y);
      var interpolatedTargetOrdinate := EvaluateLinear(commonAbscissa, targetCurve.x, targetCurve.y);
      interp := Resampled(commonAbscissa, interpolatedSampleOrdinate, interpolatedTargetOrdinate);
    }

    /** The squared-trapezoid area metric of each curve and the ratio `(s - t) / t`. */
    static method CompareByAreaMetric(commonX: seq<real>, sampleY: seq<real>, targetY: seq<real>) returns (m: AreaMetric)
      requires |commonX| <= |sampleY| && |commonX| <= |targetY|
      ensures m == AreaMetricOf(Resampled(commonX, sampleY, targetY))
    {
      var sampleAreaMetric := 0.0;
      var i := 1;
      while i < |commonX|
        invariant 1 <= i <= MaxInt(|commonX|, 1)
        invariant i <= |commonX| ==> sampleAreaMetric == SquaredArea(commonX, sampleY, i)
        invariant |commonX| == 0 ==> sampleAreaMetric == 0.0
      {
        sampleAreaMetric := sampleAreaMetric + Sq((commonX[i] - commonX[i - 1]) * (sampleY[i] + sampleY[i - 1]) * 0.5);
        i := i + 1;
      }
      var targetAreaMetric := 0.0;
      i := 1;
      while i < |commonX|
        invariant 1 <= i <= MaxInt(|commonX|, 1)
        invariant i <= |commonX| ==> targetAreaMetric == SquaredArea(commonX, targetY, i)
        invariant |commonX| == 0 ==> targetAreaMetric == 0.0
      {
        targetAreaMetric := targetAreaMetric + Sq((commonX[i] - commonX[i - 1]) * (targetY[i] + targetY[i - 1]) * 0.5);
        i := i + 1;
      }
      m := AreaMetric(sampleAreaMetric, targetAreaMetric, Divide(sampleAreaMetric - targetAreaMetric, targetAreaMetric));
    }

    /** The sum over the grid of the squared ordinate differences. */
    static method CompareBySumOfSquaresMetric(commonX: seq<real>, sampleY: seq<real>, targetY: seq<real>) returns (sumOfSquaresMetric: real)
      requires |commonX| <= |sampleY| && |commonX| <= |targetY|
      ensures sumOfSquaresMetric == SumOfSquares(sampleY, targetY, |commonX|)
    {
      sumOfSquaresMetric := 0.0;
      for i := 0 to |commonX|
        invariant sumOfSquaresMetric == SumOfSquares(sampleY, targetY, i)
      {
        var delta := sampleY[i] - targetY[i];
        sumOfSquaresMetric := sumOfSquaresMetric + Sq(delta);
      }
    }

    /** The largest absolute ordinate difference over the grid, starting from 0. */
    static method CompareByMaximumDeviationMetric(commonX: seq<real>, sampleY: seq<real>, targetY: seq<real>) returns (maxDeviationMetric: real)
      requires |commonX| <= |sampleY| && |commonX| <= |targetY|
      ensures maxDeviationMetric == MaxDeviation(sampleY, targetY, |commonX|)
    {
      maxDeviationMetric := 0.0;
      for i := 0 to |commonX|
        invariant maxDeviationMetric == MaxDeviation(sampleY, targetY, i)
      {
        var delta := Abs(sampleY[i] - targetY[i]);
        if delta > maxDeviationMetric {
          maxDeviationMetric := delta;
        }
      }
    }
  }

  // ------------------------------------------------- properties of a comparison

  /** A curve compared with itself: sum of squares and maximum deviation are 0, and the area
      ratio is 0 unless the area is 0, when it is NaN. */
  lemma IdenticalCurvesCompareEqual(c: Sampled)
    requires ValidCurve(c)
    ensures Comparable(c, c)
    ensures var r := Resample(c, c);
      && SumOfSquares(r.newSampleY, r.newTargetY, |r.newX|) == 0.0
      && MaxDeviation(r.newSampleY, r.newTargetY, |r.newX|) == 0.0
      && var area := SquaredArea(r.newX, r.newTargetY, |r.newX|);
         Divide(SquaredArea(r.newX, r.newSampleY, |r.newX|) - area, area) == (if area == 0.0 then NaN else Finite(0.0))
  {
    assert c.x[0] < c.x[|c.x| - 1];
    var r := Resample(c, c);
    assert r.newSampleY == r.newTargetY;
    MaxDeviationZeroIffEqual(r.newSampleY, r.newTargetY, |r.newX|);
  }

  /** Swapping sample and target gives the same grid with the two ordinate arrays swapped,
      so the maximum deviation and the sum of squares are unchanged. */
  lemma SwappedCurvesSameDeviation(s: Sampled, t: Sampled)
    requires Comparable(s, t)
    ensures Comparable(t, s)
    ensures var r, w := Resample(s, t), Resample(t, s);
      && w.newX == r.newX && w.newSampleY == r.newTargetY && w.newTargetY == r.newSampleY
      && MaxDeviation(w.newSampleY, w.newTargetY, |w.newX|) == MaxDeviation(r.newSampleY, r.newTargetY, |r.newX|)
      && SumOfSquares(w.newSampleY, w.newTargetY, |w.newX|) == SumOfSquares(r.newSampleY, r.newTargetY, |r.newX|)
  {
    var r, w := Resample(s, t), Resample(t, s);
    assert CommonGrid(t, s) == CommonGrid(s, t);
    MaxDeviationSymmetric(r.newSampleY, r.newTargetY, |r.newX|);
    SumOfSquaresSymmetric(r.newSampleY, r.newTargetY, |r.newX|);
  }

  /** Curves whose abscissa ranges do not overlap give an empty grid: both areas, the sum of
      squares and the maximum deviation are 0, and the area ratio is NaN. */
  lemma DisjointCurvesGiveNaNRatio(s: Sampled, t: Sampled)
    requires Comparable(s, t) && CommonXmin(s, t) > CommonXmax(s, t)
    ensures var r := Resample(s, t);
      && r.newX == []
      && SumOfSquares(r.newSampleY, r.newTargetY, |r.newX|) == 0.0
      && MaxDeviation(r.newSampleY, r.newTargetY, |r.newX|) == 0.0
      && SquaredArea(r.newX, r.newTargetY, |r.newX|) == 0.0
      && Divide(SquaredArea(r.newX, r.newSampleY, |r.newX|) - SquaredArea(r.newX, r.newTargetY, |r.newX|),
                SquaredArea(r.newX, r.newTargetY, |r.newX|)) == NaN
  {
  }
}
