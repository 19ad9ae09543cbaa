/** The statistics over a daily series: the least-squares trend line (`calculateTrendLine`,
    `getTrendLineValues`), the mean (`calculateMean`), the first maximum and minimum
    (`findMaxAndMin`) and the significant peaks and valleys (`findPeaksAndValleys`).
    Numbers are exact reals. */
module Stats {
  import opened Records

  // ---------------------------------------------------------------------------
  // the sums of calculateTrendLine

  /** The x coordinates of a series: its indices 0, 1, ..., n - 1
      (`data.map((item, index) => index)`). */
  function Indices(n: nat): (xs: seq<real>)
    ensures |xs| == n
    ensures forall i :: 0 <= i < n ==> xs[i] == i as real
  {
    seq(n, i => i as real)
  }

  /** The arithmetic mean, and 0 for no numbers. */
  function Mean(vs: seq<real>): real {
    if |vs| == 0 then 0.0 else Sum(vs) / (|vs| as real)
  }

  /** The deviations `v - m` of the numbers from `m`. */
  function Centered(vs: seq<real>, m: real): (us: seq<real>)
    ensures |us| == |vs|
    ensures forall i :: 0 <= i < |vs| ==> us[i] == vs[i] - m
  {
    seq(|vs|, i requires 0 <= i < |vs| => vs[i] - m)
  }

  /** Σ_{i < k} us[i]·vs[i], added left to right. */
  function DotTo(us: seq<real>, vs: seq<real>, k: nat): real
    requires k <= |us| && k <= |vs|
  {
    if k == 0 then 0.0 else DotTo(us, vs, k - 1) + us[k - 1] * vs[k - 1]
  }

  function Dot(us: seq<real>, vs: seq<real>): real
    requires |us| == |vs|
  {
    DotTo(us, vs, |us|)
  }

  /** Σ (x - mx)·(y - my): the numerator of the slope. */
  function Cov(xs: seq<real>, ys: seq<real>, mx: real, my: real): real
    requires |xs| == |ys|
  {
    Dot(Centered(xs, mx), Centered(ys, my))
  }

  /** Σ (x - mx)²: the denominator of the slope. */
  function Dev2(xs: seq<real>, mx: real): real {
    Dot(Centered(xs, mx), Centered(xs, mx))
  }

  // ---------------------------------------------------------------------------
  // calculateTrendLine

  datatype TrendLine = TrendLine(slope: real, intercept: real)

  /** The line `calculateTrendLine` fits, over any x coordinates: the slope
      Σ(x - mx)(y - my) / Σ(x - mx)², or 0 when the denominator is 0, and the intercept
      my - slope·mx; the line (0, 0) for fewer than two points. */
  function LeastSquares(xs: seq<real>, ys: seq<real>): TrendLine
    requires |xs| == |ys|
  {
    if |xs| < 2 then TrendLine(0.0, 0.0)
    else
      var mx, my := Mean(xs), Mean(ys);
      var num, den := Cov(xs, ys, mx, my), Dev2(xs, mx);
      var slope := if den != 0.0 then num / den else 0.0;
      TrendLine(slope, my - slope * mx)
  }

  /** The trend line of a daily series: the least-squares line over the indices of the
      points. */
  function Trend(data: seq<Point>): TrendLine {
    LeastSquares(Indices(|data|), Values(data))
  }

  /** `calculateTrendLine(data)`. */
  method CalculateTrendLine(data: seq<Point>) returns (t: TrendLine)
    ensures t == Trend(data)
  {
    var n := |data|;
    if n < 2 {
      return TrendLine(0.0, 0.0);
    }
    var xValues := Indices(n);
    var yValues := Values(data);
    var xMean := Sum(xValues) / (n as real);
    var yMean := Sum(yValues) / (n as real);
    var numerator, denominator := DeviationSums(xValues, yValues, xMean, yMean);
    var slope := if denominator != 0.0 then numerator / denominator else 0.0;
    var intercept := yMean - slope * xMean;
    t := TrendLine(slope, intercept);
  }

  /** The `for` loop of `calculateTrendLine`: the numerator and the denominator of the
      slope, accumulated index by index. */
  method DeviationSums(xValues: seq<real>, yValues: seq<real>, xMean: real, yMean: real)
    returns (numerator: real, denominator: real)
    requires |xValues| == |yValues|
    ensures numerator == Cov(xValues, yValues, xMean, yMean)
    ensures denominator == Dev2(xValues, xMean)
  {
    numerator := 0.0;
    denominator := 0.0;
    var i := 0;
    while i < |xValues|
      invariant 0 <= i <= |xValues|
      invariant numerator == DotTo(Centered(xValues, xMean), Centered(yValues, yMean), i)
      invariant denominator == DotTo(Centered(xValues, xMean), Centered(xValues, xMean), i)
    {
      numerator := numerator + (xValues[i] - xMean) * (yValues[i] - yMean);
      denominator := denominator + (xValues[i] - xMean) * (xValues[i] - xMean);
      i := i + 1;
    }
  }

  /** With fewer than two points there is no line to fit. */
  lemma ShortSeriesHasFlatTrend(data: seq<Point>)
    requires |data| < 2
    ensures Trend(data) == TrendLine(0.0, 0.0)
  {
  }

  lemma AddSquare(d: real, d0: real, u: real)
    requires d == d0 + u * u
    ensures d0 <= d
  {
  }

  /** A sum of squares only grows as terms are added. */
  lemma {:induction false} SquaresGrow(us: seq<real>, j: nat, k: nat)
    requires j <= k <= |us|
    ensures DotTo(us, us, j) <= DotTo(us, us, k)
  {
    if j < k {
      SquaresGrow(us, j, k - 1);
      AddSquare(DotTo(us, us, k), DotTo(us, us, k - 1), us[k - 1]);
    }
  }

  lemma TwoSquares(d: real, u0: real, u1: real)
    requires d == 0.0 + u0 * u0 + u1 * u1 && u1 == u0 + 1.0
    ensures d > 0.0
  {
    assert d == 2.0 * (u0 + 0.5) * (u0 + 0.5) + 0.5;
  }

  /** Over the indices of two or more points the denominator is positive, so the
      `denominator !== 0` guard never picks the slope 0. */
  lemma IndicesSpread(n: nat, m: real)
    requires n >= 2
    ensures Dev2(Indices(n), m) > 0.0
  {
    var us := Centered(Indices(n), m);
    SquaresGrow(us, 2, n);
    assert DotTo(us, us, 2) == 0.0 + us[0] * us[0] + us[1] * us[1] by {
      assert DotTo(us, us, 1) == 0.0 + us[0] * us[0];
    }
    TwoSquares(DotTo(us, us, 2), us[0], us[1]);
  }

  // ---------------------------------------------------------------------------
  // sums over values on a line

  lemma AffineStep(sv: real, su: real, n: real, sv0: real, su0: real, n0: real, u: real, v: real, a: real, c: real)
    requires sv0 == a * su0 + n0 * c && n == n0 + 1.0
    requires sv == sv0 + v && su == su0 + u && v == a * u + c
    ensures sv == a * su + n * c
  {
  }

  lemma {:induction false} SumToAffine(us: seq<real>, vs: seq<real>, k: nat, a: real, c: real)
    requires |us| == |vs| && k <= |us|
    requires forall i :: 0 <= i < |us| ==> vs[i] == a * us[i] + c
    ensures SumTo(vs, k) == a * SumTo(us, k) + (k as real) * c
  {
    if k > 0 {
      SumToAffine(us, vs, k - 1, a, c);
      AffineStep(SumTo(vs, k), SumTo(us, k), k as real, SumTo(vs, k - 1), SumTo(us, k - 1),
        (k - 1) as real, us[k - 1], vs[k - 1], a, c);
    }
  }

  /** Summing `a·u + c` over the numbers `u` gives `a·Σu + n·c`. */
  lemma SumAffine(us: seq<real>, vs: seq<real>, a: real, c: real)
    requires |us| == |vs|
    requires forall i :: 0 <= i < |us| ==> vs[i] == a * us[i] + c
    ensures Sum(vs) == a * Sum(us) + (|us| as real) * c
  {
    SumToAffine(us, vs, |us|, a, c);
  }

  lemma MeanStep(sv: real, su: real, n: real, a: real, c: real)
    requires n != 0.0 && sv == a * su + n * c
    ensures sv / n == a * (su / n) + c
  {
  }

  /** The mean of `a·u + c` is `a·mean(u) + c`. */
  lemma MeanAffine(us: seq<real>, vs: seq<real>, a: real, c: real)
    requires |us| == |vs|
    requires forall i :: 0 <= i < |us| ==> vs[i] == a * us[i] + c
    ensures Mean(vs) == a * Mean(us) + c || |us| == 0
  {
    SumAffine(us, vs, a, c);
    if |us| > 0 {
      MeanStep(Sum(vs), Sum(us), |us| as real, a, c);
    }
  }

  lemma DotStep(e: real, d: real, e0: real, d0: real, u: real, v: real, w: real, a: real)
    requires e0 == a * d0 && w == a * v
    requires e == e0 + u * w && d == d0 + u * v
    ensures e == a * d
  {
  }

  lemma {:induction false} DotToScaled(us: seq<real>, vs: seq<real>, ws: seq<real>, k: nat, a: real)
    requires |us| == |vs| == |ws| && k <= |us|
    requires forall i :: 0 <= i < |us| ==> ws[i] == a * vs[i]
    ensures DotTo(us, ws, k) == a * DotTo(us, vs, k)
  {
    if k > 0 {
      DotToScaled(us, vs, ws, k - 1, a);
      DotStep(DotTo(us, ws, k), DotTo(us, vs, k), DotTo(us, ws, k - 1), DotTo(us, vs, k - 1),
        us[k - 1], vs[k - 1], ws[k - 1], a);
    }
  }

  /** Scaling the second factor of every product scales their sum. */
  lemma DotScaled(us: seq<real>, vs: seq<real>, ws: seq<real>, a: real)
    requires |us| == |vs| == |ws|
    requires forall i :: 0 <= i < |us| ==> ws[i] == a * vs[i]
    ensures Dot(us, ws) == a * Dot(us, vs)
  {
    DotToScaled(us, vs, ws, |us|, a);
  }

  lemma CenteredOfLine(xs: seq<real>, ys: seq<real>, a: real, c: real, mx: real, my: real)
    requires |xs| == |ys| && my == a * mx + c
    requires forall i :: 0 <= i < |xs| ==> ys[i] == a * xs[i] + c
    ensures forall i :: 0 <= i < |xs| ==> Centered(ys, my)[i] == a * Centered(xs, mx)[i]
  {
  }

  /** On a line the deviations of y are `a` times those of x, so the numerator is `a` times
      the denominator. */
  lemma CovOfLine(xs: seq<real>, ys: seq<real>, a: real, c: real, mx: real, my: real)
    requires |xs| == |ys| && my == a * mx + c
    requires forall i :: 0 <= i < |xs| ==> ys[i] == a * xs[i] + c
    ensures Cov(xs, ys, mx, my) == a * Dev2(xs, mx)
  {
    CenteredOfLine(xs, ys, a, c, mx, my);
    DotScaled(Centered(xs, mx), Centered(xs, mx), Centered(ys, my), a);
  }

  lemma ExactStep(slope: real, intercept: real, num: real, den: real, mx: real, my: real, a: real, c: real)
    requires den != 0.0 && num == a * den && slope == num / den
    requires my == a * mx + c && intercept == my - slope * mx
    ensures slope == a && intercept == c
  {
  }

  /** Values that lie exactly on a line `a·x + c` over spread-out x coordinates give back
      that line. */
  lemma ExactFit(xs: seq<real>, ys: seq<real>, a: real, c: real)
    requires |xs| == |ys| >= 2
    requires forall i :: 0 <= i < |xs| ==> ys[i] == a * xs[i] + c
    requires Dev2(xs, Mean(xs)) != 0.0
    ensures LeastSquares(xs, ys) == TrendLine(a, c)
  {
    var mx, my := Mean(xs), Mean(ys);
    MeanAffine(xs, ys, a, c);
    CovOfLine(xs, ys, a, c, mx, my);
    var t := LeastSquares(xs, ys);
    ExactStep(t.slope, t.intercept, Cov(xs, ys, mx, my), Dev2(xs, mx), mx, my, a, c);
  }

  // ---------------------------------------------------------------------------
  // getTrendLineValues

  /** `getTrendLineValues(data, trendLine)`: the line evaluated at each index. */
  function GetTrendLineValues(data: seq<Point>, t: TrendLine): (vs: seq<real>)
    ensures |vs| == |data|
    ensures forall i :: 0 <= i < |data| ==> vs[i] == t.slope * Indices(|data|)[i] + t.intercept
  {
    seq(|data|, i => t.slope * (i as real) + t.intercept)
  }

  lemma OnLine(data: seq<Point>, a: real, c: real)
    requires forall i :: 0 <= i < |data| ==> data[i].value == a * (i as real) + c
    ensures forall i :: 0 <= i < |data| ==> Values(data)[i] == a * Indices(|data|)[i] + c
    ensures GetTrendLineValues(data, TrendLine(a, c)) == Values(data)
  {
    var tv, vs := GetTrendLineValues(data, TrendLine(a, c)), Values(data);
    assert forall i :: 0 <= i < |data| ==> tv[i] == vs[i];
  }

  /** A series whose values lie on a line is its own trend: `calculateTrendLine` returns
      that line, and `getTrendLineValues` gives back the values. */
  lemma LinearSeriesIsItsOwnTrend(data: seq<Point>, a: real, c: real)
    requires |data| >= 2
    requires forall i :: 0 <= i < |data| ==> data[i].value == a * (i as real) + c
    ensures Trend(data) == TrendLine(a, c)
    ensures GetTrendLineValues(data, Trend(data)) == Values(data)
  {
    var xs, ys := Indices(|data|), Values(data);
    OnLine(data, a, c);
    IndicesSpread(|data|, Mean(xs));
    ExactFit(xs, ys, a, c);
  }

  lemma ResidualStep(st: real, sy: real, sx: real, n: real, slope: real, mx: real, my: real)
    requires n != 0.0 && mx == sx / n && my == sy / n
    requires st == slope * sx + n * (my - slope * mx)
    ensures st == sy
  {
    assert sx == n * mx && sy == n * my;
  }

  /** The residuals of the fitted line sum to zero: over two or more points the trend
      values add up to the same total as the data. */
  lemma TrendKeepsTotal(data: seq<Point>)
    requires |data| >= 2
    ensures Sum(GetTrendLineValues(data, Trend(data))) == Sum(Values(data))
  {
    var xs, ys, t := Indices(|data|), Values(data), Trend(data);
    var tv := GetTrendLineValues(data, t);
    SumAffine(xs, tv, t.slope, t.intercept);
    ResidualStep(Sum(tv), Sum(ys), Sum(xs), |data| as real, t.slope, Mean(xs), Mean(ys));
  }

  /** Adding a constant to every value moves the trend line up by that constant and keeps
      its slope. */
  lemma TrendShift(data: seq<Point>, shifted: seq<Point>, k: real)
    requires |shifted| == |data| >= 2
    requires forall i :: 0 <= i < |data| ==> shifted[i].value == data[i].value + k
    ensures Trend(shifted) == TrendLine(Trend(data).slope, Trend(data).intercept + k)
  {
    var xs, ys, zs := Indices(|data|), Values(data), Values(shifted);
    MeanAffine(ys, zs, 1.0, k);
    var cz, cy := Centered(zs, Mean(zs)), Centered(ys, Mean(ys));
    assert forall i :: 0 <= i < |data| ==> cz[i] == cy[i];
    assert cz == cy;
  }

  // ---------------------------------------------------------------------------
  // calculateMean

  /** `calculateMean(data)`: 0 for no data. */
  function CalculateMean(data: seq<Point>): real {
    Mean(Values(data))
  }

  lemma {:induction false} SumToBounds(vs: seq<real>, k: nat, lo: real, hi: real)
    requires k <= |vs|
    requires forall i :: 0 <= i < |vs| ==> lo <= vs[i] <= hi
    ensures (k as real) * lo <= SumTo(vs, k) <= (k as real) * hi
  {
    if k > 0 {
      SumToBounds(vs, k - 1, lo, hi);
    }
  }

  lemma SumBounds(vs: seq<real>, lo: real, hi: real)
    requires forall i :: 0 <= i < |vs| ==> lo <= vs[i] <= hi
    ensures (|vs| as real) * lo <= Sum(vs) <= (|vs| as real) * hi
  {
    SumToBounds(vs, |vs|, lo, hi);
  }

  lemma DivBetween(s: real, n: real, lo: real, hi: real)
    requires n > 0.0 && n * lo <= s <= n * hi
    ensures lo <= s / n <= hi
  {
    assert s == (s / n) * n;
  }

  /** A mean of numbers within bounds is within the same bounds. */
  lemma MeanWithin(vs: seq<real>, lo: real, hi: real)
    requires |vs| > 0
    requires forall i :: 0 <= i < |vs| ==> lo <= vs[i] <= hi
    ensures lo <= Mean(vs) <= hi
  {
    SumBounds(vs, lo, hi);
    DivBetween(Sum(vs), |vs| as real, lo, hi);
  }

  /** The mean lies between the smallest and the largest value. */
  lemma MeanBetween(data: seq<Point>)
    requires |data| > 0
    ensures FirstMin(data).value <= CalculateMean(data) <= FirstMax(data).value
  {
    var vs, lo, hi := Values(data), FirstMin(data).value, FirstMax(data).value;
    ExtremesBound(data);
    assert forall i :: 0 <= i < |vs| ==> lo <= vs[i] <= hi;
    MeanWithin(vs, lo, hi);
  }

  // ---------------------------------------------------------------------------
  // findMaxAndMin, and the reduce fallback of findPeaksAndValleys

  /** The index `data.reduce((max, item) => item.value > max.value ? item : max, data[0])`
      ends on after the first `k` points: a later point replaces the current one only when
      its value is strictly larger. */
  function MaxIndex(data: seq<Point>, k: nat): (i: nat)
    requires 0 < k <= |data|
    ensures i < k
  {
    if k == 1 then 0
    else
      var i := MaxIndex(data, k - 1);
      if data[k - 1].value > data[i].value then k - 1 else i
  }

  /** The same for `item.value < min.value ? item : min`. */
  function MinIndex(data: seq<Point>, k: nat): (i: nat)
    requires 0 < k <= |data|
    ensures i < k
  {
    if k == 1 then 0
    else
      var i := MinIndex(data, k - 1);
      if data[k - 1].value < data[i].value then k - 1 else i
  }

  /** The point the maximum reduce returns. */
  function FirstMax(data: seq<Point>): Point
    requires |data| > 0
  {
    data[MaxIndex(data, |data|)]
  }

  /** The point the minimum reduce returns. */
  function FirstMin(data: seq<Point>): Point
    requires |data| > 0
  {
    data[MinIndex(data, |data|)]
  }

  /** The reduce picks a point of largest value, and the first one: every earlier point is
      strictly smaller. */
  lemma {:induction false} MaxIndexIsFirstMax(data: seq<Point>, k: nat)
    requires 0 < k <= |data|
    ensures forall j :: 0 <= j < k ==> data[j].value <= data[MaxIndex(data, k)].value
    ensures forall j :: 0 <= j < MaxIndex(data, k) ==> data[j].value < data[MaxIndex(data, k)].value
  {
    if k > 1 {
      MaxIndexIsFirstMax(data, k - 1);
    }
  }

  /** The reduce picks a point of smallest value, and the first one. */
  lemma {:induction false} MinIndexIsFirstMin(data: seq<Point>, k: nat)
    requires 0 < k <= |data|
    ensures forall j :: 0 <= j < k ==> data[j].value >= data[MinIndex(data, k)].value
    ensures forall j :: 0 <= j < MinIndex(data, k) ==> data[j].value > data[MinIndex(data, k)].value
  {
    if k > 1 {
      MinIndexIsFirstMin(data, k - 1);
    }
  }

  /** The first maximum bounds every value from above, the first minimum from below. */
  lemma ExtremesBound(data: seq<Point>)
    requires |data| > 0
    ensures forall j :: 0 <= j < |data| ==> FirstMin(data).value <= data[j].value <= FirstMax(data).value
  {
    MaxIndexIsFirstMax(data, |data|);
    MinIndexIsFirstMin(data, |data|);
  }

  datatype Extremes = Extremes(max: Point, min: Point)

  /** `findMaxAndMin(data)`: the first maximum and the first minimum, and the point
      `{date: '', value: 0}` for both when there is no data. */
  method FindMaxAndMin(data: seq<Point>) returns (r: Extremes)
    ensures |data| == 0 ==> r == Extremes(Point("", 0.0), Point("", 0.0))
    ensures |data| > 0 ==> r == Extremes(FirstMax(data), FirstMin(data))
  {
    if |data| == 0 {
      return Extremes(Point("", 0.0), Point("", 0.0));
    }
    var max := data[0];
    var min := data[0];
    var i := 1;
    while i < |data|
      invariant 1 <= i <= |data|
      invariant max == data[MaxIndex(data, i)] && min == data[MinIndex(data, i)]
    {
      if data[i].value > max.value {
        max := data[i];
      }
      if data[i].value < min.value {
        min := data[i];
      }
      i := i + 1;
    }
    r := Extremes(max, min);
  }

  // ---------------------------------------------------------------------------
  // findPeaksAndValleys

  /** `Math.abs(v - mean) > 0.5 * Math.sqrt(variance)`, written without the square root:
      both sides are non-negative, so it holds exactly when the squares compare the same
      way. */
  predicate Significant(v: real, mean: real, variance: real) {
    (v - mean) * (v - mean) > 0.25 * variance
  }

  function Abs(x: real): real {
    if x < 0.0 then -x else x
  }

  /** Comparing squares is the same as `|v - mean| > 0.5·σ` for the standard deviation σ,
      the non-negative square root of the variance. */
  lemma SignificantIsBeyondHalfDeviation(v: real, mean: real, variance: real, sigma: real)
    requires sigma >= 0.0 && sigma * sigma == variance
    ensures Significant(v, mean, variance) <==> Abs(v - mean) > 0.5 * sigma
  {
    var d, t := Abs(v - mean), 0.5 * sigma;
    assert (v - mean) * (v - mean) == d * d;
    assert 0.25 * variance == t * t;
    SquareMonotone(d, t);
  }

  lemma MulPositive(x: real, y: real)
    requires x > 0.0 && y > 0.0
    ensures x * y > 0.0
  {
  }

  lemma MulNonNegative(x: real, y: real)
    requires x >= 0.0 && y >= 0.0
    ensures x * y >= 0.0
  {
  }

  /** For non-negative numbers, `d > t` exactly when `d² > t²`. */
  lemma SquareMonotone(d: real, t: real)
    requires d >= 0.0 && t >= 0.0
    ensures d * d > t * t <==> d > t
  {
    if d > t {
      MulPositive(d - t, d + t);
      assert d * d - t * t == (d - t) * (d + t);
    } else {
      MulNonNegative(t - d, t + d);
      assert t * t - d * d == (t - d) * (t + d);
    }
  }

  predicate IsPeak(data: seq<Point>, i: int, mean: real, variance: real) {
    0 < i < |data| - 1 && data[i].value > data[i - 1].value && data[i].value > data[i + 1].value &&
    Significant(data[i].value, mean, variance)
  }

  predicate IsValley(data: seq<Point>, i: int, mean: real, variance: real) {
    0 < i < |data| - 1 && data[i].value < data[i - 1].value && data[i].value < data[i + 1].value &&
    Significant(data[i].value, mean, variance)
  }

  /** The peaks among the interior indices below `k`, in index order. */
  function PeaksBelow(data: seq<Point>, k: nat, mean: real, variance: real): seq<Point>
    requires k <= |data|
  {
    if k == 0 then [] else
      PeaksBelow(data, k - 1, mean, variance) + (if IsPeak(data, k - 1, mean, variance) then [data[k - 1]] else [])
  }

  function ValleysBelow(data: seq<Point>, k: nat, mean: real, variance: real): seq<Point>
    requires k <= |data|
  {
    if k == 0 then [] else
      ValleysBelow(data, k - 1, mean, variance) + (if IsValley(data, k - 1, mean, variance) then [data[k - 1]] else [])
  }

  datatype PeaksValleys = PeaksValleys(peaks: seq<Point>, valleys: seq<Point>)

  function Variance(data: seq<Point>): real
    requires |data| > 0
  {
    Dev2(Values(data), CalculateMean(data)) / (|data| as real)
  }

  /** What `findPeaksAndValleys` returns: nothing for fewer than three points; otherwise the
      significant local maxima and minima in order, and when there are none the first
      maximum (resp. minimum) in their place. */
  function PeaksSpec(data: seq<Point>): PeaksValleys {
    if |data| < 3 then PeaksValleys([], [])
    else
      var mean, variance := CalculateMean(data), Variance(data);
      var ps := PeaksBelow(data, |data|, mean, variance);
      var vs := ValleysBelow(data, |data|, mean, variance);
      PeaksValleys(if ps == [] then [FirstMax(data)] else ps, if vs == [] then [FirstMin(data)] else vs)
  }

  /** `findPeaksAndValleys(data)`. */
  method FindPeaksAndValleys(data: seq<Point>) returns (r: PeaksValleys)
    ensures r == PeaksSpec(data)
    ensures |data| >= 3 ==> |r.peaks| >= 1 && |r.valleys| >= 1
  {
    if |data| < 3 {
      return PeaksValleys([], []);
    }
    var values := Values(data);
    var n := |values| as real;
    var mean := Sum(values) / n;
    var variance := Dev2(values, mean) / n;
    var peaks, valleys := ScanPeaksAndValleys(data, mean, variance);
    if |peaks| == 0 {
      var maxItem := FirstMax(data);
      peaks := peaks + [maxItem];
    }
    if |valleys| == 0 {
      var minItem := FirstMin(data);
      valleys := valleys + [minItem];
    }
    r := PeaksValleys(peaks, valleys);
  }

  /** The `for` loop of `findPeaksAndValleys`: every interior point is compared with its two
      neighbours and the mean, and pushed as a peak or a valley. */
  method ScanPeaksAndValleys(data: seq<Point>, mean: real, variance: real)
    returns (peaks: seq<Point>, valleys: seq<Point>)
    requires |data| >= 3
    ensures peaks == PeaksBelow(data, |data|, mean, variance)
    ensures valleys == ValleysBelow(data, |data|, mean, variance)
  {
    peaks, valleys := [], [];
    var i := 1;
    while i < |data| - 1
      invariant 1 <= i <= |data| - 1
      invariant peaks == PeaksBelow(data, i, mean, variance)
      invariant valleys == ValleysBelow(data, i, mean, variance)
    {
      var prev, current, next := data[i - 1].value, data[i].value, data[i + 1].value;
      if current > prev && current > next && Significant(current, mean, variance) {
        peaks := peaks + [data[i]];
      }
      if current < prev && current < next && Significant(current, mean, variance) {
        valleys := valleys + [data[i]];
      }
      i := i + 1;
    }
    assert !IsPeak(data, i, mean, variance) && !IsValley(data, i, mean, variance);
  }

  /** A point is listed as a peak exactly when it stands at an interior index that is a
      significant local maximum. */
  lemma {:induction false} PeaksBelowMembers(data: seq<Point>, k: nat, mean: real, variance: real, p: Point)
    requires k <= |data|
    ensures p in PeaksBelow(data, k, mean, variance) <==>
      exists i :: 0 <= i < k && IsPeak(data, i, mean, variance) && data[i] == p
  {
    if k > 0 {
      PeaksBelowMembers(data, k - 1, mean, variance, p);
    }
  }

  lemma {:induction false} ValleysBelowMembers(data: seq<Point>, k: nat, mean: real, variance: real, p: Point)
    requires k <= |data|
    ensures p in ValleysBelow(data, k, mean, variance) <==>
      exists i :: 0 <= i < k && IsValley(data, i, mean, variance) && data[i] == p
  {
    if k > 0 {
      ValleysBelowMembers(data, k - 1, mean, variance, p);
    }
  }

  /** No index is both a peak and a valley. */
  lemma PeakNotValley(data: seq<Point>, i: int, mean: real, variance: real)
    ensures !(IsPeak(data, i, mean, variance) && IsValley(data, i, mean, variance))
  {
  }

  /** A strictly increasing series has no local maximum, so its only peak is its last
      point, and no local minimum, so its only valley is its first point. */
  lemma IncreasingSeries(data: seq<Point>)
    requires |data| >= 3
    requires forall i :: 0 < i < |data| ==> data[i - 1].value < data[i].value
    ensures PeaksSpec(data) == PeaksValleys([data[|data| - 1]], [data[0]])
  {
    var mean, variance := CalculateMean(data), Variance(data);
    NoPeaksBelow(data, |data|, mean, variance);
    NoValleysBelow(data, |data|, mean, variance);
    IncreasingToLast(data);
    IncreasingFromFirst(data);
    MaxIndexIsFirstMax(data, |data|);
    MinIndexIsFirstMin(data, |data|);
  }

  lemma IncreasingToLast(data: seq<Point>)
    requires |data| > 0
    requires forall i :: 0 < i < |data| ==> data[i - 1].value < data[i].value
    ensures forall j :: 0 <= j < |data| - 1 ==> data[j].value < data[|data| - 1].value
  {
    forall j | 0 <= j < |data| - 1 ensures data[j].value < data[|data| - 1].value {
      IncreasingAbove(data, j, |data| - 1);
    }
  }

  lemma IncreasingFromFirst(data: seq<Point>)
    requires |data| > 0
    requires forall i :: 0 < i < |data| ==> data[i - 1].value < data[i].value
    ensures forall j :: 0 < j < |data| ==> data[0].value < data[j].value
  {
    forall j | 0 < j < |data| ensures data[0].value < data[j].value {
      IncreasingAbove(data, 0, j);
    }
  }

  lemma {:induction false} IncreasingAbove(data: seq<Point>, i: int, j: int)
    requires 0 <= i < j < |data|
    requires forall k :: 0 < k < |data| ==> data[k - 1].value < data[k].value
    ensures data[i].value < data[j].value
  {
    if j > i + 1 {
      IncreasingAbove(data, i, j - 1);
    }
  }

  lemma {:induction false} NoPeaksBelow(data: seq<Point>, k: nat, mean: real, variance: real)
    requires k <= |data|
    requires forall i :: 0 < i < |data| ==> data[i - 1].value < data[i].value
    ensures PeaksBelow(data, k, mean, variance) == []
  {
    if k > 0 {
      NoPeaksBelow(data, k - 1, mean, variance);
      assert !IsPeak(data, k - 1, mean, variance) by {
        if 0 < k - 1 < |data| - 1 {
          assert data[k - 1].value < data[k].value;
        }
      }
    }
  }

  lemma {:induction false} NoValleysBelow(data: seq<Point>, k: nat, mean: real, variance: real)
    requires k <= |data|
    requires forall i :: 0 < i < |data| ==> data[i - 1].value < data[i].value
    ensures ValleysBelow(data, k, mean, variance) == []
  {
    if k > 0 {
      NoValleysBelow(data, k - 1, mean, variance);
      assert !IsValley(data, k - 1, mean, variance) by {
        if 0 < k - 1 < |data| - 1 {
          assert data[k - 2].value < data[k - 1].value;
        }
      }
    }
  }
}
