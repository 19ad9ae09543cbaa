/** The data the chart builders hand to the charting library: the shortened date labels of
    the x axis, the series values, the positions of the extreme-value markers, one chart per
    payment tier and the stacked bars of the buyers chart. Styles, tooltips and label
    formatters are presentation only and are not part of this model. */
module Charts {
  import opened Text
  import opened Records
  import opened Grouping
  import opened Series
  import opened Stats
  import opened Dates
  import opened Analysis

  // ---------------------------------------------------------------------------
  // simplifyDateLabel

  /** `${n}` for the result of `parseInt`: the decimal rendering, `NaN` for no number. */
  function RenderInt(n: Option<int>): string {
    match n
    case None => "NaN"
    case Some(v) => IntToString(v)
  }

  /** `parseInt(parts[i])`; past the end the part is `undefined`, which reads as `NaN`. */
  function PartNumber(parts: seq<string>, i: nat): Option<int> {
    if i < |parts| then ParseInt(parts[i]) else None
  }

  /** `simplifyDateLabel(dateStr)`: the second and third `-`-separated parts read as integers
      and joined by `/`; the year is dropped. Nothing in the body can throw, so the `catch`
      branch that returns the input is never taken. */
  function SimplifyDateLabel(dateStr: string): string {
    var parts := Split(dateStr, '-');
    RenderInt(PartNumber(parts, 1)) + "/" + RenderInt(PartNumber(parts, 2))
  }

  /** The label of a canonical date key is month and day without leading zeros. */
  lemma LabelOfDateKey(d: Date)
    requires ValidDate(d) && d.year >= 0
    ensures SimplifyDateLabel(FormatDate(d)) == NatToString(d.month) + "/" + NatToString(d.day)
  {
    var y, m, dd := NatToString(d.year), PadStart2(NatToString(d.month)), PadStart2(NatToString(d.day));
    NoSeparatorInNumber(d.year, '-');
    NoSeparatorInNumber(d.month, '-');
    NoSeparatorInNumber(d.day, '-');
    assert FormatDate(d) == y + ['-'] + m + ['-'] + dd;
    ThreeParts(y, m, dd, '-');
    ParseIntOfPadded(d.month);
    ParseIntOfPadded(d.day);
  }

  /** The example the source gives: `2025-04-17` becomes `4/17`. */
  lemma LabelExample(key: string)
    requires key == "2025-04-17"
    ensures SimplifyDateLabel(key) == "4/17"
  {
    var d := Date(2025, 4, 17);
    ExampleKey();
    LabelOfDateKey(d);
    var shown := NatToString(4) + "/" + NatToString(17);
    assert SimplifyDateLabel(key) == shown;
  }

  lemma ExampleKey()
    ensures ValidDate(Date(2025, 4, 17)) && FormatDate(Date(2025, 4, 17)) == "2025-04-17"
    ensures NatToString(4) == "4" && NatToString(17) == "17"
  {
    assert NatToString(2025) == "2025" by {
      assert NatToString(202) == "202" by {
        assert NatToString(20) == "20";
      }
    }
    assert NatToString(17) == "17";
    assert NatToString(4) == "4";
  }

  /** A label with no `-` in it has neither a month nor a day part. */
  lemma LabelWithoutDash(s: string)
    requires '-' !in s
    ensures SimplifyDateLabel(s) == "NaN/NaN"
  {
    CountAbsent(s, '-');
    SplitCount(s, '-');
  }

  // ---------------------------------------------------------------------------
  // generateConsumptionTrendChart

  /** `Array.prototype.indexOf`: the first position holding `x`, `-1` when there is none. */
  function IndexOf(xs: seq<string>, x: string): (i: int)
    ensures -1 <= i < |xs|
    ensures i >= 0 ==> xs[i] == x && forall j :: 0 <= j < i ==> xs[j] != x
    ensures i == -1 ==> x !in xs
  {
    if |xs| == 0 then -1
    else if xs[0] == x then 0
    else
      var r := IndexOf(xs[1..], x);
      assert forall j :: 1 <= j < |xs| ==> xs[j] == xs[1..][j - 1];
      if r < 0 then -1 else r + 1
  }

  /** A mark point: its value, its x position (a date index) and its y position. */
  datatype Mark = Mark(value: real, xAxis: int, yAxis: real)

  /** The data of the consumption chart: its title, the line colour, the x-axis labels, the
      consumption series, the trend-line series and the maximum and minimum mark points. */
  datatype LineChart = LineChart(
    title: string, color: string, xLabels: seq<string>,
    consumption: seq<real>, trend: seq<real>, maxMark: Mark, minMark: Mark)

  /** `{ value: p.value, xAxis: dates.indexOf(p.date), yAxis: p.value }`. */
  function MarkAt(dates: seq<string>, p: Point): Mark {
    Mark(p.value, IndexOf(dates, p.date), p.value)
  }

  function LabelsOf(dates: seq<string>): (labels: seq<string>)
    ensures |labels| == |dates|
  {
    seq(|dates|, i requires 0 <= i < |dates| => SimplifyDateLabel(dates[i]))
  }

  /** `generateConsumptionTrendChart(title, trendData, color)`. */
  function ConsumptionTrendChart(title: string, td: TrendData, color: string): LineChart {
    LineChart(title, color, LabelsOf(td.dates), td.values, td.trendValues,
              MarkAt(td.dates, td.max), MarkAt(td.dates, td.min))
  }

  /** The default colour of `generateConsumptionTrendChart`. */
  const DefaultColor: string := "#3B82F6"

  /** The x axis has one label per date, in date order, each the shortened date; the two line
      series are the consumption values and the trend-line values as given. */
  lemma ChartAxis(title: string, td: TrendData, color: string)
    ensures var c := ConsumptionTrendChart(title, td, color);
      |c.xLabels| == |td.dates| &&
      (forall i :: 0 <= i < |td.dates| ==> c.xLabels[i] == SimplifyDateLabel(td.dates[i])) &&
      c.consumption == td.values && c.trend == td.trendValues
  {
  }

  /** The first position of an element in a sequence without repeats is its position. */
  lemma IndexOfDistinct(xs: seq<string>, k: nat)
    requires k < |xs|
    requires forall i, j :: 0 <= i < j < |xs| ==> xs[i] != xs[j]
    ensures IndexOf(xs, xs[k]) == k
  {
  }

  /** The maximum mark of a series with distinct dates sits on the first largest value. */
  lemma MaxMark(td: TrendData)
    requires |td.values| == |td.dates| > 0
    requires forall i, j :: 0 <= i < j < |td.dates| ==> td.dates[i] != td.dates[j]
    requires td.max == FirstMax(Points(td))
    ensures var m := MarkAt(td.dates, td.max);
      0 <= m.xAxis < |td.dates| && m.value == m.yAxis == td.values[m.xAxis] &&
      (forall j :: 0 <= j < |td.values| ==> td.values[j] <= td.values[m.xAxis]) &&
      (forall j :: 0 <= j < m.xAxis ==> td.values[j] < td.values[m.xAxis])
  {
    var ps := Points(td);
    var hi := MaxIndex(ps, |ps|);
    MaxIndexIsFirstMax(ps, |ps|);
    IndexOfDistinct(td.dates, hi);
    assert ps[hi] == Point(td.dates[hi], td.values[hi]);
  }

  /** The minimum mark of a series with distinct dates sits on the first smallest value. */
  lemma MinMark(td: TrendData)
    requires |td.values| == |td.dates| > 0
    requires forall i, j :: 0 <= i < j < |td.dates| ==> td.dates[i] != td.dates[j]
    requires td.min == FirstMin(Points(td))
    ensures var m := MarkAt(td.dates, td.min);
      0 <= m.xAxis < |td.dates| && m.value == m.yAxis == td.values[m.xAxis] &&
      (forall j :: 0 <= j < |td.values| ==> td.values[j] >= td.values[m.xAxis]) &&
      (forall j :: 0 <= j < m.xAxis ==> td.values[j] > td.values[m.xAxis])
  {
    var ps := Points(td);
    var lo := MinIndex(ps, |ps|);
    MinIndexIsFirstMin(ps, |ps|);
    IndexOfDistinct(td.dates, lo);
    assert ps[lo] == Point(td.dates[lo], td.values[lo]);
  }

  /** For a series of the analysis the maximum mark sits on the column of the first largest
      value and the minimum mark on the column of the first smallest; with no data both marks
      use the sentinel point and sit at position `-1`. */
  lemma ChartMarks(title: string, td: TrendData, color: string,
                   g: Groups<string, Record>, value: seq<Record> -> real, level: Option<string>)
    requires Valid(g) && IsTrendOf(td, g, value, level)
    ensures var c := ConsumptionTrendChart(title, td, color);
      (|td.dates| == 0 ==> c.maxMark == Mark(0.0, -1, 0.0) && c.minMark == Mark(0.0, -1, 0.0)) &&
      (|td.dates| > 0 ==>
        0 <= c.maxMark.xAxis < |td.dates| && 0 <= c.minMark.xAxis < |td.dates| &&
        c.maxMark.value == c.maxMark.yAxis == td.values[c.maxMark.xAxis] &&
        c.minMark.value == c.minMark.yAxis == td.values[c.minMark.xAxis] &&
        (forall j :: 0 <= j < |td.values| ==> td.values[c.minMark.xAxis] <= td.values[j] <= td.values[c.maxMark.xAxis]) &&
        (forall j :: 0 <= j < c.maxMark.xAxis ==> td.values[j] < td.values[c.maxMark.xAxis]) &&
        (forall j :: 0 <= j < c.minMark.xAxis ==> td.values[j] > td.values[c.minMark.xAxis]))
  {
    if |td.dates| > 0 {
      TrendDatesAscending(td, g, value, level);
      forall i, j | 0 <= i < j < |td.dates| ensures td.dates[i] != td.dates[j] {
        LexIrreflexive(td.dates[i]);
      }
      MaxMark(td);
      MinMark(td);
    }
  }

  // ---------------------------------------------------------------------------
  // generatePaymentLevelCharts

  /** The colour table of the tiers; any other key gets the default colour. */
  function LevelColor(level: string): string {
    if level == "土豪" then "#F43F5E"
    else if level == "大R" then "#F97316"
    else if level == "中R" then "#FBBF24"
    else if level == "小R" then "#10B981"
    else if level == "平民" then "#3B82F6"
    else DefaultColor
  }

  /** The five tiers have five different colours, and a key outside the table is drawn in
      the colour of 平民. */
  lemma LevelColors()
    ensures forall i, j :: 0 <= i < j < |Levels| ==> LevelColor(Levels[i]) != LevelColor(Levels[j])
    ensures forall l :: l !in Levels ==> LevelColor(l) == LevelColor("平民") == DefaultColor
  {
  }

  /** The chart of one tier: titled after the tier and drawn in the tier's colour. */
  function LevelChart(level: string, td: TrendData): LineChart {
    ConsumptionTrendChart(level + "付费区间天玉消耗趋势", td, LevelColor(level))
  }

  /** `generatePaymentLevelCharts(paymentLevels)`: `for (const level in paymentLevels)`
      stores that tier's chart under its key. The keys are visited in an arbitrary order
      here; the result does not depend on it. */
  method GeneratePaymentLevelCharts(paymentLevels: map<string, TrendData>) returns (charts: map<string, LineChart>)
    ensures forall l :: l in charts <==> l in paymentLevels
    ensures forall l :: l in charts ==> charts[l] == LevelChart(l, paymentLevels[l])
  {
    charts := map[];
    var remaining := paymentLevels.Keys;
    while remaining != {}
      invariant remaining <= paymentLevels.Keys
      invariant forall l :: l in charts <==> l in paymentLevels && l !in remaining
      invariant forall l :: l in charts ==> charts[l] == LevelChart(l, paymentLevels[l])
      decreases |remaining|
    {
      var level :| level in remaining;
      var color := LevelColor(level);
      var title := level + "付费区间天玉消耗趋势";
      var chart := ConsumptionTrendChart(title, paymentLevels[level], color);
      assert chart == LevelChart(level, paymentLevels[level]);
      charts := charts[level := chart];
      remaining := remaining - {level};
    }
  }

  /** The tier charts of one analysis: exactly the five tiers, each titled after its tier,
      and all of them with the x axis of the overall series. */
  lemma TierChartsShareAxis(a: ConsumptionAnalysis, g: Groups<string, Record>, charts: map<string, LineChart>)
    requires Valid(g) && IsAnalysis(a, g)
    requires forall l :: l in charts <==> l in a.paymentLevels
    requires forall l :: l in charts ==> charts[l] == LevelChart(l, a.paymentLevels[l])
    ensures forall l :: l in charts <==> l in Levels
    ensures forall l :: l in charts ==>
      charts[l].title == l + "付费区间天玉消耗趋势" &&
      charts[l].xLabels == ConsumptionTrendChart("", a.total, DefaultColor).xLabels
  {
    AnalysisDates(a, g);
  }

  // ---------------------------------------------------------------------------
  // generateBuyersTrendChart

  /** One stacked bar series: its tier, its colour and its value per date. */
  datatype Bar = Bar(name: string, color: string, data: seq<real>)

  /** The data of the buyers chart: title, x-axis labels, legend and the stacked series. */
  datatype BarChart = BarChart(title: string, xLabels: seq<string>, legend: seq<string>, series: seq<Bar>)

  /** The field of a per-tier value that holds tier `level`. */
  function TierNamed<T>(t: ByTier<T>, level: string): T
    requires level in Levels
  {
    if level == "土豪" then t.whale
    else if level == "大R" then t.bigR
    else if level == "中R" then t.midR
    else if level == "小R" then t.smallR
    else t.free
  }

  /** `generateBuyersTrendChart(title, buyersTrend)`. */
  function BuyersTrendChart(title: string, b: BuyersTrend): BarChart {
    var t := b.buyersByLevel;
    BarChart(title, LabelsOf(b.dates), ["土豪", "大R", "中R", "小R", "平民"], [
      Bar("平民", LevelColor("平民"), t.free),
      Bar("小R", LevelColor("小R"), t.smallR),
      Bar("中R", LevelColor("中R"), t.midR),
      Bar("大R", LevelColor("大R"), t.bigR),
      Bar("土豪", LevelColor("土豪"), t.whale)])
  }

  /** The stack runs from 平民 at the bottom to 土豪 at the top, the reverse of the legend,
      which lists the tiers in their usual order; each bar series carries its own tier's
      buyers and colour, and the x axis has one shortened label per date. */
  lemma BuyersStack(title: string, b: BuyersTrend)
    ensures var c := BuyersTrendChart(title, b);
      c.legend == Levels && |c.series| == |Levels| &&
      (forall k :: 0 <= k < |Levels| ==> c.series[k].name == Levels[|Levels| - 1 - k]) &&
      (forall k :: 0 <= k < |c.series| ==>
        c.series[k].name in Levels &&
        c.series[k].data == TierNamed(b.buyersByLevel, c.series[k].name) &&
        c.series[k].color == LevelColor(c.series[k].name)) &&
      |c.xLabels| == |b.dates| &&
      (forall i :: 0 <= i < |b.dates| ==> c.xLabels[i] == SimplifyDateLabel(b.dates[i]))
  {
  }

  /** The buyers chart of a buyers trend read off the date groups: on each day, each bar
      is the role count of its tier's rows, and the five stacked bars together are exactly
      as high as that day's total buyers. */
  lemma BuyersChartCounts(title: string, b: BuyersTrend, g: Groups<string, Record>, i: nat)
    requires Valid(g) && IsBuyersTrend(b, g) && i < |b.dates|
    ensures var c := BuyersTrendChart(title, b);
      |c.series| == |Levels| &&
      (forall k :: 0 <= k < |c.series| ==>
        |c.series[k].data| == |b.dates| && c.series[k].name in Levels &&
        c.series[k].data[i] == LevelBuyers(g.buckets[b.dates[i]], c.series[k].name)) &&
      c.series[0].data[i] + c.series[1].data[i] + c.series[2].data[i] +
        c.series[3].data[i] + c.series[4].data[i] == b.totalBuyers[i]
  {
    assert DayValues(b, g);
    var day := DayTierBuyers(g.buckets[b.dates[i]]);
    assert TierAt(b.buyersByLevel, i) == day;
    assert b.totalBuyers[i] == TierSum(day);
  }
}
