/** `analyzeTianYuConsumptionTrend`: the rows are grouped by date once; from the groups come
    the overall daily series and one series per payment tier, each with its trend line,
    mean, peaks and valleys, extremes and per-date item breakdown, and the buyers per day. */
module Analysis {
  import opened Text
  import opened Records
  import opened Dates
  import opened Grouping
  import opened Sorting
  import opened Series
  import opened Stats
  import opened Items

  /** `pointDetails[date]`: the date, its series value and its item breakdown. */
  datatype Detail = Detail(date: string, value: real, items: seq<Entry>)

  /** `TrendData`. */
  datatype TrendData = TrendData(
    dates: seq<string>, values: seq<real>, trendValues: seq<real>, mean: real,
    max: Point, min: Point, peaks: seq<Point>, valleys: seq<Point>,
    pointDetails: map<string, Detail>)

  /** What `analyzeTianYuConsumptionTrend` returns. */
  datatype ConsumptionAnalysis = ConsumptionAnalysis(
    total: TrendData, paymentLevels: map<string, TrendData>, buyersTrend: BuyersTrend)

  /** `groupedByDate.get(date) || []`, and for a tier's series only that tier's rows
      (`filter(item => item[TierColumn] === level)`). */
  function DetailRows(g: Groups<string, Record>, date: string, level: Option<string>): seq<Record> {
    var rows := if date in g.buckets then g.buckets[date] else [];
    match level
    case None => rows
    case Some(l) => WithTier(rows, l)
  }

  /** The detail of every point, in order. */
  function DetailList(series: seq<Point>, g: Groups<string, Record>, level: Option<string>): (ds: seq<Detail>)
    ensures |ds| == |series|
    ensures forall i :: 0 <= i < |series| ==>
      ds[i] == Detail(series[i].date, series[i].value, Breakdown(DetailRows(g, series[i].date, level)))
  {
    seq(|series|, i requires 0 <= i < |series| =>
      Detail(series[i].date, series[i].value, Breakdown(DetailRows(g, series[i].date, level))))
  }

  /** The `pointDetails` object of a series. */
  function Details(series: seq<Point>, g: Groups<string, Record>, level: Option<string>): map<string, Detail> {
    AssignTo(PointDates(series), DetailList(series, g, level), |series|)
  }

  /** `dates.forEach((date, index) => { pointDetails[date] = ... })`. */
  method PointDetails(series: seq<Point>, g: Groups<string, Record>, level: Option<string>)
    returns (pointDetails: map<string, Detail>)
    ensures pointDetails == Details(series, g, level)
  {
    var dates, values := PointDates(series), Values(series);
    ghost var details := DetailList(series, g, level);
    pointDetails := map[];
    for index := 0 to |dates|
      invariant pointDetails == AssignTo(dates, details, index)
    {
      var date := dates[index];
      var dateItems := if date in g.buckets then g.buckets[date] else [];
      if level.Some? {
        dateItems := WithTier(dateItems, level.value);
      }
      assert dateItems == DetailRows(g, series[index].date, level);
      var itemConsumption := CalculateDailyItemConsumption(dateItems);
      assert Detail(date, values[index], itemConsumption) == details[index];
      pointDetails := pointDetails[date := Detail(date, values[index], itemConsumption)];
    }
  }

  /** The series rebuilt from a `TrendData`'s dates and values. */
  function Points(td: TrendData): (ps: seq<Point>)
    requires |td.values| == |td.dates|
    ensures |ps| == |td.dates|
    ensures forall i :: 0 <= i < |ps| ==> ps[i] == Point(td.dates[i], td.values[i])
  {
    seq(|td.dates|, i requires 0 <= i < |td.dates| => Point(td.dates[i], td.values[i]))
  }

  /** What the `TrendData` of a daily series holds: the series' dates and values, its trend
      line's values, its mean, its peaks and valleys, its extremes (the sentinel point for
      no data) and the per-date details. */
  ghost predicate IsTrendFor(td: TrendData, series: seq<Point>, g: Groups<string, Record>, level: Option<string>) {
    |td.values| == |td.dates| && Points(td) == series &&
    td.trendValues == GetTrendLineValues(series, Trend(series)) &&
    td.mean == CalculateMean(series) &&
    PeaksValleys(td.peaks, td.valleys) == PeaksSpec(series) &&
    (|series| == 0 ==> td.max == Point("", 0.0) && td.min == Point("", 0.0)) &&
    (|series| > 0 ==> td.max == FirstMax(series) && td.min == FirstMin(series)) &&
    td.pointDetails == Details(series, g, level)
  }

  /** A `TrendData` whose series is the daily series of `value` over the groups. */
  ghost predicate IsTrendOf(td: TrendData, g: Groups<string, Record>, value: seq<Record> -> real, level: Option<string>)
    requires Valid(g)
  {
    |td.values| == |td.dates| && IsDailySeries(Points(td), g, value) && IsTrendFor(td, Points(td), g, level)
  }

  /** The statistics of one series, assembled into its `TrendData`. */
  method BuildTrend(series: seq<Point>, g: Groups<string, Record>, level: Option<string>) returns (td: TrendData)
    ensures IsTrendFor(td, series, g, level)
  {
    var dates, values := PointDates(series), Values(series);
    var trendLine := CalculateTrendLine(series);
    var trendValues := GetTrendLineValues(series, trendLine);
    var mean := CalculateMean(series);
    var pv := FindPeaksAndValleys(series);
    var ext := FindMaxAndMin(series);
    var pointDetails := PointDetails(series, g, level);
    td := TrendData(dates, values, trendValues, mean, ext.max, ext.min, pv.peaks, pv.valleys, pointDetails);
    assert Points(td) == series;
  }

  /** What the analysis of the groups `g` is: the overall series, exactly the five tiers each
      with its own series, and the buyers. */
  ghost predicate IsAnalysis(a: ConsumptionAnalysis, g: Groups<string, Record>)
    requires Valid(g)
  {
    IsTrendOf(a.total, g, DayTotal, None) &&
    (forall l :: l in a.paymentLevels <==> l in Levels) &&
    (forall l :: l in a.paymentLevels ==> IsTrendOf(a.paymentLevels[l], g, LevelOf(l), Some(l))) &&
    IsBuyersTrend(a.buyersTrend, g)
  }

  lemma TrendOfSeries(td: TrendData, series: seq<Point>, g: Groups<string, Record>,
                      value: seq<Record> -> real, level: Option<string>)
    requires Valid(g) && IsDailySeries(series, g, value) && IsTrendFor(td, series, g, level)
    ensures IsTrendOf(td, g, value, level)
  {
  }

  /** `analyzeTianYuConsumptionTrend(data)`, `today` standing for the current date that
      `parseDate` returns for a date string with neither `/` nor `-`. */
  method AnalyzeTianYuConsumptionTrend(data: seq<Record>, today: Date) returns (a: ConsumptionAnalysis)
    requires ValidDate(today)
    requires forall i :: 0 <= i < |data| ==> DateReadable(data[i])
    ensures Valid(GroupSpec(data, DateKeys(data, today)))
    ensures IsAnalysis(a, GroupSpec(data, DateKeys(data, today)))
  {
    var groupedByDate := GroupDataByDate(data, today);
    var dailyConsumption := CalculateDailyConsumption(groupedByDate);
    var total := BuildTrend(dailyConsumption, groupedByDate, None);
    TrendOfSeries(total, dailyConsumption, groupedByDate, DayTotal, None);
    var paymentLevelTrends := PaymentLevelTrends(groupedByDate);
    var buyersTrend := CalculateDailyBuyers(groupedByDate);
    a := ConsumptionAnalysis(total, paymentLevelTrends, buyersTrend);
  }

  /** The body of the loop over the tiers: the tier's daily series and its statistics. */
  method LevelTrend(groupedByDate: Groups<string, Record>, level: string) returns (td: TrendData)
    requires Valid(groupedByDate)
    ensures IsTrendOf(td, groupedByDate, LevelOf(level), Some(level))
  {
    var levelConsumption := CalculateDailyConsumptionByLevel(groupedByDate, level);
    td := BuildTrend(levelConsumption, groupedByDate, Some(level));
    TrendOfSeries(td, levelConsumption, groupedByDate, LevelOf(level), Some(level));
  }

  /** `paymentLevels.forEach(level => { paymentLevelTrends[level] = ... })`. */
  method PaymentLevelTrends(groupedByDate: Groups<string, Record>) returns (paymentLevelTrends: map<string, TrendData>)
    requires Valid(groupedByDate)
    ensures forall l :: l in paymentLevelTrends <==> l in Levels
    ensures forall l :: l in paymentLevelTrends ==>
      IsTrendOf(paymentLevelTrends[l], groupedByDate, LevelOf(l), Some(l))
  {
    ghost var trends: seq<TrendData> := [];
    paymentLevelTrends := map[];
    for k := 0 to |Levels|
      invariant |trends| == k
      invariant paymentLevelTrends == AssignTo(Levels, trends, k)
      invariant forall j :: 0 <= j < k ==> IsTrendOf(trends[j], groupedByDate, LevelOf(Levels[j]), Some(Levels[j]))
    {
      var level := Levels[k];
      var td := LevelTrend(groupedByDate, level);
      AssignToSame(Levels, trends, td, k);
      TrendsExtend(groupedByDate, trends, td);
      trends := trends + [td];
      paymentLevelTrends := paymentLevelTrends[level := td];
    }
    LevelMap(groupedByDate, trends);
  }

  lemma TrendsExtend(g: Groups<string, Record>, trends: seq<TrendData>, td: TrendData)
    requires Valid(g) && |trends| < |Levels|
    requires forall j :: 0 <= j < |trends| ==> IsTrendOf(trends[j], g, LevelOf(Levels[j]), Some(Levels[j]))
    requires IsTrendOf(td, g, LevelOf(Levels[|trends|]), Some(Levels[|trends|]))
    ensures forall j :: 0 <= j < |trends| + 1 ==> IsTrendOf((trends + [td])[j], g, LevelOf(Levels[j]), Some(Levels[j]))
  {
    forall j | 0 <= j < |trends| + 1
      ensures IsTrendOf((trends + [td])[j], g, LevelOf(Levels[j]), Some(Levels[j]))
    {
      if j < |trends| {
        assert (trends + [td])[j] == trends[j];
      } else {
        assert (trends + [td])[j] == td;
      }
    }
  }

  /** The five tier names are different. */
  lemma LevelsDistinct()
    ensures forall i, j :: 0 <= i < j < |Levels| ==> Levels[i] != Levels[j]
  {
  }

  /** The object built over the five tiers has exactly those keys, each with its own trend. */
  lemma LevelMap(g: Groups<string, Record>, trends: seq<TrendData>)
    requires Valid(g) && |trends| == |Levels|
    requires forall j :: 0 <= j < |Levels| ==> IsTrendOf(trends[j], g, LevelOf(Levels[j]), Some(Levels[j]))
    ensures var m := AssignTo(Levels, trends, |Levels|);
      (forall l :: l in m <==> l in Levels) &&
      (forall l :: l in m ==> IsTrendOf(m[l], g, LevelOf(l), Some(l)))
  {
    var m := AssignTo(Levels, trends, |Levels|);
    AssignToKeys(Levels, trends, |Levels|);
    KeysToAll(Levels);
    LevelsDistinct();
    forall l | l in m ensures IsTrendOf(m[l], g, LevelOf(l), Some(l)) {
      var j :| 0 <= j < |Levels| && Levels[j] == l;
      AssignToAt(Levels, trends, |Levels|, j);
    }
  }

  // ---------------------------------------------------------------------------
  // what the analysis promises

  lemma PointsDates(td: TrendData)
    requires |td.values| == |td.dates|
    ensures PointDates(Points(td)) == td.dates
  {
  }

  /** Every tier's series and the buyers run over the same dates as the overall series. */
  lemma AnalysisDates(a: ConsumptionAnalysis, g: Groups<string, Record>)
    requires Valid(g) && IsAnalysis(a, g)
    ensures forall l :: l in a.paymentLevels ==> a.paymentLevels[l].dates == a.total.dates
    ensures a.buyersTrend.dates == a.total.dates
  {
    PointsDates(a.total);
    forall l | l in a.paymentLevels ensures a.paymentLevels[l].dates == a.total.dates {
      var td := a.paymentLevels[l];
      PointsDates(td);
      SeriesDatesAgree(Points(a.total), Points(td), g, DayTotal, LevelOf(l));
    }
    SeriesDates(Points(a.total), g, DayTotal);
    AscendingUnique(a.buyersTrend.dates, a.total.dates);
  }

  /** The dates of a series' `TrendData` are strictly ascending. */
  lemma TrendDatesAscending(td: TrendData, g: Groups<string, Record>, value: seq<Record> -> real, level: Option<string>)
    requires Valid(g) && IsTrendOf(td, g, value, level)
    ensures forall i, j :: 0 <= i < j < |td.dates| ==> LexLess(td.dates[i], td.dates[j])
  {
    var series := Points(td);
    forall i, j | 0 <= i < j < |td.dates| ensures LexLess(td.dates[i], td.dates[j]) {
      assert series[i].date == td.dates[i] && series[j].date == td.dates[j];
    }
  }

  /** The details object of a series has one entry per date. */
  lemma DetailKeys(td: TrendData, g: Groups<string, Record>, level: Option<string>)
    requires |td.values| == |td.dates| && td.pointDetails == Details(Points(td), g, level)
    ensures forall d :: d in td.pointDetails <==> d in td.dates
  {
    PointsDates(td);
    AssignToKeys(td.dates, DetailList(Points(td), g, level), |td.dates|);
    forall d ensures d in KeysTo(td.dates, |td.dates|) <==> d in td.dates {
      if d in td.dates {
        var i :| 0 <= i < |td.dates| && td.dates[i] == d;
      }
    }
  }

  /** The entry of each date holds that date's value and the item breakdown of that date's
      rows. */
  lemma DetailOfDate(td: TrendData, g: Groups<string, Record>, level: Option<string>, i: nat)
    requires |td.values| == |td.dates| && i < |td.dates|
    requires forall a, b :: 0 <= a < b < |td.dates| ==> LexLess(td.dates[a], td.dates[b])
    requires td.pointDetails == Details(Points(td), g, level)
    ensures td.dates[i] in td.pointDetails
    ensures td.pointDetails[td.dates[i]] == Detail(td.dates[i], td.values[i], Breakdown(DetailRows(g, td.dates[i], level)))
  {
    var details := DetailList(Points(td), g, level);
    PointsDates(td);
    forall j | i < j < |td.dates| ensures td.dates[j] != td.dates[i] {
      LexIrreflexive(td.dates[i]);
    }
    AssignToAt(td.dates, details, |td.dates|, i);
  }

  /** The item breakdown of some rows adds up to their consumption. */
  lemma ItemsAddUp(rows: seq<Record>, v: real, items: seq<Entry>)
    requires v == ColumnSum(rows, AmountColumn) && items == Breakdown(rows)
    ensures Sum(Column(items, EntryValue)) == v
  {
    BreakdownTotal(rows);
  }

  /** `pointDetails[dates[i]].value == values[i]` for the overall series, and the items of
      each date add up to that value. */
  lemma TotalDetails(a: ConsumptionAnalysis, g: Groups<string, Record>, i: nat)
    requires Valid(g) && IsAnalysis(a, g) && i < |a.total.dates|
    ensures var td := a.total;
      td.dates[i] in td.pointDetails &&
      td.pointDetails[td.dates[i]].value == td.values[i] &&
      Sum(Column(td.pointDetails[td.dates[i]].items, EntryValue)) == td.values[i]
  {
    var td := a.total;
    var d := td.dates[i];
    TrendDatesAscending(td, g, DayTotal, None);
    DetailOfDate(td, g, None, i);
    assert Points(td)[i] == Point(d, td.values[i]);
    assert d in g.buckets && td.values[i] == DayTotal(g.buckets[d]);
    ItemsAddUp(g.buckets[d], td.values[i], td.pointDetails[d].items);
  }

  /** The same for the series of each tier: its items are that tier's rows of the date. */
  lemma LevelDetails(a: ConsumptionAnalysis, g: Groups<string, Record>, l: string, i: nat)
    requires Valid(g) && IsAnalysis(a, g) && l in a.paymentLevels && i < |a.paymentLevels[l].dates|
    ensures var td := a.paymentLevels[l];
      td.dates[i] in td.pointDetails &&
      td.pointDetails[td.dates[i]].value == td.values[i] &&
      Sum(Column(td.pointDetails[td.dates[i]].items, EntryValue)) == td.values[i]
  {
    var td := a.paymentLevels[l];
    var d := td.dates[i];
    TrendDatesAscending(td, g, LevelOf(l), Some(l));
    DetailOfDate(td, g, Some(l), i);
    assert Points(td)[i] == Point(d, td.values[i]);
    assert d in g.buckets && td.values[i] == LevelOf(l)(g.buckets[d]);
    ItemsAddUp(WithTier(g.buckets[d], l), td.values[i], td.pointDetails[d].items);
  }
}
