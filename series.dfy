/** The daily series built from the date groups: total consumption per day
    (`calculateDailyConsumption`), one tier's consumption per day
    (`calculateDailyConsumptionByLevel`) and buyers per day and tier (`calculateDailyBuyers`).
    Each walks the groups in insertion order, pushes one row per date and sorts the rows by
    date. */
module Series {
  import opened Text
  import opened Records
  import opened Grouping
  import opened Sorting

  function PointDate(p: Point): string { p.date }

  /** Consumption of one day's rows. */
  function DayTotal(items: seq<Record>): real {
    ColumnSum(items, AmountColumn)
  }

  /** Consumption of one day's rows of one tier: `filter` by tier, then `reduce`. */
  function LevelTotal(items: seq<Record>, level: string): real {
    ColumnSum(WithTier(items, level), AmountColumn)
  }

  /** The value a tier's series gives a day's rows. */
  function LevelOf(level: string): seq<Record> -> real {
    items => LevelTotal(items, level)
  }

  /** What a daily series over the groups `g` is: one point per date key, in ascending date
      order, each carrying the value `value` gives for that date's rows. */
  ghost predicate IsDailySeries(r: seq<Point>, g: Groups<string, Record>, value: seq<Record> -> real)
    requires Valid(g)
  {
    |r| == |g.keys| &&
    (forall i, j :: 0 <= i < j < |r| ==> LexLess(r[i].date, r[j].date)) &&
    (forall k :: k in g.buckets <==> exists i :: 0 <= i < |r| && r[i].date == k) &&
    (forall i :: 0 <= i < |r| ==> r[i].date in g.buckets && r[i].value == value(g.buckets[r[i].date]))
  }

  /** Sorting rows that carry distinct keys, one row per key, gives one row per key in
      strictly ascending key order. */
  lemma SortedRows<R>(pushed: seq<R>, keys: seq<string>, date: R -> string)
    requires Distinct(keys) && |pushed| == |keys|
    requires forall j :: 0 <= j < |keys| ==> date(pushed[j]) == keys[j]
    ensures |SortBy(pushed, date)| == |keys|
    ensures StrictlyAscending(SortBy(pushed, date), date)
    ensures forall x :: x in SortBy(pushed, date) <==> x in pushed
  {
    SortStrict(pushed, date);
    var r := SortBy(pushed, date);
    forall x ensures x in r <==> x in pushed {
      assert x in r <==> x in multiset(r);
    }
  }

  /** The pushed rows, sorted, form the daily series. */
  lemma SortedSeries(pushed: seq<Point>, g: Groups<string, Record>, value: seq<Record> -> real)
    requires Valid(g) && |pushed| == |g.keys|
    requires forall j :: 0 <= j < |g.keys| ==> pushed[j] == Point(g.keys[j], value(g.buckets[g.keys[j]]))
    ensures IsDailySeries(SortBy(pushed, PointDate), g, value)
  {
    SortedRows(pushed, g.keys, PointDate);
    SortedValues(pushed, g, value);
    SortedCovers(pushed, g, value);
  }

  lemma SortedValues(pushed: seq<Point>, g: Groups<string, Record>, value: seq<Record> -> real)
    requires Valid(g) && |pushed| == |g.keys|
    requires forall j :: 0 <= j < |g.keys| ==> pushed[j] == Point(g.keys[j], value(g.buckets[g.keys[j]]))
    ensures var r := SortBy(pushed, PointDate);
      forall i :: 0 <= i < |r| ==> r[i].date in g.buckets && r[i].value == value(g.buckets[r[i].date])
  {
    SortedRows(pushed, g.keys, PointDate);
    var r := SortBy(pushed, PointDate);
    forall i | 0 <= i < |r| ensures r[i].date in g.buckets && r[i].value == value(g.buckets[r[i].date]) {
      assert r[i] in pushed;
      var j :| 0 <= j < |pushed| && pushed[j] == r[i];
    }
  }

  lemma SortedCovers(pushed: seq<Point>, g: Groups<string, Record>, value: seq<Record> -> real)
    requires Valid(g) && |pushed| == |g.keys|
    requires forall j :: 0 <= j < |g.keys| ==> pushed[j] == Point(g.keys[j], value(g.buckets[g.keys[j]]))
    ensures var r := SortBy(pushed, PointDate);
      forall k :: k in g.buckets ==> exists i :: 0 <= i < |r| && r[i].date == k
  {
    SortedRows(pushed, g.keys, PointDate);
    var r := SortBy(pushed, PointDate);
    forall k | k in g.buckets ensures exists i :: 0 <= i < |r| && r[i].date == k {
      var j :| 0 <= j < |g.keys| && g.keys[j] == k;
      assert pushed[j] in r;
      var i :| 0 <= i < |r| && r[i] == pushed[j];
    }
  }

  /** `calculateDailyConsumption(groupedByDate)`. */
  method CalculateDailyConsumption(groupedByDate: Groups<string, Record>) returns (result: seq<Point>)
    requires Valid(groupedByDate)
    ensures IsDailySeries(result, groupedByDate, DayTotal)
  {
    var g := groupedByDate;
    var pushed: seq<Point> := [];
    var i := 0;
    while i < |g.keys|
      invariant 0 <= i <= |g.keys| && |pushed| == i
      invariant forall j :: 0 <= j < i ==> pushed[j] == Point(g.keys[j], DayTotal(g.buckets[g.keys[j]]))
    {
      var date := g.keys[i];
      var items := g.buckets[date];
      var totalConsumption := ColumnSum(items, AmountColumn);
      pushed := pushed + [Point(date, totalConsumption)];
      i := i + 1;
    }
    result := SortBy(pushed, PointDate);
    SortedSeries(pushed, g, DayTotal);
  }

  /** `calculateDailyConsumptionByLevel(groupedByDate, paymentLevel)`: every date keeps its
      point, with value 0 on a day the tier bought nothing. */
  method CalculateDailyConsumptionByLevel(groupedByDate: Groups<string, Record>, paymentLevel: string)
    returns (result: seq<Point>)
    requires Valid(groupedByDate)
    ensures IsDailySeries(result, groupedByDate, LevelOf(paymentLevel))
  {
    var g := groupedByDate;
    var value := LevelOf(paymentLevel);
    var pushed: seq<Point> := [];
    var i := 0;
    while i < |g.keys|
      invariant 0 <= i <= |g.keys| && |pushed| == i
      invariant forall j :: 0 <= j < i ==> pushed[j] == Point(g.keys[j], value(g.buckets[g.keys[j]]))
    {
      var date := g.keys[i];
      var levelItems := WithTier(g.buckets[date], paymentLevel);
      var totalConsumption := ColumnSum(levelItems, AmountColumn);
      pushed := pushed + [Point(date, totalConsumption)];
      i := i + 1;
    }
    result := SortBy(pushed, PointDate);
    SortedSeries(pushed, g, value);
  }

  /** The dates of a daily series are the group keys, strictly ascending. */
  lemma SeriesDates(a: seq<Point>, g: Groups<string, Record>, f: seq<Record> -> real)
    requires Valid(g) && IsDailySeries(a, g, f)
    ensures forall x :: x in PointDates(a) <==> x in g.buckets
    ensures forall i, j :: 0 <= i < j < |a| ==> LexLess(PointDates(a)[i], PointDates(a)[j])
  {
    var da := PointDates(a);
    forall x | x in da ensures x in g.buckets {
      var i :| 0 <= i < |da| && da[i] == x;
      assert a[i].date in g.buckets;
    }
    forall x | x in g.buckets ensures x in da {
      var i :| 0 <= i < |a| && a[i].date == x;
      assert da[i] == x;
    }
    forall i, j | 0 <= i < j < |a| ensures LexLess(da[i], da[j]) {
      assert da[i] == a[i].date && da[j] == a[j].date;
    }
  }

  /** Two daily series over the same groups have the same dates, in the same order. */
  lemma SeriesDatesAgree(a: seq<Point>, b: seq<Point>, g: Groups<string, Record>,
                         f: seq<Record> -> real, h: seq<Record> -> real)
    requires Valid(g)
    requires IsDailySeries(a, g, f) && IsDailySeries(b, g, h)
    ensures PointDates(a) == PointDates(b)
  {
    SeriesDates(a, g, f);
    SeriesDates(b, g, h);
    AscendingUnique(PointDates(a), PointDates(b));
  }

  // ---------------------------------------------------------------------------
  // calculateDailyBuyers

  /** A value per payment tier, in the order of `Levels`: 土豪, 大R, 中R, 小R, 平民. */
  datatype ByTier<T> = ByTier(whale: T, bigR: T, midR: T, smallR: T, free: T)

  /** `BuyersTrendData`: the dates, the total buyers per date and each tier's buyers per date. */
  datatype BuyersTrend = BuyersTrend(dates: seq<string>, totalBuyers: seq<real>, buyersByLevel: ByTier<seq<real>>)

  /** One row of the intermediate result: a date, its total and its per-tier object. */
  datatype DayBuyers = DayBuyers(date: string, total: real, byLevel: map<string, real>)

  function RowDate(d: DayBuyers): string { d.date }

  /** Buyers of one tier on one day: the role-count column summed over that tier's rows. */
  function LevelBuyers(items: seq<Record>, level: string): real {
    ColumnSum(WithTier(items, level), RoleCountColumn)
  }

  /** The buyers of each tier on one day. */
  function DayTierBuyers(items: seq<Record>): ByTier<real> {
    ByTier(LevelBuyers(items, Levels[0]), LevelBuyers(items, Levels[1]), LevelBuyers(items, Levels[2]),
           LevelBuyers(items, Levels[3]), LevelBuyers(items, Levels[4]))
  }

  /** The five tiers summed left to right from 0, as `reduce` sums `Object.values` of an
      object filled in the order of `Levels`. */
  function TierSum(t: ByTier<real>): real {
    0.0 + t.whale + t.bigR + t.midR + t.smallR + t.free
  }

  /** The per-tier object of one day: one entry per tier, each that tier's buyers. */
  function DayObject(items: seq<Record>): (m: map<string, real>)
    ensures forall l :: l in m <==> l in Levels
  {
    map l | l in Levels :: LevelBuyers(items, l)
  }

  /** `byLevel[level] || 0`: a missing tier reads 0. */
  function OrZero(byLevel: map<string, real>, level: string): real {
    if level in byLevel then byLevel[level] else 0.0
  }

  function ObjectTiers(m: map<string, real>): ByTier<real> {
    ByTier(OrZero(m, Levels[0]), OrZero(m, Levels[1]), OrZero(m, Levels[2]), OrZero(m, Levels[3]), OrZero(m, Levels[4]))
  }

  /** `Object.values(buyersByLevel).reduce((sum, value) => sum + value, 0)`, the object
      having been filled in the order of `Levels`. */
  function ObjectSum(m: map<string, real>): real
    requires forall l :: l in Levels ==> l in m
  {
    0.0 + m[Levels[0]] + m[Levels[1]] + m[Levels[2]] + m[Levels[3]] + m[Levels[4]]
  }

  /** A day's per-tier object reads back as each tier's buyers, and its values sum to the
      sum of the tiers. */
  lemma DayObjectTiers(m: map<string, real>, items: seq<Record>)
    requires m == DayObject(items)
    ensures ObjectTiers(m) == DayTierBuyers(items)
    ensures ObjectSum(m) == TierSum(DayTierBuyers(items))
  {
  }

  /** What a pushed row says about its day. */
  ghost predicate IsDayRow(row: DayBuyers, date: string, items: seq<Record>) {
    row.date == date && ObjectTiers(row.byLevel) == DayTierBuyers(items) &&
    row.total == TierSum(DayTierBuyers(items))
  }

  /** `levels.forEach(level => { buyersByLevel[level] = ... })`. */
  method BuyersByLevel(items: seq<Record>) returns (buyersByLevel: map<string, real>)
    ensures buyersByLevel == DayObject(items)
  {
    buyersByLevel := map[];
    var k := 0;
    while k < |Levels|
      invariant 0 <= k <= |Levels|
      invariant forall l :: l in buyersByLevel <==> l in Levels[..k]
      invariant forall l :: l in buyersByLevel ==> buyersByLevel[l] == LevelBuyers(items, l)
    {
      var level := Levels[k];
      var levelBuyers := ColumnSum(WithTier(items, level), RoleCountColumn);
      buyersByLevel := buyersByLevel[level := levelBuyers];
      k := k + 1;
    }
    assert Levels[..k] == Levels;
  }

  /** The per-tier columns of the sorted rows. */
  function LevelColumn(rows: seq<DayBuyers>, level: string): (vs: seq<real>)
    ensures |vs| == |rows|
    ensures forall i :: 0 <= i < |rows| ==> vs[i] == OrZero(rows[i].byLevel, level)
  {
    seq(|rows|, i requires 0 <= i < |rows| => OrZero(rows[i].byLevel, level))
  }

  function Totals(rows: seq<DayBuyers>): (vs: seq<real>)
    ensures |vs| == |rows|
    ensures forall i :: 0 <= i < |rows| ==> vs[i] == rows[i].total
  {
    seq(|rows|, i requires 0 <= i < |rows| => rows[i].total)
  }

  function RowDates(rows: seq<DayBuyers>): (ds: seq<string>)
    ensures |ds| == |rows|
    ensures forall i :: 0 <= i < |rows| ==> ds[i] == rows[i].date
  {
    seq(|rows|, i requires 0 <= i < |rows| => rows[i].date)
  }

  /** The `BuyersTrendData` built from the sorted rows. */
  function FromRows(rows: seq<DayBuyers>): BuyersTrend {
    BuyersTrend(RowDates(rows), Totals(rows),
      ByTier(LevelColumn(rows, Levels[0]), LevelColumn(rows, Levels[1]), LevelColumn(rows, Levels[2]),
             LevelColumn(rows, Levels[3]), LevelColumn(rows, Levels[4])))
  }

  ghost predicate TierLengths(t: ByTier<seq<real>>, n: nat) {
    |t.whale| == n && |t.bigR| == n && |t.midR| == n && |t.smallR| == n && |t.free| == n
  }

  function TierAt(t: ByTier<seq<real>>, i: nat): ByTier<real>
    requires TierLengths(t, |t.whale|) && i < |t.whale|
  {
    ByTier(t.whale[i], t.bigR[i], t.midR[i], t.smallR[i], t.free[i])
  }

  /** What `calculateDailyBuyers` returns: the dates of the groups in ascending order; for
      each date, each tier's buyers, and as total the sum of the five tiers. */
  ghost predicate IsBuyersTrend(b: BuyersTrend, g: Groups<string, Record>)
    requires Valid(g)
  {
    |b.dates| == |g.keys| &&
    (forall i, j :: 0 <= i < j < |b.dates| ==> LexLess(b.dates[i], b.dates[j])) &&
    (forall k :: k in g.buckets <==> k in b.dates) &&
    DayValues(b, g)
  }

  /** Each date's tiers and total are those of the date's rows. */
  ghost predicate DayValues(b: BuyersTrend, g: Groups<string, Record>)
    requires Valid(g)
  {
    var n := |b.dates|;
    |b.totalBuyers| == n && TierLengths(b.buyersByLevel, n) &&
    forall i :: 0 <= i < n ==>
      b.dates[i] in g.buckets &&
      TierAt(b.buyersByLevel, i) == DayTierBuyers(g.buckets[b.dates[i]]) &&
      b.totalBuyers[i] == TierSum(DayTierBuyers(g.buckets[b.dates[i]]))
  }

  /** `calculateDailyBuyers(groupedByDate)`. */
  method CalculateDailyBuyers(groupedByDate: Groups<string, Record>) returns (b: BuyersTrend)
    requires Valid(groupedByDate)
    ensures IsBuyersTrend(b, groupedByDate)
  {
    var result := DayRows(groupedByDate);
    var sortedResult := SortBy(result, RowDate);
    b := FromRows(sortedResult);
    BuyersFromRows(result, groupedByDate);
  }

  /** The `groupedByDate.forEach(...)` part of `calculateDailyBuyers`: one row per date, in
      the groups' order. */
  method DayRows(g: Groups<string, Record>) returns (result: seq<DayBuyers>)
    requires Valid(g)
    ensures |result| == |g.keys|
    ensures forall j :: 0 <= j < |g.keys| ==> IsDayRow(result[j], g.keys[j], g.buckets[g.keys[j]])
  {
    result := [];
    var i := 0;
    while i < |g.keys|
      invariant 0 <= i <= |g.keys| && |result| == i
      invariant forall j :: 0 <= j < i ==> IsDayRow(result[j], g.keys[j], g.buckets[g.keys[j]])
    {
      var date := g.keys[i];
      var items := g.buckets[date];
      var buyersByLevel := BuyersByLevel(items);
      var totalBuyers := ObjectSum(buyersByLevel);
      DayObjectTiers(buyersByLevel, items);
      result := result + [DayBuyers(date, totalBuyers, buyersByLevel)];
      i := i + 1;
    }
  }

  lemma BuyersFromRows(result: seq<DayBuyers>, g: Groups<string, Record>)
    requires Valid(g) && |result| == |g.keys|
    requires forall j :: 0 <= j < |g.keys| ==> IsDayRow(result[j], g.keys[j], g.buckets[g.keys[j]])
    ensures IsBuyersTrend(FromRows(SortBy(result, RowDate)), g)
  {
    DayRowDates(result, g);
    SortedRows(result, g.keys, RowDate);
    BuyersTrendOf(result, SortBy(result, RowDate), g);
  }

  lemma DayRowDates(result: seq<DayBuyers>, g: Groups<string, Record>)
    requires Valid(g) && |result| == |g.keys|
    requires forall j :: 0 <= j < |g.keys| ==> IsDayRow(result[j], g.keys[j], g.buckets[g.keys[j]])
    ensures forall j :: 0 <= j < |g.keys| ==> RowDate(result[j]) == g.keys[j]
  {
  }

  /** The trend built from any strictly ascending rearrangement of the day rows. */
  lemma BuyersTrendOf(result: seq<DayBuyers>, sorted: seq<DayBuyers>, g: Groups<string, Record>)
    requires Valid(g) && |result| == |g.keys| == |sorted|
    requires forall j :: 0 <= j < |g.keys| ==> IsDayRow(result[j], g.keys[j], g.buckets[g.keys[j]])
    requires forall j :: 0 <= j < |g.keys| ==> RowDate(result[j]) == g.keys[j]
    requires StrictlyAscending(sorted, RowDate)
    requires forall x :: x in sorted <==> x in result
    ensures IsBuyersTrend(FromRows(sorted), g)
  {
    var b := FromRows(sorted);
    FromRowsLengths(sorted);
    BuyersOrder(sorted);
    BuyersCoverKeys(result, sorted, g);
    BuyersCoverDates(result, sorted, g);
    BuyersValues(result, sorted, g);
  }

  lemma BuyersOrder(sorted: seq<DayBuyers>)
    requires StrictlyAscending(sorted, RowDate)
    ensures var b := FromRows(sorted);
      forall i, j :: 0 <= i < j < |b.dates| ==> LexLess(b.dates[i], b.dates[j])
  {
    var b := FromRows(sorted);
    forall i, j | 0 <= i < j < |b.dates| ensures LexLess(b.dates[i], b.dates[j]) {
      assert RowDate(sorted[i]) == b.dates[i] && RowDate(sorted[j]) == b.dates[j];
    }
  }

  lemma BuyersCoverKeys(result: seq<DayBuyers>, sorted: seq<DayBuyers>, g: Groups<string, Record>)
    requires Valid(g) && |result| == |g.keys|
    requires forall j :: 0 <= j < |g.keys| ==> RowDate(result[j]) == g.keys[j]
    requires forall x :: x in result ==> x in sorted
    ensures forall k :: k in g.buckets ==> k in FromRows(sorted).dates
  {
    var ds := FromRows(sorted).dates;
    forall k | k in g.buckets ensures k in ds {
      var j :| 0 <= j < |g.keys| && g.keys[j] == k;
      assert result[j] in sorted;
      var i :| 0 <= i < |sorted| && sorted[i] == result[j];
      assert ds[i] == RowDate(sorted[i]);
    }
  }

  lemma BuyersCoverDates(result: seq<DayBuyers>, sorted: seq<DayBuyers>, g: Groups<string, Record>)
    requires Valid(g) && |result| == |g.keys|
    requires forall j :: 0 <= j < |g.keys| ==> RowDate(result[j]) == g.keys[j]
    requires forall x :: x in sorted ==> x in result
    ensures forall k :: k in FromRows(sorted).dates ==> k in g.buckets
  {
    var ds := FromRows(sorted).dates;
    forall k | k in ds ensures k in g.buckets {
      var i :| 0 <= i < |ds| && ds[i] == k;
      assert sorted[i] in result;
      var j :| 0 <= j < |result| && result[j] == sorted[i];
      assert RowDate(result[j]) == k;
    }
  }

  lemma BuyersValues(result: seq<DayBuyers>, sorted: seq<DayBuyers>, g: Groups<string, Record>)
    requires Valid(g) && |result| == |g.keys|
    requires forall j :: 0 <= j < |g.keys| ==> IsDayRow(result[j], g.keys[j], g.buckets[g.keys[j]])
    requires forall x :: x in sorted ==> x in result
    ensures DayValues(FromRows(sorted), g)
  {
    var b := FromRows(sorted);
    FromRowsLengths(sorted);
    forall i | 0 <= i < |b.dates|
      ensures b.dates[i] in g.buckets &&
        TierAt(b.buyersByLevel, i) == DayTierBuyers(g.buckets[b.dates[i]]) &&
        b.totalBuyers[i] == TierSum(DayTierBuyers(g.buckets[b.dates[i]]))
    {
      assert sorted[i] in result;
      var j :| 0 <= j < |result| && result[j] == sorted[i];
      RowAt(sorted, i, result[j], g.keys[j], g.buckets[g.keys[j]]);
    }
  }

  /** Position `i` of the built trend holds the tiers and total of the rows that sorted row
      `i` was made from. */
  lemma RowAt(sorted: seq<DayBuyers>, i: nat, row: DayBuyers, date: string, items: seq<Record>)
    requires i < |sorted| && sorted[i] == row && IsDayRow(row, date, items)
    ensures var b := FromRows(sorted);
      i < |b.dates| && b.dates[i] == date && TierLengths(b.buyersByLevel, |b.dates|) &&
      TierAt(b.buyersByLevel, i) == DayTierBuyers(items) &&
      b.totalBuyers[i] == TierSum(DayTierBuyers(items))
  {
    FromRowsAt(sorted, i);
  }

  lemma FromRowsLengths(rows: seq<DayBuyers>)
    ensures var b := FromRows(rows);
      |b.dates| == |b.totalBuyers| == |rows| && TierLengths(b.buyersByLevel, |rows|)
  {
  }

  /** Position `i` of the built trend holds row `i`'s date, tiers and total. */
  lemma FromRowsAt(rows: seq<DayBuyers>, i: nat)
    requires i < |rows|
    ensures var b := FromRows(rows);
      TierLengths(b.buyersByLevel, |rows|) && |b.dates| == |b.totalBuyers| == |rows| &&
      b.dates[i] == rows[i].date && b.totalBuyers[i] == rows[i].total &&
      TierAt(b.buyersByLevel, i) == ObjectTiers(rows[i].byLevel)
  {
  }

  /** A tier cell naming one of the five tiers. */
  predicate KnownTier(c: Cell) {
    c.Str? && c.s in Levels
  }

  /** The rows of one of the five tiers. */
  function KnownTierRows(items: seq<Record>): (r: seq<Record>)
    ensures forall x :: x in r <==> x in items && KnownTier(Get(x, TierColumn))
  {
    if items == [] then []
    else
      var last := items[|items| - 1];
      KnownTierRows(items[..|items| - 1]) + (if KnownTier(Get(last, TierColumn)) then [last] else [])
  }

  lemma LevelBuyersStep(items: seq<Record>, level: string)
    requires items != []
    ensures var last := items[|items| - 1];
      LevelBuyers(items, level) == LevelBuyers(items[..|items| - 1], level) +
        (if Get(last, TierColumn) == Str(level) then NumberOrZero(Get(last, RoleCountColumn)) else 0.0)
  {
    var last := items[|items| - 1];
    var w := WithTier(items[..|items| - 1], level);
    if Get(last, TierColumn) == Str(level) {
      ColumnSumAppend(w, [last], RoleCountColumn);
    } else {
      assert WithTier(items, level) == w;
    }
  }

  /** The tier buyers after one more row: that row's role count is added to its own tier. */
  lemma TierSumStep(items: seq<Record>)
    requires items != []
    ensures var last := items[|items| - 1];
      TierSum(DayTierBuyers(items)) == TierSum(DayTierBuyers(items[..|items| - 1])) +
        (if KnownTier(Get(last, TierColumn)) then NumberOrZero(Get(last, RoleCountColumn)) else 0.0)
  {
    var last := items[|items| - 1];
    var c, v := Get(last, TierColumn), NumberOrZero(Get(last, RoleCountColumn));
    LevelBuyersStep(items, Levels[0]);
    LevelBuyersStep(items, Levels[1]);
    LevelBuyersStep(items, Levels[2]);
    LevelBuyersStep(items, Levels[3]);
    LevelBuyersStep(items, Levels[4]);
    KnownTierIndicator(c, v);
  }

  /** A cell matches at most one of the five tiers, and one exactly when it is a known tier. */
  lemma KnownTierIndicator(c: Cell, v: real)
    ensures (if c == Str(Levels[0]) then v else 0.0) + (if c == Str(Levels[1]) then v else 0.0) +
            (if c == Str(Levels[2]) then v else 0.0) + (if c == Str(Levels[3]) then v else 0.0) +
            (if c == Str(Levels[4]) then v else 0.0) == (if KnownTier(c) then v else 0.0)
  {
  }

  /** The total of a day is the role count summed over exactly the rows of the five known
      tiers: a row with any other tier counts in no tier and not in the total. */
  lemma {:induction false} TotalIsKnownTierSum(items: seq<Record>)
    ensures TierSum(DayTierBuyers(items)) == ColumnSum(KnownTierRows(items), RoleCountColumn)
  {
    if items != [] {
      var n := |items| - 1;
      var init, last := items[..n], items[n];
      TotalIsKnownTierSum(init);
      TierSumStep(items);
      if KnownTier(Get(last, TierColumn)) {
        ColumnSumAppend(KnownTierRows(init), [last], RoleCountColumn);
      } else {
        assert KnownTierRows(items) == KnownTierRows(init);
      }
    }
  }
}
