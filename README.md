# Tianyu consumption analyzer: a verified model of the analysis core

The analyzer reads a CSV export of 天玉 (the game's premium currency) transactions.
Each row holds a date, a payment tier (付费区间: 土豪, 大R, 中R, 小R, 平民), an item name,
the amount of 天玉 spent (天玉消耗额) and a role count (角色数). From these rows it builds
the data behind the trend dashboard:

- the daily consumption series, overall and per tier, sorted by canonical date key;
- a least-squares trend line over the point index;
- the mean, the first maximum and the first minimum;
- peaks and valleys that stand out by more than half a standard deviation;
- a per-day drill-down of items ranked by consumption, each with its share of the day;
- the daily buyer counts per tier.

A session cache keeps the parsed rows and the last analysis result. The chart builder turns
the trend data into line and bar chart data.

The model is in Dafny, one module per concern:

| module | file | models |
|---|---|---|
| `Text` | text.dfy | JavaScript `trim`, `split`, `parseInt`, `String(n)`, `padStart(2,'0')`, character (Unicode scalar value) order of strings |
| `Records` | records.dfy | a parsed row (`Cell` = string, number or `undefined`), the column names, the tier list |
| `Csv` | csv.dfy | `parseCSV`, with `Number()` coercion of each cell |
| `Dates` | dates.dfy | `parseDate`, `formatDate` |
| `Grouping` | grouping.dfy | insertion-ordered `Map` grouping, `groupDataByDate`, `groupDataByPaymentLevel` |
| `Sorting` | sorting.dfy | `sort` by `localeCompare` of the date key |
| `Series` | series.dfy | `calculateDailyConsumption`, `calculateDailyConsumptionByLevel`, `calculateDailyBuyers` |
| `Stats` | stats.dfy | `calculateTrendLine`, `getTrendLineValues`, `calculateMean`, `findMaxAndMin`, `findPeaksAndValleys` |
| `Items` | items.dfy | `calculateDailyItemConsumption` |
| `Analysis` | analysis.dfy | `analyzeTianYuConsumptionTrend` |
| `Cache` | cache.dfy | `DataCacheService` and its shared instance |
| `Charts` | charts.dfy | `simplifyDateLabel` and the data of the three chart builders |

Code that loops in the source is written as a Dafny `method` with a loop. Each such
method is proved equal to a specification function, and the properties are lemmas about
that function. Code that is pure expressions is written as functions. `DataCacheService`
is a class whose methods update its two fields.

Numbers are exact reals, not IEEE doubles. The current date, which `parseDate` reads from
the clock, is a parameter named `today`.

## Model

| member | source | states |
|---|---|---|
| Dates.ParseDate | src/utils/dataAnalysis.ts:4-27 | a readable date string gives a real calendar day; a string with neither `/` nor `-` gives today's date |
| Dates.DateFields | src/utils/dataAnalysis.ts:6-22 | computes the year, month and day numbers `parseDate` passes to `new Date`: on `/`, year first when the first part has four characters (Unicode scalar values, see Left out) and day first otherwise; on `-`, year first; none when the string has neither separator |
| Dates.FormatDate | src/utils/dataAnalysis.ts:30-35 | computes the key of a day: the year as `String` renders it, `-`, the month padded to two digits, `-`, the day padded to two digits |
| Dates.DateKey | src/utils/dataAnalysis.ts:43-44 | computes the canonical key of a date string, `formatDate(parseDate(s))` |
| Dates.SlashFields | src/utils/dataAnalysis.ts:6-17 | on `/`, a first part of four characters is the year and the order is year, month, day; otherwise the last part is the year |
| Dates.DashFields | src/utils/dataAnalysis.ts:19-22 | on `-`, the parts are year, month, day in that order |
| Dates.DayFirstFields | src/utils/dataAnalysis.ts:14-16 | `D/M/YYYY` is read back as the day it names |
| Dates.YearFirstFields | src/utils/dataAnalysis.ts:10-12 | `YYYY/M/D` is read back as the day it names |
| Dates.CanonicalFields | src/utils/dataAnalysis.ts:19-22 | a `YYYY-MM-DD` key is read back as the day it names |
| Dates.ShapesAgree | src/utils/dataAnalysis.ts:4-35 | the three accepted shapes of one day give the same key, the `YYYY-MM-DD` rendering of that day |
| Dates.CanonicalKeyIdempotent | src/utils/dataAnalysis.ts:4-35 | parsing a canonical key gives back its day, so re-keying a key leaves it unchanged |
| Dates.SourceExamples | src/utils/dataAnalysis.ts:3-35 | `17/4/2025`, `2025/4/17` and `2025-04-17` all give the key `2025-04-17`, whatever today is |
| Dates.KeyPieces | src/utils/dataAnalysis.ts:30-35 | a four-digit-year key is four digits, `-`, two digits, `-`, two digits, whose values are year, month and day |
| Dates.KeyOrderIsChronological | src/utils/dataAnalysis.ts:30-35 | for four-digit years, string order of keys is calendar order, and equal keys mean equal days |
| Dates.DaysInMonth | src/utils/dataAnalysis.ts:11 | every month has 28 to 31 days |
| Grouping.Add | src/utils/dataAnalysis.ts:47-51 | adding to a bucket keeps the grouping well formed: distinct keys in first-insertion order, one bucket per key |
| Grouping.FirstOccurrencesProps | src/utils/dataAnalysis.ts:47-49 | the key list has no duplicates and holds exactly the keys that occur |
| Grouping.BucketMembers | src/utils/dataAnalysis.ts:51 | a row is in the bucket of key k exactly when some input row with key k is that row |
| Grouping.BucketNonEmpty | src/utils/dataAnalysis.ts:47-51 | a key that occurs has a non-empty bucket |
| Grouping.GroupStep | src/utils/dataAnalysis.ts:41-52 | one `forEach` step adds the row to its key's bucket, and a row without a key changes nothing |
| Grouping.GroupSpecValid | src/utils/dataAnalysis.ts:38-55 | the grouping is well formed and its keys are exactly the keys that occur |
| Grouping.PartitionCount | src/utils/dataAnalysis.ts:38-72 | the buckets together hold exactly as many rows as have a key |
| Grouping.GroupDataByDate | src/utils/dataAnalysis.ts:38-55 | the loop builds the grouping of the rows by date key, skipping rows whose date cell is not a string |
| Grouping.DateKeys | src/utils/dataAnalysis.ts:42-44 | each row's key is the canonical key of its date string, or none when the cell is not a string |
| Grouping.DateBucketKeys | src/utils/dataAnalysis.ts:38-55 | the date keys are exactly the keys of the rows that have one |
| Grouping.DateBucketContents | src/utils/dataAnalysis.ts:38-55 | the bucket of a key holds exactly the rows with that key |
| Grouping.UndatedRowsSkipped | src/utils/dataAnalysis.ts:42 | a row whose date cell is not a string is in no bucket |
| Grouping.GroupDataByPaymentLevel | src/utils/dataAnalysis.ts:58-72 | the loop builds the grouping of the rows by their tier cell, `undefined` included |
| Grouping.TierKeys | src/utils/dataAnalysis.ts:62 | every row is keyed by its tier cell |
| Grouping.TierPartition | src/utils/dataAnalysis.ts:58-72 | every row lands in its tier's bucket, and the buckets together hold exactly the input's rows |
| Sorting.SortBy | src/utils/dataAnalysis.ts:87 | sorting returns a permutation of its input |
| Sorting.SortAscending | src/utils/dataAnalysis.ts:87 | the sorted sequence is in ascending key order |
| Sorting.SortDistinct | src/utils/dataAnalysis.ts:87 | sorting keeps keys distinct |
| Sorting.SortStrict | src/utils/dataAnalysis.ts:87 | with distinct keys the sorted sequence is strictly ascending |
| Sorting.AscendingUnique | src/utils/dataAnalysis.ts:87 | two strictly ascending sequences with the same members are equal, so the sorted order does not depend on the Map's order |
| Series.CalculateDailyConsumption | src/utils/dataAnalysis.ts:75-88 | one point per date bucket, each valued at the sum of the numeric amounts of that day's rows, in strictly ascending date order |
| Series.CalculateDailyConsumptionByLevel | src/utils/dataAnalysis.ts:91-109 | the same, counting only the day's rows whose tier is the given one |
| Series.SortedRows | src/utils/dataAnalysis.ts:83-87 | sorting the pushed points by date gives a strictly ascending sequence with the same members |
| Series.SortedSeries | src/utils/dataAnalysis.ts:78-87 | the pushed-then-sorted points are exactly the daily series |
| Series.SeriesDates | src/utils/dataAnalysis.ts:75-109 | a daily series' dates are exactly the keys of the grouping, in strictly ascending order |
| Series.SeriesDatesAgree | src/utils/dataAnalysis.ts:75-109 | any two daily series of one grouping have the same date axis |
| Series.DayObject | src/utils/dataAnalysis.ts:249-262 | a day's `buyersByLevel` object has exactly the five tiers as keys |
| Series.BuyersByLevel | src/utils/dataAnalysis.ts:251-262 | the loop over `levels` builds the day object: each tier's role counts summed over that tier's rows |
| Series.DayObjectTiers | src/utils/dataAnalysis.ts:265-287 | reading the object with `\|\| 0` gives the per-tier values, and summing its values gives the tier total |
| Series.DayRows | src/utils/dataAnalysis.ts:247-273 | one row per date key, in the Map's order, each holding that day's tier counts and their total |
| Series.BuyersFromRows | src/utils/dataAnalysis.ts:276-289 | sorting the rows and splitting them into columns gives the buyers trend |
| Series.CalculateDailyBuyers | src/utils/dataAnalysis.ts:243-290 | dates ascending and exactly the grouping's keys; on each date, every tier's value is that tier's role count and the total is their sum |
| Series.TotalIsKnownTierSum | src/utils/dataAnalysis.ts:265 | a day's total is the role count of the rows whose tier is one of the five, so rows of another tier are not counted |
| Series.LevelColumn | src/utils/dataAnalysis.ts:283-287 | each tier column holds that tier's value for each row, 0 when it is missing |
| Stats.CalculateTrendLine | src/utils/dataAnalysis.ts:112-137 | the loop computes the least-squares line of the values over the indices 0..n-1, and fewer than two points give slope 0 and intercept 0 |
| Stats.LeastSquares | src/utils/dataAnalysis.ts:112-137 | computes the least-squares line over given x coordinates: slope Σ(x−x̄)(y−ȳ)/Σ(x−x̄)², 0 when that denominator is 0, intercept ȳ − slope·x̄, and the line 0, 0 below two points |
| Stats.Trend | src/utils/dataAnalysis.ts:117-118 | computes the trend line of a series with the point indices as x coordinates and the values as y |
| Stats.DeviationSums | src/utils/dataAnalysis.ts:128-131 | the loop's two sums are the covariance sum and the sum of squared index deviations |
| Stats.ShortSeriesHasFlatTrend | src/utils/dataAnalysis.ts:114-116 | fewer than two points give the flat line 0, 0 |
| Stats.IndicesSpread | src/utils/dataAnalysis.ts:133 | with at least two points the denominator is positive, so the zero-denominator guard never fires |
| Stats.ExactFit | src/utils/dataAnalysis.ts:112-137 | values that lie on a line are fitted by exactly that line |
| Stats.LinearSeriesIsItsOwnTrend | src/utils/dataAnalysis.ts:112-147 | for a linear series, the trend values are the values themselves |
| Stats.TrendKeepsTotal | src/utils/dataAnalysis.ts:112-147 | the trend values add up to the same total as the values |
| Stats.TrendShift | src/utils/dataAnalysis.ts:112-137 | adding a constant to every value keeps the slope and moves the intercept by that constant |
| Stats.GetTrendLineValues | src/utils/dataAnalysis.ts:140-147 | one value per point, the line evaluated at the point's index |
| Stats.OnLine | src/utils/dataAnalysis.ts:140-147 | the line's values at the indices are exactly the values of points lying on it |
| Stats.CalculateMean | src/utils/dataAnalysis.ts:201-205 | computes the sum of the values divided by their number, 0 for no points |
| Stats.MeanWithin | src/utils/dataAnalysis.ts:201-205 | a mean of values between two bounds lies between them |
| Stats.MeanBetween | src/utils/dataAnalysis.ts:201-232 | the mean lies between the minimum and the maximum |
| Stats.MaxIndex | src/utils/dataAnalysis.ts:219-229 | the scan's maximum index lies in range |
| Stats.MinIndex | src/utils/dataAnalysis.ts:219-229 | the strict `<` scan's index lies in range |
| Stats.FirstMax | src/utils/dataAnalysis.ts:187 | computes the point the `>` reduce, and the `>` loop of findMaxAndMin, end on |
| Stats.FirstMin | src/utils/dataAnalysis.ts:193 | computes the point the `<` reduce, and the `<` loop of findMaxAndMin, end on |
| Stats.MaxIndexIsFirstMax | src/utils/dataAnalysis.ts:219-225 | the strict `>` scan picks a largest value, and every earlier value is strictly smaller |
| Stats.MinIndexIsFirstMin | src/utils/dataAnalysis.ts:220-228 | the strict `<` scan picks a smallest value, and every earlier value is strictly larger |
| Stats.ExtremesBound | src/utils/dataAnalysis.ts:208-232 | every value lies between the minimum and the maximum |
| Stats.FindMaxAndMin | src/utils/dataAnalysis.ts:208-232 | no points give the placeholder `{date '', value 0}` twice; otherwise the first maximum and the first minimum |
| Stats.SignificantIsBeyondHalfDeviation | src/utils/dataAnalysis.ts:163-175 | the squared test used here is the source's `\|v - mean\| > 0.5 * stdDev` |
| Stats.FindPeaksAndValleys | src/utils/dataAnalysis.ts:150-198 | the method computes the peak and valley specification: fewer than three points give two empty lists, and from three points up both lists are non-empty |
| Stats.PeaksSpec | src/utils/dataAnalysis.ts:150-198 | computes the result of findPeaksAndValleys: two empty lists below three points; otherwise the significant interior local maxima and minima in index order, and the first maximum or first minimum in place of an empty list |
| Stats.ScanPeaksAndValleys | src/utils/dataAnalysis.ts:169-183 | the loop collects exactly the interior points that are significant local maxima and minima, in order |
| Stats.PeaksBelowMembers | src/utils/dataAnalysis.ts:169-183 | a point is a peak exactly when some interior index holding it is a significant local maximum |
| Stats.ValleysBelowMembers | src/utils/dataAnalysis.ts:169-183 | a point is a valley exactly when some interior index holding it is a significant local minimum |
| Stats.PeakNotValley | src/utils/dataAnalysis.ts:175-181 | no index is both a peak and a valley |
| Stats.IncreasingSeries | src/utils/dataAnalysis.ts:157-195 | a strictly increasing series has no local extremum, so the fallbacks give the last point as the one peak and the first as the one valley |
| Items.ItemName | src/utils/dataAnalysis.ts:301 | a truthy item cell names the item; an empty, zero or missing one gives 未知物品 |
| Items.Tally | src/utils/dataAnalysis.ts:300-309 | the per-name sums keep names distinct, in first-insertion order, one sum per name |
| Items.TallyOrder | src/utils/dataAnalysis.ts:304-308 | the names come in the order they first occur |
| Items.TallyNames | src/utils/dataAnalysis.ts:300-309 | the names are distinct and are exactly the item names of the rows |
| Items.TallySums | src/utils/dataAnalysis.ts:302-308 | a name's sum is the sum of the numeric amounts of the rows with that name |
| Items.TallyTotal | src/utils/dataAnalysis.ts:312 | the sums together add up to the day's total amount |
| Items.Entries | src/utils/dataAnalysis.ts:315-319 | one entry per name: the name, its sum and its share of the total |
| Items.SharesAddUp | src/utils/dataAnalysis.ts:318 | with a positive total the shares add up to 1 |
| Items.SortByValue | src/utils/dataAnalysis.ts:322 | the sort is a permutation |
| Items.SortDescending | src/utils/dataAnalysis.ts:322 | the sorted entries are in descending order of value |
| Items.SortStable | src/utils/dataAnalysis.ts:322 | entries of equal value keep their order, as the stable `Array.prototype.sort` does |
| Items.CalculateDailyItemConsumption | src/utils/dataAnalysis.ts:293-323 | the method returns the breakdown of the day's rows |
| Items.Breakdown | src/utils/dataAnalysis.ts:293-323 | computes the day's item list: per-name sums with their shares of the day's total, sorted by descending value |
| Items.EntryOf | src/utils/dataAnalysis.ts:300-319 | an entry is in the unsorted list exactly when its name occurs, its value is that name's sum and its percentage is its share of the day's total |
| Items.BreakdownEntries | src/utils/dataAnalysis.ts:293-323 | the same characterisation holds for the sorted result |
| Items.BreakdownNamesDistinct | src/utils/dataAnalysis.ts:293-323 | no item name appears twice |
| Items.BreakdownOrder | src/utils/dataAnalysis.ts:304-322 | descending by value, with ties kept in first-occurrence order |
| Items.BreakdownTotal | src/utils/dataAnalysis.ts:312-322 | the values add up to the day's total, and with a positive total the percentages add up to 1 |
| Analysis.DetailList | src/utils/dataAnalysis.ts:390-399 | one detail per series point, holding its date, its value and the breakdown of that date's rows |
| Analysis.PointDetails | src/utils/dataAnalysis.ts:388-399 | the `forEach` loop builds exactly the date-to-detail map |
| Analysis.Details | src/utils/dataAnalysis.ts:388-399 | computes the `pointDetails` object: each point's date mapped to its detail |
| Analysis.Points | src/utils/dataAnalysis.ts:371-372 | the date and value columns zip back into the series |
| Analysis.BuildTrend | src/utils/dataAnalysis.ts:368-399 | one series gives its trend data: dates, values, trend values, mean, peaks, valleys, extremes and details |
| Analysis.LevelTrend | src/utils/dataAnalysis.ts:408-443 | a tier's trend data comes from that tier's series, with details of that tier's rows only |
| Analysis.PaymentLevelTrends | src/utils/dataAnalysis.ts:402-444 | the map has exactly the five tiers as keys, each holding that tier's trend data |
| Analysis.LevelMap | src/utils/dataAnalysis.ts:405-444 | assigning the five trends under the five distinct tier names loses none |
| Analysis.AnalyzeTianYuConsumptionTrend | src/utils/dataAnalysis.ts:359-464 | total trend, per-tier trends and buyers trend, all computed from the one date grouping of the input |
| Analysis.AnalysisDates | src/utils/dataAnalysis.ts:359-464 | every tier trend and the buyers trend share the total trend's date axis |
| Analysis.TrendDatesAscending | src/utils/dataAnalysis.ts:371 | a trend's dates are strictly ascending |
| Analysis.DetailKeys | src/utils/dataAnalysis.ts:388-399 | the detail map's keys are exactly the trend's dates |
| Analysis.DetailOfDate | src/utils/dataAnalysis.ts:390-398 | the detail of the i-th date holds that date, the i-th value and that date's item breakdown |
| Analysis.TotalDetails | src/utils/dataAnalysis.ts:388-399 | in the total trend, each date's detail value equals its point's value and its items add up to it |
| Analysis.LevelDetails | src/utils/dataAnalysis.ts:420-431 | in each tier trend, each date's detail value equals its point's value and the tier-filtered items add up to it |
| Csv.Lines | src/utils/csvParser.ts:10 | splitting on `\r?\n` gives at least one line |
| Csv.FirstLine | src/utils/csvParser.ts:10 | no line contains `\n`; the first line runs up to the first line break, less a trailing `\r` |
| Csv.LinesOfJoin | src/utils/csvParser.ts:10 | lines joined with `\n` split back into themselves |
| Csv.LinesOfCrlf | src/utils/csvParser.ts:10 | lines joined with `\r\n` split back into themselves |
| Csv.FieldsAtEveryComma | src/utils/csvParser.ts:13-20 | a line has one field more than it has commas, and no field holds a comma |
| Csv.FieldsOfJoin | src/utils/csvParser.ts:13-20 | unpadded comma-free cells joined with commas split and trim back into themselves |
| Csv.Fields | src/utils/csvParser.ts:13 | computes the cells of a line: the parts between commas, each trimmed (lines 13 and 20 do the same) |
| Csv.ToNumber | src/utils/csvParser.ts:26 | computes `Number(value)` of a string, none standing for `NaN`: blank text is 0; `0x`, `0o` and `0b` literals; signed decimal literals with optional fraction and exponent; anything else is `NaN` |
| Csv.Coerce | src/utils/csvParser.ts:25-26 | computes the stored value of a cell: `undefined` when the line has no cell there, the number when `Number` reads one, the text otherwise |
| Csv.BlankIsZero | src/utils/csvParser.ts:26 | an empty or all-blank cell becomes the number 0, as `Number('')` does |
| Csv.NumberOfDigits | src/utils/csvParser.ts:26 | a run of digits becomes its decimal value |
| Csv.NumberOfNegative | src/utils/csvParser.ts:26 | a minus sign and digits become the negated value |
| Csv.NumberOfInt | src/utils/csvParser.ts:26 | every rendered integer reads back as its value |
| Csv.TextIsNotNumber | src/utils/csvParser.ts:26 | a cell starting with a letter or other non-numeric character stays text, `Infinity` aside (see Left out) |
| Csv.DateIsNotNumber | src/utils/csvParser.ts:26 | a date like `2025-04-17` stays text |
| Csv.Unsigned | src/utils/csvParser.ts:26 | an unsigned cell without a radix prefix is read as a decimal literal |
| Csv.RowCells | src/utils/csvParser.ts:23-27 | one coerced cell per header |
| Csv.Row | src/utils/csvParser.ts:21-27 | computes the row object of a line: each header assigned its coerced cell in order, a later header of the same name overwriting an earlier one |
| Csv.BuildRow | src/utils/csvParser.ts:21-27 | the `forEach` over headers builds the row object |
| Csv.RowKeys | src/utils/csvParser.ts:23-27 | a row's keys are exactly the headers |
| Csv.RowAt | src/utils/csvParser.ts:23-27 | the last header of a name gets a missing value as `undefined`, a numeric value as a number and any other value as its text |
| Csv.Kept | src/utils/csvParser.ts:17-18 | the kept line indices are ascending, point at non-blank lines, and cover every non-blank line |
| Csv.ParseRows | src/utils/csvParser.ts:16-32 | the loop parses exactly the data lines after the header |
| Csv.ParseCsv | src/utils/csvParser.ts:8-33 | the method computes the parse of the whole text |
| Csv.CsvRows | src/utils/csvParser.ts:8-33 | computes the result of parseCSV: the headers from the first line and one row per non-blank later line |
| Csv.ParsedRowsKept | src/utils/csvParser.ts:17-30 | one row per non-blank data line, in order, each built from that line's fields |
| Csv.CsvRowsFromLines | src/utils/csvParser.ts:8-33 | the j-th row is built from the header line and the j-th non-blank data line |
| Csv.KeptAll | src/utils/csvParser.ts:18 | with no blank line, every line is kept |
| Csv.LinesOfTable | src/utils/csvParser.ts:10 | the text of a table splits back into its header line and its data lines |
| Csv.RowsOfTable | src/utils/csvParser.ts:16-30 | the data lines of a table parse into one row per table row |
| Csv.CsvOfTable | src/utils/csvParser.ts:8-33 | a table written out as CSV parses back into one row object per table row |
| Cache.DataCacheService.constructor | src/utils/dataCache.ts:13-16 | a new cache has neither rows nor result |
| Cache.DataCacheService.SetCsvData | src/utils/dataCache.ts:25-27 | stores the rows and keeps the result |
| Cache.DataCacheService.GetCsvData | src/utils/dataCache.ts:29-31 | returns the stored rows, or none |
| Cache.DataCacheService.SetAnalysisResult | src/utils/dataCache.ts:33-35 | stores the result and keeps the rows |
| Cache.DataCacheService.GetAnalysisResult | src/utils/dataCache.ts:37-39 | returns the stored result, or none |
| Cache.DataCacheService.ClearCache | src/utils/dataCache.ts:41-44 | forgets both |
| Cache.Registry.constructor | src/utils/dataCache.ts:12 | the instance slot starts empty |
| Cache.Registry.GetInstance | src/utils/dataCache.ts:18-23 | the first call creates an empty cache and keeps it; later calls return the kept one |
| Cache.SharedInstance | src/utils/dataCache.ts:18-47 | what one caller stores through the shared instance another caller reads back |
| Charts.LabelOfDateKey | src/utils/trendChartGenerator.ts:29-36 | the label of a canonical key is month `/` day without leading zeros |
| Charts.SimplifyDateLabel | src/utils/trendChartGenerator.ts:29-36 | computes the label of a date string: `parseInt` of its second and third `-`-separated parts, joined by `/`, with `NaN` for a part that is missing or not a number |
| Charts.LabelExample | src/utils/trendChartGenerator.ts:28-32 | `2025-04-17` is shown as `4/17` |
| Charts.LabelWithoutDash | src/utils/trendChartGenerator.ts:31-32 | a string without `-` is shown as `NaN/NaN` |
| Charts.IndexOf | src/utils/trendChartGenerator.ts:66 | `indexOf` gives the first index holding the value, or -1 when there is none |
| Charts.LabelsOf | src/utils/trendChartGenerator.ts:44 | one label per date |
| Charts.ConsumptionTrendChart | src/utils/trendChartGenerator.ts:39-213 | computes the data of the line chart: title, colour, simplified date labels, the values and trend values, and the mark points of the maximum and the minimum |
| Charts.ChartAxis | src/utils/trendChartGenerator.ts:39-213 | the x labels are the simplified dates, and the two series are the values and the trend values |
| Charts.MaxMark | src/utils/trendChartGenerator.ts:63-72 | the maximum mark sits at the first index of the largest value and shows that value |
| Charts.MinMark | src/utils/trendChartGenerator.ts:74-82 | the minimum mark sits at the first index of the smallest value and shows that value |
| Charts.ChartMarks | src/utils/trendChartGenerator.ts:63-82 | for any trend of the analysis, an empty chart has marks at -1 with value 0; otherwise the marks sit on the first maximum and the first minimum |
| Charts.LevelColors | src/utils/trendChartGenerator.ts:220-231 | the five tiers get five different colours; any other key gets the default blue |
| Charts.LevelColor | src/utils/trendChartGenerator.ts:220-231 | computes a tier's colour from the five-entry table, `#3B82F6` for any other key |
| Charts.LevelChart | src/utils/trendChartGenerator.ts:231-234 | computes one tier's chart: the consumption chart titled level + 付费区间天玉消耗趋势 in the tier's colour |
| Charts.GeneratePaymentLevelCharts | src/utils/trendChartGenerator.ts:216-238 | one chart per key, titled after the key and drawn in its tier colour |
| Charts.TierChartsShareAxis | src/utils/trendChartGenerator.ts:216-238 | the tier charts of an analysis have exactly the five tiers as keys, and all share the total chart's x labels |
| Charts.BuyersStack | src/utils/trendChartGenerator.ts:241-377 | the legend lists the tiers from 土豪 down, the stacked series run from 平民 up with their tier colours and buyer counts, and the x labels are the simplified dates |
| Charts.BuyersTrendChart | src/utils/trendChartGenerator.ts:241-377 | computes the data of the buyers bar chart: title, simplified date labels, legend and the five stacked series |
| Charts.BuyersChartCounts | src/utils/trendChartGenerator.ts:310-372 | for a buyers trend of the date groups, each bar on each day is its tier's role count on that day, and the five bars of a day add up to that day's total buyers |
| Text.TrimEmptyIffAllSpace | src/utils/csvParser.ts:18 | a line trims to empty exactly when it is all white space |
| Text.Trim | src/utils/csvParser.ts:13 | computes `trim()`: the string less its leading and trailing JavaScript white space |
| Text.Split | src/utils/csvParser.ts:13 | computes `split` on one character: at least one part, and no part holds the separator |
| Text.SplitJoin | src/utils/csvParser.ts:13-20 | splitting a joined sequence of separator-free parts gives back the parts |
| Text.JoinSplit | src/utils/csvParser.ts:13-20 | joining the parts of a split gives back the string |
| Text.SplitCount | src/utils/csvParser.ts:20 | a split has one part more than there are separators |
| Text.ParseIntOfNat | src/utils/dataAnalysis.ts:11 | `parseInt` of a rendered number gives the number back |
| Text.ParseIntOfPadded | src/utils/trendChartGenerator.ts:32 | `parseInt` of a zero-padded number gives the number back |
| Text.ParseInt | src/utils/dataAnalysis.ts:11 | computes `parseInt`: leading white space skipped, an optional sign, then a `0x` hexadecimal or a decimal digit run, anything after ignored, and `NaN` without digits |
| Text.NatToStringValue | src/utils/dataAnalysis.ts:31-34 | `String(n)` is the decimal digits of n |
| Text.LexTransitive | src/utils/dataAnalysis.ts:87 | the character order of strings is transitive |
| Text.LexTotal | src/utils/dataAnalysis.ts:87 | any two different strings are ordered one way or the other |
| Text.LexLess | src/utils/dataAnalysis.ts:87 | computes the character (Unicode scalar value) order of two strings: the first differing character decides, and a proper prefix comes first; this equals UTF-16 code-unit order on strings without characters beyond U+FFFF |

## Left out

- readCSVFile (src/utils/csvParser.ts:40-60) and analyzeData (src/utils/csvParser.ts:68-103): they are file reading and wiring through `FileReader`, which is I/O.
- formatLargeNumber (src/utils/dataAnalysis.ts:235-240): it only formats numbers for display.
- The ECharts option objects are mostly styling. Tooltip, label and axis formatters, fonts, grid and legend placement are left out. The chart model keeps the data: titles, x labels, series values, mark points, colours and legend order.
- The mean mark line of the consumption chart (src/utils/trendChartGenerator.ts:47-60) is left out. It is drawn by ECharts from the data (`type: 'average'`) and holds no data of its own.
- Floating point: every number is an exact real. Sums, means and shares carry no rounding, and `NaN` and `Infinity` are not values. Stats.FindPeaksAndValleys compares squares (`(v - mean)^2 > 0.25 * variance`) in place of `Math.sqrt`; Stats.SignificantIsBeyondHalfDeviation proves the two tests agree.
- Csv.ToNumber: the text `Infinity` stays a string, because a real cannot hold it. Decimal literals beyond the double range keep their exact value.
- Dates.ParseDate: the model handles only strings whose parts name a real calendar day (Dates.Parsable). Strings that would give `NaN` or roll over into another month in `new Date(y, m - 1, d)` are outside the model. They are required away by `Parsable` and, in the groupers, by `Grouping.DateReadable`.
- Dates.DateFields: string lengths are counted in Unicode scalar values, while JavaScript's `length` counts UTF-16 code units. A first `/`-separated part holding a character beyond U+FFFF therefore has a different length here, and can take the other branch of the four-character test than in the source.
- The current date that `parseDate` returns for a string with neither separator is the parameter `today`. The `console.error` call on that path is left out.
- Sorting: `localeCompare` is modelled as character (Unicode scalar value) order, Text.LexLess. That equals UTF-16 code-unit order on strings without characters beyond U+FFFF, and the locale order for the digit-and-dash keys the groupers produce, but neither order for arbitrary strings.
- Items.SortByValue: `b.value - a.value` is modelled as a stable insertion sort, as `Array.prototype.sort` is stable.
- Stats.CalculateTrendLine: the model proves the exact-fit, zero-residual-sum and shift properties. It does not prove that the line minimises the squared error.
- Object property lookups: the model does not cover keys that collide with `Object.prototype` members. For example, a tier called `toString` would get an inherited colour in `levelColors[level]`, and `__proto__` would not be stored as a key.
- Charts.SimplifyDateLabel: the `catch` branch (src/utils/trendChartGenerator.ts:33-35) is not modelled because `split` and `parseInt` never throw on a string. Results of `parseInt` above 10^21, which JavaScript renders in exponent form, are rendered as plain digits.
- Cache: `DataCacheService.instance` is a static field; the model keeps it in a `Registry` object that callers share. `dataCache` (src/utils/dataCache.ts:47) is the first `GetInstance` call.
- Cache: `AnalysisResultCache` (src/utils/dataCache.ts:5-9) is the type parameter `R`, because the cache never looks inside it.
- Charts.GeneratePaymentLevelCharts: `for ... in` visits keys in insertion order. The model visits them in an arbitrary order and proves the result is the same for every order.
- The rest of the repository is not part of this model: the components, hooks and mock data, and the other analyses in dataAnalysis.ts (channels, products, skills).

## Behaviour worth noting

- Undated rows: `groupDataByDate` drops only rows whose date cell is not a string (src/utils/dataAnalysis.ts:42). A date string with neither `/` nor `-` is not dropped; it is keyed by the current date (src/utils/dataAnalysis.ts:25-26).
- Blank cells: cells are coerced with `Number()` (src/utils/csvParser.ts:26), so an empty or all-blank cell becomes the number 0 (Csv.BlankIsZero), and a missing trailing cell becomes `undefined`.
- Buyer totals: a day's buyers total is the sum over the five tiers only (src/utils/dataAnalysis.ts:265). Rows with another tier value add nothing (Series.TotalIsKnownTierSum).
