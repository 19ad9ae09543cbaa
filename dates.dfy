/** `parseDate` and `formatDate`: the three date shapes of the input (`D/M/YYYY`,
    `YYYY/M/D`, `YYYY-MM-DD`) are turned into a calendar day and printed as the canonical
    key `YYYY-MM-DD`. */
module Dates {
  import opened Text

  /** A calendar day; `month` runs from 1 to 12 (JavaScript's month index plus one). */
  datatype Date = Date(year: int, month: int, day: int)

  predicate IsLeapYear(y: int) {
    (y % 4 == 0 && y % 100 != 0) || y % 400 == 0
  }

  function DaysInMonth(y: int, m: int): (n: int)
    requires 1 <= m <= 12
    ensures 28 <= n <= 31
  {
    if m == 2 then (if IsLeapYear(y) then 29 else 28)
    else if m == 4 || m == 6 || m == 9 || m == 11 then 30
    else 31
  }

  /** Years well inside the range a JavaScript `Date` can hold. */
  const MinYear: int := -271820
  const MaxYear: int := 275759

  /** A day that `new Date(year, month - 1, day)` names without rolling over into
      another month. */
  predicate ValidDate(d: Date) {
    MinYear <= d.year <= MaxYear && 1 <= d.month <= 12 && 1 <= d.day <= DaysInMonth(d.year, d.month)
  }

  /** `new Date(y, m, d)` reads a year from 0 to 99 as 1900 to 1999. */
  function FullYear(y: int): int {
    if 0 <= y <= 99 then 1900 + y else y
  }

  /** `parseInt(parts[i])`; a part that is not there is `undefined` and reads as `NaN`. */
  function PartValue(parts: seq<string>, i: nat): Option<int> {
    if i < |parts| then ParseInt(parts[i]) else None
  }

  /** The year, month and day numbers `parseDate` hands to `new Date`. */
  datatype Fields = Fields(year: Option<int>, month: Option<int>, day: Option<int>)

  /** How `parseDate` reads a string: on `/`, year first when the first part has four
      characters and day first otherwise; on `-`, year first; `None` when the string has
      neither separator (the caller then gets the current date). */
  function DateFields(s: string): Option<Fields> {
    if '/' in s then
      var parts := Split(s, '/');
      if |parts[0]| == 4 then Some(Fields(PartValue(parts, 0), PartValue(parts, 1), PartValue(parts, 2)))
      else Some(Fields(PartValue(parts, 2), PartValue(parts, 1), PartValue(parts, 0)))
    else if '-' in s then
      var parts := Split(s, '-');
      Some(Fields(PartValue(parts, 0), PartValue(parts, 1), PartValue(parts, 2)))
    else None
  }

  /** The day named by readable fields, when it is a real calendar day. */
  predicate FieldsValid(f: Fields) {
    f.year.Some? && f.month.Some? && f.day.Some? &&
    ValidDate(Date(FullYear(f.year.value), f.month.value, f.day.value))
  }

  /** The strings this model gives a meaning to: no separator at all, or parts that are
      numbers naming a real calendar day (no `NaN`, no roll-over). */
  predicate Parsable(s: string) {
    match DateFields(s)
    case None => true
    case Some(f) => FieldsValid(f)
  }

  /** `parseDate(s)`, with the current date passed in as `today`. */
  function ParseDate(s: string, today: Date): (d: Date)
    requires Parsable(s)
    requires ValidDate(today)
    ensures ValidDate(d)
    ensures DateFields(s).None? ==> d == today
  {
    match DateFields(s)
    case None => today
    case Some(f) => Date(FullYear(f.year.value), f.month.value, f.day.value)
  }

  /** `formatDate(d)`: the year as `String` renders it, month and day padded to two digits. */
  function FormatDate(d: Date): string {
    IntToString(d.year) + "-" + PadStart2(IntToString(d.month)) + "-" + PadStart2(IntToString(d.day))
  }

  /** The canonical key of a date cell: `formatDate(parseDate(s))`. */
  function DateKey(s: string, today: Date): string
    requires Parsable(s)
    requires ValidDate(today)
  {
    FormatDate(ParseDate(s, today))
  }

  // ---------------------------------------------------------------------------
  // the three shapes give one key

  lemma JoinThree(a: string, b: string, c: string, sep: char)
    ensures Join([a, b, c], sep) == a + [sep] + b + [sep] + c
  {
    assert [a, b, c][1..] == [b, c] && [b, c][1..] == [c];
    assert Join([b, c], sep) == b + [sep] + c;
  }

  lemma ThreeParts(a: string, b: string, c: string, sep: char)
    requires sep !in a && sep !in b && sep !in c
    ensures Split(a + [sep] + b + [sep] + c, sep) == [a, b, c]
    ensures sep in a + [sep] + b + [sep] + c
  {
    var s := a + [sep] + b + [sep] + c;
    JoinThree(a, b, c, sep);
    var parts := [a, b, c];
    assert forall k :: 0 <= k < |parts| ==> sep !in parts[k];
    SplitJoin(parts, sep);
    assert s[|a|] == sep;
  }

  lemma NoSeparatorInNumber(n: nat, c: char)
    requires !IsDigit(c)
    ensures c !in NatToString(n) && c !in PadStart2(NatToString(n))
  {
  }

  lemma PaddedLength(n: nat)
    requires 1 <= n < 100
    ensures |PadStart2(NatToString(n))| == 2
  {
    NatToStringLength(n);
  }

  /** `D/M/YYYY` (day first, since the first part is not four characters long). */
  function DayFirst(d: Date): string
    requires d.year >= 0 && d.month >= 0 && d.day >= 0
  {
    NatToString(d.day) + "/" + NatToString(d.month) + "/" + NatToString(d.year)
  }

  /** `YYYY/M/D`. */
  function YearFirst(d: Date): string
    requires d.year >= 0 && d.month >= 0 && d.day >= 0
  {
    NatToString(d.year) + "/" + NatToString(d.month) + "/" + NatToString(d.day)
  }

  /** How `parseDate` reads three separator-free parts joined by `/`. */
  lemma SlashFields(a: string, b: string, c: string)
    requires '/' !in a && '/' !in b && '/' !in c
    ensures |a| == 4 ==> DateFields(a + "/" + b + "/" + c) == Some(Fields(ParseInt(a), ParseInt(b), ParseInt(c)))
    ensures |a| != 4 ==> DateFields(a + "/" + b + "/" + c) == Some(Fields(ParseInt(c), ParseInt(b), ParseInt(a)))
  {
    ThreeParts(a, b, c, '/');
  }

  /** How `parseDate` reads three parts free of both separators joined by `-`. */
  lemma DashFields(a: string, b: string, c: string)
    requires '/' !in a && '/' !in b && '/' !in c
    requires '-' !in a && '-' !in b && '-' !in c
    ensures DateFields(a + "-" + b + "-" + c) == Some(Fields(ParseInt(a), ParseInt(b), ParseInt(c)))
  {
    var s := a + "-" + b + "-" + c;
    assert '/' !in s;
    ThreeParts(a, b, c, '-');
  }

  lemma DayFirstFields(d: Date)
    requires ValidDate(d) && d.year >= 100
    ensures DateFields(DayFirst(d)) == Some(Fields(Some(d.year), Some(d.month), Some(d.day)))
  {
    NoSeparatorInNumber(d.day, '/');
    NoSeparatorInNumber(d.month, '/');
    NoSeparatorInNumber(d.year, '/');
    NatToStringLength(d.day);
    SlashFields(NatToString(d.day), NatToString(d.month), NatToString(d.year));
    ParseIntOfNat(d.day);
    ParseIntOfNat(d.month);
    ParseIntOfNat(d.year);
  }

  lemma YearFirstFields(d: Date)
    requires ValidDate(d) && 1000 <= d.year <= 9999
    ensures DateFields(YearFirst(d)) == Some(Fields(Some(d.year), Some(d.month), Some(d.day)))
  {
    NoSeparatorInNumber(d.day, '/');
    NoSeparatorInNumber(d.month, '/');
    NoSeparatorInNumber(d.year, '/');
    NatToStringLength(d.year);
    SlashFields(NatToString(d.year), NatToString(d.month), NatToString(d.day));
    ParseIntOfNat(d.day);
    ParseIntOfNat(d.month);
    ParseIntOfNat(d.year);
  }

  lemma CanonicalFields(d: Date)
    requires ValidDate(d) && d.year >= 0
    ensures DateFields(FormatDate(d)) == Some(Fields(Some(d.year), Some(d.month), Some(d.day)))
  {
    NoSeparatorInNumber(d.year, '/');
    NoSeparatorInNumber(d.month, '/');
    NoSeparatorInNumber(d.day, '/');
    NoSeparatorInNumber(d.year, '-');
    NoSeparatorInNumber(d.month, '-');
    NoSeparatorInNumber(d.day, '-');
    DashFields(NatToString(d.year), PadStart2(NatToString(d.month)), PadStart2(NatToString(d.day)));
    ParseIntOfNat(d.year);
    ParseIntOfPadded(d.month);
    ParseIntOfPadded(d.day);
  }

  /** All three input shapes of a day with a four-digit year give that day's canonical key. */
  lemma ShapesAgree(d: Date, today: Date)
    requires ValidDate(d) && ValidDate(today)
    requires 1000 <= d.year <= 9999
    ensures Parsable(DayFirst(d)) && DateKey(DayFirst(d), today) == FormatDate(d)
    ensures Parsable(YearFirst(d)) && DateKey(YearFirst(d), today) == FormatDate(d)
    ensures Parsable(FormatDate(d)) && DateKey(FormatDate(d), today) == FormatDate(d)
  {
    DayFirstFields(d);
    YearFirstFields(d);
    CanonicalFields(d);
  }

  /** Reading a canonical key back gives the same day and so the same key, for every year
      from 100 on (a two-digit year would be read as 19xx). */
  lemma CanonicalKeyIdempotent(d: Date, today: Date)
    requires ValidDate(d) && ValidDate(today)
    requires d.year >= 100
    ensures Parsable(FormatDate(d)) && ParseDate(FormatDate(d), today) == d
    ensures DateKey(FormatDate(d), today) == FormatDate(d)
  {
    CanonicalFields(d);
  }

  /** The examples the source's comment names all canonicalise to `2025-04-17`. */
  lemma SourceExamples(today: Date)
    requires ValidDate(today)
    ensures Parsable("17/4/2025") && DateKey("17/4/2025", today) == "2025-04-17"
    ensures Parsable("2025/4/17") && DateKey("2025/4/17", today) == "2025-04-17"
    ensures Parsable("2025-04-17") && DateKey("2025-04-17", today) == "2025-04-17"
  {
    var d := Date(2025, 4, 17);
    assert NatToString(2025) == "2025" by {
      assert NatToString(202) == "202" by {
        assert NatToString(20) == "20";
      }
    }
    assert NatToString(17) == "17";
    assert NatToString(4) == "4";
    assert FormatDate(d) == "2025-04-17";
    assert DayFirst(d) == "17/4/2025";
    assert YearFirst(d) == "2025/4/17";
    ShapesAgree(d, today);
  }

  // ---------------------------------------------------------------------------
  // sorting keys as strings sorts the days

  /** Chronological order of days. */
  predicate Before(a: Date, b: Date) {
    a.year < b.year || (a.year == b.year && (a.month < b.month || (a.month == b.month && a.day < b.day)))
  }

  lemma KeyPieces(d: Date)
    requires ValidDate(d) && 1000 <= d.year <= 9999
    ensures FormatDate(d) == NatToString(d.year) + ("-" + (PadStart2(NatToString(d.month)) + ("-" + PadStart2(NatToString(d.day)))))
    ensures |NatToString(d.year)| == 4 && AllDigits(NatToString(d.year)) && DigitsValue(NatToString(d.year)) == d.year
    ensures |PadStart2(NatToString(d.month))| == 2 && AllDigits(PadStart2(NatToString(d.month)))
    ensures DigitsValue(PadStart2(NatToString(d.month))) == d.month
    ensures |PadStart2(NatToString(d.day))| == 2 && AllDigits(PadStart2(NatToString(d.day)))
    ensures DigitsValue(PadStart2(NatToString(d.day))) == d.day
  {
    NatToStringLength(d.year);
    NatToStringValue(d.year);
    PaddedValue(d.month);
    PaddedValue(d.day);
  }

  function Joined(y: string, m: string, d: string): string {
    y + ("-" + (m + ("-" + d)))
  }

  lemma JoinedOrder(ya: string, ma: string, da: string, yb: string, mb: string, db: string)
    requires |ya| == |yb| && |ma| == |mb| && |da| == |db|
    ensures LexLess(Joined(ya, ma, da), Joined(yb, mb, db)) <==>
      LexLess(ya, yb) || (ya == yb && (LexLess(ma, mb) || (ma == mb && LexLess(da, db))))
  {
    LexIrreflexive("-");
    LexConcat("-", da, "-", db);
    LexConcat(ma, "-" + da, mb, "-" + db);
    LexConcat("-", ma + ("-" + da), "-", mb + ("-" + db));
    LexConcat(ya, "-" + (ma + ("-" + da)), yb, "-" + (mb + ("-" + db)));
  }

  lemma JoinedEqual(ya: string, ma: string, da: string, yb: string, mb: string, db: string)
    requires |ya| == |yb| && |ma| == |mb| && |da| == |db|
    ensures Joined(ya, ma, da) == Joined(yb, mb, db) <==> ya == yb && ma == mb && da == db
  {
    var ka, kb := Joined(ya, ma, da), Joined(yb, mb, db);
    if ka == kb {
      var i, j := |ya|, |ya| + 1 + |ma|;
      assert ka[..i] == ya && kb[..i] == yb;
      assert ka[i + 1..j] == ma && kb[i + 1..j] == mb;
      assert ka[j + 1..] == da && kb[j + 1..] == db;
    }
  }

  /** For four-digit years, the canonical keys sort as strings exactly as the days sort in
      time, and two days share a key only when they are the same day: sorting by key is
      sorting by date. */
  lemma KeyOrderIsChronological(a: Date, b: Date)
    requires ValidDate(a) && ValidDate(b)
    requires 1000 <= a.year <= 9999 && 1000 <= b.year <= 9999
    ensures LexLess(FormatDate(a), FormatDate(b)) <==> Before(a, b)
    ensures FormatDate(a) == FormatDate(b) <==> a == b
  {
    KeyPieces(a);
    KeyPieces(b);
    var ya, ma, da := NatToString(a.year), PadStart2(NatToString(a.month)), PadStart2(NatToString(a.day));
    var yb, mb, db := NatToString(b.year), PadStart2(NatToString(b.month)), PadStart2(NatToString(b.day));
    assert FormatDate(a) == Joined(ya, ma, da);
    assert FormatDate(b) == Joined(yb, mb, db);
    LexDigits(ya, yb);
    LexDigits(ma, mb);
    LexDigits(da, db);
    JoinedOrder(ya, ma, da, yb, mb, db);
    JoinedEqual(ya, ma, da, yb, mb, db);
  }
}
