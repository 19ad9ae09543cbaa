/** `parseCSV`: the text is cut into lines at `\n` or `\r\n`; line 0, whatever it holds,
    gives the headers; every later line that is not blank gives one row whose cells are
    matched to the headers by position, each cell becoming a number when `Number` reads it
    as one. There is no quoting: every comma separates two cells. */
module Csv {
  import opened Text
  import opened Records

  // ---------------------------------------------------------------------------
  // content.split(/\r?\n/)

  /** Drops one carriage return from the end of the string. */
  function DropCr(s: string): (r: string)
    ensures |r| <= |s| && r == s[..|r|]
  {
    if |s| > 0 && s[|s| - 1] == '\r' then s[..|s| - 1] else s
  }

  /** `content.split(/\r?\n/)`: every line feed ends a line, and a carriage return just
      before it goes with it; the last line keeps whatever it ends with. */
  function Lines(content: string): (lines: seq<string>)
    ensures |lines| >= 1
  {
    var parts := Split(content, '\n');
    seq(|parts|, k requires 0 <= k < |parts| => if k < |parts| - 1 then DropCr(parts[k]) else parts[k])
  }

  /** Line 0 is the text up to the first line feed, less a carriage return before it, and the
      whole text when there is no line feed; no line holds a line feed. */
  lemma FirstLine(content: string)
    ensures '\n' !in content ==> Lines(content) == [content]
    ensures '\n' in content ==> Lines(content)[0] == DropCr(content[..IndexOfChar(content, '\n')])
    ensures forall k :: 0 <= k < |Lines(content)| ==> '\n' !in Lines(content)[k]
  {
    var parts := Split(content, '\n');
    forall k | 0 <= k < |parts|
      ensures '\n' !in Lines(content)[k]
    {
      var p := parts[k];
      assert '\n' !in p;
      if k < |parts| - 1 {
        var r := DropCr(p);
        assert r == p[..|r|];
        assert forall j :: 0 <= j < |r| ==> r[j] == p[j];
      }
    }
  }

  /** Lines joined with `\n` come back, as long as none but the last ends with `\r`. */
  lemma LinesOfJoin(ls: seq<string>)
    requires |ls| >= 1
    requires forall k :: 0 <= k < |ls| ==> '\n' !in ls[k]
    requires forall k :: 0 <= k < |ls| - 1 ==> ls[k] == [] || ls[k][|ls[k]| - 1] != '\r'
    ensures Lines(Join(ls, '\n')) == ls
  {
    SplitJoin(ls, '\n');
  }

  /** Lines joined with `\r\n` come back whatever they hold. */
  lemma LinesOfCrlf(ls: seq<string>)
    requires |ls| >= 1
    requires forall k :: 0 <= k < |ls| ==> '\n' !in ls[k]
    ensures Lines(Join(CrlfLines(ls), '\n')) == ls
  {
    var cs := CrlfLines(ls);
    SplitJoin(cs, '\n');
    forall k | 0 <= k < |ls| - 1
      ensures DropCr(cs[k]) == ls[k]
    {
      assert cs[k] == ls[k] + "\r";
      assert cs[k][..|cs[k]| - 1] == ls[k];
    }
  }

  /** Every line but the last followed by a carriage return. */
  function CrlfLines(ls: seq<string>): (cs: seq<string>)
    requires forall k :: 0 <= k < |ls| ==> '\n' !in ls[k]
    ensures |cs| == |ls|
    ensures forall k :: 0 <= k < |cs| ==> '\n' !in cs[k]
  {
    seq(|ls|, k requires 0 <= k < |ls| => if k < |ls| - 1 then ls[k] + "\r" else ls[k])
  }

  // ---------------------------------------------------------------------------
  // line.split(',').map(value => value.trim())

  /** The cells of a line: the parts between commas, each trimmed. */
  function Fields(line: string): seq<string> {
    var parts := Split(line, ',');
    seq(|parts|, k requires 0 <= k < |parts| => Trim(parts[k]))
  }

  /** No quoting: there is one cell more than there are commas, and no cell holds a comma. */
  lemma FieldsAtEveryComma(line: string)
    ensures |Fields(line)| == Count(line, ',') + 1
    ensures forall k :: 0 <= k < |Fields(line)| ==> ',' !in Fields(line)[k]
  {
    SplitCount(line, ',');
    var parts := Split(line, ',');
    forall k | 0 <= k < |parts|
      ensures ',' !in Fields(line)[k]
    {
      TrimAvoids(parts[k], ',');
    }
  }

  /** Cells without commas or surrounding white space, joined with commas, come back. */
  lemma FieldsOfJoin(cells: seq<string>)
    requires |cells| >= 1
    requires forall k :: 0 <= k < |cells| ==> ',' !in cells[k] && Unpadded(cells[k])
    ensures Fields(Join(cells, ',')) == cells
  {
    SplitJoin(cells, ',');
    forall k | 0 <= k < |cells| {
      TrimUnpadded(cells[k]);
    }
  }

  // ---------------------------------------------------------------------------
  // Number(value)

  /** `m` times ten to the power `e`, one factor of ten at a time. */
  function Scale(m: real, e: int): real
    decreases if e >= 0 then e else -e
  {
    if e == 0 then m else if e > 0 then Scale(m, e - 1) * 10.0 else Scale(m, e + 1) / 10.0
  }

  /** The exponent after `e`: an optional sign and at least one digit, nothing else. */
  function ExponentValue(s: string): Option<int> {
    var negative := |s| > 0 && s[0] == '-';
    var u := if |s| > 0 && (s[0] == '+' || s[0] == '-') then s[1..] else s;
    if u != [] && AllDigits(u) then
      Some(if negative then -(DigitsValue(u) as int) else DigitsValue(u) as int)
    else None
  }

  /** An unsigned decimal literal: digits, then optionally a point and more digits, at least
      one digit in all, then optionally `e` or `E` and an exponent, and nothing after. Its
      value is the digits read as one integer, scaled by the exponent less the number of
      digits after the point. */
  function UnsignedDecimal(u: string): Option<real> {
    var k := DigitRun(u, false);
    var whole, rest := u[..k], u[k..];
    var point := |rest| > 0 && rest[0] == '.';
    var afterPoint := if point then rest[1..] else rest;
    var f := if point then DigitRun(afterPoint, false) else 0;
    var fraction, tail := afterPoint[..f], afterPoint[f..];
    if k + f == 0 then None
    else
      var exponent :=
        if tail == [] then Some(0)
        else if tail[0] == 'e' || tail[0] == 'E' then ExponentValue(tail[1..])
        else None;
      match exponent
      case None => None
      case Some(e) =>
        Some(Scale(DigitsValue(whole + fraction) as real, e - f))
  }

  /** A decimal literal with an optional sign. */
  function DecimalLiteral(t: string): Option<real> {
    var signed := |t| > 0 && (t[0] == '+' || t[0] == '-');
    match UnsignedDecimal(if signed then t[1..] else t)
    case None => None
    case Some(x) => Some(if signed && t[0] == '-' then -x else x)
  }

  /** A prefix letter `0x`, `0o` or `0b` announces (either case). */
  predicate PrefixLetter(c: char) {
    c == 'x' || c == 'X' || c == 'o' || c == 'O' || c == 'b' || c == 'B'
  }

  /** The digits after a prefix: at least one, all of the radix. */
  function RadixDigits(digits: string, radix: nat): Option<real> {
    if digits != [] && forall i :: 0 <= i < |digits| ==> IsRadixDigit(digits[i], radix) then
      Some(RadixValue(digits, radix) as real)
    else None
  }

  /** A prefixed integer literal: `0x`, `0o` or `0b` and at least one digit of that radix,
      nothing else, and no sign. */
  function PrefixedLiteral(t: string): Option<real>
    requires |t| >= 2
  {
    if t[1] == 'x' || t[1] == 'X' then RadixDigits(t[2..], 16)
    else if t[1] == 'o' || t[1] == 'O' then RadixDigits(t[2..], 8)
    else RadixDigits(t[2..], 2)
  }

  /** `Number(s)` for a string, `None` standing for `NaN`: surrounding white space is
      ignored, nothing else reads as 0, and otherwise the whole text must be one literal. */
  function ToNumber(s: string): Option<real> {
    var t := Trim(s);
    if t == [] then Some(0.0)
    else if |t| >= 2 && t[0] == '0' && PrefixLetter(t[1]) then PrefixedLiteral(t)
    else DecimalLiteral(t)
  }

  lemma DigitRunAll(s: string)
    requires AllDigits(s)
    ensures DigitRun(s, false) == |s|
  {
  }

  lemma DigitRunStops(s: string, k: nat)
    requires k < |s| && AllDigits(s[..k]) && !IsDigit(s[k])
    ensures DigitRun(s, false) == k
  {
    var r := DigitRun(s, false);
    if r < k {
      assert s[..k][r] == s[r];
    }
  }

  /** An empty or blank cell reads as the number 0. */
  lemma BlankIsZero(s: string)
    requires AllSpace(s)
    ensures ToNumber(s) == Some(0.0)
  {
    TrimEmptyIffAllSpace(s);
  }

  /** A plain run of digits is read as its decimal value. */
  lemma UnsignedDigits(u: string)
    requires u != [] && AllDigits(u)
    ensures UnsignedDecimal(u) == Some(DigitsValue(u) as real)
  {
    DigitRunAll(u);
    assert u[..|u|] == u && u[|u|..] == [];
    assert u + [] == u;
  }

  /** A run of decimal digits is read as its value. */
  lemma NumberOfDigits(d: string)
    requires d != [] && AllDigits(d)
    ensures ToNumber(d) == Some(DigitsValue(d) as real)
  {
    assert |d| >= 2 ==> IsDigit(d[1]);
    Unsigned(d);
    UnsignedDigits(d);
  }

  /** A minus sign and a run of decimal digits is read as the negated value. */
  lemma NumberOfNegative(t: string)
    requires |t| >= 2 && t[0] == '-' && AllDigits(t[1..])
    ensures ToNumber(t) == Some(-(DigitsValue(t[1..]) as real))
  {
    assert IsDigit(t[1..][|t| - 2]);
    TrimUnpadded(t);
    assert ToNumber(t) == DecimalLiteral(t);
    UnsignedDigits(t[1..]);
  }

  /** `Number(String(n))` is `n`. */
  lemma NumberOfInt(n: int)
    ensures ToNumber(IntToString(n)) == Some(n as real)
  {
    if n >= 0 {
      assert IntToString(n) == NatToString(n);
      NumberOfDigits(NatToString(n));
      NatToStringValue(n);
      assert ToNumber(IntToString(n)) == Some(n as real);
    } else {
      var t := IntToString(n);
      var m: nat := -n;
      assert t[1..] == NatToString(m);
      NatToStringValue(m);
      var v := DigitsValue(t[1..]);
      assert v == m;
      assert -(v as real) == n as real;
      NumberOfNegative(t);
    }
  }

  /** Text that, trimmed, starts with anything but a digit, a point or a sign stays text:
      item names and tier names such as `土豪` are never numbers. */
  lemma TextIsNotNumber(s: string)
    requires Trim(s) != []
    requires var c := Trim(s)[0]; !IsDigit(c) && c != '.' && c != '+' && c != '-'
    ensures ToNumber(s) == None
  {
  }

  /** Without a prefix or a sign, `Number` reads the trimmed text as an unsigned decimal. */
  lemma Unsigned(t: string)
    requires t != [] && Unpadded(t)
    requires t[0] != '+' && t[0] != '-' && !(|t| >= 2 && t[0] == '0' && PrefixLetter(t[1]))
    ensures ToNumber(t) == UnsignedDecimal(t)
  {
    TrimUnpadded(t);
  }

  /** Digits followed by a hyphen are no unsigned decimal literal. */
  lemma HyphenAfterDigits(u: string, k: nat)
    requires 1 <= k < |u| && AllDigits(u[..k]) && u[k] == '-'
    ensures UnsignedDecimal(u) == None
  {
    DigitRunStops(u, k);
    assert u[k..][0] == '-';
  }

  /** Digits followed by a hyphen are not a number: `2025-04-17` stays text. */
  lemma DateIsNotNumber(s: string, k: nat)
    requires 1 <= k < |s| && AllDigits(s[..k]) && s[k] == '-'
    requires !IsJsSpace(s[|s| - 1])
    ensures ToNumber(s) == None
  {
    assert IsDigit(s[..k][0]) && s[..k][0] == s[0];
    if k >= 2 {
      assert IsDigit(s[..k][1]) && s[..k][1] == s[1];
    }
    assert IsDigit(s[1]) || s[1] == '-';
    assert !PrefixLetter(s[1]);
    Unsigned(s);
    HyphenAfterDigits(s, k);
  }

  // ---------------------------------------------------------------------------
  // headers.forEach((header, index) => { row[header] = ... })

  /** `values[index]`: `undefined` past the end of the line. */
  function CellAt(values: seq<string>, i: nat): Option<string> {
    if i < |values| then Some(values[i]) else None
  }

  /** `isNaN(Number(value)) ? value : Number(value)`; `Number(undefined)` is `NaN`, so a
      missing cell stays `undefined`. */
  function Coerce(value: Option<string>): Cell {
    match value
    case None => Undef
    case Some(s) => match ToNumber(s) case Some(x) => Num(x) case None => Str(s)
  }

  /** The value stored for each header, by position. */
  function RowCells(headers: seq<string>, values: seq<string>): (cs: seq<Cell>)
    ensures |cs| == |headers|
  {
    seq(|headers|, i requires 0 <= i < |headers| => Coerce(CellAt(values, i)))
  }

  /** The row object of one line. */
  function Row(headers: seq<string>, values: seq<string>): Record {
    AssignTo(headers, RowCells(headers, values), |headers|)
  }

  method BuildRow(headers: seq<string>, values: seq<string>) returns (row: Record)
    ensures row == Row(headers, values)
  {
    ghost var cells := RowCells(headers, values);
    row := map[];
    for index := 0 to |headers|
      invariant row == AssignTo(headers, cells, index)
    {
      var value := CellAt(values, index);
      assert cells[index] == Coerce(value);
      AssignToStep(headers, cells, index);
      row := row[headers[index] := Coerce(value)];
    }
  }

  /** A row has exactly the headers as keys, whatever the line holds. */
  lemma RowKeys(headers: seq<string>, values: seq<string>)
    ensures forall h :: h in Row(headers, values) <==> h in headers
  {
    AssignToKeys(headers, RowCells(headers, values), |headers|);
    KeysToAll(headers);
  }

  /** The cell under a header (its last occurrence when it repeats) is the one at the same
      position: `undefined` when the line is too short, a number when `Number` reads the
      trimmed text as one, and the trimmed text otherwise. Extra cells are ignored. */
  lemma RowAt(headers: seq<string>, values: seq<string>, i: nat)
    requires i < |headers|
    requires forall j :: i < j < |headers| ==> headers[j] != headers[i]
    ensures headers[i] in Row(headers, values)
    ensures i >= |values| ==> Row(headers, values)[headers[i]] == Undef
    ensures i < |values| && ToNumber(values[i]).Some? ==>
      Row(headers, values)[headers[i]] == Num(ToNumber(values[i]).value)
    ensures i < |values| && ToNumber(values[i]).None? ==>
      Row(headers, values)[headers[i]] == Str(values[i])
  {
    AssignToAt(headers, RowCells(headers, values), |headers|, i);
  }

  // ---------------------------------------------------------------------------
  // the loop over lines 1 ..

  /** `!line.trim()`: the line is white space only (see `TrimEmptyIffAllSpace`). */
  predicate Blank(line: string) {
    AllSpace(line)
  }

  /** The positions of the lines that are not blank, in increasing order; every such line
      has its position here. */
  function Kept(ls: seq<string>): (idx: seq<nat>)
    ensures forall j :: 0 <= j < |idx| ==> idx[j] < |ls| && !Blank(ls[idx[j]])
    ensures forall j, k :: 0 <= j < k < |idx| ==> idx[j] < idx[k]
    ensures forall i :: 0 <= i < |ls| && !Blank(ls[i]) ==> i in idx
  {
    if ls == [] then []
    else
      var init := Kept(ls[..|ls| - 1]);
      assert forall j :: 0 <= j < |init| ==> ls[..|ls| - 1][init[j]] == ls[init[j]];
      if Blank(ls[|ls| - 1]) then init else init + [|ls| - 1]
  }

  /** A row for every line that is not blank, in order. */
  function ParsedRows(headers: seq<string>, ls: seq<string>): seq<Record> {
    if ls == [] then []
    else
      var init := ParsedRows(headers, ls[..|ls| - 1]);
      var line := ls[|ls| - 1];
      if Blank(line) then init else init + [Row(headers, Fields(line))]
  }

  /** The result of `parseCSV(content)`. */
  function CsvRows(content: string): seq<Record> {
    var lines := Lines(content);
    ParsedRows(Fields(lines[0]), lines[1..])
  }

  method ParseCsv(content: string) returns (data: seq<Record>)
    ensures data == CsvRows(content)
  {
    var lines := Lines(content);
    var headers := Fields(lines[0]);
    data := ParseRows(headers, lines);
  }

  /** The loop over the lines after line 0, skipping blank ones. */
  method ParseRows(headers: seq<string>, lines: seq<string>) returns (data: seq<Record>)
    requires |lines| >= 1
    ensures data == ParsedRows(headers, lines[1..])
  {
    data := [];
    for i := 1 to |lines|
      invariant data == ParsedRows(headers, lines[1..i])
    {
      assert lines[1..i + 1][..i - 1] == lines[1..i];
      TrimEmptyIffAllSpace(lines[i]);
      if Trim(lines[i]) != [] {
        var values := Fields(lines[i]);
        var row := BuildRow(headers, values);
        data := data + [row];
      }
    }
    assert lines[1..] == lines[1..|lines|];
  }

  /** The `j`th row comes from the `j`th line that is not blank. */
  lemma {:induction false} ParsedRowsKept(headers: seq<string>, ls: seq<string>)
    ensures |ParsedRows(headers, ls)| == |Kept(ls)|
    ensures forall j :: 0 <= j < |Kept(ls)| ==>
      ParsedRows(headers, ls)[j] == Row(headers, Fields(ls[Kept(ls)[j]]))
  {
    if ls != [] {
      var init, line := ls[..|ls| - 1], ls[|ls| - 1];
      ParsedRowsKept(headers, init);
      var rows, idx := ParsedRows(headers, init), Kept(init);
      forall j | 0 <= j < |idx|
        ensures init[idx[j]] == ls[idx[j]]
      {
      }
      if !Blank(line) {
        assert ParsedRows(headers, ls) == rows + [Row(headers, Fields(line))];
        assert Kept(ls) == idx + [|ls| - 1];
      }
    }
  }

  /** The rows of `parseCSV` are the lines after line 0 that are not blank, one to one and
      in order, each read against the headers of line 0. */
  lemma CsvRowsFromLines(content: string)
    ensures var lines := Lines(content); var idx := Kept(lines[1..]);
      |CsvRows(content)| == |idx| &&
      forall j :: 0 <= j < |idx| ==>
        CsvRows(content)[j] == Row(Fields(lines[0]), Fields(lines[1 + idx[j]]))
  {
    var lines := Lines(content);
    ParsedRowsKept(Fields(lines[0]), lines[1..]);
  }

  /** With no blank line, every line is kept. */
  lemma {:induction false} KeptAll(ls: seq<string>)
    requires forall i :: 0 <= i < |ls| ==> !Blank(ls[i])
    ensures |Kept(ls)| == |ls|
    ensures forall j :: 0 <= j < |ls| ==> Kept(ls)[j] == j
  {
    if ls != [] {
      KeptAll(ls[..|ls| - 1]);
    }
  }

  /** The lines of a table: the header line and one line per row, cells joined with commas. */
  function TableLines(headers: seq<string>, table: seq<seq<string>>): (ls: seq<string>)
    requires |headers| >= 1 && forall r :: 0 <= r < |table| ==> |table[r]| >= 1
    ensures |ls| == |table| + 1
  {
    [Join(headers, ',')] + seq(|table|, r requires 0 <= r < |table| => Join(table[r], ','))
  }

  /** The text of a table, lines joined with `\r\n`. */
  function CsvText(headers: seq<string>, table: seq<seq<string>>): string
    requires |headers| >= 1 && forall r :: 0 <= r < |table| ==> |table[r]| >= 1
    requires forall k :: 0 <= k < |headers| ==> '\n' !in headers[k]
    requires forall r, k :: 0 <= r < |table| && 0 <= k < |table[r]| ==> '\n' !in table[r][k]
  {
    NoLineFeed(headers, table);
    Join(CrlfLines(TableLines(headers, table)), '\n')
  }

  lemma NoLineFeed(headers: seq<string>, table: seq<seq<string>>)
    requires |headers| >= 1 && forall r :: 0 <= r < |table| ==> |table[r]| >= 1
    requires forall k :: 0 <= k < |headers| ==> '\n' !in headers[k]
    requires forall r, k :: 0 <= r < |table| && 0 <= k < |table[r]| ==> '\n' !in table[r][k]
    ensures forall k :: 0 <= k < |TableLines(headers, table)| ==> '\n' !in TableLines(headers, table)[k]
  {
    var ls := TableLines(headers, table);
    forall k | 0 <= k < |ls|
      ensures '\n' !in ls[k]
    {
      if k == 0 {
        JoinAvoids(headers, ',', '\n');
      } else {
        assert ls[k] == Join(table[k - 1], ',');
        JoinAvoids(table[k - 1], ',', '\n');
      }
    }
  }

  /** A join holds a character only if a part or the separator does. */
  lemma {:induction false} JoinAvoids(parts: seq<string>, sep: char, c: char)
    requires |parts| >= 1 && c != sep
    requires forall k :: 0 <= k < |parts| ==> c !in parts[k]
    ensures c !in Join(parts, sep)
  {
    if |parts| > 1 {
      JoinAvoids(parts[1..], sep, c);
      assert c !in parts[0] + [sep];
    }
  }

  /** The text of a table is cut back into its lines. */
  lemma LinesOfTable(headers: seq<string>, table: seq<seq<string>>)
    requires |headers| >= 1 && forall r :: 0 <= r < |table| ==> |table[r]| >= 1
    requires forall k :: 0 <= k < |headers| ==> '\n' !in headers[k]
    requires forall r, k :: 0 <= r < |table| && 0 <= k < |table[r]| ==> '\n' !in table[r][k]
    ensures Lines(CsvText(headers, table)) == TableLines(headers, table)
  {
    NoLineFeed(headers, table);
    LinesOfCrlf(TableLines(headers, table));
  }

  /** The row lines of a table, none of them blank, parse into the table's rows. */
  lemma RowsOfTable(headers: seq<string>, table: seq<seq<string>>)
    requires |headers| >= 1 && forall r :: 0 <= r < |table| ==> |table[r]| >= 1
    requires forall r, k :: 0 <= r < |table| && 0 <= k < |table[r]| ==>
      ',' !in table[r][k] && Unpadded(table[r][k])
    requires forall r :: 0 <= r < |table| ==> !Blank(Join(table[r], ','))
    ensures |ParsedRows(headers, TableLines(headers, table)[1..])| == |table|
    ensures forall r :: 0 <= r < |table| ==>
      ParsedRows(headers, TableLines(headers, table)[1..])[r] == Row(headers, table[r])
  {
    var body := TableLines(headers, table)[1..];
    assert forall r :: 0 <= r < |table| ==> body[r] == Join(table[r], ',');
    KeptAll(body);
    ParsedRowsKept(headers, body);
    forall r | 0 <= r < |table|
      ensures ParsedRows(headers, body)[r] == Row(headers, table[r])
    {
      assert Kept(body)[r] == r;
      FieldsOfJoin(table[r]);
    }
  }

  /** Round trip: a table written as CSV text (cells without commas, line breaks or
      surrounding white space, no blank row, lines ended by `\r\n`) parses into one row per
      table row, in order, keyed by the header cells. */
  lemma CsvOfTable(headers: seq<string>, table: seq<seq<string>>)
    requires |headers| >= 1 && forall r :: 0 <= r < |table| ==> |table[r]| >= 1
    requires forall k :: 0 <= k < |headers| ==>
      '\n' !in headers[k] && ',' !in headers[k] && Unpadded(headers[k])
    requires forall r, k :: 0 <= r < |table| && 0 <= k < |table[r]| ==>
      '\n' !in table[r][k] && ',' !in table[r][k] && Unpadded(table[r][k])
    requires forall r :: 0 <= r < |table| ==> !Blank(Join(table[r], ','))
    ensures |CsvRows(CsvText(headers, table))| == |table|
    ensures forall r :: 0 <= r < |table| ==> CsvRows(CsvText(headers, table))[r] == Row(headers, table[r])
  {
    LinesOfTable(headers, table);
    FieldsOfJoin(headers);
    RowsOfTable(headers, table);
  }
}
