/** String operations with the behaviour of the JavaScript built-ins the analyser
    relies on: `trim`, `split` on one character, `String(n)`, `padStart(2, '0')`,
    `parseInt` without a radix, and the character order used to sort date keys. */
module Text {

  datatype Option<T> = None | Some(value: T)

  /** White space and line terminators as `String.prototype.trim` and `parseInt` see them. */
  predicate IsJsSpace(c: char) {
    c == '\t' || c == '\n' || c == '\U{000B}' || c == '\U{000C}' || c == '\r' ||
    c == ' ' || c == '\U{00A0}' || c == '\U{1680}' || ('\U{2000}' <= c <= '\U{200A}') ||
    c == '\U{2028}' || c == '\U{2029}' || c == '\U{202F}' || c == '\U{205F}' ||
    c == '\U{3000}' || c == '\U{FEFF}'
  }

  predicate AllSpace(s: string) {
    forall i :: 0 <= i < |s| ==> IsJsSpace(s[i])
  }

  /** How many white-space characters `s` starts with. */
  function LeadingSpace(s: string): (n: nat)
    ensures n <= |s|
  {
    if |s| > 0 && IsJsSpace(s[0]) then 1 + LeadingSpace(s[1..]) else 0
  }

  /** How many white-space characters `s` ends with. */
  function TrailingSpace(s: string): (n: nat)
    ensures n <= |s|
  {
    if |s| > 0 && IsJsSpace(s[|s| - 1]) then 1 + TrailingSpace(s[..|s| - 1]) else 0
  }

  /** The leading run is all space and stops before a character that is not. */
  lemma {:induction false} LeadingSpaceRun(s: string)
    ensures forall i :: 0 <= i < LeadingSpace(s) ==> IsJsSpace(s[i])
    ensures LeadingSpace(s) < |s| ==> !IsJsSpace(s[LeadingSpace(s)])
  {
    if |s| > 0 && IsJsSpace(s[0]) {
      LeadingSpaceRun(s[1..]);
      assert forall i :: 1 <= i < |s| ==> s[i] == s[1..][i - 1];
    }
  }

  /** The trailing run is all space and starts after a character that is not. */
  lemma {:induction false} TrailingSpaceRun(s: string)
    ensures forall i :: |s| - TrailingSpace(s) <= i < |s| ==> IsJsSpace(s[i])
    ensures TrailingSpace(s) < |s| ==> !IsJsSpace(s[|s| - TrailingSpace(s) - 1])
  {
    if |s| > 0 && IsJsSpace(s[|s| - 1]) {
      TrailingSpaceRun(s[..|s| - 1]);
      assert forall i :: 0 <= i < |s| - 1 ==> s[i] == s[..|s| - 1][i];
    }
  }

  /** `s.trimStart()`. */
  function TrimStart(s: string): string {
    s[LeadingSpace(s)..]
  }

  /** `s.trimEnd()`. */
  function TrimEnd(s: string): string {
    s[..|s| - TrailingSpace(s)]
  }

  /** `s.trim()`. */
  function Trim(s: string): string {
    TrimEnd(TrimStart(s))
  }

  /** `s.trim()` is empty exactly when `s` is made of white space only. */
  lemma TrimEmptyIffAllSpace(s: string)
    ensures Trim(s) == [] <==> AllSpace(s)
  {
    LeadingSpaceRun(s);
    var t := TrimStart(s);
    if t != [] {
      TrailingSpaceRun(t);
      assert t[0] == s[LeadingSpace(s)];
    }
  }

  /** A string that is empty or neither starts nor ends with white space. */
  predicate Unpadded(s: string) {
    s == [] || (!IsJsSpace(s[0]) && !IsJsSpace(s[|s| - 1]))
  }

  /** Trimming a string that neither starts nor ends with a space leaves it alone. */
  lemma TrimUnpadded(s: string)
    requires Unpadded(s)
    ensures Trim(s) == s
  {
    assert s[0..] == s && s[..|s|] == s;
  }

  /** What trimming keeps is a piece of the string: it holds no character the string lacks. */
  lemma TrimAvoids(s: string, c: char)
    requires c !in s
    ensures c !in Trim(s)
  {
    var t := TrimStart(s);
    assert forall i :: 0 <= i < |t| ==> t[i] == s[LeadingSpace(s) + i];
    assert forall i :: 0 <= i < |Trim(s)| ==> Trim(s)[i] == t[i];
  }

  // ---------------------------------------------------------------------------
  // split / join on one separator character

  function IndexOfChar(s: string, c: char): (i: nat)
    requires c in s
    ensures i < |s| && s[i] == c && c !in s[..i]
  {
    if s[0] == c then 0 else 1 + IndexOfChar(s[1..], c)
  }

  /** `s.split(sep)` for a one-character separator: every occurrence of `sep` ends a part. */
  function Split(s: string, sep: char): (parts: seq<string>)
    ensures |parts| >= 1
    ensures forall k :: 0 <= k < |parts| ==> sep !in parts[k]
    decreases |s|
  {
    if sep !in s then [s]
    else
      var i := IndexOfChar(s, sep);
      [s[..i]] + Split(s[i + 1..], sep)
  }

  /** `parts.join(sep)`. */
  function Join(parts: seq<string>, sep: char): string
    requires |parts| >= 1
  {
    if |parts| == 1 then parts[0] else parts[0] + [sep] + Join(parts[1..], sep)
  }

  /** Number of occurrences of `c` in `s`. */
  function Count(s: string, c: char): nat {
    if s == [] then 0 else (if s[0] == c then 1 else 0) + Count(s[1..], c)
  }

  lemma CountAppend(a: string, b: string, c: char)
    ensures Count(a + b, c) == Count(a, c) + Count(b, c)
  {
    if a != [] {
      assert (a + b)[0] == a[0];
      assert (a + b)[1..] == a[1..] + b;
      CountAppend(a[1..], b, c);
    } else {
      assert a + b == b;
    }
  }

  lemma CountAbsent(s: string, c: char)
    requires c !in s
    ensures Count(s, c) == 0
  {
    if s != [] {
      assert c !in s[1..];
      CountAbsent(s[1..], c);
    }
  }

  /** Joining the parts of a split gives the string back. */
  lemma {:induction false} JoinSplit(s: string, sep: char)
    ensures Join(Split(s, sep), sep) == s
    decreases |s|
  {
    if sep in s {
      var i := IndexOfChar(s, sep);
      var parts, tail := Split(s, sep), Split(s[i + 1..], sep);
      assert parts == [s[..i]] + tail;
      assert parts[0] == s[..i] && parts[1..] == tail;
      JoinSplit(s[i + 1..], sep);
      assert Join(parts, sep) == s[..i] + [sep] + Join(tail, sep);
      assert s == s[..i] + [sep] + s[i + 1..];
    }
  }

  /** The first separator of `a + [sep] + b` is the one after `a` when `a` has none. */
  lemma {:induction false} IndexAfterPart(a: string, b: string, sep: char)
    requires sep !in a
    ensures IndexOfChar(a + [sep] + b, sep) == |a|
  {
    if a != [] {
      assert (a + [sep] + b)[1..] == a[1..] + [sep] + b;
      IndexAfterPart(a[1..], b, sep);
    }
  }

  /** Splitting a join of separator-free parts gives the parts back. */
  lemma {:induction false} SplitJoin(parts: seq<string>, sep: char)
    requires |parts| >= 1
    requires forall k :: 0 <= k < |parts| ==> sep !in parts[k]
    ensures Split(Join(parts, sep), sep) == parts
  {
    if |parts| > 1 {
      var rest := Join(parts[1..], sep);
      var s := parts[0] + [sep] + rest;
      assert s == Join(parts, sep);
      IndexAfterPart(parts[0], rest, sep);
      assert s[|parts[0]|] == sep;
      assert s[..|parts[0]|] == parts[0] && s[|parts[0]| + 1..] == rest;
      SplitJoin(parts[1..], sep);
      assert parts == [parts[0]] + parts[1..];
    }
  }

  /** Every occurrence of the separator splits a field: there is one part more than separators. */
  lemma {:induction false} SplitCount(s: string, sep: char)
    ensures |Split(s, sep)| == Count(s, sep) + 1
    decreases |s|
  {
    if sep in s {
      var i := IndexOfChar(s, sep);
      SplitCount(s[i + 1..], sep);
      assert s == s[..i] + ([sep] + s[i + 1..]);
      CountAppend(s[..i], [sep] + s[i + 1..], sep);
      CountAppend([sep], s[i + 1..], sep);
      CountAbsent(s[..i], sep);
    } else {
      CountAbsent(s, sep);
    }
  }

  // ---------------------------------------------------------------------------
  // decimal rendering: String(n) and padStart(2, '0')

  predicate IsDigit(c: char) { '0' <= c <= '9' }

  predicate AllDigits(s: string) {
    forall i :: 0 <= i < |s| ==> IsDigit(s[i])
  }

  function DigitChar(d: nat): (c: char)
    requires d < 10
    ensures IsDigit(c)
  {
    ['0', '1', '2', '3', '4', '5', '6', '7', '8', '9'][d]
  }

  function DigitValue(c: char): (d: nat)
    requires IsDigit(c)
    ensures d < 10
  {
    (c as int) - ('0' as int)
  }

  lemma DigitRoundTrip(d: nat)
    requires d < 10
    ensures DigitValue(DigitChar(d)) == d
  {
  }

  /** The value of a string of decimal digits, most significant first. */
  function DigitsValue(s: string): nat
    requires AllDigits(s)
  {
    if s == [] then 0 else DigitsValue(s[..|s| - 1]) * 10 + DigitValue(s[|s| - 1])
  }

  /** `String(n)` for a non-negative integer. */
  function NatToString(n: nat): (s: string)
    ensures |s| >= 1 && AllDigits(s)
    decreases n
  {
    if n < 10 then [DigitChar(n)] else NatToString(n / 10) + [DigitChar(n % 10)]
  }

  /** `String(n)` for any integer. */
  function IntToString(n: int): string {
    if n < 0 then "-" + NatToString(-n) else NatToString(n)
  }

  /** `s.padStart(2, '0')`. */
  function PadStart2(s: string): (r: string)
    ensures |r| >= 2
  {
    if |s| >= 2 then s else if |s| == 1 then "0" + s else "00"
  }

  /** Reading back a rendered number gives the number. */
  lemma {:induction false} NatToStringValue(n: nat)
    ensures DigitsValue(NatToString(n)) == n
    decreases n
  {
    if n >= 10 {
      NatToStringValue(n / 10);
      var s := NatToString(n);
      assert s[..|s| - 1] == NatToString(n / 10);
    }
  }

  /** Widths of rendered numbers: one digit below 10, two below 100, four from 1000 to 9999. */
  lemma NatToStringLength(n: nat)
    ensures n < 10 ==> |NatToString(n)| == 1
    ensures 10 <= n < 100 ==> |NatToString(n)| == 2
    ensures 1000 <= n < 10000 ==> |NatToString(n)| == 4
  {
    if 10 <= n < 100 {
      WidthStep(n, 1);
    } else if 1000 <= n < 10000 {
      assert 100 <= n / 10 < 1000;
      assert 10 <= n / 100 < 100 && n / 10 / 10 == n / 100;
      WidthStep(n / 100, 1);
      WidthStep(n / 10, 2);
      WidthStep(n, 3);
    }
  }

  /** A number of ten or more has one digit more than its tenth. */
  lemma WidthStep(n: nat, w: nat)
    requires n >= 10 && |NatToString(n / 10)| == w
    ensures |NatToString(n)| == w + 1
  {
  }

  /** A rendered positive number does not start with `0`. */
  lemma {:induction false} NatToStringLeading(n: nat)
    ensures n > 0 ==> NatToString(n)[0] != '0'
    decreases n
  {
    if n >= 10 {
      NatToStringLeading(n / 10);
    }
  }

  // ---------------------------------------------------------------------------
  // parseInt(s) with no radix

  predicate IsHexDigit(c: char) {
    IsDigit(c) || ('a' <= c <= 'f') || ('A' <= c <= 'F')
  }

  function HexDigitValue(c: char): (d: nat)
    requires IsHexDigit(c)
    ensures d < 16
  {
    if IsDigit(c) then DigitValue(c)
    else if 'a' <= c <= 'f' then (c as int) - ('a' as int) + 10
    else (c as int) - ('A' as int) + 10
  }

  /** Length of the longest prefix of `s` made of digits of the given radix (10 or 16). */
  function DigitRun(s: string, hex: bool): (k: nat)
    ensures k <= |s|
    ensures forall i :: 0 <= i < k ==> (if hex then IsHexDigit(s[i]) else IsDigit(s[i]))
    ensures k < |s| ==> !(if hex then IsHexDigit(s[k]) else IsDigit(s[k]))
  {
    if |s| > 0 && (if hex then IsHexDigit(s[0]) else IsDigit(s[0])) then 1 + DigitRun(s[1..], hex) else 0
  }

  /** A digit of the given radix (at most 16). */
  predicate IsRadixDigit(c: char, radix: nat) {
    IsHexDigit(c) && HexDigitValue(c) < radix
  }

  lemma MulNat(a: nat, b: nat)
    ensures a * b >= 0
  {
  }

  /** The value of a string of digits of the given radix, most significant first. */
  function RadixValue(s: string, radix: nat): nat
    requires forall i :: 0 <= i < |s| ==> IsRadixDigit(s[i], radix)
  {
    if s == [] then 0
    else
      assert IsRadixDigit(s[|s| - 1], radix);
      assert forall i :: 0 <= i < |s| - 1 ==> s[..|s| - 1][i] == s[i];
      var v := RadixValue(s[..|s| - 1], radix);
      MulNat(v, radix);
      v * radix + HexDigitValue(s[|s| - 1])
  }

  /** The digits `parseInt` reads after the sign: with a `0x`/`0X` prefix the longest run of
      hexadecimal digits after it, otherwise the longest run of decimal digits; `None` when
      that run is empty. */
  function Magnitude(u: string): Option<nat> {
    if |u| >= 2 && u[0] == '0' && (u[1] == 'x' || u[1] == 'X') then
      var h := u[2..];
      var k := DigitRun(h, true);
      if k == 0 then None else Some(RadixValue(h[..k], 16))
    else
      var k := DigitRun(u, false);
      if k == 0 then None else Some(DigitsValue(u[..k]))
  }

  /** `parseInt(s)`: leading white space is skipped, then an optional sign, then the
      magnitude; what follows the digits is ignored. No digits at all gives `NaN`, here
      `None`. */
  function ParseInt(s: string): (r: Option<int>)
  {
    var t := TrimStart(s);
    var negative := |t| > 0 && t[0] == '-';
    var u := if |t| > 0 && (t[0] == '-' || t[0] == '+') then t[1..] else t;
    match Magnitude(u)
    case None => None
    case Some(m) => Some(if negative then -(m as int) else m as int)
  }

  /** `parseInt` reads a plain string of decimal digits as its decimal value. */
  lemma ParseIntOfDigits(s: string)
    requires |s| >= 1 && AllDigits(s)
    ensures ParseInt(s) == Some(DigitsValue(s))
  {
    assert IsDigit(s[0]);
    assert TrimStart(s) == s;
    MagnitudeOfDigits(s);
  }

  lemma MagnitudeOfDigits(s: string)
    requires |s| >= 1 && AllDigits(s)
    ensures Magnitude(s) == Some(DigitsValue(s))
  {
    if |s| >= 2 {
      assert IsDigit(s[1]);
    }
    assert DigitRun(s, false) == |s|;
    assert s[..|s|] == s;
  }

  /** `parseInt` reads back every rendered non-negative integer. */
  lemma ParseIntOfNat(n: nat)
    ensures ParseInt(NatToString(n)) == Some(n)
  {
    NatToStringValue(n);
    ParseIntOfDigits(NatToString(n));
  }

  /** `parseInt` drops the leading zero that `padStart(2, '0')` adds. */
  lemma ParseIntOfPadded(n: nat)
    requires n < 100
    ensures ParseInt(PadStart2(NatToString(n))) == Some(n)
  {
    PaddedValue(n);
    ParseIntOfDigits(PadStart2(NatToString(n)));
  }

  lemma DigitRound(n: nat)
    requires n < 10
    ensures DigitsValue("0") == 0 && DigitValue(DigitChar(n)) == n
  {
    assert "0"[..0] == [];
  }

  // ---------------------------------------------------------------------------
  // character (Unicode scalar value) order of strings (how the date keys are sorted)

  /** `a` sorts strictly before `b`: the first differing character is smaller, or `a` is a
      proper prefix of `b`. */
  predicate LexLess(a: string, b: string)
    decreases |a|
  {
    |b| > 0 && (|a| == 0 || a[0] < b[0] || (a[0] == b[0] && LexLess(a[1..], b[1..])))
  }

  lemma {:induction false} LexIrreflexive(a: string)
    ensures !LexLess(a, a)
    decreases |a|
  {
    if |a| > 0 {
      LexIrreflexive(a[1..]);
    }
  }

  lemma {:induction false} LexTransitive(a: string, b: string, c: string)
    requires LexLess(a, b) && LexLess(b, c)
    ensures LexLess(a, c)
    decreases |a|
  {
    if |a| > 0 && a[0] == b[0] && b[0] == c[0] {
      LexTransitive(a[1..], b[1..], c[1..]);
    }
  }

  lemma {:induction false} LexTotal(a: string, b: string)
    requires a != b
    ensures LexLess(a, b) || LexLess(b, a)
    decreases |a|
  {
    if |a| > 0 && |b| > 0 && a[0] == b[0] {
      assert a == [a[0]] + a[1..] && b == [b[0]] + b[1..];
      LexTotal(a[1..], b[1..]);
    }
  }

  lemma {:induction false} LexAsymmetric(a: string, b: string)
    requires LexLess(a, b)
    ensures !LexLess(b, a)
    decreases |a|
  {
    if |a| > 0 && a[0] == b[0] {
      LexAsymmetric(a[1..], b[1..]);
    }
  }

  /** Comparing two strings whose first parts have the same length compares the first parts,
      and on a tie the rest. */
  lemma {:induction false} LexConcat(a: string, c: string, b: string, d: string)
    requires |a| == |b|
    ensures LexLess(a + c, b + d) <==> LexLess(a, b) || (a == b && LexLess(c, d))
    decreases |a|
  {
    if |a| == 0 {
      assert a + c == c && b + d == d;
    } else {
      assert (a + c)[0] == a[0] && (b + d)[0] == b[0];
      assert (a + c)[1..] == a[1..] + c && (b + d)[1..] == b[1..] + d;
      LexConcat(a[1..], c, b[1..], d);
      if a[0] == b[0] {
        assert a == b <==> a[1..] == b[1..] by {
          assert a == [a[0]] + a[1..] && b == [b[0]] + b[1..];
        }
      }
    }
  }

  /** For digit strings of one length, the string order is the numeric order. */
  lemma {:induction false} LexDigits(s: string, t: string)
    requires |s| == |t| && AllDigits(s) && AllDigits(t)
    ensures LexLess(s, t) <==> DigitsValue(s) < DigitsValue(t)
    ensures s == t <==> DigitsValue(s) == DigitsValue(t)
    decreases |s|
  {
    if |s| > 0 {
      var s', t' := s[..|s| - 1], t[..|t| - 1];
      var x, y := s[|s| - 1], t[|t| - 1];
      assert s == s' + [x] && t == t' + [y];
      LexDigits(s', t');
      LexConcat(s', [x], t', [y]);
      assert LexLess([x], [y]) <==> x < y by {
        assert [x][1..] == [] && [y][1..] == [];
      }
      var vs, vt := DigitsValue(s'), DigitsValue(t');
      var dx, dy := DigitValue(x), DigitValue(y);
      assert DigitsValue(s) == vs * 10 + dx;
      assert DigitsValue(t) == vt * 10 + dy;
      if vs < vt {
        assert vs * 10 + dx < vt * 10 + dy;
      } else if vt < vs {
        assert vt * 10 + dy < vs * 10 + dx;
      }
    }
  }

  /** A padded two-digit rendering is all digits and reads back as the number. */
  lemma PaddedValue(n: nat)
    requires n < 100
    ensures |PadStart2(NatToString(n))| == 2
    ensures AllDigits(PadStart2(NatToString(n)))
    ensures DigitsValue(PadStart2(NatToString(n))) == n
  {
    NatToStringLength(n);
    NatToStringValue(n);
    if n < 10 {
      var s := PadStart2(NatToString(n));
      assert s == ['0', DigitChar(n)];
      assert s[..1] == "0";
      DigitRound(n);
    }
  }
}
