/** `array.sort((a, b) => a.date.localeCompare(b.date))`, the stable sort by date key each
    daily series ends with. The comparison is modelled as character order (`LexLess`), which is
    UTF-16 code-unit order on strings without characters beyond U+FFFF. */
module Sorting {
  import opened Text

  /** No element's key is below an earlier element's key. */
  ghost predicate Ascending<T>(s: seq<T>, key: T -> string) {
    forall i, j :: 0 <= i < j < |s| ==> !LexLess(key(s[j]), key(s[i]))
  }

  ghost predicate StrictlyAscending<T>(s: seq<T>, key: T -> string) {
    forall i, j :: 0 <= i < j < |s| ==> LexLess(key(s[i]), key(s[j]))
  }

  ghost predicate DistinctKeys<T>(s: seq<T>, key: T -> string) {
    forall i, j :: 0 <= i < j < |s| ==> key(s[i]) != key(s[j])
  }

  /** Puts `x` before the first element whose key is above its own, so that elements with
      equal keys keep their order. */
  function Insert<T>(x: T, s: seq<T>, key: T -> string): (r: seq<T>)
    ensures |r| == |s| + 1
    ensures multiset(r) == multiset(s) + multiset{x}
  {
    if s == [] then [x]
    else if LexLess(key(x), key(s[0])) then [x] + s
    else
      assert s == [s[0]] + s[1..];
      [s[0]] + Insert(x, s[1..], key)
  }

  /** Stable sort by key: every element is inserted after the ones already placed. */
  function SortBy<T>(s: seq<T>, key: T -> string): (r: seq<T>)
    ensures |r| == |s|
    ensures multiset(r) == multiset(s)
  {
    if s == [] then [] else
      assert s == s[..|s| - 1] + [s[|s| - 1]];
      Insert(s[|s| - 1], SortBy(s[..|s| - 1], key), key)
  }

  lemma {:induction false} InsertAscending<T>(x: T, s: seq<T>, key: T -> string)
    requires Ascending(s, key)
    ensures Ascending(Insert(x, s, key), key)
  {
    if s != [] {
      var r := Insert(x, s, key);
      if LexLess(key(x), key(s[0])) {
        forall j | 0 < j < |r| ensures !LexLess(key(r[j]), key(x)) {
          if j > 1 {
            LexTotal2(key(s[0]), key(s[j - 1]));
            if LexLess(key(s[0]), key(s[j - 1])) {
              LexTransitive(key(x), key(s[0]), key(s[j - 1]));
            }
          }
          LexAsymmetric(key(x), key(r[j]));
        }
      } else {
        InsertAscending(x, s[1..], key);
        var t := Insert(x, s[1..], key);
        forall j | 0 <= j < |t| ensures !LexLess(key(t[j]), key(s[0])) {
          assert t[j] in multiset(t);
          if t[j] != x {
            var k :| 0 <= k < |s[1..]| && s[1..][k] == t[j];
            assert s[k + 1] == t[j];
          }
        }
      }
    }
  }

  /** Keys that are not below each other are equal, or the first is below the second. */
  lemma LexTotal2(a: string, b: string)
    requires !LexLess(b, a)
    ensures a == b || LexLess(a, b)
  {
    if a != b {
      LexTotal(a, b);
    }
  }

  /** The sorted sequence is in ascending key order and is a permutation of the input. */
  lemma {:induction false} SortAscending<T>(s: seq<T>, key: T -> string)
    ensures Ascending(SortBy(s, key), key)
  {
    if s != [] {
      SortAscending(s[..|s| - 1], key);
      InsertAscending(s[|s| - 1], SortBy(s[..|s| - 1], key), key);
    }
  }

  /** A permutation of a sequence with distinct keys has distinct keys. */
  lemma {:induction false} SortDistinct<T>(s: seq<T>, key: T -> string)
    requires DistinctKeys(s, key)
    ensures DistinctKeys(SortBy(s, key), key)
  {
    if s != [] {
      var n := |s| - 1;
      var init := s[..n];
      assert DistinctKeys(init, key);
      SortDistinct(init, key);
      var t := SortBy(init, key);
      var r := SortBy(s, key);
      forall y | y in t ensures key(y) != key(s[n]) {
        assert y in multiset(init);
        var k :| 0 <= k < n && init[k] == y;
      }
      InsertKeys(s[n], t, key);
    }
  }

  /** Inserting an element whose key is new keeps the keys distinct. */
  lemma {:induction false} InsertKeys<T>(x: T, s: seq<T>, key: T -> string)
    requires DistinctKeys(s, key)
    requires forall y :: y in s ==> key(y) != key(x)
    ensures DistinctKeys(Insert(x, s, key), key)
  {
    if s != [] && !LexLess(key(x), key(s[0])) {
      InsertKeys(x, s[1..], key);
      var t := Insert(x, s[1..], key);
      forall j | 0 <= j < |t| ensures key(t[j]) != key(s[0]) {
        assert t[j] in multiset(t);
        if t[j] != x {
          var k :| 0 <= k < |s[1..]| && s[1..][k] == t[j];
          assert s[k + 1] == t[j];
        }
      }
    }
  }

  /** With distinct keys the sorted order is strictly ascending. */
  lemma SortStrict<T>(s: seq<T>, key: T -> string)
    requires DistinctKeys(s, key)
    ensures StrictlyAscending(SortBy(s, key), key)
  {
    var r := SortBy(s, key);
    SortAscending(s, key);
    SortDistinct(s, key);
    forall i, j | 0 <= i < j < |r| ensures LexLess(key(r[i]), key(r[j])) {
      LexTotal2(key(r[i]), key(r[j]));
    }
  }

  /** Two strictly ascending sequences of the same strings are the same sequence: the sorted
      order of a set of distinct keys is unique. */
  lemma {:induction false} AscendingUnique(a: seq<string>, b: seq<string>)
    requires forall i, j :: 0 <= i < j < |a| ==> LexLess(a[i], a[j])
    requires forall i, j :: 0 <= i < j < |b| ==> LexLess(b[i], b[j])
    requires forall x :: x in a <==> x in b
    ensures a == b
  {
    assert a != [] ==> a[0] in b;
    assert b != [] ==> b[0] in a;
    if a != [] && b != [] {
      assert a[0] == b[0] by {
        assert a[0] in a && b[0] in b;
        var i :| 0 <= i < |b| && b[i] == a[0];
        var j :| 0 <= j < |a| && a[j] == b[0];
        if i > 0 && j > 0 {
          LexTransitive(a[0], a[j], b[i]);
          LexIrreflexive(a[0]);
        }
      }
      forall x ensures x in a[1..] <==> x in b[1..] {
        if x in a[1..] {
          var k :| 0 <= k < |a[1..]| && a[1..][k] == x;
          assert a[k + 1] == x;
          LexIrreflexive(x);
          assert x in b;
        }
        if x in b[1..] {
          var k :| 0 <= k < |b[1..]| && b[1..][k] == x;
          assert b[k + 1] == x;
          LexIrreflexive(x);
          assert x in a;
        }
      }
      AscendingUnique(a[1..], b[1..]);
      assert a == [a[0]] + a[1..] && b == [b[0]] + b[1..];
    }
  }
}
