/** `calculateDailyItemConsumption`: one day's rows are totalled per item name in a
    JavaScript `Map` (which keeps its keys in insertion order), each total gets its share
    of the day's sum, and the list is sorted by total, largest first, with a stable sort. */
module Items {
  import opened Text
  import opened Records
  import opened Grouping

  /** The name given to rows whose item cell is empty or missing. */
  const UnknownItem: string := "未知物品"

  /** JavaScript truthiness of a cell: `""`, `0` and `undefined` are falsy. */
  predicate Truthy(c: Cell) {
    match c
    case Str(s) => s != ""
    case Num(n) => n != 0.0
    case Undef => false
  }

  /** `item[ItemColumn] || UnknownItem`. The cast to `string` does nothing at run time, so a
      numeric name stays a number and is a different `Map` key from the same digits as text. */
  function ItemName(r: Record): (c: Cell)
    ensures Truthy(c)
    ensures Truthy(Get(r, ItemColumn)) ==> c == Get(r, ItemColumn)
    ensures !Truthy(Get(r, ItemColumn)) ==> c == Str(UnknownItem)
  {
    var c := Get(r, ItemColumn);
    if Truthy(c) then c else Str(UnknownItem)
  }

  /** `typeof item[AmountColumn] === 'number' ? item[AmountColumn] : 0`. */
  function Amount(r: Record): real {
    NumberOrZero(Get(r, AmountColumn))
  }

  /** The item name of every row, in row order. */
  function ItemNames(items: seq<Record>): (ns: seq<Cell>)
    ensures |ns| == |items|
    ensures forall i :: 0 <= i < |items| ==> ns[i] == ItemName(items[i])
  {
    seq(|items|, i requires 0 <= i < |items| => ItemName(items[i]))
  }

  /** The item names as grouping keys (every row has one). */
  function NameKeys(items: seq<Record>): (ks: seq<Option<Cell>>)
    ensures |ks| == |items|
    ensures forall i :: 0 <= i < |items| ==> ks[i] == Some(ItemName(items[i]))
  {
    seq(|items|, i requires 0 <= i < |items| => Some(ItemName(items[i])))
  }

  /** The rows of item `name`, in order. */
  function Named(items: seq<Record>, name: Cell): (r: seq<Record>)
    ensures forall x :: x in r ==> x in items && ItemName(x) == name
  {
    if items == [] then []
    else
      var last := items[|items| - 1];
      Named(items[..|items| - 1], name) + (if ItemName(last) == name then [last] else [])
  }

  // ---------------------------------------------------------------------------
  // the running totals

  /** `itemGroups`, a `Map` from item name to running total: its keys in insertion order and
      the total under each. */
  datatype Tallies = Tallies(names: seq<Cell>, sums: map<Cell, real>)

  /** The key order lists each key of the map exactly once. */
  ghost predicate WellFormed(t: Tallies) {
    Distinct(t.names) && forall k :: k in t.sums <==> k in t.names
  }

  /** `has(name) ? set(name, get(name) + v) : set(name, v)`: setting a key that is already
      there keeps its place. */
  function Tally1(t: Tallies, name: Cell, v: real): (r: Tallies)
    requires WellFormed(t)
    ensures WellFormed(r)
  {
    if name in t.sums then Tallies(t.names, t.sums[name := t.sums[name] + v])
    else Tallies(t.names + [name], t.sums[name := v])
  }

  /** The map after the rows have been added one by one (the `forEach`). */
  function Tally(items: seq<Record>): (t: Tallies)
    ensures WellFormed(t)
  {
    if items == [] then Tallies([], map[])
    else
      var last := items[|items| - 1];
      Tally1(Tally(items[..|items| - 1]), ItemName(last), Amount(last))
  }

  /** `Array.from(itemGroups.values())`. */
  function TallyValues(t: Tallies): (vs: seq<real>)
    requires WellFormed(t)
    ensures |vs| == |t.names|
    ensures forall i :: 0 <= i < |vs| ==> t.names[i] in t.sums && vs[i] == t.sums[t.names[i]]
  {
    seq(|t.names|, i requires 0 <= i < |t.names| => assert t.names[i] in t.names; t.sums[t.names[i]])
  }

  /** The map's total for `name`, 0 for a name it does not hold. */
  function SumOf(t: Tallies, name: Cell): real {
    if name in t.sums then t.sums[name] else 0.0
  }

  /** The names are the distinct item names in order of first appearance. */
  lemma {:induction false} TallyOrder(items: seq<Record>)
    ensures Tally(items).names == FirstOccurrences(NameKeys(items))
  {
    if items != [] {
      var n := |items| - 1;
      TallyOrder(items[..n]);
      assert NameKeys(items)[..n] == NameKeys(items[..n]);
    }
  }

  /** One entry per distinct item name: a name is a key exactly when some row carries it. */
  lemma TallyNames(items: seq<Record>)
    ensures Distinct(Tally(items).names)
    ensures forall k :: k in Tally(items).sums <==> k in ItemNames(items)
  {
    TallyOrder(items);
    FirstOccurrencesProps(NameKeys(items));
    forall k ensures Some(k) in NameKeys(items) <==> k in ItemNames(items) {
      if Some(k) in NameKeys(items) {
        var i :| 0 <= i < |items| && NameKeys(items)[i] == Some(k);
        assert ItemNames(items)[i] == k;
      }
      if k in ItemNames(items) {
        var i :| 0 <= i < |items| && ItemNames(items)[i] == k;
        assert NameKeys(items)[i] == Some(k);
      }
    }
  }

  /** The total under each name is the sum of the amounts of exactly the rows of that item. */
  lemma {:induction false} TallySums(items: seq<Record>, name: Cell)
    ensures SumOf(Tally(items), name) == ColumnSum(Named(items, name), AmountColumn)
  {
    if items != [] {
      var n := |items| - 1;
      var last := items[n];
      TallySums(items[..n], name);
      var named := Named(items[..n], name);
      if ItemName(last) == name {
        assert (named + [last])[..|named|] == named;
      } else {
        assert named + [] == named;
      }
    }
  }

  // ---------------------------------------------------------------------------
  // sums of real sequences

  lemma {:induction false} SumToPrefix(a: seq<real>, b: seq<real>, k: nat)
    requires k <= |a| && k <= |b| && a[..k] == b[..k]
    ensures SumTo(a, k) == SumTo(b, k)
  {
    if k > 0 {
      assert a[..k - 1] == a[..k][..k - 1] && b[..k - 1] == b[..k][..k - 1];
      assert a[k - 1] == a[..k][k - 1] && b[k - 1] == b[..k][k - 1];
      SumToPrefix(a, b, k - 1);
    }
  }

  /** Sequences that agree on their first `k` elements have the same sum of those. */
  lemma {:induction false} SumToSame(a: seq<real>, b: seq<real>, k: nat)
    requires k <= |a| && k <= |b|
    requires forall i :: 0 <= i < k ==> a[i] == b[i]
    ensures SumTo(a, k) == SumTo(b, k)
  {
    if k > 0 {
      SumToSame(a, b, k - 1);
    }
  }

  lemma {:induction false} SumToConcat(a: seq<real>, b: seq<real>, k: nat)
    requires k <= |b|
    ensures SumTo(a + b, |a| + k) == Sum(a) + SumTo(b, k)
  {
    if k == 0 {
      assert (a + b)[..|a|] == a[..|a|];
      SumToPrefix(a + b, a, |a|);
    } else {
      SumToConcat(a, b, k - 1);
      assert (a + b)[|a| + k - 1] == b[k - 1];
    }
  }

  lemma SumConcat(a: seq<real>, b: seq<real>)
    ensures Sum(a + b) == Sum(a) + Sum(b)
  {
    SumToConcat(a, b, |b|);
  }

  /** Raising one element by `c` raises the sum by `c`. */
  lemma {:induction false} SumToBump(vs: seq<real>, ws: seq<real>, j: nat, c: real, k: nat)
    requires |ws| == |vs| && j < |vs| && k <= |vs|
    requires ws[j] == vs[j] + c
    requires forall i :: 0 <= i < |vs| && i != j ==> ws[i] == vs[i]
    ensures SumTo(ws, k) == SumTo(vs, k) + (if j < k then c else 0.0)
  {
    if k > 0 {
      SumToBump(vs, ws, j, c, k - 1);
    }
  }

  /** Adding `v` to the map adds `v` to the sum of its values. */
  lemma Tally1Sum(t: Tallies, name: Cell, v: real)
    requires WellFormed(t)
    ensures Sum(TallyValues(Tally1(t, name, v))) == Sum(TallyValues(t)) + v
  {
    var vs, ws := TallyValues(t), TallyValues(Tally1(t, name, v));
    if name in t.sums {
      var j :| 0 <= j < |t.names| && t.names[j] == name;
      SumToBump(vs, ws, j, v, |vs|);
    } else {
      assert ws == vs + [v];
      SumConcat(vs, [v]);
      assert Sum([v]) == SumTo([v], 0) + v;
    }
  }

  /** The values of the map add up to the amounts of all the rows: `totalConsumption` is
      the day's total. */
  lemma {:induction false} TallyTotal(items: seq<Record>)
    ensures Sum(TallyValues(Tally(items))) == ColumnSum(items, AmountColumn)
  {
    if items != [] {
      var n := |items| - 1;
      TallyTotal(items[..n]);
      Tally1Sum(Tally(items[..n]), ItemName(items[n]), Amount(items[n]));
    }
  }

  // ---------------------------------------------------------------------------
  // entries and shares

  /** One line of the result. */
  datatype Entry = Entry(name: Cell, value: real, percentage: real)

  /** `total > 0 ? value / total : 0`. */
  function Share(value: real, total: real): real {
    if total > 0.0 then value / total else 0.0
  }

  /** `Array.from(itemGroups.entries()).map(([name, value]) => …)`. */
  function Entries(t: Tallies, total: real): (es: seq<Entry>)
    requires WellFormed(t)
    ensures |es| == |t.names|
    ensures forall i :: 0 <= i < |es| ==> (t.names[i] in t.sums &&
      es[i] == Entry(t.names[i], t.sums[t.names[i]], Share(t.sums[t.names[i]], total)))
  {
    seq(|t.names|, i requires 0 <= i < |t.names| =>
      assert t.names[i] in t.names;
      Entry(t.names[i], t.sums[t.names[i]], Share(t.sums[t.names[i]], total)))
  }

  function EntryValue(e: Entry): real { e.value }

  function EntryShare(e: Entry): real { e.percentage }

  /** `es.map(f)`. */
  function Column(es: seq<Entry>, f: Entry -> real): (vs: seq<real>)
    ensures |vs| == |es|
    ensures forall i :: 0 <= i < |es| ==> vs[i] == f(es[i])
  {
    seq(|es|, i requires 0 <= i < |es| => f(es[i]))
  }

  lemma DivAdd(a: real, b: real, d: real)
    requires d != 0.0
    ensures a / d + b / d == (a + b) / d
  {
  }

  lemma {:induction false} SharesTo(es: seq<Entry>, total: real, k: nat)
    requires total > 0.0 && k <= |es|
    requires forall i :: 0 <= i < |es| ==> es[i].percentage == es[i].value / total
    ensures SumTo(Column(es, EntryShare), k) == SumTo(Column(es, EntryValue), k) / total
  {
    if k > 0 {
      SharesTo(es, total, k - 1);
      DivAdd(SumTo(Column(es, EntryValue), k - 1), es[k - 1].value, total);
    }
  }

  /** Shares of a positive total add up to one. */
  lemma SharesAddUp(es: seq<Entry>, total: real)
    requires total > 0.0 && Sum(Column(es, EntryValue)) == total
    requires forall i :: 0 <= i < |es| ==> es[i].percentage == Share(es[i].value, total)
    ensures Sum(Column(es, EntryShare)) == 1.0
  {
    assert forall i :: 0 <= i < |es| ==> es[i].percentage == es[i].value / total;
    SharesTo(es, total, |es|);
    DivSelf(total);
  }

  lemma DivSelf(d: real)
    requires d != 0.0
    ensures d / d == 1.0
  {
  }

  // ---------------------------------------------------------------------------
  // `sort((a, b) => b.value - a.value)`

  /** Largest value first. */
  ghost predicate Descending(s: seq<Entry>) {
    forall i, j :: 0 <= i < j < |s| ==> s[i].value >= s[j].value
  }

  /** The first place from `k` on whose value is below `x`'s (`|s|` if there is none). */
  function Slot(x: Entry, s: seq<Entry>, k: nat): (p: nat)
    requires k <= |s|
    ensures k <= p <= |s|
    ensures forall i :: k <= i < p ==> s[i].value >= x.value
    ensures p < |s| ==> s[p].value < x.value
    decreases |s| - k
  {
    if k == |s| then k else if s[k].value < x.value then k else Slot(x, s, k + 1)
  }

  /** `x` goes after every element whose value is not below its own. */
  function Insert(x: Entry, s: seq<Entry>): (r: seq<Entry>)
    ensures |r| == |s| + 1
    ensures multiset(r) == multiset(s) + multiset{x}
  {
    var p := Slot(x, s, 0);
    assert s == s[..p] + s[p..];
    s[..p] + [x] + s[p..]
  }

  /** A stable sort, largest value first: each element is inserted behind the ones already
      placed that are not smaller. */
  function SortByValue(s: seq<Entry>): (r: seq<Entry>)
    ensures |r| == |s|
    ensures multiset(r) == multiset(s)
  {
    if s == [] then []
    else
      assert s == s[..|s| - 1] + [s[|s| - 1]];
      Insert(s[|s| - 1], SortByValue(s[..|s| - 1]))
  }

  /** Where each element of the inserted sequence comes from. */
  lemma InsertAt(x: Entry, s: seq<Entry>)
    ensures var p, r := Slot(x, s, 0), Insert(x, s);
      r[p] == x &&
      (forall i :: 0 <= i < p ==> r[i] == s[i]) &&
      (forall i :: p < i < |r| ==> r[i] == s[i - 1])
  {
  }

  lemma InsertDescending(x: Entry, s: seq<Entry>)
    requires Descending(s)
    ensures Descending(Insert(x, s))
  {
    var p, r := Slot(x, s, 0), Insert(x, s);
    InsertAt(x, s);
    forall i, j | 0 <= i < j < |r| ensures r[i].value >= r[j].value {
      if i < p && j == p {
      } else if i == p {
        assert s[p].value >= s[j - 1].value;
      }
    }
  }

  /** The sorted sequence is largest first. */
  lemma {:induction false} SortDescending(s: seq<Entry>)
    ensures Descending(SortByValue(s))
  {
    if s != [] {
      SortDescending(s[..|s| - 1]);
      InsertDescending(s[|s| - 1], SortByValue(s[..|s| - 1]));
    }
  }

  /** The position of the first `x` in `s` (`|s|` if there is none). */
  function Rank<T(==)>(s: seq<T>, x: T): (k: nat)
    ensures k <= |s|
    ensures k < |s| ==> s[k] == x
  {
    if s == [] then 0 else if s[0] == x then 0 else 1 + Rank(s[1..], x)
  }

  lemma {:induction false} RankAt<T(!new)>(s: seq<T>, k: nat)
    requires Distinct(s) && k < |s|
    ensures Rank(s, s[k]) == k
  {
    if k > 0 {
      assert s[1..][k - 1] == s[k] && s[0] != s[k];
      RankAt(s[1..], k - 1);
    }
  }

  lemma RankIn<T(!new)>(s: seq<T>, x: T)
    requires Distinct(s) && x in s
    ensures Rank(s, x) < |s|
  {
    var k :| 0 <= k < |s| && s[k] == x;
    RankAt(s, k);
  }

  /** Elements of equal value keep their order in `s`. */
  ghost predicate StableIn(s: seq<Entry>, r: seq<Entry>) {
    forall i, j :: 0 <= i < j < |r| && r[i].value == r[j].value ==> Rank(s, r[i]) < Rank(s, r[j])
  }

  /** Appending a new last element leaves the ranks of the others alone. */
  lemma RankSnoc(init: seq<Entry>, x: Entry, e: Entry)
    requires Distinct(init + [x])
    ensures Rank(init + [x], x) == |init|
    ensures e in init ==> Rank(init + [x], e) == Rank(init, e) < |init|
  {
    var s := init + [x];
    RankAt(s, |init|);
    if e in init {
      var k :| 0 <= k < |init| && init[k] == e;
      assert s[k] == e;
      RankAt(s, k);
      assert Distinct(init) by {
        assert forall a, b :: 0 <= a < b < |init| ==> init[a] == s[a] && init[b] == s[b];
      }
      RankAt(init, k);
    }
  }

  lemma InsertStable(init: seq<Entry>, x: Entry, t: seq<Entry>)
    requires Distinct(init + [x])
    requires Descending(t) && multiset(t) == multiset(init)
    requires StableIn(init, t)
    ensures StableIn(init + [x], Insert(x, t))
  {
    var s := init + [x];
    var p, r := Slot(x, t, 0), Insert(x, t);
    InsertAt(x, t);
    forall i, j | 0 <= i < j < |r| && r[i].value == r[j].value ensures Rank(s, r[i]) < Rank(s, r[j]) {
      if i == p {
        assert false;
      } else {
        var i' := if i < p then i else i - 1;
        assert r[i] == t[i'];
        assert t[i'] in multiset(init);
        RankSnoc(init, x, t[i']);
        if j != p {
          var j' := if j < p then j else j - 1;
          assert r[j] == t[j'] && i' < j';
          assert t[j'] in multiset(init);
          RankSnoc(init, x, t[j']);
        }
      }
    }
  }

  /** Elements of equal value come out in the order they went in. */
  lemma {:induction false} SortStable(s: seq<Entry>)
    requires Distinct(s)
    ensures StableIn(s, SortByValue(s))
  {
    if s != [] {
      var n := |s| - 1;
      var init := s[..n];
      assert s == init + [s[n]];
      assert Distinct(init);
      SortStable(init);
      SortDescending(init);
      InsertStable(init, s[n], SortByValue(init));
    }
  }

  lemma InsertSum(x: Entry, t: seq<Entry>, f: Entry -> real)
    ensures Sum(Column(Insert(x, t), f)) == Sum(Column(t, f)) + f(x)
  {
    var p := Slot(x, t, 0);
    var a, b := Column(t[..p], f), Column(t[p..], f);
    assert Column(Insert(x, t), f) == (a + [f(x)]) + b;
    assert Column(t, f) == a + b;
    SumConcat(a + [f(x)], b);
    SumConcat(a, [f(x)]);
    SumConcat(a, b);
    assert Sum([f(x)]) == SumTo([f(x)], 0) + f(x);
  }

  /** Sorting only rearranges: any column of the entries keeps its sum. */
  lemma {:induction false} SortSum(s: seq<Entry>, f: Entry -> real)
    ensures Sum(Column(SortByValue(s), f)) == Sum(Column(s, f))
  {
    if s != [] {
      var n := |s| - 1;
      SortSum(s[..n], f);
      InsertSum(s[n], SortByValue(s[..n]), f);
      var c, c0 := Column(s, f), Column(s[..n], f);
      SumToSame(c, c0, n);
    }
  }

  // ---------------------------------------------------------------------------
  // calculateDailyItemConsumption

  /** What `calculateDailyItemConsumption(items)` returns. */
  function Breakdown(items: seq<Record>): seq<Entry> {
    var t := Tally(items);
    SortByValue(Entries(t, Sum(TallyValues(t))))
  }

  /** `calculateDailyItemConsumption(items)`. */
  method CalculateDailyItemConsumption(items: seq<Record>) returns (result: seq<Entry>)
    ensures result == Breakdown(items)
  {
    var itemGroups := Tallies([], map[]);
    for i := 0 to |items|
      invariant itemGroups == Tally(items[..i])
    {
      assert items[..i + 1][..i] == items[..i];
      var item := items[i];
      assert Tally(items[..i + 1]) == Tally1(Tally(items[..i]), ItemName(item), Amount(item));
      var itemName := Get(item, ItemColumn);
      if !Truthy(itemName) {
        itemName := Str(UnknownItem);
      }
      var consumption := if Get(item, AmountColumn).Num? then Get(item, AmountColumn).n else 0.0;
      if itemName in itemGroups.sums {
        itemGroups := itemGroups.(sums := itemGroups.sums[itemName := itemGroups.sums[itemName] + consumption]);
      } else {
        itemGroups := Tallies(itemGroups.names + [itemName], itemGroups.sums[itemName := consumption]);
      }
    }
    assert items[..|items|] == items;
    var totalConsumption := Sum(TallyValues(itemGroups));
    result := SortByValue(Entries(itemGroups, totalConsumption));
  }

  /** An entry before sorting, described by the rows alone. */
  lemma EntryOf(items: seq<Record>, e: Entry)
    ensures var t := Tally(items);
      e in Entries(t, Sum(TallyValues(t))) <==>
        e.name in ItemNames(items) &&
        e.value == ColumnSum(Named(items, e.name), AmountColumn) &&
        e.percentage == Share(e.value, ColumnSum(items, AmountColumn))
  {
    var t := Tally(items);
    var es := Entries(t, Sum(TallyValues(t)));
    TallyTotal(items);
    TallyNames(items);
    TallySums(items, e.name);
    if e.name in t.sums && e.value == t.sums[e.name] && e.percentage == Share(e.value, Sum(TallyValues(t))) {
      var k :| 0 <= k < |t.names| && t.names[k] == e.name;
      assert es[k] == e;
    }
  }

  /** The result lists each item of the day, with the total of its rows and its share of
      the day's total (0 when that total is not positive), and nothing else. */
  lemma BreakdownEntries(items: seq<Record>)
    ensures var r, total := Breakdown(items), ColumnSum(items, AmountColumn);
      forall e :: e in r <==>
        e.name in ItemNames(items) &&
        e.value == ColumnSum(Named(items, e.name), AmountColumn) &&
        e.percentage == Share(e.value, total)
  {
    var r := Breakdown(items);
    forall e ensures e in r <==> e in multiset(r) {
    }
    forall e {
      EntryOf(items, e);
    }
  }

  /** No item name appears twice in the result. */
  lemma BreakdownNamesDistinct(items: seq<Record>)
    ensures var r := Breakdown(items);
      forall i, j :: 0 <= i < j < |r| ==> r[i].name != r[j].name
  {
    var t := Tally(items);
    var es := Entries(t, Sum(TallyValues(t)));
    var r := Breakdown(items);
    EntriesDistinct(t, Sum(TallyValues(t)));
    SortKeepsDistinct(es);
    forall i, j | 0 <= i < j < |r| ensures r[i].name != r[j].name {
      assert r[i] in multiset(es) && r[j] in multiset(es);
      var a :| 0 <= a < |es| && es[a] == r[i];
      var b :| 0 <= b < |es| && es[b] == r[j];
      assert r[i] != r[j];
    }
  }

  /** The result is largest value first, and items of equal value come in the order their
      names were first met among the rows. */
  lemma BreakdownOrder(items: seq<Record>)
    ensures var r, names := Breakdown(items), Tally(items).names;
      names == FirstOccurrences(NameKeys(items)) &&
      Descending(r) &&
      forall i, j :: 0 <= i < j < |r| && r[i].value == r[j].value ==> Rank(names, r[i].name) < Rank(names, r[j].name)
  {
    var t := Tally(items);
    var es := Entries(t, Sum(TallyValues(t)));
    var r := Breakdown(items);
    TallyOrder(items);
    SortDescending(es);
    EntriesDistinct(t, Sum(TallyValues(t)));
    SortStable(es);
    forall e | e in es ensures Rank(es, e) == Rank(t.names, e.name) {
      var k :| 0 <= k < |es| && es[k] == e;
      RankAt(es, k);
      RankAt(t.names, k);
    }
    forall i | 0 <= i < |r| ensures r[i] in es {
      assert r[i] in multiset(es);
    }
  }

  /** The values add up to the day's total, and when that total is positive the shares add
      up to one. */
  lemma BreakdownTotal(items: seq<Record>)
    ensures var r, total := Breakdown(items), ColumnSum(items, AmountColumn);
      Sum(Column(r, EntryValue)) == total &&
      (total > 0.0 ==> Sum(Column(r, EntryShare)) == 1.0)
  {
    var t := Tally(items);
    var total := Sum(TallyValues(t));
    var es := Entries(t, total);
    TallyTotal(items);
    SumToSame(Column(es, EntryValue), TallyValues(t), |es|);
    SortedTotals(es, total);
  }

  lemma SortedTotals(es: seq<Entry>, total: real)
    requires Sum(Column(es, EntryValue)) == total
    requires forall i :: 0 <= i < |es| ==> es[i].percentage == Share(es[i].value, total)
    ensures Sum(Column(SortByValue(es), EntryValue)) == total
    ensures total > 0.0 ==> Sum(Column(SortByValue(es), EntryShare)) == 1.0
  {
    SortSum(es, EntryValue);
    if total > 0.0 {
      SortedShares(es, total);
    }
  }

  lemma SortedShares(es: seq<Entry>, total: real)
    requires total > 0.0 && Sum(Column(es, EntryValue)) == total
    requires forall i :: 0 <= i < |es| ==> es[i].percentage == Share(es[i].value, total)
    ensures Sum(Column(SortByValue(es), EntryShare)) == 1.0
  {
    SharesAddUp(es, total);
    SortSum(es, EntryShare);
  }

  /** A rearrangement by the sort of distinct entries has no repetitions. */
  lemma {:induction false} SortKeepsDistinct(s: seq<Entry>)
    requires Distinct(s)
    ensures Distinct(SortByValue(s))
  {
    if s != [] {
      var n := |s| - 1;
      var init := s[..n];
      assert Distinct(init);
      SortKeepsDistinct(init);
      var t := SortByValue(init);
      assert s[n] !in init by {
        assert forall k :: 0 <= k < n ==> init[k] == s[k];
      }
      assert s[n] !in multiset(t);
      InsertDistinct(s[n], t);
    }
  }

  lemma InsertDistinct(x: Entry, t: seq<Entry>)
    requires Distinct(t) && x !in t
    ensures Distinct(Insert(x, t))
  {
    var p, r := Slot(x, t, 0), Insert(x, t);
    InsertAt(x, t);
    forall i, j | 0 <= i < j < |r| ensures r[i] != r[j] {
      var i' := if i < p then i else i - 1;
      var j' := if j < p then j else j - 1;
      if i != p && j != p {
        assert r[i] == t[i'] && r[j] == t[j'] && i' < j';
      } else if i == p {
        assert r[j] == t[j'];
      } else {
        assert r[i] == t[i'];
      }
    }
  }

  /** The entries have distinct names, so no two of them are equal. */
  lemma EntriesDistinct(t: Tallies, total: real)
    requires WellFormed(t)
    ensures Distinct(Entries(t, total))
  {
  }
}
