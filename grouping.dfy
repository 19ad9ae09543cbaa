/** `groupDataByDate` and `groupDataByPaymentLevel`: rows are bucketed into a JavaScript
    `Map`, by canonical date key and by the literal payment-tier cell. A `Map` remembers
    the order in which its keys were first set; `Groups` keeps that order explicitly. */
module Grouping {
  import opened Text
  import opened Records
  import opened Dates

  /** A JavaScript `Map<K, T[]>`: the keys in insertion order and the array under each key. */
  datatype Groups<K(==, !new), T> = Groups(keys: seq<K>, buckets: map<K, seq<T>>)

  predicate Distinct<K(==, !new)>(ks: seq<K>) {
    forall i, j :: 0 <= i < j < |ks| ==> ks[i] != ks[j]
  }

  /** The key order lists each key of the map exactly once. */
  ghost predicate Valid<K(!new), T>(g: Groups<K, T>) {
    Distinct(g.keys) && forall k :: k in g.buckets <==> k in g.keys
  }

  /** `if (!m.has(k)) m.set(k, []); m.get(k).push(x)`. */
  function Add<K(==, !new), T>(g: Groups<K, T>, k: K, x: T): (r: Groups<K, T>)
    requires Valid(g)
    ensures Valid(r)
  {
    if k in g.buckets then Groups(g.keys, g.buckets[k := g.buckets[k] + [x]])
    else Groups(g.keys + [k], g.buckets[k := [x]])
  }

  /** The keys that are present (`Some`), each once, in order of first appearance. */
  function FirstOccurrences<K(==, !new)>(ks: seq<Option<K>>): (r: seq<K>)
  {
    if ks == [] then []
    else
      var p := FirstOccurrences(ks[..|ks| - 1]);
      match ks[|ks| - 1]
      case None => p
      case Some(k) => if k in p then p else p + [k]
  }

  /** The elements whose key is `k`, in their original order. */
  function Bucket<K(==, !new), T>(xs: seq<T>, ks: seq<Option<K>>, k: K): seq<T>
    requires |xs| == |ks|
  {
    if xs == [] then []
    else Bucket(xs[..|xs| - 1], ks[..|ks| - 1], k) + (if ks[|ks| - 1] == Some(k) then [xs[|xs| - 1]] else [])
  }

  /** What grouping `xs` by the keys `ks` (`None`: the element is skipped) yields. */
  function GroupSpec<K(==, !new), T>(xs: seq<T>, ks: seq<Option<K>>): Groups<K, T>
    requires |xs| == |ks|
  {
    var keys := FirstOccurrences(ks);
    Groups(keys, map k | k in keys :: Bucket(xs, ks, k))
  }

  /** The key order has no repetitions and holds exactly the keys that occur. */
  lemma {:induction false} FirstOccurrencesProps<K(!new)>(ks: seq<Option<K>>)
    ensures Distinct(FirstOccurrences(ks))
    ensures forall k :: k in FirstOccurrences(ks) <==> Some(k) in ks
  {
    if ks != [] {
      var init := ks[..|ks| - 1];
      FirstOccurrencesProps(init);
      assert ks == init + [ks[|ks| - 1]];
    }
  }

  /** An element is in bucket `k` exactly when it stands at a position whose key is `k`. */
  lemma {:induction false} BucketMembers<K(!new), T>(xs: seq<T>, ks: seq<Option<K>>, k: K, x: T)
    requires |xs| == |ks|
    ensures x in Bucket(xs, ks, k) <==> exists i :: 0 <= i < |xs| && ks[i] == Some(k) && xs[i] == x
  {
    if xs != [] {
      var n := |xs| - 1;
      BucketMembers(xs[..n], ks[..n], k, x);
      if x in Bucket(xs, ks, k) && !(x in Bucket(xs[..n], ks[..n], k)) {
        assert ks[n] == Some(k) && xs[n] == x;
      }
      if exists i :: 0 <= i < |xs| && ks[i] == Some(k) && xs[i] == x {
        var i :| 0 <= i < |xs| && ks[i] == Some(k) && xs[i] == x;
        if i < n {
          assert ks[..n][i] == Some(k) && xs[..n][i] == x;
        }
      }
    }
  }

  lemma {:induction false} BucketAbsent<K(!new), T>(xs: seq<T>, ks: seq<Option<K>>, k: K)
    requires |xs| == |ks|
    requires Some(k) !in ks
    ensures Bucket(xs, ks, k) == []
  {
    if xs != [] {
      assert forall i :: 0 <= i < |ks| - 1 ==> ks[..|ks| - 1][i] == ks[i];
      BucketAbsent(xs[..|xs| - 1], ks[..|ks| - 1], k);
    }
  }

  lemma {:induction false} BucketNonEmpty<K(!new), T>(xs: seq<T>, ks: seq<Option<K>>, k: K)
    requires |xs| == |ks|
    requires Some(k) in ks
    ensures |Bucket(xs, ks, k)| > 0
  {
    var i :| 0 <= i < |ks| && ks[i] == Some(k);
    BucketMembers(xs, ks, k, xs[i]);
  }

  /** Grouping one more element is one more `Add` (or nothing, for an element without key). */
  lemma BucketStep<K(!new), T>(xs: seq<T>, ks: seq<Option<K>>, x: T, k: Option<K>, j: K)
    requires |xs| == |ks|
    ensures Bucket(xs + [x], ks + [k], j) == Bucket(xs, ks, j) + (if k == Some(j) then [x] else [])
  {
    assert (xs + [x])[..|xs|] == xs && (ks + [k])[..|ks|] == ks;
  }

  lemma GroupStep<K(!new), T>(xs: seq<T>, ks: seq<Option<K>>, x: T, k: Option<K>)
    requires |xs| == |ks|
    ensures Valid(GroupSpec(xs, ks))
    ensures GroupSpec(xs + [x], ks + [k]) ==
      (if k.Some? then Add(GroupSpec(xs, ks), k.value, x) else GroupSpec(xs, ks))
  {
    var xs', ks' := xs + [x], ks + [k];
    assert ks'[..|ks'| - 1] == ks;
    FirstOccurrencesProps(ks);
    var g, g' := GroupSpec(xs, ks), GroupSpec(xs', ks');
    var r := if k.Some? then Add(g, k.value, x) else g;
    assert g'.keys == r.keys;
    forall j | j in g'.keys ensures j in r.buckets && g'.buckets[j] == r.buckets[j] {
      BucketStep(xs, ks, x, k, j);
      if j !in g.keys {
        BucketAbsent(xs, ks, j);
      }
    }
  }

  /** Grouping the whole sequence, with the facts the lemmas above give. */
  lemma GroupSpecValid<K(!new), T>(xs: seq<T>, ks: seq<Option<K>>)
    requires |xs| == |ks|
    ensures Valid(GroupSpec(xs, ks))
    ensures forall k :: k in GroupSpec(xs, ks).buckets <==> Some(k) in ks
  {
    FirstOccurrencesProps(ks);
  }

  // ---------------------------------------------------------------------------
  // the buckets partition the keyed elements

  /** Number of elements that have a key. */
  function KeyedCount<K(==, !new)>(ks: seq<Option<K>>): nat {
    if ks == [] then 0 else KeyedCount(ks[..|ks| - 1]) + (if ks[|ks| - 1].Some? then 1 else 0)
  }

  /** Total length of the buckets listed in `keys`. */
  function SizeOver<K(==, !new), T>(keys: seq<K>, buckets: map<K, seq<T>>): nat
    requires forall k :: k in keys ==> k in buckets
  {
    if keys == [] then 0 else SizeOver(keys[..|keys| - 1], buckets) + |buckets[keys[|keys| - 1]]|
  }

  lemma {:induction false} SizeOverUpdate<K(!new), T>(keys: seq<K>, buckets: map<K, seq<T>>, k: K, v: seq<T>)
    requires forall j :: j in keys ==> j in buckets
    requires Distinct(keys) && k in keys
    ensures SizeOver(keys, buckets[k := v]) + |buckets[k]| == SizeOver(keys, buckets) + |v|
  {
    var n := |keys| - 1;
    var init := keys[..n];
    assert forall j :: j in init ==> j in keys;
    if keys[n] == k {
      assert forall i :: 0 <= i < n ==> init[i] == keys[i] && keys[i] != keys[n];
      SizeOverSame(init, buckets, k, v);
    } else {
      assert k in init by {
        var i :| 0 <= i < |keys| && keys[i] == k;
        assert i < n && init[i] == k;
      }
      SizeOverUpdate(init, buckets, k, v);
    }
  }

  lemma {:induction false} SizeOverSame<K(!new), T>(keys: seq<K>, buckets: map<K, seq<T>>, k: K, v: seq<T>)
    requires forall j :: j in keys ==> j in buckets
    requires k !in keys
    ensures SizeOver(keys, buckets[k := v]) == SizeOver(keys, buckets)
  {
    if keys != [] {
      var init := keys[..|keys| - 1];
      assert forall j :: j in init ==> j in keys;
      SizeOverSame(init, buckets, k, v);
    }
  }

  /** Every keyed element sits in exactly one bucket: the bucket sizes add up to the number
      of keyed elements (and each bucket holds only elements of its key, `BucketMembers`). */
  lemma {:induction false} PartitionCount<K(!new), T>(xs: seq<T>, ks: seq<Option<K>>)
    requires |xs| == |ks|
    ensures Valid(GroupSpec(xs, ks)) &&
      SizeOver(GroupSpec(xs, ks).keys, GroupSpec(xs, ks).buckets) == KeyedCount(ks)
  {
    GroupSpecValid(xs, ks);
    if xs != [] {
      var n := |xs| - 1;
      var xs0, ks0 := xs[..n], ks[..n];
      assert xs == xs0 + [xs[n]] && ks == ks0 + [ks[n]];
      PartitionCount(xs0, ks0);
      GroupStep(xs0, ks0, xs[n], ks[n]);
      var g := GroupSpec(xs0, ks0);
      GroupSpecValid(xs0, ks0);
      if ks[n].Some? {
        var k := ks[n].value;
        if k in g.buckets {
          SizeOverUpdate(g.keys, g.buckets, k, g.buckets[k] + [xs[n]]);
        } else {
          var g' := Add(g, k, xs[n]);
          assert g'.keys[..|g'.keys| - 1] == g.keys;
          SizeOverSame(g.keys, g.buckets, k, [xs[n]]);
        }
      }
    }
  }

  // ---------------------------------------------------------------------------
  // groupDataByDate

  /** The rows this model can read: a string date cell must be one `parseDate` handles. */
  predicate DateReadable(r: Record) {
    Get(r, DateColumn).Str? ==> Parsable(Get(r, DateColumn).s)
  }

  /** The bucket a row goes to: its canonical date key when its date cell is a string,
      none otherwise. */
  function DateKeyOf(r: Record, today: Date): Option<string>
    requires DateReadable(r) && ValidDate(today)
  {
    match Get(r, DateColumn)
    case Str(s) => Some(DateKey(s, today))
    case _ => None
  }

  function DateKeys(data: seq<Record>, today: Date): (ks: seq<Option<string>>)
    requires ValidDate(today)
    requires forall i :: 0 <= i < |data| ==> DateReadable(data[i])
    ensures |ks| == |data|
    ensures forall i :: 0 <= i < |data| ==> ks[i] == DateKeyOf(data[i], today)
  {
    if data == [] then [] else DateKeys(data[..|data| - 1], today) + [DateKeyOf(data[|data| - 1], today)]
  }

  /** `groupDataByDate(data)`. */
  method GroupDataByDate(data: seq<Record>, today: Date) returns (g: Groups<string, Record>)
    requires ValidDate(today)
    requires forall i :: 0 <= i < |data| ==> DateReadable(data[i])
    ensures Valid(g)
    ensures g == GroupSpec(data, DateKeys(data, today))
  {
    g := Groups([], map[]);
    var i := 0;
    while i < |data|
      invariant 0 <= i <= |data|
      invariant g == GroupSpec(data[..i], DateKeys(data[..i], today))
    {
      var item := data[i];
      assert data[..i + 1] == data[..i] + [item];
      assert DateKeys(data[..i + 1], today) == DateKeys(data[..i], today) + [DateKeyOf(item, today)];
      GroupStep(data[..i], DateKeys(data[..i], today), item, DateKeyOf(item, today));
      var cell := Get(item, DateColumn);
      if cell.Str? {
        var dateKey := FormatDate(ParseDate(cell.s, today));
        g := Add(g, dateKey, item);
      }
      i := i + 1;
    }
    assert data[..i] == data;
    GroupSpecValid(data, DateKeys(data, today));
  }

  /** The date buckets are keyed by exactly the canonical keys of the string-dated rows. */
  lemma DateBucketKeys(data: seq<Record>, today: Date)
    requires ValidDate(today)
    requires forall i :: 0 <= i < |data| ==> DateReadable(data[i])
    ensures var g := GroupSpec(data, DateKeys(data, today));
      forall key :: key in g.buckets <==> exists i :: 0 <= i < |data| && DateKeyOf(data[i], today) == Some(key)
  {
    var ks := DateKeys(data, today);
    GroupSpecValid(data, ks);
    forall key ensures Some(key) in ks <==> exists i :: 0 <= i < |data| && DateKeyOf(data[i], today) == Some(key) {
      if Some(key) in ks {
        var i :| 0 <= i < |ks| && ks[i] == Some(key);
        assert DateKeyOf(data[i], today) == Some(key);
      }
    }
  }

  /** Each date bucket holds exactly the rows whose canonical date key is its key. */
  lemma DateBucketContents(data: seq<Record>, today: Date, key: string)
    requires ValidDate(today)
    requires forall i :: 0 <= i < |data| ==> DateReadable(data[i])
    requires key in GroupSpec(data, DateKeys(data, today)).buckets
    ensures var g := GroupSpec(data, DateKeys(data, today));
      forall x :: x in g.buckets[key] <==>
        exists i :: 0 <= i < |data| && data[i] == x && DateKeyOf(data[i], today) == Some(key)
  {
    var ks := DateKeys(data, today);
    forall x ensures x in Bucket(data, ks, key) <==>
      exists i :: 0 <= i < |data| && data[i] == x && DateKeyOf(data[i], today) == Some(key)
    {
      BucketMembers(data, ks, key, x);
    }
  }

  /** A row whose date cell is not a string is in no bucket. */
  lemma UndatedRowsSkipped(data: seq<Record>, today: Date, i: int)
    requires ValidDate(today)
    requires forall j :: 0 <= j < |data| ==> DateReadable(data[j])
    requires 0 <= i < |data| && !Get(data[i], DateColumn).Str?
    ensures var g := GroupSpec(data, DateKeys(data, today));
      forall key :: key in g.buckets ==> data[i] !in g.buckets[key]
  {
    var ks := DateKeys(data, today);
    var g := GroupSpec(data, ks);
    forall key | key in g.buckets ensures data[i] !in g.buckets[key] {
      BucketMembers(data, ks, key, data[i]);
    }
  }

  // ---------------------------------------------------------------------------
  // groupDataByPaymentLevel

  /** The bucket a row goes to: its tier cell as it is (a `Map` key keeps its type, and a
      missing tier is the key `undefined`). */
  function TierKeys(data: seq<Record>): (ks: seq<Option<Cell>>)
    ensures |ks| == |data|
    ensures forall i :: 0 <= i < |data| ==> ks[i] == Some(Get(data[i], TierColumn))
  {
    if data == [] then [] else TierKeys(data[..|data| - 1]) + [Some(Get(data[|data| - 1], TierColumn))]
  }

  /** `groupDataByPaymentLevel(data)`. */
  method GroupDataByPaymentLevel(data: seq<Record>) returns (g: Groups<Cell, Record>)
    ensures Valid(g)
    ensures g == GroupSpec(data, TierKeys(data))
  {
    g := Groups([], map[]);
    var i := 0;
    while i < |data|
      invariant 0 <= i <= |data|
      invariant g == GroupSpec(data[..i], TierKeys(data[..i]))
    {
      var item := data[i];
      assert data[..i + 1] == data[..i] + [item];
      assert TierKeys(data[..i + 1]) == TierKeys(data[..i]) + [Some(Get(item, TierColumn))];
      GroupStep(data[..i], TierKeys(data[..i]), item, Some(Get(item, TierColumn)));
      var paymentLevel := Get(item, TierColumn);
      g := Add(g, paymentLevel, item);
      i := i + 1;
    }
    assert data[..i] == data;
    GroupSpecValid(data, TierKeys(data));
  }

  lemma {:induction false} AllKeyed<K(!new)>(ks: seq<Option<K>>)
    requires forall i :: 0 <= i < |ks| ==> ks[i].Some?
    ensures KeyedCount(ks) == |ks|
  {
    if ks != [] {
      AllKeyed(ks[..|ks| - 1]);
    }
  }

  /** Every row is in exactly one tier bucket, the one of its literal tier cell: the bucket
      sizes add up to the number of rows. */
  lemma TierPartition(data: seq<Record>)
    ensures var g := GroupSpec(data, TierKeys(data));
      Valid(g) && SizeOver(g.keys, g.buckets) == |data| &&
      forall i :: 0 <= i < |data| ==>
        Get(data[i], TierColumn) in g.buckets && data[i] in g.buckets[Get(data[i], TierColumn)]
  {
    var ks := TierKeys(data);
    PartitionCount(data, ks);
    AllKeyed(ks);
    GroupSpecValid(data, ks);
    forall i | 0 <= i < |data|
      ensures data[i] in GroupSpec(data, ks).buckets[Get(data[i], TierColumn)]
    {
      assert ks[i] == Some(Get(data[i], TierColumn));
      BucketMembers(data, ks, Get(data[i], TierColumn), data[i]);
    }
  }
}
