/** The loosely typed rows the analyser works on (`CSVData`), the column names it reads,
    the five payment tiers, and the (date, value) points of a daily series. */
module Records {

  /** One cell of a row: a string, a number, or JavaScript's `undefined` (a column the
      row did not fill). */
  datatype Cell = Str(s: string) | Num(n: real) | Undef

  type Record = map<string, Cell>

  /** `item[col]`: a column the row does not have reads as `undefined`. */
  function Get(r: Record, col: string): (c: Cell)
    ensures col !in r ==> c == Undef
  {
    if col in r then r[col] else Undef
  }

  const DateColumn: string := "日期"
  const TierColumn: string := "付费区间"
  const AmountColumn: string := "天玉消耗额"
  const RoleCountColumn: string := "角色数"
  const ItemColumn: string := "物品名称"

  /** The five payment tiers, in the order the analyser iterates them. */
  const Levels: seq<string> := ["土豪", "大R", "中R", "小R", "平民"]

  /** `typeof c === 'number' ? c : 0`. */
  function NumberOrZero(c: Cell): real {
    if c.Num? then c.n else 0.0
  }

  /** Sum of a column over rows, left to right, a cell that is not a number counting 0. */
  function ColumnSum(items: seq<Record>, col: string): real {
    if items == [] then 0.0
    else ColumnSum(items[..|items| - 1], col) + NumberOrZero(Get(items[|items| - 1], col))
  }

  lemma {:induction false} ColumnSumAppend(a: seq<Record>, b: seq<Record>, col: string)
    ensures ColumnSum(a + b, col) == ColumnSum(a, col) + ColumnSum(b, col)
    decreases |b|
  {
    if b == [] {
      assert a + b == a;
    } else {
      assert (a + b)[..|a + b| - 1] == a + b[..|b| - 1];
      ColumnSumAppend(a, b[..|b| - 1], col);
    }
  }

  /** `items.filter(item => item[TierColumn] === level)`. */
  function WithTier(items: seq<Record>, level: string): (r: seq<Record>)
    ensures |r| <= |items|
    ensures forall x :: x in r <==> x in items && Get(x, TierColumn) == Str(level)
  {
    if items == [] then []
    else
      var last := items[|items| - 1];
      WithTier(items[..|items| - 1], level) + (if Get(last, TierColumn) == Str(level) then [last] else [])
  }

  /** One point of a daily series. */
  datatype Point = Point(date: string, value: real)

  /** `data.map(item => item.value)`. */
  function Values(ps: seq<Point>): (vs: seq<real>)
    ensures |vs| == |ps|
    ensures forall i :: 0 <= i < |ps| ==> vs[i] == ps[i].value
  {
    seq(|ps|, i requires 0 <= i < |ps| => ps[i].value)
  }

  /** `data.map(item => item.date)`. */
  function PointDates(ps: seq<Point>): (ds: seq<string>)
    ensures |ds| == |ps|
    ensures forall i :: 0 <= i < |ps| ==> ds[i] == ps[i].date
  {
    seq(|ps|, i requires 0 <= i < |ps| => ps[i].date)
  }

  /** The first `k` numbers added left to right, from 0 (`reduce((sum, v) => sum + v, 0)`
      stopped after `k` steps). */
  function SumTo(vs: seq<real>, k: nat): real
    requires k <= |vs|
  {
    if k == 0 then 0.0 else SumTo(vs, k - 1) + vs[k - 1]
  }

  /** The sum of all the numbers, left to right. */
  function Sum(vs: seq<real>): real {
    SumTo(vs, |vs|)
  }

  // ---------------------------------------------------------------------------
  // filling a plain object key by key

  /** An object filled by `obj[keys[i]] = vals[i]` for the first `k` indices in turn. */
  function AssignTo<V>(keys: seq<string>, vals: seq<V>, k: nat): map<string, V>
    requires k <= |keys| && k <= |vals|
  {
    if k == 0 then map[] else AssignTo(keys, vals, k - 1)[keys[k - 1] := vals[k - 1]]
  }

  /** The keys of the first `k` indices. */
  function KeysTo(keys: seq<string>, k: nat): set<string>
    requires k <= |keys|
  {
    set i | 0 <= i < k :: keys[i]
  }

  lemma KeysToAll(keys: seq<string>)
    ensures forall x :: x in KeysTo(keys, |keys|) <==> x in keys
  {
  }

  /** The object holds exactly the keys it was given. */
  lemma {:induction false} AssignToKeys<V>(keys: seq<string>, vals: seq<V>, k: nat)
    requires k <= |keys| && k <= |vals|
    ensures AssignTo(keys, vals, k).Keys == KeysTo(keys, k)
  {
    if k > 0 {
      AssignToKeys(keys, vals, k - 1);
      assert KeysTo(keys, k) == KeysTo(keys, k - 1) + {keys[k - 1]};
    }
  }

  /** A key no later index repeats keeps its own value. */
  lemma {:induction false} AssignToAt<V>(keys: seq<string>, vals: seq<V>, k: nat, i: nat)
    requires i < k <= |keys| && k <= |vals|
    requires forall j :: i < j < k ==> keys[j] != keys[i]
    ensures keys[i] in AssignTo(keys, vals, k) && AssignTo(keys, vals, k)[keys[i]] == vals[i]
  {
    if i < k - 1 {
      AssignToAt(keys, vals, k - 1, i);
    }
  }

  /** One more assignment. */
  lemma AssignToStep<V>(keys: seq<string>, vals: seq<V>, k: nat)
    requires k < |keys| && k < |vals|
    ensures AssignTo(keys, vals, k + 1) == AssignTo(keys, vals, k)[keys[k] := vals[k]]
  {
  }

  /** Extending the values leaves the first `k` assignments alone. */
  lemma {:induction false} AssignToSame<V>(keys: seq<string>, vals: seq<V>, v: V, k: nat)
    requires k <= |keys| && k <= |vals|
    ensures AssignTo(keys, vals + [v], k) == AssignTo(keys, vals, k)
  {
    if k > 0 {
      AssignToSame(keys, vals, v, k - 1);
      assert (vals + [v])[k - 1] == vals[k - 1];
    }
  }
}
