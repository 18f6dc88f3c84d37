/**
 * Python values as the pipeline sees them in dataset rows, JSON objects and
 * result dictionaries, insertion-ordered dictionaries, and a column-oriented
 * model of a pandas DataFrame.
 */
module PyValues {
  import opened Wrappers
  import opened Text

  /**
   * A cell or dictionary value: Python `None`, a pandas missing value (`NaN`),
   * an integer or a string.
   */
  datatype Value = VNone | VNaN | VInt(i: int) | VStr(s: string)

  /** Python's `bool(v)`; `NaN` is truthy. */
  predicate Truthy(v: Value) {
    match v
    case VNone => false
    case VNaN => true
    case VInt(i) => i != 0
    case VStr(s) => s != ""
  }

  /** Python's `str(v)`. */
  function ToStr(v: Value): string {
    match v
    case VNone => "None"
    case VNaN => "nan"
    case VInt(i) => IntToString(i)
    case VStr(s) => s
  }

  /** Python's `a == b`; `NaN` equals nothing, not even itself. */
  predicate PyEq(a: Value, b: Value) {
    a == b && !a.VNaN?
  }

  /** Python's `v in values` for a list. */
  predicate PyIn(v: Value, values: seq<Value>) {
    exists i | 0 <= i < |values| :: PyEq(v, values[i])
  }

  // ---------------------------------------------------------------- ordered dictionaries

  /** An insertion-ordered Python dict with string keys. */
  type Dict<V> = seq<(string, V)>

  function Keys<V>(d: Dict<V>): (ks: seq<string>)
    ensures |ks| == |d|
    ensures forall i :: 0 <= i < |d| ==> ks[i] == d[i].0
  {
    if d == [] then [] else [d[0].0] + Keys(d[1..])
  }

  predicate DistinctStrings(s: seq<string>) {
    forall i, j :: 0 <= i < j < |s| ==> s[i] != s[j]
  }

  /** No element occurs twice, as in the positions `random.sample` draws. */
  predicate Distinct<T(==)>(s: seq<T>) {
    forall i, j :: 0 <= i < j < |s| ==> s[i] != s[j]
  }

  predicate DistinctKeys<V>(d: Dict<V>) {
    DistinctStrings(Keys(d))
  }

  /** Python's `d.get(k)`. */
  function Get<V>(d: Dict<V>, k: string): Option<V> {
    if d == [] then None else if d[0].0 == k then Some(d[0].1) else Get(d[1..], k)
  }

  /** `d.get(k)` finds a value exactly when `k` is a key of `d`. */
  lemma {:induction false} GetSome<V>(d: Dict<V>, k: string)
    ensures Get(d, k).Some? <==> k in Keys(d)
  {
    if d != [] {
      assert Keys(d) == [d[0].0] + Keys(d[1..]);
      GetSome(d[1..], k);
    }
  }

  /** Python's `d.get(k, default)`. */
  function GetOr<V>(d: Dict<V>, k: string, default: V): V {
    Get(d, k).GetOr(default)
  }

  /** Python's `d[k] = v`: an existing key keeps its place, a new key goes last. */
  function Put<V>(d: Dict<V>, k: string, v: V): Dict<V> {
    if d == [] then [(k, v)]
    else if d[0].0 == k then [(k, v)] + d[1..]
    else [d[0]] + Put(d[1..], k, v)
  }

  /** After `d[k] = v`, `d[k]` is `v` and every other key keeps its value. */
  lemma {:induction false} PutGet<V>(d: Dict<V>, k: string, v: V)
    ensures Get(Put(d, k, v), k) == Some(v)
    ensures forall j :: j != k ==> Get(Put(d, k, v), j) == Get(d, j)
  {
    if d != [] && d[0].0 != k {
      PutGet(d[1..], k, v);
    }
  }

  /** `d.get(j)` after `d[k] = v`, for one key `j`. */
  lemma PutGetAt<V>(d: Dict<V>, k: string, v: V, j: string)
    ensures Get(Put(d, k, v), j) == if j == k then Some(v) else Get(d, j)
  {
    PutGet(d, k, v);
  }

  /** A `d.get(j)` known before `d[k] = v` gives the one after it. */
  lemma PutGetFrom<V>(d: Dict<V>, k: string, v: V, j: string, before: Option<V>, after: Option<V>)
    requires Get(d, j) == before
    requires after == if k == j then Some(v) else before
    ensures Get(Put(d, k, v), j) == after
  {
    PutGetAt(d, k, v, j);
  }

  /** `d[k] = v` keeps the key order and adds `k` at the end only when it is new. */
  lemma {:induction false} PutKeys<V>(d: Dict<V>, k: string, v: V)
    ensures Keys(Put(d, k, v)) == if k in Keys(d) then Keys(d) else Keys(d) + [k]
  {
    if d != [] {
      assert Keys(d) == [d[0].0] + Keys(d[1..]);
      if d[0].0 != k {
        PutKeys(d[1..], k, v);
        assert Keys(Put(d, k, v)) == [d[0].0] + Keys(Put(d[1..], k, v));
      } else {
        assert Keys(Put(d, k, v)) == [k] + Keys(d[1..]);
      }
    }
  }

  /** `d[k] = v` keeps the keys distinct. */
  lemma PutDistinct<V>(d: Dict<V>, k: string, v: V)
    requires DistinctKeys(d)
    ensures DistinctKeys(Put(d, k, v))
  {
    PutKeys(d, k, v);
  }

  /** `d[k] = v` for a key not yet in `d` appends the pair at the end. */
  lemma {:induction false} PutNew<V>(d: Dict<V>, k: string, v: V)
    requires k !in Keys(d)
    ensures Put(d, k, v) == d + [(k, v)]
  {
    if d != [] {
      assert Keys(d) == [d[0].0] + Keys(d[1..]);
      PutNew(d[1..], k, v);
      assert [d[0]] + (d[1..] + [(k, v)]) == d + [(k, v)];
    }
  }

  /** `d[k] = v` for a new key `k` keeps every entry in place and adds `(k, v)` last. */
  lemma {:induction false} PutNewAt<V>(d: Dict<V>, k: string, v: V, i: nat)
    requires k !in Keys(d) && i <= |d|
    ensures |Put(d, k, v)| == |d| + 1
    ensures Put(d, k, v)[i] == if i == |d| then (k, v) else d[i]
  {
    if d != [] {
      assert Keys(d) == [d[0].0] + Keys(d[1..]);
      if i > 0 {
        PutNewAt(d[1..], k, v, i - 1);
      } else {
        PutNewAt(d[1..], k, v, 0);
      }
    }
  }

  /** In a dictionary without repeated keys, each key looks up its own entry. */
  lemma GetDistinct<V>(d: Dict<V>, i: nat)
    requires DistinctKeys(d) && i < |d|
    ensures Get(d, d[i].0) == Some(d[i].1)
  {
    assert forall j :: 0 <= j < i ==> Keys(d)[j] != Keys(d)[i];
    GetFirst(d, d[i].0, i);
  }

  /** In a dictionary without repeated keys, the entry `(k, v)` is found by `k`. */
  lemma GetDistinctKey<V>(d: Dict<V>, i: nat, k: string, v: V)
    requires DistinctKeys(d) && i < |d| && d[i] == (k, v)
    ensures Get(d, k) == Some(v)
  {
    GetDistinct(d, i);
  }

  // ---------------------------------------------------------------- data frames

  /** The position of `x` in `s`, which must occur there. */
  function IndexOf(s: seq<string>, x: string): (i: nat)
    requires x in s
    ensures i < |s| && s[i] == x
    ensures forall j :: 0 <= j < i ==> s[j] != x
  {
    if s[0] == x then 0 else 1 + IndexOf(s[1..], x)
  }

  /**
   * A pandas DataFrame: its column names in order, the cells of each column
   * (`cells[i]` belongs to `columns[i]`), and the number of rows. Rows are
   * addressed by their position in the frame loaded from disk, which is also
   * their index label.
   */
  datatype Frame = Frame(columns: seq<string>, cells: seq<seq<Value>>, height: nat) {
    ghost predicate Valid() {
      DistinctStrings(columns)
      && |cells| == |columns|
      && forall i :: 0 <= i < |cells| ==> |cells[i]| == height
    }

    /** `df[column][k]`. */
    function Cell(column: string, k: nat): Value
      requires Valid() && column in columns && k < height
    {
      cells[IndexOf(columns, column)][k]
    }

    /** Python's `row.to_dict()` for the row at position `k`. */
    function Row(k: nat): (r: Dict<Value>)
      requires Valid() && k < height
      ensures Keys(r) == columns
      ensures |r| == |columns| && forall i :: 0 <= i < |columns| ==> r[i] == (columns[i], cells[i][k])
    {
      seq(|columns|, i requires 0 <= i < |columns| => (columns[i], cells[i][k]))
    }
  }

  /** Looking a column up in a row gives that column's cell. */
  lemma RowGet(f: Frame, k: nat, c: string)
    requires f.Valid() && k < f.height
    ensures Get(f.Row(k), c) == if c in f.columns then Some(f.Cell(c, k)) else None
  {
    if c in f.columns {
      GetFirst(f.Row(k), c, IndexOf(f.columns, c));
    } else {
      GetSome(f.Row(k), c);
    }
  }

  lemma {:induction false} GetFirst<V>(d: Dict<V>, k: string, i: nat)
    requires i < |d| && d[i].0 == k
    requires forall j :: 0 <= j < i ==> d[j].0 != k
    ensures Get(d, k) == Some(d[i].1)
  {
    if i > 0 {
      GetFirst(d[1..], k, i - 1);
    }
  }
}
