/**
 * The earlier raw-dataset loader (src/dataset_loader_backup.py): the
 * `persona_json` column of each row expanded into columns of its own (all-digit
 * keys renamed `question_<key>`), personas whose id comes from the first id
 * column present, a summary of a persona, filters with case-insensitive text
 * matching, and the grouping of fields into keyword categories.
 */
module DatasetLoaderBackup {
  import opened Wrappers
  import opened Text
  import opened PyValues
  import Processed = DatasetLoader

  type Persona = Processed.Persona

  // ---------------------------------------------------------------- summary

  const KeyFields: seq<string> := ["age", "gender", "occupation", "education", "location",
                                   "interests", "personality", "background"]

  /** The field is present and truthy. */
  predicate Given(data: Dict<Value>, field: string) {
    Get(data, field).Some? && Truthy(Get(data, field).value)
  }

  /** The `Field: value` line of a key field, when it is present and truthy. */
  function KeyLine(data: Dict<Value>, field: string): (r: seq<string>)
    ensures |r| <= 1
    ensures |r| == 1 <==> Given(data, field)
    ensures |r| == 1 ==> r[0] == Capitalize(field) + ": " + ToStr(Get(data, field).value)
  {
    match Get(data, field)
    case Some(v) => if Truthy(v) then [Capitalize(field) + ": " + ToStr(v)] else []
    case None => []
  }

  /** The lines of the first `n` key fields, in order. */
  function KeyLines(data: Dict<Value>, fields: seq<string>, n: nat): seq<string>
    requires n <= |fields|
  {
    if n == 0 then [] else KeyLines(data, fields, n - 1) + KeyLine(data, fields[n - 1])
  }

  /** The `key: value` line of an entry whose value is a string shorter than 200 characters. */
  function ShortLine(entry: (string, Value)): seq<string> {
    if entry.1.VStr? && |entry.1.s| < 200 then [entry.0 + ": " + entry.1.s] else []
  }

  /** The lines of the first `n` entries of the data. */
  function ShortLines(data: Dict<Value>, n: nat): seq<string>
    requires n <= |data|
  {
    if n == 0 then [] else ShortLines(data, n - 1) + ShortLine(data[n - 1])
  }

  /** `get_summary`, with Python's printed form of the data as `shown`. */
  function SummaryOf(data: Dict<Value>, shown: string): string {
    var keyLines := KeyLines(data, KeyFields, |KeyFields|);
    var shortLines := ShortLines(data, |data|);
    if |keyLines| > 0 then Join(keyLines, "\n")
    else if |shortLines| > 0 then Join(shortLines, "\n")
    else shown
  }

  /** Some key field gives a line exactly when one of them is present and truthy. */
  lemma {:induction false} KeyLinesEmpty(data: Dict<Value>, fields: seq<string>, n: nat)
    requires n <= |fields|
    ensures |KeyLines(data, fields, n)| == 0 <==> forall i :: 0 <= i < n ==> !Given(data, fields[i])
  {
    if n > 0 {
      KeyLinesEmpty(data, fields, n - 1);
    }
  }

  /** There are fallback lines exactly when some value is a string shorter than 200 characters. */
  lemma {:induction false} ShortLinesEmpty(data: Dict<Value>, n: nat)
    requires n <= |data|
    ensures |ShortLines(data, n)| == 0 <==> forall i :: 0 <= i < n ==> !(data[i].1.VStr? && |data[i].1.s| < 200)
  {
    if n > 0 {
      ShortLinesEmpty(data, n - 1);
    }
  }

  /**
   * The summary lists the key fields that are present and truthy; without
   * any, the string values shorter than 200 characters; without those, the
   * printed data.
   */
  lemma SummaryCases(data: Dict<Value>, shown: string)
    ensures (exists i :: 0 <= i < |KeyFields| && Given(data, KeyFields[i]))
            ==> SummaryOf(data, shown) == Join(KeyLines(data, KeyFields, |KeyFields|), "\n")
    ensures (forall i :: 0 <= i < |KeyFields| ==> !(Given(data, KeyFields[i])))
            && (exists i :: 0 <= i < |data| && data[i].1.VStr? && |data[i].1.s| < 200)
            ==> SummaryOf(data, shown) == Join(ShortLines(data, |data|), "\n")
    ensures (forall i :: 0 <= i < |KeyFields| ==> !(Given(data, KeyFields[i])))
            && (forall i :: 0 <= i < |data| ==> !(data[i].1.VStr? && |data[i].1.s| < 200))
            ==> SummaryOf(data, shown) == shown
  {
    KeyLinesEmpty(data, KeyFields, |KeyFields|);
    ShortLinesEmpty(data, |data|);
  }

  /** `Persona.get_summary`: the key-field loop, then the fallback loop over all entries. */
  method GetSummary(p: Persona, reprOf: Dict<Value> -> string) returns (s: string)
    ensures s == SummaryOf(p.data, reprOf(p.data))
  {
    var parts := CollectKeyLines(p.data);
    if |parts| == 0 {
      parts := CollectShortLines(p.data);
    }
    s := if |parts| > 0 then Join(parts, "\n") else reprOf(p.data);
  }

  /** The first loop of `get_summary`: a line per key field that is present and truthy. */
  method CollectKeyLines(data: Dict<Value>) returns (parts: seq<string>)
    ensures parts == KeyLines(data, KeyFields, |KeyFields|)
  {
    parts := [];
    for i := 0 to |KeyFields|
      invariant parts == KeyLines(data, KeyFields, i)
    {
      parts := parts + KeyLine(data, KeyFields[i]);
    }
  }

  /** The fallback loop of `get_summary`: a line per string value shorter than 200 characters. */
  method CollectShortLines(data: Dict<Value>) returns (parts: seq<string>)
    ensures parts == ShortLines(data, |data|)
  {
    parts := [];
    for i := 0 to |data|
      invariant parts == ShortLines(data, i)
    {
      var entry := data[i];
      if entry.1.VStr? && |entry.1.s| < 200 {
        parts := parts + [entry.0 + ": " + entry.1.s];
      }
    }
  }

  // ---------------------------------------------------------------- persona_json keys

  /** An all-digit key becomes `question_<key>`; any other key is kept. */
  function RenamedKey(key: string): string {
    if IsDigits(key) then "question_" + key else key
  }

  /** `renamed_data` after the first `n` entries of the parsed object. */
  function Renamed(d: Dict<Value>, n: nat): Dict<Value>
    requires n <= |d|
  {
    if n == 0 then [] else Put(Renamed(d, n - 1), RenamedKey(d[n - 1].0), d[n - 1].1)
  }

  /** The value of the last of the first `n` entries whose key is renamed to `key`. */
  function LastRenamedTo(d: Dict<Value>, n: nat, key: string): Option<Value>
    requires n <= |d|
  {
    if n == 0 then None
    else if RenamedKey(d[n - 1].0) == key then Some(d[n - 1].1)
    else LastRenamedTo(d, n - 1, key)
  }

  /** A renamed key holds the value of the last entry renamed to it; a later entry overwrites an earlier one. */
  lemma {:induction false} RenamedGet(d: Dict<Value>, n: nat, key: string)
    requires n <= |d|
    ensures Get(Renamed(d, n), key) == LastRenamedTo(d, n, key)
  {
    if n > 0 {
      var prev := Renamed(d, n - 1);
      var rk := RenamedKey(d[n - 1].0);
      RenamedGet(d, n - 1, key);
      PutGetFrom(prev, rk, d[n - 1].1, key, LastRenamedTo(d, n - 1, key), LastRenamedTo(d, n, key));
    }
  }

  /** Some entry is renamed to `key` exactly when one of the first `n` is. */
  lemma {:induction false} LastRenamedToSome(d: Dict<Value>, n: nat, key: string)
    requires n <= |d|
    ensures LastRenamedTo(d, n, key).Some? <==> exists i :: 0 <= i < n && RenamedKey(d[i].0) == key
  {
    if n > 0 {
      LastRenamedToSome(d, n - 1, key);
    }
  }

  /** The keys of the renamed object are exactly the renamed keys of the entries. */
  lemma RenamedHas(d: Dict<Value>, n: nat, key: string)
    requires n <= |d|
    ensures key in Keys(Renamed(d, n)) <==> exists i :: 0 <= i < n && RenamedKey(d[i].0) == key
  {
    RenamedGet(d, n, key);
    GetSome(Renamed(d, n), key);
    LastRenamedToSome(d, n, key);
  }

  /** The renamed object has distinct keys. */
  lemma {:induction false} RenamedKeys(d: Dict<Value>, n: nat)
    requires n <= |d|
    ensures DistinctKeys(Renamed(d, n))
  {
    if n > 0 {
      RenamedKeys(d, n - 1);
      PutDistinct(Renamed(d, n - 1), RenamedKey(d[n - 1].0), d[n - 1].1);
    }
  }

  /** Without clashes, the `n`-th renamed key is not among the earlier ones. */
  lemma RenamedFresh(d: Dict<Value>, n: nat)
    requires 0 < n <= |d|
    requires forall i, j :: 0 <= i < j < n ==> RenamedKey(d[i].0) != RenamedKey(d[j].0)
    ensures RenamedKey(d[n - 1].0) !in Keys(Renamed(d, n - 1))
  {
    RenamedHas(d, n - 1, RenamedKey(d[n - 1].0));
  }

  /**
   * When renaming makes no two keys equal, the renamed object is the parsed
   * one with every all-digit key prefixed by `question_`, in the same order.
   */
  lemma {:induction false} RenamedWithoutClash(d: Dict<Value>, n: nat)
    requires n <= |d|
    requires forall i, j :: 0 <= i < j < n ==> RenamedKey(d[i].0) != RenamedKey(d[j].0)
    ensures |Renamed(d, n)| == n
    ensures forall i :: 0 <= i < n ==> Renamed(d, n)[i] == (RenamedKey(d[i].0), d[i].1)
  {
    if n > 0 {
      var prev := Renamed(d, n - 1);
      var key := RenamedKey(d[n - 1].0);
      var v := d[n - 1].1;
      RenamedWithoutClash(d, n - 1);
      RenamedFresh(d, n);
      forall i | 0 <= i < n
        ensures |Renamed(d, n)| == n && Renamed(d, n)[i] == (RenamedKey(d[i].0), d[i].1)
      {
        PutNewAt(prev, key, v, i);
      }
      PutNewAt(prev, key, v, 0);
    }
  }

  /** The loop over the parsed object's items. */
  method RenameKeys(parsed: Dict<Value>) returns (renamed: Dict<Value>)
    ensures renamed == Renamed(parsed, |parsed|)
  {
    renamed := [];
    for i := 0 to |parsed|
      invariant renamed == Renamed(parsed, i)
    {
      var (key, value) := parsed[i];
      var renamedKey := if IsDigits(key) then "question_" + key else key;
      renamed := Put(renamed, renamedKey, value);
    }
  }

  // ---------------------------------------------------------------- the expanded frame

  /** `json.loads` of a string: the decoded object, or `None` when it fails or does not give an object. */
  type Decoder = string -> Option<Dict<Value>>

  /**
   * The record a row's `persona_json` gives: empty for a falsy value, and for
   * anything that is not a string decoding to an object (whose `.items()`
   * raises and is caught); otherwise the renamed object.
   */
  function JsonRecord(v: Value, decode: Decoder): (r: Dict<Value>)
    ensures !Truthy(v) || !v.VStr? || decode(v.s).None? ==> r == []
    ensures Truthy(v) && v.VStr? && decode(v.s).Some? ==> r == Renamed(decode(v.s).value, |decode(v.s).value|)
  {
    if !Truthy(v) then []
    else match v
      case VStr(s) => (match decode(s)
                       case Some(obj) => Renamed(obj, |obj|)
                       case None => [])
      case _ => []
  }

  /** One pass of the row loop. */
  method ParseRow(v: Value, decode: Decoder) returns (record: Dict<Value>)
    ensures record == JsonRecord(v, decode)
  {
    record := [];
    if Truthy(v) && v.VStr? {
      var parsed := decode(v.s);
      if parsed.Some? {
        record := RenameKeys(parsed.value);
      }
    }
  }

  /** `json_data_list` after the first `n` rows. */
  function Records(f: Frame, decode: Decoder, n: nat): (rs: seq<Dict<Value>>)
    requires f.Valid() && "persona_json" in f.columns && n <= f.height
    ensures |rs| == n
    ensures forall k :: 0 <= k < n ==> rs[k] == JsonRecord(f.Cell("persona_json", k), decode)
  {
    if n == 0 then [] else Records(f, decode, n - 1) + [JsonRecord(f.Cell("persona_json", n - 1), decode)]
  }

  /** The keys of `ks` appended to `cols`, each the first time it is seen. */
  function AddKeys(cols: seq<string>, ks: seq<string>): seq<string>
    decreases |ks|
  {
    if ks == [] then cols else AddKeys(if ks[0] in cols then cols else cols + [ks[0]], ks[1..])
  }

  lemma {:induction false} AddKeysFacts(cols: seq<string>, ks: seq<string>)
    requires DistinctStrings(cols)
    ensures DistinctStrings(AddKeys(cols, ks))
    ensures forall x :: x in AddKeys(cols, ks) <==> x in cols || x in ks
    decreases |ks|
  {
    if ks != [] {
      var next := if ks[0] in cols then cols else cols + [ks[0]];
      AddKeysFacts(next, ks[1..]);
      assert forall x :: x in ks <==> x == ks[0] || x in ks[1..];
    }
  }

  /** The columns of `pd.DataFrame(json_data_list)`: every key, in order of first appearance. */
  function JsonColumns(records: seq<Dict<Value>>, n: nat): seq<string>
    requires n <= |records|
  {
    if n == 0 then [] else AddKeys(JsonColumns(records, n - 1), Keys(records[n - 1]))
  }

  /** The expanded columns are distinct and are the keys of the records. */
  lemma {:induction false} JsonColumnsFacts(records: seq<Dict<Value>>, n: nat)
    requires n <= |records|
    ensures DistinctStrings(JsonColumns(records, n))
    ensures forall x :: x in JsonColumns(records, n) <==> exists k :: 0 <= k < n && x in Keys(records[k])
  {
    if n > 0 {
      JsonColumnsFacts(records, n - 1);
      AddKeysFacts(JsonColumns(records, n - 1), Keys(records[n - 1]));
    }
  }

  /** `json_df[col]`: each row's value for the key, `NaN` where the row lacks it. */
  function JsonColumn(records: seq<Dict<Value>>, col: string): (column: seq<Value>)
    ensures |column| == |records|
  {
    seq(|records|, k requires 0 <= k < |records| => GetOr(records[k], col, VNaN))
  }

  lemma JsonColumnAt(records: seq<Dict<Value>>, col: string, k: nat)
    requires k < |records|
    ensures JsonColumn(records, col)[k] == GetOr(records[k], col, VNaN)
  {
  }

  /** `df[name] = column`: an existing column is overwritten in place, a new one goes last. */
  function SetColumn(f: Frame, name: string, column: seq<Value>): (g: Frame)
    requires |f.cells| == |f.columns|
    ensures |g.cells| == |g.columns| && g.height == f.height
  {
    if name in f.columns then
      Frame(f.columns, f.cells[IndexOf(f.columns, name) := column], f.height)
    else
      Frame(f.columns + [name], f.cells + [column], f.height)
  }

  /** `df[name] = column` adds `name` as the last column unless it is one already. */
  lemma SetColumnColumns(f: Frame, name: string, column: seq<Value>, x: string)
    requires |f.cells| == |f.columns|
    ensures f.columns <= SetColumn(f, name, column).columns
    ensures x in SetColumn(f, name, column).columns <==> x in f.columns || x == name
  {
  }

  /** A column of the frame's height keeps the frame well formed. */
  lemma SetColumnValid(f: Frame, name: string, column: seq<Value>)
    requires f.Valid() && |column| == f.height
    ensures SetColumn(f, name, column).Valid()
  {
  }

  /** After `df[name] = column`, the column `name` holds `column`. */
  lemma SetColumnCell(f: Frame, name: string, column: seq<Value>, k: nat)
    requires f.Valid() && |column| == f.height && k < f.height
    ensures SetColumn(f, name, column).Valid() && name in SetColumn(f, name, column).columns
    ensures SetColumn(f, name, column).Cell(name, k) == column[k]
  {
    SetColumnValid(f, name, column);
    if name !in f.columns {
      IndexOfAppend(f.columns, name, name);
    }
  }

  /** After `df[name] = column`, every other column keeps its cells. */
  lemma SetColumnOther(f: Frame, name: string, column: seq<Value>, c: string, k: nat)
    requires f.Valid() && |column| == f.height && k < f.height
    requires c in f.columns && c != name
    ensures SetColumn(f, name, column).Valid() && c in SetColumn(f, name, column).columns
    ensures SetColumn(f, name, column).Cell(c, k) == f.Cell(c, k)
  {
    SetColumnValid(f, name, column);
    if name !in f.columns {
      IndexOfAppend(f.columns, name, c);
    }
  }

  lemma IndexOfAppend(s: seq<string>, y: string, x: string)
    requires DistinctStrings(s + [y]) && x in s + [y]
    ensures IndexOf(s + [y], x) == if x in s then IndexOf(s, x) else |s|
  {
    var i := IndexOf(s + [y], x);
    if x in s {
      var j := IndexOf(s, x);
      assert (s + [y])[j] == x;
    } else {
      assert (s + [y])[|s|] == y;
    }
  }

  /** Where a json column goes: its own name, or `json_<name>` when that is taken. */
  function TargetName(columns: seq<string>, col: string): string {
    if col in columns then "json_" + col else col
  }

  /** The frame after the first `n` json columns are merged in. */
  function Merged(f: Frame, records: seq<Dict<Value>>, cols: seq<string>, n: nat): (g: Frame)
    requires |f.cells| == |f.columns| && n <= |cols|
    ensures |g.cells| == |g.columns| && g.height == f.height
  {
    if n == 0 then f
    else
      var h := Merged(f, records, cols, n - 1);
      SetColumn(h, TargetName(h.columns, cols[n - 1]), JsonColumn(records, cols[n - 1]))
  }

  /** `_expand_persona_json` on a frame. */
  function Expanded(f: Frame, decode: Decoder): (g: Frame)
    requires f.Valid()
    ensures g.Valid() && g.height == f.height
  {
    if "persona_json" !in f.columns then f
    else
      var records := Records(f, decode, f.height);
      if records == [] then f
      else
        var cols := JsonColumns(records, |records|);
        MergedValid(f, records, cols, |cols|);
        Merged(f, records, cols, |cols|)
  }

  lemma JsonPrefixed(x: string)
    ensures StartsWith("json_" + x, "json_")
  {
    assert ("json_" + x)[..5] == "json_";
  }

  /** Every merge step keeps the frame well formed. */
  lemma {:induction false} MergedValid(f: Frame, records: seq<Dict<Value>>, cols: seq<string>, n: nat)
    requires f.Valid() && |records| == f.height && n <= |cols|
    ensures Merged(f, records, cols, n).Valid()
  {
    if n > 0 {
      var h := Merged(f, records, cols, n - 1);
      MergedValid(f, records, cols, n - 1);
      SetColumnValid(h, TargetName(h.columns, cols[n - 1]), JsonColumn(records, cols[n - 1]));
    }
  }

  /** One merge step on the column names: the target is added unless it is already a column. */
  lemma MergedStep(f: Frame, records: seq<Dict<Value>>, cols: seq<string>, n: nat, x: string)
    requires f.Valid() && |records| == f.height && 0 < n <= |cols|
    ensures var h := Merged(f, records, cols, n - 1).columns;
            h <= Merged(f, records, cols, n).columns
            && (x in Merged(f, records, cols, n).columns <==> x in h || x == TargetName(h, cols[n - 1]))
  {
  }

  /** Merging only adds columns after the original ones. */
  lemma {:induction false} MergedPrefix(f: Frame, records: seq<Dict<Value>>, cols: seq<string>, n: nat)
    requires f.Valid() && |records| == f.height && n <= |cols|
    ensures f.columns <= Merged(f, records, cols, n).columns
  {
    if n > 0 {
      MergedPrefix(f, records, cols, n - 1);
      MergedStep(f, records, cols, n, "");
    }
  }

  /** An original column whose name does not start with `json_` keeps its values. */
  lemma {:induction false} MergedKeepsValues(f: Frame, records: seq<Dict<Value>>, cols: seq<string>, n: nat,
                                             o: string, k: nat)
    requires f.Valid() && |records| == f.height && n <= |cols|
    requires o in f.columns && !StartsWith(o, "json_") && k < f.height
    ensures Merged(f, records, cols, n).Valid() && o in Merged(f, records, cols, n).columns
    ensures Merged(f, records, cols, n).Cell(o, k) == f.Cell(o, k)
  {
    if n > 0 {
      var h := Merged(f, records, cols, n - 1);
      MergedKeepsValues(f, records, cols, n - 1, o, k);
      var col := cols[n - 1];
      if col in h.columns {
        JsonPrefixed(col);
      }
      SetColumnOther(h, TargetName(h.columns, col), JsonColumn(records, col), o, k);
    }
  }

  /** No expanded key starts with `json_`, and the keys are distinct. */
  predicate PlainColumns(cols: seq<string>) {
    DistinctStrings(cols) && forall j :: 0 <= j < |cols| ==> !StartsWith(cols[j], "json_")
  }

  /** Two json columns go to different places. */
  lemma TargetsDiffer(columns: seq<string>, a: string, b: string)
    requires a != b && !StartsWith(a, "json_") && !StartsWith(b, "json_")
    ensures TargetName(columns, a) != TargetName(columns, b)
    ensures TargetName(columns, a) != b
  {
    JsonPrefixed(a);
    JsonPrefixed(b);
    if a in columns && b in columns {
      assert ("json_" + a)[5..] == a && ("json_" + b)[5..] == b;
    }
  }

  /**
   * With plain, distinct keys, the columns after `n` merges are the original
   * ones and the targets of the first `n` keys, each computed against the
   * original columns.
   */
  lemma {:induction false} MergedColumns(f: Frame, records: seq<Dict<Value>>, cols: seq<string>, n: nat, x: string)
    requires f.Valid() && |records| == f.height && n <= |cols| && PlainColumns(cols)
    ensures x in Merged(f, records, cols, n).columns <==>
              x in f.columns || exists j :: 0 <= j < n && x == TargetName(f.columns, cols[j])
    decreases n, 0
  {
    if n > 0 {
      MergedColumns(f, records, cols, n - 1, x);
      MergedTarget(f, records, cols, n - 1);
      MergedStep(f, records, cols, n, x);
    }
  }

  /** With plain, distinct keys, each key's target against the merged columns is its target against the original ones. */
  lemma {:induction false} MergedTarget(f: Frame, records: seq<Dict<Value>>, cols: seq<string>, n: nat)
    requires f.Valid() && |records| == f.height && n < |cols| && PlainColumns(cols)
    ensures TargetName(Merged(f, records, cols, n).columns, cols[n]) == TargetName(f.columns, cols[n])
    decreases n, 1
  {
    MergedColumns(f, records, cols, n, cols[n]);
    forall j | 0 <= j < n
      ensures cols[n] != TargetName(f.columns, cols[j])
    {
      TargetsDiffer(f.columns, cols[j], cols[n]);
    }
  }

  /** With plain, distinct keys, step `n` writes the key's column under its target against the original columns. */
  lemma MergedAt(f: Frame, records: seq<Dict<Value>>, cols: seq<string>, n: nat)
    requires f.Valid() && |records| == f.height && 0 < n <= |cols| && PlainColumns(cols)
    ensures Merged(f, records, cols, n)
            == SetColumn(Merged(f, records, cols, n - 1), TargetName(f.columns, cols[n - 1]), JsonColumn(records, cols[n - 1]))
  {
    MergedTarget(f, records, cols, n - 1);
  }

  /**
   * With plain, distinct keys, every json column holds each row's value for
   * its key: under its own name when that was free, else under `json_<name>`.
   */
  lemma {:induction false} MergedValues(f: Frame, records: seq<Dict<Value>>, cols: seq<string>, n: nat,
                                        j: nat, k: nat)
    requires f.Valid() && |records| == f.height && n <= |cols| && PlainColumns(cols)
    requires j < n && k < f.height
    ensures Merged(f, records, cols, n).Valid() && TargetName(f.columns, cols[j]) in Merged(f, records, cols, n).columns
    ensures Merged(f, records, cols, n).Cell(TargetName(f.columns, cols[j]), k) == GetOr(records[k], cols[j], VNaN)
  {
    var h := Merged(f, records, cols, n - 1);
    var t := TargetName(f.columns, cols[n - 1]);
    MergedValid(f, records, cols, n - 1);
    MergedAt(f, records, cols, n);
    if j < n - 1 {
      MergedValues(f, records, cols, n - 1, j, k);
      TargetsDiffer(f.columns, cols[j], cols[n - 1]);
      SetColumnOther(h, t, JsonColumn(records, cols[n - 1]), TargetName(f.columns, cols[j]), k);
    } else {
      SetColumnCell(h, t, JsonColumn(records, cols[n - 1]), k);
      JsonColumnAt(records, cols[n - 1], k);
    }
  }

  // ---------------------------------------------------------------- personas

  const IdKeys: seq<string> := ["id", "persona_id", "participant_id", "pid"]

  /** The position in `IdKeys`, from `t` on, of the first key that is a column; 4 when there is none. */
  function FirstIdKey(columns: seq<string>, t: nat): (r: nat)
    requires t <= 4
    ensures t <= r <= 4
    ensures r < 4 ==> IdKeys[r] in columns
    ensures forall u :: t <= u < r ==> IdKeys[u] !in columns
    decreases 4 - t
  {
    if t == 4 then 4 else if IdKeys[t] in columns then t else FirstIdKey(columns, t + 1)
  }

  /** The id of the row at `k`: `str` of its first id column, else the row index. */
  function RowId(f: Frame, k: nat): string
    requires f.Valid() && k < f.height
  {
    var t := FirstIdKey(f.columns, 0);
    if t < 4 then ToStr(f.Cell(IdKeys[t], k)) else IntToString(k)
  }

  /** The id chosen for row `k` by the `if`/`elif` chain of `_create_personas`. */
  method ReadRowId(f: Frame, k: nat) returns (id: string)
    requires f.Valid() && k < f.height
    ensures id == RowId(f, k)
  {
    id := IntToString(k);
    if "id" in f.columns {
      id := ToStr(f.Cell("id", k));
    } else if "persona_id" in f.columns {
      id := ToStr(f.Cell("persona_id", k));
    } else if "participant_id" in f.columns {
      id := ToStr(f.Cell("participant_id", k));
    } else if "pid" in f.columns {
      id := ToStr(f.Cell("pid", k));
    }
  }

  function PersonaOf(f: Frame, k: nat): Persona
    requires f.Valid() && k < f.height
  {
    Processed.Persona(RowId(f, k), f.Row(k))
  }

  /** The personas of the first `n` rows. */
  function PersonasOf(f: Frame, n: nat): (ps: seq<Persona>)
    requires f.Valid() && n <= f.height
    ensures |ps| == n && forall k :: 0 <= k < n ==> ps[k] == PersonaOf(f, k)
  {
    if n == 0 then [] else PersonasOf(f, n - 1) + [PersonaOf(f, n - 1)]
  }

  /**
   * A persona holds its row; its id is `str` of the first of `id`,
   * `persona_id`, `participant_id` and `pid` that is a column, or the row
   * index when none is.
   */
  lemma PersonaIdPriority(f: Frame, k: nat)
    requires f.Valid() && k < f.height
    ensures PersonaOf(f, k).data == f.Row(k)
    ensures (exists t :: 0 <= t < 4 && IdKeys[t] in f.columns && (forall u :: 0 <= u < t ==> IdKeys[u] !in f.columns)
                         && PersonaOf(f, k).id == ToStr(f.Cell(IdKeys[t], k)))
            || ((forall t :: 0 <= t < 4 ==> IdKeys[t] !in f.columns) && PersonaOf(f, k).id == IntToString(k))
  {
    var t := FirstIdKey(f.columns, 0);
    if t < 4 {
      assert IdKeys[t] in f.columns && (forall u :: 0 <= u < t ==> IdKeys[u] !in f.columns)
             && PersonaOf(f, k).id == ToStr(f.Cell(IdKeys[t], k));
    }
  }

  // ---------------------------------------------------------------- search

  /**
   * One filter on a persona's data: the key must be present; a list means
   * membership; a string against a string field means case-insensitive
   * containment; anything else means equality.
   */
  predicate Satisfies(data: Dict<Value>, key: string, value: Processed.FilterValue) {
    match Get(data, key)
    case None => false
    case Some(v) =>
      match value
      case ListOf(items) => PyIn(v, items)
      case Scalar(w) => if w.VStr? && v.VStr? then Contains(Lower(v.s), Lower(w.s)) else PyEq(v, w)
  }

  predicate Matches(data: Dict<Value>, filters: Dict<Processed.FilterValue>) {
    forall i :: 0 <= i < |filters| ==> Satisfies(data, filters[i].0, filters[i].1)
  }

  /** The matching personas among the first `n`, in order. */
  function Searched(personas: seq<Persona>, filters: Dict<Processed.FilterValue>, n: nat): seq<Persona>
    requires n <= |personas|
  {
    if n == 0 then []
    else Searched(personas, filters, n - 1)
         + (if Matches(personas[n - 1].data, filters) then [personas[n - 1]] else [])
  }

  /** A persona is found exactly when it is one of the personas and passes every filter. */
  lemma {:induction false} SearchedMembers(personas: seq<Persona>, filters: Dict<Processed.FilterValue>, n: nat)
    requires n <= |personas|
    ensures |Searched(personas, filters, n)| <= n
    ensures forall p :: p in Searched(personas, filters, n) <==> p in personas[..n] && Matches(p.data, filters)
  {
    if n > 0 {
      SearchedMembers(personas, filters, n - 1);
      assert personas[..n] == personas[..n - 1] + [personas[n - 1]];
    }
  }

  /** Without filters every persona is found, in order. */
  lemma {:induction false} SearchedEveryone(personas: seq<Persona>, n: nat)
    requires n <= |personas|
    ensures Searched(personas, [], n) == personas[..n]
  {
    if n > 0 {
      SearchedEveryone(personas, n - 1);
      assert personas[..n] == personas[..n - 1] + [personas[n - 1]];
    }
  }

  /** A filter on a key the persona lacks excludes it. */
  lemma MissingKeyExcludes(data: Dict<Value>, filters: Dict<Processed.FilterValue>, i: nat)
    requires i < |filters| && filters[i].0 !in Keys(data)
    ensures !Matches(data, filters)
  {
    GetSome(data, filters[i].0);
    assert !Satisfies(data, filters[i].0, filters[i].1);
  }

  /** The inner loop of `search_personas`: the filters in order, stopping at the first that fails. */
  method MatchPersona(data: Dict<Value>, filters: Dict<Processed.FilterValue>) returns (match_: bool)
    ensures match_ == Matches(data, filters)
  {
    match_ := true;
    var i := 0;
    while i < |filters|
      invariant 0 <= i <= |filters|
      invariant forall j :: 0 <= j < i ==> Satisfies(data, filters[j].0, filters[j].1)
    {
      var (key, value) := filters[i];
      var found := Get(data, key);
      if found.None? {
        match_ := false;
        break;
      }
      if value.ListOf? {
        if !PyIn(found.value, value.items) {
          match_ := false;
          break;
        }
      } else if value.v.VStr? && found.value.VStr? {
        if !Contains(Lower(found.value.s), Lower(value.v.s)) {
          match_ := false;
          break;
        }
      } else if !PyEq(found.value, value.v) {
        match_ := false;
        break;
      }
      i := i + 1;
    }
  }

  /** The outer loop of `search_personas`: each matching persona is appended. */
  method SearchAll(personas: seq<Persona>, filters: Dict<Processed.FilterValue>) returns (filtered: seq<Persona>)
    ensures filtered == Searched(personas, filters, |personas|)
  {
    filtered := [];
    for n := 0 to |personas|
      invariant filtered == Searched(personas, filters, n)
    {
      var m := MatchPersona(personas[n].data, filters);
      if m {
        filtered := filtered + [personas[n]];
      }
    }
  }

  // ---------------------------------------------------------------- field categories

  /** The base fields that are never categorised (`id` is not among them). */
  const BaseFields: seq<string> := ["persona_text", "persona_summary", "persona_json", "participant_id", "pid"]

  const CategoryNames: seq<string> := ["인구통계", "직업경제", "교육", "성격심리", "경제특성", "라이프스타일",
                                       "지리위치", "관계가족", "가치관태도", "기술미디어", "기타"]

  /** The keywords of the first ten categories, in the order they are tried. */
  const Keywords: seq<seq<string>> := [
    ["age", "gender", "sex", "race", "ethnicity", "birth", "year_birth"],
    ["occupation", "job", "work", "employment", "career", "income", "salary", "industry"],
    ["education", "degree", "school", "college", "university", "student", "academic"],
    ["personality", "trait", "character", "openness", "conscientious",
     "extraversion", "agreeable", "neuroticism", "emotional", "big_five"],
    ["economic", "financial", "wealth", "assets", "debt", "saving", "budget"],
    ["lifestyle", "hobby", "interest", "activity", "leisure", "sport", "health", "exercise"],
    ["location", "city", "state", "region", "country", "address", "zip", "urban", "rural"],
    ["marital", "married", "relationship", "family", "children", "spouse", "partner", "household"],
    ["value", "belief", "attitude", "opinion", "political", "religious", "moral", "question_"],
    ["technology", "tech", "digital", "internet", "social_media", "phone", "computer", "online"]
  ]

  /** `any(kw in lower for kw in keywords)`. */
  predicate MentionsAny(lower: string, keywords: seq<string>) {
    exists i :: 0 <= i < |keywords| && Contains(lower, keywords[i])
  }

  /** The first category from `c` on whose keywords the lowercased name mentions; 10 (`기타`) when none does. */
  function FirstCategory(lower: string, c: nat): (r: nat)
    requires c <= 10
    ensures c <= r <= 10
    ensures r < 10 ==> MentionsAny(lower, Keywords[r])
    ensures forall d :: c <= d < r ==> !MentionsAny(lower, Keywords[d])
    decreases 10 - c
  {
    if c == 10 then 10 else if MentionsAny(lower, Keywords[c]) then c else FirstCategory(lower, c + 1)
  }

  function CategoryOf(field: string): nat {
    FirstCategory(Lower(field), 0)
  }

  /** The fields of category `c`, in column order, base fields left out. */
  function Filed(fields: seq<string>, c: nat): seq<string> {
    if |fields| == 0 then []
    else
      var last := fields[|fields| - 1];
      Filed(fields[..|fields| - 1], c) + (if last !in BaseFields && CategoryOf(last) == c then [last] else [])
  }

  /**
   * A field is filed under category `c` exactly when it is not a base field
   * and `c` is the first category whose keywords its lowercased name
   * mentions, else `기타`; so every other field is in exactly one category.
   */
  lemma {:induction false} FiledHas(fields: seq<string>, c: nat, x: string)
    ensures x in Filed(fields, c) <==> x in fields && x !in BaseFields && c == CategoryOf(x)
  {
    if |fields| > 0 {
      var init := fields[..|fields| - 1];
      FiledHas(init, c, x);
      assert fields == init + [fields[|fields| - 1]];
    }
  }

  /** The dictionary of the eleven lists, in the fixed category order. */
  function Categories(lists: seq<seq<string>>): (d: Dict<seq<string>>)
    requires |lists| == 11
    ensures |d| == 11 && forall c :: 0 <= c < 11 ==> d[c] == (CategoryNames[c], lists[c])
  {
    seq(11, c requires 0 <= c < 11 => (CategoryNames[c], lists[c]))
  }

  /** The eleven category lists of the columns. */
  function FiledLists(columns: seq<string>): (lists: seq<seq<string>>)
    ensures |lists| == 11 && forall c :: 0 <= c < 11 ==> lists[c] == Filed(columns, c)
  {
    seq(11, c requires 0 <= c < 11 => Filed(columns, c))
  }

  /** `get_categorized_fields` on the columns of a frame. */
  function Categorized(columns: seq<string>): Dict<seq<string>> {
    Processed.SortedNonEmpty(Categories(FiledLists(columns)))
  }

  /** The loop of `get_categorized_fields` over the columns. */
  method CategorizeFields(fields: seq<string>) returns (lists: seq<seq<string>>)
    ensures |lists| == 11 && forall c :: 0 <= c < 11 ==> lists[c] == Filed(fields, c)
  {
    lists := seq(11, c => []);
    for i := 0 to |fields|
      invariant |lists| == 11 && forall c :: 0 <= c < 11 ==> lists[c] == Filed(fields[..i], c)
    {
      assert fields[..i + 1][..i] == fields[..i];
      var field := fields[i];
      if field !in BaseFields {
        var c := CategoryOf(field);
        lists := lists[c := lists[c] + [field]];
      }
    }
    assert fields[..|fields|] == fields;
  }

  // ---------------------------------------------------------------- the loader

  class DatasetLoader {
    var df: Option<Frame>
    var personas: seq<Persona>

    constructor ()
      ensures df == None && personas == []
    {
      df := None;
      personas := [];
    }

    /** `load` with the split already read into a frame: expand `persona_json`, then build the personas. */
    method Load(frame: Frame, decode: Decoder)
      requires frame.Valid()
      modifies this
      ensures df == Some(Expanded(frame, decode))
      ensures personas == PersonasOf(Expanded(frame, decode), frame.height)
    {
      df := Some(frame);
      ExpandPersonaJson(decode);
      CreatePersonas();
    }

    /** `_expand_persona_json`: the row loop, then the column loop that merges the json columns. */
    method ExpandPersonaJson(decode: Decoder)
      requires df.Some? && df.value.Valid()
      modifies this`df
      ensures df == Some(Expanded(old(df.value), decode))
    {
      var f := df.value;
      if "persona_json" !in f.columns {
        return;
      }
      var records: seq<Dict<Value>> := [];
      for k := 0 to f.height
        invariant df == Some(f)
        invariant records == Records(f, decode, k)
      {
        var record := ParseRow(f.Cell("persona_json", k), decode);
        records := records + [record];
      }
      if records != [] {
        var cols := JsonColumns(records, |records|);
        for i := 0 to |cols|
          invariant df == Some(Merged(f, records, cols, i))
        {
          var h := df.value;
          var name := if cols[i] !in h.columns then cols[i] else "json_" + cols[i];
          df := Some(SetColumn(h, name, JsonColumn(records, cols[i])));
        }
      }
    }

    /** `_create_personas`: one persona per row, in row order. */
    method CreatePersonas()
      requires df.Some? && df.value.Valid()
      modifies this`personas
      ensures personas == PersonasOf(df.value, df.value.height)
    {
      var f := df.value;
      var ps := [];
      for k := 0 to f.height
        invariant ps == PersonasOf(f, k)
      {
        var id := ReadRowId(f, k);
        ps := ps + [Processed.Persona(id, f.Row(k))];
      }
      personas := ps;
    }

    /** `get_persona_by_id`: the first persona with that id, else `None`. */
    method GetPersonaById(id: string) returns (r: Option<Persona>)
      ensures r.None? <==> forall i :: 0 <= i < |personas| ==> personas[i].id != id
      ensures r.Some? ==> exists i :: 0 <= i < |personas| && personas[i] == r.value && r.value.id == id
                                      && forall j :: 0 <= j < i ==> personas[j].id != id
    {
      r := Processed.FirstWithId(personas, id);
    }

    /** `search_personas`: no filters give every persona; otherwise the matching ones in order. */
    method SearchPersonas(filters: Dict<Processed.FilterValue>) returns (r: seq<Persona>)
      ensures r == Searched(personas, filters, |personas|)
    {
      if filters == [] {
        SearchedEveryone(personas, |personas|);
        return personas;
      }
      r := SearchAll(personas, filters);
    }

    /** `get_random_sample`: `min(n, len(personas))` personas at the drawn distinct positions. */
    function GetRandomSample(n: nat, draw: seq<nat>): (r: seq<Persona>)
      reads this
      requires |draw| == if n < |personas| then n else |personas|
      requires Distinct(draw) && forall t :: 0 <= t < |draw| ==> draw[t] < |personas|
      ensures |r| == if n < |personas| then n else |personas|
      ensures forall t :: 0 <= t < |r| ==> r[t] in personas && r[t] == personas[draw[t]]
      ensures Distinct(personas) ==> Distinct(r)
    {
      var all := personas;
      var r := seq(|draw|, t requires 0 <= t < |draw| => all[draw[t]]);
      assert forall t :: 0 <= t < |draw| ==> r[t] == all[draw[t]];
      assert Distinct(all) ==> forall s, t :: 0 <= s < t < |r| ==> r[s] != r[t] by {
        if Distinct(all) {
          forall s, t | 0 <= s < t < |r| ensures r[s] != r[t] {
            assert draw[s] != draw[t];
          }
        }
      }
      r
    }

    /** `get_categorized_fields`: `{}` without a frame; else the non-empty categories, sorted. */
    method GetCategorizedFields() returns (r: Dict<seq<string>>)
      requires df.Some? ==> df.value.Valid()
      ensures df.None? ==> r == []
      ensures df.Some? ==> r == Categorized(df.value.columns)
    {
      if df.None? {
        return [];
      }
      var lists := CategorizeFields(df.value.columns);
      assert lists == FiledLists(df.value.columns);
      r := Processed.SortedNonEmpty(Categories(lists));
    }
  }

  /**
   * The categorised fields: every listed field is a column that is not a base
   * field, its list is that of its category, the lists are non-empty and
   * sorted, and every such column is listed.
   */
  lemma CategorizedFields(columns: seq<string>)
    ensures var r := Categorized(columns);
            forall i :: 0 <= i < |r| ==> r[i].1 != [] && SortedStrings(r[i].1)
    ensures var r := Categorized(columns);
            forall x :: x in columns && x !in BaseFields ==>
              var c := CategoryOf(x);
              (CategoryNames[c], SortStrings(Filed(columns, c))) in r && x in Filed(columns, c)
  {
    var d := Categories(FiledLists(columns));
    Processed.SortedNonEmptyFacts(d);
    forall x | x in columns && x !in BaseFields
      ensures (CategoryNames[CategoryOf(x)], SortStrings(Filed(columns, CategoryOf(x)))) in Processed.SortedNonEmpty(d)
      ensures x in Filed(columns, CategoryOf(x))
    {
      var c := CategoryOf(x);
      FiledHas(columns, c, x);
      assert d[c] == (CategoryNames[c], Filed(columns, c));
      assert x in d[c].1;
    }
  }
}
