/**
 * The preprocessing of the raw persona dataset (create_processed_dataset.py):
 * one record per row holding the row's id, persona text and summary, with the
 * entries of the row's `persona_json` object written over it (all-digit keys
 * renamed `question_<key>`), and the classification of the resulting columns
 * into basic, question and other columns.
 */
module ProcessedDataset {
  import opened Wrappers
  import opened Text
  import opened PyValues
  import Backup = DatasetLoaderBackup

  // ---------------------------------------------------------------- one record

  /** `{'id': row.get('pid', idx), 'persona_text': ..., 'persona_summary': ...}`. */
  function BaseRecord(f: Frame, k: nat): (r: Dict<Value>)
    requires f.Valid() && k < f.height
    ensures Keys(r) == BasicColumns
  {
    var row := f.Row(k);
    [("id", GetOr(row, "pid", VInt(k))),
     ("persona_text", GetOr(row, "persona_text", VStr(""))),
     ("persona_summary", GetOr(row, "persona_summary", VStr("")))]
  }

  /** `row.get('persona_json')`. */
  function PersonaJson(f: Frame, k: nat): Value
    requires f.Valid() && k < f.height
  {
    GetOr(f.Row(k), "persona_json", VNone)
  }

  /**
   * The object whose items are copied: nothing for a falsy value; a string is
   * decoded, and a failed decoding or a decoded value that is not an object
   * (a list has no `.items()`) raises and is caught; any other truthy value
   * (a number or `NaN`) has no `.items()` either.
   */
  function ParsedJson(v: Value, decode: Backup.Decoder): (r: Option<Dict<Value>>)
    ensures r.Some? <==> Truthy(v) && v.VStr? && decode(v.s).Some?
    ensures r.Some? ==> r == decode(v.s)
  {
    if Truthy(v) && v.VStr? then decode(v.s) else None
  }

  /** `record` after the first `n` items of the object: `record[new_key] = value`. */
  function Flattened(base: Dict<Value>, items: Dict<Value>, n: nat): Dict<Value>
    requires n <= |items|
  {
    if n == 0 then base
    else Put(Flattened(base, items, n - 1), Backup.RenamedKey(items[n - 1].0), items[n - 1].1)
  }

  /** The record a row gives. */
  function RecordOf(f: Frame, k: nat, decode: Backup.Decoder): Dict<Value>
    requires f.Valid() && k < f.height
  {
    match ParsedJson(PersonaJson(f, k), decode)
    case None => BaseRecord(f, k)
    case Some(obj) => Flattened(BaseRecord(f, k), obj, |obj|)
  }

  // ---------------------------------------------------------------- the loops

  /** The loop over `json_data.items()`. */
  method FlattenItems(base: Dict<Value>, items: Dict<Value>) returns (record: Dict<Value>)
    ensures record == Flattened(base, items, |items|)
  {
    record := base;
    for i := 0 to |items|
      invariant record == Flattened(base, items, i)
    {
      var (key, value) := items[i];
      var newKey := if IsDigits(key) then "question_" + key else key;
      record := Put(record, newKey, value);
    }
  }

  /** One pass of the row loop. */
  method ProcessRow(f: Frame, k: nat, decode: Backup.Decoder) returns (record: Dict<Value>)
    requires f.Valid() && k < f.height
    ensures record == RecordOf(f, k, decode)
  {
    var row := f.Row(k);
    record := [("id", GetOr(row, "pid", VInt(k))),
               ("persona_text", GetOr(row, "persona_text", VStr(""))),
               ("persona_summary", GetOr(row, "persona_summary", VStr("")))];
    var personaJson := GetOr(row, "persona_json", VNone);
    if Truthy(personaJson) && personaJson.VStr? {
      var jsonData := decode(personaJson.s);
      if jsonData.Some? {
        record := FlattenItems(record, jsonData.value);
      }
    }
  }

  /** `parsed_data`: one record per row, in row order. */
  method CreateProcessedDataset(f: Frame, decode: Backup.Decoder) returns (parsedData: seq<Dict<Value>>)
    requires f.Valid()
    ensures |parsedData| == f.height
    ensures forall k :: 0 <= k < f.height ==> parsedData[k] == RecordOf(f, k, decode)
  {
    parsedData := [];
    for idx := 0 to f.height
      invariant |parsedData| == idx
      invariant forall k :: 0 <= k < idx ==> parsedData[k] == RecordOf(f, k, decode)
    {
      var record := ProcessRow(f, idx, decode);
      parsedData := parsedData + [record];
    }
  }

  // ---------------------------------------------------------------- record lemmas

  /** A key holds the value of the last item renamed to it, and otherwise its base value. */
  lemma {:induction false} FlattenedGet(base: Dict<Value>, items: Dict<Value>, n: nat, key: string)
    requires n <= |items|
    ensures Get(Flattened(base, items, n), key) ==
      match Backup.LastRenamedTo(items, n, key)
      case Some(v) => Some(v)
      case None => Get(base, key)
  {
    if n > 0 {
      FlattenedGet(base, items, n - 1, key);
      PutGetAt(Flattened(base, items, n - 1), Backup.RenamedKey(items[n - 1].0), items[n - 1].1, key);
    }
  }

  /** The base keys keep their places at the front; renamed keys that are new follow. */
  lemma {:induction false} FlattenedPrefix(base: Dict<Value>, items: Dict<Value>, n: nat)
    requires n <= |items|
    ensures Keys(base) <= Keys(Flattened(base, items, n))
  {
    if n > 0 {
      FlattenedPrefix(base, items, n - 1);
      PutKeys(Flattened(base, items, n - 1), Backup.RenamedKey(items[n - 1].0), items[n - 1].1);
    }
  }

  /** The keys of a record are the base keys and the renamed keys, none twice. */
  lemma FlattenedKeys(base: Dict<Value>, items: Dict<Value>, n: nat, key: string)
    requires n <= |items| && DistinctKeys(base)
    ensures DistinctKeys(Flattened(base, items, n))
    ensures key in Keys(Flattened(base, items, n)) <==>
      key in Keys(base) || exists i :: 0 <= i < n && Backup.RenamedKey(items[i].0) == key
  {
    FlattenedDistinct(base, items, n);
    FlattenedGet(base, items, n, key);
    GetSome(Flattened(base, items, n), key);
    GetSome(base, key);
    Backup.LastRenamedToSome(items, n, key);
  }

  lemma {:induction false} FlattenedDistinct(base: Dict<Value>, items: Dict<Value>, n: nat)
    requires n <= |items| && DistinctKeys(base)
    ensures DistinctKeys(Flattened(base, items, n))
  {
    if n > 0 {
      FlattenedDistinct(base, items, n - 1);
      PutDistinct(Flattened(base, items, n - 1), Backup.RenamedKey(items[n - 1].0), items[n - 1].1);
    }
  }

  /** A key of a record holds the value of the last item renamed to it, and otherwise its base value. */
  lemma RecordGet(f: Frame, k: nat, decode: Backup.Decoder, key: string)
    requires f.Valid() && k < f.height
    ensures var p := ParsedJson(PersonaJson(f, k), decode);
      Get(RecordOf(f, k, decode), key) ==
        if p.Some? && Backup.LastRenamedTo(p.value, |p.value|, key).Some?
        then Backup.LastRenamedTo(p.value, |p.value|, key)
        else Get(BaseRecord(f, k), key)
  {
    var p := ParsedJson(PersonaJson(f, k), decode);
    if p.Some? {
      FlattenedGet(BaseRecord(f, k), p.value, |p.value|, key);
    }
  }

  /** The id is the row's `pid`, else its index, unless an item of the object is renamed to `id`. */
  lemma RecordId(f: Frame, k: nat, decode: Backup.Decoder)
    requires f.Valid() && k < f.height
    ensures var p := ParsedJson(PersonaJson(f, k), decode);
      (p.None? || forall i :: 0 <= i < |p.value| ==> Backup.RenamedKey(p.value[i].0) != "id") ==>
        Get(RecordOf(f, k, decode), "id") == Some(GetOr(f.Row(k), "pid", VInt(k)))
  {
    var p := ParsedJson(PersonaJson(f, k), decode);
    RecordGet(f, k, decode, "id");
    if p.Some? {
      Backup.LastRenamedToSome(p.value, |p.value|, "id");
    }
  }

  /**
   * A falsy or non-string `persona_json`, and one that does not decode to an
   * object, leave exactly the three base fields.
   */
  lemma RecordFallback(f: Frame, k: nat, decode: Backup.Decoder)
    requires f.Valid() && k < f.height
    requires var v := PersonaJson(f, k); !Truthy(v) || !v.VStr? || decode(v.s).None?
    ensures RecordOf(f, k, decode) == BaseRecord(f, k)
    ensures Keys(RecordOf(f, k, decode)) == BasicColumns
  {
  }

  /**
   * Every record starts with the three base fields, repeats no key, and has a
   * key exactly when it is a base field or some item of the object is renamed to it.
   */
  lemma RecordKeys(f: Frame, k: nat, decode: Backup.Decoder, key: string)
    requires f.Valid() && k < f.height
    ensures BasicColumns <= Keys(RecordOf(f, k, decode))
    ensures DistinctKeys(RecordOf(f, k, decode))
    ensures var p := ParsedJson(PersonaJson(f, k), decode);
      key in Keys(RecordOf(f, k, decode)) <==>
        key in BasicColumns || (p.Some? && exists i :: 0 <= i < |p.value| && Backup.RenamedKey(p.value[i].0) == key)
  {
    var p := ParsedJson(PersonaJson(f, k), decode);
    var base := BaseRecord(f, k);
    assert DistinctKeys(base);
    if p.Some? {
      FlattenedPrefix(base, p.value, |p.value|);
      FlattenedKeys(base, p.value, |p.value|, key);
    }
  }

  // ---------------------------------------------------------------- columns

  /** The columns of `pd.DataFrame(parsed_data)`: every key, in order of first appearance. */
  function ProcessedColumns(records: seq<Dict<Value>>): seq<string> {
    Backup.JsonColumns(records, |records|)
  }

  /** Keys already collected keep their places. */
  lemma {:induction false} AddKeysPrefix(cols: seq<string>, ks: seq<string>)
    ensures cols <= Backup.AddKeys(cols, ks)
    decreases |ks|
  {
    if ks != [] {
      var next := if ks[0] in cols then cols else cols + [ks[0]];
      AddKeysPrefix(next, ks[1..]);
    }
  }

  /** Keys without repeats added to nothing come out unchanged. */
  lemma {:induction false} AddKeysFresh(cols: seq<string>, ks: seq<string>)
    requires DistinctStrings(cols + ks)
    ensures Backup.AddKeys(cols, ks) == cols + ks
    decreases |ks|
  {
    if ks != [] {
      assert ks[0] !in cols by {
        forall j | 0 <= j < |cols|
          ensures cols[j] != ks[0]
        {
          assert (cols + ks)[j] == cols[j] && (cols + ks)[|cols|] == ks[0];
        }
      }
      assert cols + ks == (cols + [ks[0]]) + ks[1..];
      AddKeysFresh(cols + [ks[0]], ks[1..]);
    }
  }

  /** The first record's keys lead the columns. */
  lemma {:induction false} ColumnsStartWithFirst(records: seq<Dict<Value>>, n: nat)
    requires 0 < n <= |records| && DistinctKeys(records[0])
    ensures Keys(records[0]) <= Backup.JsonColumns(records, n)
  {
    if n == 1 {
      AddKeysFresh([], Keys(records[0]));
      assert [] + Keys(records[0]) == Keys(records[0]);
    } else {
      ColumnsStartWithFirst(records, n - 1);
      AddKeysPrefix(Backup.JsonColumns(records, n - 1), Keys(records[n - 1]));
    }
  }

  /**
   * The processed frame's columns repeat no name, are the keys of the records,
   * and, when there is a row, start with `id`, `persona_text`, `persona_summary`.
   */
  lemma ProcessedColumnsFacts(f: Frame, decode: Backup.Decoder, records: seq<Dict<Value>>, x: string)
    requires f.Valid() && |records| == f.height
    requires forall k :: 0 <= k < f.height ==> records[k] == RecordOf(f, k, decode)
    ensures DistinctStrings(ProcessedColumns(records))
    ensures x in ProcessedColumns(records) <==> exists k :: 0 <= k < |records| && x in Keys(records[k])
    ensures 0 < f.height ==> BasicColumns <= ProcessedColumns(records)
  {
    Backup.JsonColumnsFacts(records, |records|);
    if 0 < f.height {
      RecordKeys(f, 0, decode, x);
      ColumnsStartWithFirst(records, |records|);
    }
  }

  // ---------------------------------------------------------------- classification

  const BasicColumns: seq<string> := ["id", "persona_text", "persona_summary"]

  predicate IsQuestionColumn(col: string) {
    StartsWith(col, "question_")
  }

  /** `[col for col in columns if col.startswith('question_')]`. */
  function QuestionColumns(cols: seq<string>): seq<string> {
    if cols == [] then []
    else (if IsQuestionColumn(cols[0]) then [cols[0]] else []) + QuestionColumns(cols[1..])
  }

  /** `[col for col in columns if col not in basic_cols and not col.startswith('question_')]`. */
  function OtherColumns(cols: seq<string>): seq<string> {
    if cols == [] then []
    else (if cols[0] !in BasicColumns && !IsQuestionColumn(cols[0]) then [cols[0]] else []) + OtherColumns(cols[1..])
  }

  /** The columns that are basic ones (the source counts the fixed list instead). */
  function BasicPresent(cols: seq<string>): seq<string> {
    if cols == [] then []
    else (if cols[0] in BasicColumns then [cols[0]] else []) + BasicPresent(cols[1..])
  }

  /** No basic column carries the question prefix. */
  lemma BasicNotQuestion(col: string)
    requires col in BasicColumns
    ensures !IsQuestionColumn(col)
  {
    assert col[0] != 'q';
  }

  lemma {:induction false} ClassMembers(cols: seq<string>, x: string)
    ensures x in QuestionColumns(cols) <==> x in cols && IsQuestionColumn(x)
    ensures x in OtherColumns(cols) <==> x in cols && x !in BasicColumns && !IsQuestionColumn(x)
    ensures x in BasicPresent(cols) <==> x in cols && x in BasicColumns
  {
    if cols != [] {
      ClassMembers(cols[1..], x);
      assert x in cols <==> x == cols[0] || x in cols[1..];
    }
  }

  /** Every column falls in exactly one of the basic, question and other classes. */
  lemma Classification(cols: seq<string>, x: string)
    requires x in cols
    ensures x in QuestionColumns(cols) <==> IsQuestionColumn(x)
    ensures x in OtherColumns(cols) <==> x !in BasicColumns && !IsQuestionColumn(x)
    ensures (if x in BasicColumns then 1 else 0) + (if x in QuestionColumns(cols) then 1 else 0)
          + (if x in OtherColumns(cols) then 1 else 0) == 1
  {
    ClassMembers(cols, x);
    if x in BasicColumns {
      BasicNotQuestion(x);
    }
  }

  /** The three classes share the columns out between them. */
  lemma {:induction false} ClassificationCount(cols: seq<string>)
    ensures |BasicPresent(cols)| + |QuestionColumns(cols)| + |OtherColumns(cols)| == |cols|
  {
    if cols != [] {
      ClassificationCount(cols[1..]);
      if cols[0] in BasicColumns {
        BasicNotQuestion(cols[0]);
      }
    }
  }
}
