/**
 * The block-feature dataset builder (create_block_based_dataset.py): every
 * question block named in any row's `persona_json` becomes two columns,
 * `has_<block>` (0 or 1) and `questions_<block>` (the block's question count),
 * and each row becomes one record with its `pid`, texts and those columns.
 */
module BlockDataset {
  import opened Wrappers
  import opened Text
  import opened PyValues
  import BlockSelector

  /** A block's `Questions` entry: absent, a value with a length, or one that `len()` rejects. */
  datatype Questions = NoQuestions | Sized(count: nat) | Unsized

  /** An element of the decoded `persona_json` list: a dict with a `BlockName`, or anything else. */
  datatype Item = Block(name: string, questions: Questions) | OtherItem

  /**
   * `json.loads(row['persona_json'])` for one row: a list, some other JSON
   * value, or an exception (a parse error or a missing column), which is caught.
   */
  datatype Decoded = JsonList(items: seq<Item>) | JsonOther | Undecodable

  /** `block_info[name]`: the presence flag and the question count of one block in one row. */
  datatype BlockCount = BlockCount(present: nat, questionCount: nat)

  // ---------------------------------------------------------------- column names

  /** The safe name as this script writes it: the replacements first, lower-casing last. */
  function ColumnSafeName(name: string): string {
    Lower(RemoveChar(RemoveChar(ReplaceChar(ReplaceChar(name, ' ', '_'), '-', '_'), '('), ')'))
  }

  /** The two column names of a block under a safe-name function. */
  function HasKeyBy(safe: string -> string, name: string): string {
    "has_" + safe(name)
  }

  function QuestionsKeyBy(safe: string -> string, name: string): string {
    "questions_" + safe(name)
  }

  function HasKey(name: string): string {
    HasKeyBy(ColumnSafeName, name)
  }

  function QuestionsKey(name: string): string {
    QuestionsKeyBy(ColumnSafeName, name)
  }

  function Underscored(s: string): string {
    ReplaceChar(ReplaceChar(s, ' ', '_'), '-', '_')
  }

  lemma {:induction false} LowerConcat(a: string, b: string)
    ensures Lower(a + b) == Lower(a) + Lower(b)
  {
    assert forall i :: 0 <= i < |a + b| ==> Lower(a + b)[i] == (Lower(a) + Lower(b))[i];
  }

  /** Removing a character that is not a letter commutes with lower-casing. */
  lemma {:induction false} RemoveLower(s: string, c: char)
    requires !IsAsciiLetter(c)
    ensures RemoveChar(Lower(s), c) == Lower(RemoveChar(s, c))
  {
    if s != [] {
      RemoveLower(s[1..], c);
      assert Lower(s) == [LowerChar(s[0])] + Lower(s[1..]);
      assert Lower(s)[1..] == Lower(s[1..]);
      var head := if s[0] == c then [] else [s[0]];
      assert RemoveChar(s, c) == head + RemoveChar(s[1..], c);
      LowerConcat(head, RemoveChar(s[1..], c));
    }
  }

  /** The two spellings of the safe name agree, so the selector finds the columns this script writes. */
  lemma SafeNamesAgree(name: string)
    ensures ColumnSafeName(name) == BlockSelector.SafeName(name)
    ensures HasKey(name) == BlockSelector.HasColumn(name)
    ensures QuestionsKey(name) == BlockSelector.QuestionsColumn(name)
  {
    var u := Underscored(name);
    assert Lower(u) == Underscored(Lower(name)) by {
      assert forall i :: 0 <= i < |u| ==> Lower(u)[i] == Underscored(Lower(name))[i];
    }
    RemoveLower(u, '(');
    RemoveLower(RemoveChar(u, '('), ')');
  }

  // ---------------------------------------------------------------- the block names

  /** The item is a block named `x`. */
  predicate Names(item: Item, x: string) {
    item.Block? && item.name == x
  }

  /** Some row's decoded list holds a block named `x`. */
  predicate Mentioned(decoded: seq<Decoded>, x: string) {
    exists k, i :: 0 <= k < |decoded| && decoded[k].JsonList? && 0 <= i < |decoded[k].items|
                   && Names(decoded[k].items[i], x)
  }

  /** The block names of the first `n` items of one list. */
  function ItemNames(items: seq<Item>, n: nat): set<string>
    requires n <= |items|
  {
    if n == 0 then {}
    else ItemNames(items, n - 1) + (if items[n - 1].Block? then {items[n - 1].name} else {})
  }

  /** The block names of the first `n` rows. */
  function RowNames(decoded: seq<Decoded>, n: nat): set<string>
    requires n <= |decoded|
  {
    if n == 0 then {}
    else RowNames(decoded, n - 1) + (if decoded[n - 1].JsonList? then ItemNames(decoded[n - 1].items, |decoded[n - 1].items|) else {})
  }

  lemma {:induction false} ItemNamesMembers(items: seq<Item>, n: nat, x: string)
    requires n <= |items|
    ensures x in ItemNames(items, n) <==> exists i :: 0 <= i < n && Names(items[i], x)
  {
    if n > 0 {
      ItemNamesMembers(items, n - 1, x);
    }
  }

  /** The gathered names are exactly the names some row's list mentions. */
  lemma {:induction false} RowNamesMembers(decoded: seq<Decoded>, n: nat, x: string)
    requires n <= |decoded|
    ensures x in RowNames(decoded, n) <==> exists k, i :: 0 <= k < n && decoded[k].JsonList? && 0 <= i < |decoded[k].items|
                                                         && Names(decoded[k].items[i], x)
  {
    if n > 0 {
      RowNamesMembers(decoded, n - 1, x);
      if decoded[n - 1].JsonList? {
        ItemNamesMembers(decoded[n - 1].items, |decoded[n - 1].items|, x);
      }
    }
  }

  /** The first loop: `all_block_names` gathers every block name of every decoded list. */
  method GatherNames(decoded: seq<Decoded>) returns (all: set<string>)
    ensures all == RowNames(decoded, |decoded|)
  {
    all := {};
    for k := 0 to |decoded|
      invariant all == RowNames(decoded, k)
    {
      if decoded[k].JsonList? {
        all := AddItemNames(all, decoded[k].items);
      }
    }
  }

  /** The inner loop of the first one, over one row's list. */
  method AddItemNames(all0: set<string>, items: seq<Item>) returns (all: set<string>)
    ensures all == all0 + ItemNames(items, |items|)
  {
    all := all0;
    for i := 0 to |items|
      invariant all == all0 + ItemNames(items, i)
    {
      if items[i].Block? {
        all := all + {items[i].name};
      }
    }
  }

  /** `sorted(all_block_names)`: the names of the set, sorted, each once. */
  method SortedNames(all: set<string>) returns (names: seq<string>)
    ensures SortedStrings(names) && DistinctStrings(names)
    ensures forall x :: x in names <==> x in all
  {
    var rest := all;
    var listed: seq<string> := [];
    while rest != {}
      invariant DistinctStrings(listed)
      invariant forall x :: x in listed <==> x in all && x !in rest
      invariant rest <= all
      decreases |rest|
    {
      var x :| x in rest;
      listed := listed + [x];
      rest := rest - {x};
    }
    names := SortStrings(listed);
    SortStringsCorrect(listed);
    DistinctPermutation(listed, names);
    assert forall x :: x in names <==> x in multiset(names);
  }

  /** A string occurs once in a sequence without repetitions. */
  lemma {:induction false} DistinctCount(s: seq<string>, x: string)
    requires DistinctStrings(s)
    ensures multiset(s)[x] == if x in s then 1 else 0
  {
    if s != [] {
      assert DistinctStrings(s[1..]) by {
        forall i, j | 0 <= i < j < |s[1..]| ensures s[1..][i] != s[1..][j] {
          assert s[1..][i] == s[i + 1] && s[1..][j] == s[j + 1];
        }
      }
      DistinctCount(s[1..], x);
      assert s == [s[0]] + s[1..];
      assert s[0] !in s[1..];
    }
  }

  /** A rearrangement of a sequence without repetitions has none either. */
  lemma DistinctPermutation(a: seq<string>, b: seq<string>)
    requires DistinctStrings(a) && multiset(a) == multiset(b)
    ensures DistinctStrings(b)
  {
    forall i, j | 0 <= i < j < |b| ensures b[i] != b[j] {
      if b[i] == b[j] {
        var x := b[i];
        assert b == b[..j] + [b[j]] + b[j + 1..];
        assert x in b[..j];
        assert multiset(b)[x] >= 2 by {
          assert multiset(b) == multiset(b[..j]) + multiset{x} + multiset(b[j + 1..]);
        }
        DistinctCount(a, x);
        assert false;
      }
    }
  }

  // ---------------------------------------------------------------- one row's blocks

  /** The scan of a row's items so far: the block's counts, and whether the scan goes on. */
  datatype Scan = Scan(count: BlockCount, live: bool)

  /**
   * One item of the scan, for the block `x`: a known block sets `present` and
   * its question count; a `Questions` value without a length raises after
   * `present` is set, and the handler ends the scan of the row.
   */
  function Step(s: Scan, item: Item, names: seq<string>, x: string): Scan {
    if !s.live || item.OtherItem? || item.name !in names then s
    else
      var present := if item.name == x then 1 else s.count.present;
      match item.questions
      case Unsized => Scan(BlockCount(present, s.count.questionCount), false)
      case NoQuestions => Scan(BlockCount(present, if item.name == x then 0 else s.count.questionCount), true)
      case Sized(c) => Scan(BlockCount(present, if item.name == x then c else s.count.questionCount), true)
  }

  /** The scan after the first `n` items. */
  function Scanned(items: seq<Item>, names: seq<string>, x: string, n: nat): Scan
    requires n <= |items|
  {
    if n == 0 then Scan(BlockCount(0, 0), true) else Step(Scanned(items, names, x, n - 1), items[n - 1], names, x)
  }

  /** The counts of the block `x` in a row. */
  function RowCount(d: Decoded, names: seq<string>, x: string): BlockCount {
    if d.JsonList? then Scanned(d.items, names, x, |d.items|).count else BlockCount(0, 0)
  }

  /** Whether the scan is still going does not depend on the block it counts. */
  lemma {:induction false} LiveAgrees(items: seq<Item>, names: seq<string>, x: string, y: string, n: nat)
    requires n <= |items|
    ensures Scanned(items, names, x, n).live == Scanned(items, names, y, n).live
  {
    if n > 0 {
      LiveAgrees(items, names, x, y, n - 1);
    }
  }

  /** The flag is 0 or 1, and the count is 0 while the flag is 0. */
  lemma {:induction false} ScannedShape(items: seq<Item>, names: seq<string>, x: string, n: nat)
    requires n <= |items|
    ensures var c := Scanned(items, names, x, n).count;
      c.present <= 1 && (c.present == 0 ==> c.questionCount == 0)
  {
    if n > 0 {
      ScannedShape(items, names, x, n - 1);
    }
  }

  /** Once a rejected `Questions` value ends the scan, later items change nothing. */
  lemma {:induction false} ScanStops(items: seq<Item>, names: seq<string>, x: string, i: nat, n: nat)
    requires i < n <= |items|
    requires items[i].Block? && items[i].name in names && items[i].questions.Unsized?
    ensures Scanned(items, names, x, n) == Scanned(items, names, x, i + 1)
    ensures !Scanned(items, names, x, n).live
  {
    if n > i + 1 {
      ScanStops(items, names, x, i, n - 1);
    } else {
      if Scanned(items, names, x, i).live {
      } else {
        assert !Scanned(items, names, x, i + 1).live;
      }
    }
    if !Scanned(items, names, x, i).live {
      StaysStopped(items, names, x, i, n);
    }
  }

  lemma {:induction false} StaysStopped(items: seq<Item>, names: seq<string>, x: string, i: nat, n: nat)
    requires i <= n <= |items| && !Scanned(items, names, x, i).live
    ensures Scanned(items, names, x, n) == Scanned(items, names, x, i)
  {
    if n > i {
      StaysStopped(items, names, x, i, n - 1);
    }
  }

  /** The question count of a block's `Questions` entry, `len(block.get('Questions', []))`. */
  function Length(q: Questions): nat {
    if q.Sized? then q.count else 0
  }

  /**
   * A block named more than once in a row: when no `Questions` value is rejected,
   * the flag is 1 and the count comes from the last occurrence.
   */
  lemma {:induction false} LastOccurrence(items: seq<Item>, names: seq<string>, x: string, i: nat, n: nat)
    requires i < n <= |items| && x in names
    requires items[i].Block? && items[i].name == x
    requires forall j :: 0 <= j < n && items[j].Block? && items[j].name in names ==> !items[j].questions.Unsized?
    requires forall j :: i < j < n ==> !(items[j].Block? && items[j].name == x)
    ensures Scanned(items, names, x, n) == Scan(BlockCount(1, Length(items[i].questions)), true)
  {
    if n > i + 1 {
      LastOccurrence(items, names, x, i, n - 1);
    } else {
      AlwaysLive(items, names, x, i);
    }
  }

  lemma {:induction false} AlwaysLive(items: seq<Item>, names: seq<string>, x: string, n: nat)
    requires n <= |items|
    requires forall j :: 0 <= j < n && items[j].Block? && items[j].name in names ==> !items[j].questions.Unsized?
    ensures Scanned(items, names, x, n).live
  {
    if n > 0 {
      AlwaysLive(items, names, x, n - 1);
    }
  }

  /** A block the row never names keeps the flag and the count at 0. */
  lemma {:induction false} NeverNamed(items: seq<Item>, names: seq<string>, x: string, n: nat)
    requires n <= |items|
    requires forall j :: 0 <= j < n ==> !(items[j].Block? && items[j].name == x)
    ensures Scanned(items, names, x, n).count == BlockCount(0, 0)
  {
    if n > 0 {
      NeverNamed(items, names, x, n - 1);
    }
  }

  /** The loop over a row's items, updating `block_info`; a rejected `Questions` value ends it. */
  method ScanRow(items: seq<Item>, names: seq<string>) returns (info: map<string, BlockCount>)
    ensures forall x :: x in info <==> x in names
    ensures forall x :: x in names ==> info[x] == Scanned(items, names, x, |items|).count
  {
    info := map x | x in names :: BlockCount(0, 0);
    var i := 0;
    while i < |items|
      invariant i <= |items|
      invariant forall x :: x in info <==> x in names
      invariant forall x :: x in names ==> info[x] == Scanned(items, names, x, i).count && Scanned(items, names, x, i).live
    {
      var item := items[i];
      if item.Block? && item.name in info {
        var name := item.name;
        info := info[name := BlockCount(1, info[name].questionCount)];
        if item.questions.Unsized? {
          forall x | x in names ensures info[x] == Scanned(items, names, x, |items|).count {
            ScanStops(items, names, x, i, |items|);
          }
          return;
        }
        info := info[name := BlockCount(1, Length(item.questions))];
      }
      i := i + 1;
    }
  }

  // ---------------------------------------------------------------- records

  /** `{'pid': row.get('pid', idx), 'persona_text': ..., 'persona_summary': ...}`. */
  function BaseRecord(f: Frame, k: nat): Dict<Value>
    requires f.Valid() && k < f.height
  {
    var row := f.Row(k);
    [("pid", GetOr(row, "pid", VInt(k))),
     ("persona_text", GetOr(row, "persona_text", VStr(""))),
     ("persona_summary", GetOr(row, "persona_summary", VStr("")))]
  }

  /**
   * One pass of the block loop: the name's flag and question count under its
   * two column names. The record functions and their lemmas take the safe-name
   * function as a parameter; the records use `ColumnSafeName`.
   */
  function PutBlock(d: Dict<Value>, safe: string -> string, x: string, c: BlockCount): Dict<Value> {
    Put(Put(d, HasKeyBy(safe, x), VInt(c.present)), QuestionsKeyBy(safe, x), VInt(c.questionCount))
  }

  /** The record after the block loop's first `n` names. */
  function WithBlocks(base: Dict<Value>, names: seq<string>, counts: map<string, BlockCount>, safe: string -> string, n: nat): Dict<Value>
    requires n <= |names| && forall t :: 0 <= t < |names| ==> names[t] in counts
  {
    if n == 0 then base
    else PutBlock(WithBlocks(base, names, counts, safe, n - 1), safe, names[n - 1], counts[names[n - 1]])
  }

  /** The counts of every collected name in one row. */
  function Counts(d: Decoded, names: seq<string>): (counts: map<string, BlockCount>)
    ensures forall x :: x in counts <==> x in names
  {
    map x | x in names :: RowCount(d, names, x)
  }

  /** The record of row `k`. */
  function RecordOf(f: Frame, k: nat, names: seq<string>, d: Decoded): Dict<Value>
    requires f.Valid() && k < f.height
  {
    WithBlocks(BaseRecord(f, k), names, Counts(d, names), ColumnSafeName, |names|)
  }

  /** The `block_info` of one row: the scan of a decoded list, else every block at 0. */
  method RowCounts(names: seq<string>, d: Decoded) returns (info: map<string, BlockCount>)
    ensures info == Counts(d, names)
  {
    if d.JsonList? {
      info := ScanRow(d.items, names);
    } else {
      info := map x | x in names :: BlockCount(0, 0);
    }
    assert forall x :: x in info ==> info[x] == Counts(d, names)[x];
  }

  /** The loop that writes the two columns of every name into the record. */
  method AddBlocks(base: Dict<Value>, names: seq<string>, info: map<string, BlockCount>) returns (record: Dict<Value>)
    requires forall t :: 0 <= t < |names| ==> names[t] in info
    ensures record == WithBlocks(base, names, info, ColumnSafeName, |names|)
  {
    record := base;
    for t := 0 to |names|
      invariant record == WithBlocks(base, names, info, ColumnSafeName, t)
    {
      var name := names[t];
      record := Put(record, HasKey(name), VInt(info[name].present));
      record := Put(record, QuestionsKey(name), VInt(info[name].questionCount));
    }
  }

  /** One pass of the row loop: the base fields, the block scan, then one pair of columns per name. */
  method RowRecord(f: Frame, k: nat, names: seq<string>, d: Decoded) returns (record: Dict<Value>)
    requires f.Valid() && k < f.height
    ensures record == RecordOf(f, k, names, d)
  {
    var info := RowCounts(names, d);
    record := AddBlocks(BaseRecord(f, k), names, info);
  }

  /** The row loop: one record per row, in row order. */
  method RowRecords(f: Frame, names: seq<string>, decoded: seq<Decoded>) returns (records: seq<Dict<Value>>)
    requires f.Valid() && |decoded| == f.height
    ensures |records| == f.height
    ensures forall k :: 0 <= k < f.height ==> records[k] == RecordOf(f, k, names, decoded[k])
  {
    records := [];
    for k := 0 to f.height
      invariant |records| == k
      invariant forall j :: 0 <= j < k ==> records[j] == RecordOf(f, j, names, decoded[j])
    {
      var record := RowRecord(f, k, names, decoded[k]);
      records := records + [record];
    }
  }

  /** `create_block_based_dataset` without the download and the file output: the names and one record per row. */
  method CreateBlockBasedDataset(f: Frame, decoded: seq<Decoded>) returns (names: seq<string>, records: seq<Dict<Value>>)
    requires f.Valid() && |decoded| == f.height
    ensures SortedStrings(names) && DistinctStrings(names)
    ensures forall x :: x in names <==> Mentioned(decoded, x)
    ensures |records| == f.height
    ensures forall k :: 0 <= k < f.height ==> records[k] == RecordOf(f, k, names, decoded[k])
  {
    var all := GatherNames(decoded);
    names := SortedNames(all);
    forall x ensures x in all <==> Mentioned(decoded, x) {
      RowNamesMembers(decoded, |decoded|, x);
    }
    records := RowRecords(f, names, decoded);
  }

  // ---------------------------------------------------------------- what the records hold

  lemma KeysDiffer(a: string, b: string)
    ensures "has_" + a != "questions_" + b
    ensures "has_" + a != "pid" && "has_" + a != "persona_text" && "has_" + a != "persona_summary"
    ensures "questions_" + a != "pid" && "questions_" + a != "persona_text" && "questions_" + a != "persona_summary"
    ensures "has_" + a == "has_" + b ==> a == b
    ensures "questions_" + a == "questions_" + b ==> a == b
  {
    assert ("has_" + a)[0] == 'h' && ("questions_" + b)[0] == 'q';
    assert ("has_" + a)[4..] == a && ("has_" + b)[4..] == b;
    assert ("questions_" + a)[10..] == a && ("questions_" + b)[10..] == b;
  }

  /** Two names share their columns exactly when they share their safe name. */
  lemma SameColumns(safe: string -> string, x: string, y: string)
    ensures HasKeyBy(safe, x) == HasKeyBy(safe, y) <==> safe(x) == safe(y)
    ensures QuestionsKeyBy(safe, x) == QuestionsKeyBy(safe, y) <==> safe(x) == safe(y)
    ensures HasKeyBy(safe, x) != QuestionsKeyBy(safe, y)
  {
    KeysDiffer(safe(x), safe(y));
    KeysDiffer(safe(y), safe(x));
  }

  /** A key after one pass of the block loop. */
  lemma PutBlockGet(d: Dict<Value>, safe: string -> string, x: string, c: BlockCount, key: string)
    ensures Get(PutBlock(d, safe, x, c), key) ==
      if key == QuestionsKeyBy(safe, x) then Some(VInt(c.questionCount))
      else if key == HasKeyBy(safe, x) then Some(VInt(c.present))
      else Get(d, key)
  {
    var mid := Put(d, HasKeyBy(safe, x), VInt(c.present));
    PutGetAt(mid, QuestionsKeyBy(safe, x), VInt(c.questionCount), key);
    PutGetAt(d, HasKeyBy(safe, x), VInt(c.present), key);
  }

  /** The last of the first `n` names whose safe name is that of `names[t]`. */
  function LastSame(names: seq<string>, safe: string -> string, n: nat, t: nat): (u: nat)
    requires t < n <= |names|
    ensures t <= u < n && safe(names[u]) == safe(names[t])
    ensures forall w :: u < w < n ==> safe(names[w]) != safe(names[t])
  {
    if safe(names[n - 1]) == safe(names[t]) then n - 1 else LastSame(names, safe, n - 1, t)
  }

  /**
   * The block columns of the name `names[t]` hold the counts of the last name
   * among the first `n` whose safe name is the same (two names can share one).
   */
  lemma {:induction false} BlockColumnsAt(base: Dict<Value>, names: seq<string>, counts: map<string, BlockCount>,
                                          safe: string -> string, n: nat, t: nat)
    requires n <= |names| && forall s :: 0 <= s < |names| ==> names[s] in counts
    requires t < n
    ensures var c := counts[names[LastSame(names, safe, n, t)]];
      && Get(WithBlocks(base, names, counts, safe, n), HasKeyBy(safe, names[t])) == Some(VInt(c.present))
      && Get(WithBlocks(base, names, counts, safe, n), QuestionsKeyBy(safe, names[t])) == Some(VInt(c.questionCount))
  {
    var x := names[n - 1];
    var prev := WithBlocks(base, names, counts, safe, n - 1);
    var hk, qk := HasKeyBy(safe, names[t]), QuestionsKeyBy(safe, names[t]);
    SameColumns(safe, names[t], x);
    SameColumns(safe, x, names[t]);
    PutBlockGet(prev, safe, x, counts[x], hk);
    PutBlockGet(prev, safe, x, counts[x], qk);
    if safe(x) != safe(names[t]) {
      BlockColumnsAt(base, names, counts, safe, n - 1, t);
    }
  }

  /** The base fields keep the row's `pid` (else the row index) and its two texts. */
  lemma {:induction false} BaseFieldsKept(base: Dict<Value>, names: seq<string>, counts: map<string, BlockCount>,
                                          safe: string -> string, n: nat, key: string)
    requires n <= |names| && forall s :: 0 <= s < |names| ==> names[s] in counts
    requires key == "pid" || key == "persona_text" || key == "persona_summary"
    ensures Get(WithBlocks(base, names, counts, safe, n), key) == Get(base, key)
  {
    if n > 0 {
      var x := names[n - 1];
      KeysDiffer(safe(x), safe(x));
      BaseFieldsKept(base, names, counts, safe, n - 1, key);
      PutBlockGet(WithBlocks(base, names, counts, safe, n - 1), safe, x, counts[x], key);
    }
  }

  /** Every record keeps the row's `pid`, else the row index. */
  lemma RecordPid(f: Frame, k: nat, names: seq<string>, d: Decoded)
    requires f.Valid() && k < f.height
    ensures Get(RecordOf(f, k, names, d), "pid") == Some(if "pid" in f.columns then f.Cell("pid", k) else VInt(k))
  {
    BaseFieldsKept(BaseRecord(f, k), names, Counts(d, names), ColumnSafeName, |names|, "pid");
    RowGet(f, k, "pid");
  }

  /**
   * Every record has both block columns of every collected name, a flag of 0
   * or 1, and a count of 0 whenever the flag is 0.
   */
  lemma RecordShape(f: Frame, k: nat, names: seq<string>, d: Decoded, x: string)
    requires f.Valid() && k < f.height && x in names
    ensures var r := RecordOf(f, k, names, d);
      && Get(r, HasKey(x)).Some? && Get(r, QuestionsKey(x)).Some?
      && (Get(r, HasKey(x)) == Some(VInt(0)) || Get(r, HasKey(x)) == Some(VInt(1)))
      && (Get(r, HasKey(x)) == Some(VInt(0)) ==> Get(r, QuestionsKey(x)) == Some(VInt(0)))
  {
    var counts := Counts(d, names);
    var t :| 0 <= t < |names| && names[t] == x;
    BlockColumnsAt(BaseRecord(f, k), names, counts, ColumnSafeName, |names|, t);
    var u := LastSame(names, ColumnSafeName, |names|, t);
    var c := counts[names[u]];
    assert c == RowCount(d, names, names[u]);
    if d.JsonList? {
      ScannedShape(d.items, names, names[u], |d.items|);
    }
    var r := RecordOf(f, k, names, d);
    assert Get(r, HasKey(x)) == Some(VInt(c.present));
    assert Get(r, QuestionsKey(x)) == Some(VInt(c.questionCount));
    assert c.present == 0 || c.present == 1;
  }

  /** A row whose `persona_json` is not a decodable list has every block at 0. */
  lemma UndecodedRowEmpty(f: Frame, k: nat, names: seq<string>, d: Decoded, x: string)
    requires f.Valid() && k < f.height && x in names && !d.JsonList?
    ensures Get(RecordOf(f, k, names, d), HasKey(x)) == Some(VInt(0))
    ensures Get(RecordOf(f, k, names, d), QuestionsKey(x)) == Some(VInt(0))
  {
    var counts := Counts(d, names);
    var t :| 0 <= t < |names| && names[t] == x;
    BlockColumnsAt(BaseRecord(f, k), names, counts, ColumnSafeName, |names|, t);
    var u := LastSame(names, ColumnSafeName, |names|, t);
  }

  /**
   * When no two collected names share a safe name, each block's columns hold
   * that block's own flag and question count.
   */
  lemma RecordColumns(f: Frame, k: nat, names: seq<string>, d: Decoded, t: nat)
    requires f.Valid() && k < f.height && t < |names|
    requires forall s :: 0 <= s < |names| && s != t ==> ColumnSafeName(names[s]) != ColumnSafeName(names[t])
    ensures Get(RecordOf(f, k, names, d), HasKey(names[t])) == Some(VInt(RowCount(d, names, names[t]).present))
    ensures Get(RecordOf(f, k, names, d), QuestionsKey(names[t])) == Some(VInt(RowCount(d, names, names[t]).questionCount))
  {
    var counts := Counts(d, names);
    BlockColumnsAt(BaseRecord(f, k), names, counts, ColumnSafeName, |names|, t);
    var u := LastSame(names, ColumnSafeName, |names|, t);
  }
}
