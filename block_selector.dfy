/**
 * The block-based persona selector (scripts/block_based_selector.py): a frame
 * whose `has_<block>` / `questions_<block>` columns say which question blocks
 * each persona answered, filters on those columns, the list of available
 * blocks, a sample and lookup by id.
 */
module BlockSelector {
  import opened Wrappers
  import opened Text
  import opened PyValues
  import Processed = DatasetLoader

  type Persona = Processed.Persona

  // ---------------------------------------------------------------- column names

  /** The safe name of a block: lower-cased, spaces and hyphens to `_`, parentheses removed. */
  function SafeName(block: string): (r: string)
    ensures |r| <= |block|
    ensures forall i :: 0 <= i < |r| ==>
      !IsAsciiUpper(r[i]) && r[i] != ' ' && r[i] != '-' && r[i] != '(' && r[i] != ')'
  {
    var lowered := Lower(block);
    var underscored := ReplaceChar(ReplaceChar(lowered, ' ', '_'), '-', '_');
    assert forall x :: x in underscored ==> !IsAsciiUpper(x) && x != ' ' && x != '-' by {
      forall x | x in underscored ensures !IsAsciiUpper(x) && x != ' ' && x != '-' {
        var i :| 0 <= i < |underscored| && underscored[i] == x;
      }
    }
    var unbracketed := RemoveChar(underscored, '(');
    var r := RemoveChar(unbracketed, ')');
    assert forall i :: 0 <= i < |r| ==> r[i] in r;
    RemoveCharLength(underscored, '(');
    RemoveCharLength(unbracketed, ')');
    r
  }

  lemma {:induction false} RemoveCharLength(s: string, c: char)
    ensures |RemoveChar(s, c)| <= |s|
  {
    if s != [] {
      RemoveCharLength(s[1..], c);
    }
  }

  function HasColumn(block: string): string {
    "has_" + SafeName(block)
  }

  function QuestionsColumn(block: string): string {
    "questions_" + SafeName(block)
  }

  // ---------------------------------------------------------------- personas of a frame

  /** `str(row.get('pid', idx))`: the `pid` cell, else the row label. */
  function PersonaAt(f: Frame, k: nat): Persona
    requires f.Valid() && k < f.height
  {
    Processed.Persona(ToStr(GetOr(f.Row(k), "pid", VInt(k))), f.Row(k))
  }

  /** The personas of the rows `ks`, in that order. */
  function PersonasAt(f: Frame, ks: seq<nat>): (r: seq<Persona>)
    requires f.Valid() && forall t :: 0 <= t < |ks| ==> ks[t] < f.height
    ensures |r| == |ks|
    ensures forall t :: 0 <= t < |ks| ==> r[t] == PersonaAt(f, ks[t])
  {
    if ks == [] then [] else PersonasAt(f, ks[..|ks| - 1]) + [PersonaAt(f, ks[|ks| - 1])]
  }

  /** Each persona keeps its row; its id is the `pid` cell, else the row index. */
  lemma PersonaIds(f: Frame, k: nat)
    requires f.Valid() && k < f.height
    ensures PersonaAt(f, k).data == f.Row(k)
    ensures PersonaAt(f, k).id == if "pid" in f.columns then ToStr(f.Cell("pid", k)) else IntToString(k)
  {
    RowGet(f, k, "pid");
  }

  /** The loop that turns the surviving rows into personas, in row order. */
  method RowPersonas(f: Frame, rows: seq<nat>) returns (r: seq<Persona>)
    requires f.Valid() && forall t :: 0 <= t < |rows| ==> rows[t] < f.height
    ensures r == PersonasAt(f, rows)
  {
    r := [];
    for j := 0 to |rows|
      invariant r == PersonasAt(f, rows[..j])
    {
      assert rows[..j + 1][..j] == rows[..j];
      r := r + [PersonaAt(f, rows[j])];
    }
    assert rows[..|rows|] == rows;
  }

  // ---------------------------------------------------------------- block filters

  /** The row at `k` has the block, or the block has no column and filters nothing. */
  predicate HasBlock(f: Frame, block: string, k: nat)
    requires f.Valid() && k < f.height
  {
    HasColumn(block) in f.columns ==> f.Cell(HasColumn(block), k) == VInt(1)
  }

  predicate HasAll(f: Frame, blocks: seq<string>, k: nat)
    requires f.Valid() && k < f.height
  {
    forall i | 0 <= i < |blocks| :: HasBlock(f, blocks[i], k)
  }

  /** The rows that have every listed block, as a test on row positions. */
  function HavingAll(f: Frame, blocks: seq<string>): nat -> bool
    requires f.Valid()
  {
    (k: nat) => k < f.height && HasAll(f, blocks, k)
  }

  function Having(f: Frame, block: string): nat -> bool
    requires f.Valid()
  {
    (k: nat) => k < f.height && HasBlock(f, block, k)
  }

  /** The rows that have every listed block, in row order. */
  function BlockRows(f: Frame, blocks: seq<string>): (r: seq<nat>)
    requires f.Valid()
    ensures forall t :: 0 <= t < |r| ==> r[t] < f.height
  {
    Processed.UpTo(HavingAll(f, blocks), f.height)
  }

  lemma HasAllSnoc(f: Frame, blocks: seq<string>, b: string, k: nat)
    requires f.Valid() && k < f.height
    ensures HasAll(f, blocks + [b], k) <==> HasAll(f, blocks, k) && HasBlock(f, b, k)
  {
    assert forall i | 0 <= i < |blocks| :: (blocks + [b])[i] == blocks[i];
    assert (blocks + [b])[|blocks|] == b;
  }

  /** `filtered_df[filtered_df[has_col] == 1]` for one more block. */
  lemma KeepBlock(f: Frame, blocks: seq<string>, b: string)
    requires f.Valid()
    ensures Processed.Select(BlockRows(f, blocks), Having(f, b)) == BlockRows(f, blocks + [b])
  {
    forall k: nat
      ensures HavingAll(f, blocks + [b])(k) == (HavingAll(f, blocks)(k) && Having(f, b)(k))
    {
      if k < f.height {
        HasAllSnoc(f, blocks, b, k);
      }
    }
    Processed.SelectUpTo(HavingAll(f, blocks), Having(f, b), HavingAll(f, blocks + [b]), f.height);
  }

  /** A block without a `has_` column does not narrow the selection. */
  lemma UnknownBlockIgnored(f: Frame, blocks: seq<string>, b: string)
    requires f.Valid() && HasColumn(b) !in f.columns
    ensures BlockRows(f, blocks + [b]) == BlockRows(f, blocks)
  {
    KeepBlock(f, blocks, b);
    var rows := BlockRows(f, blocks);
    Processed.SelectEverything(rows, Having(f, b));
  }

  /** With no blocks listed every row survives. */
  lemma NoBlocks(f: Frame)
    requires f.Valid()
    ensures BlockRows(f, []) == Processed.Range(f.height)
  {
    Processed.UpToEverything(HavingAll(f, []), f.height);
  }

  /** A row survives exactly when it has `has_<block> == 1` for every listed block with a column. */
  lemma BlockRowsMembers(f: Frame, blocks: seq<string>, k: nat)
    requires f.Valid()
    ensures k in BlockRows(f, blocks) <==>
      k < f.height && forall i | 0 <= i < |blocks| ::
        HasColumn(blocks[i]) in f.columns ==> f.Cell(HasColumn(blocks[i]), k) == VInt(1)
  {
    Processed.UpToMembers(HavingAll(f, blocks), f.height);
  }

  /** The surviving rows keep the frame's order. */
  lemma BlockRowsIncreasing(f: Frame, blocks: seq<string>)
    requires f.Valid()
    ensures forall s, t :: 0 <= s < t < |BlockRows(f, blocks)| ==> BlockRows(f, blocks)[s] < BlockRows(f, blocks)[t]
  {
    Processed.UpToIncreasing(HavingAll(f, blocks), f.height);
  }

  /** The block loops: each listed block narrows the rows that survived the blocks before it. */
  method NarrowByBlocks(f: Frame, ghost done: seq<string>, rows0: seq<nat>, blocks: seq<string>) returns (rows: seq<nat>)
    requires f.Valid() && rows0 == BlockRows(f, done)
    ensures rows == BlockRows(f, done + blocks)
  {
    rows := rows0;
    assert done + blocks[..0] == done;
    for i := 0 to |blocks|
      invariant rows == BlockRows(f, done + blocks[..i])
    {
      ghost var before := done + blocks[..i];
      assert done + blocks[..i + 1] == before + [blocks[i]];
      rows := NarrowByBlock(f, before, rows, blocks[i]);
    }
    assert blocks[..|blocks|] == blocks;
  }

  /** One pass of a block loop: the rows that have this block too, if it has a column. */
  method NarrowByBlock(f: Frame, ghost done: seq<string>, rows0: seq<nat>, block: string) returns (rows: seq<nat>)
    requires f.Valid() && rows0 == BlockRows(f, done)
    ensures rows == BlockRows(f, done + [block])
  {
    KeepBlock(f, done, block);
    var hasCol := HasColumn(block);
    if hasCol in f.columns {
      rows := Processed.Select(rows0, Having(f, block));
    } else {
      UnknownBlockIgnored(f, done, block);
      rows := rows0;
    }
  }

  // ---------------------------------------------------------------- question counts

  /** pandas' `cell >= m` and `cell <= m`; a missing value compares false. */
  predicate AtLeast(v: Value, m: int) {
    v.VInt? && v.i >= m
  }

  predicate AtMost(v: Value, m: int) {
    v.VInt? && v.i <= m
  }

  /** The rows whose count in column `q` lies in `[lo, hi]`; no `hi` means no upper bound. */
  function InCountRange(f: Frame, q: string, lo: int, hi: Option<int>): nat -> bool
    requires f.Valid() && q in f.columns
  {
    (k: nat) => k < f.height && AtLeast(f.Cell(q, k), lo) && (hi.None? || AtMost(f.Cell(q, k), hi.value))
  }

  function CountAtLeast(f: Frame, q: string, lo: int): nat -> bool
    requires f.Valid() && q in f.columns
  {
    (k: nat) => k < f.height && AtLeast(f.Cell(q, k), lo)
  }

  function CountAtMost(f: Frame, q: string, hi: int): nat -> bool
    requires f.Valid() && q in f.columns
  {
    (k: nat) => k < f.height && AtMost(f.Cell(q, k), hi)
  }

  function Everything(f: Frame): nat -> bool {
    (k: nat) => k < f.height
  }

  /** The two masks of `filter_by_question_count`: the rows whose count lies in the range. */
  method CountRows(f: Frame, q: string, lo: int, hi: Option<int>) returns (rows: seq<nat>)
    requires f.Valid() && q in f.columns
    ensures rows == Processed.UpTo(InCountRange(f, q, lo, hi), f.height)
  {
    Processed.UpToEverything(Everything(f), f.height);
    Processed.SelectUpTo(Everything(f), CountAtLeast(f, q, lo), CountAtLeast(f, q, lo), f.height);
    rows := Processed.Select(Processed.Range(f.height), CountAtLeast(f, q, lo));
    if hi.Some? {
      Processed.SelectUpTo(CountAtLeast(f, q, lo), CountAtMost(f, q, hi.value), InCountRange(f, q, lo, hi), f.height);
      rows := Processed.Select(rows, CountAtMost(f, q, hi.value));
    } else {
      Processed.SelectUpTo(CountAtLeast(f, q, lo), Everything(f), InCountRange(f, q, lo, hi), f.height);
      Processed.SelectEverything(rows, Everything(f));
    }
  }

  /** Both bounds are inclusive, and the rows keep their order. */
  lemma CountRowsMembers(f: Frame, q: string, lo: int, hi: Option<int>, k: nat)
    requires f.Valid() && q in f.columns
    ensures var rows := Processed.UpTo(InCountRange(f, q, lo, hi), f.height);
      && (k in rows <==> k < f.height && f.Cell(q, k).VInt? && lo <= f.Cell(q, k).i
                         && (hi.Some? ==> f.Cell(q, k).i <= hi.value))
      && forall s, t :: 0 <= s < t < |rows| ==> rows[s] < rows[t]
  {
    Processed.UpToMembers(InCountRange(f, q, lo, hi), f.height);
    Processed.UpToIncreasing(InCountRange(f, q, lo, hi), f.height);
  }

  // ---------------------------------------------------------------- available blocks

  /** `col.replace('has_', '').replace('_', ' ').title()`. */
  function BlockLabel(col: string): string {
    Title(ReplaceChar(ReplaceAll(col, "has_", ""), '_', ' '))
  }

  /** The labels of the `has_` columns, in column order. */
  function BlockLabels(columns: seq<string>): seq<string> {
    if columns == [] then []
    else BlockLabels(columns[..|columns| - 1])
         + (if StartsWith(columns[|columns| - 1], "has_") then [BlockLabel(columns[|columns| - 1])] else [])
  }

  /** Every label comes from a `has_` column, and every `has_` column gives one. */
  lemma {:induction false} BlockLabelsFacts(columns: seq<string>)
    ensures forall x :: x in BlockLabels(columns) ==>
      exists c :: c in columns && StartsWith(c, "has_") && x == BlockLabel(c)
    ensures forall c :: c in columns && StartsWith(c, "has_") ==> BlockLabel(c) in BlockLabels(columns)
  {
    if columns != [] {
      var init := columns[..|columns| - 1];
      BlockLabelsFacts(init);
      assert columns == init + [columns[|columns| - 1]];
    }
  }

  // ---------------------------------------------------------------- the selector

  /** The selector: the loaded frame, if any, and its personas. */
  class BlockBasedSelector {
    var df: Option<Frame>
    var personas: seq<Persona>

    constructor ()
      ensures df == None && personas == []
    {
      df := None;
      personas := [];
    }

    /** `load` with the file already read: keep the frame and build its personas. */
    method Load(frame: Frame)
      requires frame.Valid()
      modifies this
      ensures df == Some(frame)
      ensures personas == PersonasAt(frame, Processed.Range(frame.height))
    {
      df := Some(frame);
      CreatePersonas();
    }

    /** `_create_personas`: one persona per row, in row order. */
    method CreatePersonas()
      requires df.Some? && df.value.Valid()
      modifies this`personas
      ensures personas == PersonasAt(df.value, Processed.Range(df.value.height))
    {
      var f := df.value;
      personas := [];
      for k := 0 to f.height
        invariant personas == PersonasAt(f, Processed.Range(k))
      {
        assert Processed.Range(k + 1)[..k] == Processed.Range(k);
        personas := personas + [PersonaAt(f, k)];
      }
    }

    /** `get_available_blocks`: the sorted labels of the `has_` columns; none without data. */
    function GetAvailableBlocks(): (r: seq<string>)
      reads this
      ensures df.None? ==> r == []
      ensures df.Some? ==> SortedStrings(r) && multiset(r) == multiset(BlockLabels(df.value.columns))
    {
      if df.None? then []
      else
        var labels := BlockLabels(df.value.columns);
        SortStringsCorrect(labels);
        SortStrings(labels)
    }

    /**
     * `filter_by_blocks`: the rows with `has_<block> == 1` for every required and
     * every optional block that has a column, in row order.
     */
    method FilterByBlocks(required: seq<string>, optional: seq<string>) returns (r: seq<Persona>)
      requires df.Some? ==> df.value.Valid()
      ensures df.None? ==> r == []
      ensures df.Some? ==> r == PersonasAt(df.value, BlockRows(df.value, required + optional))
    {
      if df.None? {
        return [];
      }
      var f := df.value;
      NoBlocks(f);
      var rows := NarrowByBlocks(f, [], Processed.Range(f.height), required);
      assert [] + required == required;
      if |optional| > 0 {
        rows := NarrowByBlocks(f, required, rows, optional);
      } else {
        assert required + optional == required;
      }
      r := RowPersonas(f, rows);
    }

    /**
     * `filter_by_question_count`: nothing for a block without a `questions_` column;
     * otherwise the rows whose count lies in `[minQuestions, maxQuestions]`.
     */
    method FilterByQuestionCount(block: string, minQuestions: int, maxQuestions: Option<int>) returns (r: seq<Persona>)
      requires df.Some? ==> df.value.Valid()
      ensures df.None? || QuestionsColumn(block) !in df.value.columns ==> r == []
      ensures df.Some? && QuestionsColumn(block) in df.value.columns ==>
        r == PersonasAt(df.value, Processed.UpTo(InCountRange(df.value, QuestionsColumn(block), minQuestions, maxQuestions), df.value.height))
    {
      if df.None? {
        return [];
      }
      var f := df.value;
      var q := QuestionsColumn(block);
      if q !in f.columns {
        return [];
      }
      var rows := CountRows(f, q, minQuestions, maxQuestions);
      r := RowPersonas(f, rows);
    }

    /** The personas `get_random_sample` draws from. */
    function Candidates(required: seq<string>): seq<Persona>
      reads this
      requires df.Some? ==> df.value.Valid()
    {
      if |required| > 0 then
        if df.None? then [] else PersonasAt(df.value, BlockRows(df.value, required))
      else personas
    }

    /**
     * `get_random_sample`: all candidates, in order, when `n` covers them; otherwise
     * the candidates at the positions `random.sample` drew.
     */
    method GetRandomSample(n: nat, draw: seq<nat>, required: seq<string>) returns (r: seq<Persona>)
      requires df.Some? ==> df.value.Valid()
      requires n < |Candidates(required)| ==>
        |draw| == n && Distinct(draw) && forall t :: 0 <= t < n ==> draw[t] < |Candidates(required)|
      ensures n >= |Candidates(required)| ==> r == Candidates(required)
      ensures n < |Candidates(required)| ==>
        |r| == n && forall t :: 0 <= t < n ==> r[t] == Candidates(required)[draw[t]]
      ensures Distinct(Candidates(required)) ==> Distinct(r)
    {
      var candidates: seq<Persona>;
      if |required| > 0 {
        candidates := FilterByBlocks(required, []);
        assert required + [] == required;
      } else {
        candidates := personas;
      }
      if n >= |candidates| {
        return candidates;
      }
      r := seq(n, t requires 0 <= t < n => candidates[draw[t]]);
      if Distinct(candidates) {
        forall s, t | 0 <= s < t < n ensures r[s] != r[t] {
          assert draw[s] != draw[t];
        }
      }
    }

    /** `get_persona_by_id`: the first persona with that id, else `None`. */
    method GetPersonaById(id: string) returns (r: Option<Persona>)
      ensures r.None? <==> forall i :: 0 <= i < |personas| ==> personas[i].id != id
      ensures r.Some? ==> exists i :: 0 <= i < |personas| && personas[i] == r.value && r.value.id == id
                                      && forall j :: 0 <= j < i ==> personas[j].id != id
    {
      r := Processed.FirstWithId(personas, id);
    }
  }
}
