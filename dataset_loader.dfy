/**
 * The processed-dataset loader (src/dataset_loader.py): personas built from
 * the rows of a DataFrame, lookup by id, column filters, a sample and the
 * grouping of columns into categories.
 */
module DatasetLoader {
  import opened Wrappers
  import opened Text
  import opened PyValues

  /** A digital-twin persona: its id and the row it was built from. */
  datatype Persona = Persona(id: string, data: Dict<Value>) {

    /** `Persona.get_summary`: the two text fields, each shortened to 200 characters. */
    method GetSummary() returns (s: string)
      ensures s == SummaryText(data)
    {
      var parts := CollectSummaryLines(data, SummaryFields);
      if parts != [] {
        s := Join(parts, "\n");
      } else {
        s := "No summary available";
      }
    }
  }

  /** The loop of `get_summary`: one line per listed field that is present and truthy. */
  method CollectSummaryLines(data: Dict<Value>, keyFields: seq<string>) returns (parts: seq<string>)
    ensures parts == SummaryLines(data, keyFields, |keyFields|)
  {
    parts := [];
    for i := 0 to |keyFields|
      invariant parts == SummaryLines(data, keyFields, i)
    {
      var line := FieldSummary(data, keyFields[i]);
      parts := parts + line;
    }
  }

  /** One pass of that loop: the field's line, if it is present and truthy. */
  method FieldSummary(data: Dict<Value>, field: string) returns (line: seq<string>)
    ensures line == SummaryLine(data, field)
  {
    line := [];
    var found := Get(data, field);
    if found.Some? && Truthy(found.value) {
      var value := ToStr(found.value);
      if |value| > 200 {
        value := value[..200] + "...";
      }
      line := [Capitalize(field) + ": " + value];
    }
  }

  const SummaryFields: seq<string> := ["persona_text", "persona_summary"]

  /** The lines of the first `n` fields. */
  function SummaryLines(data: Dict<Value>, fields: seq<string>, n: nat): seq<string>
    requires n <= |fields|
  {
    if n == 0 then [] else SummaryLines(data, fields, n - 1) + SummaryLine(data, fields[n - 1])
  }

  function SummaryText(data: Dict<Value>): string {
    var parts := SummaryLines(data, SummaryFields, 2);
    if parts == [] then "No summary available" else Join(parts, "\n")
  }

  /** The summary lists `persona_text`, then `persona_summary`, or says there is none. */
  lemma SummaryTextCases(data: Dict<Value>)
    ensures var t := SummaryLine(data, "persona_text");
            var u := SummaryLine(data, "persona_summary");
            SummaryText(data) == if t + u == [] then "No summary available" else Join(t + u, "\n")
  {
    assert SummaryLines(data, SummaryFields, 1) == [] + SummaryLine(data, "persona_text");
  }

  /** The summary line for one field: present and truthy, shortened to 200 characters. */
  function SummaryLine(data: Dict<Value>, field: string): (r: seq<string>)
    ensures |r| <= 1
    ensures r != [] <==> Get(data, field).Some? && Truthy(Get(data, field).value)
    ensures r != [] ==> r[0] == Capitalize(field) + ": " + Truncate(ToStr(Get(data, field).value), 200)
  {
    match Get(data, field)
    case Some(v) => if Truthy(v) then [Capitalize(field) + ": " + Truncate(ToStr(v), 200)] else []
    case None => []
  }

  // ---------------------------------------------------------------- personas of a frame

  /** `str(row.get('id', idx))`: the `id` cell, else the row label. */
  function RowId(f: Frame, k: nat): string
    requires f.Valid() && k < f.height
  {
    ToStr(GetOr(f.Row(k), "id", VInt(k)))
  }

  function PersonaAt(f: Frame, k: nat): Persona
    requires f.Valid() && k < f.height
  {
    Persona(RowId(f, k), f.Row(k))
  }

  /** The personas of the rows `ks`, in that order. */
  function PersonasAt(f: Frame, ks: seq<nat>): (r: seq<Persona>)
    requires f.Valid() && forall t :: 0 <= t < |ks| ==> ks[t] < f.height
    ensures |r| == |ks|
    ensures forall t :: 0 <= t < |ks| ==> r[t] == PersonaAt(f, ks[t])
  {
    if ks == [] then [] else PersonasAt(f, ks[..|ks| - 1]) + [PersonaAt(f, ks[|ks| - 1])]
  }

  /** `0, 1, ..., n - 1`. */
  function Range(n: nat): (r: seq<nat>)
    ensures |r| == n && forall t :: 0 <= t < n ==> r[t] == t
  {
    if n == 0 then [] else Range(n - 1) + [n - 1]
  }

  /** One persona per row, in row order; the id is the `id` cell, else the row index. */
  lemma PersonaIds(f: Frame, k: nat)
    requires f.Valid() && k < f.height
    ensures PersonaAt(f, k).data == f.Row(k)
    ensures PersonaAt(f, k).id == if "id" in f.columns then ToStr(f.Cell("id", k)) else IntToString(k)
  {
    RowGet(f, k, "id");
  }

  // ---------------------------------------------------------------- search filters

  /** A filter value: a list means membership (`isin`), anything else equality. */
  datatype FilterValue = ListOf(items: seq<Value>) | Scalar(v: Value)

  type Filter = (string, FilterValue)

  /** The row at `k` survives the filter; a field that is not a column filters nothing. */
  predicate FilterKeeps(f: Frame, g: Filter, k: nat)
    requires f.Valid() && k < f.height
  {
    g.0 in f.columns ==>
      match g.1
      case ListOf(items) => f.Cell(g.0, k) in items
      case Scalar(v) => PyEq(f.Cell(g.0, k), v)
  }

  predicate PassesAll(f: Frame, filters: seq<Filter>, k: nat)
    requires f.Valid() && k < f.height
  {
    forall i | 0 <= i < |filters| :: FilterKeeps(f, filters[i], k)
  }

  /** The rows of the frame that survive one filter, as a test on row positions. */
  function Kept(f: Frame, g: Filter): nat -> bool
    requires f.Valid()
  {
    (k: nat) => k < f.height && FilterKeeps(f, g, k)
  }

  /** The rows of the frame that survive every filter. */
  function Passing(f: Frame, filters: seq<Filter>): nat -> bool
    requires f.Valid()
  {
    (k: nat) => k < f.height && PassesAll(f, filters, k)
  }

  /** The rows below `n` that survive every filter, in row order. */
  function Matching(f: Frame, filters: seq<Filter>, n: nat): (r: seq<nat>)
    requires f.Valid()
    ensures forall t :: 0 <= t < |r| ==> r[t] < n
  {
    UpTo(Passing(f, filters), n)
  }

  /** The positions below `n` that pass `p`, in increasing order. */
  function UpTo(p: nat -> bool, n: nat): (r: seq<nat>)
    ensures forall t :: 0 <= t < |r| ==> r[t] < n
  {
    if n == 0 then [] else UpTo(p, n - 1) + (if p(n - 1) then [n - 1] else [])
  }

  /** `rows[mask]`: the rows of `rows` that pass `p`, in order. */
  function Select(rows: seq<nat>, p: nat -> bool): (r: seq<nat>)
    ensures forall t :: 0 <= t < |r| ==> r[t] in rows
  {
    if rows == [] then []
    else
      var last := rows[|rows| - 1];
      Select(rows[..|rows| - 1], p) + (if p(last) then [last] else [])
  }

  /** `filtered_df[mask]` for one filter: the rows of `rows` that survive it, in order. */
  function Keep(f: Frame, rows: seq<nat>, g: Filter): seq<nat>
    requires f.Valid()
  {
    Select(rows, Kept(f, g))
  }

  /** Selecting by `q` among the positions passing `p` gives the positions passing both. */
  lemma {:induction false} SelectUpTo(p: nat -> bool, q: nat -> bool, both: nat -> bool, n: nat)
    requires forall k: nat :: both(k) == (p(k) && q(k))
    ensures Select(UpTo(p, n), q) == UpTo(both, n)
  {
    if n > 0 {
      SelectUpTo(p, q, both, n - 1);
      var m := UpTo(p, n - 1);
      if p(n - 1) {
        assert (m + [n - 1])[..|m|] == m;
      } else {
        assert UpTo(p, n) == m;
      }
    }
  }

  /** A position is listed exactly when it is below `n` and passes. */
  lemma {:induction false} UpToMembers(p: nat -> bool, n: nat)
    ensures forall k: nat :: k in UpTo(p, n) <==> k < n && p(k)
  {
    if n > 0 {
      UpToMembers(p, n - 1);
    }
  }

  /** The positions are listed in increasing order. */
  lemma {:induction false} UpToIncreasing(p: nat -> bool, n: nat)
    ensures forall s, t :: 0 <= s < t < |UpTo(p, n)| ==> UpTo(p, n)[s] < UpTo(p, n)[t]
  {
    if n > 0 {
      UpToIncreasing(p, n - 1);
      UpToMembers(p, n - 1);
    }
  }

  lemma {:induction false} UpToNone(p: nat -> bool, n: nat)
    requires forall k: nat :: k < n ==> !p(k)
    ensures UpTo(p, n) == []
  {
    if n > 0 {
      UpToNone(p, n - 1);
    }
  }

  lemma {:induction false} UpToEverything(p: nat -> bool, n: nat)
    requires forall k: nat :: k < n ==> p(k)
    ensures UpTo(p, n) == Range(n)
  {
    if n > 0 {
      UpToEverything(p, n - 1);
    }
  }

  lemma {:induction false} SelectEverything(rows: seq<nat>, p: nat -> bool)
    requires forall t :: 0 <= t < |rows| ==> p(rows[t])
    ensures Select(rows, p) == rows
  {
    if rows != [] {
      var init := rows[..|rows| - 1];
      assert forall t :: 0 <= t < |init| ==> init[t] == rows[t];
      SelectEverything(init, p);
      assert rows == init + [rows[|rows| - 1]];
    }
  }

  /** Narrowing the matches by one more filter gives the matches of the longer filter list. */
  lemma KeepMatching(f: Frame, filters: seq<Filter>, g: Filter, n: nat)
    requires f.Valid()
    ensures Keep(f, Matching(f, filters, n), g) == Matching(f, filters + [g], n)
  {
    forall k: nat
      ensures Passing(f, filters + [g])(k) == (Passing(f, filters)(k) && Kept(f, g)(k))
    {
      if k < f.height {
        PassesAllSnoc(f, filters, g, k);
      }
    }
    SelectUpTo(Passing(f, filters), Kept(f, g), Passing(f, filters + [g]), n);
  }

  lemma PassesAllSnoc(f: Frame, filters: seq<Filter>, g: Filter, k: nat)
    requires f.Valid() && k < f.height
    ensures PassesAll(f, filters + [g], k) <==> PassesAll(f, filters, k) && FilterKeeps(f, g, k)
  {
    assert forall i | 0 <= i < |filters| :: (filters + [g])[i] == filters[i];
    assert (filters + [g])[|filters|] == g;
  }

  /** `filtered_df = filtered_df[...]` applied to every filter in turn: exactly the rows passing all. */
  lemma MatchingMembers(f: Frame, filters: seq<Filter>, n: nat)
    requires f.Valid() && n <= f.height
    ensures forall k: nat :: k in Matching(f, filters, n) <==> k < n && PassesAll(f, filters, k)
  {
    UpToMembers(Passing(f, filters), n);
  }

  /** The surviving rows keep the frame's order. */
  lemma MatchingIncreasing(f: Frame, filters: seq<Filter>, n: nat)
    requires f.Valid()
    ensures forall s, t :: 0 <= s < t < |Matching(f, filters, n)| ==> Matching(f, filters, n)[s] < Matching(f, filters, n)[t]
  {
    UpToIncreasing(Passing(f, filters), n);
  }

  /** With no filters every row survives. */
  lemma MatchingNoFilters(f: Frame)
    requires f.Valid()
    ensures Matching(f, [], f.height) == Range(f.height)
  {
    UpToEverything(Passing(f, []), f.height);
  }

  /** A filter on a field that is not a column keeps every row. */
  lemma KeepIgnored(f: Frame, rows: seq<nat>, g: Filter)
    requires f.Valid() && forall t :: 0 <= t < |rows| ==> rows[t] < f.height
    requires g.0 !in f.columns
    ensures Keep(f, rows, g) == rows
  {
    SelectEverything(rows, Kept(f, g));
  }

  // ---------------------------------------------------------------- field categories

  /** The category index of a column: 0 basic, 1 question answers, 2 other. */
  function CategoryOf(field: string): nat {
    if IsBasicField(field) then 0
    else if StartsWith(field, "question_") then 1
    else 2
  }

  predicate IsBasicField(field: string) {
    field == "id" || field == "persona_text" || field == "persona_summary"
  }

  const CategoryNames: seq<string> := ["기본정보", "질문응답", "기타"]

  /** The fields of category `cat`, in column order. */
  function InCategory(fields: seq<string>, cat: nat): seq<string> {
    if fields == [] then []
    else InCategory(fields[..|fields| - 1], cat)
         + (if CategoryOf(fields[|fields| - 1]) == cat then [fields[|fields| - 1]] else [])
  }

  /** `{k: sorted(v) for k, v in categories.items() if v}`. */
  function SortedNonEmpty(categories: Dict<seq<string>>): (r: Dict<seq<string>>)
    ensures |r| <= |categories|
  {
    if categories == [] then []
    else
      (if categories[0].1 != [] then [(categories[0].0, SortStrings(categories[0].1))] else [])
      + SortedNonEmpty(categories[1..])
  }

  /** Every field appears in exactly one category, and the three lists together are the fields. */
  lemma {:induction false} CategoriesPartition(fields: seq<string>)
    ensures |InCategory(fields, 0)| + |InCategory(fields, 1)| + |InCategory(fields, 2)| == |fields|
    ensures forall x :: x in fields ==> x in InCategory(fields, CategoryOf(x))
    ensures forall x, c :: x in InCategory(fields, c) ==> c == CategoryOf(x) && c <= 2
  {
    if fields != [] {
      CategoriesPartition(fields[..|fields| - 1]);
      assert fields == fields[..|fields| - 1] + [fields[|fields| - 1]];
    }
  }

  /** The kept categories are in the fixed order, non-empty and sorted, and keep every field. */
  lemma {:induction false} SortedNonEmptyFacts(categories: Dict<seq<string>>)
    ensures forall i :: 0 <= i < |SortedNonEmpty(categories)| ==>
      SortedNonEmpty(categories)[i].1 != [] && SortedStrings(SortedNonEmpty(categories)[i].1)
    ensures forall i :: 0 <= i < |categories| && categories[i].1 != [] ==>
      (categories[i].0, SortStrings(categories[i].1)) in SortedNonEmpty(categories)
  {
    if categories != [] {
      SortedNonEmptyFacts(categories[1..]);
      SortStringsCorrect(categories[0].1);
      if categories[0].1 != [] {
        assert |SortStrings(categories[0].1)| == |categories[0].1| by {
          assert |multiset(SortStrings(categories[0].1))| == |multiset(categories[0].1)|;
        }
      }
      forall i | 0 <= i < |categories| && categories[i].1 != []
        ensures (categories[i].0, SortStrings(categories[i].1)) in SortedNonEmpty(categories)
      {
        if i > 0 {
          assert categories[1..][i - 1] == categories[i];
        }
      }
    }
  }

  // ---------------------------------------------------------------- the loader

  /** The first persona in `personas` whose id equals `id`. */
  method FirstWithId(personas: seq<Persona>, id: string) returns (r: Option<Persona>)
    ensures r.None? <==> forall i :: 0 <= i < |personas| ==> personas[i].id != id
    ensures r.Some? ==> exists i :: 0 <= i < |personas| && personas[i] == r.value && r.value.id == id
                                    && forall j :: 0 <= j < i ==> personas[j].id != id
  {
    for i := 0 to |personas|
      invariant forall j :: 0 <= j < i ==> personas[j].id != id
    {
      if personas[i].id == id {
        return Some(personas[i]);
      }
    }
    return None;
  }

  /** The loop of `search_personas` over the filters: each one narrows the surviving rows. */
  method FilterRows(f: Frame, filters: seq<Filter>) returns (rows: seq<nat>)
    requires f.Valid()
    ensures rows == Matching(f, filters, f.height)
  {
    rows := Range(f.height);
    MatchingNoFilters(f);
    for i := 0 to |filters|
      invariant rows == Matching(f, filters[..i], f.height)
    {
      KeepMatching(f, filters[..i], filters[i], f.height);
      assert filters[..i + 1] == filters[..i] + [filters[i]];
      if filters[i].0 in f.columns {
        rows := Keep(f, rows, filters[i]);
      } else {
        KeepIgnored(f, rows, filters[i]);
      }
    }
    assert filters[..|filters|] == filters;
  }

  /** The loop of `search_personas` over the surviving rows: one persona each, in order. */
  method RowPersonas(f: Frame, rows: seq<nat>) returns (r: seq<Persona>)
    requires f.Valid() && forall t :: 0 <= t < |rows| ==> rows[t] < f.height
    ensures r == PersonasAt(f, rows)
  {
    r := [];
    for j := 0 to |rows|
      invariant r == PersonasAt(f, rows[..j])
    {
      assert rows[..j + 1][..j] == rows[..j];
      r := r + [PersonaAt(f, rows[j])];
    }
    assert rows[..|rows|] == rows;
  }

  class DatasetLoader {
    var df: Option<Frame>
    var personas: seq<Persona>

    constructor ()
      ensures df == None && personas == []
    {
      df := None;
      personas := [];
    }

    /** `load` with the file already read: keep the frame and build its personas. */
    method Load(frame: Frame)
      requires frame.Valid()
      modifies this
      ensures df == Some(frame)
      ensures personas == PersonasAt(frame, Range(frame.height))
    {
      df := Some(frame);
      CreatePersonas();
    }

    /** `_create_personas`: one persona per row, in row order. */
    method CreatePersonas()
      requires df.Some? && df.value.Valid()
      modifies this`personas
      ensures personas == PersonasAt(df.value, Range(df.value.height))
    {
      var f := df.value;
      personas := [];
      for k := 0 to f.height
        invariant personas == PersonasAt(f, Range(k))
      {
        assert Range(k + 1)[..k] == Range(k);
        personas := personas + [PersonaAt(f, k)];
      }
    }

    /** `get_persona_by_id`: the first persona with that id, else `None`. */
    method GetPersonaById(id: string) returns (r: Option<Persona>)
      ensures r.None? <==> forall i :: 0 <= i < |personas| ==> personas[i].id != id
      ensures r.Some? ==> exists i :: 0 <= i < |personas| && personas[i] == r.value && r.value.id == id
                                      && forall j :: 0 <= j < i ==> personas[j].id != id
    {
      r := FirstWithId(personas, id);
    }

    /** `search_personas`: the filters narrow the frame one after another, row order kept. */
    method SearchPersonas(filters: seq<Filter>) returns (r: seq<Persona>)
      requires df.Some? ==> df.value.Valid()
      ensures df.None? ==> r == []
      ensures df.Some? ==> r == PersonasAt(df.value, Matching(df.value, filters, df.value.height))
    {
      if df.None? {
        return [];
      }
      var rows := FilterRows(df.value, filters);
      r := RowPersonas(df.value, rows);
    }

    /** `get_random_sample`: all personas when `n` covers them; otherwise the drawn ones. */
    function GetRandomSample(n: nat, draw: seq<nat>): (r: seq<Persona>)
      reads this
      requires n < |personas| ==> |draw| == n && Distinct(draw) && forall t :: 0 <= t < |draw| ==> draw[t] < |personas|
      ensures n >= |personas| ==> r == personas
      ensures n < |personas| ==> |r| == n && forall t :: 0 <= t < n ==> r[t] in personas
      ensures n < |personas| ==> forall t :: 0 <= t < n ==> r[t] == personas[draw[t]]
      ensures Distinct(personas) ==> Distinct(r)
    {
      var all := personas;
      if n >= |all| then all
      else
        var r := seq(n, t requires 0 <= t < n => all[draw[t]]);
        assert forall t :: 0 <= t < n ==> r[t] == all[draw[t]];
        assert Distinct(all) ==> forall s, t :: 0 <= s < t < n ==> r[s] != r[t] by {
          if Distinct(all) {
            forall s, t | 0 <= s < t < n ensures r[s] != r[t] {
              assert draw[s] != draw[t];
            }
          }
        }
        r
    }

    /** `get_categorized_fields`: each column into one of three lists, then sorted, empties dropped. */
    method GetCategorizedFields() returns (r: Dict<seq<string>>)
      requires df.Some? ==> df.value.Valid()
      ensures df.None? ==> r == []
      ensures df.Some? ==> r == SortedNonEmpty([(CategoryNames[0], InCategory(df.value.columns, 0)),
                                                (CategoryNames[1], InCategory(df.value.columns, 1)),
                                                (CategoryNames[2], InCategory(df.value.columns, 2))])
    {
      if df.None? {
        return [];
      }
      var fields := df.value.columns;
      var basic, answers, other := [], [], [];
      for i := 0 to |fields|
        invariant basic == InCategory(fields[..i], 0)
        invariant answers == InCategory(fields[..i], 1)
        invariant other == InCategory(fields[..i], 2)
      {
        assert fields[..i + 1][..i] == fields[..i];
        var field := fields[i];
        if IsBasicField(field) {
          basic := basic + [field];
        } else if StartsWith(field, "question_") {
          answers := answers + [field];
        } else {
          other := other + [field];
        }
      }
      assert fields[..|fields|] == fields;
      r := SortedNonEmpty([(CategoryNames[0], basic), (CategoryNames[1], answers), (CategoryNames[2], other)]);
    }
  }
}
