/**
 * The packaged copy of the digital-twin survey system. Its survey and
 * interview runs are the command-line system's, line for line; only the
 * selection differs: a single `keyword` criterion matched against the
 * row's `persona_text`, case-insensitively.
 */
module TwinSurveyPackage {
  import opened Wrappers
  import opened Text
  import opened PyValues
  import Backend
  import DatasetLoader
  import TwinSurvey

  type Row = TwinSurvey.Row
  type Cell = TwinSurvey.Cell

  // ---------------------------------------------------------------- keyword selection

  /** `row.get('persona_text', '')` can be lower-cased: the column is a string or absent. */
  predicate LowerableText(row: Row) {
    var c := Get(row, "persona_text");
    c.None? || (c.value.Scalar? && c.value.v.VStr?)
  }

  /** `row.get('persona_text', '')`. */
  function PersonaText(row: Row): (r: string)
    requires LowerableText(row)
    ensures Get(row, "persona_text").None? ==> r == ""
    ensures Get(row, "persona_text").Some? ==> Get(row, "persona_text") == Some(TwinSurvey.Scalar(VStr(r)))
  {
    var c := Get(row, "persona_text");
    if c.Some? then c.value.v.s else ""
  }

  /** `criteria['keyword']`, when the key is present. */
  function Keyword(criteria: Dict<Value>): Option<Value> {
    Get(criteria, "keyword")
  }

  /**
   * The keyword filter runs without raising: with a keyword present and at
   * least one row, the keyword and every row's `persona_text` are strings
   * (`.lower()` of anything else raises and aborts the selection).
   */
  predicate Filterable(rows: seq<Row>, criteria: Dict<Value>) {
    Keyword(criteria).Some? && |rows| > 0 ==>
      Keyword(criteria).value.VStr? && forall k :: 0 <= k < |rows| ==> LowerableText(rows[k])
  }

  /** The row's text contains the keyword, both lower-cased. */
  predicate KeywordIn(row: Row, keyword: string)
    requires LowerableText(row)
  {
    Contains(Lower(PersonaText(row)), Lower(keyword))
  }

  /** The rows the keyword admits, as a predicate on row indices. */
  function Matches(rows: seq<Row>, keyword: string): nat -> bool
    requires forall k :: 0 <= k < |rows| ==> LowerableText(rows[k])
  {
    (k: nat) => k < |rows| && KeywordIn(rows[k], keyword)
  }

  /** The indices below `n` that the loop has appended. */
  function Filtered(rows: seq<Row>, criteria: Dict<Value>, n: nat): seq<nat>
    requires Filterable(rows, criteria) && n <= |rows|
  {
    if Keyword(criteria).None? then DatasetLoader.Range(n)
    else if n == 0 then []
    else DatasetLoader.UpTo(Matches(rows, Keyword(criteria).value.s), n)
  }

  /** The indices `select_personas_by_criteria` returns. */
  function Selection(rows: seq<Row>, criteria: Option<Dict<Value>>): seq<nat>
    requires criteria.Some? ==> Filterable(rows, criteria.value)
  {
    if criteria.None? then DatasetLoader.Range(|rows|) else Filtered(rows, criteria.value, |rows|)
  }

  /**
   * Without criteria, or without a keyword among them, every index is
   * selected; with a keyword, exactly the rows whose text contains it,
   * ignoring case. Either way each index appears once, in increasing order.
   */
  lemma SelectionMembers(rows: seq<Row>, criteria: Option<Dict<Value>>)
    requires criteria.Some? ==> Filterable(rows, criteria.value)
    ensures criteria.None? || Keyword(criteria.value).None? ==>
              forall k: nat :: k in Selection(rows, criteria) <==> k < |rows|
    ensures criteria.Some? && Keyword(criteria.value).Some? ==>
              forall k: nat :: k in Selection(rows, criteria) <==>
                k < |rows| && KeywordIn(rows[k], Keyword(criteria.value).value.s)
    ensures forall s, t :: 0 <= s < t < |Selection(rows, criteria)| ==>
              Selection(rows, criteria)[s] < Selection(rows, criteria)[t]
  {
    var r := Selection(rows, criteria);
    if criteria.None? || Keyword(criteria.value).None? {
      assert r == DatasetLoader.Range(|rows|);
      forall k: nat ensures k in r <==> k < |rows| {
        if k < |rows| {
          assert r[k] == k;
        }
      }
    } else if |rows| > 0 {
      var p := Matches(rows, Keyword(criteria.value).value.s);
      DatasetLoader.UpToMembers(p, |rows|);
      DatasetLoader.UpToIncreasing(p, |rows|);
    }
  }

  /**
   * The loop over the rows: every index without a keyword, else those whose
   * text contains it. The source tests for the keyword inside the loop; the
   * test does not depend on the row, so it is made once here.
   */
  method FilterRows(rows: seq<Row>, criteria: Dict<Value>) returns (selected: seq<nat>)
    requires Filterable(rows, criteria)
    ensures selected == Filtered(rows, criteria, |rows|)
  {
    var keyword := Get(criteria, "keyword");
    if keyword.None? {
      selected := AllRows(|rows|);
    } else if |rows| == 0 {
      selected := [];
    } else {
      selected := KeywordRows(rows, keyword.value.s);
    }
  }

  /** Without a keyword every row is appended. */
  method AllRows(n: nat) returns (selected: seq<nat>)
    ensures selected == DatasetLoader.Range(n)
  {
    selected := [];
    for idx := 0 to n
      invariant selected == DatasetLoader.Range(idx)
    {
      selected := selected + [idx];
    }
  }

  /** With a keyword, the rows whose text contains it are appended. */
  method KeywordRows(rows: seq<Row>, keyword: string) returns (selected: seq<nat>)
    requires forall k :: 0 <= k < |rows| ==> LowerableText(rows[k])
    ensures selected == DatasetLoader.UpTo(Matches(rows, keyword), |rows|)
  {
    selected := [];
    for idx := 0 to |rows|
      invariant selected == DatasetLoader.UpTo(Matches(rows, keyword), idx)
    {
      var hit := KeywordHit(rows, idx, keyword);
      selected := selected + (if hit then [idx] else []);
    }
  }

  /** One row's keyword test, and the step it adds to the selection. */
  method KeywordHit(rows: seq<Row>, idx: nat, keyword: string) returns (hit: bool)
    requires forall k :: 0 <= k < |rows| ==> LowerableText(rows[k])
    requires idx < |rows|
    ensures hit == KeywordIn(rows[idx], keyword)
    ensures DatasetLoader.UpTo(Matches(rows, keyword), idx + 1)
            == DatasetLoader.UpTo(Matches(rows, keyword), idx) + (if hit then [idx] else [])
  {
    var text := PersonaText(rows[idx]);
    hit := Contains(Lower(text), Lower(keyword));
  }

  // ---------------------------------------------------------------- the system

  class DigitalTwinSurveySystem {
    /** `dataset['data']`, the loaded rows. */
    var dataset: seq<Row>
    var selectedPersonas: seq<nat>
    /** One record list (one DataFrame) per survey run, oldest first. */
    var surveyResults: seq<seq<Dict<Cell>>>
    var interviewResults: seq<seq<Dict<Cell>>>

    /** A system over a loaded dataset, with nothing selected and no results. */
    constructor(rows: seq<Row>)
      ensures dataset == rows && selectedPersonas == [] && surveyResults == [] && interviewResults == []
    {
      dataset := rows;
      selectedPersonas := [];
      surveyResults := [];
      interviewResults := [];
    }

    /** The last step of the interactive selection: `self.selected_personas = selected`. */
    method SetSelectedPersonas(selected: seq<nat>)
      modifies this
      ensures selectedPersonas == selected
      ensures dataset == old(dataset) && surveyResults == old(surveyResults)
              && interviewResults == old(interviewResults)
    {
      selectedPersonas := selected;
    }

    /** `select_personas_by_criteria`: every index, or the rows whose text contains the keyword. */
    method SelectPersonasByCriteria(criteria: Option<Dict<Value>>) returns (selected: seq<nat>)
      requires criteria.Some? ==> Filterable(dataset, criteria.value)
      ensures selected == Selection(dataset, criteria)
    {
      if criteria.None? {
        return DatasetLoader.Range(|dataset|);
      }
      selected := FilterRows(dataset, criteria.value);
    }

    /**
     * `conduct_survey`: the given indices, else the selected personas, each
     * answer every question; the table is returned and appended to
     * `surveyResults`.
     */
    method ConductSurvey(questions: seq<string>, personaIndices: Option<seq<nat>>, backend: Backend.Oracle,
                         decode: string -> TwinSurvey.Decoded, describe: Cell -> string)
      returns (table: seq<Dict<Cell>>)
      requires TwinSurvey.InRange(dataset, personaIndices.GetOr(selectedPersonas))
      modifies this
      ensures dataset == old(dataset) && selectedPersonas == old(selectedPersonas)
      ensures table == TwinSurvey.SurveyTable(dataset, personaIndices.GetOr(selectedPersonas), questions,
                                              backend, decode, describe)
      ensures surveyResults == old(surveyResults) + [table]
      ensures interviewResults == old(interviewResults)
    {
      var indices := if personaIndices.None? then selectedPersonas else personaIndices.value;
      table := TwinSurvey.SurveyRecords(dataset, indices, questions, backend, decode, describe);
      surveyResults := surveyResults + [table];
    }

    /**
     * `conduct_interview`: the given indices, else the selected personas, each
     * answer every question; the table is returned and appended to
     * `interviewResults`.
     */
    method ConductInterview(questions: seq<string>, personaIndices: Option<seq<nat>>, backend: Backend.Oracle,
                            describe: Cell -> string)
      returns (table: seq<Dict<Cell>>)
      requires TwinSurvey.InRange(dataset, personaIndices.GetOr(selectedPersonas))
      modifies this
      ensures dataset == old(dataset) && selectedPersonas == old(selectedPersonas)
      ensures table == TwinSurvey.InterviewTable(dataset, personaIndices.GetOr(selectedPersonas), questions,
                                                 backend, describe)
      ensures interviewResults == old(interviewResults) + [table]
      ensures surveyResults == old(surveyResults)
    {
      var indices := if personaIndices.None? then selectedPersonas else personaIndices.value;
      table := TwinSurvey.InterviewRecords(dataset, indices, questions, backend, describe);
      interviewResults := interviewResults + [table];
    }
  }
}
