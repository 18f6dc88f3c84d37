/**
 * The command-line digital-twin survey system: personas are rows of the
 * Twin-2K-500 dataset, selected by demographic criteria read off their text,
 * then asked survey questions (a 1-7 answer and a reasoning, requested as
 * JSON) or interview questions (free text). Each run builds one record per
 * persona and appends the resulting table to the system's history.
 */
module TwinSurvey {
  import opened Wrappers
  import opened Text
  import opened PyValues
  import Patterns
  import Backend
  import Grid
  import DatasetLoader
  import AdvancedSimulation

  // ---------------------------------------------------------------- rows

  /** A dataset cell or record value: a plain value, or a JSON object with plain values. */
  datatype Cell = Scalar(v: Value) | Nested(d: Dict<Value>)

  /** A dataset row as `dataset['data'][idx]` gives it. */
  type Row = Dict<Cell>

  /** Python's `bool(c)`: an empty object is false. */
  predicate CellTruthy(c: Cell) {
    match c
    case Scalar(v) => Truthy(v)
    case Nested(d) => |d| > 0
  }

  // ---------------------------------------------------------------- the text a persona is judged by

  /** The columns tried, in order, for the persona's own text. */
  const TextColumns: seq<string> := ["persona_summary", "persona_text", "text"]

  /** A text column holds a string or `None`, or is absent. */
  predicate PlainText(c: Option<Cell>) {
    c.None? || c == Some(Scalar(VNone)) || (c.value.Scalar? && c.value.v.VStr?)
  }

  /**
   * Every text column of the row is plain. Otherwise the text may not be a
   * string: when no non-empty JSON object turns it into one and a criterion
   * searches it (a label list, a custom age range or occupations), the
   * membership test raises a `TypeError` that aborts the whole selection.
   */
  predicate PlainTextColumns(row: Row) {
    forall k :: 0 <= k < |TextColumns| ==> PlainText(Get(row, TextColumns[k]))
  }

  /** `row.get(key, '')` for a plain text column, `None` reading as empty. */
  function TextCell(row: Row, key: string): string
    requires PlainText(Get(row, key))
  {
    var c := Get(row, key);
    if c.Some? && c.value.Scalar? && c.value.v.VStr? then c.value.v.s else ""
  }

  /**
   * `persona_summary`, else `persona_text`, else `text`, else `str(row)`.
   * `rowText` is Python's printed form of the row, which is not modelled.
   */
  function BaseText(row: Row, rowText: Row -> string): string
    requires PlainTextColumns(row)
  {
    assert PlainText(Get(row, TextColumns[0])) && PlainText(Get(row, TextColumns[1]))
           && PlainText(Get(row, TextColumns[2]));
    if TextCell(row, "persona_summary") != "" then TextCell(row, "persona_summary")
    else if TextCell(row, "persona_text") != "" then TextCell(row, "persona_text")
    else if TextCell(row, "text") != "" then TextCell(row, "text")
    else rowText(row)
  }

  /**
   * `row.get('persona_json', {}) or row.get('json', {})` when it is a
   * non-empty object; a JSON string (as the dataset stores it) is not one.
   */
  function JsonDict(row: Row): (r: Option<Dict<Value>>)
    ensures r.Some? ==> |r.value| > 0
    ensures r.Some? ==> Get(row, "persona_json") == Some(Nested(r.value)) || Get(row, "json") == Some(Nested(r.value))
  {
    var first := GetOr(row, "persona_json", Nested([]));
    var chosen := if CellTruthy(first) then first else GetOr(row, "json", Nested([]));
    if chosen.Nested? && |chosen.d| > 0 then Some(chosen.d) else None
  }

  /** The keys tried, in order, for an age. */
  const AgeKeys: seq<string> := ["age", "Age", "AGE", "years_old", "age_years"]

  /** Python's `int(v)`: `None` and NaN raise. */
  function IntOf(v: Value): (r: Option<int>)
    ensures v.VInt? ==> r == Some(v.i)
    ensures v.VNone? || v.VNaN? ==> r.None?
  {
    match v
    case VInt(i) => Some(i)
    case VStr(s) => AdvancedSimulation.ParseInt(s)
    case _ => None
  }

  /** The first of `keys` present in `d` whose value converts to an integer. */
  function JsonAge(d: Dict<Value>, keys: seq<string>): (r: Option<int>)
    ensures r.Some? ==> exists k | 0 <= k < |keys| :: Get(d, keys[k]).Some? && IntOf(Get(d, keys[k]).value) == r
  {
    if keys == [] then None
    else
      match Get(d, keys[0])
      case Some(v) =>
        if IntOf(v).Some? then IntOf(v)
        else
          var r := JsonAge(d, keys[1..]);
          assert r.Some? ==> exists k | 1 <= k < |keys| :: Get(d, keys[k]).Some? && IntOf(Get(d, keys[k]).value) == r;
          r
      case None =>
        var r := JsonAge(d, keys[1..]);
        assert r.Some? ==> exists k | 1 <= k < |keys| :: Get(d, keys[k]).Some? && IntOf(Get(d, keys[k]).value) == r;
        r
  }

  /** ` age N` for a found, non-zero age; nothing otherwise. */
  function AgeSuffix(age: Option<int>): string {
    if age.Some? && age.value != 0 then " age " + IntToString(age.value) else ""
  }

  /** ` key value` for a string, integer or float value; nothing for `None`. */
  function ItemText(item: (string, Value)): string {
    if item.1.VNone? then "" else " " + item.0 + " " + ToStr(item.1)
  }

  /** The texts `f` gives the first `n` items, one after another. */
  function Appended<T>(xs: seq<T>, f: T -> string, n: nat): string
    requires n <= |xs|
  {
    if n == 0 then "" else Appended(xs, f, n - 1) + f(xs[n - 1])
  }

  /** The text the criteria are checked against. */
  function PersonaText(row: Row, rowText: Row -> string): string
    requires PlainTextColumns(row)
  {
    var base := BaseText(row, rowText);
    match JsonDict(row)
    case None => base
    case Some(d) => base + AgeSuffix(JsonAge(d, AgeKeys)) + Appended(d, ItemText, |d|)
  }

  /** The persona text starts with the row's own text and lists every non-`None` JSON entry. */
  lemma {:induction false} PersonaTextContents(row: Row, rowText: Row -> string)
    requires PlainTextColumns(row)
    ensures IsPrefix(BaseText(row, rowText), PersonaText(row, rowText))
    ensures JsonDict(row).None? ==> PersonaText(row, rowText) == BaseText(row, rowText)
    ensures JsonDict(row).Some? ==>
              forall k :: 0 <= k < |JsonDict(row).value| && !JsonDict(row).value[k].1.VNone? ==>
                Contains(PersonaText(row, rowText),
                         " " + JsonDict(row).value[k].0 + " " + ToStr(JsonDict(row).value[k].1))
  {
    var base := BaseText(row, rowText);
    if JsonDict(row).Some? {
      var d := JsonDict(row).value;
      var head := base + AgeSuffix(JsonAge(d, AgeKeys));
      assert PersonaText(row, rowText) == head + Appended(d, ItemText, |d|);
      forall k | 0 <= k < |d| && !d[k].1.VNone?
        ensures Contains(PersonaText(row, rowText), " " + d[k].0 + " " + ToStr(d[k].1))
      {
        AppendedContains(d, ItemText, |d|, k);
        ContainsAfter(head, Appended(d, ItemText, |d|), ItemText(d[k]));
      }
    }
  }

  lemma {:induction false} AppendedContains<T>(xs: seq<T>, f: T -> string, n: nat, k: nat)
    requires k < n <= |xs|
    ensures Contains(Appended(xs, f, n), f(xs[k]))
  {
    var before := Appended(xs, f, n - 1);
    if k == n - 1 {
      ContainsEnd(before, f(xs[k]));
    } else {
      AppendedContains(xs, f, n - 1, k);
      ContainsExtend(before, f(xs[k]), f(xs[n - 1]));
    }
  }

  /**
   * Building the persona text as `select_personas_by_criteria` does: start
   * from the row's text, look for an age under the age keys, then append
   * the age and every JSON entry in turn.
   */
  method BuildPersonaText(row: Row, rowText: Row -> string) returns (text: string)
    requires PlainTextColumns(row)
    ensures text == PersonaText(row, rowText)
  {
    text := BaseText(row, rowText);
    var json := JsonDict(row);
    if json.Some? {
      var d := json.value;
      var age := FindJsonAge(d);
      if age.Some? && age.value != 0 {
        text := text + " age " + IntToString(age.value);
      }
      assert text == BaseText(row, rowText) + AgeSuffix(JsonAge(d, AgeKeys));
      text := AppendItems(text, d);
    }
  }

  /** The scan over the age keys, stopping at the first value `int()` accepts. */
  method FindJsonAge(d: Dict<Value>) returns (age: Option<int>)
    ensures age == JsonAge(d, AgeKeys)
  {
    age := None;
    var k := 0;
    while k < |AgeKeys| && age.None?
      invariant 0 <= k <= |AgeKeys|
      invariant JsonAge(d, AgeKeys) == if age.Some? then age else JsonAge(d, AgeKeys[k..])
    {
      assert AgeKeys[k..][0] == AgeKeys[k] && AgeKeys[k..][1..] == AgeKeys[k + 1..];
      var found := Get(d, AgeKeys[k]);
      if found.Some? {
        var n := IntOf(found.value);
        if n.Some? {
          age := n;
        }
      }
      k := k + 1;
    }
  }

  /** The loop over the JSON entries, appending ` key value` for each non-`None` value. */
  method AppendItems(head: string, d: Dict<Value>) returns (text: string)
    ensures text == head + Appended(d, ItemText, |d|)
  {
    text := head;
    for i := 0 to |d|
      invariant text == head + Appended(d, ItemText, i)
    {
      var (key, value) := d[i];
      if !value.VNone? {
        text := text + " " + key + " " + ToStr(value);
      }
      assert text == head + (Appended(d, ItemText, i) + ItemText(d[i]));
    }
  }

  // ---------------------------------------------------------------- criteria

  /** `custom_age`: inclusive bounds. */
  datatype AgeBounds = AgeBounds(min: int, max: int)

  /**
   * The recognised keys of a criteria dictionary; an absent key is `None`,
   * and other keys are ignored.
   */
  datatype Criteria = Criteria(ageRanges: Option<seq<string>>, customAge: Option<AgeBounds>,
                               genders: Option<seq<string>>, educations: Option<seq<string>>,
                               occupations: Option<seq<string>>, locations: Option<seq<string>>,
                               keyword: Option<string>)

  /** Each selectable choice and the text that must occur in the persona for it. */
  const AgeMarkers: seq<(string, string)> :=
    [("18-29", "Age: 18-29"), ("30-49", "Age: 30-49"), ("50-64", "Age: 50-64"), ("65+", "Age: 65+")]
  const GenderMarkers: seq<(string, string)> := [("Male", "Gender: Male"), ("Female", "Gender: Female")]
  const EducationMarkers: seq<(string, string)> :=
    [("Less than high school", "Education level: Less than high school"),
     ("High school graduate", "Education level: High school graduate"),
     ("Some college, no degree", "Education level: Some college, no degree"),
     ("Associate's degree", "Education level: Associate"),
     ("College graduate/some postgrad", "Education level: College graduate"),
     ("Postgraduate", "Education level: Postgraduate")]
  const LocationMarkers: seq<(string, string)> :=
    [("South", "Geographic region: South"), ("West", "Geographic region: West"),
     ("Midwest", "Geographic region: Midwest"), ("Northeast", "Geographic region: Northeast"),
     ("Pacific", "Geographic region: Pacific")]

  /** The marker of the first table entry for `choice`; `None` for a choice the branches do not name. */
  function MarkerOf(table: seq<(string, string)>, choice: string): (r: Option<string>)
    ensures r.Some? ==> exists k | 0 <= k < |table| :: table[k] == (choice, r.value)
    ensures r.None? <==> forall k :: 0 <= k < |table| ==> table[k].0 != choice
  {
    if table == [] then None
    else if table[0].0 == choice then Some(table[0].1)
    else
      var r := MarkerOf(table[1..], choice);
      assert r.Some? ==> table[1..][0..] == table[1..] && exists k | 1 <= k < |table| :: table[k] == (choice, r.value);
      r
  }

  /** One iteration of the `if`/`elif` chain: the choice is named and its marker occurs. */
  predicate LabelFound(table: seq<(string, string)>, choice: string, text: string) {
    MarkerOf(table, choice).Some? && Contains(text, MarkerOf(table, choice).value)
  }

  /** Some selected choice is found. */
  predicate AnyLabelFound(labels: seq<string>, table: seq<(string, string)>, text: string) {
    exists i | 0 <= i < |labels| :: LabelFound(table, labels[i], text)
  }

  /** A list criterion: absent, or some selected choice found. */
  predicate ListCriterion(labels: Option<seq<string>>, table: seq<(string, string)>, text: string) {
    labels.None? || AnyLabelFound(labels.value, table, text)
  }

  /** The scan over the selected labels, stopping at the first one found. */
  method FindLabel(choices: seq<string>, table: seq<(string, string)>, text: string) returns (found: bool)
    ensures found == AnyLabelFound(choices, table, text)
  {
    found := false;
    var i := 0;
    while i < |choices| && !found
      invariant 0 <= i <= |choices|
      invariant found == AnyLabelFound(choices[..i], table, text)
    {
      assert forall t :: 0 <= t < i ==> choices[..i + 1][t] == choices[..i][t];
      assert choices[..i + 1][i] == choices[i];
      var marker := MarkerOf(table, choices[i]);
      found := marker.Some? && Contains(text, marker.value);
      i := i + 1;
    }
    if found {
      var t :| 0 <= t < i && LabelFound(table, choices[..i][t], text);
      assert choices[t] == choices[..i][t];
    } else {
      assert choices[..i] == choices;
    }
  }

  /** `[:\s]*`: the end of the run of colons and whitespace from `i`. */
  function SkipSeparators(s: string, i: nat): (k: nat)
    requires i <= |s|
    decreases |s| - i
    ensures i <= k <= |s|
    ensures forall j :: i <= j < k ==> s[j] == ':' || IsSpace(s[j])
    ensures k < |s| ==> s[k] != ':' && !IsSpace(s[k])
  {
    if i < |s| && (s[i] == ':' || IsSpace(s[i])) then SkipSeparators(s, i + 1) else i
  }

  /** `age[:\s]*(\d+)` matched at `i`: the number after the separators. */
  function AgeMatchAt(s: string, i: nat): Option<int> {
    if OccursAt(s, "age", i) then
      var b := SkipSeparators(s, i + 3);
      var e := Patterns.SkipDigits(s, b);
      if b < e then Some(DigitsValue(s[b..e]) as int) else None
    else None
  }

  /** `re.search(r'age[:\s]*(\d+)', text.lower())`: the number of the leftmost match. */
  function AgeMention(text: string): (r: Option<int>)
    ensures r.Some? ==> r.value >= 0
  {
    match Patterns.FirstMatch(Lower(text), AgeMatchAt)
    case Some((_, age)) =>
      Patterns.FirstMatchFromLeftmost(Lower(text), AgeMatchAt, 0);
      Some(age)
    case None => None
  }

  /** `custom_age`: absent, or an age is mentioned and lies within the bounds. */
  predicate CustomAgeCriterion(bounds: Option<AgeBounds>, text: string) {
    bounds.None? || (AgeMention(text).Some? && bounds.value.min <= AgeMention(text).value <= bounds.value.max)
  }

  /** Some selected occupation occurs in the text, ignoring case. */
  predicate OccupationFound(occupations: seq<string>, text: string) {
    exists i | 0 <= i < |occupations| :: Contains(Lower(text), Lower(occupations[i]))
  }

  /** The number of selected occupations from which an unmatched persona still passes. */
  const ManyOccupations := 20

  /** `occupations`: absent, found, or so many selected that every persona passes. */
  predicate OccupationCriterion(occupations: Option<seq<string>>, text: string) {
    occupations.None? || OccupationFound(occupations.value, text) || |occupations.value| >= ManyOccupations
  }

  /** `keyword`: absent, or occurring in the text ignoring case. */
  predicate KeywordCriterion(keyword: Option<string>, text: string) {
    keyword.None? || Contains(Lower(text), Lower(keyword.value))
  }

  /** The persona's text meets every present criterion. */
  predicate Passes(c: Criteria, text: string) {
    ListCriterion(c.ageRanges, AgeMarkers, text)
    && CustomAgeCriterion(c.customAge, text)
    && ListCriterion(c.genders, GenderMarkers, text)
    && ListCriterion(c.educations, EducationMarkers, text)
    && OccupationCriterion(c.occupations, text)
    && ListCriterion(c.locations, LocationMarkers, text)
    && KeywordCriterion(c.keyword, text)
  }

  /** The rows whose persona text passes, as a predicate on row indices. */
  function Admitted(rows: seq<Row>, c: Criteria, rowText: Row -> string): nat -> bool
    requires forall k :: 0 <= k < |rows| ==> PlainTextColumns(rows[k])
  {
    (k: nat) => k < |rows| && Passes(c, PersonaText(rows[k], rowText))
  }

  /** The indices below `n` that the criteria admit. */
  function Selected(rows: seq<Row>, c: Criteria, rowText: Row -> string, n: nat): seq<nat>
    requires forall k :: 0 <= k < |rows| ==> PlainTextColumns(rows[k])
  {
    DatasetLoader.UpTo(Admitted(rows, c, rowText), n)
  }

  /** The indices `select_personas_by_criteria` returns for present criteria. */
  function Selection(rows: seq<Row>, c: Criteria, rowText: Row -> string): seq<nat>
    requires forall k :: 0 <= k < |rows| ==> PlainTextColumns(rows[k])
  {
    DatasetLoader.UpTo(Admitted(rows, c, rowText), |rows|)
  }

  /** The loop over the rows: build each row's text and keep its index when every criterion passes. */
  method SelectRows(rows: seq<Row>, c: Criteria, rowText: Row -> string) returns (selected: seq<nat>)
    requires forall k :: 0 <= k < |rows| ==> PlainTextColumns(rows[k])
    ensures selected == Selection(rows, c, rowText)
  {
    selected := [];
    for idx := 0 to |rows|
      invariant selected == Selected(rows, c, rowText, idx)
    {
      var matches := AdmitRow(rows, idx, c, rowText);
      selected := selected + (if matches then [idx] else []);
    }
  }

  /** One row's check: its persona text passes every present criterion. */
  method AdmitRow(rows: seq<Row>, idx: nat, c: Criteria, rowText: Row -> string) returns (matches: bool)
    requires forall k :: 0 <= k < |rows| ==> PlainTextColumns(rows[k])
    requires idx < |rows|
    ensures Selected(rows, c, rowText, idx + 1) == Selected(rows, c, rowText, idx) + (if matches then [idx] else [])
  {
    var text := BuildPersonaText(rows[idx], rowText);
    matches := CheckCriteria(c, text);
  }

  /**
   * The selection lists exactly the rows whose text passes every present
   * criterion, each once and in increasing order.
   */
  lemma SelectionMembers(rows: seq<Row>, c: Criteria, rowText: Row -> string)
    requires forall k :: 0 <= k < |rows| ==> PlainTextColumns(rows[k])
    ensures forall k: nat :: k in Selection(rows, c, rowText) <==> k < |rows| && Passes(c, PersonaText(rows[k], rowText))
    ensures forall s, t :: 0 <= s < t < |Selection(rows, c, rowText)| ==>
              Selection(rows, c, rowText)[s] < Selection(rows, c, rowText)[t]
  {
    DatasetLoader.UpToMembers(Admitted(rows, c, rowText), |rows|);
    DatasetLoader.UpToIncreasing(Admitted(rows, c, rowText), |rows|);
  }

  /** An empty list for any of the four choice criteria excludes everyone. */
  lemma EmptyLabelListExcludesEveryone(rows: seq<Row>, c: Criteria, rowText: Row -> string)
    requires forall k :: 0 <= k < |rows| ==> PlainTextColumns(rows[k])
    requires c.ageRanges == Some([]) || c.genders == Some([]) || c.educations == Some([]) || c.locations == Some([])
    ensures Selection(rows, c, rowText) == []
  {
    forall k: nat | k < |rows| ensures !Admitted(rows, c, rowText)(k) {
      var text := PersonaText(rows[k], rowText);
      assert !AnyLabelFound([], AgeMarkers, text) && !AnyLabelFound([], GenderMarkers, text)
             && !AnyLabelFound([], EducationMarkers, text) && !AnyLabelFound([], LocationMarkers, text);
    }
    DatasetLoader.UpToNone(Admitted(rows, c, rowText), |rows|);
  }

  /**
   * What each criterion asks of the text: a list criterion is met by some
   * selected choice whose fixed marker occurs; `custom_age` by an
   * `age[:\s]*digits` mention within the bounds; `occupations` by a
   * case-insensitive occurrence, or by selecting at least twenty.
   */
  lemma PassesExplained(c: Criteria, text: string)
    ensures Passes(c, text) && c.genders.Some? ==>
              exists i | 0 <= i < |c.genders.value| ::
                (c.genders.value[i] == "Male" && Contains(text, "Gender: Male"))
                || (c.genders.value[i] == "Female" && Contains(text, "Gender: Female"))
    ensures Passes(c, text) && c.locations.Some? ==>
              exists i, k | 0 <= i < |c.locations.value| && 0 <= k < |LocationMarkers| ::
                c.locations.value[i] == LocationMarkers[k].0 && Contains(text, LocationMarkers[k].1)
    ensures Passes(c, text) && c.customAge.Some? ==>
              AgeMention(text).Some? && c.customAge.value.min <= AgeMention(text).value <= c.customAge.value.max
    ensures c.occupations.Some? && |c.occupations.value| >= ManyOccupations ==> OccupationCriterion(c.occupations, text)
    ensures (c.ageRanges.Some? && (exists i | 0 <= i < |c.ageRanges.value| :: c.ageRanges.value[i] == "65+")
             && Contains(text, "Age: 65+")) ==> ListCriterion(c.ageRanges, AgeMarkers, text)
  {
    if Passes(c, text) && c.genders.Some? {
      var i :| 0 <= i < |c.genders.value| && LabelFound(GenderMarkers, c.genders.value[i], text);
      var k :| 0 <= k < |GenderMarkers| && GenderMarkers[k] == (c.genders.value[i], MarkerOf(GenderMarkers, c.genders.value[i]).value);
      assert k == 0 || k == 1;
    }
    if Passes(c, text) && c.locations.Some? {
      var i :| 0 <= i < |c.locations.value| && LabelFound(LocationMarkers, c.locations.value[i], text);
      var k :| 0 <= k < |LocationMarkers| && LocationMarkers[k] == (c.locations.value[i], MarkerOf(LocationMarkers, c.locations.value[i]).value);
    }
    if c.ageRanges.Some? && (exists i | 0 <= i < |c.ageRanges.value| :: c.ageRanges.value[i] == "65+")
       && Contains(text, "Age: 65+") {
      var i :| 0 <= i < |c.ageRanges.value| && c.ageRanges.value[i] == "65+";
      assert MarkerOf(AgeMarkers, "65+") == Some("Age: 65+");
      assert LabelFound(AgeMarkers, c.ageRanges.value[i], text);
    }
  }

  /** A list criterion's scan; an absent criterion is met. */
  method CheckLabels(choices: Option<seq<string>>, table: seq<(string, string)>, text: string) returns (ok: bool)
    ensures ok == ListCriterion(choices, table, text)
  {
    ok := true;
    if choices.Some? {
      ok := FindLabel(choices.value, table, text);
    }
  }

  /** The `custom_age` check: the leftmost age mention must lie within the bounds. */
  method CheckCustomAge(bounds: Option<AgeBounds>, text: string) returns (ok: bool)
    ensures ok == CustomAgeCriterion(bounds, text)
  {
    ok := true;
    if bounds.Some? {
      var age := AgeMention(text);
      if age.Some? {
        if age.value < bounds.value.min || age.value > bounds.value.max {
          ok := false;
        }
      } else {
        ok := false;
      }
    }
  }

  /** The `occupations` scan, stopping at the first occupation found. */
  method CheckOccupations(occupations: Option<seq<string>>, text: string) returns (ok: bool)
    ensures ok == OccupationCriterion(occupations, text)
  {
    ok := true;
    if occupations.Some? {
      var choices := occupations.value;
      var found := false;
      var i := 0;
      while i < |choices| && !found
        invariant 0 <= i <= |choices|
        invariant found == OccupationFound(choices[..i], text)
      {
        assert forall t :: 0 <= t < i ==> choices[..i + 1][t] == choices[..i][t];
        assert choices[..i + 1][i] == choices[i];
        found := Contains(Lower(text), Lower(choices[i]));
        i := i + 1;
      }
      if found {
        var t :| 0 <= t < i && Contains(Lower(text), Lower(choices[..i][t]));
        assert choices[t] == choices[..i][t];
      } else {
        assert choices[..i] == choices;
      }
      if !found && |choices| < ManyOccupations {
        ok := false;
      }
    }
  }

  /** The checks of one row in source order, each only while the row still matches. */
  method CheckCriteria(c: Criteria, text: string) returns (matches: bool)
    ensures matches == Passes(c, text)
  {
    matches := true;
    if c.ageRanges.Some? && matches {
      var ok := CheckLabels(c.ageRanges, AgeMarkers, text);
      if !ok {
        matches := false;
      }
    }
    assert matches == (ListCriterion(c.ageRanges, AgeMarkers, text));
    if c.customAge.Some? && matches {
      var ok := CheckCustomAge(c.customAge, text);
      if !ok {
        matches := false;
      }
    }
    assert matches == (ListCriterion(c.ageRanges, AgeMarkers, text) && CustomAgeCriterion(c.customAge, text));
    if c.genders.Some? && matches {
      var ok := CheckLabels(c.genders, GenderMarkers, text);
      if !ok {
        matches := false;
      }
    }
    assert matches == (ListCriterion(c.ageRanges, AgeMarkers, text) && CustomAgeCriterion(c.customAge, text) && ListCriterion(c.genders, GenderMarkers, text));
    if c.educations.Some? && matches {
      var ok := CheckLabels(c.educations, EducationMarkers, text);
      if !ok {
        matches := false;
      }
    }
    assert matches == (ListCriterion(c.ageRanges, AgeMarkers, text) && CustomAgeCriterion(c.customAge, text) && ListCriterion(c.genders, GenderMarkers, text) && ListCriterion(c.educations, EducationMarkers, text));
    if c.occupations.Some? && matches {
      var ok := CheckOccupations(c.occupations, text);
      if !ok {
        matches := false;
      }
    }
    assert matches == (ListCriterion(c.ageRanges, AgeMarkers, text) && CustomAgeCriterion(c.customAge, text) && ListCriterion(c.genders, GenderMarkers, text) && ListCriterion(c.educations, EducationMarkers, text) && OccupationCriterion(c.occupations, text));
    if c.locations.Some? && matches {
      var ok := CheckLabels(c.locations, LocationMarkers, text);
      if !ok {
        matches := false;
      }
    }
    assert matches == (ListCriterion(c.ageRanges, AgeMarkers, text) && CustomAgeCriterion(c.customAge, text) && ListCriterion(c.genders, GenderMarkers, text) && ListCriterion(c.educations, EducationMarkers, text) && OccupationCriterion(c.occupations, text) && ListCriterion(c.locations, LocationMarkers, text));
    if c.keyword.Some? && matches {
      if !Contains(Lower(text), Lower(c.keyword.value)) {
        matches := false;
      }
    }
  }

  // ---------------------------------------------------------------- the survey call

  /** The scale every survey call passes. */
  const Scale := "1-7"

  /** How much of the persona text a prompt carries. */
  const ProfileLimit := 2000

  const SurveySystemOpening := "You are an AI assistant simulating a survey participant. \nYour task is to answer the survey question based on the persona profile provided.\n\nResponse format:\n- Provide a numerical answer on a scale of "
  const SurveySystemClosing := "\n- Provide brief reasoning for your answer\n\nBe consistent with the persona's characteristics, beliefs, and past responses."
  const ProfileLabel := "Persona Profile:\n"
  /** The f-string keeps the text after the profile, a `#` remark included, as part of the prompt. */
  const SurveyQuestionLabel := "  # 토큰 제한을 위해 일부만 사용\n\nSurvey Question:\n"
  const SurveyScaleLabel := "\n\nPlease respond with a number from "
  const SurveyFormat := " and explain your reasoning briefly.\nFormat your response as JSON:\n{\"answer\": <number>, \"reasoning\": \"<brief explanation>\"}"

  function SurveySystemPrompt(scale: string): string {
    Concat([SurveySystemOpening, scale, SurveySystemClosing])
  }

  function SurveyUserPrompt(text: string, question: string, scale: string): string {
    Concat([ProfileLabel, Take(text, ProfileLimit), SurveyQuestionLabel, question, SurveyScaleLabel, scale, SurveyFormat])
  }

  /** The request of `_get_survey_response`. */
  function SurveyRequest(text: string, question: string): Backend.Request {
    Backend.Ask(SurveySystemPrompt(Scale), SurveyUserPrompt(text, question, Scale))
  }

  /** The survey request names the scale twice and carries the question and the first 2000 characters of the persona. */
  lemma SurveyRequestContents(text: string, question: string)
    ensures SurveyRequest(text, question).history == []
    ensures Contains(SurveyRequest(text, question).system, Scale)
    ensures Contains(SurveyRequest(text, question).user, Take(text, ProfileLimit))
    ensures Contains(SurveyRequest(text, question).user, question)
    ensures Contains(SurveyRequest(text, question).user, Scale)
    ensures Contains(SurveyRequest(text, question).user, SurveyQuestionLabel)
  {
    ConcatContains([SurveySystemOpening, Scale, SurveySystemClosing], 1);
    var parts := [ProfileLabel, Take(text, ProfileLimit), SurveyQuestionLabel, question, SurveyScaleLabel, Scale, SurveyFormat];
    ConcatContains(parts, 1);
    ConcatContains(parts, 2);
    ConcatContains(parts, 3);
    ConcatContains(parts, 5);
  }

  /** `json.loads(content)`: not JSON, a JSON object, or another JSON value. */
  datatype Decoded =
    | NotJson
    | JsonObject(fields: Dict<Cell>)
      /** Any other JSON value; `subscriptError` is the text of the `TypeError` `value['answer']` raises. */
    | JsonOther(subscriptError: string)

  /** A survey cell's two record values. */
  datatype SurveyAnswer = SurveyAnswer(answer: Cell, reasoning: Cell)

  const ErrorPrefix := "Error: "
  const ApiFailure := "API 호출 실패: "
  /** The text of the `KeyError` for a missing `answer` key. */
  const MissingAnswer := "'answer'"

  /** The error record values: no answer, and the error text as the reasoning. */
  function Failed(message: string): SurveyAnswer {
    SurveyAnswer(Scalar(VNone), Scalar(VStr(ErrorPrefix + message)))
  }

  /**
   * One survey cell from the call's reply: a failed call becomes an error;
   * a reply that is not JSON gives the fallback answer with the reply as the
   * reasoning; a JSON object gives its `answer` and `reasoning` (by default
   * empty), a missing `answer` being an error, as is a non-object value.
   */
  function SurveyReply(reply: Backend.Reply, decode: string -> Decoded): SurveyAnswer {
    match reply
    case Err(e) => Failed(ApiFailure + e)
    case Ok(content) =>
      match decode(content)
      case NotJson => SurveyAnswer(Scalar(VInt(Patterns.FallbackAnswer(content))), Scalar(VStr(content)))
      case JsonObject(fields) =>
        (match Get(fields, "answer")
         case Some(a) => SurveyAnswer(a, GetOr(fields, "reasoning", Scalar(VStr(""))))
         case None => Failed(MissingAnswer))
      case JsonOther(message) => Failed(message)
  }

  /**
   * `persona_data.get('persona_text', '')`: a missing column is empty; a
   * value that is not a string makes `persona_text[:2000]` raise.
   */
  function ProfileText(row: Row): Result<string, Cell> {
    var c := Get(row, "persona_text");
    if c.None? then Ok("")
    else if c.value.Scalar? && c.value.v.VStr? then Ok(c.value.v.s)
    else Err(c.value)
  }

  /**
   * One survey cell: call `k` of the run with the survey request, or, when
   * the prompt cannot be built, the error whose text `describe` gives.
   */
  function SurveyCell(profile: Result<string, Cell>, question: string, k: nat, backend: Backend.Oracle,
                      decode: string -> Decoded, describe: Cell -> string): SurveyAnswer {
    match profile
    case Err(c) => Failed(describe(c))
    case Ok(text) => SurveyReply(backend(k, SurveyRequest(text, question)), decode)
  }

  /**
   * Every failure leaves no answer and an `Error: ` reasoning; a reply that
   * is not JSON always gives an answer in 1..7 (4 when it has no standalone
   * digit) with the reply itself as the reasoning; a JSON object's answer
   * is kept as it is.
   */
  lemma SurveyCellOutcome(profile: Result<string, Cell>, question: string, k: nat, backend: Backend.Oracle,
                          decode: string -> Decoded, describe: Cell -> string)
    ensures var a := SurveyCell(profile, question, k, backend, decode, describe);
            (profile.Err? || backend(k, SurveyRequest(profile.value, question)).Err?) ==>
              a.answer == Scalar(VNone) && a.reasoning.Scalar? && a.reasoning.v.VStr?
              && StartsWith(a.reasoning.v.s, ErrorPrefix)
    ensures var a := SurveyCell(profile, question, k, backend, decode, describe);
            profile.Ok? && backend(k, SurveyRequest(profile.value, question)).Ok? ==>
              var content := backend(k, SurveyRequest(profile.value, question)).value;
              (decode(content).NotJson? ==>
                 a.answer.Scalar? && a.answer.v.VInt? && 1 <= a.answer.v.i <= 7
                 && a.reasoning == Scalar(VStr(content))
                 && ((forall i :: 0 <= i < |content| ==> !Patterns.StandaloneDigitAt(content, i)) ==> a.answer.v.i == 4))
              && (decode(content).JsonObject? && Get(decode(content).fields, "answer").Some? ==>
                    a.answer == Get(decode(content).fields, "answer").value)
  {
    var a := SurveyCell(profile, question, k, backend, decode, describe);
    if profile.Err? {
      assert a == Failed(describe(profile.error));
      assert (ErrorPrefix + describe(profile.error))[..|ErrorPrefix|] == ErrorPrefix;
    } else if backend(k, SurveyRequest(profile.value, question)).Err? {
      var e := backend(k, SurveyRequest(profile.value, question)).error;
      assert a == Failed(ApiFailure + e);
      assert (ErrorPrefix + (ApiFailure + e))[..|ErrorPrefix|] == ErrorPrefix;
    }
  }

  // ---------------------------------------------------------------- the interview call

  const InterviewSystemPrompt := "You are an AI assistant simulating an interview participant.\nYour task is to answer the interview question based on the persona profile provided.\n\nGuidelines:\n- Answer in 2-4 sentences\n- Be natural and conversational\n- Stay consistent with the persona's characteristics\n- Draw from the persona's past responses when relevant"
  const InterviewQuestionLabel := "\n\nInterview Question:\n"
  const InterviewClosing := "\n\nPlease provide a natural, conversational response as this person would answer."

  /** The request of `_get_interview_response`. */
  function InterviewRequest(text: string, question: string): Backend.Request {
    Backend.Ask(InterviewSystemPrompt,
                Concat([ProfileLabel, Take(text, ProfileLimit), InterviewQuestionLabel, question, InterviewClosing]))
  }

  /** The interview request carries the question and the first 2000 characters of the persona. */
  lemma InterviewRequestContents(text: string, question: string)
    ensures InterviewRequest(text, question).history == []
    ensures InterviewRequest(text, question).system == InterviewSystemPrompt
    ensures Contains(InterviewRequest(text, question).user, Take(text, ProfileLimit))
    ensures Contains(InterviewRequest(text, question).user, question)
  {
    var parts := [ProfileLabel, Take(text, ProfileLimit), InterviewQuestionLabel, question, InterviewClosing];
    ConcatContains(parts, 1);
    ConcatContains(parts, 3);
  }

  /** One interview cell: the stripped reply, or the error text in its place. */
  function InterviewCell(profile: Result<string, Cell>, question: string, k: nat, backend: Backend.Oracle,
                         describe: Cell -> string): Cell {
    match profile
    case Err(c) => Scalar(VStr(ErrorPrefix + describe(c)))
    case Ok(text) =>
      match backend(k, InterviewRequest(text, question))
      case Ok(content) => Scalar(VStr(Strip(content)))
      case Err(e) => Scalar(VStr(ErrorPrefix + ApiFailure + e))
  }

  /** An interview answer is always a string: the stripped reply, or an `Error: ` text, never `None`. */
  lemma InterviewCellOutcome(profile: Result<string, Cell>, question: string, k: nat, backend: Backend.Oracle,
                             describe: Cell -> string)
    ensures InterviewCell(profile, question, k, backend, describe).Scalar?
    ensures InterviewCell(profile, question, k, backend, describe).v.VStr?
    ensures (profile.Err? || backend(k, InterviewRequest(profile.value, question)).Err?) ==>
              StartsWith(InterviewCell(profile, question, k, backend, describe).v.s, ErrorPrefix)
    ensures profile.Ok? && backend(k, InterviewRequest(profile.value, question)).Ok? ==>
              InterviewCell(profile, question, k, backend, describe).v.s
              == Strip(backend(k, InterviewRequest(profile.value, question)).value)
  {
    if profile.Err? {
      assert (ErrorPrefix + describe(profile.error))[..|ErrorPrefix|] == ErrorPrefix;
    } else if backend(k, InterviewRequest(profile.value, question)).Err? {
      var e := backend(k, InterviewRequest(profile.value, question)).error;
      assert (ErrorPrefix + ApiFailure + e)[..|ErrorPrefix|] == ErrorPrefix;
    }
  }

  // ---------------------------------------------------------------- records

  /** The answer column of question `j` (0-based): `Q{j+1}`. */
  function QKey(j: nat): string {
    "Q" + NatToString(j + 1)
  }

  /** The reasoning column of question `j`: `Q{j+1}_reasoning`. */
  function ReasoningKey(j: nat): string {
    QKey(j) + "_reasoning"
  }

  /** The columns of a survey record after its two fixed ones: `Q1`, `Q1_reasoning`, `Q2`, ... */
  function SurveyKeyAt(p: nat): string {
    if p % 2 == 0 then QKey(p / 2) else ReasoningKey(p / 2)
  }

  /** Different questions have different answer columns. */
  lemma QKeyInjective(i: nat, j: nat)
    requires QKey(i) == QKey(j)
    ensures i == j
  {
    assert NatToString(i + 1) == QKey(i)[1..];
    assert NatToString(j + 1) == QKey(j)[1..];
    NatToStringInjective(i + 1, j + 1);
  }

  /** Different questions have different reasoning columns. */
  lemma ReasoningKeyInjective(i: nat, j: nat)
    requires ReasoningKey(i) == ReasoningKey(j)
    ensures i == j
  {
    var a := ReasoningKey(i);
    assert a[..|a| - 10] == QKey(i);
    assert a[..|a| - 10] == QKey(j);
    QKeyInjective(i, j);
  }

  /** No answer column is a reasoning column: after the `Q`, an answer column holds digits only. */
  lemma QKeyIsNoReasoningKey(i: nat, j: nat)
    ensures QKey(i) != ReasoningKey(j)
  {
    var n := |QKey(j)|;
    assert ReasoningKey(j)[n] == '_';
    if |QKey(i)| == |ReasoningKey(j)| {
      assert QKey(i)[n] == NatToString(i + 1)[n - 1];
      assert IsDigit(QKey(i)[n]);
    }
  }

  /** The survey columns never repeat. */
  lemma SurveyKeyAtInjective(p: nat, q: nat)
    requires SurveyKeyAt(p) == SurveyKeyAt(q)
    ensures p == q
  {
    if p % 2 == 0 && q % 2 == 0 {
      assert QKey(p / 2) == QKey(q / 2);
      QKeyInjective(p / 2, q / 2);
    } else if p % 2 == 1 && q % 2 == 1 {
      assert ReasoningKey(p / 2) == ReasoningKey(q / 2);
      ReasoningKeyInjective(p / 2, q / 2);
    } else if p % 2 == 0 {
      QKeyIsNoReasoningKey(p / 2, q / 2);
    } else {
      QKeyIsNoReasoningKey(q / 2, p / 2);
    }
  }

  /** `participant_id` of the row, else `P{idx}`. */
  function ParticipantId(row: Row, idx: nat): Cell {
    GetOr(row, "participant_id", Scalar(VStr("P" + NatToString(idx))))
  }

  /** `{'participant_id': ..., 'persona_index': idx}`, the start of every record. */
  function RecordBase(row: Row, idx: nat): Dict<Cell> {
    [("participant_id", ParticipantId(row, idx)), ("persona_index", Scalar(VInt(idx)))]
  }

  /** The answer and reasoning entries of a survey record, question by question. */
  function SurveyEntries(answers: seq<SurveyAnswer>): (r: Dict<Cell>)
    ensures |r| == 2 * |answers|
  {
    seq(2 * |answers|, p requires 0 <= p < 2 * |answers| =>
      (SurveyKeyAt(p), if p % 2 == 0 then answers[p / 2].answer else answers[p / 2].reasoning))
  }

  /** The answer entry of each interview question. */
  function InterviewEntries(answers: seq<Cell>): (r: Dict<Cell>)
    ensures |r| == |answers|
  {
    seq(|answers|, j requires 0 <= j < |answers| => (QKey(j), answers[j]))
  }

  /** The two columns every record starts with. */
  const FixedColumns: seq<string> := ["participant_id", "persona_index"]

  /** The names `key` gives the first `m` question columns. */
  function Numbered(key: nat -> string, m: nat): (r: seq<string>)
    ensures |r| == m
  {
    seq(m, p requires 0 <= p < m => key(p))
  }

  /** A survey record's columns, in order. */
  function SurveyColumns(n: nat): (r: seq<string>)
    ensures |r| == 2 + 2 * n
  {
    FixedColumns + Numbered(SurveyKeyAt, 2 * n)
  }

  /** An interview record's columns, in order. */
  function InterviewColumns(n: nat): (r: seq<string>)
    ensures |r| == 2 + n
  {
    FixedColumns + Numbered(QKey, n)
  }

  /** A naming of question columns that never repeats and never clashes with the fixed columns. */
  ghost predicate KeyScheme(key: nat -> string) {
    (forall p: nat, q: nat :: key(p) == key(q) ==> p == q)
    && (forall p: nat :: key(p) !in FixedColumns)
  }

  /** Under such a naming the columns are all distinct. */
  lemma NumberedDistinct(key: nat -> string, m: nat)
    requires KeyScheme(key)
    ensures DistinctStrings(FixedColumns + Numbered(key, m))
  {
    var cols := FixedColumns + Numbered(key, m);
    forall a, b | 0 <= a < b < |cols| ensures cols[a] != cols[b] {
      if 2 <= a {
        assert cols[a] == key(a - 2) && cols[b] == key(b - 2);
      } else {
        assert cols[a] in FixedColumns;
        if 2 <= b {
          assert cols[b] == key(b - 2);
        }
      }
    }
  }

  /** Under such a naming the next column is not yet taken. */
  lemma NumberedFresh(key: nat -> string, m: nat)
    requires KeyScheme(key)
    ensures key(m) !in FixedColumns + Numbered(key, m)
  {
    var cols := FixedColumns + Numbered(key, m);
    forall t | 2 <= t < |cols| ensures cols[t] != key(m) {
      assert cols[t] == key(t - 2);
    }
  }

  lemma NumberedStep(key: nat -> string, m: nat)
    ensures Numbered(key, m + 1) == Numbered(key, m) + [key(m)]
  {
  }

  /** The survey columns `Q{j}` and `Q{j}_reasoning` form such a naming. */
  lemma SurveyKeyScheme()
    ensures KeyScheme(SurveyKeyAt)
  {
    forall p: nat, q: nat | SurveyKeyAt(p) == SurveyKeyAt(q) ensures p == q {
      SurveyKeyAtInjective(p, q);
    }
    forall p: nat ensures SurveyKeyAt(p) !in FixedColumns {
      assert SurveyKeyAt(p)[0] == 'Q';
    }
  }

  /** The interview columns `Q{j}` form such a naming. */
  lemma QKeyScheme()
    ensures KeyScheme(QKey)
  {
    forall p: nat, q: nat | QKey(p) == QKey(q) ensures p == q {
      QKeyInjective(p, q);
    }
    forall p: nat ensures QKey(p) !in FixedColumns {
      assert QKey(p)[0] == 'Q';
    }
  }

  /** The survey columns are all distinct. */
  lemma SurveyColumnsDistinct(n: nat)
    ensures DistinctStrings(SurveyColumns(n))
  {
    SurveyKeyScheme();
    NumberedDistinct(SurveyKeyAt, 2 * n);
  }

  /** The interview columns are all distinct. */
  lemma InterviewColumnsDistinct(n: nat)
    ensures DistinctStrings(InterviewColumns(n))
  {
    QKeyScheme();
    NumberedDistinct(QKey, n);
  }

  /** A survey record's keys are its columns. */
  lemma SurveyRecordKeys(row: Row, idx: nat, answers: seq<SurveyAnswer>)
    ensures Keys(RecordBase(row, idx) + SurveyEntries(answers)) == SurveyColumns(|answers|)
  {
    var base := RecordBase(row, idx);
    var entries := SurveyEntries(answers);
    var d := base + entries;
    var names := Numbered(SurveyKeyAt, 2 * |answers|);
    var cols := FixedColumns + names;
    forall t | 0 <= t < |d| ensures Keys(d)[t] == cols[t] {
      if 2 <= t {
        var p := t - 2;
        assert d[t] == entries[p];
        assert entries[p].0 == SurveyKeyAt(p);
        assert cols[t] == names[p];
      } else {
        assert d[t] == base[t];
        assert cols[t] == FixedColumns[t];
      }
    }
    assert Keys(d) == cols;
  }

  /** An interview record's keys are its columns. */
  lemma InterviewRecordKeys(row: Row, idx: nat, answers: seq<Cell>)
    ensures Keys(RecordBase(row, idx) + InterviewEntries(answers)) == InterviewColumns(|answers|)
  {
    var base := RecordBase(row, idx);
    var entries := InterviewEntries(answers);
    var d := base + entries;
    var names := Numbered(QKey, |answers|);
    var cols := FixedColumns + names;
    forall t | 0 <= t < |d| ensures Keys(d)[t] == cols[t] {
      if 2 <= t {
        var p := t - 2;
        assert d[t] == entries[p];
        assert entries[p].0 == QKey(p);
        assert cols[t] == names[p];
      } else {
        assert d[t] == base[t];
        assert cols[t] == FixedColumns[t];
      }
    }
    assert Keys(d) == cols;
  }

  /** The next question's two columns are not yet in a survey record. */
  lemma SurveyColumnsFresh(n: nat)
    ensures QKey(n) !in SurveyColumns(n)
    ensures ReasoningKey(n) !in SurveyColumns(n) + [QKey(n)]
  {
    SurveyKeyScheme();
    SurveyKeyPositions(n);
    NumberedFresh(SurveyKeyAt, 2 * n);
    NumberedFresh(SurveyKeyAt, 2 * n + 1);
    NumberedStep(SurveyKeyAt, 2 * n);
    assert SurveyColumns(n) + [QKey(n)] == FixedColumns + Numbered(SurveyKeyAt, 2 * n + 1);
  }

  /** The next question's column is not yet in an interview record. */
  lemma InterviewColumnsFresh(n: nat)
    ensures QKey(n) !in InterviewColumns(n)
  {
    QKeyScheme();
    NumberedFresh(QKey, n);
  }

  /** One more answer adds its two entries at the end. */
  lemma SurveyEntriesStep(answers: seq<SurveyAnswer>, a: SurveyAnswer)
    ensures SurveyEntries(answers + [a])
            == SurveyEntries(answers) + [(QKey(|answers|), a.answer), (ReasoningKey(|answers|), a.reasoning)]
  {
    var n := |answers|;
    var e := SurveyEntries(answers + [a]);
    var before := SurveyEntries(answers);
    forall p | 0 <= p < 2 * n ensures e[p] == before[p] {
      assert (answers + [a])[p / 2] == answers[p / 2];
    }
    SurveyEntriesAt(answers + [a], n);
    assert e[2 * n] == (QKey(n), a.answer);
    assert e[2 * n + 1] == (ReasoningKey(n), a.reasoning);
  }

  /** Setting `Q{n+1}` and `Q{n+1}_reasoning` on a record with `n` answers appends the two entries. */
  lemma PutSurveyAnswer(row: Row, idx: nat, answers: seq<SurveyAnswer>, a: SurveyAnswer)
    ensures Put(Put(RecordBase(row, idx) + SurveyEntries(answers), QKey(|answers|), a.answer),
                ReasoningKey(|answers|), a.reasoning)
            == RecordBase(row, idx) + SurveyEntries(answers + [a])
  {
    var n := |answers|;
    var d := RecordBase(row, idx) + SurveyEntries(answers);
    SurveyRecordKeys(row, idx, answers);
    SurveyColumnsFresh(n);
    PutNew(d, QKey(n), a.answer);
    var d1 := d + [(QKey(n), a.answer)];
    assert Keys(d1) == Keys(d) + [QKey(n)];
    PutNew(d1, ReasoningKey(n), a.reasoning);
    SurveyEntriesStep(answers, a);
  }

  /** Setting `Q{n+1}` on an interview record with `n` answers appends the entry. */
  lemma PutInterviewAnswer(row: Row, idx: nat, answers: seq<Cell>, a: Cell)
    ensures Put(RecordBase(row, idx) + InterviewEntries(answers), QKey(|answers|), a)
            == RecordBase(row, idx) + InterviewEntries(answers + [a])
  {
    var n := |answers|;
    var d := RecordBase(row, idx) + InterviewEntries(answers);
    InterviewRecordKeys(row, idx, answers);
    InterviewColumnsFresh(n);
    PutNew(d, QKey(n), a);
    assert InterviewEntries(answers + [a]) == InterviewEntries(answers) + [(QKey(n), a)];
  }

  /** Question `j`'s two columns sit at positions `2j` and `2j + 1` after the fixed ones. */
  lemma SurveyKeyPositions(j: nat)
    ensures SurveyKeyAt(2 * j) == QKey(j)
    ensures SurveyKeyAt(2 * j + 1) == ReasoningKey(j)
  {
    assert (2 * j) % 2 == 0 && (2 * j) / 2 == j;
    assert (2 * j + 1) % 2 == 1 && (2 * j + 1) / 2 == j;
  }

  lemma SurveyEntriesAt(answers: seq<SurveyAnswer>, j: nat)
    requires j < |answers|
    ensures SurveyEntries(answers)[2 * j] == (QKey(j), answers[j].answer)
    ensures SurveyEntries(answers)[2 * j + 1] == (ReasoningKey(j), answers[j].reasoning)
  {
    SurveyKeyPositions(j);
    assert (2 * j) % 2 == 0 && (2 * j) / 2 == j;
    assert (2 * j + 1) % 2 == 1 && (2 * j + 1) / 2 == j;
  }

  lemma InterviewEntriesAt(answers: seq<Cell>, j: nat)
    requires j < |answers|
    ensures InterviewEntries(answers)[j] == (QKey(j), answers[j])
  {
  }

  /** A record with distinct keys hands back its participant id and persona index. */
  lemma RecordBaseLookup(row: Row, idx: nat, entries: Dict<Cell>)
    requires DistinctKeys(RecordBase(row, idx) + entries)
    ensures Get(RecordBase(row, idx) + entries, "participant_id") == Some(ParticipantId(row, idx))
    ensures Get(RecordBase(row, idx) + entries, "persona_index") == Some(Scalar(VInt(idx)))
  {
    var d := RecordBase(row, idx) + entries;
    GetDistinct(d, 0);
    GetDistinct(d, 1);
  }

  /** A survey record has no repeated column. */
  lemma SurveyRecordDistinct(row: Row, idx: nat, answers: seq<SurveyAnswer>)
    ensures DistinctKeys(RecordBase(row, idx) + SurveyEntries(answers))
  {
    SurveyRecordKeys(row, idx, answers);
    SurveyColumnsDistinct(|answers|);
  }

  /** No question column is one of the two fixed columns. */
  lemma QuestionKeysNotFixed(j: nat)
    ensures QKey(j) != "participant_id" && QKey(j) != "persona_index"
    ensures ReasoningKey(j) != "participant_id" && ReasoningKey(j) != "persona_index"
  {
    assert QKey(j)[0] == 'Q' && ReasoningKey(j)[0] == 'Q';
  }

  /** A record hands back each question's answer and reasoning under its columns. */
  lemma SurveyRecordLookup(row: Row, idx: nat, answers: seq<SurveyAnswer>, j: nat)
    requires j < |answers|
    ensures Get(RecordBase(row, idx) + SurveyEntries(answers), "participant_id") == Some(ParticipantId(row, idx))
    ensures Get(RecordBase(row, idx) + SurveyEntries(answers), "persona_index") == Some(Scalar(VInt(idx)))
    ensures Get(RecordBase(row, idx) + SurveyEntries(answers), QKey(j)) == Some(answers[j].answer)
    ensures Get(RecordBase(row, idx) + SurveyEntries(answers), ReasoningKey(j)) == Some(answers[j].reasoning)
  {
    SurveyRecordDistinct(row, idx, answers);
    RecordBaseLookup(row, idx, SurveyEntries(answers));
    SurveyAnswerLookup(row, idx, answers, j);
    SurveyReasoningLookup(row, idx, answers, j);
  }

  lemma SurveyAnswerLookup(row: Row, idx: nat, answers: seq<SurveyAnswer>, j: nat)
    requires j < |answers|
    ensures Get(RecordBase(row, idx) + SurveyEntries(answers), QKey(j)) == Some(answers[j].answer)
  {
    QuestionKeysNotFixed(j);
    var entries := SurveyEntries(answers);
    var d := RecordBase(row, idx) + entries;
    SurveyRecordDistinct(row, idx, answers);
    SurveyEntriesAt(answers, j);
    assert d[2 + 2 * j] == entries[2 * j];
    GetDistinct(d, 2 + 2 * j);
  }

  lemma SurveyReasoningLookup(row: Row, idx: nat, answers: seq<SurveyAnswer>, j: nat)
    requires j < |answers|
    ensures Get(RecordBase(row, idx) + SurveyEntries(answers), ReasoningKey(j)) == Some(answers[j].reasoning)
  {
    QuestionKeysNotFixed(j);
    var entries := SurveyEntries(answers);
    var d := RecordBase(row, idx) + entries;
    SurveyRecordDistinct(row, idx, answers);
    SurveyEntriesAt(answers, j);
    assert d[3 + 2 * j] == entries[2 * j + 1];
    GetDistinct(d, 3 + 2 * j);
  }

  /** An interview record hands back each question's answer under its column. */
  lemma InterviewRecordLookup(row: Row, idx: nat, answers: seq<Cell>, j: nat)
    requires j < |answers|
    ensures Get(RecordBase(row, idx) + InterviewEntries(answers), "participant_id") == Some(ParticipantId(row, idx))
    ensures Get(RecordBase(row, idx) + InterviewEntries(answers), "persona_index") == Some(Scalar(VInt(idx)))
    ensures Get(RecordBase(row, idx) + InterviewEntries(answers), QKey(j)) == Some(answers[j])
  {
    InterviewRecordDistinct(row, idx, answers);
    RecordBaseLookup(row, idx, InterviewEntries(answers));
    InterviewAnswerLookup(row, idx, answers, j);
  }

  /** An interview record has no repeated column. */
  lemma InterviewRecordDistinct(row: Row, idx: nat, answers: seq<Cell>)
    ensures DistinctKeys(RecordBase(row, idx) + InterviewEntries(answers))
  {
    InterviewRecordKeys(row, idx, answers);
    InterviewColumnsDistinct(|answers|);
  }

  lemma InterviewAnswerLookup(row: Row, idx: nat, answers: seq<Cell>, j: nat)
    requires j < |answers|
    ensures Get(RecordBase(row, idx) + InterviewEntries(answers), QKey(j)) == Some(answers[j])
  {
    QuestionKeysNotFixed(j);
    var entries := InterviewEntries(answers);
    var d := RecordBase(row, idx) + entries;
    InterviewRecordDistinct(row, idx, answers);
    InterviewEntriesAt(answers, j);
    assert d[2 + j] == entries[j];
    GetDistinct(d, 2 + j);
  }

  // ---------------------------------------------------------------- runs

  /** The personas of a run: each index with its row. */
  function Chosen(dataset: seq<Row>, indices: seq<nat>): (r: seq<(nat, Row)>)
    requires forall t :: 0 <= t < |indices| ==> indices[t] < |dataset|
    ensures |r| == |indices|
  {
    seq(|indices|, t requires 0 <= t < |indices| => (indices[t], dataset[indices[t]]))
  }

  /**
   * The survey cell of the `i`-th persona and question `j`. Calls are
   * numbered by cell, `i * |questions| + j`, so a persona whose prompt
   * cannot be built leaves its numbers unused.
   */
  function SurveyCellAt(n: nat, backend: Backend.Oracle, decode: string -> Decoded, describe: Cell -> string)
    : (nat, (nat, Row), nat, string) -> SurveyAnswer
  {
    (i: nat, p: (nat, Row), j: nat, q: string) =>
      SurveyCell(ProfileText(p.1), q, Grid.Position(i, j, n), backend, decode, describe)
  }

  /** The record of the `i`-th persona. */
  function SurveyRecordAt(questions: seq<string>, backend: Backend.Oracle, decode: string -> Decoded,
                          describe: Cell -> string): (nat, (nat, Row)) -> Dict<Cell>
  {
    (i: nat, p: (nat, Row)) =>
      RecordBase(p.1, p.0)
      + SurveyEntries(Grid.Row(i, p, questions, SurveyCellAt(|questions|, backend, decode, describe), |questions|))
  }

  /** The records of `conduct_survey`, one per persona index, from which its DataFrame is built. */
  function SurveyTable(dataset: seq<Row>, indices: seq<nat>, questions: seq<string>, backend: Backend.Oracle,
                       decode: string -> Decoded, describe: Cell -> string): seq<Dict<Cell>>
    requires forall t :: 0 <= t < |indices| ==> indices[t] < |dataset|
  {
    Grid.Column(Chosen(dataset, indices), SurveyRecordAt(questions, backend, decode, describe), |indices|)
  }

  /**
   * One record per persona index, in order; every record has the same
   * distinct columns (`participant_id`, `persona_index`, then `Q{i}` and
   * `Q{i}_reasoning` per question), names its persona, and holds under
   * `Q{j+1}` and `Q{j+1}_reasoning` the outcome of that persona's cell `j`.
   */
  lemma SurveyTableShape(dataset: seq<Row>, indices: seq<nat>, questions: seq<string>, backend: Backend.Oracle,
                         decode: string -> Decoded, describe: Cell -> string, i: nat, j: nat)
    requires forall t :: 0 <= t < |indices| ==> indices[t] < |dataset|
    requires i < |indices| && j < |questions|
    ensures |SurveyTable(dataset, indices, questions, backend, decode, describe)| == |indices|
    ensures var record := SurveyTable(dataset, indices, questions, backend, decode, describe)[i];
            Keys(record) == SurveyColumns(|questions|)
            && Get(record, "participant_id") == Some(ParticipantId(dataset[indices[i]], indices[i]))
            && Get(record, "persona_index") == Some(Scalar(VInt(indices[i])))
            && Get(record, QKey(j)) == Some(SurveyCell(ProfileText(dataset[indices[i]]), questions[j],
                                                       Grid.Position(i, j, |questions|), backend, decode, describe).answer)
            && Get(record, ReasoningKey(j)) == Some(SurveyCell(ProfileText(dataset[indices[i]]), questions[j],
                                                               Grid.Position(i, j, |questions|), backend, decode, describe).reasoning)
  {
    var ps := Chosen(dataset, indices);
    var answers := Grid.Row(i, ps[i], questions, SurveyCellAt(|questions|, backend, decode, describe), |questions|);
    var record := RecordBase(dataset[indices[i]], indices[i]) + SurveyEntries(answers);
    assert SurveyTable(dataset, indices, questions, backend, decode, describe)[i] == record;
    SurveyRecordKeys(dataset[indices[i]], indices[i], answers);
    SurveyRecordLookup(dataset[indices[i]], indices[i], answers, j);
  }

  /** The interview cell of the `i`-th persona and question `j`. */
  function InterviewCellAt(n: nat, backend: Backend.Oracle, describe: Cell -> string)
    : (nat, (nat, Row), nat, string) -> Cell
  {
    (i: nat, p: (nat, Row), j: nat, q: string) =>
      InterviewCell(ProfileText(p.1), q, Grid.Position(i, j, n), backend, describe)
  }

  function InterviewRecordAt(questions: seq<string>, backend: Backend.Oracle, describe: Cell -> string)
    : (nat, (nat, Row)) -> Dict<Cell>
  {
    (i: nat, p: (nat, Row)) =>
      RecordBase(p.1, p.0)
      + InterviewEntries(Grid.Row(i, p, questions, InterviewCellAt(|questions|, backend, describe), |questions|))
  }

  /** The records of `conduct_interview`, one per persona index. */
  function InterviewTable(dataset: seq<Row>, indices: seq<nat>, questions: seq<string>, backend: Backend.Oracle,
                          describe: Cell -> string): seq<Dict<Cell>>
    requires forall t :: 0 <= t < |indices| ==> indices[t] < |dataset|
  {
    Grid.Column(Chosen(dataset, indices), InterviewRecordAt(questions, backend, describe), |indices|)
  }

  /**
   * One record per persona index, in order, with the columns
   * `participant_id`, `persona_index`, `Q1`, `Q2`, ..., holding under
   * `Q{j+1}` the string outcome of cell `j`.
   */
  lemma InterviewTableShape(dataset: seq<Row>, indices: seq<nat>, questions: seq<string>, backend: Backend.Oracle,
                            describe: Cell -> string, i: nat, j: nat)
    requires forall t :: 0 <= t < |indices| ==> indices[t] < |dataset|
    requires i < |indices| && j < |questions|
    ensures |InterviewTable(dataset, indices, questions, backend, describe)| == |indices|
    ensures var record := InterviewTable(dataset, indices, questions, backend, describe)[i];
            Keys(record) == InterviewColumns(|questions|)
            && Get(record, "participant_id") == Some(ParticipantId(dataset[indices[i]], indices[i]))
            && Get(record, "persona_index") == Some(Scalar(VInt(indices[i])))
            && Get(record, QKey(j)) == Some(InterviewCell(ProfileText(dataset[indices[i]]), questions[j],
                                                          Grid.Position(i, j, |questions|), backend, describe))
  {
    var ps := Chosen(dataset, indices);
    var answers := Grid.Row(i, ps[i], questions, InterviewCellAt(|questions|, backend, describe), |questions|);
    var record := RecordBase(dataset[indices[i]], indices[i]) + InterviewEntries(answers);
    assert InterviewTable(dataset, indices, questions, backend, describe)[i] == record;
    InterviewRecordKeys(dataset[indices[i]], indices[i], answers);
    InterviewRecordLookup(dataset[indices[i]], indices[i], answers, j);
  }

  /** One survey cell as `conduct_survey` runs it. */
  method AskSurveyQuestion(profile: Result<string, Cell>, question: string, k: nat, backend: Backend.Oracle,
                           decode: string -> Decoded, describe: Cell -> string)
    returns (a: SurveyAnswer)
    ensures a == SurveyCell(profile, question, k, backend, decode, describe)
  {
    match profile {
      case Err(c) =>
        a := Failed(describe(c));
      case Ok(text) =>
        a := SurveyReply(backend(k, SurveyRequest(text, question)), decode);
    }
  }

  /** One interview cell as `conduct_interview` runs it. */
  method AskInterviewQuestion(profile: Result<string, Cell>, question: string, k: nat, backend: Backend.Oracle,
                              describe: Cell -> string)
    returns (a: Cell)
    ensures a == InterviewCell(profile, question, k, backend, describe)
  {
    match profile {
      case Err(c) =>
        a := Scalar(VStr(ErrorPrefix + describe(c)));
      case Ok(text) =>
        var reply := backend(k, InterviewRequest(text, question));
        match reply {
          case Ok(content) => a := Scalar(VStr(Strip(content)));
          case Err(e) => a := Scalar(VStr(ErrorPrefix + ApiFailure + e));
        }
    }
  }

  /**
   * The loop of `conduct_survey`: for each persona a record starts with its
   * id and index and gets `Q{j+1}` and `Q{j+1}_reasoning` set per question;
   * a failing cell is recorded and the loop goes on.
   */
  method SurveyRecords(dataset: seq<Row>, indices: seq<nat>, questions: seq<string>, backend: Backend.Oracle,
                       decode: string -> Decoded, describe: Cell -> string)
    returns (records: seq<Dict<Cell>>)
    requires forall t :: 0 <= t < |indices| ==> indices[t] < |dataset|
    ensures records == SurveyTable(dataset, indices, questions, backend, decode, describe)
  {
    ghost var ps := Chosen(dataset, indices);
    ghost var cell := SurveyCellAt(|questions|, backend, decode, describe);
    ghost var recordAt := SurveyRecordAt(questions, backend, decode, describe);
    records := [];
    for i := 0 to |indices|
      invariant records == Grid.Column(ps, recordAt, i)
    {
      var idx := indices[i];
      var row := dataset[idx];
      var profile := ProfileText(row);
      var record := RecordBase(row, idx);
      for j := 0 to |questions|
        invariant record == RecordBase(row, idx) + SurveyEntries(Grid.Row(i, ps[i], questions, cell, j))
      {
        var a := AskSurveyQuestion(profile, questions[j], Grid.Position(i, j, |questions|), backend, decode, describe);
        PutSurveyAnswer(row, idx, Grid.Row(i, ps[i], questions, cell, j), a);
        Grid.RowStep(i, ps[i], questions, cell, j);
        record := Put(record, QKey(j), a.answer);
        record := Put(record, ReasoningKey(j), a.reasoning);
      }
      Grid.ColumnStep(ps, recordAt, i);
      records := records + [record];
    }
  }

  /** The loop of `conduct_interview`: one record per persona, `Q{j+1}` set per question. */
  method InterviewRecords(dataset: seq<Row>, indices: seq<nat>, questions: seq<string>, backend: Backend.Oracle,
                          describe: Cell -> string)
    returns (records: seq<Dict<Cell>>)
    requires forall t :: 0 <= t < |indices| ==> indices[t] < |dataset|
    ensures records == InterviewTable(dataset, indices, questions, backend, describe)
  {
    ghost var ps := Chosen(dataset, indices);
    ghost var cell := InterviewCellAt(|questions|, backend, describe);
    ghost var recordAt := InterviewRecordAt(questions, backend, describe);
    records := [];
    for i := 0 to |indices|
      invariant records == Grid.Column(ps, recordAt, i)
    {
      var idx := indices[i];
      var row := dataset[idx];
      var profile := ProfileText(row);
      var record := RecordBase(row, idx);
      for j := 0 to |questions|
        invariant record == RecordBase(row, idx) + InterviewEntries(Grid.Row(i, ps[i], questions, cell, j))
      {
        var a := AskInterviewQuestion(profile, questions[j], Grid.Position(i, j, |questions|), backend, describe);
        PutInterviewAnswer(row, idx, Grid.Row(i, ps[i], questions, cell, j), a);
        Grid.RowStep(i, ps[i], questions, cell, j);
        record := Put(record, QKey(j), a);
      }
      Grid.ColumnStep(ps, recordAt, i);
      records := records + [record];
    }
  }

  // ---------------------------------------------------------------- the system

  /** Every index names a row of the dataset. */
  predicate InRange(dataset: seq<Row>, indices: seq<nat>) {
    forall t :: 0 <= t < |indices| ==> indices[t] < |dataset|
  }

  class DigitalTwinSurveySystem {
    /** `dataset['data']`, the loaded rows. */
    var dataset: seq<Row>
    var selectedPersonas: seq<nat>
    /** One record list (one DataFrame) per survey run, oldest first. */
    var surveyResults: seq<seq<Dict<Cell>>>
    var interviewResults: seq<seq<Dict<Cell>>>

    /** A system over a loaded dataset, with nothing selected and no results. */
    constructor(rows: seq<Row>)
      ensures dataset == rows && selectedPersonas == [] && surveyResults == [] && interviewResults == []
    {
      dataset := rows;
      selectedPersonas := [];
      surveyResults := [];
      interviewResults := [];
    }

    /** The last step of the interactive selection: `self.selected_personas = selected`. */
    method SetSelectedPersonas(selected: seq<nat>)
      modifies this
      ensures selectedPersonas == selected
      ensures dataset == old(dataset) && surveyResults == old(surveyResults)
              && interviewResults == old(interviewResults)
    {
      selectedPersonas := selected;
    }

    /**
     * `select_personas_by_criteria`: every index without criteria, else the
     * rows, in order, whose persona text passes every present criterion.
     */
    method SelectPersonasByCriteria(criteria: Option<Criteria>, rowText: Row -> string) returns (selected: seq<nat>)
      requires criteria.Some? ==> forall k :: 0 <= k < |dataset| ==> PlainTextColumns(dataset[k])
      ensures criteria.None? ==> selected == DatasetLoader.Range(|dataset|)
      ensures criteria.Some? ==> selected == Selection(dataset, criteria.value, rowText)
    {
      if criteria.None? {
        return DatasetLoader.Range(|dataset|);
      }
      selected := SelectRows(dataset, criteria.value, rowText);
    }

    /**
     * `conduct_survey`: the given indices, else the selected personas, each
     * answer every question; the table is returned and appended to
     * `surveyResults`.
     */
    method ConductSurvey(questions: seq<string>, personaIndices: Option<seq<nat>>, backend: Backend.Oracle,
                         decode: string -> Decoded, describe: Cell -> string)
      returns (table: seq<Dict<Cell>>)
      requires InRange(dataset, personaIndices.GetOr(selectedPersonas))
      modifies this
      ensures dataset == old(dataset) && selectedPersonas == old(selectedPersonas)
      ensures table == SurveyTable(dataset, personaIndices.GetOr(selectedPersonas), questions, backend, decode, describe)
      ensures surveyResults == old(surveyResults) + [table]
      ensures interviewResults == old(interviewResults)
    {
      var indices := if personaIndices.None? then selectedPersonas else personaIndices.value;
      table := SurveyRecords(dataset, indices, questions, backend, decode, describe);
      surveyResults := surveyResults + [table];
    }

    /**
     * `conduct_interview`: the given indices, else the selected personas, each
     * answer every question; the table is returned and appended to
     * `interviewResults`.
     */
    method ConductInterview(questions: seq<string>, personaIndices: Option<seq<nat>>, backend: Backend.Oracle,
                            describe: Cell -> string)
      returns (table: seq<Dict<Cell>>)
      requires InRange(dataset, personaIndices.GetOr(selectedPersonas))
      modifies this
      ensures dataset == old(dataset) && selectedPersonas == old(selectedPersonas)
      ensures table == InterviewTable(dataset, personaIndices.GetOr(selectedPersonas), questions, backend, describe)
      ensures interviewResults == old(interviewResults) + [table]
      ensures surveyResults == old(surveyResults)
    {
      var indices := if personaIndices.None? then selectedPersonas else personaIndices.value;
      table := InterviewRecords(dataset, indices, questions, backend, describe);
      interviewResults := interviewResults + [table];
    }
  }
}
