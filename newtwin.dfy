/**
 * The newTwin simulator: Twin-2K-500 personas filtered by field criteria,
 * turned into a system prompt, and asked survey questions (one call per
 * question) or an interview guide (an opening, the main questions, and the
 * first probe after each). Results are aggregated into rows and scored by a
 * keyword sentiment count.
 */
module NewTwin {
  import opened Wrappers
  import opened Text
  import opened PyValues
  import Backend
  import DatasetLoader
  import Grid
  import TwinSurvey

  type Row = TwinSurvey.Row
  type Cell = TwinSurvey.Cell

  // ---------------------------------------------------------------- filtering personas

  /**
   * A criterion value: a 2-tuple `(lo, hi)` is an inclusive range; a plain
   * value and a dict are compared with `!=`; any other value (a list, a
   * tuple of another length) equals no field, since a field holds a plain
   * value or a flat object.
   */
  datatype Criterion = Between(lo: Value, hi: Value) | Equal(v: Value) | Object(d: Dict<Value>) | Composite

  /**
   * Python's `==` on two dicts: the same keys, each holding equal values,
   * whatever the order of the entries; NaN equals nothing.
   */
  predicate SameDict(a: Dict<Value>, b: Dict<Value>) {
    (forall k :: k in Keys(b) ==> k in Keys(a))
    && forall k :: k in Keys(a) ==> k in Keys(b) && Get(a, k) == Get(b, k) && Get(a, k) != Some(VNaN)
  }

  /** A dict holding no NaN looks up no NaN. */
  lemma {:induction false} GetNotNaN(d: Dict<Value>, k: string)
    requires forall i :: 0 <= i < |d| ==> !d[i].1.VNaN?
    ensures Get(d, k) != Some(VNaN)
  {
    if d != [] && d[0].0 != k {
      GetNotNaN(d[1..], k);
    }
  }

  /** `==` on dicts is symmetric, and a dict without NaN equals itself. */
  lemma SameDictFacts(a: Dict<Value>, b: Dict<Value>)
    ensures SameDict(a, b) <==> SameDict(b, a)
    ensures (forall i :: 0 <= i < |a| ==> !a[i].1.VNaN?) ==> SameDict(a, a)
  {
    if forall i :: 0 <= i < |a| ==> !a[i].1.VNaN? {
      forall k | k in Keys(a) {
        GetNotNaN(a, k);
      }
    }
  }

  /** Python's `a <= b`, or `None` where it raises a `TypeError`; NaN compares false. */
  function PyLe(a: Value, b: Value): (r: Option<bool>)
    ensures a.VInt? && b.VInt? ==> r == Some(a.i <= b.i)
    ensures a.VStr? && b.VStr? ==> r == Some(StrLe(a.s, b.s))
    ensures a.VNone? || b.VNone? ==> r.None?
  {
    match (a, b)
    case (VInt(x), VInt(y)) => Some(x <= y)
    case (VStr(x), VStr(y)) => Some(StrLe(x, y))
    case (VInt(_), VNaN) => Some(false)
    case (VNaN, VInt(_)) => Some(false)
    case (VNaN, VNaN) => Some(false)
    case _ => None
  }

  /** Python's chained `lo <= x <= hi`: the second comparison runs only when the first holds. */
  function Within(lo: Value, c: Cell, hi: Value): (r: Option<bool>)
    ensures c.Scalar? && lo.VInt? && c.v.VInt? && hi.VInt? ==> r == Some(lo.i <= c.v.i <= hi.i)
  {
    if c.Nested? then None
    else
      match PyLe(lo, c.v)
      case None => None
      case Some(below) => if below then PyLe(c.v, hi) else Some(false)
  }

  /**
   * One criterion on a persona: a key the persona lacks is ignored;
   * otherwise a range must contain the value and a plain value must equal
   * it. `None` stands for the `TypeError` of an impossible comparison.
   */
  function CriterionOn(persona: Row, criterion: (string, Criterion)): (r: Option<bool>)
    ensures Get(persona, criterion.0).None? ==> r == Some(true)
    ensures Get(persona, criterion.0).Some? && criterion.1.Equal? ==>
              r == Some(!criterion.1.v.VNaN? && Get(persona, criterion.0) == Some(TwinSurvey.Scalar(criterion.1.v)))
    ensures Get(persona, criterion.0).Some? && criterion.1.Object? ==>
              r == Some(Get(persona, criterion.0).value.Nested? && SameDict(Get(persona, criterion.0).value.d, criterion.1.d))
    ensures Get(persona, criterion.0).Some? && criterion.1.Composite? ==> r == Some(false)
  {
    match Get(persona, criterion.0)
    case None => Some(true)
    case Some(c) =>
      match criterion.1
      case Between(lo, hi) => Within(lo, c, hi)
      case Equal(v) => Some(c == TwinSurvey.Scalar(v) && !v.VNaN?)
      case Object(d) => Some(c.Nested? && SameDict(c.d, d))
      case Composite => Some(false)
  }

  /**
   * A dict criterion keeps a persona whose field is the same dict without
   * NaN, whatever the order of its entries, and drops one whose field is
   * not a dict.
   */
  lemma ObjectCriterion(persona: Row, key: string, d: Dict<Value>, e: Dict<Value>)
    ensures Get(persona, key) == Some(TwinSurvey.Nested(d)) && SameDict(d, e) ==> CriterionOn(persona, (key, Object(e))) == Some(true)
    ensures Get(persona, key) == Some(TwinSurvey.Nested(d)) && (forall i :: 0 <= i < |d| ==> !d[i].1.VNaN?) ==>
              CriterionOn(persona, (key, Object(d))) == Some(true)
    ensures Get(persona, key).Some? && Get(persona, key).value.Scalar? ==> CriterionOn(persona, (key, Object(e))) == Some(false)
  {
    SameDictFacts(d, e);
  }

  /** `{"a": 1, "b": 2}` as a criterion keeps a field `{"b": 2, "a": 1}`. */
  lemma ObjectOrderExample()
    ensures var field := [("b", VInt(2)), ("a", VInt(1))];
            CriterionOn([("k", TwinSurvey.Nested(field))], ("k", Object([("a", VInt(1)), ("b", VInt(2))]))) == Some(true)
  {
    var field := [("b", VInt(2)), ("a", VInt(1))];
    var crit := [("a", VInt(1)), ("b", VInt(2))];
    assert Keys(field) == ["b", "a"];
    assert Keys(crit) == ["a", "b"];
  }

  /**
   * The inner loop of `filter_personas`: the criteria in order, stopping at
   * the first that fails (or raises).
   */
  function PersonaMatch(persona: Row, criteria: Dict<Criterion>): Option<bool> {
    if criteria == [] then Some(true)
    else
      match CriterionOn(persona, criteria[0])
      case Some(true) => PersonaMatch(persona, criteria[1..])
      case other => other
  }

  /** A persona matches exactly when every criterion holds of it. */
  lemma {:induction false} PersonaMatchMeaning(persona: Row, criteria: Dict<Criterion>)
    ensures PersonaMatch(persona, criteria) == Some(true) <==>
              forall i :: 0 <= i < |criteria| ==> CriterionOn(persona, criteria[i]) == Some(true)
  {
    if criteria != [] {
      PersonaMatchMeaning(persona, criteria[1..]);
      assert forall i :: 1 <= i < |criteria| ==> criteria[i] == criteria[1..][i - 1];
    }
  }

  /** The criteria whose key the persona has, in order. */
  function Present(persona: Row, criteria: Dict<Criterion>): (r: Dict<Criterion>)
    ensures forall i :: 0 <= i < |r| ==> Get(persona, r[i].0).Some?
  {
    if criteria == [] then []
    else (if Get(persona, criteria[0].0).Some? then [criteria[0]] else []) + Present(persona, criteria[1..])
  }

  /** Criteria on keys the persona lacks change nothing, not even whether the filter raises. */
  lemma {:induction false} AbsentKeysIgnored(persona: Row, criteria: Dict<Criterion>)
    ensures PersonaMatch(persona, criteria) == PersonaMatch(persona, Present(persona, criteria))
  {
    if criteria != [] {
      AbsentKeysIgnored(persona, criteria[1..]);
      var rest := Present(persona, criteria[1..]);
      if Get(persona, criteria[0].0).Some? {
        assert Present(persona, criteria) == [criteria[0]] + rest;
        assert ([criteria[0]] + rest)[1..] == rest;
      } else {
        assert Present(persona, criteria) == rest;
      }
    }
  }

  /** Every persona below `n` can be compared with the criteria without raising. */
  predicate Comparable(rows: seq<Row>, criteria: Dict<Criterion>, n: nat)
    requires n <= |rows|
  {
    forall k :: 0 <= k < n ==> PersonaMatch(rows[k], criteria).Some?
  }

  /** The personas the criteria admit, as a test on row positions. */
  function Admits(rows: seq<Row>, criteria: Dict<Criterion>): nat -> bool {
    (k: nat) => k < |rows| && PersonaMatch(rows[k], criteria) == Some(true)
  }

  /** The rows at the positions `ks`, in that order. */
  function Pick(rows: seq<Row>, ks: seq<nat>): (r: seq<Row>)
    requires forall t :: 0 <= t < |ks| ==> ks[t] < |rows|
    ensures |r| == |ks| && forall t :: 0 <= t < |ks| ==> r[t] == rows[ks[t]]
  {
    seq(|ks|, t requires 0 <= t < |ks| => rows[ks[t]])
  }

  /** The personas among the first `n` that match, or `None` when one of them raises. */
  function Filtered(rows: seq<Row>, criteria: Dict<Criterion>, n: nat): Option<seq<Row>>
    requires n <= |rows|
  {
    if Comparable(rows, criteria, n) then Some(Pick(rows, DatasetLoader.UpTo(Admits(rows, criteria), n)))
    else None
  }

  /**
   * `filter_personas` keeps the matching personas in dataset order: it
   * lists exactly the matching positions, each once, increasing. It raises
   * exactly when some persona cannot be compared.
   */
  lemma FilteredSelection(rows: seq<Row>, criteria: Dict<Criterion>)
    ensures Filtered(rows, criteria, |rows|).None? <==>
              exists k :: 0 <= k < |rows| && PersonaMatch(rows[k], criteria).None?
    ensures var ks := DatasetLoader.UpTo(Admits(rows, criteria), |rows|);
            && (forall k: nat :: k in ks <==> k < |rows| && PersonaMatch(rows[k], criteria) == Some(true))
            && (forall s, t :: 0 <= s < t < |ks| ==> ks[s] < ks[t])
            && (Filtered(rows, criteria, |rows|).Some? ==> Filtered(rows, criteria, |rows|).value == Pick(rows, ks))
  {
    DatasetLoader.UpToMembers(Admits(rows, criteria), |rows|);
    DatasetLoader.UpToIncreasing(Admits(rows, criteria), |rows|);
  }

  /** No criteria keep every persona. */
  lemma NoCriteriaKeepsEveryone(rows: seq<Row>)
    ensures Filtered(rows, [], |rows|) == Some(rows)
  {
    DatasetLoader.UpToEverything(Admits(rows, []), |rows|);
    assert Pick(rows, DatasetLoader.Range(|rows|)) == rows;
  }

  /** The inner loop with its `break`: the first failing criterion decides. */
  method MatchPersona(persona: Row, criteria: Dict<Criterion>) returns (r: Option<bool>)
    ensures r == PersonaMatch(persona, criteria)
  {
    var idx := 0;
    while idx < |criteria|
      invariant 0 <= idx <= |criteria|
      invariant PersonaMatch(persona, criteria) == PersonaMatch(persona, criteria[idx..])
    {
      assert criteria[idx..][1..] == criteria[idx + 1..];
      var holds := CriterionOn(persona, criteria[idx]);
      if holds.None? {
        return None;
      }
      if !holds.value {
        return Some(false);
      }
      idx := idx + 1;
    }
    return Some(true);
  }

  /** One persona of the outer loop, and the step it adds to the filtered list. */
  method AdmitPersona(rows: seq<Row>, criteria: Dict<Criterion>, idx: nat, kept: seq<Row>)
    returns (r: Option<seq<Row>>)
    requires idx < |rows| && Filtered(rows, criteria, idx) == Some(kept)
    ensures r == Filtered(rows, criteria, idx + 1)
    ensures r.None? ==> PersonaMatch(rows[idx], criteria).None?
  {
    var m := MatchPersona(rows[idx], criteria);
    if m.None? {
      return None;
    }
    var p := Admits(rows, criteria);
    var before := DatasetLoader.UpTo(p, idx);
    var after := DatasetLoader.UpTo(p, idx + 1);
    assert after == before + (if m.value then [idx] else []);
    r := Some(kept + (if m.value then [rows[idx]] else []));
    assert Pick(rows, after) == kept + (if m.value then [rows[idx]] else []);
  }

  /** `PersonaDataLoader` once its dataset is loaded: `rows` is `dataset['data']`. */
  class PersonaDataLoader {
    var rows: seq<Row>

    constructor(loaded: seq<Row>)
      ensures rows == loaded
    {
      rows := loaded;
    }

    /** `filter_personas`: the matching personas in dataset order; `None` when a comparison raises. */
    method FilterPersonas(criteria: Dict<Criterion>) returns (r: Option<seq<Row>>)
      ensures r == Filtered(rows, criteria, |rows|)
    {
      var filtered: seq<Row> := [];
      for idx := 0 to |rows|
        invariant Filtered(rows, criteria, idx) == Some(filtered)
      {
        var step := AdmitPersona(rows, criteria, idx, filtered);
        if step.None? {
          return None;
        }
        filtered := step.value;
      }
      return Some(filtered);
    }
  }

  // ---------------------------------------------------------------- question templates

  /** `QuestionTemplate.SURVEY_QUESTIONS`. */
  const SurveyQuestions: Dict<seq<string>> := [
    ("product_feedback", [
      "이 제품의 가장 마음에 드는 점은 무엇인가요?",
      "이 제품을 친구에게 추천할 의향이 얼마나 되시나요? (0-10점)",
      "제품 개선을 위한 제안사항이 있으신가요?"]),
    ("brand_perception", [
      "우리 브랜드에 대해 어떻게 생각하시나요?",
      "우리 브랜드를 한 단어로 표현한다면?",
      "경쟁사 대비 우리의 강점은 무엇이라고 생각하시나요?"]),
    ("consumer_behavior", [
      "최근 구매 결정에 가장 큰 영향을 준 요인은?",
      "제품 구매 시 가장 중요하게 생각하는 기준은?",
      "온라인 vs 오프라인 쇼핑 중 선호하시는 것은?"]),
    ("lifestyle", [
      "여가 시간을 주로 어떻게 보내시나요?",
      "일과 삶의 균형에 대해 어떻게 생각하시나요?",
      "건강 관리를 위해 하고 있는 활동이 있나요?"])
  ]

  /** The four survey categories. */
  const SurveyCategories: seq<string> := ["product_feedback", "brand_perception", "consumer_behavior", "lifestyle"]

  /** `get_questions_by_category`: the category's three questions, or none for an unknown category. */
  function QuestionsByCategory(category: string): (r: seq<string>)
    ensures category !in SurveyCategories ==> r == []
    ensures category in SurveyCategories ==> |r| == 3
    ensures category in SurveyCategories ==> Some(r) == Get(SurveyQuestions, category)
  {
    assert Keys(SurveyQuestions) == SurveyCategories;
    GetSome(SurveyQuestions, category);
    GetOr(SurveyQuestions, category, [])
  }

  /** An interview guide; an absent key reads as its default (`''`, no questions, no probes). */
  datatype Guide = Guide(opening: string, mainQuestions: seq<string>, probes: seq<string>)

  /** `QuestionTemplate.INTERVIEW_GUIDES`. */
  const InterviewGuides: Dict<Guide> := [
    ("user_experience", Guide(
      "오늘은 여러분의 경험에 대해 깊이 있게 이야기 나누고 싶습니다.",
      ["제품/서비스를 처음 접하게 된 계기는?",
       "사용 과정에서 겪은 가장 큰 어려움은?",
       "기대했던 것과 실제 경험의 차이는?",
       "다른 사람들에게 들려주고 싶은 이야기가 있나요?"],
      ["좀 더 자세히 말씀해 주시겠어요?",
       "그때 어떤 감정을 느끼셨나요?",
       "구체적인 예시를 들어주실 수 있나요?"])),
    ("decision_making", Guide(
      "구매 결정 과정에 대해 이야기해 봅시다.",
      ["처음 이 제품이 필요하다고 느낀 순간은?",
       "정보 탐색은 어떻게 하셨나요?",
       "최종 결정을 내리기까지 고려한 요소들은?",
       "만약 다시 선택한다면 같은 결정을 하시겠어요?"],
      ["그 결정이 중요했던 이유는?",
       "다른 대안들은 어떤 것들이 있었나요?",
       "주변 사람들의 의견은 어땠나요?"]))
  ]

  // ---------------------------------------------------------------- the persona prompt

  const PromptHeader: string := "You are simulating a real person with the following characteristics:\n\n"
  const PromptFooter: string :=
    "\nPlease respond to questions as this person would, based on their demographics, values, and personality traits."

  /**
   * The `persona_json` object the prompt lists: the object itself, or the
   * object `json.loads` (the parameter `decode`) reads from a string.
   */
  function PromptJson(persona: Row, decode: string -> Option<Dict<Value>>): Option<Dict<Value>> {
    var c := Get(persona, "persona_json");
    if c.None? then None
    else if c.value.Nested? then Some(c.value.d)
    else if c.value.v.VStr? then decode(c.value.v.s)
    else None
  }

  /**
   * `create_persona_prompt` runs without raising: a `persona_text` is a
   * string, and without one a `persona_json` is an object or a string that
   * decodes to one.
   */
  predicate PromptReady(persona: Row, decode: string -> Option<Dict<Value>>) {
    var text := Get(persona, "persona_text");
    (text.Some? ==> text.value.Scalar? && text.value.v.VStr?)
    && (text.None? && Get(persona, "persona_json").Some? ==> PromptJson(persona, decode).Some?)
  }

  /** `- {key}: {value}` for a JSON entry. */
  function JsonLine(item: (string, Value)): string {
    "- " + item.0 + ": " + ToStr(item.1) + "\n"
  }

  /** Python's `str(c)`; the printed form of a nested object is the parameter `reprOf`. */
  function CellText(c: Cell, reprOf: Dict<Value> -> string): string {
    match c
    case Scalar(v) => ToStr(v)
    case Nested(d) => reprOf(d)
  }

  /** `- {key}: {value}` for a field of the row itself, nothing for `id` and `index`. */
  function FieldLine(item: (string, Cell), reprOf: Dict<Value> -> string): string {
    if item.0 == "id" || item.0 == "index" then "" else "- " + item.0 + ": " + CellText(item.1, reprOf) + "\n"
  }

  function FieldLines(reprOf: Dict<Value> -> string): ((string, Cell)) -> string {
    item => FieldLine(item, reprOf)
  }

  /** The part between header and footer: `persona_text`, else the JSON entries, else the row's fields. */
  function PromptBody(persona: Row, decode: string -> Option<Dict<Value>>, reprOf: Dict<Value> -> string): string
    requires PromptReady(persona, decode)
  {
    var text := Get(persona, "persona_text");
    if text.Some? then text.value.v.s
    else if Get(persona, "persona_json").Some? then
      var d := PromptJson(persona, decode).value;
      TwinSurvey.Appended(d, JsonLine, |d|)
    else TwinSurvey.Appended(persona, FieldLines(reprOf), |persona|)
  }

  function PersonaPrompt(persona: Row, decode: string -> Option<Dict<Value>>, reprOf: Dict<Value> -> string): string
    requires PromptReady(persona, decode)
  {
    PromptHeader + PromptBody(persona, decode, reprOf) + PromptFooter
  }

  lemma WrappedContains(head: string, body: string, foot: string, sub: string)
    requires Contains(body, sub)
    ensures Contains(head + body + foot, sub)
  {
    ContainsAfter(head, body, sub);
    ContainsExtend(head + body, sub, foot);
  }

  /**
   * The prompt starts with the fixed header and ends with the fixed
   * instruction. Between them is the `persona_text` when there is one;
   * otherwise every entry of `persona_json` when there is one; otherwise
   * every field of the row but `id` and `index`.
   */
  lemma {:induction false} PromptShape(persona: Row, decode: string -> Option<Dict<Value>>, reprOf: Dict<Value> -> string)
    requires PromptReady(persona, decode)
    ensures IsPrefix(PromptHeader, PersonaPrompt(persona, decode, reprOf))
    ensures var p := PersonaPrompt(persona, decode, reprOf);
            |PromptFooter| <= |p| && p[|p| - |PromptFooter|..] == PromptFooter
    ensures Get(persona, "persona_text").Some? ==>
              PersonaPrompt(persona, decode, reprOf) == PromptHeader + Get(persona, "persona_text").value.v.s + PromptFooter
    ensures Get(persona, "persona_text").None? && Get(persona, "persona_json").Some? ==>
              forall k :: 0 <= k < |PromptJson(persona, decode).value| ==>
                Contains(PersonaPrompt(persona, decode, reprOf), JsonLine(PromptJson(persona, decode).value[k]))
    ensures Get(persona, "persona_text").None? && Get(persona, "persona_json").None? ==>
              forall k :: 0 <= k < |persona| && persona[k].0 != "id" && persona[k].0 != "index" ==>
                Contains(PersonaPrompt(persona, decode, reprOf),
                         "- " + persona[k].0 + ": " + CellText(persona[k].1, reprOf) + "\n")
  {
    var body := PromptBody(persona, decode, reprOf);
    var p := PromptHeader + body + PromptFooter;
    assert p[..|PromptHeader|] == PromptHeader;
    assert p[|p| - |PromptFooter|..] == PromptFooter;
    if Get(persona, "persona_text").None? {
      if Get(persona, "persona_json").Some? {
        var d := PromptJson(persona, decode).value;
        forall k | 0 <= k < |d|
          ensures Contains(p, JsonLine(d[k]))
        {
          TwinSurvey.AppendedContains(d, JsonLine, |d|, k);
          WrappedContains(PromptHeader, body, PromptFooter, JsonLine(d[k]));
        }
      } else {
        forall k | 0 <= k < |persona| && persona[k].0 != "id" && persona[k].0 != "index"
          ensures Contains(p, "- " + persona[k].0 + ": " + CellText(persona[k].1, reprOf) + "\n")
        {
          TwinSurvey.AppendedContains(persona, FieldLines(reprOf), |persona|, k);
          WrappedContains(PromptHeader, body, PromptFooter, FieldLine(persona[k], reprOf));
        }
      }
    }
  }

  /** `create_persona_prompt`, building the prompt with `+=`. */
  method CreatePersonaPrompt(persona: Row, decode: string -> Option<Dict<Value>>, reprOf: Dict<Value> -> string)
    returns (text: string)
    requires PromptReady(persona, decode)
    ensures text == PersonaPrompt(persona, decode, reprOf)
  {
    text := PromptHeader;
    var personaText := Get(persona, "persona_text");
    if personaText.Some? {
      text := text + personaText.value.v.s;
    } else if Get(persona, "persona_json").Some? {
      text := AppendLines(text, PromptJson(persona, decode).value, JsonLine);
    } else {
      text := AppendLines(text, persona, FieldLines(reprOf));
    }
    text := text + PromptFooter;
  }

  /**
   * The loop of `+=` over the entries of an object, one line each; `line`
   * gives an entry's line, the empty string for a skipped entry.
   */
  method AppendLines<T>(start: string, items: seq<T>, line: T -> string) returns (text: string)
    ensures text == start + TwinSurvey.Appended(items, line, |items|)
  {
    text := start;
    for k := 0 to |items|
      invariant text == start + TwinSurvey.Appended(items, line, k)
    {
      text := text + line(items[k]);
    }
  }

  // ---------------------------------------------------------------- one simulated answer

  const Guidelines: string :=
    "\n\nImportant guidelines:\n- Answer authentically as this person would\n- Be consistent with the persona's characteristics\n- Provide natural, human-like responses\n- If uncertain, reflect that in your answer"

  /** The system prompt: the persona prompt followed by the guidelines. */
  function SystemPrompt(persona: Row, decode: string -> Option<Dict<Value>>, reprOf: Dict<Value> -> string): string
    requires PromptReady(persona, decode)
  {
    PersonaPrompt(persona, decode, reprOf) + Guidelines
  }

  /** The system prompt starts with the persona prompt, and so with the fixed header. */
  lemma SystemPromptStart(persona: Row, decode: string -> Option<Dict<Value>>, reprOf: Dict<Value> -> string)
    requires PromptReady(persona, decode)
    ensures IsPrefix(PersonaPrompt(persona, decode, reprOf), SystemPrompt(persona, decode, reprOf))
    ensures IsPrefix(PromptHeader, SystemPrompt(persona, decode, reprOf))
  {
    PromptShape(persona, decode, reprOf);
  }

  /** The user message: the bare question, or the question after a non-empty context. */
  function UserMessage(question: string, context: Option<string>): (r: string)
    ensures context.None? || context.value == "" ==> r == question
    ensures context.Some? && context.value != "" ==>
              StartsWith(r, "Context: ") && Contains(r, context.value)
              && |question| <= |r| && r[|r| - |question|..] == question
  {
    if context.Some? && context.value != "" then
      var r := "Context: " + context.value + "\n\nQuestion: " + question;
      assert r[..9] == "Context: ";
      assert r[9..9 + |context.value|] == context.value;
      assert OccursAt(r, context.value, 9);
      assert r[|r| - |question|..] == question;
      r
    else question
  }

  /** The request `simulate_response` sends under the given system prompt. */
  function SimRequest(system: string, question: string, context: Option<string>): (r: Backend.Request)
    ensures r.system == system && r.history == [] && r.user == UserMessage(question, context)
  {
    Backend.Ask(system, UserMessage(question, context))
  }

  /** A `simulate_response` result; the timestamp is not modelled. */
  datatype Response = Response(question: string, response: Option<string>, error: Option<string>, success: bool)

  /** The result for one reply: the completion on success, `None` and the error otherwise. */
  function Simulated(question: string, reply: Backend.Reply): (r: Response)
    ensures r.question == question
    ensures r.success <==> reply.Ok?
    ensures reply.Ok? ==> r.response == Some(reply.value) && r.error.None?
    ensures reply.Err? ==> r.response.None? && r.error == Some(reply.error)
  {
    match reply
    case Ok(text) => Response(question, Some(text), None, true)
    case Err(e) => Response(question, None, Some(e), false)
  }

  /** `simulate_response`: the `k`-th call of a run; a failed call is caught. */
  method SimulateResponse(persona: Row, question: string, context: Option<string>, k: nat, backend: Backend.Oracle,
                          decode: string -> Option<Dict<Value>>, reprOf: Dict<Value> -> string)
    returns (r: Response)
    requires PromptReady(persona, decode)
    ensures r == Simulated(question, backend(k, SimRequest(SystemPrompt(persona, decode, reprOf), question, context)))
  {
    var system := CreateSystemPrompt(persona, decode, reprOf);
    r := Respond(system, question, context, k, backend);
  }

  /** The system prompt of `simulate_response`: the persona prompt, then the guidelines. */
  method CreateSystemPrompt(persona: Row, decode: string -> Option<Dict<Value>>, reprOf: Dict<Value> -> string)
    returns (system: string)
    requires PromptReady(persona, decode)
    ensures system == SystemPrompt(persona, decode, reprOf)
  {
    var personaPrompt := CreatePersonaPrompt(persona, decode, reprOf);
    system := personaPrompt + Guidelines;
  }

  /** The rest of `simulate_response`: the user message, the call, and the caught failure. */
  method Respond(system: string, question: string, context: Option<string>, k: nat, backend: Backend.Oracle)
    returns (r: Response)
    ensures r == Simulated(question, backend(k, SimRequest(system, question, context)))
  {
    var user := question;
    if context.Some? && context.value != "" {
      user := "Context: " + context.value + "\n\nQuestion: " + question;
    }
    var reply := backend(k, Backend.Ask(system, user));
    if reply.Ok? {
      r := Response(question, Some(reply.value), None, true);
    } else {
      r := Response(question, None, Some(reply.error), false);
    }
  }

  // ---------------------------------------------------------------- surveys

  /** `persona_data.get('id', 'unknown')`. */
  function PersonaId(persona: Row): (r: Cell)
    ensures Get(persona, "id").Some? ==> Some(r) == Get(persona, "id")
    ensures Get(persona, "id").None? ==> r == TwinSurvey.Scalar(VStr("unknown"))
  {
    GetOr(persona, "id", TwinSurvey.Scalar(VStr("unknown")))
  }

  /** A `conduct_survey` result; the start and completion times are not modelled. */
  datatype SurveyRun = SurveyRun(personaId: Cell, context: Option<string>, responses: seq<Response>)

  /** Question `j` of a survey under the system prompt `system`, asked as call `j`. */
  function SurveyCell(system: string, context: Option<string>, backend: Backend.Oracle): (nat, string) -> Response {
    (j: nat, q: string) => Simulated(q, backend(j, SimRequest(system, q, context)))
  }

  /** The responses of a survey: one per question, in question order. */
  function SurveyResponses(system: string, questions: seq<string>, context: Option<string>, backend: Backend.Oracle)
    : (r: seq<Response>)
    ensures |r| == |questions|
    ensures forall j :: 0 <= j < |questions| ==> r[j].question == questions[j]
  {
    var r := Grid.Column(questions, SurveyCell(system, context, backend), |questions|);
    forall j | 0 <= j < |questions|
      ensures r[j] == Simulated(questions[j], backend(j, SimRequest(system, questions[j], context)))
    {
      assert r[j] == SurveyCell(system, context, backend)(j, questions[j]);
    }
    r
  }

  /**
   * Each response of a survey succeeded exactly when its call returned,
   * carrying the reply or the error; a failure never stops the questions
   * after it.
   */
  lemma SurveyResponsesFacts(system: string, questions: seq<string>, context: Option<string>, backend: Backend.Oracle,
                             j: nat)
    requires j < |questions|
    ensures var r := SurveyResponses(system, questions, context, backend)[j];
            var reply := backend(j, SimRequest(system, questions[j], context));
            && (r.success <==> reply.Ok?)
            && (reply.Ok? ==> r.response == Some(reply.value))
            && (reply.Err? ==> r.response.None? && r.error == Some(reply.error))
  {
    assert SurveyResponses(system, questions, context, backend)[j] == SurveyCell(system, context, backend)(j, questions[j]);
  }

  /**
   * `conduct_survey`: one response per question, appended in order. Every
   * call of `simulate_response` builds the same system prompt from the same
   * persona, so it is built once here.
   */
  method ConductSurvey(persona: Row, questions: seq<string>, context: Option<string>, backend: Backend.Oracle,
                       decode: string -> Option<Dict<Value>>, reprOf: Dict<Value> -> string)
    returns (run: SurveyRun)
    requires PromptReady(persona, decode)
    ensures run.personaId == PersonaId(persona) && run.context == context
    ensures run.responses == SurveyResponses(SystemPrompt(persona, decode, reprOf), questions, context, backend)
  {
    var system := CreateSystemPrompt(persona, decode, reprOf);
    var responses := AskSurveyQuestions(system, questions, context, backend);
    run := SurveyRun(PersonaId(persona), context, responses);
  }

  /** The loop of `conduct_survey`: question `i` is asked as call `i`. */
  method AskSurveyQuestions(system: string, questions: seq<string>, context: Option<string>, backend: Backend.Oracle)
    returns (responses: seq<Response>)
    ensures responses == SurveyResponses(system, questions, context, backend)
  {
    responses := [];
    for i := 0 to |questions|
      invariant responses == Grid.Column(questions, SurveyCell(system, context, backend), i)
    {
      var response := Respond(system, questions[i], context, i, backend);
      Grid.ColumnStep(questions, SurveyCell(system, context, backend), i);
      responses := responses + [response];
    }
  }

  // ---------------------------------------------------------------- interviews

  /** An entry of the interview conversation; timestamps are not modelled. */
  datatype Entry =
    | Opening(interviewer: string)
    | MainQuestion(interviewer: string, respondent: Option<string>)
    | Probe(interviewer: string, respondent: Option<string>)

  /** A `conduct_interview` result. */
  datatype InterviewRun = InterviewRun(personaId: Cell, interviewType: string, conversation: seq<Entry>)

  /** Calls made per main question: two when the guide has probes, else one. */
  function Width(guide: Guide): nat {
    if guide.probes != [] then 2 else 1
  }

  /**
   * The entries for main question `j`: its answer from call `j * w`, and
   * with probes the answer to the first probe from call `j * w + 1`.
   */
  function Block(system: string, guide: Guide, backend: Backend.Oracle, j: nat): (r: seq<Entry>)
    requires j < |guide.mainQuestions|
    ensures BlockShape(r, Width(guide), guide.probes)
    ensures r[0].interviewer == guide.mainQuestions[j]
  {
    var w := Width(guide);
    var q := guide.mainQuestions[j];
    var main := MainQuestion(q, Simulated(q, backend(Grid.Position(j, 0, w), SimRequest(system, q, None))).response);
    if guide.probes == [] then [main]
    else
      var probe := guide.probes[0];
      [main, Probe(probe, Simulated(probe, backend(Grid.Position(j, 1, w), SimRequest(system, probe, None))).response)]
  }

  /**
   * A block of `w` entries led by a main question, with no opening, whose
   * probe entries all ask the first of `probes`.
   */
  predicate BlockShape(b: seq<Entry>, w: nat, probes: seq<string>) {
    |b| == w > 0 && b[0].MainQuestion?
    && forall t :: 0 <= t < |b| ==> !b[t].Opening? && (b[t].Probe? ==> probes != [] && b[t].interviewer == probes[0])
  }

  /** The blocks of the guide's main questions, by index. */
  function Blocks(system: string, guide: Guide, backend: Backend.Oracle): nat -> seq<Entry> {
    (j: nat) => if j < |guide.mainQuestions| then Block(system, guide, backend, j) else []
  }

  /** The opening followed by the first `n` blocks. */
  function Conversation(opening: string, blocks: nat -> seq<Entry>, n: nat): seq<Entry> {
    if n == 0 then [Opening(opening)] else Conversation(opening, blocks, n - 1) + blocks(n - 1)
  }

  /**
   * The first `n` blocks each have `w` entries and are led by the main
   * question `mains[j]`.
   */
  predicate BlocksLed(blocks: nat -> seq<Entry>, n: nat, w: nat, probes: seq<string>, mains: seq<string>) {
    n <= |mains|
    && forall j: nat :: j < n ==> BlockShape(blocks(j), w, probes) && blocks(j)[0].interviewer == mains[j]
  }

  /**
   * A conversation of `1 + n * w` entries: the opening first and only there,
   * probe entries asking the first probe, and main question `j` at `1 + j * w`.
   */
  predicate ConversationShaped(c: seq<Entry>, opening: string, n: nat, w: nat, probes: seq<string>, mains: seq<string>)
    requires n <= |mains|
  {
    && |c| == 1 + n * w
    && c[0] == Opening(opening)
    && (forall t :: 0 < t < |c| ==> !c[t].Opening?)
    && (forall t :: 0 <= t < |c| && c[t].Probe? ==> probes != [] && c[t].interviewer == probes[0])
    && (forall j :: 0 <= j < n ==>
          1 + Grid.Position(j, 0, w) < |c|
          && c[1 + Grid.Position(j, 0, w)].MainQuestion?
          && c[1 + Grid.Position(j, 0, w)].interviewer == mains[j])
  }

  /** Blocks led by their main questions make a conversation of that shape. */
  lemma {:induction false} ConversationOfBlocks(opening: string, blocks: nat -> seq<Entry>, n: nat, w: nat,
                                                probes: seq<string>, mains: seq<string>)
    requires BlocksLed(blocks, n, w, probes, mains)
    ensures ConversationShaped(Conversation(opening, blocks, n), opening, n, w, probes, mains)
  {
    if n > 0 {
      ConversationOfBlocks(opening, blocks, n - 1, w, probes, mains);
      var before := Conversation(opening, blocks, n - 1);
      var block := blocks(n - 1);
      var c := before + block;
      assert BlockShape(block, w, probes);
      assert n * w == (n - 1) * w + w;
      forall t | 0 <= t < |c|
        ensures t > 0 ==> !c[t].Opening?
        ensures c[t].Probe? ==> probes != [] && c[t].interviewer == probes[0]
      {
        if t >= |before| {
          assert c[t] == block[t - |before|];
        } else {
          assert c[t] == before[t];
        }
      }
      forall j | 0 <= j < n
        ensures 1 + Grid.Position(j, 0, w) < |c|
        ensures c[1 + Grid.Position(j, 0, w)].MainQuestion?
        ensures c[1 + Grid.Position(j, 0, w)].interviewer == mains[j]
      {
        if j < n - 1 {
          assert c[1 + Grid.Position(j, 0, w)] == before[1 + Grid.Position(j, 0, w)];
        } else {
          assert 1 + Grid.Position(j, 0, w) == |before|;
          assert c[|before|] == block[0];
        }
      }
    }
  }

  /**
   * An interview's conversation has `1 + m * w` entries for `m` main
   * questions: the opening first and only there, main question `j` at
   * `1 + j * w`, and every probe entry asking the first probe (none when
   * the guide has no probes).
   */
  lemma ConversationShape(system: string, guide: Guide, backend: Backend.Oracle)
    ensures ConversationShaped(Conversation(guide.opening, Blocks(system, guide, backend), |guide.mainQuestions|),
                               guide.opening, |guide.mainQuestions|, Width(guide), guide.probes, guide.mainQuestions)
  {
    BlocksShaped(system, guide, backend);
    ConversationOfBlocks(guide.opening, Blocks(system, guide, backend), |guide.mainQuestions|, Width(guide),
                         guide.probes, guide.mainQuestions);
  }

  /** Each block of a guide is shaped and led by its main question. */
  lemma BlocksShaped(system: string, guide: Guide, backend: Backend.Oracle)
    ensures BlocksLed(Blocks(system, guide, backend), |guide.mainQuestions|, Width(guide), guide.probes,
                      guide.mainQuestions)
  {
    forall j: nat | j < |guide.mainQuestions|
      ensures BlockShape(Blocks(system, guide, backend)(j), Width(guide), guide.probes)
      ensures Blocks(system, guide, backend)(j)[0].interviewer == guide.mainQuestions[j]
    {
      assert Blocks(system, guide, backend)(j) == Block(system, guide, backend, j);
    }
  }

  /** A built-in guide asks four main questions, each followed by a probe: nine entries in all. */
  lemma BuiltInConversations(system: string, backend: Backend.Oracle, k: nat)
    requires k < |InterviewGuides|
    ensures var guide := InterviewGuides[k].1;
            |Conversation(guide.opening, Blocks(system, guide, backend), |guide.mainQuestions|)| == 9
  {
    var guide := InterviewGuides[k].1;
    assert |guide.mainQuestions| == 4 && Width(guide) == 2;
    ConversationShape(system, guide, backend);
  }

  /** The entries of main question `j`, as the loop body appends them. */
  method AskMainQuestion(system: string, guide: Guide, backend: Backend.Oracle, j: nat)
    returns (block: seq<Entry>)
    requires j < |guide.mainQuestions|
    ensures block == Blocks(system, guide, backend)(j)
  {
    var w := Width(guide);
    var question := guide.mainQuestions[j];
    var response := Respond(system, question, None, Grid.Position(j, 0, w), backend);
    block := [MainQuestion(question, response.response)];
    if guide.probes != [] {
      var probe := guide.probes[0];
      var probeResponse := Respond(system, probe, None, Grid.Position(j, 1, w), backend);
      block := block + [Probe(probe, probeResponse.response)];
    }
  }

  /**
   * `conduct_interview`: the opening, then each main question and its
   * probe. The system prompt is built once, as in `ConductSurvey`.
   */
  method ConductInterview(persona: Row, guide: Guide, backend: Backend.Oracle,
                          decode: string -> Option<Dict<Value>>, reprOf: Dict<Value> -> string)
    returns (run: InterviewRun)
    requires PromptReady(persona, decode)
    ensures run.personaId == PersonaId(persona) && run.interviewType == guide.opening
    ensures run.conversation == Conversation(guide.opening, Blocks(SystemPrompt(persona, decode, reprOf), guide, backend),
                                             |guide.mainQuestions|)
  {
    var system := CreateSystemPrompt(persona, decode, reprOf);
    var conversation := Interview(system, guide, backend);
    run := InterviewRun(PersonaId(persona), guide.opening, conversation);
  }

  /** The loop of `conduct_interview`. */
  method Interview(system: string, guide: Guide, backend: Backend.Oracle) returns (conversation: seq<Entry>)
    ensures conversation == Conversation(guide.opening, Blocks(system, guide, backend), |guide.mainQuestions|)
  {
    conversation := [Opening(guide.opening)];
    for j := 0 to |guide.mainQuestions|
      invariant conversation == Conversation(guide.opening, Blocks(system, guide, backend), j)
    {
      var block := AskMainQuestion(system, guide, backend, j);
      conversation := conversation + block;
    }
  }

  // ---------------------------------------------------------------- aggregation

  /** A row of `aggregate_survey_results`; the timestamp is not modelled. */
  datatype AggregateRow = AggregateRow(personaId: Cell, question: string, response: Option<string>)

  /** The rows of one survey result, one per response. */
  function RunRows(run: SurveyRun): (r: seq<AggregateRow>)
    ensures |r| == |run.responses|
  {
    seq(|run.responses|, j requires 0 <= j < |run.responses| =>
      AggregateRow(run.personaId, run.responses[j].question, run.responses[j].response))
  }

  /** The rows of the first `n` results, result after result. */
  function Aggregated(results: seq<SurveyRun>, n: nat): seq<AggregateRow>
    requires n <= |results|
  {
    if n == 0 then [] else Aggregated(results, n - 1) + RunRows(results[n - 1])
  }

  /** The number of responses in the first `n` results. */
  function ResponseCount(results: seq<SurveyRun>, n: nat): nat
    requires n <= |results|
  {
    if n == 0 then 0 else ResponseCount(results, n - 1) + |results[n - 1].responses|
  }

  lemma {:induction false} AggregatedLength(results: seq<SurveyRun>, n: nat)
    requires n <= |results|
    ensures |Aggregated(results, n)| == ResponseCount(results, n)
  {
    if n > 0 {
      AggregatedLength(results, n - 1);
    }
  }

  /** Where response `j` of result `i` lands: after all rows of the results before `i`. */
  function Offset(results: seq<SurveyRun>, i: nat, j: nat): nat
    requires i <= |results|
  {
    ResponseCount(results, i) + j
  }

  lemma {:induction false} AggregatedAt(results: seq<SurveyRun>, n: nat, i: nat, j: nat)
    requires i < n <= |results| && j < |results[i].responses|
    ensures Offset(results, i, j) < |Aggregated(results, n)|
    ensures Aggregated(results, n)[Offset(results, i, j)]
            == AggregateRow(results[i].personaId, results[i].responses[j].question, results[i].responses[j].response)
  {
    var before := Aggregated(results, n - 1);
    var rows := RunRows(results[n - 1]);
    AggregatedLength(results, n);
    AggregatedLength(results, n - 1);
    var t := Offset(results, i, j);
    if i < n - 1 {
      AggregatedAt(results, n - 1, i, j);
      assert (before + rows)[t] == before[t];
    } else {
      assert (before + rows)[t] == rows[j];
    }
  }

  /**
   * One row per response, persona-major: response `j` of result `i` is the
   * row after all rows of the results before `i`.
   */
  lemma AggregatedLayout(results: seq<SurveyRun>)
    ensures |Aggregated(results, |results|)| == ResponseCount(results, |results|)
    ensures forall i: nat, j: nat :: i < |results| && j < |results[i].responses| ==>
              Offset(results, i, j) < |Aggregated(results, |results|)|
              && Aggregated(results, |results|)[Offset(results, i, j)]
                 == AggregateRow(results[i].personaId, results[i].responses[j].question, results[i].responses[j].response)
  {
    AggregatedLength(results, |results|);
    forall i: nat, j: nat | i < |results| && j < |results[i].responses|
      ensures Offset(results, i, j) < |Aggregated(results, |results|)|
      ensures Aggregated(results, |results|)[Offset(results, i, j)]
              == AggregateRow(results[i].personaId, results[i].responses[j].question, results[i].responses[j].response)
    {
      AggregatedAt(results, |results|, i, j);
    }
  }

  /** The inner loop: the rows of one result added after `data`. */
  method AppendRunRows(data: seq<AggregateRow>, run: SurveyRun) returns (out: seq<AggregateRow>)
    ensures out == data + RunRows(run)
  {
    out := data;
    for j := 0 to |run.responses|
      invariant out == data + RunRows(run)[..j]
    {
      assert RunRows(run)[..j + 1] == RunRows(run)[..j] + [RunRows(run)[j]];
      out := out + [AggregateRow(run.personaId, run.responses[j].question, run.responses[j].response)];
    }
    assert RunRows(run)[..|run.responses|] == RunRows(run);
  }

  /** `aggregate_survey_results`: every response of every result, result by result. */
  method AggregateSurveyResults(results: seq<SurveyRun>) returns (data: seq<AggregateRow>)
    ensures data == Aggregated(results, |results|)
  {
    data := [];
    for i := 0 to |results|
      invariant data == Aggregated(results, i)
    {
      data := AppendRunRows(data, results[i]);
    }
  }

  // ---------------------------------------------------------------- sentiment

  const PositiveWords: seq<string> := ["좋", "훌륭", "만족", "추천", "긍정", "완벽"]
  const NegativeWords: seq<string> := ["나쁨", "실망", "불만", "부정", "최악", "불편"]

  /** `sum(1 for word in words if word in response)`: list entries, not distinct words. */
  function Hits(response: string, words: seq<string>): (r: nat)
    ensures r <= |words|
  {
    if words == [] then 0 else (if Contains(response, words[0]) then 1 else 0) + Hits(response, words[1..])
  }

  datatype Sentiment = Positive | Negative | Neutral

  /** More positive hits is positive, more negative hits negative, a tie neutral. */
  function SentimentOf(response: string): (r: Sentiment)
    ensures r == Positive <==> Hits(response, PositiveWords) > Hits(response, NegativeWords)
    ensures r == Negative <==> Hits(response, NegativeWords) > Hits(response, PositiveWords)
    ensures r == Neutral <==> Hits(response, PositiveWords) == Hits(response, NegativeWords)
  {
    var pos := Hits(response, PositiveWords);
    var neg := Hits(response, NegativeWords);
    if pos > neg then Positive else if neg > pos then Negative else Neutral
  }

  /** `not response`: `None` and the empty string are skipped. */
  predicate Answered(response: Option<string>) {
    response.Some? && response.value != ""
  }

  /** The labels of the answered responses among the first `n`, in order. */
  function Sentiments(responses: seq<Option<string>>, n: nat): seq<Sentiment>
    requires n <= |responses|
  {
    if n == 0 then []
    else Sentiments(responses, n - 1) + (if Answered(responses[n - 1]) then [SentimentOf(responses[n - 1].value)] else [])
  }

  /** The number of answered responses among the first `n`. */
  function AnsweredCount(responses: seq<Option<string>>, n: nat): nat
    requires n <= |responses|
  {
    if n == 0 then 0 else AnsweredCount(responses, n - 1) + (if Answered(responses[n - 1]) then 1 else 0)
  }

  /** `sentiments.count(s)`. */
  function Count(ss: seq<Sentiment>, s: Sentiment): nat {
    if ss == [] then 0 else Count(ss[..|ss| - 1], s) + (if ss[|ss| - 1] == s then 1 else 0)
  }

  datatype SentimentCounts = SentimentCounts(positive: nat, negative: nat, neutral: nat, total: nat)

  function Tally(ss: seq<Sentiment>): SentimentCounts {
    SentimentCounts(Count(ss, Positive), Count(ss, Negative), Count(ss, Neutral), |ss|)
  }

  lemma {:induction false} CountsPartition(ss: seq<Sentiment>)
    ensures Count(ss, Positive) + Count(ss, Negative) + Count(ss, Neutral) == |ss|
  {
    if ss != [] {
      CountsPartition(ss[..|ss| - 1]);
    }
  }

  lemma {:induction false} SentimentsLength(responses: seq<Option<string>>, n: nat)
    requires n <= |responses|
    ensures |Sentiments(responses, n)| == AnsweredCount(responses, n)
  {
    if n > 0 {
      SentimentsLength(responses, n - 1);
    }
  }

  /**
   * The three counts add up to the total, and the total is the number of
   * non-empty responses.
   */
  lemma SentimentTotals(responses: seq<Option<string>>)
    ensures var c := Tally(Sentiments(responses, |responses|));
            c.positive + c.negative + c.neutral == c.total && c.total == AnsweredCount(responses, |responses|)
  {
    CountsPartition(Sentiments(responses, |responses|));
    SentimentsLength(responses, |responses|);
  }

  /** `analyze_sentiment`: label each non-empty response, then count the labels. */
  method AnalyzeSentiment(responses: seq<Option<string>>) returns (counts: SentimentCounts)
    ensures counts == Tally(Sentiments(responses, |responses|))
  {
    var sentiments: seq<Sentiment> := [];
    for i := 0 to |responses|
      invariant sentiments == Sentiments(responses, i)
    {
      var response := responses[i];
      if !Answered(response) {
        continue;
      }
      var posCount := Hits(response.value, PositiveWords);
      var negCount := Hits(response.value, NegativeWords);
      if posCount > negCount {
        sentiments := sentiments + [Positive];
      } else if negCount > posCount {
        sentiments := sentiments + [Negative];
      } else {
        sentiments := sentiments + [Neutral];
      }
    }
    counts := Tally(sentiments);
  }
}
