/**
 * The advanced persona simulator (scripts/advanced_simulation_system.py):
 * a persona context built from number-indexed trait lists, prompts by
 * question type, a simulated model call that draws a random Likert score,
 * a heuristic confidence in tenths, and the survey and interview runs that
 * append one result per cell to the simulator's `results`, turning a cell
 * that raises into a fixed error result.
 */
module AdvancedSimulation {
  import opened Wrappers
  import opened Text
  import opened PyValues
  import AIAgent
  import EnhancedAgent
  import Grid

  // ---------------------------------------------------------------- records

  /** `SurveyQuestion`; `options=None` is the empty list, since only its truthiness is read. */
  datatype SurveyQuestion = SurveyQuestion(questionId: string, questionText: string, questionType: string,
                                           options: seq<string>, scaleMin: int, scaleMax: int, required: bool)

  /** `InterviewGuide`. */
  datatype InterviewGuide = InterviewGuide(guideId: string, title: string, questions: seq<string>,
                                           context: string, style: string)

  /** `SimulationResult` without its timestamp; the confidence is in tenths (0.7 is 7). */
  datatype SimulationResult = SimulationResult(personaId: Value, questionId: string, response: string,
                                               score: Option<int>, reasoning: string, confidence: int)

  /**
   * The exceptions a cell can raise: `int()` of an id that is not an
   * integer, and `random.randint` on an empty range. Their text `str(e)` is
   * Python's own and is a parameter `describe` of the runs.
   */
  datatype Failure = NotAnInteger(id: Value) | EmptyRange(lo: int, hi: int)

  /** `persona.get('id', 'unknown')`, the id written into every result. */
  function PersonaIdOf(persona: Dict<Value>): Value {
    GetOr(persona, "id", VStr("unknown"))
  }

  // ---------------------------------------------------------------- int()

  /**
   * Python's `int(s)` on a string: surrounding whitespace is ignored, one
   * optional sign, then decimal digits.
   */
  function ParseInt(s: string): (r: Option<int>)
    ensures r.Some? <==> (IsDigits(Strip(s)) || (|Strip(s)| > 0 && Strip(s)[0] in "+-" && IsDigits(Strip(s)[1..])))
    ensures IsDigits(s) ==> r == Some(DigitsValue(s))
  {
    if IsDigits(s) then StripOfNoSpace(s); Some(DigitsValue(s))
    else
      var t := Strip(s);
      if IsDigits(t) then Some(DigitsValue(t))
      else if |t| > 0 && t[0] in "+-" && IsDigits(t[1..]) then
        var magnitude: int := DigitsValue(t[1..]);
        Some(if t[0] == '-' then -magnitude else magnitude)
      else None
  }

  /** `int(persona.get('id', 0))`: a missing id is 0; `None`, NaN and a non-numeric string raise. */
  function IdNumber(persona: Dict<Value>): (r: Result<int, Failure>)
    ensures Get(persona, "id").None? ==> r == Ok(0)
    ensures r.Err? ==> r.error == NotAnInteger(Get(persona, "id").value)
    ensures r.Err? <==> match Get(persona, "id")
                        case None => false
                        case Some(v) => v.VNone? || v.VNaN? || (v.VStr? && ParseInt(v.s).None?)
  {
    match Get(persona, "id")
    case None => Ok(0)
    case Some(v) =>
      match v
      case VInt(i) => Ok(i)
      case VStr(s) => (match ParseInt(s) case Some(n) => Ok(n) case None => Err(NotAnInteger(v)))
      case _ => Err(NotAnInteger(v))
  }

  // ---------------------------------------------------------------- traits

  const TechPrefs: seq<string> := ["애플 매니아", "삼성 팬", "중립적", "가성비 중시", "최신 기술 추구"]
  const Brands: seq<string> := ["브랜드 충성도 높음", "브랜드 충성도 보통", "브랜드 충성도 낮음", "브랜드 무관심"]
  const Careers: seq<string> := ["신입", "경력 3-5년", "경력 10년+", "전문가", "리더"]
  const Industries: seq<string> := ["IT", "금융", "제조", "서비스", "교육", "의료", "예술", "스포츠"]
  const Lifestyles: seq<string> := ["싱글", "커플", "가족", "대가족", "독신"]

  /**
   * `_get_demographics`. The age, gender, region, education and income
   * lists, and the eight personality traits below, are the same lists the
   * enhanced agent uses.
   */
  function Demographics(n: int): string {
    Join([AIAgent.Pick(AIAgent.AgeGroups, n), AIAgent.Pick(EnhancedAgent.Genders, n),
          AIAgent.Pick(EnhancedAgent.Regions, n), AIAgent.Pick(EnhancedAgent.Educations, n),
          AIAgent.Pick(EnhancedAgent.Incomes, n)], ", ")
  }

  function PrimaryTrait(n: int): string {
    AIAgent.Pick(EnhancedAgent.PrimaryTraits, n)
  }

  /** `_get_personality_traits`: the trait at `id` and the one after it. */
  function Personality(n: int): string {
    PrimaryTrait(n) + ", " + PrimaryTrait(n + 1)
  }

  /** `_get_preferences`. */
  function Preferences(n: int): string {
    Concat(["기술: ", AIAgent.Pick(TechPrefs, n), ", 소비: ", AIAgent.Pick(AIAgent.SpendingStyles, n),
            ", 브랜드: ", AIAgent.Pick(Brands, n)])
  }

  /** `_get_experiences`. */
  function Experiences(n: int): string {
    Concat(["경력: ", AIAgent.Pick(Careers, n), ", 업계: ", AIAgent.Pick(Industries, n),
            ", 라이프스타일: ", AIAgent.Pick(Lifestyles, n)])
  }

  /** The four labelled trait lines of the context. */
  function TraitLines(n: int): seq<string> {
    ["인구통계: " + Demographics(n), "성격 특성: " + Personality(n), "선호도: " + Preferences(n),
     "경험 배경: " + Experiences(n)]
  }

  /** The secondary trait is never the primary one: `(id + 1) % 8` and `id % 8` always differ. */
  lemma SecondaryTraitDiffers(n: int)
    ensures PrimaryTrait(n + 1) != PrimaryTrait(n)
  {
    var traits := EnhancedAgent.PrimaryTraits;
    var a := n % 8;
    var b := (n + 1) % 8;
    assert b == (a + 1) % 8;
    assert traits[0][0] == '외' && traits[1][0] == '내' && traits[2][0] == '창' && traits[3][0] == '체';
    assert traits[4][0] == '낙' && traits[5][0] == '분' && traits[6][0] == '감' && traits[7][0] == '경';
    assert traits[a][0] != traits[b][0];
  }

  /**
   * Every trait line depends only on the id modulo 360, the least common
   * multiple of the list lengths 8, 3, 9, 4, 5, 6 and 5.
   */
  lemma TraitLinesPeriodic(n: int)
    ensures TraitLines(n + 360) == TraitLines(n)
  {
    assert (n + 360) % 8 == n % 8 && (n + 361) % 8 == (n + 1) % 8;
    assert (n + 360) % 3 == n % 3 && (n + 360) % 9 == n % 9 && (n + 360) % 4 == n % 4;
    assert (n + 360) % 5 == n % 5 && (n + 360) % 6 == n % 6;
  }

  // ---------------------------------------------------------------- context

  /**
   * The background line, present only for a truthy `persona_summary`: the
   * first 300 characters of its text followed by `...`, whatever the length.
   */
  function SummaryLine(persona: Dict<Value>): (r: seq<string>)
    ensures |r| <= 1
    ensures r == [] <==> !(Get(persona, "persona_summary").Some? && Truthy(Get(persona, "persona_summary").value))
  {
    match Get(persona, "persona_summary")
    case Some(v) => if Truthy(v) then ["개인 배경: " + Take(ToStr(v), 300) + "..."] else []
    case None => []
  }

  /**
   * The summary line always ends in `...`, and what comes before it is the
   * start of the summary's text, at most 300 characters of it.
   */
  lemma SummaryEndsInEllipsis(persona: Dict<Value>)
    requires SummaryLine(persona) != []
    ensures var line := SummaryLine(persona)[0];
            var text := ToStr(Get(persona, "persona_summary").value);
            |line| >= 10 && line[|line| - 3..] == "..."
            && line[..7] == "개인 배경: "
            && line[7..|line| - 3] <= text && |line| - 10 <= 300
            && (|text| <= 300 ==> line[7..|line| - 3] == text)
  {
    var text := ToStr(Get(persona, "persona_summary").value);
    var line := SummaryLine(persona)[0];
    assert line == "개인 배경: " + Take(text, 300) + "...";
    assert line[7..|line| - 3] == Take(text, 300);
  }

  function ContextLines(n: int, persona: Dict<Value>): seq<string> {
    TraitLines(n) + SummaryLine(persona)
  }

  /** `_build_enhanced_persona_context`, which raises when the id is not an integer. */
  function PersonaContext(persona: Dict<Value>): (r: Result<string, Failure>)
    ensures r.Err? <==> IdNumber(persona).Err?
  {
    match IdNumber(persona)
    case Err(f) => Err(f)
    case Ok(n) => Ok(Join(ContextLines(n, persona), "\n"))
  }

  /** The context holds every trait line of the id's number, and the summary line when there is one. */
  lemma PersonaContextContents(persona: Dict<Value>)
    requires IdNumber(persona).Ok?
    ensures var n := IdNumber(persona).value;
            var context := PersonaContext(persona).value;
            (forall i :: 0 <= i < 4 ==> Contains(context, TraitLines(n)[i]))
            && (SummaryLine(persona) != [] ==> Contains(context, SummaryLine(persona)[0]))
  {
    var n := IdNumber(persona).value;
    var lines := ContextLines(n, persona);
    forall i | 0 <= i < 4
      ensures Contains(Join(lines, "\n"), TraitLines(n)[i])
    {
      assert lines[i] == TraitLines(n)[i];
      JoinContains(lines, "\n", i);
    }
    if SummaryLine(persona) != [] {
      assert lines[4] == SummaryLine(persona)[0];
      JoinContains(lines, "\n", 4);
    }
  }

  // ---------------------------------------------------------------- prompts

  const BaseOpening := "\n        당신은 "
  const BaseContextLabel := " 특성을 가진 사람입니다.\n        \n        컨텍스트: "
  const BaseQuestionLabel := "\n        \n        질문: "
  const BaseClosing := "\n        "
  const LikertOpening := "\n            \n            "
  const LikertMiddle := "점(전혀 동의하지 않음)부터 "
  const LikertTail := "점(완전히 동의함)까지의 척도로 답변해주세요.\n            점수와 함께 그 이유를 설명해주세요.\n            "
  const ChoiceHeading := "\n                \n                다음 선택지 중에서 선택해주세요:\n                "
  const ChoiceClosing := "\n                "
  const OpenEndedInstruction := "\n            \n            자유롭게 답변해주세요. 개인적인 경험과 의견을 포함해주세요.\n            "

  function BasePrompt(personaContext: string, context: string, questionText: string): string {
    Concat([BaseOpening, personaContext, BaseContextLabel, context, BaseQuestionLabel, questionText, BaseClosing])
  }

  /** The instruction added for the question's type; none for another type or empty options. */
  function TypeInstruction(q: SurveyQuestion): string {
    if q.questionType == "likert" then
      Concat([LikertOpening, IntToString(q.scaleMin), LikertMiddle, IntToString(q.scaleMax), LikertTail])
    else if q.questionType == "multiple_choice" then
      if q.options != [] then ChoiceHeading + Join(EnhancedAgent.Bullets(q.options), "\n") + ChoiceClosing else ""
    else if q.questionType == "open_ended" then OpenEndedInstruction
    else ""
  }

  /** `_create_question_prompt`. */
  function QuestionPrompt(q: SurveyQuestion, personaContext: string, context: string): string {
    BasePrompt(personaContext, context, q.questionText) + TypeInstruction(q)
  }

  /**
   * The prompt starts with the shared part, which holds the persona context,
   * the context and the question; a Likert prompt names both ends of the
   * question's scale, a multiple-choice prompt every option, and a prompt of
   * another type, or of multiple choice without options, is the shared part alone.
   */
  lemma {:induction false} QuestionPromptContents(q: SurveyQuestion, pc: string, ctx: string)
    ensures var prompt := QuestionPrompt(q, pc, ctx);
            IsPrefix(BasePrompt(pc, ctx, q.questionText), prompt)
            && Contains(prompt, pc) && Contains(prompt, ctx) && Contains(prompt, q.questionText)
            && (q.questionType == "likert" ==>
                  Contains(prompt, IntToString(q.scaleMin)) && Contains(prompt, IntToString(q.scaleMax)))
            && (q.questionType == "multiple_choice" ==>
                  forall i :: 0 <= i < |q.options| ==> Contains(prompt, "- " + q.options[i]))
            && (q.questionType !in {"likert", "multiple_choice", "open_ended"}
                || (q.questionType == "multiple_choice" && q.options == [])
                ==> prompt == BasePrompt(pc, ctx, q.questionText))
  {
    var parts := [BaseOpening, pc, BaseContextLabel, ctx, BaseQuestionLabel, q.questionText, BaseClosing];
    var base := BasePrompt(pc, ctx, q.questionText);
    var extra := TypeInstruction(q);
    ConcatContains(parts, 1);
    ConcatContains(parts, 3);
    ConcatContains(parts, 5);
    ContainsExtend(base, pc, extra);
    ContainsExtend(base, ctx, extra);
    ContainsExtend(base, q.questionText, extra);
    if q.questionType == "likert" {
      var lparts := [LikertOpening, IntToString(q.scaleMin), LikertMiddle, IntToString(q.scaleMax), LikertTail];
      ConcatContains(lparts, 1);
      ConcatContains(lparts, 3);
      ContainsAfter(base, extra, IntToString(q.scaleMin));
      ContainsAfter(base, extra, IntToString(q.scaleMax));
    } else if q.questionType == "multiple_choice" && q.options != [] {
      var lines := Join(EnhancedAgent.Bullets(q.options), "\n");
      forall i | 0 <= i < |q.options|
        ensures Contains(base + extra, "- " + q.options[i])
      {
        JoinContains(EnhancedAgent.Bullets(q.options), "\n", i);
        ContainsAfter(ChoiceHeading, lines, "- " + q.options[i]);
        ContainsExtend(ChoiceHeading + lines, "- " + q.options[i], ChoiceClosing);
        ContainsAfter(base, extra, "- " + q.options[i]);
      }
    }
  }

  const InterviewOpening := "\n        당신은 "
  const InterviewContextLabel := " 특성을 가진 사람입니다.\n        \n        인터뷰 컨텍스트: "
  const InterviewStyleLabel := "\n        인터뷰 스타일: "
  const InterviewBody := "\n        \n        다음 질문들에 대해 자연스럽고 진정성 있는 답변을 해주세요:\n        \n        "
  const InterviewClosing := "\n        \n        각 질문에 대해 개인적인 경험과 의견을 바탕으로 답변해주세요.\n        "

  /** The prompt of `_generate_interview_response`, with the guide's questions numbered from 1. */
  function InterviewPrompt(personaContext: string, guide: InterviewGuide): string {
    Concat([InterviewOpening, personaContext, InterviewContextLabel, guide.context, InterviewStyleLabel, guide.style,
            InterviewBody, Join(EnhancedAgent.NumberedQuestions(guide.questions), "\n"), InterviewClosing])
  }

  /** The interview prompt holds the persona context, the style and every question, numbered from 1. */
  lemma {:induction false} InterviewPromptContents(pc: string, guide: InterviewGuide)
    ensures var prompt := InterviewPrompt(pc, guide);
            Contains(prompt, pc) && Contains(prompt, guide.context) && Contains(prompt, guide.style)
            && forall i :: 0 <= i < |guide.questions| ==>
                 Contains(prompt, IntToString(i + 1) + ". " + guide.questions[i])
  {
    var lines := Join(EnhancedAgent.NumberedQuestions(guide.questions), "\n");
    var parts := [InterviewOpening, pc, InterviewContextLabel, guide.context, InterviewStyleLabel, guide.style,
                  InterviewBody, lines, InterviewClosing];
    ConcatContains(parts, 1);
    ConcatContains(parts, 3);
    ConcatContains(parts, 5);
    forall i | 0 <= i < |guide.questions|
      ensures Contains(Concat(parts), IntToString(i + 1) + ". " + guide.questions[i])
    {
      JoinContains(EnhancedAgent.NumberedQuestions(guide.questions), "\n", i);
      ConcatContains(parts, 7);
      ContainsTransitive(Concat(parts), lines, IntToString(i + 1) + ". " + guide.questions[i]);
    }
  }

  // ---------------------------------------------------------------- the simulated call

  /** What `_call_ai_api` returns: a response, an optional score and a reasoning. */
  datatype Answer = Answer(response: string, score: Option<int>, reasoning: string)

  const GenericResponse := "개인적인 경험과 의견을 바탕으로 한 답변입니다."
  const GenericReasoning := "페르소나의 배경과 특성을 반영한 답변입니다."

  /**
   * `_call_ai_api` for a survey question. The prompt is not read. For a
   * Likert question `random.randint(lo, hi)` is `lo + draw % (hi - lo + 1)`
   * for the random `draw`, and raises on an empty range.
   */
  function SimulatedAnswer(q: SurveyQuestion, draw: nat): (r: Result<Answer, Failure>)
    ensures r.Err? <==> q.questionType == "likert" && q.scaleMin > q.scaleMax
    ensures r.Err? ==> r.error == EmptyRange(q.scaleMin, q.scaleMax)
    ensures r.Ok? && q.questionType == "likert" ==>
              r.value.score.Some? && q.scaleMin <= r.value.score.value <= q.scaleMax
    ensures r.Ok? && q.questionType != "likert" ==> r.value == Answer(GenericResponse, None, GenericReasoning)
  {
    if q.questionType == "likert" then
      if q.scaleMin > q.scaleMax then Err(EmptyRange(q.scaleMin, q.scaleMax))
      else
        var score := q.scaleMin + draw % (q.scaleMax - q.scaleMin + 1);
        var digits := IntToString(score);
        Ok(Answer("점수: " + digits + " - 개인적인 경험과 선호도를 바탕으로 한 답변입니다.", Some(score),
                  "페르소나의 특성과 질문의 내용을 고려하여 " + digits + "점을 선택했습니다."))
    else Ok(Answer(GenericResponse, None, GenericReasoning))
  }

  /** Every draw in `0 .. hi - lo` gives the score `lo + draw`, so each point of the scale can come out. */
  lemma EveryScoreReachable(q: SurveyQuestion, draw: nat)
    requires q.questionType == "likert" && draw <= q.scaleMax - q.scaleMin
    ensures SimulatedAnswer(q, draw).Ok? && SimulatedAnswer(q, draw).value.score == Some(q.scaleMin + draw)
  {
    assert draw % (q.scaleMax - q.scaleMin + 1) == draw;
  }

  // ---------------------------------------------------------------- confidence

  /** `_calculate_confidence` in tenths: 5, plus one for each of three conditions, at most 10. */
  function Confidence(response: string, reasoning: string): (c: int) {
    var c := 5 + (if |response| > 50 then 1 else 0)
             + (if Contains(response, "개인적인") || Contains(response, "경험") then 1 else 0)
             + (if |reasoning| > 20 then 1 else 0);
    if c < 10 then c else 10
  }

  /**
   * The confidence lies in 0.5 .. 0.8, so the cap at 1.0 never applies; it
   * is 0.8 exactly when all three conditions hold and 0.5 when none does.
   */
  lemma ConfidenceBounds(response: string, reasoning: string)
    ensures 5 <= Confidence(response, reasoning) <= 8
    ensures var mentions := Contains(response, "개인적인") || Contains(response, "경험");
            (Confidence(response, reasoning) == 8 <==> |response| > 50 && mentions && |reasoning| > 20)
            && (Confidence(response, reasoning) == 5 <==> |response| <= 50 && !mentions && |reasoning| <= 20)
  {
  }

  /**
   * Every simulated answer scores 0.7: its response mentions `개인적인`, its
   * reasoning is longer than 20 characters, and its response is at most 50
   * characters unless the score takes more than 16 characters to write.
   */
  lemma SimulatedConfidence(q: SurveyQuestion, draw: nat)
    requires SimulatedAnswer(q, draw).Ok?
    ensures var a := SimulatedAnswer(q, draw).value;
            var c := Confidence(a.response, a.reasoning);
            (c == 7 || c == 8)
            && (a.score.None? || |IntToString(a.score.value)| <= 16 ==> c == 7)
  {
    var a := SimulatedAnswer(q, draw).value;
    if q.questionType == "likert" {
      var digits := IntToString(a.score.value);
      var tail := " - 개인적인 경험과 선호도를 바탕으로 한 답변입니다.";
      assert a.response == "점수: " + digits + tail;
      assert tail[3] == '개' && tail[4] == '인' && tail[5] == '적' && tail[6] == '인';
      assert tail[3..7] == "개인적인";
      ContainsAt(tail, "개인적인", 3);
      ContainsAfter("점수: " + digits, tail, "개인적인");
      assert |a.reasoning| > 20;
    } else {
      assert GenericResponse[..4] == "개인적인";
      ContainsAt(GenericResponse, "개인적인", 0);
    }
  }

  // ---------------------------------------------------------------- one cell

  /**
   * `_generate_single_response`: it builds the persona context (which
   * raises for a non-integer id) and the prompt, then makes the simulated
   * call (which raises for an empty Likert range).
   */
  function SingleResponse(persona: Dict<Value>, q: SurveyQuestion, context: string, draw: nat)
    : (r: Result<SimulationResult, Failure>)
    ensures r.Err? <==> PersonaContext(persona).Err? || SimulatedAnswer(q, draw).Err?
  {
    match PersonaContext(persona)
    case Err(f) => Err(f)
    case Ok(_) =>
      match SimulatedAnswer(q, draw)
      case Err(f) => Err(f)
      case Ok(a) =>
        Ok(SimulationResult(PersonaIdOf(persona), q.questionId, a.response, a.score, a.reasoning,
                            Confidence(a.response, a.reasoning)))
  }

  /** The result written for a cell that raised: a neutral 3 whatever the scale, and confidence 0. */
  function ErrorResult(persona: Dict<Value>, q: SurveyQuestion, message: string): SimulationResult {
    SimulationResult(PersonaIdOf(persona), q.questionId, "응답 생성 오류: " + message, Some(3),
                     "시스템 오류로 인한 기본 응답", 0)
  }

  /** The result of one cell of a survey run, after the `except` of the run's loop. */
  function SurveyCell(persona: Dict<Value>, q: SurveyQuestion, context: string, draw: nat,
                      describe: Failure -> string): SimulationResult {
    match SingleResponse(persona, q, context, draw)
    case Ok(r) => r
    case Err(f) => ErrorResult(persona, q, describe(f))
  }

  /**
   * A cell fails exactly when the id is not an integer or the Likert range
   * is empty. A failed cell scores 3 with confidence 0 and says why; a
   * successful one scores within the scale for Likert and not at all
   * otherwise, with confidence 0.7 or 0.8. Both carry the persona's id and
   * the question's id.
   */
  lemma SurveyCellOutcome(persona: Dict<Value>, q: SurveyQuestion, context: string, draw: nat,
                          describe: Failure -> string)
    ensures var r := SurveyCell(persona, q, context, draw, describe);
            var failed := IdNumber(persona).Err? || (q.questionType == "likert" && q.scaleMin > q.scaleMax);
            r.personaId == PersonaIdOf(persona) && r.questionId == q.questionId
            && (failed ==> r.score == Some(3) && r.confidence == 0
                           && r.reasoning == "시스템 오류로 인한 기본 응답"
                           && r.response == "응답 생성 오류: " + describe(
                                if IdNumber(persona).Err? then IdNumber(persona).error
                                else EmptyRange(q.scaleMin, q.scaleMax)))
            && (!failed ==> (r.confidence == 7 || r.confidence == 8)
                            && (q.questionType == "likert" <==> r.score.Some?)
                            && (r.score.Some? ==> q.scaleMin <= r.score.value <= q.scaleMax))
  {
    if !(IdNumber(persona).Err? || (q.questionType == "likert" && q.scaleMin > q.scaleMax)) {
      SimulatedConfidence(q, draw);
    }
  }

  // ---------------------------------------------------------------- survey run

  /** The cell function of a survey run; persona `i`'s question `j` uses the random draw `draws(i, j)`. */
  function SurveyCellAt(context: string, draws: (nat, nat) -> nat, describe: Failure -> string)
    : (nat, Dict<Value>, nat, SurveyQuestion) -> SimulationResult
  {
    (i: nat, p: Dict<Value>, j: nat, q: SurveyQuestion) => SurveyCell(p, q, context, draws(i, j), describe)
  }

  /** The results of a whole survey run, persona-major. */
  function SurveyRun(personas: seq<Dict<Value>>, questions: seq<SurveyQuestion>, context: string,
                     draws: (nat, nat) -> nat, describe: Failure -> string): seq<SimulationResult>
  {
    Grid.Rows(personas, questions, SurveyCellAt(context, draws, describe), |personas|)
  }

  /**
   * A run yields `|personas| * |questions|` results, persona-major: the
   * result at `i * |questions| + j` is the cell of persona `i` and question
   * `j`, whether or not any other cell failed.
   */
  lemma SurveyRunLayout(personas: seq<Dict<Value>>, questions: seq<SurveyQuestion>, context: string,
                        draws: (nat, nat) -> nat, describe: Failure -> string)
    ensures var run := SurveyRun(personas, questions, context, draws, describe);
            |run| == |personas| * |questions|
            && forall i: nat, j: nat | i < |personas| && j < |questions| ::
                 Grid.Position(i, j, |questions|) < |run|
                 && run[Grid.Position(i, j, |questions|)]
                    == SurveyCell(personas[i], questions[j], context, draws(i, j), describe)
  {
    Grid.RowsLayout(personas, questions, SurveyCellAt(context, draws, describe), |personas|);
  }

  // ---------------------------------------------------------------- interview run

  const InterviewErrorReasoning := "시스템 오류로 인한 기본 응답"

  /**
   * `_generate_interview_response`: it builds the persona context (which
   * raises for a non-integer id) and the prompt; the simulated call for no
   * question returns the generic answer and cannot raise.
   */
  function InterviewResponse(persona: Dict<Value>, guide: InterviewGuide): (r: Result<string, Failure>)
    ensures r.Err? <==> IdNumber(persona).Err?
    ensures r.Ok? ==> r.value == GenericResponse
  {
    match PersonaContext(persona)
    case Err(f) => Err(f)
    case Ok(_) => Ok(GenericResponse)
  }

  /** The result of one persona in an interview run, after the `except`. */
  function InterviewCell(persona: Dict<Value>, guide: InterviewGuide, describe: Failure -> string)
    : SimulationResult
  {
    match InterviewResponse(persona, guide)
    case Ok(response) => SimulationResult(PersonaIdOf(persona), guide.guideId, response, None,
                                          "인터뷰 스타일: " + guide.style, 0)
    case Err(f) => SimulationResult(PersonaIdOf(persona), guide.guideId, "인터뷰 응답 생성 오류: " + describe(f), None,
                                    InterviewErrorReasoning, 0)
  }

  /** The cell function of an interview run. */
  function InterviewCellAt(guide: InterviewGuide, describe: Failure -> string): (nat, Dict<Value>) -> SimulationResult {
    (i: nat, p: Dict<Value>) => InterviewCell(p, guide, describe)
  }

  /** The results of a whole interview run, one per persona. */
  function InterviewRun(personas: seq<Dict<Value>>, guide: InterviewGuide, describe: Failure -> string)
    : seq<SimulationResult>
  {
    Grid.Column(personas, InterviewCellAt(guide, describe), |personas|)
  }

  /**
   * An interview run yields one result per persona, in order, each filed
   * under the guide's id with no score and the default confidence 0.0; it
   * records the style when the id is an integer and the error otherwise.
   */
  lemma InterviewRunOutcome(personas: seq<Dict<Value>>, guide: InterviewGuide, describe: Failure -> string)
    ensures var rows := InterviewRun(personas, guide, describe);
            |rows| == |personas|
            && forall i :: 0 <= i < |personas| ==>
                 rows[i].personaId == PersonaIdOf(personas[i]) && rows[i].questionId == guide.guideId
                 && rows[i].score.None? && rows[i].confidence == 0
                 && (IdNumber(personas[i]).Ok? <==> rows[i].reasoning == "인터뷰 스타일: " + guide.style)
                 && (IdNumber(personas[i]).Err? ==>
                       rows[i].response == "인터뷰 응답 생성 오류: " + describe(IdNumber(personas[i]).error))
  {
    forall i | 0 <= i < |personas|
      ensures IdNumber(personas[i]).Err? ==> InterviewCell(personas[i], guide, describe).reasoning
                                             != "인터뷰 스타일: " + guide.style
    {
      if IdNumber(personas[i]).Err? {
        assert InterviewErrorReasoning[0] != ("인터뷰 스타일: " + guide.style)[0];
      }
    }
  }

  // ---------------------------------------------------------------- the simulator

  /**
   * `AdvancedPersonaSimulator` with its accumulated `results`; the
   * configuration and the output directory are not modelled.
   */
  class AdvancedPersonaSimulator {
    var results: seq<SimulationResult>

    constructor()
      ensures results == []
    {
      results := [];
    }

    /**
     * `generate_survey_responses`: every persona answers every question;
     * a cell that raises is replaced by its error result and the run goes
     * on. The batch is returned and appended to `results`.
     */
    method GenerateSurveyResponses(personas: seq<Dict<Value>>, questions: seq<SurveyQuestion>, context: string,
                                   draws: (nat, nat) -> nat, describe: Failure -> string)
      returns (batch: seq<SimulationResult>)
      modifies this
      ensures batch == SurveyRun(personas, questions, context, draws, describe)
      ensures results == old(results) + batch
    {
      ghost var cell := SurveyCellAt(context, draws, describe);
      batch := [];
      for i := 0 to |personas|
        invariant batch == Grid.Rows(personas, questions, cell, i)
        invariant results == old(results)
      {
        for j := 0 to |questions|
          invariant batch == Grid.Rows(personas, questions, cell, i) + Grid.Row(i, personas[i], questions, cell, j)
          invariant results == old(results)
        {
          var r := SurveyCellResult(personas[i], questions[j], context, draws(i, j), describe);
          Grid.RowStep(i, personas[i], questions, cell, j);
          batch := batch + [r];
        }
      }
      results := results + batch;
    }

    /**
     * `generate_interview_responses`: one result per persona, a persona
     * whose context raises getting its error result; the batch is returned
     * and appended to `results`.
     */
    method GenerateInterviewResponses(personas: seq<Dict<Value>>, guide: InterviewGuide, describe: Failure -> string)
      returns (batch: seq<SimulationResult>)
      modifies this
      ensures batch == InterviewRun(personas, guide, describe)
      ensures results == old(results) + batch
    {
      ghost var cell := InterviewCellAt(guide, describe);
      batch := [];
      for i := 0 to |personas|
        invariant batch == Grid.Column(personas, cell, i)
        invariant results == old(results)
      {
        var r := InterviewCellResult(personas[i], guide, describe);
        Grid.ColumnStep(personas, cell, i);
        batch := batch + [r];
      }
      results := results + batch;
    }

    /** One survey cell: `_generate_single_response`, or the error result when it raises. */
    static method SurveyCellResult(persona: Dict<Value>, q: SurveyQuestion, context: string, draw: nat,
                                   describe: Failure -> string)
      returns (r: SimulationResult)
      ensures r == SurveyCell(persona, q, context, draw, describe)
    {
      var outcome := SingleResponse(persona, q, context, draw);
      match outcome {
        case Ok(result) =>
          r := result;
        case Err(f) =>
          r := ErrorResult(persona, q, describe(f));
      }
    }

    /** One interview cell: the interview response, or the error result when it raises. */
    static method InterviewCellResult(persona: Dict<Value>, guide: InterviewGuide, describe: Failure -> string)
      returns (r: SimulationResult)
      ensures r == InterviewCell(persona, guide, describe)
    {
      var outcome := InterviewResponse(persona, guide);
      match outcome {
        case Ok(response) =>
          r := SimulationResult(PersonaIdOf(persona), guide.guideId, response, None, "인터뷰 스타일: " + guide.style, 0);
        case Err(f) =>
          r := SimulationResult(PersonaIdOf(persona), guide.guideId, "인터뷰 응답 생성 오류: " + describe(f), None,
                                InterviewErrorReasoning, 0);
      }
    }
  }
}
