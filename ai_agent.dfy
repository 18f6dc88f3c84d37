/**
 * The basic persona agent (src/ai_agent.py): a persona context derived from
 * the persona id, survey and interview prompts, parsing of the tagged reply
 * `점수: N` / `이유: ...`, and the per-question loops over one persona.
 */
module AIAgent {
  import opened Wrappers
  import opened Text
  import opened PyValues
  import opened Patterns
  import opened Backend
  import opened DatasetLoader

  // ---------------------------------------------------------------- persona context

  /**
   * The number traits are derived from: `int(id)` for an all-digit id, else
   * `hash(id) % 1000`, with Python's per-process string hash as `hashOf`.
   */
  function PersonaNumber(id: string, hashOf: string -> int): (n: int)
    ensures n >= 0
    ensures IsDigits(id) ==> n == DigitsValue(id)
    ensures !IsDigits(id) ==> n < 1000
  {
    if IsDigits(id) then DigitsValue(id) else hashOf(id) % 1000
  }

  const AgeGroups: seq<string> := ["20대 초반", "20대 후반", "30대 초반", "30대 후반", "40대 초반", "40대 후반", "50대", "60대"]
  const Occupations: seq<string> := ["사무직", "IT개발자", "마케터", "교사", "의사", "예술가", "판매원", "자영업자", "연구원", "디자이너"]
  const Personalities: seq<string> := ["외향적이고 사교적", "내향적이고 신중", "창의적이고 개방적", "체계적이고 완벽주의", "낙천적이고 유연", "분석적이고 논리적", "감성적이고 직관적"]
  const Interests: seq<string> := ["기술과 IT", "예술과 문화", "스포츠와 건강", "여행과 모험", "독서와 학습", "음악과 영화", "게임과 엔터테인먼트", "요리와 생활"]

  /** `list[persona_id % len(list)]`. */
  function Pick(items: seq<string>, n: int): string
    requires |items| > 0
  {
    items[n % |items|]
  }

  /** The chained conditional on `persona_id % 5`. */
  function TechPreference(n: int): string {
    if n % 5 == 0 then "애플 매니아" else if n % 5 == 1 then "삼성 팬" else if n % 5 == 2 then "중립적"
    else if n % 5 == 3 then "가성비 중시" else "최신 기술 추구"
  }

  /** The chained conditional on `persona_id % 6`. */
  function SpendingStyle(n: int): string {
    if n % 6 == 0 then "극도 절약형" else if n % 6 == 1 then "절약형" else if n % 6 == 2 then "적당형"
    else if n % 6 == 3 then "소비형" else if n % 6 == 4 then "프리미엄형" else "럭셔리형"
  }

  /** The chained conditional on `persona_id % 3`. */
  function TechSavviness(n: int): string {
    if n % 3 == 0 then "기술 초보" else if n % 3 == 1 then "보통 수준" else "기술 고수"
  }

  /** The chained conditional on `persona_id % 4`. */
  function BrandLoyalty(n: int): string {
    if n % 4 == 0 then "브랜드 충성도 높음" else if n % 4 == 1 then "브랜드 충성도 보통"
    else if n % 4 == 2 then "브랜드 충성도 낮음" else "브랜드 무관심"
  }

  const TechPreferences: seq<string> := ["애플 매니아", "삼성 팬", "중립적", "가성비 중시", "최신 기술 추구"]
  const SpendingStyles: seq<string> := ["극도 절약형", "절약형", "적당형", "소비형", "프리미엄형", "럭셔리형"]
  const SavvinessLevels: seq<string> := ["기술 초보", "보통 수준", "기술 고수"]
  const LoyaltyLevels: seq<string> := ["브랜드 충성도 높음", "브랜드 충성도 보통", "브랜드 충성도 낮음", "브랜드 무관심"]

  /** Each chained conditional picks the list element at `persona_id mod len`, like the other traits. */
  lemma {:induction false} ChainsAreListLookups(n: int)
    ensures TechPreference(n) == Pick(TechPreferences, n)
    ensures SpendingStyle(n) == Pick(SpendingStyles, n)
    ensures TechSavviness(n) == Pick(SavvinessLevels, n)
    ensures BrandLoyalty(n) == Pick(LoyaltyLevels, n)
  {
    var a, b, c, d := n % 5, n % 6, n % 3, n % 4;
    assert 0 <= a < 5 && 0 <= b < 6 && 0 <= c < 3 && 0 <= d < 4;
    if a == 0 { } else if a == 1 { } else if a == 2 { } else if a == 3 { } else { assert a == 4; }
    if b == 0 { } else if b == 1 { } else if b == 2 { } else if b == 3 { } else if b == 4 { } else { assert b == 5; }
    if c == 0 { } else if c == 1 { } else { assert c == 2; }
    if d == 0 { } else if d == 1 { } else if d == 2 { } else { assert d == 3; }
  }

  const ContextHeader := "당신은 다음과 같은 특성을 가진 사람입니다:\n"

  /**
   * The optional background entry both agents add to a persona's context:
   * `prefix` and a truthy `persona_summary` shortened to 200 characters.
   */
  function SummaryEntry(prefix: string, data: Dict<Value>): (r: seq<string>)
    ensures |r| <= 1
    ensures r == [] <==> !(Get(data, "persona_summary").Some? && Truthy(Get(data, "persona_summary").value))
    ensures r != [] ==> r[0] == prefix + Truncate(ToStr(Get(data, "persona_summary").value), 200)
  {
    match Get(data, "persona_summary")
    case Some(v) => if Truthy(v) then [prefix + Truncate(ToStr(v), 200)] else []
    case None => []
  }

  /** The lines `_build_persona_context` joins, for persona number `n`. */
  function ContextLines(n: int, data: Dict<Value>): seq<string> {
    [ContextHeader,
     "- 나이: " + Pick(AgeGroups, n),
     "- 직업: " + Pick(Occupations, n),
     "- 성격: " + Pick(Personalities, n),
     "- 관심사: " + Pick(Interests, n),
     "- 기술 선호도: " + TechPreference(n),
     "- 소비 성향: " + SpendingStyle(n),
     "- 기술 숙련도: " + TechSavviness(n),
     "- 브랜드 충성도: " + BrandLoyalty(n)]
    + SummaryEntry("- 개인 배경: ", data)
  }

  /** `_build_persona_context`. */
  function BuildPersonaContext(p: Persona, hashOf: string -> int): string {
    Join(ContextLines(PersonaNumber(p.id, hashOf), p.data), "\n")
  }

  /**
   * For an all-digit id the context depends on the id and the summary only,
   * whatever the string hash is; every trait is the list element at `id mod len`.
   */
  lemma {:induction false} DigitIdContext(p: Persona, hashOf: string -> int, otherHash: string -> int)
    requires IsDigits(p.id)
    ensures BuildPersonaContext(p, hashOf) == BuildPersonaContext(p, otherHash)
    ensures var n := DigitsValue(p.id);
            ContextLines(n, p.data)[..9] ==
              [ContextHeader,
               "- 나이: " + AgeGroups[n % 8], "- 직업: " + Occupations[n % 10],
               "- 성격: " + Personalities[n % 7], "- 관심사: " + Interests[n % 8],
               "- 기술 선호도: " + TechPreferences[n % 5], "- 소비 성향: " + SpendingStyles[n % 6],
               "- 기술 숙련도: " + SavvinessLevels[n % 3], "- 브랜드 충성도: " + LoyaltyLevels[n % 4]]
  {
    ChainsAreListLookups(DigitsValue(p.id));
  }

  /**
   * The context has nine lines, plus a tenth when the summary is present and
   * truthy; a summary over 200 characters is cut to 200 and `...` appended.
   */
  lemma BackgroundLineCases(n: int, data: Dict<Value>)
    ensures var lines := ContextLines(n, data);
            var v := Get(data, "persona_summary");
            (|lines| == 9 <==> !(v.Some? && Truthy(v.value)))
            && (|lines| == 10 ==> lines[9] == "- 개인 배경: " + Truncate(ToStr(v.value), 200))
            && (|lines| == 10 && |ToStr(v.value)| > 200 ==> lines[9] == "- 개인 배경: " + ToStr(v.value)[..200] + "...")
  {
  }

  // ---------------------------------------------------------------- prompts

  const DefaultScale := "1(전혀 동의하지 않음) ~ 7(매우 동의함)"

  const SurveyIntro := "당신은 설문조사에 참여하는 응답자입니다.\n주어진 페르소나의 특성과 배경을 바탕으로 설문 질문에 진정성 있게 답변해야 합니다.\n\n"
  const SurveyFormat := "\n\n답변 형식:\n- 반드시 1부터 7까지의 숫자 중 하나로 응답하세요.\n- 척도: "
  const SurveyExample := "\n- 답변 이유를 간단히 설명하세요 (1-2문장).\n\n응답 형식 예시:\n점수: 5\n이유: [당신의 특성을 고려한 간단한 설명]\n"
  const InterviewIntro := "당신은 인터뷰에 참여하는 응답자입니다.\n주어진 페르소나의 특성과 배경을 바탕으로 질문에 진정성 있고 구체적으로 답변해야 합니다.\n\n"
  const InterviewRules := "\n\n답변 지침:\n- 당신의 경험, 생각, 감정을 구체적으로 표현하세요.\n- 자연스럽고 인간적인 어조로 답변하세요.\n- 너무 짧거나 형식적이지 않게, 3-5문장 정도로 답변하세요.\n"
  const ExtraContextHeading := "\n\n추가 컨텍스트:\n"
  const FollowUpIntro := "당신은 인터뷰에 참여하는 응답자입니다.\n주어진 페르소나의 특성과 배경을 바탕으로 질문에 진정성 있게 답변해야 합니다.\n\n"
  const FollowUpRules := "\n\n이전 대화 내용을 참고하여 일관성 있게 답변하세요.\n"
  const ExperimentIntro := "당신은 행동 실험에 참여하는 응답자입니다.\n주어진 페르소나의 특성과 배경을 바탕으로 실험 상황에 진정성 있게 반응해야 합니다.\n\n"
  const ScenarioHeading := "\n\n실험 시나리오:\n"
  const ConditionsHeading := "\n\n실험 조건: "
  const ExperimentRules := "\n\n답변 지침:\n- 주어진 시나리오에 대해 당신의 실제 반응을 표현하세요.\n- 당신의 성격, 경험, 가치관을 반영한 답변을 하세요.\n- 구체적이고 진정성 있는 답변을 제공하세요.\n"

  /** `respond_to_survey_question`'s request: the scale is spliced into the answer format. */
  function SurveyRequest(p: Persona, question: string, scale: string, hashOf: string -> int): Request {
    Ask(Concat([SurveyIntro, BuildPersonaContext(p, hashOf), SurveyFormat, scale, SurveyExample]), "질문: " + question)
  }

  /** The interview request; a truthy extra context is appended to the system prompt. */
  function InterviewRequest(p: Persona, question: string, context: Option<string>, hashOf: string -> int): Request {
    var extra := if context.Some? && context.value != "" then [ExtraContextHeading, context.value] else [];
    Ask(Concat([InterviewIntro, BuildPersonaContext(p, hashOf), InterviewRules] + extra), "질문: " + question)
  }

  /** `conduct_follow_up`: the earlier turns are replayed before the new question. */
  function FollowUpRequest(p: Persona, history: seq<(string, string)>, question: string, hashOf: string -> int): Request {
    Request(Concat([FollowUpIntro, BuildPersonaContext(p, hashOf), FollowUpRules]), history, question)
  }

  /** The condition line of an experiment prompt: the conditions joined by `, `, or `조건 없음`. */
  function ConditionsText(conditions: seq<string>): string {
    if conditions == [] then "조건 없음" else Join(conditions, ", ")
  }

  function ExperimentRequest(p: Persona, scenario: string, question: string, conditions: seq<string>, hashOf: string -> int): Request {
    Ask(Concat([ExperimentIntro, BuildPersonaContext(p, hashOf), ScenarioHeading, scenario, ConditionsHeading,
                ConditionsText(conditions), ExperimentRules]),
        "실험 질문: " + question)
  }

  /** Every request carries the whole persona context in its system prompt. */
  lemma SurveyPromptCarriesContext(p: Persona, q: string, scale: string, hashOf: string -> int)
    ensures var r := SurveyRequest(p, q, scale, hashOf);
            Contains(r.system, BuildPersonaContext(p, hashOf)) && Contains(r.system, scale)
            && r.history == [] && r.user == "질문: " + q
  {
    var parts := [SurveyIntro, BuildPersonaContext(p, hashOf), SurveyFormat, scale, SurveyExample];
    ConcatContains(parts, 1);
    ConcatContains(parts, 3);
  }

  lemma InterviewPromptCarriesContext(p: Persona, q: string, ctx: Option<string>, hashOf: string -> int)
    ensures var r := InterviewRequest(p, q, ctx, hashOf);
            Contains(r.system, BuildPersonaContext(p, hashOf))
            && (ctx.Some? && ctx.value != "" ==> Contains(r.system, ctx.value))
            && r.history == [] && r.user == "질문: " + q
  {
    var extra := if ctx.Some? && ctx.value != "" then [ExtraContextHeading, ctx.value] else [];
    var parts := [InterviewIntro, BuildPersonaContext(p, hashOf), InterviewRules] + extra;
    ConcatContains(parts, 1);
    if extra != [] {
      ConcatContains(parts, 4);
    }
  }

  lemma FollowUpPromptCarriesContext(p: Persona, history: seq<(string, string)>, q: string, hashOf: string -> int)
    ensures var r := FollowUpRequest(p, history, q, hashOf);
            Contains(r.system, BuildPersonaContext(p, hashOf)) && r.history == history && r.user == q
  {
    ConcatContains([FollowUpIntro, BuildPersonaContext(p, hashOf), FollowUpRules], 1);
  }

  lemma ExperimentPromptCarriesContext(p: Persona, scenario: string, q: string, conditions: seq<string>, hashOf: string -> int)
    ensures var r := ExperimentRequest(p, scenario, q, conditions, hashOf);
            Contains(r.system, BuildPersonaContext(p, hashOf)) && Contains(r.system, scenario) && r.user == "실험 질문: " + q
  {
    var parts := [ExperimentIntro, BuildPersonaContext(p, hashOf), ScenarioHeading, scenario, ConditionsHeading,
                  ConditionsText(conditions), ExperimentRules];
    ConcatContains(parts, 1);
    ConcatContains(parts, 3);
  }

  // ---------------------------------------------------------------- reply parsing

  /** `점수\s*[:：]\s*(\d+)` at position `p`: the value of the digits. */
  function TaggedScoreMatch(s: string, p: nat): Option<int> {
    if !OccursAt(s, "점수", p) then None
    else
      var a := SkipSpaces(s, p + 2);
      if a == |s| || !IsColon(s[a]) then None
      else
        var b := SkipSpaces(s, a + 1);
        var e := SkipDigits(s, b);
        if e == b then None else Some(DigitsValue(s[b..e]))
  }

  /**
   * `_extract_score`: the first tagged score if it lies in 1..7; otherwise the
   * first standalone digit 1..7 anywhere in the text; otherwise `None`.
   */
  function ExtractScore(s: string): (r: Option<int>)
    ensures r.Some? ==> 1 <= r.value <= 7
  {
    match FirstMatch(s, TaggedScoreMatch)
    case Some((_, n)) => if 1 <= n <= 7 then Some(n) else FirstStandaloneDigit(s)
    case None => FirstStandaloneDigit(s)
  }

  /** A tagged score in 1..7 wins, whatever bare digits come before it. */
  lemma TaggedScoreWins(s: string, p: nat, n: int)
    requires p <= |s| && TaggedScoreMatch(s, p) == Some(n) && 1 <= n <= 7
    requires forall j :: 0 <= j < p ==> TaggedScoreMatch(s, j).None?
    ensures ExtractScore(s) == Some(n)
  {
    FirstMatchIs(s, TaggedScoreMatch, p);
  }

  /** The first tagged score outside 1..7 is not clamped: the first standalone digit is used. */
  lemma OutOfRangeTagFallsThrough(s: string, p: nat, n: int)
    requires p <= |s| && TaggedScoreMatch(s, p) == Some(n) && !(1 <= n <= 7)
    requires forall j :: 0 <= j < p ==> TaggedScoreMatch(s, j).None?
    ensures ExtractScore(s) == FirstStandaloneDigit(s)
  {
    FirstMatchIs(s, TaggedScoreMatch, p);
  }

  /** A bare digit before the tag does not count. */
  lemma {:induction false} TaggedScoreExample()
    ensures ExtractScore("3 점수: 5") == Some(5)
  {
    var s := "3 점수: 5";
    assert OccursAt(s, "점수", 2);
    assert SkipSpaces(s, 4) == 4;
    assert SkipSpaces(s, 5) == 6;
    assert SkipDigits(s, 6) == 7;
    assert s[6..7] == "5";
    assert s[0..2][0] == '3' && s[1..3][0] == ' ';
    TaggedScoreWins(s, 2, 5);
  }

  /** A tagged 9 is out of range, and the `5` glued to `점` is no standalone digit: no score. */
  lemma {:induction false} OutOfRangeExample()
    ensures ExtractScore("점수: 9, 5점") == None
  {
    var t := "점수: 9, 5점";
    assert OccursAt(t, "점수", 0);
    assert SkipSpaces(t, 2) == 2;
    assert SkipSpaces(t, 3) == 4;
    assert SkipDigits(t, 4) == 5;
    assert t[4..5] == "9";
    OutOfRangeTagFallsThrough(t, 0, 9);
    assert !StandaloneDigitAt(t, 4);
    assert !StandaloneDigitAt(t, 7);
    assert forall i :: 0 <= i < |t| ==> !StandaloneDigitAt(t, i);
  }

  /**
   * After the separator of a `(.+)` with DOTALL that follows `\s*` ending at `b`:
   * the rest from `b`, or, when only spaces remain after `start`, the last space.
   */
  function RestAfterSpaces(s: string, start: nat, b: nat): Option<string>
    requires start <= b <= |s|
  {
    if b < |s| then Some(s[b..]) else if b > start then Some(s[b - 1..]) else None
  }

  /** `(?:이유|설명)\s*[:：]\s*(.+)` with DOTALL at position `p`: the captured rest. */
  function ReasonTagMatch(s: string, p: nat): Option<string> {
    if !(OccursAt(s, "이유", p) || OccursAt(s, "설명", p)) then None
    else
      var a := SkipSpaces(s, p + 2);
      if a == |s| || !IsColon(s[a]) then None
      else RestAfterSpaces(s, a + 1, SkipSpaces(s, a + 1))
  }

  /**
   * `점수\s*[:：]\s*\d+\s*(.+)` with DOTALL at position `p`. When nothing but the
   * digits remain, `\d+` gives back its last digit if it has two or more.
   */
  function ScoreRestMatch(s: string, p: nat): Option<string> {
    if !OccursAt(s, "점수", p) then None
    else
      var a := SkipSpaces(s, p + 2);
      if a == |s| || !IsColon(s[a]) then None
      else
        var b := SkipSpaces(s, a + 1);
        var e := SkipDigits(s, b);
        if e == b then None
        else
          var t := SkipSpaces(s, e);
          if t < |s| || t > e then RestAfterSpaces(s, e, t)
          else if e - b >= 2 then Some(s[e - 1..])
          else None
  }

  /** Whatever a reasoning pattern captures is a suffix of the text. */
  lemma CapturesAreSuffixes(s: string, p: nat)
    ensures ReasonTagMatch(s, p).Some? ==> exists k :: 0 <= k <= |s| && ReasonTagMatch(s, p).value == s[k..]
    ensures ScoreRestMatch(s, p).Some? ==> exists k :: 0 <= k <= |s| && ScoreRestMatch(s, p).value == s[k..]
  {
  }

  /**
   * `_extract_reasoning`: the stripped text after `이유:`/`설명:`, else the
   * stripped text after `점수: N`, else the whole stripped reply. It never
   * returns `None`, and it is always a stripped suffix of the reply.
   */
  function ExtractReasoning(s: string): (r: string)
    ensures exists k :: 0 <= k <= |s| && r == Strip(s[k..])
  {
    match FirstMatch(s, ReasonTagMatch)
    case Some((p, g)) =>
      CapturesAreSuffixes(s, p);
      Strip(g)
    case None =>
      match FirstMatch(s, ScoreRestMatch)
      case Some((p, g)) =>
        CapturesAreSuffixes(s, p);
        Strip(g)
      case None =>
        assert s[0..] == s;
        Strip(s)
  }

  /** A reply with neither tag is its own reasoning, stripped. */
  lemma UntaggedReasoning(s: string)
    requires forall p :: 0 <= p <= |s| ==> !OccursAt(s, "이유", p) && !OccursAt(s, "설명", p) && !OccursAt(s, "점수", p)
    ensures ExtractReasoning(s) == Strip(s)
  {
    NoMatchFrom(s, ReasonTagMatch, 0);
    NoMatchFrom(s, ScoreRestMatch, 0);
  }

  lemma {:induction false} ReasoningExample()
    ensures ExtractReasoning("이유: 비싸다") == "비싸다"
  {
    var s := "이유: 비싸다";
    assert OccursAt(s, "이유", 0);
    assert SkipSpaces(s, 2) == 2;
    assert SkipSpaces(s, 3) == 4;
    FirstMatchIs(s, ReasonTagMatch, 0);
    assert s[4..] == "비싸다";
    StripOfNoSpace("비싸다");
  }

  // ---------------------------------------------------------------- answers

  /** The dictionary `respond_to_survey_question` returns; `error` is present only on failure. */
  datatype SurveyAnswer = SurveyAnswer(personaId: string, question: string, score: Option<int>,
                                       reasoning: Option<string>, rawResponse: Option<string>,
                                       error: Option<string>)

  /**
   * What `respond_to_survey_question` returns given the backend's reply: on success the
   * stripped content and what parsing it gives; on an exception every parsed
   * field is `None` and `error` holds the message. It never raises.
   */
  function SurveyAnswerOf(p: Persona, question: string, reply: Reply): (r: SurveyAnswer)
    ensures r.personaId == p.id && r.question == question
    ensures reply.Err? ==> r.score.None? && r.reasoning.None? && r.rawResponse.None? && r.error == Some(reply.error)
    ensures reply.Ok? ==> r.error.None? && r.rawResponse == Some(Strip(reply.value)) && r.reasoning.Some?
    ensures r.score.Some? ==> 1 <= r.score.value <= 7
  {
    match reply
    case Ok(text) =>
      var content := Strip(text);
      SurveyAnswer(p.id, question, ExtractScore(content), Some(ExtractReasoning(content)), Some(content), None)
    case Err(e) =>
      SurveyAnswer(p.id, question, None, None, None, Some(e))
  }

  /** The dictionary `respond_to_interview_question` returns. */
  datatype InterviewAnswer = InterviewAnswer(personaId: string, question: string, response: Option<string>,
                                             rawResponse: Option<string>, error: Option<string>)

  /** What `respond_to_interview_question` and `conduct_follow_up` return given the backend's reply. */
  function InterviewAnswerOf(p: Persona, question: string, reply: Reply): (r: InterviewAnswer)
    ensures r.personaId == p.id && r.question == question
    ensures reply.Err? ==> r.response.None? && r.rawResponse.None? && r.error == Some(reply.error)
    ensures reply.Ok? ==> r.error.None? && r.response == Some(Strip(reply.value)) && r.rawResponse == r.response
  {
    match reply
    case Ok(text) => InterviewAnswer(p.id, question, Some(Strip(text)), Some(Strip(text)), None)
    case Err(e) => InterviewAnswer(p.id, question, None, None, Some(e))
  }

  /** `respond_to_survey_question`: the request goes out as call `k`, and its reply is parsed. */
  method RespondToSurveyQuestion(p: Persona, question: string, scale: string, k: nat, backend: Oracle,
                                 hashOf: string -> int) returns (a: SurveyAnswer)
    ensures a == SurveyAnswerOf(p, question, backend(k, SurveyRequest(p, question, scale, hashOf)))
  {
    var reply := backend(k, SurveyRequest(p, question, scale, hashOf));
    a := SurveyAnswerOf(p, question, reply);
  }

  /** `respond_to_interview_question`, sent as call `k`. */
  method RespondToInterviewQuestion(p: Persona, question: string, context: Option<string>, k: nat,
                                    backend: Oracle, hashOf: string -> int) returns (a: InterviewAnswer)
    ensures a == InterviewAnswerOf(p, question, backend(k, InterviewRequest(p, question, context, hashOf)))
  {
    var reply := backend(k, InterviewRequest(p, question, context, hashOf));
    a := InterviewAnswerOf(p, question, reply);
  }

  /** `conduct_follow_up`, sent as call `k` with the earlier turns replayed. */
  method ConductFollowUp(p: Persona, history: seq<(string, string)>, question: string, k: nat,
                         backend: Oracle, hashOf: string -> int) returns (a: InterviewAnswer)
    ensures a == InterviewAnswerOf(p, question, backend(k, FollowUpRequest(p, history, question, hashOf)))
  {
    var reply := backend(k, FollowUpRequest(p, history, question, hashOf));
    a := InterviewAnswerOf(p, question, reply);
  }

  /** `generate_experiment_response` given the backend's reply: the stripped text, or an error sentence. */
  function ExperimentResponse(reply: Reply): (r: string)
    ensures reply.Ok? ==> r == Strip(reply.value)
    ensures reply.Err? ==> StartsWith(r, "실험 응답 생성 중 오류 발생: ") && r[|"실험 응답 생성 중 오류 발생: "|..] == reply.error
  {
    match reply
    case Ok(text) => Strip(text)
    case Err(e) => "실험 응답 생성 중 오류 발생: " + e
  }

  /** `f"{x}"` of an optional value: `None` prints as `None`. */
  function OptText(x: Option<string>): string {
    if x.Some? then x.value else "None"
  }

  function OptNumber(x: Option<int>): string {
    if x.Some? then IntToString(x.value) else "None"
  }

  /** `result.get('error')` is truthy. */
  predicate Failed(error: Option<string>) {
    error.Some? && error.value != ""
  }

  /** The line `generate_survey_response` writes for one answer. */
  function SurveyLine(a: SurveyAnswer): string {
    if Failed(a.error) then "오류: " + a.error.value
    else "점수: " + OptNumber(a.score) + " - " + OptText(a.reasoning)
  }

  /** A failed call with a message gives `오류: …`; a reply gives its parsed score and reasoning. */
  lemma SurveyLineCases(p: Persona, question: string, reply: Reply)
    ensures reply.Err? && reply.error != "" ==>
      SurveyLine(SurveyAnswerOf(p, question, reply)) == "오류: " + reply.error
    ensures reply.Ok? ==> var content := Strip(reply.value);
      SurveyLine(SurveyAnswerOf(p, question, reply))
        == "점수: " + OptNumber(ExtractScore(content)) + " - " + ExtractReasoning(content)
  {
  }

  /** The backend's reply to the request for each survey question, call `k` for question `k`. */
  function SurveyReplies(p: Persona, questions: seq<string>, backend: Oracle, hashOf: string -> int): (rs: seq<Reply>)
    ensures |rs| == |questions|
  {
    seq(|questions|, k requires 0 <= k < |questions| => backend(k, SurveyRequest(p, questions[k], DefaultScale, hashOf)))
  }

  /** The answer parsed from each reply, answer `k` for question `k`. */
  function SurveyAnswers(p: Persona, qs: seq<string>, replies: seq<Reply>): (answers: seq<SurveyAnswer>)
    requires |replies| == |qs|
    ensures |answers| == |qs|
  {
    seq(|qs|, k requires 0 <= k < |qs| => SurveyAnswerOf(p, qs[k], replies[k]))
  }

  /** The lines of answers `0 .. n-1`. */
  function SurveyLines(answers: seq<SurveyAnswer>, n: nat): seq<string>
    requires n <= |answers|
  {
    if n == 0 then [] else SurveyLines(answers, n - 1) + [SurveyLine(answers[n - 1])]
  }

  /** There is one line per answer so far, line `k` for answer `k`. */
  lemma {:induction false} SurveyLinesAt(answers: seq<SurveyAnswer>, n: nat)
    requires n <= |answers|
    ensures |SurveyLines(answers, n)| == n
    ensures forall k :: 0 <= k < n ==> SurveyLines(answers, n)[k] == SurveyLine(answers[k])
  {
    if n > 0 {
      SurveyLinesAt(answers, n - 1);
    }
  }

  /**
   * `generate_survey_response`: call `k` answers question `k`, and line `k`
   * reports what parsing its reply gives, in question order.
   */
  method GenerateSurveyResponse(p: Persona, questions: seq<string>, backend: Oracle, hashOf: string -> int)
    returns (responses: seq<string>)
    ensures var answers := SurveyAnswers(p, questions, SurveyReplies(p, questions, backend, hashOf));
            responses == SurveyLines(answers, |answers|)
  {
    ghost var replies := SurveyReplies(p, questions, backend, hashOf);
    ghost var answers := SurveyAnswers(p, questions, replies);
    responses := [];
    for k := 0 to |questions|
      invariant responses == SurveyLines(answers, k)
    {
      var question := questions[k];
      var result := RespondToSurveyQuestion(p, question, DefaultScale, k, backend, hashOf);
      assert replies[k] == backend(k, SurveyRequest(p, question, DefaultScale, hashOf));
      assert result == answers[k];
      var line := FormatSurveyLine(result);
      responses := responses + [line];
    }
  }

  /** The error branch or the score branch of the loop body of `generate_survey_response`. */
  method FormatSurveyLine(a: SurveyAnswer) returns (line: string)
    ensures line == SurveyLine(a)
  {
    if a.error.Some? && a.error.value != "" {
      line := "오류: " + a.error.value;
    } else {
      line := "점수: " + OptNumber(a.score) + " - " + OptText(a.reasoning);
    }
  }

  // ---------------------------------------------------------------- interviews

  /** `[q.strip() for q in interview_guide.split('\n') if q.strip()]`. */
  function GuideQuestions(guide: string): (qs: seq<string>)
    ensures forall k :: 0 <= k < |qs| ==> qs[k] != "" && qs[k] == Strip(qs[k])
  {
    StrippedNonBlank(Split(guide, '\n'))
  }

  function StrippedNonBlank(lines: seq<string>): (qs: seq<string>)
    ensures forall k :: 0 <= k < |qs| ==> qs[k] != "" && qs[k] == Strip(qs[k])
  {
    if lines == [] then []
    else
      var q := Strip(lines[0]);
      if q != "" then StripOfStripped(lines[0]); [q] + StrippedNonBlank(lines[1..])
      else StrippedNonBlank(lines[1..])
  }

  lemma StripOfStripped(s: string)
    ensures Strip(Strip(s)) == Strip(s)
  {
    var t := Strip(s);
    if t != [] {
      assert LeadingSpaces(t) == 0;
      assert TrimmedEnd(t) == |t|;
    }
  }

  /** The backend's reply to the request for each guide question, call `k` for question `k`. */
  function InterviewReplies(p: Persona, qs: seq<string>, backend: Oracle, hashOf: string -> int): (rs: seq<Reply>)
    ensures |rs| == |qs|
  {
    seq(|qs|, k requires 0 <= k < |qs| => backend(k, InterviewRequest(p, qs[k], None, hashOf)))
  }

  /** The answer taken from each reply, answer `k` for question `k`. */
  function InterviewAnswers(p: Persona, qs: seq<string>, replies: seq<Reply>): (answers: seq<InterviewAnswer>)
    requires |replies| == |qs|
    ensures |answers| == |qs|
    ensures forall k :: 0 <= k < |qs| ==> answers[k].question == qs[k]
  {
    seq(|qs|, k requires 0 <= k < |qs| => InterviewAnswerOf(p, qs[k], replies[k]))
  }

  /** The transcript block for one answered question; a failure is written inline. */
  function InterviewBlock(a: InterviewAnswer): string {
    if Failed(a.error) then "질문: " + a.question + "\n답변: 오류 - " + a.error.value + "\n\n"
    else "질문: " + a.question + "\n답변: " + OptText(a.response) + "\n\n"
  }

  /** The blocks of answers `0 .. n-1`, concatenated. */
  function Blocks(answers: seq<InterviewAnswer>, n: nat): string
    requires n <= |answers|
  {
    if n == 0 then "" else Blocks(answers, n - 1) + InterviewBlock(answers[n - 1])
  }

  /**
   * The transcript for the given answers: no questions give a fixed message,
   * a failure on the first question ends the interview, and otherwise every
   * question is asked, later failures written inline.
   */
  function Transcript(answers: seq<InterviewAnswer>): string {
    if answers == [] then "인터뷰 가이드가 비어있습니다."
    else if Failed(answers[0].error) then "오류: " + answers[0].error.value
    else Strip(Blocks(answers, |answers|))
  }

  /** `generate_interview_response` with the guide's questions and the backend's replies. */
  function InterviewTranscript(p: Persona, guide: string, backend: Oracle, hashOf: string -> int): string {
    var qs := GuideQuestions(guide);
    Transcript(InterviewAnswers(p, qs, InterviewReplies(p, qs, backend, hashOf)))
  }

  method GenerateInterviewResponse(p: Persona, guide: string, backend: Oracle, hashOf: string -> int)
    returns (transcript: string)
    ensures transcript == InterviewTranscript(p, guide, backend, hashOf)
  {
    var questions := GuideQuestions(guide);
    if questions == [] {
      return "인터뷰 가이드가 비어있습니다.";
    }
    ghost var answers := InterviewAnswers(p, questions, InterviewReplies(p, questions, backend, hashOf));
    var result := RespondToInterviewQuestion(p, questions[0], None, 0, backend, hashOf);
    assert result == answers[0];
    if result.error.Some? && result.error.value != "" {
      return "오류: " + result.error.value;
    }
    var response := "질문: " + questions[0] + "\n답변: " + OptText(result.response) + "\n\n";
    assert response == InterviewBlock(result);
    assert Blocks(answers, 1) == "" + InterviewBlock(result);
    for k := 1 to |questions|
      invariant response == Blocks(answers, k)
    {
      var question := questions[k];
      result := RespondToInterviewQuestion(p, question, None, k, backend, hashOf);
      assert result == answers[k];
      var block;
      if result.error.Some? && result.error.value != "" {
        block := "질문: " + question + "\n답변: 오류 - " + result.error.value + "\n\n";
      } else {
        block := "질문: " + question + "\n답변: " + OptText(result.response) + "\n\n";
      }
      assert block == InterviewBlock(result);
      response := response + block;
    }
    transcript := Strip(response);
  }

  /** Each block opens with its question. */
  lemma BlockOpensWithQuestion(a: InterviewAnswer)
    ensures OccursAt(InterviewBlock(a), "질문: " + a.question + "\n답변: ", 0)
  {
    var w := "질문: " + a.question + "\n답변: ";
    assert InterviewBlock(a)[..|w|] == w;
  }

  /** The blocks of the first `k` answers are a prefix of the blocks of the first `n`. */
  lemma {:induction false} BlocksPrefix(answers: seq<InterviewAnswer>, k: nat, n: nat)
    requires k <= n <= |answers|
    ensures IsPrefix(Blocks(answers, k), Blocks(answers, n))
  {
    if k < n {
      BlocksPrefix(answers, k, n - 1);
      PrefixOfConcat(Blocks(answers, k), Blocks(answers, n - 1), InterviewBlock(answers[n - 1]));
    }
  }

  /**
   * Question `k`, failed or not, gets its `질문: … 답변: ` block, at the offset
   * where the blocks of the earlier questions end: the order is kept.
   */
  lemma {:induction false} BlocksCoverQuestion(answers: seq<InterviewAnswer>, n: nat, k: nat)
    requires k < n <= |answers|
    ensures OccursAt(Blocks(answers, n), "질문: " + answers[k].question + "\n답변: ", |Blocks(answers, k)|)
  {
    var w := "질문: " + answers[k].question + "\n답변: ";
    var before := Blocks(answers, k);
    BlockOpensWithQuestion(answers[k]);
    OccursInConcat(before, InterviewBlock(answers[k]), w, 0);
    BlocksPrefix(answers, k + 1, n);
    OccursInPrefix(Blocks(answers, k + 1), Blocks(answers, n), w, |before|);
  }
}
