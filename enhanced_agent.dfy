/**
 * The enhanced persona agent (src/enhanced_ai_agent.py): a richer persona
 * context, prompts by question type, parsing of `점수: N` / `이유: ...` with
 * clamping to the scale, a heuristic confidence in hundredths, the traits a
 * reply draws on, a style label, and the agent's history of answers.
 */
module EnhancedAgent {
  import opened Wrappers
  import opened Text
  import opened PyValues
  import opened Patterns
  import opened Backend
  import opened DatasetLoader
  import AIAgent

  // ---------------------------------------------------------------- traits

  const Genders: seq<string> := ["남성", "여성", "기타"]
  const Regions: seq<string> := ["서울", "경기", "부산", "대구", "광주", "대전", "울산", "세종", "기타"]
  const Educations: seq<string> := ["고졸", "대졸", "대학원", "박사"]
  const Incomes: seq<string> := ["저소득", "중소득", "고소득", "최고소득"]

  /** `_get_enhanced_demographics`: six list lookups at `id mod len`, joined by `, `. */
  function Demographics(n: int): string {
    Join([AIAgent.Pick(AIAgent.AgeGroups, n), AIAgent.Pick(Genders, n), AIAgent.Pick(Regions, n),
          AIAgent.Pick(Educations, n), AIAgent.Pick(Incomes, n), AIAgent.Pick(AIAgent.Occupations, n)], ", ")
  }

  const PrimaryTraits: seq<string> := ["외향적이고 사교적", "내향적이고 신중", "창의적이고 개방적", "체계적이고 완벽주의",
                                       "낙천적이고 유연", "분석적이고 논리적", "감성적이고 직관적", "경쟁적이고 야심적"]
  const SecondaryTraits: seq<string> := ["협력적", "독립적", "혁신적", "전통적", "모험적", "안정적", "이상주의적", "현실적"]

  /** `_get_enhanced_personality`: the primary trait at `id`, the secondary one at `id + 1`. */
  function Personality(n: int): string {
    AIAgent.Pick(PrimaryTraits, n) + ", " + AIAgent.Pick(SecondaryTraits, n + 1)
  }

  const TechPrefs: seq<string> := ["애플 매니아", "삼성 팬", "구글 픽셀 선호", "중립적", "가성비 중시", "최신 기술 추구",
                                   "브랜드 무관심", "안정성 중시"]
  const Lifestyles: seq<string> := ["미니멀", "활동적", "편안함 추구", "도전적", "전통적", "혁신적"]

  /** The brand-loyalty description for loyalty level `id % 4`. */
  function LoyaltyDescription(n: int): string {
    var level := n % 4;
    if level == 0 then "브랜드 충성도 높음 (특정 브랜드 선호)"
    else if level == 1 then "브랜드 충성도 보통 (선호 브랜드 있음)"
    else if level == 2 then "브랜드 충성도 낮음 (브랜드 무관심)"
    else "브랜드 완전 무관심 (기능만 중시)"
  }

  /** The technology preference, drawn from the part of the list that belongs to the loyalty level. */
  function TechPreference(n: int): string {
    var level := n % 4;
    if level == 0 then TechPrefs[n % 3]
    else if level == 1 then TechPrefs[3 + n % 3]
    else if level == 2 then TechPrefs[6 + n % 2]
    else "기능 중심"
  }

  /** `_get_enhanced_preferences`. */
  function Preferences(n: int): string {
    Concat(["기술: ", TechPreference(n), ", 소비: ", AIAgent.Pick(AIAgent.SpendingStyles, n),
            ", 브랜드: ", LoyaltyDescription(n), ", 라이프스타일: ", AIAgent.Pick(Lifestyles, n)])
  }

  const Careers: seq<string> := ["신입", "경력 3-5년", "경력 10년+", "전문가", "리더", "은퇴"]
  const Industries: seq<string> := ["IT", "금융", "제조", "서비스", "교육", "의료", "예술", "스포츠", "정부", "비영리"]
  const Households: seq<string> := ["싱글", "커플", "가족", "대가족", "독신", "동거"]
  const Hobbies: seq<string> := ["기술", "예술", "스포츠", "여행", "독서", "음악", "게임", "요리", "사진", "운동"]

  /** `_get_enhanced_experiences`. */
  function Experiences(n: int): string {
    Concat(["경력: ", AIAgent.Pick(Careers, n), ", 업계: ", AIAgent.Pick(Industries, n),
            ", 라이프스타일: ", AIAgent.Pick(Households, n), ", 관심사: ", AIAgent.Pick(Hobbies, n)])
  }

  const CoreValues: seq<string> := ["성공과 성취", "가족과 관계", "자유와 독립", "안정과 보안", "창의와 혁신", "전통과 질서",
                                    "평등과 정의", "개인적 성장"]

  /** `_get_enhanced_values`: the value at `id` and the one two places further on. */
  function Values(n: int): string {
    AIAgent.Pick(CoreValues, n) + ", " + AIAgent.Pick(CoreValues, n + 2)
  }

  /** A persona's two values always differ. */
  lemma ValuesDiffer(n: int)
    ensures AIAgent.Pick(CoreValues, n) != AIAgent.Pick(CoreValues, n + 2)
  {
    var i, j := n % 8, (n + 2) % 8;
    assert j == (i + 2) % 8;
    assert forall a, b :: 0 <= a < b < 8 ==> CoreValues[a] != CoreValues[b];
  }

  /**
   * The technology preference follows the loyalty level: a loyal persona
   * gets one of the three brand names, a moderately loyal one a neutral
   * preference, a persona of low loyalty `브랜드 무관심`, and an indifferent
   * one `기능 중심`. Since `id % 4 == 2` makes `id` even, `id % 2` is
   * always 0 there: `안정성 중시` is never chosen.
   */
  lemma {:induction false} TechPreferenceFollowsLoyalty(n: int)
    ensures n % 4 == 0 ==> exists i :: 0 <= i < 3 && TechPreference(n) == TechPrefs[i]
    ensures n % 4 == 1 ==> exists i :: 3 <= i < 6 && TechPreference(n) == TechPrefs[i]
    ensures n % 4 == 2 ==> TechPreference(n) == "브랜드 무관심"
    ensures n % 4 == 3 ==> TechPreference(n) == "기능 중심"
    ensures TechPreference(n) != "안정성 중시"
  {
    var level, i := n % 4, n % 3;
    var t := TechPreference(n);
    assert forall j :: 0 <= j < 7 ==> TechPrefs[j][0] != '안';
    if level == 0 {
      assert t == TechPrefs[i];
    } else if level == 1 {
      assert t == TechPrefs[3 + i];
    } else if level == 2 {
      assert n == 4 * (n / 4) + 2;
      assert n % 2 == 0;
      assert t == TechPrefs[6];
    } else {
      assert t[0] == '기';
    }
  }

  /** Every other entry of the preference list is chosen for some persona number. */
  lemma ReachableTechPreferences()
    ensures forall i :: 0 <= i < 7 ==> exists n: nat :: TechPreference(n) == TechPrefs[i]
  {
    assert TechPreference(0) == TechPrefs[0];
    assert TechPreference(4) == TechPrefs[1];
    assert TechPreference(8) == TechPrefs[2];
    assert TechPreference(9) == TechPrefs[3];
    assert TechPreference(1) == TechPrefs[4];
    assert TechPreference(5) == TechPrefs[5];
    assert TechPreference(2) == TechPrefs[6];
  }

  // ---------------------------------------------------------------- context

  /** The parts `_build_enhanced_persona_context` joins, for persona number `n`. */
  function ContextParts(n: int, data: Dict<Value>): seq<string> {
    ["인구통계: " + Demographics(n), "성격 특성: " + Personality(n), "선호도: " + Preferences(n),
     "경험 배경: " + Experiences(n), "가치관: " + Values(n)]
    + AIAgent.SummaryEntry("개인 배경: ", data)
  }

  /** `_build_enhanced_persona_context`. */
  function EnhancedContext(p: Persona, hashOf: string -> int): string {
    Join(ContextParts(AIAgent.PersonaNumber(p.id, hashOf), p.data), "\n")
  }

  /** The context has five trait lines, plus the shortened summary as a sixth when it is truthy. */
  lemma ContextPartsCases(n: int, data: Dict<Value>)
    ensures var parts := ContextParts(n, data);
            var v := Get(data, "persona_summary");
            (|parts| == 5 <==> !(v.Some? && Truthy(v.value)))
            && (|parts| == 6 ==> parts[5] == "개인 배경: " + Truncate(ToStr(v.value), 200))
            && parts[4] == "가치관: " + Values(n)
  {
  }

  // ---------------------------------------------------------------- prompts

  const PromptOpening := "\n당신은 "
  const PromptContextLabel := " 특성을 가진 실제 사람입니다.\n\n컨텍스트: "
  const PromptQuestionLabel := "\n\n질문: "
  const PromptGuidelines := "\n\n중요한 지침:\n1. 당신의 고유한 성격, 경험, 가치관을 바탕으로 답변하세요\n2. 다른 사람과 똑같은 답변을 하지 마세요\n3. 당신만의 개별적인 관점과 경험을 반영하세요\n4. 일관성 있게 답변하세요 (예: 브랜드 충성도가 높으면 높은 점수, 낮으면 낮은 점수)\n"
  const LikertMiddle := "점(전혀 동의하지 않음)부터 "
  const LikertTail := "점(완전히 동의함)까지의 척도로 답변해주세요.\n\n당신의 브랜드 선호도, 소비 성향, 기술 수준에 따라 일관성 있게 점수를 선택하세요:\n- 브랜드 충성도가 높으면 높은 점수 (5-7점)\n- 브랜드 충성도가 낮으면 낮은 점수 (1-4점)\n- 브랜드 무관심이면 중간 점수 (3-5점)\n\n응답 형식:\n점수: [1-7 사이의 숫자]\n이유: [당신만의 구체적인 이유와 개인적 경험]\n"
  const ChoiceHeading := "\n\n다음 선택지 중에서 당신의 개인적 경험과 선호도를 바탕으로 가장 적합한 것을 선택해주세요:\n"
  const ChoiceClosing := "\n\n당신의 고유한 특성과 경험을 바탕으로 선택하고 그 이유를 설명해주세요.\n"
  const OpenEndedInstruction := "\n\n자유롭게 답변해주세요. 당신의 개인적인 경험, 의견, 감정을 포함하여 진정성 있고 고유한 답변을 해주세요.\n"
  const SurveySystem := "당신은 주어진 페르소나의 특성을 바탕으로 진정성 있는 응답을 생성하는 AI입니다."

  /** The part of the survey prompt that every question type shares. */
  function BasePrompt(personaContext: string, question: string, context: string): string {
    Concat([PromptOpening, personaContext, PromptContextLabel, context, PromptQuestionLabel, question, PromptGuidelines])
  }

  /** The option list, one `- option` line each. */
  function Bullets(options: seq<string>): (r: seq<string>)
    ensures |r| == |options| && forall i :: 0 <= i < |r| ==> r[i] == "- " + options[i]
  {
    seq(|options|, i requires 0 <= i < |options| => "- " + options[i])
  }

  /**
   * What the question type appends: the scale for `likert`, the options for
   * `multiple_choice` when there are any (a missing option list is `[]`), the
   * free-answer instruction for `open_ended`, and nothing otherwise.
   */
  function TypeInstruction(questionType: string, lo: int, hi: int, options: seq<string>): string {
    if questionType == "likert" then Concat(["\n\n", IntToString(lo), LikertMiddle, IntToString(hi), LikertTail])
    else if questionType == "multiple_choice" then
      (if options != [] then Concat([ChoiceHeading, Join(Bullets(options), "\n"), ChoiceClosing]) else "")
    else if questionType == "open_ended" then OpenEndedInstruction
    else ""
  }

  /** `_create_enhanced_survey_prompt`. */
  function SurveyPrompt(personaContext: string, question: string, questionType: string, lo: int, hi: int,
                        context: string, options: seq<string>): string {
    BasePrompt(personaContext, question, context) + TypeInstruction(questionType, lo, hi, options)
  }

  /** The survey request: a fixed system message, and the prompt as the user message. */
  function SurveyRequest(p: Persona, question: string, questionType: string, lo: int, hi: int,
                         context: string, options: seq<string>, hashOf: string -> int): Request {
    Ask(SurveySystem, SurveyPrompt(EnhancedContext(p, hashOf), question, questionType, lo, hi, context, options))
  }

  /**
   * The prompt starts with the shared part, which holds the persona context,
   * the context and the question; a Likert prompt names both ends of the
   * scale, a multiple-choice prompt lists every option, and any other type
   * without an instruction gets the shared part alone.
   */
  lemma {:induction false} SurveyPromptContents(pc: string, q: string, qt: string, lo: int, hi: int,
                                                ctx: string, options: seq<string>)
    ensures var prompt := SurveyPrompt(pc, q, qt, lo, hi, ctx, options);
            IsPrefix(BasePrompt(pc, q, ctx), prompt)
            && Contains(prompt, pc) && Contains(prompt, ctx) && Contains(prompt, q)
            && (qt == "likert" ==> Contains(prompt, IntToString(lo)) && Contains(prompt, IntToString(hi)))
            && (qt == "multiple_choice" ==> forall i :: 0 <= i < |options| ==> Contains(prompt, "- " + options[i]))
            && (qt !in {"likert", "multiple_choice", "open_ended"} || (qt == "multiple_choice" && options == [])
                ==> prompt == BasePrompt(pc, q, ctx))
  {
    var parts := [PromptOpening, pc, PromptContextLabel, ctx, PromptQuestionLabel, q, PromptGuidelines];
    var base := BasePrompt(pc, q, ctx);
    var extra := TypeInstruction(qt, lo, hi, options);
    ConcatContains(parts, 1);
    ConcatContains(parts, 3);
    ConcatContains(parts, 5);
    ContainsExtend(base, pc, extra);
    ContainsExtend(base, ctx, extra);
    ContainsExtend(base, q, extra);
    if qt == "likert" {
      var lparts := ["\n\n", IntToString(lo), LikertMiddle, IntToString(hi), LikertTail];
      ConcatContains(lparts, 1);
      ConcatContains(lparts, 3);
      ContainsAfter(base, extra, IntToString(lo));
      ContainsAfter(base, extra, IntToString(hi));
    } else if qt == "multiple_choice" && options != [] {
      var lines := Join(Bullets(options), "\n");
      var mparts := [ChoiceHeading, lines, ChoiceClosing];
      forall i | 0 <= i < |options|
        ensures Contains(base + extra, "- " + options[i])
      {
        JoinContains(Bullets(options), "\n", i);
        ConcatContains(mparts, 1);
        ContainsTransitive(Concat(mparts), lines, "- " + options[i]);
        ContainsAfter(base, extra, "- " + options[i]);
      }
    }
  }

  const InterviewSystem := "당신은 주어진 페르소나의 특성을 바탕으로 자연스럽고 진정성 있는 인터뷰 응답을 생성하는 AI입니다."
  const InterviewOpening := "\n당신은 "
  const InterviewContextLabel := " 특성을 가진 사람입니다.\n\n인터뷰 컨텍스트: "
  const InterviewStyleLabel := "\n인터뷰 스타일: "
  const InterviewBody := "\n\n다음 질문들에 대해 자연스럽고 진정성 있는 답변을 해주세요. \n당신의 개인적인 경험, 의견, 감정을 포함하여 실제 사람처럼 답변해주세요.\n\n질문들:\n"
  const InterviewClosing := "\n\n각 질문에 대해 구체적이고 개인적인 답변을 해주세요.\n"

  /** The question list, numbered from 1. */
  function NumberedQuestions(questions: seq<string>): (r: seq<string>)
    ensures |r| == |questions| && forall i :: 0 <= i < |r| ==> r[i] == IntToString(i + 1) + ". " + questions[i]
  {
    seq(|questions|, i requires 0 <= i < |questions| => IntToString(i + 1) + ". " + questions[i])
  }

  /** `_create_enhanced_interview_prompt`. */
  function InterviewPrompt(personaContext: string, questions: seq<string>, style: string, context: string): string {
    Concat([InterviewOpening, personaContext, InterviewContextLabel, context, InterviewStyleLabel, style, InterviewBody,
            Join(NumberedQuestions(questions), "\n"), InterviewClosing])
  }

  function InterviewRequest(p: Persona, questions: seq<string>, style: string, context: string,
                            hashOf: string -> int): Request {
    Ask(InterviewSystem, InterviewPrompt(EnhancedContext(p, hashOf), questions, style, context))
  }

  /** The interview prompt holds the persona context and every question, numbered from 1. */
  lemma {:induction false} InterviewPromptContents(pc: string, questions: seq<string>, style: string, ctx: string)
    ensures var prompt := InterviewPrompt(pc, questions, style, ctx);
            Contains(prompt, pc) && Contains(prompt, style)
            && forall i :: 0 <= i < |questions| ==> Contains(prompt, IntToString(i + 1) + ". " + questions[i])
  {
    var lines := Join(NumberedQuestions(questions), "\n");
    var parts := [InterviewOpening, pc, InterviewContextLabel, ctx, InterviewStyleLabel, style, InterviewBody,
                  lines, InterviewClosing];
    ConcatContains(parts, 1);
    ConcatContains(parts, 5);
    forall i | 0 <= i < |questions|
      ensures Contains(Concat(parts), IntToString(i + 1) + ". " + questions[i])
    {
      JoinContains(NumberedQuestions(questions), "\n", i);
      ConcatContains(parts, 7);
      ContainsTransitive(Concat(parts), lines, IntToString(i + 1) + ". " + questions[i]);
    }
  }

  // ---------------------------------------------------------------- reply parsing

  /** `점수:\s*(\d+)` at position `p`: the value of the digits. */
  function ScoreTagMatch(s: string, p: nat): Option<int> {
    if !OccursAt(s, "점수:", p) then None
    else
      var b := SkipSpaces(s, p + 3);
      var e := SkipDigits(s, b);
      if e == b then None else Some(DigitsValue(s[b..e]))
  }

  /**
   * `이유:\s*(.+)` at position `p`, where `.` stops at a newline. The greedy
   * `\s*` may run over newlines; when only whitespace follows it to the end,
   * it backtracks to the last character that is not a newline.
   */
  function ReasonLineMatch(s: string, p: nat): Option<string> {
    if !OccursAt(s, "이유:", p) then None
    else
      var b := SkipSpaces(s, p + 3);
      if b < |s| then Some(s[b..LineEnd(s, b)])
      else match LastNonNewline(s, p + 3, b)
        case Some(j) => Some(s[j..LineEnd(s, j)])
        case None => None
  }

  /** What `이유:\s*(.+)` captures is one non-empty line. */
  lemma ReasonIsOneLine(s: string, p: nat)
    ensures var m := ReasonLineMatch(s, p);
            m.Some? ==> |m.value| > 0 && forall j :: 0 <= j < |m.value| ==> m.value[j] != '\n'
  {
    if OccursAt(s, "이유:", p) {
      var b := SkipSpaces(s, p + 3);
      if b < |s| {
        assert IsSpace('\n');
      }
    }
  }

  /** The end of a `점수:\s*\d+\s*\n?` match at `p`; after the greedy `\s*` the `\n?` matches nothing. */
  function ScoreTagEnd(s: string, p: nat): Option<nat> {
    if !OccursAt(s, "점수:", p) then None
    else
      var b := SkipSpaces(s, p + 3);
      var e := SkipDigits(s, b);
      if e == b then None else Some(SkipSpaces(s, e))
  }

  /** The end of a `이유:\s*` match at `p`. */
  function ReasonTagEnd(s: string, p: nat): Option<nat> {
    if !OccursAt(s, "이유:", p) then None else Some(SkipSpaces(s, p + 3))
  }

  /** `re.sub(pattern, '', s[i..])` for a pattern that never matches the empty string. */
  function RemoveFrom(s: string, endAt: (string, nat) -> Option<nat>, i: nat): (r: string)
    requires i <= |s|
    decreases |s| - i
    ensures |r| <= |s| - i
  {
    if i == |s| then ""
    else match endAt(s, i)
      case Some(e) => if i < e <= |s| then RemoveFrom(s, endAt, e) else [s[i]] + RemoveFrom(s, endAt, i + 1)
      case None => [s[i]] + RemoveFrom(s, endAt, i + 1)
  }

  /** With no match from `i` on, nothing is removed. */
  lemma {:induction false} RemoveNothing(s: string, endAt: (string, nat) -> Option<nat>, i: nat)
    requires i <= |s|
    requires forall j :: i <= j < |s| ==> endAt(s, j).None?
    decreases |s| - i
    ensures RemoveFrom(s, endAt, i) == s[i..]
  {
    if i < |s| {
      RemoveNothing(s, endAt, i + 1);
      assert s[i..] == [s[i]] + s[i + 1..];
    }
  }

  /** A parsed survey reply; a reply of another type has no score. */
  datatype Parsed = Parsed(response: string, score: Option<int>, reasoning: string)

  /** Python's `max(lo, min(hi, x))`. */
  function Clamp(lo: int, hi: int, x: int): int {
    var m := if hi < x then hi else x;
    if lo > m then lo else m
  }

  /**
   * `_parse_survey_response`. For a Likert question: the first tagged score,
   * clamped to the scale; the reasoning captured after the first `이유:`, or
   * the whole reply; and the reply with the tags removed, but only when both
   * tags were found. Any other type keeps the reply as response and reasoning.
   */
  function ParseSurveyResponse(ai: string, questionType: string, lo: int, hi: int): (r: Parsed)
    ensures questionType != "likert" ==> r == Parsed(ai, None, ai)
    ensures |r.response| <= |ai|
  {
    if questionType == "likert" then Parsed(LikertResponse(ai), LikertScore(ai, lo, hi), LikertReasoning(ai))
    else Parsed(ai, None, ai)
  }

  /** The first tagged score, clamped to the scale. */
  function LikertScore(ai: string, lo: int, hi: int): Option<int> {
    var sm := FirstMatch(ai, ScoreTagMatch);
    if sm.Some? then Some(Clamp(lo, hi, sm.value.1)) else None
  }

  /** What the first `이유:` line captures, stripped, or else the whole reply. */
  function LikertReasoning(ai: string): string {
    var rm := FirstMatch(ai, ReasonLineMatch);
    if rm.Some? then Strip(rm.value.1) else ai
  }

  /** The reply with every score tag and then every reason tag removed, when both were found. */
  function LikertResponse(ai: string): (r: string)
    ensures |r| <= |ai|
  {
    if FirstMatch(ai, ScoreTagMatch).Some? && FirstMatch(ai, ReasonLineMatch).Some? then
      var once := RemoveFrom(ai, ScoreTagEnd, 0);
      Strip(RemoveFrom(once, ReasonTagEnd, 0))
    else ai
  }

  /**
   * A Likert score is there exactly when some `점수:` is followed by digits;
   * it lies on the scale, the first tagged value when that is on the scale,
   * and it is the lower end when the scale is empty.
   */
  lemma ScoreOnScale(ai: string, lo: int, hi: int)
    ensures var r := ParseSurveyResponse(ai, "likert", lo, hi);
            var sm := FirstMatch(ai, ScoreTagMatch);
            (r.score.None? <==> forall j :: 0 <= j <= |ai| ==> ScoreTagMatch(ai, j).None?)
            && (r.score.Some? && lo <= hi ==> lo <= r.score.value <= hi)
            && (r.score.Some? && lo > hi ==> r.score.value == lo)
            && (sm.Some? && lo <= sm.value.1 <= hi ==> r.score == Some(sm.value.1))
  {
    FirstMatchFromLeftmost(ai, ScoreTagMatch, 0);
  }

  /**
   * The Likert reasoning is the whole reply when no `이유:` line matches;
   * otherwise it is one line of the reply, stripped.
   */
  lemma ReasoningIsRestOfLine(ai: string, lo: int, hi: int)
    ensures var r := ParseSurveyResponse(ai, "likert", lo, hi);
            ((forall j :: 0 <= j <= |ai| ==> ReasonLineMatch(ai, j).None?) ==> r.reasoning == ai)
            && (FirstMatch(ai, ReasonLineMatch).Some? ==> forall j :: 0 <= j < |r.reasoning| ==> r.reasoning[j] != '\n')
  {
    assert ParseSurveyResponse(ai, "likert", lo, hi).reasoning == LikertReasoning(ai);
    var rm := FirstMatch(ai, ReasonLineMatch);
    if forall j :: 0 <= j <= |ai| ==> ReasonLineMatch(ai, j).None? {
      NoMatchFrom(ai, ReasonLineMatch, 0);
    }
    if rm.Some? {
      ReasonIsOneLine(ai, rm.value.0);
      StripLacks(rm.value.1, '\n');
    }
  }

  /** Unless both tags were found, the Likert response is the reply itself. */
  lemma TagsRemovedOnlyWithBoth(ai: string, lo: int, hi: int)
    ensures var r := ParseSurveyResponse(ai, "likert", lo, hi);
            (FirstMatch(ai, ScoreTagMatch).None? || FirstMatch(ai, ReasonLineMatch).None?) ==> r.response == ai
  {
  }

  /** `점수: 9` on a 1..7 scale is clamped to 7, and with no `이유:` the reply is its own reasoning. */
  lemma ClampExample()
    ensures ParseSurveyResponse("점수: 9", "likert", 1, 7) == Parsed("점수: 9", Some(7), "점수: 9")
  {
    var s := "점수: 9";
    assert SkipSpaces(s, 4) == 4;
    assert SkipDigits(s, 4) == 5;
    assert s[4..5] == "9";
    assert DigitsValue("9") == 9 by {
      assert "9"[..0] == "";
    }
    FirstMatchIs(s, ScoreTagMatch, 0);
    MissingFirstChar(s, "이유:");
    NoMatchFrom(s, ReasonLineMatch, 0);
  }

  // ---------------------------------------------------------------- metadata

  const PersonalIndicators: seq<string> := ["개인적으로", "저는", "제 경험", "저의", "나의", "저에게", "제가", "저는"]
  const ReasonIndicators: seq<string> := ["이유", "때문에", "왜냐하면", "왜냐하면", "그래서", "따라서", "때문"]

  /** `sum(1 for indicator in indicators if indicator in s)`: list entries, so a repeated entry counts twice. */
  function CountPresent(indicators: seq<string>, s: string): (c: nat)
    ensures c <= |indicators|
  {
    if indicators == [] then 0
    else CountPresent(indicators[..|indicators| - 1], s) + (if Contains(s, indicators[|indicators| - 1]) then 1 else 0)
  }

  /** The 0.10 steps for a reply longer than 50, 100 and 200 characters, in hundredths. */
  function LengthBonus(n: nat): (b: nat)
    ensures b <= 30
  {
    (if n > 50 then 10 else 0) + (if n > 100 then 10 else 0) + (if n > 200 then 10 else 0)
  }

  predicate MentionsUse(s: string) {
    Contains(s, "경험") || Contains(s, "사용") || Contains(s, "구매")
  }

  /** The confidence before the cap at 1.00, in hundredths. */
  function RawConfidence(response: string, scored: bool): int {
    30 + LengthBonus(|response|) + 5 * CountPresent(PersonalIndicators, response)
    + 3 * CountPresent(ReasonIndicators, response) + (if MentionsUse(response) then 10 else 0)
    + (if scored then 10 else 0)
  }

  /** `_calculate_confidence` in hundredths: the raw confidence capped at 100. */
  function Confidence(response: string, scored: bool): int {
    if RawConfidence(response, scored) > 100 then 100 else RawConfidence(response, scored)
  }

  /** The confidence lies in 0.30 .. 1.00, and a score adds exactly 0.10 before the cap. */
  lemma ConfidenceBounds(response: string)
    ensures 30 <= Confidence(response, false) <= Confidence(response, true) <= 100
    ensures RawConfidence(response, true) == RawConfidence(response, false) + 10
    ensures Confidence(response, true) == if RawConfidence(response, false) + 10 > 100 then 100
                                         else RawConfidence(response, false) + 10
  {
  }

  /**
   * The indicator lists are counted entry by entry: `저는` and `왜냐하면`
   * are listed twice, so each adds twice, and a reply with `때문에` also
   * contains `때문`.
   */
  lemma {:induction false} RepeatedIndicators(s: string)
    ensures CountPresent(PersonalIndicators, s)
            == CountPresent(PersonalIndicators[..7], s) + (if Contains(s, "저는") then 1 else 0)
    ensures Contains(s, "저는") ==> CountPresent(PersonalIndicators, s) >= 2
    ensures Contains(s, "왜냐하면") ==> CountPresent(ReasonIndicators, s) >= 2
    ensures Contains(s, "때문에") ==> Contains(s, "때문")
  {
    var pi := PersonalIndicators;
    assert pi[..8][..7] == pi[..7];
    assert CountPresent(pi[..7], s) == CountPresent(pi[..6], s) + (if Contains(s, pi[6]) then 1 else 0) by {
      assert pi[..7][..6] == pi[..6];
    }
    assert CountPresent(pi[..6], s) >= CountPresent(pi[..2], s) by {
      CountPrefixMonotone(pi[..6], s, 2);
      assert pi[..6][..2] == pi[..2];
    }
    assert CountPresent(pi[..2], s) == CountPresent(pi[..1], s) + (if Contains(s, pi[1]) then 1 else 0) by {
      assert pi[..2][..1] == pi[..1];
    }
    var ri := ReasonIndicators;
    assert CountPresent(ri, s) >= CountPresent(ri[..4], s) by {
      CountPrefixMonotone(ri, s, 4);
    }
    assert CountPresent(ri[..4], s) == CountPresent(ri[..3], s) + (if Contains(s, ri[3]) then 1 else 0) by {
      assert ri[..4][..3] == ri[..3];
    }
    assert CountPresent(ri[..3], s) == CountPresent(ri[..2], s) + (if Contains(s, ri[2]) then 1 else 0) by {
      assert ri[..3][..2] == ri[..2];
    }
    if Contains(s, "때문에") {
      var i :| 0 <= i <= |s| && OccursAt(s, "때문에", i);
      assert s[i..i + 2] == s[i..i + 3][..2];
      assert OccursAt(s, "때문", i);
    }
  }

  /** Dropping entries from the end of an indicator list never raises the count. */
  lemma {:induction false} CountPrefixMonotone(indicators: seq<string>, s: string, n: nat)
    requires n <= |indicators|
    decreases |indicators|
    ensures CountPresent(indicators[..n], s) <= CountPresent(indicators, s)
  {
    if n < |indicators| {
      var init := indicators[..|indicators| - 1];
      CountPrefixMonotone(init, s, n);
      assert init[..n] == indicators[..n];
    } else {
      assert indicators[..n] == indicators;
    }
  }

  /** `sum(1 for indicator in indicators if indicator in s)`. */
  method CountIndicators(indicators: seq<string>, s: string) returns (count: nat)
    ensures count == CountPresent(indicators, s)
  {
    count := 0;
    for i := 0 to |indicators|
      invariant count == CountPresent(indicators[..i], s)
    {
      assert indicators[..i + 1][..i] == indicators[..i];
      if Contains(s, indicators[i]) {
        count := count + 1;
      }
    }
    assert indicators[..|indicators|] == indicators;
  }

  /** `_calculate_confidence`, accumulating hundredths; the parsed reply matters only through its score. */
  method CalculateConfidence(response: string, scored: bool) returns (confidence: int)
    ensures confidence == Confidence(response, scored)
  {
    confidence := 30;
    if |response| > 50 {
      confidence := confidence + 10;
    }
    if |response| > 100 {
      confidence := confidence + 10;
    }
    if |response| > 200 {
      confidence := confidence + 10;
    }
    var personal := CountIndicators(PersonalIndicators, response);
    confidence := confidence + personal * 5;
    var reasons := CountIndicators(ReasonIndicators, response);
    confidence := confidence + reasons * 3;
    if MentionsUse(response) {
      confidence := confidence + 10;
    }
    if scored {
      confidence := confidence + 10;
    }
    if confidence > 100 {
      confidence := 100;
    }
  }

  const TechTrait := "기술 선호도"
  const BrandTrait := "브랜드 충성도"
  const SpendingTrait := "소비 성향"
  const ExperienceTrait := "개인적 경험"

  /** `_extract_used_traits`. */
  function UsedTraits(question: string, response: string): seq<string> {
    var q := Lower(question);
    (if Contains(q, "기술") || Contains(q, "제품") then [TechTrait] else [])
    + (if Contains(q, "브랜드") then [BrandTrait] else [])
    + (if Contains(q, "구매") || Contains(q, "소비") then [SpendingTrait] else [])
    + (if Contains(response, "경험") || Contains(response, "저는") then [ExperienceTrait] else [])
  }

  /** Each question label is reported exactly when one of its keywords occurs in the lowered question. */
  lemma QuestionTraits(question: string, response: string)
    ensures var t := UsedTraits(question, response);
            var q := Lower(question);
            (TechTrait in t <==> Contains(q, "기술") || Contains(q, "제품"))
            && (BrandTrait in t <==> Contains(q, "브랜드"))
            && (SpendingTrait in t <==> Contains(q, "구매") || Contains(q, "소비"))
  {
    TraitLabelsDiffer();
  }

  /** Personal experience is reported exactly when the reply mentions `경험` or `저는`; there are at most four labels. */
  lemma ExperienceTraitFromReply(question: string, response: string)
    ensures var t := UsedTraits(question, response);
            (ExperienceTrait in t <==> Contains(response, "경험") || Contains(response, "저는"))
            && |t| <= 4
  {
    TraitLabelsDiffer();
  }

  /** The labels start with different characters, so no label is mistaken for another. */
  lemma TraitLabelsDiffer()
    ensures TechTrait[0] == '기' && BrandTrait[0] == '브' && SpendingTrait[0] == '소' && ExperienceTrait[0] == '개'
  {
  }

  /** `_extract_used_traits`, appending label by label. */
  method ExtractUsedTraits(question: string, response: string) returns (traits: seq<string>)
    ensures traits == UsedTraits(question, response)
  {
    traits := [];
    var q := Lower(question);
    if Contains(q, "기술") || Contains(q, "제품") {
      traits := traits + [TechTrait];
    }
    if Contains(q, "브랜드") {
      traits := traits + [BrandTrait];
    }
    if Contains(q, "구매") || Contains(q, "소비") {
      traits := traits + [SpendingTrait];
    }
    if Contains(response, "경험") || Contains(response, "저는") {
      traits := traits + [ExperienceTrait];
    }
  }

  predicate AnyOf(s: string, words: seq<string>) {
    exists i :: 0 <= i < |words| && Contains(s, words[i])
  }

  const EmotionalWords: seq<string> := ["감정", "느낌", "좋아", "싫어"]
  const AnalyticWords: seq<string> := ["분석", "논리", "데이터", "통계"]
  const UseWords: seq<string> := ["경험", "사용", "구매"]
  const TechnicalWords: seq<string> := ["기술", "기능", "성능"]
  const StyleLabels: seq<string> := ["간결함", "상세함", "감성적", "분석적", "경험적", "기술적", "균형적"]

  /** `_analyze_response_style`: length decides first, then the first word group that occurs. */
  function ResponseStyle(response: string): string {
    if |response| < 50 then "간결함"
    else if |response| > 300 then "상세함"
    else if AnyOf(response, EmotionalWords) then "감성적"
    else if AnyOf(response, AnalyticWords) then "분석적"
    else if AnyOf(response, UseWords) then "경험적"
    else if AnyOf(response, TechnicalWords) then "기술적"
    else "균형적"
  }

  /**
   * The style is one of the seven labels; `간결함` and `상세함` are decided by
   * length alone, and a reply of middling length is `균형적` exactly when no
   * word of any group occurs.
   */
  lemma StyleCases(response: string)
    ensures var st := ResponseStyle(response);
            st in StyleLabels
            && (st == "간결함" <==> |response| < 50)
            && (st == "상세함" <==> |response| > 300)
            && (50 <= |response| <= 300 ==>
                  (st == "감성적" <==> AnyOf(response, EmotionalWords))
                  && (st == "균형적" <==> !AnyOf(response, EmotionalWords) && !AnyOf(response, AnalyticWords)
                                        && !AnyOf(response, UseWords) && !AnyOf(response, TechnicalWords)))
  {
  }

  /** `ResponseMetadata` without its timestamp; the confidence is in hundredths. */
  datatype Metadata = Metadata(confidence: int, reasoning: string, traitsUsed: seq<string>, style: string)

  /** The metadata of a failed call. */
  const ErrorMetadata := Metadata(0, "오류 발생", [], "기본")

  /** The dictionary `generate_enhanced_survey_response` returns; `error` is there only on failure. */
  datatype SurveyResult = SurveyResult(response: string, score: Option<int>, reasoning: string, metadata: Metadata,
                                       rawAiResponse: Option<string>, error: Option<string>)

  /** The fallback score of a failed call: the middle of the scale, rounded down. */
  function MidScale(lo: int, hi: int): (m: int)
    ensures lo <= hi ==> lo <= m <= hi
    ensures m - lo == (hi - lo) / 2
  {
    lo + (hi - lo) / 2
  }

  /** The result of one survey call with reply `reply`. */
  function SurveyResultOf(question: string, questionType: string, lo: int, hi: int, reply: Reply): (r: SurveyResult)
    ensures reply.Err? ==> r == SurveyResult("응답 생성 오류: " + reply.error, Some(MidScale(lo, hi)),
                                              "시스템 오류로 인한 기본 응답", ErrorMetadata, None, Some(reply.error))
    ensures reply.Ok? ==> r.error.None? && r.rawAiResponse == Some(Strip(reply.value))
                          && 30 <= r.metadata.confidence <= 100
  {
    match reply
    case Err(e) =>
      SurveyResult("응답 생성 오류: " + e, Some(MidScale(lo, hi)), "시스템 오류로 인한 기본 응답", ErrorMetadata, None, Some(e))
    case Ok(text) =>
      var ai := Strip(text);
      var parsed := ParseSurveyResponse(ai, questionType, lo, hi);
      var metadata := Metadata(Confidence(ai, parsed.score.Some?), parsed.reasoning, UsedTraits(question, ai),
                               ResponseStyle(ai));
      ConfidenceBounds(ai);
      SurveyResult(parsed.response, parsed.score, parsed.reasoning, metadata, Some(ai), None)
  }

  /** The dictionary `generate_enhanced_interview_response` returns. */
  datatype InterviewResult = InterviewResult(conversation: string, metadata: Metadata, rawAiResponse: Option<string>,
                                             error: Option<string>)

  /** The result of one interview call: the reply is kept as it is, with metadata but no score. */
  function InterviewResultOf(reply: Reply): (r: InterviewResult)
    ensures reply.Err? ==> r == InterviewResult("인터뷰 응답 생성 오류: " + reply.error, ErrorMetadata, None, Some(reply.error))
    ensures reply.Ok? ==> r.conversation == Strip(reply.value) && r.error.None?
                          && r.metadata.reasoning == "인터뷰 응답" && 30 <= r.metadata.confidence <= 100
                          && r.metadata.traitsUsed == UsedTraits("인터뷰", Strip(reply.value))
  {
    match reply
    case Err(e) => InterviewResult("인터뷰 응답 생성 오류: " + e, ErrorMetadata, None, Some(e))
    case Ok(text) =>
      var ai := Strip(text);
      ConfidenceBounds(ai);
      InterviewResult(ai, Metadata(Confidence(ai, false), "인터뷰 응답", UsedTraits("인터뷰", ai), ResponseStyle(ai)),
                      Some(ai), None)
  }

  /** The interview label never names a trait of the question: only personal experience can be reported. */
  lemma InterviewTraits(response: string)
    ensures UsedTraits("인터뷰", response) == if Contains(response, "경험") || Contains(response, "저는") then [ExperienceTrait] else []
  {
    var q := Lower("인터뷰");
    assert |q| == 3 && q[0] == '인' && q[1] == '터' && q[2] == '뷰';
    MissingFirstChar(q, "기술");
    MissingFirstChar(q, "제품");
    MissingFirstChar(q, "브랜드");
    MissingFirstChar(q, "구매");
    MissingFirstChar(q, "소비");
  }

  // ---------------------------------------------------------------- the agent

  /** One stored answer of the history, without its timestamp. */
  datatype HistoryEntry = HistoryEntry(personaId: string, question: string, result: SurveyResult)

  /** `get_response_statistics`; the empty history gives only the total. */
  datatype Statistics =
    | NoResponses
    | Statistics(total: nat, uniquePersonas: nat, averageConfidence: real, surveys: nat, interviews: nat)

  /** The persona ids of the first `n` entries. */
  function PersonaIdSet(history: seq<HistoryEntry>, n: nat): (ids: set<string>)
    requires n <= |history|
    ensures |ids| <= n
    ensures forall i :: 0 <= i < n ==> history[i].personaId in ids
    ensures forall id :: id in ids ==> exists i :: 0 <= i < n && history[i].personaId == id
  {
    if n == 0 then {} else PersonaIdSet(history, n - 1) + {history[n - 1].personaId}
  }

  /** The sum of the first `n` stored confidences, in hundredths. */
  function ConfidenceSum(history: seq<HistoryEntry>, n: nat): int
    requires n <= |history|
  {
    if n == 0 then 0 else ConfidenceSum(history, n - 1) + history[n - 1].result.metadata.confidence
  }

  /** Confidences in 30 .. 100 sum to between 30 and 100 per entry. */
  lemma {:induction false} ConfidenceSumBounds(history: seq<HistoryEntry>, n: nat)
    requires n <= |history|
    requires forall i :: 0 <= i < |history| ==> 30 <= history[i].result.metadata.confidence <= 100
    ensures 30 * n <= ConfidenceSum(history, n) <= 100 * n
  {
    if n > 0 {
      ConfidenceSumBounds(history, n - 1);
    }
  }

  /** A mean of hundredths that each lie in 30 .. 100 lies in 0.30 .. 1.00. */
  lemma AverageInRange(sum: int, n: nat)
    requires n > 0 && 30 * n <= sum <= 100 * n
    ensures 0.3 <= (sum as real) / (100 * n) as real <= 1.0
  {
    var d := (100 * n) as real;
    var x := sum as real;
    assert 0.3 * d <= x <= d;
    QuotientBounds(x, d);
  }

  lemma QuotientBounds(x: real, d: real)
    requires d > 0.0 && 0.3 * d <= x <= d
    ensures 0.3 <= x / d <= 1.0
  {
    var q := x / d;
    assert q * d == x;
    if q < 0.3 {
      ScaleStrict(q, 0.3, d);
    }
    if q > 1.0 {
      ScaleStrict(1.0, q, d);
    }
  }

  lemma ScaleStrict(a: real, b: real, d: real)
    requires a < b && d > 0.0
    ensures a * d < b * d
  {
  }

  class EnhancedAIAgent {
    var responseHistory: seq<HistoryEntry>

    /** Every stored answer came from a successful call, so its confidence lies in 30 .. 100. */
    ghost predicate Valid()
      reads this
    {
      forall i :: 0 <= i < |responseHistory| ==>
        responseHistory[i].result.error.None? && 30 <= responseHistory[i].result.metadata.confidence <= 100
    }

    /** A new agent has an empty history; the API key and client are not modelled. */
    constructor()
      ensures responseHistory == [] && Valid()
    {
      responseHistory := [];
    }

    /**
     * `generate_enhanced_survey_response` as call `k`: the result of the
     * reply, which is appended to the history on success only.
     */
    method GenerateEnhancedSurveyResponse(p: Persona, question: string, questionType: string, lo: int, hi: int,
                                          context: string, options: seq<string>, k: nat, backend: Oracle,
                                          hashOf: string -> int)
      returns (result: SurveyResult)
      requires Valid()
      modifies this
      ensures result == SurveyResultOf(question, questionType, lo, hi,
                                       backend(k, SurveyRequest(p, question, questionType, lo, hi, context, options, hashOf)))
      ensures responseHistory == old(responseHistory)
                                 + if result.error.None? then [HistoryEntry(p.id, question, result)] else []
      ensures Valid()
    {
      result := SurveyCall(p, question, questionType, lo, hi, context, options, k, backend, hashOf);
      Record(p.id, question, result);
    }

    /** The call itself: the request goes out as call `k`, and its reply is turned into a result. */
    static method SurveyCall(p: Persona, question: string, questionType: string, lo: int, hi: int,
                             context: string, options: seq<string>, k: nat, backend: Oracle, hashOf: string -> int)
      returns (result: SurveyResult)
      ensures result == SurveyResultOf(question, questionType, lo, hi,
                                       backend(k, SurveyRequest(p, question, questionType, lo, hi, context, options, hashOf)))
    {
      var reply := backend(k, SurveyRequest(p, question, questionType, lo, hi, context, options, hashOf));
      result := SurveyFromReply(question, questionType, lo, hi, reply);
    }

    /** `response_history.append(...)`, done only for a successful call. */
    method Record(personaId: string, question: string, result: SurveyResult)
      requires Valid()
      requires result.error.None? ==> 30 <= result.metadata.confidence <= 100
      modifies this
      ensures responseHistory == old(responseHistory)
                                 + if result.error.None? then [HistoryEntry(personaId, question, result)] else []
      ensures Valid()
    {
      if result.error.None? {
        responseHistory := responseHistory + [HistoryEntry(personaId, question, result)];
      }
    }

    /** The work after the call returns: parse the reply and compute its metadata. */
    static method SurveyFromReply(question: string, questionType: string, lo: int, hi: int, reply: Reply)
      returns (result: SurveyResult)
      ensures result == SurveyResultOf(question, questionType, lo, hi, reply)
    {
      match reply
      case Err(e) =>
        result := SurveyResult("응답 생성 오류: " + e, Some(MidScale(lo, hi)), "시스템 오류로 인한 기본 응답",
                               ErrorMetadata, None, Some(e));
      case Ok(text) =>
        var ai := Strip(text);
        var parsed := ParseSurveyResponse(ai, questionType, lo, hi);
        var confidence := CalculateConfidence(ai, parsed.score.Some?);
        var traits := ExtractUsedTraits(question, ai);
        var metadata := Metadata(confidence, parsed.reasoning, traits, ResponseStyle(ai));
        result := SurveyResult(parsed.response, parsed.score, parsed.reasoning, metadata, Some(ai), None);
    }

    /** `generate_enhanced_interview_response` as call `k`; the history is not touched. */
    method GenerateEnhancedInterviewResponse(p: Persona, questions: seq<string>, style: string, context: string,
                                             k: nat, backend: Oracle, hashOf: string -> int)
      returns (result: InterviewResult)
      ensures result == InterviewResultOf(backend(k, InterviewRequest(p, questions, style, context, hashOf)))
    {
      var reply := backend(k, InterviewRequest(p, questions, style, context, hashOf));
      match reply
      case Err(e) =>
        result := InterviewResult("인터뷰 응답 생성 오류: " + e, ErrorMetadata, None, Some(e));
      case Ok(text) =>
        var ai := Strip(text);
        var confidence := CalculateConfidence(ai, false);
        var traits := ExtractUsedTraits("인터뷰", ai);
        result := InterviewResult(ai, Metadata(confidence, "인터뷰 응답", traits, ResponseStyle(ai)), Some(ai), None);
    }

    /**
     * `get_response_statistics`. Every stored result is a survey result,
     * which always has a `score` key, so all entries count as surveys and
     * none as interviews. The average of valid entries lies in 0.30 .. 1.00.
     */
    method GetResponseStatistics() returns (stats: Statistics)
      ensures responseHistory == [] ==> stats == NoResponses
      ensures responseHistory != [] ==>
                stats == Statistics(|responseHistory|, |PersonaIdSet(responseHistory, |responseHistory|)|,
                                    (ConfidenceSum(responseHistory, |responseHistory|) as real)
                                      / (100 * |responseHistory|) as real,
                                    |responseHistory|, 0)
      ensures responseHistory != [] ==> 1 <= stats.uniquePersonas <= stats.total
      ensures responseHistory != [] && Valid() ==> 0.3 <= stats.averageConfidence <= 1.0
    {
      var history := responseHistory;
      if history == [] {
        return NoResponses;
      }
      var n := |history|;
      var sum := 0;
      for i := 0 to n
        invariant sum == ConfidenceSum(history, i)
      {
        sum := sum + history[i].result.metadata.confidence;
      }
      var ids := PersonaIdSet(history, n);
      assert history[0].personaId in ids;
      var average := (sum as real) / (100 * n) as real;
      if Valid() {
        ConfidenceSumBounds(history, n);
        AverageInRange(sum, n);
      }
      stats := Statistics(n, |ids|, average, n, 0);
    }
  }
}
