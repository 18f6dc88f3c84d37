/**
 * The survey web application's logic (app.py): the cost estimate of a survey
 * run, the four-step research wizard whose state lives in the session map,
 * and the age and gender tallies of the selected audience.
 */
module App {
  import opened Wrappers
  import opened Text
  import opened PyValues

  // ---------------------------------------------------------------- cost estimate

  datatype CostEstimate = CostEstimate(inputTokens: int, outputTokens: int,
                                       inputCost: real, outputCost: real, totalCost: real)

  /** 200 input and 50 output tokens per answer; $0.03 and $0.06 per thousand tokens. */
  function EstimatedCost(numRespondents: int, numQuestions: int): (c: CostEstimate)
    ensures c.inputTokens == 4 * c.outputTokens
    ensures c.totalCost == c.inputCost + c.outputCost
  {
    var inputTokens := numRespondents * numQuestions * 200;
    var outputTokens := numRespondents * numQuestions * 50;
    var inputCost := (inputTokens as real / 1000.0) * 0.03;
    var outputCost := (outputTokens as real / 1000.0) * 0.06;
    CostEstimate(inputTokens, outputTokens, inputCost, outputCost, inputCost + outputCost)
  }

  /**
   * Every answer costs 250 tokens and $0.009, two thirds of it for the input;
   * the estimate grows with each count.
   */
  lemma {:induction false} CostPerAnswer(numRespondents: int, numQuestions: int)
    ensures var c := EstimatedCost(numRespondents, numQuestions);
      && c.inputTokens + c.outputTokens == 250 * (numRespondents * numQuestions)
      && c.totalCost == 0.009 * (numRespondents * numQuestions) as real
      && c.inputCost == 2.0 * c.outputCost
  {
    var answers := numRespondents * numQuestions;
    assert numRespondents * numQuestions * 200 == answers * 200;
    assert numRespondents * numQuestions * 50 == answers * 50;
    assert (answers * 200) as real == 200.0 * answers as real;
    assert (answers * 50) as real == 50.0 * answers as real;
  }

  /** One more respondent never lowers the estimate. */
  lemma CostMonotone(numRespondents: nat, numQuestions: nat)
    ensures EstimatedCost(numRespondents, numQuestions).totalCost
         <= EstimatedCost(numRespondents + 1, numQuestions).totalCost
  {
    CostPerAnswer(numRespondents, numQuestions);
    CostPerAnswer(numRespondents + 1, numQuestions);
    assert (numRespondents + 1) * numQuestions == numRespondents * numQuestions + numQuestions;
  }

  // ---------------------------------------------------------------- the session

  /** A session value: text, a number, a list (by its length) or anything else. */
  datatype Entry = Text(s: string) | Number(n: int) | Items(size: nat) | Other

  /** Python's `bool(v)` for a session value. */
  predicate Filled(e: Entry) {
    match e
    case Text(s) => s != ""
    case Number(n) => n != 0
    case Items(size) => size > 0
    case Other => true
  }

  type Session = map<string, Entry>

  const ResetKeys: seq<string> := ["research_title", "research_objective", "step", "selected_personas",
                                   "survey_questions", "survey_results", "current_question"]

  /** The session after `reset_session_state`. */
  function Reset(m: Session): Session {
    map k | k in m && k !in ResetKeys :: m[k]
  }

  /** The wizard shows step `n`. */
  predicate StepIs(m: Session, n: int) {
    "step" in m && m["step"] == Number(n)
  }

  /** A reset removes exactly the seven wizard keys and keeps every other key and its value. */
  lemma ResetFacts(m: Session, k: string)
    ensures k in Reset(m) <==> k in m && k !in ResetKeys
    ensures k in Reset(m) ==> Reset(m)[k] == m[k]
    ensures Reset(Reset(m)) == Reset(m)
  {
    assert Reset(Reset(m)).Keys == Reset(m).Keys;
  }

  /** The login state, the page and the role survive a reset. */
  lemma ResetKeepsLogin(m: Session)
    ensures forall k :: k in ["authenticated", "page", "user_role", "user_id"] ==>
      (k in Reset(m) <==> k in m) && (k in m ==> Reset(m)[k] == m[k])
  {
  }

  // ---------------------------------------------------------------- wizard transitions

  /** The research title and objective are filled in whenever the wizard is past step 1. */
  predicate Described(m: Session) {
    "research_title" in m && Filled(m["research_title"])
    && "research_objective" in m && Filled(m["research_objective"])
  }

  /**
   * The states the wizard can reach: the step is 1 to 4; past step 1 the
   * research is described; from step 3 an audience is selected; at step 4
   * there are results. A stored selection is never empty.
   */
  predicate Reachable(m: Session) {
    && ("step" in m ==> m["step"].Number? && 1 <= m["step"].n <= 4)
    && ("selected_personas" in m ==> m["selected_personas"].Items? && m["selected_personas"].size > 0)
    && (StepIs(m, 2) || StepIs(m, 3) || StepIs(m, 4) ==> Described(m))
    && (StepIs(m, 3) || StepIs(m, 4) ==> "selected_personas" in m)
    && (StepIs(m, 4) ==> "survey_results" in m && Filled(m["survey_results"]))
  }

  /** The step a page sees: a session without one starts at step 1. */
  function Started(m: Session): (r: Session)
    ensures "step" in r
  {
    if "step" in m then m else m["step" := Number(1)]
  }

  /** Step 1: the inputs are stored, and "next" moves on only with a title and an objective. */
  function DescribeNext(m: Session, title: string, objective: string): Session {
    var stored := m["research_title" := Text(title)]["research_objective" := Text(objective)];
    if title != "" && objective != "" then stored["step" := Number(2)] else stored
  }

  /**
   * Step 2: "filter" with `matched` personas passing the criteria. Without a
   * match the session is left as it was (the page only warns); otherwise the
   * selection is stored, cut down to `maxRespondents` by `random.sample` (by
   * their number).
   */
  function SelectPersonas(m: Session, matched: nat, maxRespondents: nat): Session {
    if matched == 0 then m
    else m["selected_personas" := Items(if matched > maxRespondents then maxRespondents else matched)]
  }

  /** Step 2: "next" moves on only once personas are selected. */
  function AudienceNext(m: Session): Session {
    if "selected_personas" in m then m["step" := Number(3)] else m
  }

  /** Step 3: the question list starts empty. */
  function SurveyOpened(m: Session): Session {
    if "survey_questions" in m then m else m["survey_questions" := Items(0)]
  }

  /** Step 3: the question list after adding or removing questions (by their number). */
  function SetQuestions(m: Session, count: nat): Session {
    m["survey_questions" := Items(count)]
  }

  /**
   * Step 3: "run" with questions and selected personas runs the survey; a
   * result with rows is stored as a one-element list and the wizard moves to
   * step 4. `resultRows` is the number of rows of the result, `None` for none.
   */
  function RunSurvey(m: Session, resultRows: Option<nat>): Session
    requires "survey_questions" in m
  {
    if Filled(m["survey_questions"]) && "selected_personas" in m && resultRows.Some? && resultRows.value > 0
    then m["survey_results" := Items(1)]["step" := Number(4)]
    else m
  }

  /** Step 4 without results: the wizard goes back to the survey. */
  function NoResultsBack(m: Session): Session {
    if "survey_results" !in m || !Filled(m["survey_results"]) then m["step" := Number(3)] else m
  }

  /** "Back" on step 2 or 3. */
  function Back(m: Session, to: int): Session {
    m["step" := Number(to)]
  }

  /** Step 4: "new research" clears the wizard and starts again at step 1. */
  function NewResearch(m: Session): Session {
    Reset(m)["step" := Number(1)]
  }

  /** A new session is reachable. */
  lemma StartReachable(m: Session)
    requires Reachable(m)
    ensures Reachable(Started(m)) && Started(m)["step"].Number?
    ensures 1 <= Started(m)["step"].n <= 4
  {
  }

  /** Step 1 moves to step 2 exactly when both a title and an objective are given. */
  lemma DescribeGuarded(m: Session, title: string, objective: string)
    requires Reachable(m) && StepIs(m, 1)
    ensures Reachable(DescribeNext(m, title, objective))
    ensures StepIs(DescribeNext(m, title, objective), 2) <==> title != "" && objective != ""
    ensures !StepIs(DescribeNext(m, title, objective), 2) ==> StepIs(DescribeNext(m, title, objective), 1)
  {
  }

  /**
   * A filter that matches nobody changes nothing, so an earlier selection
   * survives it; a match stores between one and `maxRespondents` personas (the
   * slider's least value is 1). Step 2 moves to step 3 exactly when personas
   * are selected.
   */
  lemma AudienceGuarded(m: Session, matched: nat, maxRespondents: nat)
    requires Reachable(m) && StepIs(m, 2) && maxRespondents >= 1
    ensures Reachable(SelectPersonas(m, matched, maxRespondents))
    ensures StepIs(SelectPersonas(m, matched, maxRespondents), 2)
    ensures matched == 0 ==> SelectPersonas(m, matched, maxRespondents) == m
    ensures matched > 0 ==> var r := SelectPersonas(m, matched, maxRespondents);
      "selected_personas" in r && r["selected_personas"].Items?
      && r["selected_personas"].size <= maxRespondents && r["selected_personas"].size <= matched
      && (matched <= maxRespondents ==> r["selected_personas"].size == matched)
    ensures Reachable(AudienceNext(m))
    ensures StepIs(AudienceNext(m), 3) <==> "selected_personas" in m
    ensures !StepIs(AudienceNext(m), 3) ==> AudienceNext(m) == m
  {
  }

  /**
   * Step 3 moves to step 4 exactly when there are questions, selected personas
   * and a result with rows; otherwise nothing changes.
   */
  lemma SurveyGuarded(m: Session, count: nat, resultRows: Option<nat>)
    requires Reachable(m) && StepIs(m, 3)
    ensures Reachable(SurveyOpened(m)) && StepIs(SurveyOpened(m), 3)
    ensures Reachable(SetQuestions(m, count)) && StepIs(SetQuestions(m, count), 3)
    ensures "survey_questions" in m ==> Reachable(RunSurvey(m, resultRows))
    ensures "survey_questions" in m ==>
      (StepIs(RunSurvey(m, resultRows), 4) <==>
         Filled(m["survey_questions"]) && resultRows.Some? && resultRows.value > 0)
    ensures "survey_questions" in m && !StepIs(RunSurvey(m, resultRows), 4) ==> RunSurvey(m, resultRows) == m
  {
  }

  /** The back buttons go from step 2 to 1 and from step 3 to 2, and step 4 goes back only without results. */
  lemma BackReachable(m: Session)
    requires Reachable(m)
    ensures StepIs(m, 2) ==> Reachable(Back(m, 1)) && StepIs(Back(m, 1), 1)
    ensures StepIs(m, 3) ==> Reachable(Back(m, 2)) && StepIs(Back(m, 2), 2)
    ensures StepIs(m, 4) ==> NoResultsBack(m) == m
  {
  }

  /** "New research" leaves a reachable step-1 session with no wizard data. */
  lemma NewResearchFacts(m: Session, k: string)
    ensures Reachable(NewResearch(m)) && StepIs(NewResearch(m), 1)
    ensures k in ResetKeys && k != "step" ==> k !in NewResearch(m)
    ensures k !in ResetKeys ==> (k in NewResearch(m) <==> k in m)
    ensures k !in ResetKeys && k in m ==> NewResearch(m)[k] == m[k]
  {
    ResetFacts(m, k);
  }

  // ---------------------------------------------------------------- the session object

  /** `st.session_state` as the wizard's pages change it. */
  class Wizard {
    var state: Session

    constructor (initial: Session)
      ensures state == initial
    {
      state := initial;
    }

    /** `reset_session_state`: each wizard key that is present is deleted. */
    method ResetSessionState()
      modifies this
      ensures state == Reset(old(state))
    {
      ghost var before := state;
      for i := 0 to |ResetKeys|
        invariant state == map k | k in before && k !in ResetKeys[..i] :: before[k]
      {
        var key := ResetKeys[i];
        if key in state {
          state := state - {key};
        }
        assert ResetKeys[..i + 1] == ResetKeys[..i] + [key];
      }
      assert ResetKeys[..|ResetKeys|] == ResetKeys;
    }

    /** The page dispatch starts a session without a step at step 1. */
    method Start()
      modifies this
      ensures state == Started(old(state))
    {
      if "step" !in state {
        state := state["step" := Number(1)];
      }
    }

    method Describe(title: string, objective: string) returns (warned: bool)
      modifies this
      ensures state == DescribeNext(old(state), title, objective)
      ensures warned <==> title == "" || objective == ""
    {
      state := state["research_title" := Text(title)];
      state := state["research_objective" := Text(objective)];
      if title != "" && objective != "" {
        state := state["step" := Number(2)];
        warned := false;
      } else {
        warned := true;
      }
    }

    method ChooseAudience(matched: nat, maxRespondents: nat) returns (warned: bool)
      modifies this
      ensures state == SelectPersonas(old(state), matched, maxRespondents)
      ensures warned <==> matched == 0
    {
      if matched > 0 {
        var size := matched;
        if size > maxRespondents {
          size := maxRespondents;
        }
        state := state["selected_personas" := Items(size)];
        warned := false;
      } else {
        warned := true;
      }
    }

    method ConfirmAudience() returns (warned: bool)
      modifies this
      ensures state == AudienceNext(old(state))
      ensures warned <==> "selected_personas" !in old(state)
    {
      if "selected_personas" in state {
        state := state["step" := Number(3)];
        warned := false;
      } else {
        warned := true;
      }
    }

    method OpenSurvey()
      modifies this
      ensures state == SurveyOpened(old(state))
    {
      if "survey_questions" !in state {
        state := state["survey_questions" := Items(0)];
      }
    }

    method EditQuestions(count: nat)
      modifies this
      ensures state == SetQuestions(old(state), count)
    {
      state := state["survey_questions" := Items(count)];
    }

    method Run(resultRows: Option<nat>) returns (warned: bool)
      requires "survey_questions" in state
      modifies this
      ensures state == RunSurvey(old(state), resultRows)
      ensures warned <==> !Filled(old(state)["survey_questions"]) || "selected_personas" !in old(state)
    {
      warned := false;
      if Filled(state["survey_questions"]) && "selected_personas" in state {
        if resultRows.Some? && resultRows.value > 0 {
          state := state["survey_results" := Items(1)];
          state := state["step" := Number(4)];
        }
      } else {
        warned := true;
      }
    }

    method GoBack(to: int)
      modifies this
      ensures state == Back(old(state), to)
    {
      state := state["step" := Number(to)];
    }

    method BackToSurvey()
      modifies this
      ensures state == NoResultsBack(old(state))
    {
      if "survey_results" !in state || !Filled(state["survey_results"]) {
        state := state["step" := Number(3)];
      }
    }

    method StartNewResearch()
      modifies this
      ensures state == NewResearch(old(state))
    {
      ResetSessionState();
      state := state["step" := Number(1)];
    }
  }

  // ---------------------------------------------------------------- the audience summary

  const AgeBuckets: seq<string> := ["18-29", "30-49", "50-64", "65+"]
  const GenderBuckets: seq<string> := ["Male", "Female"]

  function AgeTag(bucket: string): string {
    "Age: " + bucket
  }

  function GenderTag(bucket: string): string {
    "Gender: " + bucket
  }

  /** The first age tag the summary contains, in the order the `elif` chain tests them. */
  function AgeOf(summary: string): (r: Option<string>)
    ensures r.Some? ==> r.value in AgeBuckets && Contains(summary, AgeTag(r.value))
    ensures r.None? <==> forall b :: b in AgeBuckets ==> !Contains(summary, AgeTag(b))
  {
    if Contains(summary, AgeTag("18-29")) then Some("18-29")
    else if Contains(summary, AgeTag("30-49")) then Some("30-49")
    else if Contains(summary, AgeTag("50-64")) then Some("50-64")
    else if Contains(summary, AgeTag("65+")) then Some("65+")
    else None
  }

  /** The first gender tag the summary contains. */
  function GenderOf(summary: string): (r: Option<string>)
    ensures r.Some? ==> r.value in GenderBuckets && Contains(summary, GenderTag(r.value))
    ensures r.None? <==> forall b :: b in GenderBuckets ==> !Contains(summary, GenderTag(b))
  {
    if Contains(summary, GenderTag("Male")) then Some("Male")
    else if Contains(summary, GenderTag("Female")) then Some("Female")
    else None
  }

  /** A summary counts in an age bucket only when it has none of the tags tested before it. */
  lemma AgeFirstMatch(summary: string, j: nat, i: nat)
    requires i < j < |AgeBuckets| && AgeOf(summary) == Some(AgeBuckets[j])
    ensures !Contains(summary, AgeTag(AgeBuckets[i]))
  {
  }

  /** `dist[bucket] += 1` for the bucket found, if any. */
  function Bump(dist: map<string, nat>, found: Option<string>): (r: map<string, nat>)
    ensures r.Keys == dist.Keys || (found.Some? && r.Keys == dist.Keys + {found.value})
    ensures forall b :: b in dist ==> b in r && r[b] == dist[b] + (if found == Some(b) then 1 else 0)
  {
    if found.Some? && found.value in dist then dist[found.value := dist[found.value] + 1] else dist
  }

  /** `row.get('persona_summary', '')` of a dataset row; a value that is not text counts as empty. */
  function SummaryOf(row: Dict<Value>): string {
    match GetOr(row, "persona_summary", VStr(""))
    case VStr(s) => s
    case _ => ""
  }

  /** How many of the first `n` selected rows the classifier puts in `bucket`. */
  function Tally(rows: seq<Dict<Value>>, selected: seq<nat>, classify: string -> Option<string>,
                 n: nat, bucket: string): nat
    requires n <= |selected| && forall i :: 0 <= i < |selected| ==> selected[i] < |rows|
  {
    if n == 0 then 0
    else (Tally(rows, selected, classify, n - 1, bucket)
          + if classify(SummaryOf(rows[selected[n - 1]])) == Some(bucket) then 1 else 0)
  }

  /** Each selected row is counted in at most one of two different buckets. */
  lemma {:induction false} TallyPair(rows: seq<Dict<Value>>, selected: seq<nat>, classify: string -> Option<string>,
                                     n: nat, a: string, b: string)
    requires n <= |selected| && forall i :: 0 <= i < |selected| ==> selected[i] < |rows|
    requires a != b
    ensures Tally(rows, selected, classify, n, a) + Tally(rows, selected, classify, n, b) <= n
  {
    if n > 0 {
      TallyPair(rows, selected, classify, n - 1, a, b);
    }
  }

  /** Each selected row is counted in at most one of four different buckets. */
  lemma {:induction false} TallyFour(rows: seq<Dict<Value>>, selected: seq<nat>, classify: string -> Option<string>,
                                     n: nat, a: string, b: string, c: string, d: string)
    requires n <= |selected| && forall i :: 0 <= i < |selected| ==> selected[i] < |rows|
    requires a != b && a != c && a != d && b != c && b != d && c != d
    ensures Tally(rows, selected, classify, n, a) + Tally(rows, selected, classify, n, b)
          + Tally(rows, selected, classify, n, c) + Tally(rows, selected, classify, n, d) <= n
  {
    if n > 0 {
      TallyFour(rows, selected, classify, n - 1, a, b, c, d);
    }
  }

  /** The age `elif` chain for one summary. */
  method CountAge(ageDist: map<string, nat>, summary: string) returns (r: map<string, nat>)
    requires ageDist.Keys == {"18-29", "30-49", "50-64", "65+"}
    ensures r == Bump(ageDist, AgeOf(summary))
  {
    r := ageDist;
    if Contains(summary, AgeTag("18-29")) {
      r := r["18-29" := r["18-29"] + 1];
    } else if Contains(summary, AgeTag("30-49")) {
      r := r["30-49" := r["30-49"] + 1];
    } else if Contains(summary, AgeTag("50-64")) {
      r := r["50-64" := r["50-64"] + 1];
    } else if Contains(summary, AgeTag("65+")) {
      r := r["65+" := r["65+"] + 1];
    }
  }

  /** The gender `elif` chain for one summary. */
  method CountGender(genderDist: map<string, nat>, summary: string) returns (r: map<string, nat>)
    requires genderDist.Keys == {"Male", "Female"}
    ensures r == Bump(genderDist, GenderOf(summary))
  {
    r := genderDist;
    if Contains(summary, GenderTag("Male")) {
      r := r["Male" := r["Male"] + 1];
    } else if Contains(summary, GenderTag("Female")) {
      r := r["Female" := r["Female"] + 1];
    }
  }

  /** Each bucket of `dist` holds the tally of the first `n` selected rows. */
  predicate Tallied(dist: map<string, nat>, rows: seq<Dict<Value>>, selected: seq<nat>,
                    classify: string -> Option<string>, n: nat)
    requires n <= |selected| && forall i :: 0 <= i < |selected| ==> selected[i] < |rows|
  {
    forall b :: b in dist ==> dist[b] == Tally(rows, selected, classify, n, b)
  }

  /** Counting one more row keeps the buckets and the tallies. */
  lemma BumpTally(dist: map<string, nat>, rows: seq<Dict<Value>>, selected: seq<nat>,
                  classify: string -> Option<string>, n: nat)
    requires n < |selected| && forall i :: 0 <= i < |selected| ==> selected[i] < |rows|
    requires Tallied(dist, rows, selected, classify, n)
    requires var found := classify(SummaryOf(rows[selected[n]])); found.Some? ==> found.value in dist
    ensures Bump(dist, classify(SummaryOf(rows[selected[n]]))).Keys == dist.Keys
    ensures Tallied(Bump(dist, classify(SummaryOf(rows[selected[n]]))), rows, selected, classify, n + 1)
  {
  }

  /** The age and gender tallies of the selected rows. */
  method AudienceSummary(rows: seq<Dict<Value>>, selected: seq<nat>)
    returns (ageDist: map<string, nat>, genderDist: map<string, nat>)
    requires forall i :: 0 <= i < |selected| ==> selected[i] < |rows|
    ensures ageDist.Keys == {"18-29", "30-49", "50-64", "65+"}
    ensures genderDist.Keys == {"Male", "Female"}
    ensures forall b :: b in ageDist ==> ageDist[b] == Tally(rows, selected, AgeOf, |selected|, b)
    ensures forall b :: b in genderDist ==> genderDist[b] == Tally(rows, selected, GenderOf, |selected|, b)
  {
    ageDist := map["18-29" := 0, "30-49" := 0, "50-64" := 0, "65+" := 0];
    genderDist := map["Male" := 0, "Female" := 0];
    for i := 0 to |selected|
      invariant ageDist.Keys == {"18-29", "30-49", "50-64", "65+"}
      invariant genderDist.Keys == {"Male", "Female"}
      invariant Tallied(ageDist, rows, selected, AgeOf, i)
      invariant Tallied(genderDist, rows, selected, GenderOf, i)
    {
      var summary := SummaryOf(rows[selected[i]]);
      BumpTally(ageDist, rows, selected, AgeOf, i);
      BumpTally(genderDist, rows, selected, GenderOf, i);
      ageDist := CountAge(ageDist, summary);
      genderDist := CountGender(genderDist, summary);
    }
  }

  /** The bucket totals never exceed the number of selected personas. */
  lemma AudienceBounded(rows: seq<Dict<Value>>, selected: seq<nat>)
    requires forall i :: 0 <= i < |selected| ==> selected[i] < |rows|
    ensures Tally(rows, selected, AgeOf, |selected|, "18-29") + Tally(rows, selected, AgeOf, |selected|, "30-49")
          + Tally(rows, selected, AgeOf, |selected|, "50-64") + Tally(rows, selected, AgeOf, |selected|, "65+")
         <= |selected|
    ensures Tally(rows, selected, GenderOf, |selected|, "Male") + Tally(rows, selected, GenderOf, |selected|, "Female")
         <= |selected|
  {
    TallyFour(rows, selected, AgeOf, |selected|, "18-29", "30-49", "50-64", "65+");
    TallyPair(rows, selected, GenderOf, |selected|, "Male", "Female");
  }
}
