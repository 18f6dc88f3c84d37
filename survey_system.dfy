/**
 * The structured survey of the command-line tool: a survey is a titled list
 * of questions, each answered on a 1..7 scale; a run asks every persona every
 * question through the agent, annotates each answer with the survey title
 * and the question's id and category, and keeps the run's answers; the
 * statistics group the answers by question id.
 */
module SurveySystem {
  import opened Wrappers
  import opened Text
  import opened PyValues
  import Backend
  import Grid
  import ScoreStats
  import DatasetLoader
  import AIAgent

  type Persona = DatasetLoader.Persona

  /** The scale every question gets unless another is given. */
  const DefaultScale := "1(전혀 동의하지 않음) ~ 7(매우 동의함)"

  /** `SurveyQuestion`. */
  datatype SurveyQuestion = SurveyQuestion(questionId: string, text: string, scaleDescription: string,
                                           category: Option<string>)

  /**
   * One entry of a survey file's `questions`: the text, and the optional
   * `question_id`, `scale_description` and `category` (`None` where the key
   * is absent).
   */
  datatype QuestionData = QuestionData(text: string, questionId: Option<string>, scaleDescription: Option<string>,
                                       category: Option<string>)

  /** A survey file, or `Survey.to_dict` without its timestamp. */
  datatype SurveyData = SurveyData(title: string, description: Option<string>, questions: seq<QuestionData>)

  // ---------------------------------------------------------------- question ids

  /** The id a question gets: the given one, else `prefix` followed by the count after insertion. */
  function AssignedId(prefix: string, given: Option<string>, count: nat): (id: string)
    ensures given.Some? ==> id == given.value
    ensures given.None? ==> id == prefix + NatToString(count + 1)
  {
    if given.Some? then given.value else prefix + NatToString(count + 1)
  }

  /** Generated ids of different positions differ. */
  lemma GeneratedIdsDiffer(prefix: string, m: nat, n: nat)
    requires m != n
    ensures AssignedId(prefix, None, m) != AssignedId(prefix, None, n)
  {
    if AssignedId(prefix, None, m) == AssignedId(prefix, None, n) {
      assert NatToString(m + 1) == AssignedId(prefix, None, m)[|prefix|..];
      assert NatToString(n + 1) == AssignedId(prefix, None, n)[|prefix|..];
      NatToStringInjective(m + 1, n + 1);
    }
  }

  /**
   * An explicit id is not checked against the generated ones: a question
   * given the id `Q2` followed by one without an id leaves two questions
   * with the id `Q2`.
   */
  lemma ExplicitIdCanRepeat()
    ensures AssignedId("Q", Some("Q2"), 0) == AssignedId("Q", None, 1)
  {
    assert NatToString(2) == "2";
  }

  // ---------------------------------------------------------------- survey

  /** A question as `add_question` stores it when it is the survey's `k`-th. */
  function Added(text: string, questionId: Option<string>, scale: string, category: Option<string>, k: nat)
    : SurveyQuestion
  {
    SurveyQuestion(AssignedId("Q", questionId, k), text, scale, category)
  }

  /** A loaded entry as the survey's `k`-th question; a missing scale is the default one. */
  function LoadedQuestion(qd: QuestionData, k: nat): SurveyQuestion {
    Added(qd.text, qd.questionId, qd.scaleDescription.GetOr(DefaultScale), qd.category, k)
  }

  /** The questions after loading the first `n` entries of a file. */
  function Loaded(qds: seq<QuestionData>, n: nat): (qs: seq<SurveyQuestion>)
    requires n <= |qds|
    ensures |qs| == n
  {
    seq(n, k requires 0 <= k < n => LoadedQuestion(qds[k], k))
  }

  /** `SurveyQuestion.to_dict`: every field written out, so the id and scale are present. */
  function QuestionDict(q: SurveyQuestion): QuestionData {
    QuestionData(q.text, Some(q.questionId), Some(q.scaleDescription), q.category)
  }

  /** `Survey`: a title, a description and the questions in insertion order. */
  class Survey {
    var title: string
    var description: string
    var questions: seq<SurveyQuestion>

    constructor(title: string, description: string)
      ensures this.title == title && this.description == description && questions == []
    {
      this.title := title;
      this.description := description;
      questions := [];
    }

    /**
     * `add_question`: the question goes at the end, with the given id or
     * `Q` followed by the number of questions after insertion.
     */
    method AddQuestion(text: string, questionId: Option<string>, scale: string, category: Option<string>)
      modifies this
      ensures questions == old(questions) + [SurveyQuestion(AssignedId("Q", questionId, |old(questions)|), text,
                                                            scale, category)]
      ensures title == old(title) && description == old(description)
    {
      var id := if questionId.None? then "Q" + NatToString(|questions| + 1) else questionId.value;
      questions := questions + [SurveyQuestion(id, text, scale, category)];
    }

    /** `to_dict` without `created_at`: the title, the description and the questions in order. */
    function ToDict(): (d: SurveyData)
      reads this
      ensures d.title == title && d.description == Some(description) && |d.questions| == |questions|
    {
      var qs := questions;
      SurveyData(title, Some(description), seq(|qs|, k requires 0 <= k < |qs| => QuestionDict(qs[k])))
    }
  }

  /**
   * Loading what `to_dict` wrote gives the survey back: the same title and
   * description, and the same questions in the same order, ids included.
   */
  lemma ToDictRoundTrip(s: Survey)
    ensures Loaded(s.ToDict().questions, |s.questions|) == s.questions
    ensures s.ToDict().title == s.title && s.ToDict().description.GetOr("") == s.description
  {
    var d := s.ToDict();
    forall k | 0 <= k < |s.questions|
      ensures Loaded(d.questions, |s.questions|)[k] == s.questions[k]
    {
      assert d.questions[k] == QuestionDict(s.questions[k]);
    }
  }

  /** Loading entries without ids numbers them `Q1`, `Q2`, … in file order, so no two share an id. */
  lemma LoadedIdsDistinct(qds: seq<QuestionData>)
    requires forall k :: 0 <= k < |qds| ==> qds[k].questionId.None?
    ensures forall k :: 0 <= k < |qds| ==> Loaded(qds, |qds|)[k].questionId == "Q" + NatToString(k + 1)
    ensures forall k, l :: 0 <= k < l < |qds| ==> Loaded(qds, |qds|)[k].questionId != Loaded(qds, |qds|)[l].questionId
  {
    forall k, l | 0 <= k < l < |qds|
      ensures Loaded(qds, |qds|)[k].questionId != Loaded(qds, |qds|)[l].questionId
    {
      GeneratedIdsDiffer("Q", k, l);
    }
  }

  // ---------------------------------------------------------------- runs

  /** One answer of a run: the agent's answer plus the survey title and the question's id and category. */
  datatype SurveyResponse = SurveyResponse(answer: AIAgent.SurveyAnswer, surveyTitle: string, questionId: string,
                                           category: Option<string>)

  /**
   * Persona `p` (the `i`-th) answering question `q` (the `j`-th of `width`):
   * the agent asked with the question's text and scale as backend call
   * `i * width + j`, its answer annotated with the survey title and the
   * question's id and category.
   */
  function ResponseAt(title: string, width: nat, backend: Backend.Oracle, hashOf: string -> int,
                      i: nat, p: Persona, j: nat, q: SurveyQuestion): SurveyResponse
  {
    var k := Grid.Position(i, j, width);
    SurveyResponse(AIAgent.SurveyAnswerOf(p, q.text, backend(k, AIAgent.SurveyRequest(p, q.text, q.scaleDescription, hashOf))),
                   title, q.questionId, q.category)
  }

  function ResponseCell(title: string, width: nat, backend: Backend.Oracle, hashOf: string -> int)
    : (nat, Persona, nat, SurveyQuestion) -> SurveyResponse
  {
    (i: nat, p: Persona, j: nat, q: SurveyQuestion) => ResponseAt(title, width, backend, hashOf, i, p, j, q)
  }

  /** The answers of a whole run, persona-major. */
  function Run(personas: seq<Persona>, title: string, questions: seq<SurveyQuestion>, backend: Backend.Oracle,
               hashOf: string -> int): seq<SurveyResponse>
  {
    Grid.Rows(personas, questions, ResponseCell(title, |questions|, backend, hashOf), |personas|)
  }

  /**
   * A run holds `|personas| * |questions|` answers, persona-major: the one
   * at `i * |questions| + j` is persona `i`'s answer to question `j`, sent
   * with that question's text and scale, and it carries the survey title
   * and the question's id and category; a failed call leaves only its own
   * answer without a score.
   */
  lemma RunLayout(personas: seq<Persona>, title: string, questions: seq<SurveyQuestion>, backend: Backend.Oracle,
                  hashOf: string -> int)
    ensures var run := Run(personas, title, questions, backend, hashOf);
            |run| == |personas| * |questions|
            && forall i: nat, j: nat | i < |personas| && j < |questions| ::
                 var k := Grid.Position(i, j, |questions|);
                 k < |run|
                 && run[k].answer == AIAgent.SurveyAnswerOf(personas[i], questions[j].text,
                      backend(k, AIAgent.SurveyRequest(personas[i], questions[j].text, questions[j].scaleDescription, hashOf)))
                 && run[k].surveyTitle == title
                 && run[k].questionId == questions[j].questionId
                 && run[k].category == questions[j].category
  {
    Grid.RowsLayout(personas, questions, ResponseCell(title, |questions|, backend, hashOf), |personas|);
  }

  /** The table `_show_response_statistics` prints, one row per question id. */
  datatype StatRow = StatRow(questionId: string, average: real, count: nat, errors: nat)

  /** What the grouping reads of an answer. */
  function ScoredOf(r: SurveyResponse): ScoreStats.Scored {
    ScoreStats.Scored(r.questionId, r.answer.question, r.answer.score)
  }

  function ScoredAll(rs: seq<SurveyResponse>): (s: seq<ScoreStats.Scored>)
    ensures |s| == |rs| && forall k :: 0 <= k < |rs| ==> s[k] == ScoredOf(rs[k])
  {
    seq(|rs|, k requires 0 <= k < |rs| => ScoredOf(rs[k]))
  }

  /** A group's row: the mean of its scores, or 0 when it has none. */
  function StatRowOf(qid: string, t: ScoreStats.Tally): StatRow {
    StatRow(qid, if t.scores == [] then 0.0 else ScoreStats.Mean(t.scores), |t.scores|, t.errors)
  }

  /** The rows for a list of answers, in order of each id's first answer. */
  function Statistics(rs: seq<SurveyResponse>): (rows: seq<StatRow>) {
    var g := ScoreStats.Grouped(ScoredAll(rs), |rs|);
    seq(|g|, k requires 0 <= k < |g| => StatRowOf(g[k].0, g[k].1))
  }

  /** The number of answers with question id `qid`. */
  function AnswersTo(rs: seq<SurveyResponse>, qid: string): nat {
    ScoreStats.Occurrences(ScoredAll(rs), |rs|, qid)
  }

  /**
   * The statistics have one row per question id that was answered, with
   * no id twice, and the row's count and errors add up to the answers
   * with that id.
   */
  lemma StatisticsRows(rs: seq<SurveyResponse>)
    ensures forall qid :: (exists k :: 0 <= k < |Statistics(rs)| && Statistics(rs)[k].questionId == qid)
                          <==> AnswersTo(rs, qid) > 0
    ensures forall k, l :: 0 <= k < l < |Statistics(rs)| ==> Statistics(rs)[k].questionId != Statistics(rs)[l].questionId
    ensures forall k :: 0 <= k < |Statistics(rs)| ==>
              Statistics(rs)[k].count + Statistics(rs)[k].errors == AnswersTo(rs, Statistics(rs)[k].questionId)
  {
    var s := ScoredAll(rs);
    var g := ScoreStats.Grouped(s, |rs|);
    var rows := Statistics(rs);
    ScoreStats.GroupedKeys(s, |rs|);
    ScoreStats.GroupCounts(s);
    assert forall k :: 0 <= k < |g| ==> rows[k].questionId == Keys(g)[k];
    forall qid
      ensures (exists k :: 0 <= k < |rows| && rows[k].questionId == qid) <==> AnswersTo(rs, qid) > 0
    {
      if AnswersTo(rs, qid) > 0 {
        var k := IndexOf(Keys(g), qid);
        assert rows[k].questionId == qid;
      }
    }
  }

  /**
   * A row without scores has average 0; when every score is on the 1..7
   * scale, as every parsed answer's is, any other row's average lies on
   * the scale too.
   */
  lemma StatisticsAverages(rs: seq<SurveyResponse>)
    ensures forall k :: 0 <= k < |Statistics(rs)| && Statistics(rs)[k].count == 0 ==> Statistics(rs)[k].average == 0.0
    ensures (forall k :: 0 <= k < |rs| && rs[k].answer.score.Some? ==> 1 <= rs[k].answer.score.value <= 7) ==>
              forall k :: 0 <= k < |Statistics(rs)| && Statistics(rs)[k].count > 0 ==>
                1.0 <= Statistics(rs)[k].average <= 7.0
  {
    var s := ScoredAll(rs);
    var g := ScoreStats.Grouped(s, |rs|);
    if forall k :: 0 <= k < |rs| && rs[k].answer.score.Some? ==> 1 <= rs[k].answer.score.value <= 7 {
      assert forall k :: 0 <= k < |s| && s[k].score.Some? ==> 1 <= s[k].score.value <= 7;
      forall k | 0 <= k < |g| && g[k].1.scores != []
        ensures 1.0 <= ScoreStats.Mean(g[k].1.scores) <= 7.0
      {
        GroupOnScale(s, k);
      }
    }
  }

  /** A group over scores on the 1..7 scale has its mean on that scale. */
  lemma GroupOnScale(s: seq<ScoreStats.Scored>, k: nat)
    requires forall i :: 0 <= i < |s| && s[i].score.Some? ==> 1 <= s[i].score.value <= 7
    requires k < |ScoreStats.Grouped(s, |s|)| && ScoreStats.Grouped(s, |s|)[k].1.scores != []
    ensures 1.0 <= ScoreStats.Mean(ScoreStats.Grouped(s, |s|)[k].1.scores) <= 7.0
  {
    var g := ScoreStats.Grouped(s, |s|);
    var scores := g[k].1.scores;
    ScoreStats.GroupAt(s, k);
    ScoreStats.ScoresBetween(s, |s|, g[k].0, 1, 7);
    ScoreStats.MeanWithin(scores, 1, 7);
  }

  // ---------------------------------------------------------------- the system

  /** `SurveySystem`: the current survey, if any, and the answers of the last run. */
  class SurveySystem {
    var survey: Option<Survey>
    var responses: seq<SurveyResponse>

    constructor()
      ensures survey.None? && responses == []
    {
      survey := None;
      responses := [];
    }

    /**
     * `load_survey_from_file` on the parsed file: a new survey with the
     * file's title and description (empty when absent), its questions added
     * in order, becomes the current survey.
     */
    method LoadSurvey(data: SurveyData) returns (s: Survey)
      modifies this
      ensures fresh(s) && survey == Some(s) && responses == old(responses)
      ensures s.title == data.title && s.description == data.description.GetOr("")
      ensures s.questions == Loaded(data.questions, |data.questions|)
    {
      s := new Survey(data.title, data.description.GetOr(""));
      for k := 0 to |data.questions|
        invariant fresh(s) && s.title == data.title && s.description == data.description.GetOr("")
        invariant s.questions == Loaded(data.questions, k)
        invariant responses == old(responses) && survey == old(survey)
      {
        var qd := data.questions[k];
        s.AddQuestion(qd.text, qd.questionId, qd.scaleDescription.GetOr(DefaultScale), qd.category);
      }
      survey := Some(s);
    }

    /**
     * `conduct_survey`: with no survey given and none current, nothing is
     * asked and `[]` comes back. Otherwise every persona answers every
     * question of that survey, persona-major, and the run's answers replace
     * the kept ones.
     */
    method ConductSurvey(personas: seq<Persona>, given: Option<Survey>, backend: Backend.Oracle,
                         hashOf: string -> int)
      returns (run: seq<SurveyResponse>)
      modifies this
      ensures survey == old(survey)
      ensures given.None? && survey.None? ==> run == [] && responses == old(responses)
      ensures given.Some? ==> run == Run(personas, given.value.title, given.value.questions, backend, hashOf)
      ensures given.None? && survey.Some? ==>
                run == Run(personas, survey.value.title, survey.value.questions, backend, hashOf)
      ensures given.Some? || survey.Some? ==> responses == run
    {
      var chosen := if given.Some? then given else survey;
      if chosen.None? {
        return [];
      }
      var s := chosen.value;
      run := Ask(personas, s.title, s.questions, backend, hashOf);
      responses := run;
    }

    /** The nested loop over personas and questions. */
    static method Ask(personas: seq<Persona>, title: string, questions: seq<SurveyQuestion>, backend: Backend.Oracle,
                      hashOf: string -> int)
      returns (run: seq<SurveyResponse>)
      ensures run == Run(personas, title, questions, backend, hashOf)
    {
      ghost var cell := ResponseCell(title, |questions|, backend, hashOf);
      run := [];
      for i := 0 to |personas|
        invariant run == Grid.Rows(personas, questions, cell, i)
      {
        for j := 0 to |questions|
          invariant run == Grid.Rows(personas, questions, cell, i) + Grid.Row(i, personas[i], questions, cell, j)
        {
          var r := Respond(i, personas[i], j, questions[j], title, |questions|, backend, hashOf);
          Grid.RowStep(i, personas[i], questions, cell, j);
          run := run + [r];
        }
      }
    }

    /** One cell: the agent asked as call `i * width + j`, its answer annotated. */
    static method Respond(i: nat, p: Persona, j: nat, q: SurveyQuestion, title: string, width: nat,
                          backend: Backend.Oracle, hashOf: string -> int)
      returns (r: SurveyResponse)
      ensures r == ResponseAt(title, width, backend, hashOf, i, p, j, q)
    {
      var answer := AIAgent.RespondToSurveyQuestion(p, q.text, q.scaleDescription, Grid.Position(i, j, width),
                                                    backend, hashOf);
      r := SurveyResponse(answer, title, q.questionId, q.category);
    }

    /**
     * `_show_response_statistics`: the answers grouped by question id, then
     * one row per group with its average (0 without scores), its number of
     * scores and its number of errors.
     */
    static method ResponseStatistics(rs: seq<SurveyResponse>) returns (rows: seq<StatRow>)
      ensures rows == Statistics(rs)
    {
      var scored := ScoredItems(rs);
      var stats := ScoreStats.Group(scored);
      rows := StatRows(stats);
    }

    /** What the grouping reads of each answer, in order. */
    static method ScoredItems(rs: seq<SurveyResponse>) returns (scored: seq<ScoreStats.Scored>)
      ensures scored == ScoredAll(rs)
    {
      scored := [];
      for k := 0 to |rs|
        invariant |scored| == k && forall l :: 0 <= l < k ==> scored[l] == ScoredOf(rs[l])
      {
        scored := scored + [ScoredOf(rs[k])];
      }
    }

    /** The table loop: one row per group, in order. */
    static method StatRows(stats: seq<(string, ScoreStats.Tally)>) returns (rows: seq<StatRow>)
      ensures |rows| == |stats| && forall k :: 0 <= k < |stats| ==> rows[k] == StatRowOf(stats[k].0, stats[k].1)
    {
      rows := [];
      for k := 0 to |stats|
        invariant |rows| == k && forall l :: 0 <= l < k ==> rows[l] == StatRowOf(stats[l].0, stats[l].1)
      {
        var t := stats[k].1;
        var average := if |t.scores| > 0 then ScoreStats.Sum(t.scores) as real / |t.scores| as real else 0.0;
        rows := rows + [StatRow(stats[k].0, average, |t.scores|, t.errors)];
      }
    }
  }
}
