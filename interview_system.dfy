/**
 * The open-ended interviews of the command-line tool: an interview guide is
 * a titled list of questions, each with an optional category and context; a
 * run interviews every persona on every question through the agent and
 * keeps one record per persona with its answers in guide order.
 */
module InterviewSystem {
  import opened Wrappers
  import opened Text
  import Backend
  import Grid
  import DatasetLoader
  import AIAgent
  import SurveySystem

  type Persona = DatasetLoader.Persona

  /** `InterviewQuestion`. */
  datatype InterviewQuestion = InterviewQuestion(questionId: string, text: string, category: Option<string>,
                                                 context: Option<string>)

  /**
   * One entry of a guide file's `questions`: the text, and the optional
   * `question_id`, `category` and `context` (`None` where the key is absent).
   */
  datatype QuestionData = QuestionData(text: string, questionId: Option<string>, category: Option<string>,
                                       context: Option<string>)

  /** A guide file, or `InterviewGuide.to_dict` without its timestamp. */
  datatype GuideData = GuideData(title: string, description: Option<string>, questions: seq<QuestionData>)

  /** A loaded entry as the guide's `k`-th question, numbered `IQ{k+1}` when it has no id. */
  function LoadedQuestion(qd: QuestionData, k: nat): InterviewQuestion {
    InterviewQuestion(SurveySystem.AssignedId("IQ", qd.questionId, k), qd.text, qd.category, qd.context)
  }

  /** The questions after loading the first `n` entries of a file. */
  function Loaded(qds: seq<QuestionData>, n: nat): (qs: seq<InterviewQuestion>)
    requires n <= |qds|
    ensures |qs| == n
  {
    seq(n, k requires 0 <= k < n => LoadedQuestion(qds[k], k))
  }

  /** `InterviewQuestion.to_dict`: every field written out, so the id is present. */
  function QuestionDict(q: InterviewQuestion): QuestionData {
    QuestionData(q.text, Some(q.questionId), q.category, q.context)
  }

  /** `InterviewGuide`: a title, a description and the questions in insertion order. */
  class InterviewGuide {
    var title: string
    var description: string
    var questions: seq<InterviewQuestion>

    constructor(title: string, description: string)
      ensures this.title == title && this.description == description && questions == []
    {
      this.title := title;
      this.description := description;
      questions := [];
    }

    /**
     * `add_question`: the question goes at the end, with the given id or
     * `IQ` followed by the number of questions after insertion.
     */
    method AddQuestion(text: string, questionId: Option<string>, category: Option<string>, context: Option<string>)
      modifies this
      ensures questions == old(questions) + [InterviewQuestion(SurveySystem.AssignedId("IQ", questionId, |old(questions)|),
                                                               text, category, context)]
      ensures title == old(title) && description == old(description)
    {
      var id := if questionId.None? then "IQ" + NatToString(|questions| + 1) else questionId.value;
      questions := questions + [InterviewQuestion(id, text, category, context)];
    }

    /** `to_dict` without `created_at`: the title, the description and the questions in order. */
    function ToDict(): (d: GuideData)
      reads this
      ensures d.title == title && d.description == Some(description) && |d.questions| == |questions|
    {
      var qs := questions;
      GuideData(title, Some(description), seq(|qs|, k requires 0 <= k < |qs| => QuestionDict(qs[k])))
    }
  }

  /**
   * Loading what `to_dict` wrote gives the guide back: the same title and
   * description, and the same questions in the same order, ids included.
   */
  lemma ToDictRoundTrip(g: InterviewGuide)
    ensures Loaded(g.ToDict().questions, |g.questions|) == g.questions
    ensures g.ToDict().title == g.title && g.ToDict().description.GetOr("") == g.description
  {
    var d := g.ToDict();
    forall k | 0 <= k < |g.questions|
      ensures Loaded(d.questions, |g.questions|)[k] == g.questions[k]
    {
      assert d.questions[k] == QuestionDict(g.questions[k]);
    }
  }

  /** Loading entries without ids numbers them `IQ1`, `IQ2`, … in file order, so no two share an id. */
  lemma LoadedIdsDistinct(qds: seq<QuestionData>)
    requires forall k :: 0 <= k < |qds| ==> qds[k].questionId.None?
    ensures forall k :: 0 <= k < |qds| ==> Loaded(qds, |qds|)[k].questionId == "IQ" + NatToString(k + 1)
    ensures forall k, l :: 0 <= k < l < |qds| ==> Loaded(qds, |qds|)[k].questionId != Loaded(qds, |qds|)[l].questionId
  {
    forall k, l | 0 <= k < l < |qds|
      ensures Loaded(qds, |qds|)[k].questionId != Loaded(qds, |qds|)[l].questionId
    {
      SurveySystem.GeneratedIdsDiffer("IQ", k, l);
    }
  }

  // ---------------------------------------------------------------- runs

  /** One answer of an interview: the agent's answer plus the question's id and category. */
  datatype InterviewResponse = InterviewResponse(answer: AIAgent.InterviewAnswer, questionId: string,
                                                 category: Option<string>)

  /** One persona's interview: its id, the guide title and its answers in guide order. */
  datatype InterviewRecord = InterviewRecord(personaId: string, interviewTitle: string,
                                             responses: seq<InterviewResponse>)

  /**
   * Persona `p` (the `i`-th) answering question `q` (the `j`-th of `width`):
   * the agent asked with the question's text and context as backend call
   * `i * width + j`, its answer annotated with the question's id and
   * category.
   */
  function ResponseAt(width: nat, backend: Backend.Oracle, hashOf: string -> int,
                      i: nat, p: Persona, j: nat, q: InterviewQuestion): InterviewResponse
  {
    var k := Grid.Position(i, j, width);
    InterviewResponse(AIAgent.InterviewAnswerOf(p, q.text, backend(k, AIAgent.InterviewRequest(p, q.text, q.context, hashOf))),
                      q.questionId, q.category)
  }

  function ResponseCell(width: nat, backend: Backend.Oracle, hashOf: string -> int)
    : (nat, Persona, nat, InterviewQuestion) -> InterviewResponse
  {
    (i: nat, p: Persona, j: nat, q: InterviewQuestion) => ResponseAt(width, backend, hashOf, i, p, j, q)
  }

  /** Persona `p`'s record, `p` being the `i`-th persona of the run. */
  function RecordAt(title: string, questions: seq<InterviewQuestion>, backend: Backend.Oracle, hashOf: string -> int,
                    i: nat, p: Persona): InterviewRecord
  {
    InterviewRecord(p.id, title, Grid.Row(i, p, questions, ResponseCell(|questions|, backend, hashOf), |questions|))
  }

  function RecordCell(title: string, questions: seq<InterviewQuestion>, backend: Backend.Oracle, hashOf: string -> int)
    : (nat, Persona) -> InterviewRecord
  {
    (i: nat, p: Persona) => RecordAt(title, questions, backend, hashOf, i, p)
  }

  /** The records of a whole run, one per persona in order. */
  function Run(personas: seq<Persona>, title: string, questions: seq<InterviewQuestion>, backend: Backend.Oracle,
               hashOf: string -> int): seq<InterviewRecord>
  {
    Grid.Column(personas, RecordCell(title, questions, backend, hashOf), |personas|)
  }

  /**
   * A run holds one record per persona, in order, each with that persona's
   * id, the guide title and one answer per question in guide order: the
   * `j`-th answer of the `i`-th record is the agent's answer to question
   * `j` with its context, sent as call `i * |questions| + j`, carrying the
   * question's id and category.
   */
  lemma RunLayout(personas: seq<Persona>, title: string, questions: seq<InterviewQuestion>, backend: Backend.Oracle,
                  hashOf: string -> int)
    ensures var run := Run(personas, title, questions, backend, hashOf);
            |run| == |personas|
            && forall i :: 0 <= i < |personas| ==>
                 run[i].personaId == personas[i].id && run[i].interviewTitle == title
                 && |run[i].responses| == |questions|
    ensures var run := Run(personas, title, questions, backend, hashOf);
            forall i, j :: 0 <= i < |personas| && 0 <= j < |questions| ==>
              var k := Grid.Position(i, j, |questions|);
              |run[i].responses| == |questions|
              && run[i].responses[j].answer
                 == AIAgent.InterviewAnswerOf(personas[i], questions[j].text,
                      backend(k, AIAgent.InterviewRequest(personas[i], questions[j].text, questions[j].context, hashOf)))
              && run[i].responses[j].questionId == questions[j].questionId
              && run[i].responses[j].category == questions[j].category
  {
  }

  // ---------------------------------------------------------------- the system

  /** `InterviewSystem`: the current guide, if any, and the records of the last run. */
  class InterviewSystem {
    var interviewGuide: Option<InterviewGuide>
    var interviews: seq<InterviewRecord>

    constructor()
      ensures interviewGuide.None? && interviews == []
    {
      interviewGuide := None;
      interviews := [];
    }

    /**
     * `load_guide_from_file` on the parsed file: a new guide with the
     * file's title and description (empty when absent), its questions added
     * in order, becomes the current guide.
     */
    method LoadGuide(data: GuideData) returns (g: InterviewGuide)
      modifies this
      ensures fresh(g) && interviewGuide == Some(g) && interviews == old(interviews)
      ensures g.title == data.title && g.description == data.description.GetOr("")
      ensures g.questions == Loaded(data.questions, |data.questions|)
    {
      g := new InterviewGuide(data.title, data.description.GetOr(""));
      for k := 0 to |data.questions|
        invariant fresh(g) && g.title == data.title && g.description == data.description.GetOr("")
        invariant g.questions == Loaded(data.questions, k)
        invariant interviews == old(interviews) && interviewGuide == old(interviewGuide)
      {
        var qd := data.questions[k];
        g.AddQuestion(qd.text, qd.questionId, qd.category, qd.context);
      }
      interviewGuide := Some(g);
    }

    /**
     * `conduct_interviews`: with no guide given and none current, nothing
     * is asked and `[]` comes back. Otherwise every persona is interviewed
     * on every question of that guide, and the run's records replace the
     * kept ones.
     */
    method ConductInterviews(personas: seq<Persona>, given: Option<InterviewGuide>, backend: Backend.Oracle,
                             hashOf: string -> int)
      returns (run: seq<InterviewRecord>)
      modifies this
      ensures interviewGuide == old(interviewGuide)
      ensures given.None? && interviewGuide.None? ==> run == [] && interviews == old(interviews)
      ensures given.Some? ==> run == Run(personas, given.value.title, given.value.questions, backend, hashOf)
      ensures given.None? && interviewGuide.Some? ==>
                run == Run(personas, interviewGuide.value.title, interviewGuide.value.questions, backend, hashOf)
      ensures given.Some? || interviewGuide.Some? ==> interviews == run
    {
      var chosen := if given.Some? then given else interviewGuide;
      if chosen.None? {
        return [];
      }
      var g := chosen.value;
      run := Interview(personas, g.title, g.questions, backend, hashOf);
      interviews := run;
    }

    /** The loop over the personas, one record each. */
    static method Interview(personas: seq<Persona>, title: string, questions: seq<InterviewQuestion>,
                            backend: Backend.Oracle, hashOf: string -> int)
      returns (run: seq<InterviewRecord>)
      ensures run == Run(personas, title, questions, backend, hashOf)
    {
      ghost var cell := RecordCell(title, questions, backend, hashOf);
      run := [];
      for i := 0 to |personas|
        invariant run == Grid.Column(personas, cell, i)
      {
        var record := InterviewOne(i, personas[i], title, questions, backend, hashOf);
        Grid.ColumnStep(personas, cell, i);
        run := run + [record];
      }
    }

    /** One persona's interview: the loop over the questions, in guide order. */
    static method InterviewOne(i: nat, p: Persona, title: string, questions: seq<InterviewQuestion>,
                               backend: Backend.Oracle, hashOf: string -> int)
      returns (record: InterviewRecord)
      ensures record == RecordAt(title, questions, backend, hashOf, i, p)
    {
      ghost var cell := ResponseCell(|questions|, backend, hashOf);
      var responses := [];
      for j := 0 to |questions|
        invariant responses == Grid.Row(i, p, questions, cell, j)
      {
        var r := Respond(i, p, j, questions[j], |questions|, backend, hashOf);
        Grid.RowStep(i, p, questions, cell, j);
        responses := responses + [r];
      }
      record := InterviewRecord(p.id, title, responses);
    }

    /** One answer: the agent asked as call `i * width + j`, annotated. */
    static method Respond(i: nat, p: Persona, j: nat, q: InterviewQuestion, width: nat, backend: Backend.Oracle,
                          hashOf: string -> int)
      returns (r: InterviewResponse)
      ensures r == ResponseAt(width, backend, hashOf, i, p, j, q)
    {
      var answer := AIAgent.RespondToInterviewQuestion(p, q.text, q.context, Grid.Position(i, j, width),
                                                       backend, hashOf);
      r := InterviewResponse(answer, q.questionId, q.category);
    }
  }
}
