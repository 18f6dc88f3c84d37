/**
 * The results manager: default file names for saved runs, the file set a
 * save produces, and the per-question analysis of a list of survey
 * answers (counts, scores against errors, and the summary of the scores).
 */
module ResultsManager {
  import opened Wrappers
  import opened Text
  import opened PyValues
  import ScoreStats

  // ---------------------------------------------------------------- file names

  /** The characters the default file name keeps from a title. */
  predicate StemChar(c: char) {
    IsAlnum(c) || c == ' ' || c == '_'
  }

  /**
   * The title part of a default file name: the title's letters, digits,
   * spaces and underscores, stripped, with spaces turned into underscores.
   */
  function SafeTitle(title: string): (r: string)
    ensures forall i :: 0 <= i < |r| ==> IsAlnum(r[i]) || r[i] == '_'
    ensures ' ' !in r && '/' !in r && '.' !in r
  {
    var kept := FilterChars(title, StemChar);
    StripKeeps(kept);
    var r := ReplaceChar(Strip(kept), ' ', '_');
    assert forall i :: 0 <= i < |r| ==> IsAlnum(r[i]) || r[i] == '_';
    NotStemChars(r);
    r
  }

  /** Stripping keeps only characters of the string. */
  lemma StripKeeps(s: string)
    requires forall i :: 0 <= i < |s| ==> StemChar(s[i])
    ensures forall i :: 0 <= i < |Strip(s)| ==> StemChar(Strip(s)[i])
  {
    StripSlice(s);
  }

  /** Spaces, slashes and dots are neither letters, digits nor underscores. */
  lemma NotStemChars(r: string)
    requires forall i :: 0 <= i < |r| ==> IsAlnum(r[i]) || r[i] == '_'
    ensures ' ' !in r && '/' !in r && '.' !in r
  {
  }

  /** Keeping what is kept anyway changes nothing. */
  lemma {:induction false} FilterKeepsAll(s: string, keep: char -> bool)
    requires forall i :: 0 <= i < |s| ==> keep(s[i])
    ensures FilterChars(s, keep) == s
  {
    if s != [] {
      FilterKeepsAll(s[1..], keep);
    }
  }

  /** No letter, digit or underscore is whitespace. */
  lemma StemCharNotSpace(c: char)
    requires IsAlnum(c) || c == '_'
    ensures !IsSpace(c)
  {
  }

  /** A title that is already safe is its own safe title, so the transformation is idempotent. */
  lemma SafeTitleIdempotent(title: string)
    ensures SafeTitle(SafeTitle(title)) == SafeTitle(title)
  {
    var t := SafeTitle(title);
    FilterKeepsAll(t, StemChar);
    forall j | 0 <= j < |t|
      ensures !IsSpace(t[j])
    {
      StemCharNotSpace(t[j]);
    }
    StripOfNoSpace(t);
    assert ReplaceChar(t, ' ', '_') == t;
  }

  /** The default file name: the safe title, an underscore, and the time stamp. */
  function DefaultStem(title: Option<string>, fallback: string, timestamp: string): string {
    SafeTitle(title.GetOr(fallback)) + "_" + timestamp
  }

  /** A file of the output directory. */
  function InDir(dir: string, name: string): string {
    dir + "/" + name
  }

  /** The files of a survey save: JSON, CSV and summary, in that order. */
  function SurveyPaths(dir: string, stem: string): Dict<string> {
    [("json", InDir(dir, stem + ".json")), ("csv", InDir(dir, stem + ".csv")),
     ("summary", InDir(dir, stem + "_summary.txt"))]
  }

  /** The files of an interview save: JSON, transcript and CSV, in that order. */
  function InterviewPaths(dir: string, stem: string): Dict<string> {
    [("json", InDir(dir, stem + ".json")), ("transcript", InDir(dir, stem + "_transcript.txt")),
     ("csv", InDir(dir, stem + ".csv"))]
  }

  /**
   * `save_survey_results` without the writing: nothing for no answers;
   * otherwise the JSON, CSV and summary files, named after the given name
   * or else the first answer's survey title (`survey` when absent) and the
   * time stamp.
   */
  function SurveyFiles(count: nat, firstTitle: Option<string>, filename: Option<string>, timestamp: string,
                       dir: string): (files: Dict<string>)
    ensures count == 0 <==> files == []
    ensures count > 0 ==> Keys(files) == ["json", "csv", "summary"]
  {
    if count == 0 then []
    else SurveyPaths(dir, if filename.Some? then filename.value else DefaultStem(firstTitle, "survey", timestamp))
  }

  /**
   * `save_interview_results` without the writing: nothing for no
   * interviews; otherwise the JSON, transcript and CSV files, named after
   * the given name or else the first interview's title (`interview` when
   * absent) and the time stamp.
   */
  function InterviewFiles(count: nat, firstTitle: Option<string>, filename: Option<string>, timestamp: string,
                          dir: string): (files: Dict<string>)
    ensures count == 0 <==> files == []
    ensures count > 0 ==> Keys(files) == ["json", "transcript", "csv"]
  {
    if count == 0 then []
    else InterviewPaths(dir, if filename.Some? then filename.value else DefaultStem(firstTitle, "interview", timestamp))
  }

  /** `name` is a file directly inside `dir`. */
  predicate DirectlyIn(path: string, dir: string) {
    |path| > |dir| && path[..|dir| + 1] == dir + "/" && '/' !in path[|dir| + 1..]
  }

  /** A name without `/` is a file directly inside the directory. */
  lemma InDirDirect(dir: string, name: string)
    requires '/' !in name && name != []
    ensures DirectlyIn(InDir(dir, name), dir)
  {
    var path := InDir(dir, name);
    assert path[..|dir| + 1] == dir + "/";
    assert path[|dir| + 1..] == name;
  }

  /** A default stem has no `/` when the time stamp has none. */
  lemma DefaultStemNoSlash(title: Option<string>, fallback: string, timestamp: string)
    requires '/' !in timestamp
    ensures '/' !in DefaultStem(title, fallback, timestamp)
  {
    var t := SafeTitle(title.GetOr(fallback));
    assert DefaultStem(title, fallback, timestamp) == t + "_" + timestamp;
  }

  /** A stem without `/` gives three different survey files directly inside the directory. */
  lemma SurveyPathsInDir(dir: string, stem: string)
    requires '/' !in stem
    ensures var files := SurveyPaths(dir, stem);
            (forall k :: 0 <= k < |files| ==> DirectlyIn(files[k].1, dir))
            && files[0].1 != files[1].1 && files[1].1 != files[2].1 && files[0].1 != files[2].1
  {
    InDirDirect(dir, stem + ".json");
    InDirDirect(dir, stem + ".csv");
    InDirDirect(dir, stem + "_summary.txt");
    SuffixesDiffer(dir + "/" + stem, ".csv", ".json");
    SuffixesDiffer(dir + "/" + stem, ".csv", "_summary.txt");
    SuffixesDiffer(dir + "/" + stem, ".json", "_summary.txt");
  }

  /** A stem without `/` gives three different interview files directly inside the directory. */
  lemma InterviewPathsInDir(dir: string, stem: string)
    requires '/' !in stem
    ensures var files := InterviewPaths(dir, stem);
            (forall k :: 0 <= k < |files| ==> DirectlyIn(files[k].1, dir))
            && files[0].1 != files[1].1 && files[1].1 != files[2].1 && files[0].1 != files[2].1
  {
    InDirDirect(dir, stem + ".json");
    InDirDirect(dir, stem + "_transcript.txt");
    InDirDirect(dir, stem + ".csv");
    SuffixesDiffer(dir + "/" + stem, ".json", "_transcript.txt");
    SuffixesDiffer(dir + "/" + stem, ".csv", "_transcript.txt");
    SuffixesDiffer(dir + "/" + stem, ".csv", ".json");
  }

  /**
   * A save with a default name writes each of its three files, under three
   * different names, directly into the output directory, whatever the
   * title holds (the time stamp holding no `/`).
   */
  lemma DefaultFilesInDir(count: nat, firstTitle: Option<string>, timestamp: string, dir: string)
    requires count > 0 && '/' !in timestamp
    ensures var files := SurveyFiles(count, firstTitle, None, timestamp, dir);
            (forall k :: 0 <= k < |files| ==> DirectlyIn(files[k].1, dir))
            && files[0].1 != files[1].1 && files[1].1 != files[2].1 && files[0].1 != files[2].1
    ensures var files := InterviewFiles(count, firstTitle, None, timestamp, dir);
            (forall k :: 0 <= k < |files| ==> DirectlyIn(files[k].1, dir))
            && files[0].1 != files[1].1 && files[1].1 != files[2].1 && files[0].1 != files[2].1
  {
    DefaultStemNoSlash(firstTitle, "survey", timestamp);
    DefaultStemNoSlash(firstTitle, "interview", timestamp);
    SurveyPathsInDir(dir, DefaultStem(firstTitle, "survey", timestamp));
    InterviewPathsInDir(dir, DefaultStem(firstTitle, "interview", timestamp));
  }

  /** One stem with two different file suffixes of which neither ends the other gives two names. */
  lemma SuffixesDiffer(stem: string, a: string, b: string)
    requires |a| <= |b| && a != b[|b| - |a|..]
    ensures stem + a != stem + b
  {
    assert (stem + a)[|stem + a| - |a|..] == a;
    assert (stem + b)[|stem + b| - |a|..] == b[|b| - |a|..];
  }

  // ---------------------------------------------------------------- analysis

  /** What the analysis reads of an answer: `persona_id`, `question_id`, `question` and `score`. */
  datatype ResponseRecord = ResponseRecord(personaId: Option<string>, questionId: Option<string>,
                                           question: Option<string>, score: Option<int>)

  /** The statistics added to a question with at least one score. */
  datatype Summary = Summary(mean: real, min: int, max: int, count: nat, distribution: seq<(int, nat)>)

  /** `analysis['questions'][qid]`. */
  datatype QuestionAnalysis = QuestionAnalysis(question: string, scores: seq<int>, errors: nat,
                                               summary: Option<Summary>)

  /** The analysis of a non-empty answer list. */
  datatype Analysis = Analysis(totalResponses: nat, uniquePersonas: nat, uniqueQuestions: nat,
                               questions: Dict<QuestionAnalysis>)

  /** The question id an answer is grouped under. */
  function GroupId(r: ResponseRecord): string {
    r.questionId.GetOr("Unknown")
  }

  function ScoredOf(r: ResponseRecord): ScoreStats.Scored {
    ScoreStats.Scored(GroupId(r), r.question.GetOr(""), r.score)
  }

  function ScoredAll(rs: seq<ResponseRecord>): (s: seq<ScoreStats.Scored>)
    ensures |s| == |rs| && forall k :: 0 <= k < |rs| ==> s[k] == ScoredOf(rs[k])
  {
    seq(|rs|, k requires 0 <= k < |rs| => ScoredOf(rs[k]))
  }

  /** The distinct `persona_id` values among the first `n` answers, a missing one included. */
  function PersonaIds(rs: seq<ResponseRecord>, n: nat): set<Option<string>>
    requires n <= |rs|
  {
    set k | 0 <= k < n :: rs[k].personaId
  }

  /** The distinct `question_id` values among the first `n` answers, a missing one included. */
  function QuestionIds(rs: seq<ResponseRecord>, n: nat): set<Option<string>>
    requires n <= |rs|
  {
    set k | 0 <= k < n :: rs[k].questionId
  }

  /** The summary of a non-empty list of scores. */
  function SummaryOf(scores: seq<int>): Summary
    requires scores != []
  {
    Summary(ScoreStats.Mean(scores), ScoreStats.Min(scores), ScoreStats.Max(scores), |scores|,
            ScoreStats.Distribution(scores))
  }

  /** A group with its summary, which only a group with scores gets. */
  function Summarized(t: ScoreStats.Tally): QuestionAnalysis {
    QuestionAnalysis(t.question, t.scores, t.errors, if t.scores == [] then None else Some(SummaryOf(t.scores)))
  }

  /** `analyze_survey_results`: `None` stands for the empty dictionary returned for no answers. */
  function Analyzed(rs: seq<ResponseRecord>): Option<Analysis> {
    if rs == [] then None
    else
      var g := ScoreStats.Grouped(ScoredAll(rs), |rs|);
      Some(Analysis(|rs|, |PersonaIds(rs, |rs|)|, |QuestionIds(rs, |rs|)|,
                    seq(|g|, k requires 0 <= k < |g| => (g[k].0, Summarized(g[k].1)))))
  }

  /** The number of answers grouped under `qid`. */
  function AnswersTo(rs: seq<ResponseRecord>, qid: string): nat {
    ScoreStats.Occurrences(ScoredAll(rs), |rs|, qid)
  }

  /** There is an analysis exactly when there are answers. */
  lemma AnalyzedEmpty(rs: seq<ResponseRecord>)
    ensures Analyzed(rs).None? <==> rs == []
  {
  }

  /**
   * `total_responses` is the number of answers; the numbers of distinct
   * personas and question ids lie between 1 and that.
   */
  lemma {:induction false} AnalyzedCounts(rs: seq<ResponseRecord>)
    requires rs != []
    ensures Analyzed(rs).value.totalResponses == |rs|
    ensures 1 <= Analyzed(rs).value.uniquePersonas <= |rs|
    ensures 1 <= Analyzed(rs).value.uniqueQuestions <= |rs|
  {
    PersonaIdsBound(rs, |rs|);
    QuestionIdsBound(rs, |rs|);
    assert rs[0].personaId in PersonaIds(rs, |rs|);
    assert rs[0].questionId in QuestionIds(rs, |rs|);
  }

  lemma {:induction false} PersonaIdsBound(rs: seq<ResponseRecord>, n: nat)
    requires n <= |rs|
    ensures |PersonaIds(rs, n)| <= n
  {
    if n > 0 {
      PersonaIdsBound(rs, n - 1);
      assert PersonaIds(rs, n) == PersonaIds(rs, n - 1) + {rs[n - 1].personaId};
    }
  }

  lemma {:induction false} QuestionIdsBound(rs: seq<ResponseRecord>, n: nat)
    requires n <= |rs|
    ensures |QuestionIds(rs, n)| <= n
  {
    if n > 0 {
      QuestionIdsBound(rs, n - 1);
      assert QuestionIds(rs, n) == QuestionIds(rs, n - 1) + {rs[n - 1].questionId};
    }
  }

  /**
   * The question entries: one per id that answers are grouped under, none
   * twice, and each entry's scores and errors add up to its answers.
   */
  lemma AnalyzedQuestions(rs: seq<ResponseRecord>)
    requires rs != []
    ensures var qs := Analyzed(rs).value.questions;
            DistinctKeys(qs) && forall qid :: qid in Keys(qs) <==> AnswersTo(rs, qid) > 0
    ensures var qs := Analyzed(rs).value.questions;
            forall k :: 0 <= k < |qs| ==> |qs[k].1.scores| + qs[k].1.errors == AnswersTo(rs, qs[k].0)
  {
    var s := ScoredAll(rs);
    var g := ScoreStats.Grouped(s, |rs|);
    var qs := Analyzed(rs).value.questions;
    ScoreStats.GroupedKeys(s, |rs|);
    ScoreStats.GroupCounts(s);
    assert Keys(qs) == Keys(g);
  }

  /**
   * A question has a summary exactly when it has scores; then its mean lies
   * between its minimum and maximum, its count is the number of scores, its
   * distribution has the keys 1 to 7, and the distribution's counts add up
   * to at most the count, to all of it when every score is on the scale.
   */
  lemma SummaryFacts(t: ScoreStats.Tally)
    ensures Summarized(t).summary.Some? <==> t.scores != []
    ensures Summarized(t).summary.Some? ==>
              var m := Summarized(t).summary.value;
              m.min as real <= m.mean <= m.max as real && m.count == |t.scores|
              && |m.distribution| == 7 && (forall i :: 0 <= i < 7 ==> m.distribution[i].0 == i + 1)
              && ScoreStats.Total(m.distribution) <= m.count
              && ((forall i :: 0 <= i < |t.scores| ==> 1 <= t.scores[i] <= 7) ==>
                    ScoreStats.Total(m.distribution) == m.count)
  {
    if t.scores != [] {
      ScoreStats.MeanBetween(t.scores);
      ScoreStats.DistributionTotal(t.scores);
    }
  }

  /** `analyze_survey_results`: the counts, the grouping loop and the summary loop. */
  method AnalyzeSurveyResults(rs: seq<ResponseRecord>) returns (a: Option<Analysis>)
    ensures a == Analyzed(rs)
  {
    if rs == [] {
      return None;
    }
    var personas, questionIds := DistinctIds(rs);
    var scored := ScoredItems(rs);
    var stats := ScoreStats.Group(scored);
    var entries := Summaries(stats);
    assert entries == seq(|stats|, k requires 0 <= k < |stats| => (stats[k].0, Summarized(stats[k].1)));
    a := Some(Analysis(|rs|, |personas|, |questionIds|, entries));
  }

  /** The two sets of distinct ids. */
  method DistinctIds(rs: seq<ResponseRecord>) returns (personas: set<Option<string>>, questionIds: set<Option<string>>)
    ensures personas == PersonaIds(rs, |rs|) && questionIds == QuestionIds(rs, |rs|)
  {
    personas, questionIds := {}, {};
    for k := 0 to |rs|
      invariant personas == PersonaIds(rs, k) && questionIds == QuestionIds(rs, k)
    {
      assert PersonaIds(rs, k + 1) == PersonaIds(rs, k) + {rs[k].personaId};
      assert QuestionIds(rs, k + 1) == QuestionIds(rs, k) + {rs[k].questionId};
      personas := personas + {rs[k].personaId};
      questionIds := questionIds + {rs[k].questionId};
    }
  }

  /** What the grouping reads of each answer, in order. */
  method ScoredItems(rs: seq<ResponseRecord>) returns (scored: seq<ScoreStats.Scored>)
    ensures scored == ScoredAll(rs)
  {
    scored := [];
    for k := 0 to |rs|
      invariant |scored| == k && forall l :: 0 <= l < k ==> scored[l] == ScoredOf(rs[l])
    {
      scored := scored + [ScoredOf(rs[k])];
    }
  }

  /** The loop adding a summary to every group with scores. */
  method Summaries(stats: Dict<ScoreStats.Tally>) returns (entries: Dict<QuestionAnalysis>)
    ensures |entries| == |stats| && forall k :: 0 <= k < |stats| ==> entries[k] == (stats[k].0, Summarized(stats[k].1))
  {
    entries := [];
    for k := 0 to |stats|
      invariant |entries| == k && forall l :: 0 <= l < k ==> entries[l] == (stats[l].0, Summarized(stats[l].1))
    {
      var t := stats[k].1;
      var summary := None;
      if t.scores != [] {
        assert ScoreStats.Sum(t.scores) as real / |t.scores| as real == ScoreStats.Mean(t.scores);
        summary := Some(Summary(ScoreStats.Sum(t.scores) as real / |t.scores| as real, ScoreStats.Min(t.scores),
                                ScoreStats.Max(t.scores), |t.scores|, ScoreStats.Distribution(t.scores)));
      }
      entries := entries + [(stats[k].0, QuestionAnalysis(t.question, t.scores, t.errors, summary))];
    }
  }
}
