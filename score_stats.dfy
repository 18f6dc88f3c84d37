/**
 * The per-question statistics that both the survey system and the results
 * manager compute over a list of responses: the responses grouped by their
 * question id in order of first appearance, each group holding the question
 * text of its first response, the scores in order and the number of
 * responses without a score; and the mean, minimum, maximum and 1..7
 * distribution of a list of scores.
 */
module ScoreStats {
  import opened Wrappers
  import opened PyValues

  /** What the grouping loop reads of a response: its question id, its question and its score. */
  datatype Scored = Scored(qid: string, question: string, score: Option<int>)

  /** One group: `{'question': ..., 'scores': [...], 'errors': n}`. */
  datatype Tally = Tally(question: string, scores: seq<int>, errors: nat)

  // ---------------------------------------------------------------- grouping

  /** A response added to its group: a score is appended, a missing score is an error. */
  function Counted(t: Tally, score: Option<int>): Tally {
    if score.Some? then t.(scores := t.scores + [score.value]) else t.(errors := t.errors + 1)
  }

  /** One step of the loop: a new id opens a group with the response's question, then the response is counted. */
  function Step(stats: Dict<Tally>, r: Scored): Dict<Tally> {
    Put(stats, r.qid, Counted(GetOr(stats, r.qid, Tally(r.question, [], 0)), r.score))
  }

  /** The groups after the first `n` responses. */
  function Grouped(rs: seq<Scored>, n: nat): Dict<Tally>
    requires n <= |rs|
  {
    if n == 0 then [] else Step(Grouped(rs, n - 1), rs[n - 1])
  }

  /** The number of responses among the first `n` with question id `k`. */
  function Occurrences(rs: seq<Scored>, n: nat, k: string): nat
    requires n <= |rs|
  {
    if n == 0 then 0 else Occurrences(rs, n - 1, k) + (if rs[n - 1].qid == k then 1 else 0)
  }

  /** The scores of those responses, in order. */
  function ScoresOf(rs: seq<Scored>, n: nat, k: string): seq<int>
    requires n <= |rs|
  {
    if n == 0 then []
    else ScoresOf(rs, n - 1, k) + (if rs[n - 1].qid == k && rs[n - 1].score.Some? then [rs[n - 1].score.value] else [])
  }

  /** The number of those responses without a score. */
  function ErrorsOf(rs: seq<Scored>, n: nat, k: string): nat
    requires n <= |rs|
  {
    if n == 0 then 0 else ErrorsOf(rs, n - 1, k) + (if rs[n - 1].qid == k && rs[n - 1].score.None? then 1 else 0)
  }

  /** The question of the first of those responses. */
  function FirstQuestion(rs: seq<Scored>, n: nat, k: string): string
    requires n <= |rs| && Occurrences(rs, n, k) > 0
  {
    if Occurrences(rs, n - 1, k) > 0 then FirstQuestion(rs, n - 1, k) else rs[n - 1].question
  }

  /**
   * What the group of id `k` should be after the first `n` responses:
   * none when no response has that id, else the first such response's
   * question, the scores of those responses in order, and the number of
   * them without a score.
   */
  function Expected(rs: seq<Scored>, n: nat, k: string): Option<Tally>
    requires n <= |rs|
  {
    if Occurrences(rs, n, k) == 0 then None
    else Some(Tally(FirstQuestion(rs, n, k), ScoresOf(rs, n, k), ErrorsOf(rs, n, k)))
  }

  /** A response with id `k` counts into the expected group, opened with its question when new. */
  lemma ExpectedStep(rs: seq<Scored>, n: nat, k: string)
    requires 0 < n <= |rs| && rs[n - 1].qid == k
    ensures Expected(rs, n, k)
            == Some(Counted(Expected(rs, n - 1, k).GetOr(Tally(rs[n - 1].question, [], 0)), rs[n - 1].score))
  {
    var r := rs[n - 1];
    var base := Expected(rs, n - 1, k).GetOr(Tally(r.question, [], 0));
    assert Occurrences(rs, n, k) == Occurrences(rs, n - 1, k) + 1;
    assert base.question == FirstQuestion(rs, n, k);
    if Occurrences(rs, n - 1, k) == 0 {
      ScoresPlusErrors(rs, n - 1, k);
      assert base.scores == ScoresOf(rs, n - 1, k) && base.errors == ErrorsOf(rs, n - 1, k);
    }
    var expected := Tally(FirstQuestion(rs, n, k), ScoresOf(rs, n, k), ErrorsOf(rs, n, k));
    if r.score.Some? {
      assert ScoresOf(rs, n, k) == base.scores + [r.score.value];
      assert ErrorsOf(rs, n, k) == base.errors;
      assert expected == base.(scores := base.scores + [r.score.value]);
    } else {
      assert ScoresOf(rs, n, k) == base.scores;
      assert ErrorsOf(rs, n, k) == base.errors + 1;
      assert expected == base.(errors := base.errors + 1);
    }
  }

  /** Responses with another id leave the expected group of `k` as it was. */
  lemma OtherStep(rs: seq<Scored>, n: nat, k: string)
    requires 0 < n <= |rs| && rs[n - 1].qid != k
    ensures Expected(rs, n, k) == Expected(rs, n - 1, k)
  {
    assert Occurrences(rs, n, k) == Occurrences(rs, n - 1, k);
    assert ScoresOf(rs, n, k) == ScoresOf(rs, n - 1, k);
    assert ErrorsOf(rs, n, k) == ErrorsOf(rs, n - 1, k);
    if Occurrences(rs, n, k) > 0 {
      assert FirstQuestion(rs, n, k) == FirstQuestion(rs, n - 1, k);
    }
  }

  /** A step counts the response into its own group and leaves every other group as it was. */
  lemma StepGet(stats: Dict<Tally>, r: Scored, k: string)
    ensures Get(Step(stats, r), k)
            == if r.qid == k then Some(Counted(Get(stats, k).GetOr(Tally(r.question, [], 0)), r.score)) else Get(stats, k)
  {
    PutGet(stats, r.qid, Counted(GetOr(stats, r.qid, Tally(r.question, [], 0)), r.score));
  }

  /** The group of id `k` is the expected one. */
  lemma {:induction false} GroupedGet(rs: seq<Scored>, n: nat, k: string)
    requires n <= |rs|
    ensures Get(Grouped(rs, n), k) == Expected(rs, n, k)
  {
    if n > 0 {
      GroupedGet(rs, n - 1, k);
      StepGet(Grouped(rs, n - 1), rs[n - 1], k);
      if rs[n - 1].qid == k {
        ExpectedStep(rs, n, k);
      } else {
        OtherStep(rs, n, k);
      }
    }
  }

  /** A step adds the response's id to the keys when it is new, and keeps them distinct. */
  lemma StepKeys(stats: Dict<Tally>, r: Scored)
    ensures Keys(Step(stats, r)) == if r.qid in Keys(stats) then Keys(stats) else Keys(stats) + [r.qid]
    ensures DistinctKeys(stats) ==> DistinctKeys(Step(stats, r))
  {
    var t := Counted(GetOr(stats, r.qid, Tally(r.question, [], 0)), r.score);
    PutKeys(stats, r.qid, t);
    if DistinctKeys(stats) {
      PutDistinct(stats, r.qid, t);
    }
  }

  /** One group per id that occurs. */
  lemma {:induction false} GroupedMembers(rs: seq<Scored>, n: nat)
    requires n <= |rs|
    ensures forall k :: k in Keys(Grouped(rs, n)) <==> Occurrences(rs, n, k) > 0
  {
    if n > 0 {
      var before := Grouped(rs, n - 1);
      var r := rs[n - 1];
      GroupedMembers(rs, n - 1);
      StepKeys(before, r);
      forall k ensures k in Keys(Grouped(rs, n)) <==> Occurrences(rs, n, k) > 0 {
        assert k in Keys(Step(before, r)) <==> k in Keys(before) || k == r.qid;
      }
    }
  }

  /** The groups have distinct ids. */
  lemma {:induction false} GroupedDistinct(rs: seq<Scored>, n: nat)
    requires n <= |rs|
    ensures DistinctKeys(Grouped(rs, n))
  {
    if n > 0 {
      GroupedDistinct(rs, n - 1);
      StepKeys(Grouped(rs, n - 1), rs[n - 1]);
    }
  }

  /** A response opens a new group, at the end, exactly when its id has not occurred before. */
  lemma GroupedKeyStep(rs: seq<Scored>, n: nat)
    requires 0 < n <= |rs|
    ensures Keys(Grouped(rs, n)) == if Occurrences(rs, n - 1, rs[n - 1].qid) > 0 then Keys(Grouped(rs, n - 1))
                                    else Keys(Grouped(rs, n - 1)) + [rs[n - 1].qid]
  {
    GroupedMembers(rs, n - 1);
    StepKeys(Grouped(rs, n - 1), rs[n - 1]);
  }

  /** The groups have distinct ids, in order of first appearance, and one per id that occurs. */
  lemma GroupedKeys(rs: seq<Scored>, n: nat)
    requires n <= |rs|
    ensures DistinctKeys(Grouped(rs, n))
    ensures forall k :: k in Keys(Grouped(rs, n)) <==> Occurrences(rs, n, k) > 0
    ensures n > 0 ==> Keys(Grouped(rs, n)) == if Occurrences(rs, n - 1, rs[n - 1].qid) > 0 then Keys(Grouped(rs, n - 1))
                                               else Keys(Grouped(rs, n - 1)) + [rs[n - 1].qid]
  {
    GroupedDistinct(rs, n);
    GroupedMembers(rs, n);
    if n > 0 {
      GroupedKeyStep(rs, n);
    }
  }

  /** Every response of an id is either a score of its group or an error. */
  lemma {:induction false} ScoresPlusErrors(rs: seq<Scored>, n: nat, k: string)
    requires n <= |rs|
    ensures |ScoresOf(rs, n, k)| + ErrorsOf(rs, n, k) == Occurrences(rs, n, k)
  {
    if n > 0 {
      ScoresPlusErrors(rs, n - 1, k);
    }
  }

  /** The scores of a group are scores of its responses, so bounds on those bound them. */
  lemma {:induction false} ScoresBetween(rs: seq<Scored>, n: nat, k: string, lo: int, hi: int)
    requires n <= |rs|
    requires forall i :: 0 <= i < n && rs[i].score.Some? ==> lo <= rs[i].score.value <= hi
    ensures forall i :: 0 <= i < |ScoresOf(rs, n, k)| ==> lo <= ScoresOf(rs, n, k)[i] <= hi
  {
    if n > 0 {
      ScoresBetween(rs, n - 1, k, lo, hi);
    }
  }

  /**
   * The `i`-th group is that of an id that occurs, and holds what the
   * responses with that id determine.
   */
  lemma GroupAt(rs: seq<Scored>, i: nat)
    requires i < |Grouped(rs, |rs|)|
    ensures Occurrences(rs, |rs|, Grouped(rs, |rs|)[i].0) > 0
    ensures Grouped(rs, |rs|)[i].1.scores == ScoresOf(rs, |rs|, Grouped(rs, |rs|)[i].0)
    ensures Grouped(rs, |rs|)[i].1.errors == ErrorsOf(rs, |rs|, Grouped(rs, |rs|)[i].0)
  {
    var g := Grouped(rs, |rs|);
    var k := g[i].0;
    GroupedKeys(rs, |rs|);
    GetDistinct(g, i);
    GroupedGet(rs, |rs|, k);
    var e := Expected(rs, |rs|, k);
    assert e == Some(g[i].1);
    assert Occurrences(rs, |rs|, k) > 0;
    assert e.value == Tally(FirstQuestion(rs, |rs|, k), ScoresOf(rs, |rs|, k), ErrorsOf(rs, |rs|, k));
  }

  /**
   * For every group, the number of scores plus the number of errors is the
   * number of responses with that id.
   */
  lemma GroupCounts(rs: seq<Scored>)
    ensures forall i :: 0 <= i < |Grouped(rs, |rs|)| ==>
              var g := Grouped(rs, |rs|)[i];
              |g.1.scores| + g.1.errors == Occurrences(rs, |rs|, g.0)
  {
    var g := Grouped(rs, |rs|);
    GroupedKeys(rs, |rs|);
    forall i | 0 <= i < |g|
      ensures |g[i].1.scores| + g[i].1.errors == Occurrences(rs, |rs|, g[i].0)
    {
      GetDistinct(g, i);
      GroupedGet(rs, |rs|, g[i].0);
      assert Expected(rs, |rs|, g[i].0) == Some(g[i].1);
      ScoresPlusErrors(rs, |rs|, g[i].0);
    }
  }

  /** The grouping loop: `stats[qid]` is created on first sight and then counted into. */
  method Group(rs: seq<Scored>) returns (stats: Dict<Tally>)
    ensures stats == Grouped(rs, |rs|)
  {
    stats := [];
    for i := 0 to |rs|
      invariant stats == Grouped(rs, i)
    {
      var r := rs[i];
      var entry := Get(stats, r.qid);
      var t := if entry.None? then Tally(r.question, [], 0) else entry.value;
      if r.score.Some? {
        t := t.(scores := t.scores + [r.score.value]);
      } else {
        t := t.(errors := t.errors + 1);
      }
      stats := Put(stats, r.qid, t);
    }
  }

  // ---------------------------------------------------------------- score summaries

  /** `sum(scores)`. */
  function Sum(s: seq<int>): int {
    if s == [] then 0 else Sum(s[..|s| - 1]) + s[|s| - 1]
  }

  /** `min(scores)`. */
  function Min(s: seq<int>): (r: int)
    requires s != []
    ensures forall i :: 0 <= i < |s| ==> r <= s[i]
    ensures exists i :: 0 <= i < |s| && r == s[i]
  {
    if |s| == 1 then s[0]
    else
      var m := Min(s[..|s| - 1]);
      assert forall i :: 0 <= i < |s| - 1 ==> s[..|s| - 1][i] == s[i];
      if s[|s| - 1] < m then s[|s| - 1] else m
  }

  /** `max(scores)`. */
  function Max(s: seq<int>): (r: int)
    requires s != []
    ensures forall i :: 0 <= i < |s| ==> s[i] <= r
    ensures exists i :: 0 <= i < |s| && r == s[i]
  {
    if |s| == 1 then s[0]
    else
      var m := Max(s[..|s| - 1]);
      assert forall i :: 0 <= i < |s| - 1 ==> s[..|s| - 1][i] == s[i];
      if s[|s| - 1] > m then s[|s| - 1] else m
  }

  /** `sum(scores) / len(scores)`, in exact arithmetic. */
  function Mean(s: seq<int>): real
    requires s != []
  {
    (Sum(s) as real) / (|s| as real)
  }

  lemma {:induction false} SumBounds(s: seq<int>, lo: int, hi: int)
    requires forall i :: 0 <= i < |s| ==> lo <= s[i] <= hi
    ensures |s| * lo <= Sum(s) <= |s| * hi
  {
    if s != [] {
      var init := s[..|s| - 1];
      assert forall i :: 0 <= i < |init| ==> init[i] == s[i];
      SumBounds(init, lo, hi);
      assert |s| * lo == |init| * lo + lo && |s| * hi == |init| * hi + hi;
    }
  }

  /** The mean lies between the minimum and the maximum. */
  lemma MeanBetween(s: seq<int>)
    requires s != []
    ensures Min(s) as real <= Mean(s) <= Max(s) as real
  {
    SumBounds(s, Min(s), Max(s));
    DivideBounds(Sum(s), |s|, Min(s), Max(s));
  }

  /** Scores within bounds have their mean within the same bounds. */
  lemma MeanWithin(s: seq<int>, lo: int, hi: int)
    requires s != [] && forall i :: 0 <= i < |s| ==> lo <= s[i] <= hi
    ensures lo as real <= Mean(s) <= hi as real
  {
    SumBounds(s, lo, hi);
    DivideBounds(Sum(s), |s|, lo, hi);
  }

  /** Bounds on a total give the same bounds on its average. */
  lemma DivideBounds(total: int, n: nat, lo: int, hi: int)
    requires n > 0 && n * lo <= total <= n * hi
    ensures lo as real <= total as real / n as real <= hi as real
  {
    assert (n * lo) as real == n as real * lo as real;
    assert (n * hi) as real == n as real * hi as real;
  }

  /** `scores.count(v)`. */
  function CountOf(s: seq<int>, v: int): (r: nat)
    ensures r <= |s|
  {
    if s == [] then 0 else CountOf(s[..|s| - 1], v) + (if s[|s| - 1] == v then 1 else 0)
  }

  /** The number of scores from `lo` to `hi` inclusive. */
  function CountBetween(s: seq<int>, lo: int, hi: int): (r: nat)
    ensures r <= |s|
  {
    if s == [] then 0 else CountBetween(s[..|s| - 1], lo, hi) + (if lo <= s[|s| - 1] <= hi then 1 else 0)
  }

  /** `{i: scores.count(i) for i in range(1, 8)}`, in key order. */
  function Distribution(s: seq<int>): (r: seq<(int, nat)>)
    ensures |r| == 7 && forall i :: 0 <= i < 7 ==> r[i].0 == i + 1
  {
    seq(7, i requires 0 <= i < 7 => (i + 1, CountOf(s, i + 1)))
  }

  /** The sum of the counts of the `n` values from `lo` on. */
  function CountsFrom(s: seq<int>, lo: int, n: nat): nat {
    if n == 0 then 0 else CountOf(s, lo + n - 1) + CountsFrom(s, lo, n - 1)
  }

  /** The sum of the values of a distribution. */
  function Total(d: seq<(int, nat)>): nat {
    if d == [] then 0 else Total(d[..|d| - 1]) + d[|d| - 1].1
  }

  /** A single value is counted once among the `n` values from `lo` on exactly when it is one of them. */
  lemma {:induction false} CountsFromOne(lo: int, n: nat, x: int)
    ensures CountsFrom([x], lo, n) == if lo <= x < lo + n then 1 else 0
  {
    if n > 0 {
      CountsFromOne(lo, n - 1, x);
      assert [x][..0] == [];
    }
  }

  lemma {:induction false} CountsFromAppend(s: seq<int>, x: int, lo: int, n: nat)
    ensures CountsFrom(s + [x], lo, n) == CountsFrom(s, lo, n) + CountsFrom([x], lo, n)
  {
    if n > 0 {
      CountsFromAppend(s, x, lo, n - 1);
      assert (s + [x])[..|s + [x]| - 1] == s;
      assert [x][..0] == [];
    }
  }

  /** Counting each of the `n` values from `lo` adds up to the scores in that range. */
  lemma {:induction false} CountsFromBetween(s: seq<int>, lo: int, n: nat)
    ensures CountsFrom(s, lo, n) == CountBetween(s, lo, lo + n - 1)
  {
    if s != [] {
      var init := s[..|s| - 1];
      var x := s[|s| - 1];
      assert s == init + [x];
      CountsFromBetween(init, lo, n);
      CountsFromAppend(init, x, lo, n);
      CountsFromOne(lo, n, x);
    } else if n > 0 {
      CountsFromBetween(s, lo, n - 1);
    }
  }

  lemma {:induction false} TotalOfDistribution(s: seq<int>, k: nat)
    requires k <= 7
    ensures Total(Distribution(s)[..k]) == CountsFrom(s, 1, k)
  {
    if k > 0 {
      TotalOfDistribution(s, k - 1);
      assert Distribution(s)[..k][..k - 1] == Distribution(s)[..k - 1];
    }
  }

  /**
   * The distribution has exactly the keys 1 to 7; its counts add up to the
   * number of scores in that range, hence to at most all of them, and to all
   * of them when every score is in range.
   */
  lemma DistributionTotal(s: seq<int>)
    ensures Total(Distribution(s)) == CountBetween(s, 1, 7) <= |s|
    ensures (forall i :: 0 <= i < |s| ==> 1 <= s[i] <= 7) ==> Total(Distribution(s)) == |s|
  {
    TotalOfDistribution(s, 7);
    assert Distribution(s)[..7] == Distribution(s);
    CountsFromBetween(s, 1, 7);
    if forall i :: 0 <= i < |s| ==> 1 <= s[i] <= 7 {
      AllBetween(s, 1, 7);
    }
  }

  lemma {:induction false} AllBetween(s: seq<int>, lo: int, hi: int)
    requires forall i :: 0 <= i < |s| ==> lo <= s[i] <= hi
    ensures CountBetween(s, lo, hi) == |s|
  {
    if s != [] {
      var init := s[..|s| - 1];
      assert forall i :: 0 <= i < |init| ==> init[i] == s[i];
      AllBetween(init, lo, hi);
    }
  }
}
