/**
 * Hand-written models of the regular-expression pieces the parsers use
 * (Python `re` with its default Unicode matching): leftmost search, `\s*`,
 * `\d+`, and the word boundary `\b`.
 */
module Patterns {
  import opened Wrappers
  import opened Text

  /** A character matched by `\w`: alphanumeric or underscore. Hangul counts. */
  predicate IsWordChar(c: char) {
    IsAlnum(c) || c == '_'
  }

  /** The full-width colon `：` accepted beside `:` by `[:：]`. */
  predicate IsColon(c: char) {
    c == ':' || c == '\U{FF1A}'
  }

  /**
   * Leftmost search, as `re.search` does: the first start position `p <= |s|`
   * at which `matchAt(s, p)` succeeds, with what it produced there.
   */
  function FirstMatchFrom<T>(s: string, matchAt: (string, nat) -> Option<T>, i: nat): (r: Option<(nat, T)>)
    requires i <= |s|
    decreases |s| - i
    ensures r.Some? ==> i <= r.value.0 <= |s| && matchAt(s, r.value.0) == Some(r.value.1)
  {
    match matchAt(s, i)
    case Some(x) => Some((i, x))
    case None => if i == |s| then None else FirstMatchFrom(s, matchAt, i + 1)
  }

  /** The match found is the leftmost one, and no match means none at any position. */
  lemma {:induction false} FirstMatchFromLeftmost<T>(s: string, matchAt: (string, nat) -> Option<T>, i: nat)
    requires i <= |s|
    decreases |s| - i
    ensures var r := FirstMatchFrom(s, matchAt, i);
            (r.Some? ==> forall j :: i <= j < r.value.0 ==> matchAt(s, j).None?)
            && (r.None? ==> forall j :: i <= j <= |s| ==> matchAt(s, j).None?)
  {
    if matchAt(s, i).None? && i < |s| {
      FirstMatchFromLeftmost(s, matchAt, i + 1);
    }
  }

  /** The leftmost match found from position 0. */
  function FirstMatch<T>(s: string, matchAt: (string, nat) -> Option<T>): Option<(nat, T)> {
    FirstMatchFrom(s, matchAt, 0)
  }

  /** With no match at any position from `i` on, the search finds nothing. */
  lemma {:induction false} NoMatchFrom<T>(s: string, matchAt: (string, nat) -> Option<T>, i: nat)
    requires i <= |s|
    requires forall j :: i <= j <= |s| ==> matchAt(s, j).None?
    decreases |s| - i
    ensures FirstMatchFrom(s, matchAt, i) == None
  {
    if i < |s| {
      NoMatchFrom(s, matchAt, i + 1);
    }
  }

  /** A match at `p` with none before it is the leftmost one. */
  lemma FirstMatchIs<T>(s: string, matchAt: (string, nat) -> Option<T>, p: nat)
    requires p <= |s| && matchAt(s, p).Some?
    requires forall j :: 0 <= j < p ==> matchAt(s, j).None?
    ensures FirstMatch(s, matchAt) == Some((p, matchAt(s, p).value))
  {
    FirstMatchFromLeftmost(s, matchAt, 0);
  }

  /** End of the greedy `\s*` run starting at `i`. */
  function SkipSpaces(s: string, i: nat): (k: nat)
    requires i <= |s|
    decreases |s| - i
    ensures i <= k <= |s|
    ensures forall j :: i <= j < k ==> IsSpace(s[j])
    ensures k < |s| ==> !IsSpace(s[k])
  {
    if i < |s| && IsSpace(s[i]) then SkipSpaces(s, i + 1) else i
  }

  /** End of the line holding position `i`: the next `\n` at or after `i`, or the end of `s`. */
  function LineEnd(s: string, i: nat): (k: nat)
    requires i <= |s|
    decreases |s| - i
    ensures i <= k <= |s|
    ensures forall j :: i <= j < k ==> s[j] != '\n'
    ensures k < |s| ==> s[k] == '\n'
  {
    if i < |s| && s[i] != '\n' then LineEnd(s, i + 1) else i
  }

  /** The last position in `a .. b-1` that is not a newline, as a backtracking `\s*` finds it. */
  function LastNonNewline(s: string, a: nat, b: nat): (r: Option<nat>)
    requires a <= b <= |s|
    decreases b - a
    ensures r.Some? ==> a <= r.value < b && s[r.value] != '\n' && forall j :: r.value < j < b ==> s[j] == '\n'
    ensures r.None? ==> forall j :: a <= j < b ==> s[j] == '\n'
  {
    if a == b then None else if s[b - 1] != '\n' then Some(b - 1) else LastNonNewline(s, a, b - 1)
  }

  /** End of the greedy run of decimal digits starting at `i` (`\d+` when non-empty). */
  function SkipDigits(s: string, i: nat): (k: nat)
    requires i <= |s|
    decreases |s| - i
    ensures i <= k <= |s|
    ensures AllDigits(s[i..k])
    ensures k < |s| ==> !IsDigit(s[k])
  {
    if i < |s| && IsDigit(s[i]) then
      var k := SkipDigits(s, i + 1);
      assert s[i..k] == [s[i]] + s[i + 1..k];
      k
    else i
  }

  // ---------------------------------------------------------------- \b([1-7])\b

  /** `\b([1-7])\b` matches at `i`: a digit 1..7 with no word character on either side. */
  predicate StandaloneDigitAt(s: string, i: nat) {
    i < |s| && '1' <= s[i] <= '7'
    && (i == 0 || !IsWordChar(s[i - 1]))
    && (i + 1 == |s| || !IsWordChar(s[i + 1]))
  }

  function StandaloneDigitMatch(s: string, i: nat): Option<int> {
    if StandaloneDigitAt(s, i) then Some(s[i] as int - '0' as int) else None
  }

  /** The value of the leftmost `\b([1-7])\b` match, if any. */
  function FirstStandaloneDigit(s: string): (r: Option<int>)
    ensures r.Some? ==> 1 <= r.value <= 7
    ensures r.None? <==> forall i :: 0 <= i < |s| ==> !StandaloneDigitAt(s, i)
  {
    FirstMatchFromLeftmost(s, StandaloneDigitMatch, 0);
    match FirstMatch(s, StandaloneDigitMatch)
    case Some((p, d)) =>
      assert StandaloneDigitMatch(s, p).Some?;
      Some(d)
    case None =>
      assert forall i :: 0 <= i < |s| ==> !StandaloneDigitAt(s, i) by {
        forall i | 0 <= i < |s| ensures !StandaloneDigitAt(s, i) {
          assert StandaloneDigitMatch(s, i).None?;
        }
      }
      None
  }

  /** A standalone digit at `i` with none before it is what `FirstStandaloneDigit` finds. */
  lemma FirstStandaloneDigitAt(s: string, i: nat)
    requires StandaloneDigitAt(s, i)
    requires forall j :: 0 <= j < i ==> !StandaloneDigitAt(s, j)
    ensures FirstStandaloneDigit(s) == Some(s[i] as int - '0' as int)
  {
    FirstMatchIs(s, StandaloneDigitMatch, i);
  }

  /**
   * The fallback answer used when a reply is not JSON: the first standalone
   * digit 1..7 (`re.findall(r'\b[1-7]\b', ...)[0]`), else 4.
   */
  function FallbackAnswer(content: string): (a: int)
    ensures 1 <= a <= 7
    ensures (forall i :: 0 <= i < |content| ==> !StandaloneDigitAt(content, i)) ==> a == 4
    ensures forall i :: 0 <= i < |content| && StandaloneDigitAt(content, i)
                        && (forall j :: 0 <= j < i ==> !StandaloneDigitAt(content, j))
                        ==> a == content[i] as int - '0' as int
  {
    match FirstStandaloneDigit(content)
    case Some(d) =>
      assert forall i :: 0 <= i < |content| && StandaloneDigitAt(content, i)
                        && (forall j :: 0 <= j < i ==> !StandaloneDigitAt(content, j))
                        ==> d == content[i] as int - '0' as int by {
        forall i | 0 <= i < |content| && StandaloneDigitAt(content, i)
                   && (forall j :: 0 <= j < i ==> !StandaloneDigitAt(content, j))
          ensures d == content[i] as int - '0' as int {
          FirstStandaloneDigitAt(content, i);
        }
      }
      d
    case None => 4
  }

  /** A digit glued to a Hangul syllable, as in `5점`, is not standalone. */
  lemma DigitBeforeHangulIsNotStandalone(s: string, i: nat)
    requires i + 1 < |s| && '\U{AC00}' <= s[i + 1] <= '\U{D7A3}'
    ensures !StandaloneDigitAt(s, i)
  {
  }

  lemma {:induction false} FiveJeomHasNoScore()
    ensures FirstStandaloneDigit("5점") == None
    ensures FallbackAnswer("5점") == 4
  {
    var s := "5점";
    DigitBeforeHangulIsNotStandalone(s, 0);
    assert !StandaloneDigitAt(s, 1);
  }
}
