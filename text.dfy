/**
 * Python string operations the pipeline relies on, over Dafny strings
 * (sequences of Unicode scalar values, so `|s|` is Python's `len(s)`).
 */
module Text {

  // ---------------------------------------------------------------- characters

  /** Python's `str.isspace()` for one code point. */
  predicate IsSpace(c: char) {
    c == ' ' || ('\t' <= c <= '\r') || ('\U{1C}' <= c <= '\U{1F}') || c == '\U{85}' || c == '\U{A0}'
    || c == '\U{1680}' || ('\U{2000}' <= c <= '\U{200A}') || c == '\U{2028}' || c == '\U{2029}'
    || c == '\U{202F}' || c == '\U{205F}' || c == '\U{3000}'
  }

  predicate IsDigit(c: char) {
    '0' <= c <= '9'
  }

  predicate IsAsciiUpper(c: char) {
    'A' <= c <= 'Z'
  }

  predicate IsAsciiLower(c: char) {
    'a' <= c <= 'z'
  }

  predicate IsAsciiLetter(c: char) {
    IsAsciiUpper(c) || IsAsciiLower(c)
  }

  /**
   * Python's `str.isalnum()` for one code point, restricted to ASCII letters and
   * digits, Latin-1 letters, Hangul (syllables and both jamo blocks) and CJK
   * unified ideographs.
   */
  predicate IsAlnum(c: char) {
    IsAsciiLetter(c) || IsDigit(c)
    || ('\U{C0}' <= c <= '\U{FF}' && c != '\U{D7}' && c != '\U{F7}')
    || ('\U{1100}' <= c <= '\U{11FF}') || ('\U{3131}' <= c <= '\U{318E}')
    || ('\U{AC00}' <= c <= '\U{D7A3}') || ('\U{4E00}' <= c <= '\U{9FFF}')
  }

  function LowerChar(c: char): char {
    if IsAsciiUpper(c) then (c as int + 32) as char else c
  }

  function UpperChar(c: char): char {
    if IsAsciiLower(c) then (c as int - 32) as char else c
  }

  // ---------------------------------------------------------------- substrings

  /** `sub` occurs in `s` starting at index `i`. */
  predicate OccursAt(s: string, sub: string, i: int) {
    0 <= i && i + |sub| <= |s| && s[i..i + |sub|] == sub
  }

  /** Python's `sub in s`. */
  predicate Contains(s: string, sub: string) {
    exists i | 0 <= i <= |s| :: OccursAt(s, sub, i)
  }

  predicate StartsWith(s: string, prefix: string) {
    OccursAt(s, prefix, 0)
  }

  lemma ContainsAt(s: string, sub: string, i: int)
    requires OccursAt(s, sub, i)
    ensures Contains(s, sub)
  {
  }

  /** `a` is a prefix of `b`. */
  predicate IsPrefix(a: string, b: string) {
    a <= b
  }

  lemma PrefixOfConcat(a: string, b: string, c: string)
    requires IsPrefix(a, b)
    ensures IsPrefix(a, b + c)
  {
  }

  /** An occurrence inside a prefix is an occurrence in the whole string. */
  lemma OccursInPrefix(x: string, y: string, sub: string, i: int)
    requires IsPrefix(x, y) && OccursAt(x, sub, i)
    ensures OccursAt(y, sub, i)
  {
    assert y[i..i + |sub|] == x[i..i + |sub|];
  }

  lemma ContainsEnd(a: string, b: string)
    ensures Contains(a + b, b)
  {
    assert (a + b)[|a|..|a| + |b|] == b;
    ContainsAt(a + b, b, |a|);
  }

  lemma ContainsExtend(a: string, b: string, c: string)
    requires Contains(a, b)
    ensures Contains(a + c, b)
  {
    var i :| 0 <= i <= |a| && OccursAt(a, b, i);
    assert (a + c)[i..i + |b|] == a[i..i + |b|];
    ContainsAt(a + c, b, i);
  }

  /** An occurrence survives appending text after it, and moves by `|x|` when `x` is put before. */
  lemma OccursInConcat(x: string, y: string, sub: string, i: int)
    ensures OccursAt(x, sub, i) ==> OccursAt(x + y, sub, i)
    ensures OccursAt(y, sub, i) ==> OccursAt(x + y, sub, |x| + i)
  {
    if OccursAt(x, sub, i) {
      assert (x + y)[i..i + |sub|] == x[i..i + |sub|];
    }
    if OccursAt(y, sub, i) {
      assert (x + y)[|x| + i..|x| + i + |sub|] == y[i..i + |sub|];
    }
  }

  /** Python's `s[:n]`. */
  function Take(s: string, n: nat): (r: string)
    ensures |r| == if |s| <= n then |s| else n
    ensures r <= s
  {
    if |s| <= n then s else s[..n]
  }

  /** The shortening written `s[:n] + "..."` when `len(s) > n`, else `s`. */
  function Truncate(s: string, n: nat): (r: string)
    ensures |s| <= n ==> r == s
    ensures |s| > n ==> |r| == n + 3 && r[..n] == s[..n] && r[n..] == "..."
  {
    if |s| > n then s[..n] + "..." else s
  }

  // ---------------------------------------------------------------- case

  /** Python's `str.lower()` on the ASCII letters. */
  function Lower(s: string): (r: string)
    ensures |r| == |s|
    ensures forall i :: 0 <= i < |s| ==> r[i] == LowerChar(s[i])
  {
    if s == [] then [] else [LowerChar(s[0])] + Lower(s[1..])
  }

  /** Python's `str.capitalize()` on ASCII letters: first upper, rest lower. */
  function Capitalize(s: string): string {
    if s == [] then [] else [UpperChar(s[0])] + Lower(s[1..])
  }

  /**
   * Python's `str.title()` on ASCII letters: a letter is upper-cased when the
   * character before it is not a letter, lower-cased otherwise.
   */
  function Title(s: string): string {
    TitleAfter(s, false)
  }

  function TitleAfter(s: string, afterLetter: bool): string {
    if s == [] then []
    else
      var c := if !IsAsciiLetter(s[0]) then s[0] else if afterLetter then LowerChar(s[0]) else UpperChar(s[0]);
      [c] + TitleAfter(s[1..], IsAsciiLetter(s[0]))
  }

  // ---------------------------------------------------------------- strip

  /** Number of leading whitespace characters. */
  function LeadingSpaces(s: string): (k: nat)
    ensures k <= |s|
    ensures forall j :: 0 <= j < k ==> IsSpace(s[j])
    ensures k < |s| ==> !IsSpace(s[k])
  {
    if |s| > 0 && IsSpace(s[0]) then 1 + LeadingSpaces(s[1..]) else 0
  }

  /** Length of `s` without its trailing whitespace. */
  function TrimmedEnd(s: string): (e: nat)
    ensures e <= |s|
    ensures forall j :: e <= j < |s| ==> IsSpace(s[j])
    ensures e > 0 ==> !IsSpace(s[e - 1])
  {
    if |s| > 0 && IsSpace(s[|s| - 1]) then TrimmedEnd(s[..|s| - 1]) else |s|
  }

  /** Python's `str.strip()` with no argument. */
  function Strip(s: string): (r: string)
    ensures |r| <= |s|
  {
    var k := LeadingSpaces(s);
    var e := TrimmedEnd(s);
    if k < e then s[k..e] else []
  }

  /** A stripped string neither starts nor ends with whitespace. */
  lemma StripEnds(s: string)
    ensures Strip(s) != [] ==> !IsSpace(Strip(s)[0]) && !IsSpace(Strip(s)[|Strip(s)| - 1])
  {
  }

  /** What `Strip` removes is whitespace, and everything between is kept. */
  lemma StripSlice(s: string)
    ensures var k := LeadingSpaces(s);
            (Strip(s) == [] <==> forall j :: 0 <= j < |s| ==> IsSpace(s[j]))
            && (Strip(s) != [] ==> Strip(s) == s[k..TrimmedEnd(s)])
  {
  }

  /** A character that `s` lacks is lacking from `Strip(s)` too. */
  lemma StripLacks(s: string, c: char)
    requires forall j :: 0 <= j < |s| ==> s[j] != c
    ensures forall j :: 0 <= j < |Strip(s)| ==> Strip(s)[j] != c
  {
    StripSlice(s);
  }

  lemma {:induction false} StripOfNoSpace(s: string)
    requires forall j :: 0 <= j < |s| ==> !IsSpace(s[j])
    ensures Strip(s) == s
  {
    assert LeadingSpaces(s) == 0;
    assert TrimmedEnd(s) == |s|;
  }

  // ---------------------------------------------------------------- decimal numbers

  /** Python's `str.isdigit()` on ASCII digits: non-empty and all digits. */
  predicate IsDigits(s: string) {
    |s| > 0 && forall i :: 0 <= i < |s| ==> IsDigit(s[i])
  }

  predicate AllDigits(s: string) {
    forall i :: 0 <= i < |s| ==> IsDigit(s[i])
  }

  function DigitChar(d: nat): (c: char)
    requires d < 10
    ensures IsDigit(c) && c as int - '0' as int == d
  {
    ('0' as int + d) as char
  }

  /** Python's `int(s)` for a string of decimal digits (leading zeros allowed). */
  function DigitsValue(s: string): nat
    requires AllDigits(s)
  {
    if s == [] then 0 else DigitsValue(s[..|s| - 1]) * 10 + (s[|s| - 1] as int - '0' as int)
  }

  /** Python's `str(n)` for a non-negative integer. */
  function NatToString(n: nat): (r: string)
    ensures IsDigits(r)
  {
    if n < 10 then [DigitChar(n)] else NatToString(n / 10) + [DigitChar(n % 10)]
  }

  /** Python's `str(i)`. */
  function IntToString(i: int): string {
    if i < 0 then "-" + NatToString(-i) else NatToString(i)
  }

  /** Printing a number and reading it back gives the number again. */
  lemma {:induction false} NatToStringRoundTrip(n: nat)
    ensures DigitsValue(NatToString(n)) == n
  {
    var s := NatToString(n);
    if n >= 10 {
      NatToStringRoundTrip(n / 10);
      assert s[..|s| - 1] == NatToString(n / 10);
    }
  }

  /** Distinct numbers print differently, so generated ids such as `Q{n}` never collide. */
  lemma NatToStringInjective(m: nat, n: nat)
    requires NatToString(m) == NatToString(n)
    ensures m == n
  {
    NatToStringRoundTrip(m);
    NatToStringRoundTrip(n);
  }

  // ---------------------------------------------------------------- building strings

  /** Python's `sep.join(parts)`. */
  function Join(parts: seq<string>, sep: string): string {
    if |parts| == 0 then ""
    else if |parts| == 1 then parts[0]
    else parts[0] + sep + Join(parts[1..], sep)
  }

  /** The parts written one after another. */
  function Concat(parts: seq<string>): string {
    if parts == [] then "" else parts[0] + Concat(parts[1..])
  }

  /** Each part occurs in the concatenation. */
  lemma {:induction false} ConcatContains(parts: seq<string>, i: nat)
    requires i < |parts|
    ensures Contains(Concat(parts), parts[i])
  {
    var rest := Concat(parts[1..]);
    assert Concat(parts) == parts[0] + rest;
    if i == 0 {
      assert OccursAt(parts[0], parts[0], 0);
      OccursInConcat(parts[0], rest, parts[0], 0);
      ContainsAt(Concat(parts), parts[0], 0);
    } else {
      ConcatContains(parts[1..], i - 1);
      var j :| 0 <= j <= |rest| && OccursAt(rest, parts[i], j);
      OccursInConcat(parts[0], rest, parts[i], j);
      ContainsAt(Concat(parts), parts[i], |parts[0]| + j);
    }
  }

  /** Each part occurs in the joined string. */
  lemma {:induction false} JoinContains(parts: seq<string>, sep: string, i: nat)
    requires i < |parts|
    ensures Contains(Join(parts, sep), parts[i])
  {
    if |parts| == 1 {
      assert OccursAt(parts[0], parts[0], 0);
    } else {
      var rest := Join(parts[1..], sep);
      assert Join(parts, sep) == parts[0] + (sep + rest);
      if i == 0 {
        OccursInConcat(parts[0], sep + rest, parts[0], 0);
        assert OccursAt(parts[0], parts[0], 0);
        ContainsAt(Join(parts, sep), parts[0], 0);
      } else {
        JoinContains(parts[1..], sep, i - 1);
        ContainsAfter(sep, rest, parts[i]);
        ContainsAfter(parts[0], sep + rest, parts[i]);
      }
    }
  }

  /** An occurrence survives putting text before it. */
  lemma ContainsAfter(a: string, b: string, sub: string)
    requires Contains(b, sub)
    ensures Contains(a + b, sub)
  {
    var i :| 0 <= i <= |b| && OccursAt(b, sub, i);
    OccursInConcat(a, b, sub, i);
    ContainsAt(a + b, sub, |a| + i);
  }

  /** An occurrence of `c` inside an occurrence of `b` is an occurrence in the whole string. */
  lemma ContainsTransitive(a: string, b: string, c: string)
    requires Contains(a, b) && Contains(b, c)
    ensures Contains(a, c)
  {
    var i :| 0 <= i <= |a| && OccursAt(a, b, i);
    var j :| 0 <= j <= |b| && OccursAt(b, c, j);
    forall t | 0 <= t < |c|
      ensures a[i + j + t] == c[t]
    {
      assert c[t] == b[j + t] && b[j + t] == a[i + j + t];
    }
    assert a[i + j..i + j + |c|] == c;
    ContainsAt(a, c, i + j);
  }

  /** A string that lacks the first character of `sub` does not contain `sub`. */
  lemma MissingFirstChar(s: string, sub: string)
    requires |sub| > 0 && forall i :: 0 <= i < |s| ==> s[i] != sub[0]
    ensures !Contains(s, sub)
  {
    forall i | 0 <= i <= |s|
      ensures !OccursAt(s, sub, i)
    {
      if i + |sub| <= |s| {
        assert s[i..i + |sub|][0] == s[i];
      }
    }
  }

  /** Python's `s.split(c)` for a one-character separator. */
  function Split(s: string, c: char): (r: seq<string>)
    ensures |r| >= 1
    ensures forall k :: 0 <= k < |r| ==> c !in r[k]
  {
    if s == [] then [""]
    else
      var rest := Split(s[1..], c);
      if s[0] == c then [""] + rest else [[s[0]] + rest[0]] + rest[1..]
  }

  /** Splitting and joining again with the same separator gives the original string. */
  lemma {:induction false} JoinSplit(s: string, c: char)
    ensures Join(Split(s, c), [c]) == s
  {
    if s != [] {
      var rest := Split(s[1..], c);
      JoinSplit(s[1..], c);
      if s[0] == c {
        assert Split(s, c) == [""] + rest;
        assert Join(Split(s, c), [c]) == "" + [c] + Join(rest, [c]);
      } else {
        var r := Split(s, c);
        assert r == [[s[0]] + rest[0]] + rest[1..];
        if |rest| == 1 {
          assert Join(r, [c]) == [s[0]] + rest[0];
        } else {
          assert r[1..] == rest[1..];
          assert Join(r, [c]) == [s[0]] + rest[0] + [c] + Join(rest[1..], [c]);
        }
      }
    }
  }

  /** Python's `s.replace(a, b)` for single characters. */
  function ReplaceChar(s: string, a: char, b: char): (r: string)
    ensures |r| == |s|
    ensures forall i :: 0 <= i < |s| ==> r[i] == if s[i] == a then b else s[i]
  {
    if s == [] then [] else [if s[0] == a then b else s[0]] + ReplaceChar(s[1..], a, b)
  }

  /** Python's `s.replace(c, '')`. */
  function RemoveChar(s: string, c: char): (r: string)
    ensures c !in r
    ensures forall x :: x in r ==> x in s
  {
    if s == [] then [] else (if s[0] == c then [] else [s[0]]) + RemoveChar(s[1..], c)
  }

  /** Python's `s.replace(pat, rep)`: every non-overlapping occurrence, left to right. */
  function ReplaceAll(s: string, pat: string, rep: string): string
    requires |pat| > 0
    decreases |s|
  {
    if s == [] then []
    else if StartsWith(s, pat) then rep + ReplaceAll(s[|pat|..], pat, rep)
    else [s[0]] + ReplaceAll(s[1..], pat, rep)
  }

  /** Keeps the characters satisfying `keep`, as a generator expression joined with `''` does. */
  function FilterChars(s: string, keep: char -> bool): (r: string)
    ensures forall i :: 0 <= i < |r| ==> keep(r[i])
    ensures |r| <= |s|
  {
    if s == [] then [] else (if keep(s[0]) then [s[0]] else []) + FilterChars(s[1..], keep)
  }

  // ---------------------------------------------------------------- ordering

  /** Python's `a <= b` on strings: lexicographic by code point. */
  predicate StrLe(a: string, b: string) {
    |a| == 0 || (|b| > 0 && (a[0] < b[0] || (a[0] == b[0] && StrLe(a[1..], b[1..]))))
  }

  lemma {:induction false} StrLeTotal(a: string, b: string)
    ensures StrLe(a, b) || StrLe(b, a)
  {
    if |a| > 0 && |b| > 0 && a[0] == b[0] {
      StrLeTotal(a[1..], b[1..]);
    }
  }

  predicate SortedStrings(s: seq<string>) {
    forall i :: 0 <= i < |s| - 1 ==> StrLe(s[i], s[i + 1])
  }

  function InsertString(x: string, s: seq<string>): seq<string> {
    if s == [] then [x]
    else if StrLe(x, s[0]) then [x] + s
    else [s[0]] + InsertString(x, s[1..])
  }

  /** Python's `sorted(list_of_str)`. */
  function SortStrings(s: seq<string>): seq<string> {
    if s == [] then [] else InsertString(s[0], SortStrings(s[1..]))
  }

  /** The inserted string or the old head comes first. */
  lemma InsertStringHead(x: string, s: seq<string>)
    ensures InsertString(x, s)[0] == x || (s != [] && InsertString(x, s)[0] == s[0])
  {
  }

  /** Insertion adds exactly one occurrence of `x`. */
  lemma {:induction false} InsertStringPerm(x: string, s: seq<string>)
    ensures multiset(InsertString(x, s)) == multiset(s) + multiset{x}
  {
    if s != [] && !StrLe(x, s[0]) {
      InsertStringPerm(x, s[1..]);
      assert InsertString(x, s) == [s[0]] + InsertString(x, s[1..]);
      assert s == [s[0]] + s[1..];
    }
  }

  /** Insertion into a sorted sequence keeps it sorted. */
  lemma {:induction false} InsertStringSorted(x: string, s: seq<string>)
    requires SortedStrings(s)
    ensures SortedStrings(InsertString(x, s))
  {
    if s != [] && !StrLe(x, s[0]) {
      StrLeTotal(x, s[0]);
      assert SortedStrings(s[1..]) by {
        forall i | 0 <= i < |s[1..]| - 1 ensures StrLe(s[1..][i], s[1..][i + 1]) {
          assert s[1..][i] == s[i + 1];
        }
      }
      InsertStringSorted(x, s[1..]);
      InsertStringHead(x, s[1..]);
      var r := InsertString(x, s[1..]);
      assert InsertString(x, s) == [s[0]] + r;
    }
  }

  /** `SortStrings` returns a sorted rearrangement of its input. */
  lemma {:induction false} SortStringsCorrect(s: seq<string>)
    ensures SortedStrings(SortStrings(s))
    ensures multiset(SortStrings(s)) == multiset(s)
  {
    if s != [] {
      SortStringsCorrect(s[1..]);
      InsertStringSorted(s[0], SortStrings(s[1..]));
      InsertStringPerm(s[0], SortStrings(s[1..]));
      assert s == [s[0]] + s[1..];
    }
  }
}
