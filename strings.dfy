/**
 * The few Python string operations the services rely on: `str.isspace`,
 * `str.strip`, `str.startswith`, `str.endswith`, `str.replace` and
 * substring search, on strings of Unicode code points.
 */
module Strings {

  /** The code points Python's `str.isspace` accepts. */
  const Whitespace: set<char> := {
    '\t', '\n', '\U{0b}', '\U{0c}', '\r', '\U{1c}', '\U{1d}', '\U{1e}', '\U{1f}', ' ',
    '\U{85}', '\U{a0}', '\U{1680}',
    '\U{2000}', '\U{2001}', '\U{2002}', '\U{2003}', '\U{2004}', '\U{2005}',
    '\U{2006}', '\U{2007}', '\U{2008}', '\U{2009}', '\U{200a}',
    '\U{2028}', '\U{2029}', '\U{202f}', '\U{205f}', '\U{3000}'
  }

  /** Python's `str.isspace` for a single code point. */
  predicate IsSpace(c: char) {
    c in Whitespace
  }

  ghost predicate AllSpace(s: string) {
    forall i :: 0 <= i < |s| ==> IsSpace(s[i])
  }

  /** Neither starts nor ends with whitespace. */
  predicate IsStripped(s: string) {
    s == [] || (!IsSpace(s[0]) && !IsSpace(s[|s| - 1]))
  }

  /** Every code point of `s` from `lo` up to (not including) `hi` is whitespace. */
  ghost predicate SpaceBetween(s: string, lo: nat, hi: nat)
    requires lo <= hi <= |s|
  {
    forall k :: lo <= k < hi ==> IsSpace(s[k])
  }

  /** The first index at or after `i` that does not hold whitespace (|s| if none). */
  function SkipSpace(s: string, i: nat): (j: nat)
    requires i <= |s|
    ensures i <= j <= |s| && SpaceBetween(s, i, j)
    ensures j < |s| ==> !IsSpace(s[j])
    decreases |s| - i
  {
    if i < |s| && IsSpace(s[i]) then SkipSpace(s, i + 1) else i
  }

  /** The end of `s[lo..hi]` once its trailing whitespace is dropped. */
  function SkipSpaceBack(s: string, lo: nat, hi: nat): (j: nat)
    requires lo <= hi <= |s|
    ensures lo <= j <= hi && SpaceBetween(s, j, hi)
    ensures j > lo ==> !IsSpace(s[j - 1])
    decreases hi
  {
    if hi > lo && IsSpace(s[hi - 1]) then SkipSpaceBack(s, lo, hi - 1) else hi
  }

  /** Where the text `str.strip()` keeps begins. */
  function StripStart(s: string): (i: nat)
    ensures i <= |s|
  {
    SkipSpace(s, 0)
  }

  /** Where the text `str.strip()` keeps ends. */
  function StripEnd(s: string): (j: nat)
    ensures StripStart(s) <= j <= |s|
  {
    SkipSpaceBack(s, StripStart(s), |s|)
  }

  /**
   * Python's `str.strip()`: the slice of the input between StripStart and
   * StripEnd, everything cut away on either side is whitespace, and the
   * result itself neither starts nor ends with whitespace.
   */
  function Strip(s: string): (r: string)
    ensures r == s[StripStart(s)..StripEnd(s)]
    ensures SpaceBetween(s, 0, StripStart(s)) && SpaceBetween(s, StripEnd(s), |s|)
    ensures IsStripped(r)
  {
    var i, j := StripStart(s), StripEnd(s);
    assert i < j ==> s[i..j][0] == s[i] && s[i..j][j - i - 1] == s[j - 1];
    s[i..j]
  }

  /** A string is stripped to nothing exactly when it is all whitespace. */
  lemma {:induction false} StripEmptyIffAllSpace(s: string)
    ensures Strip(s) == [] <==> AllSpace(s)
  {
    var i, j := StripStart(s), StripEnd(s);
    if i < j {
      assert !IsSpace(s[j - 1]);
    }
  }

  /** Stripping a stripped string changes nothing. */
  lemma StripStripped(s: string)
    requires IsStripped(s)
    ensures Strip(s) == s
  {
    if s != [] {
      assert StripStart(s) == 0;
      assert StripEnd(s) == |s|;
    }
  }

  /** `str.strip` is idempotent. */
  lemma StripIdempotent(s: string)
    ensures Strip(Strip(s)) == Strip(s)
  {
    StripStripped(Strip(s));
  }

  /** Stripping removes only whitespace: any other code point occurs in the stripped text exactly when it occurs in the input. */
  lemma StripKeepsNonSpace(s: string, c: char)
    requires !IsSpace(c)
    ensures c in Strip(s) <==> c in s
  {
    var i, j := StripStart(s), StripEnd(s);
    if c in Strip(s) {
      var k :| 0 <= k < |Strip(s)| && Strip(s)[k] == c;
      assert s[i + k] == c;
    }
    if c in s {
      var k :| 0 <= k < |s| && s[k] == c;
      assert i <= k < j;
      assert Strip(s)[k - i] == c;
    }
  }

  predicate StartsWith(s: string, prefix: string) {
    |prefix| <= |s| && s[..|prefix|] == prefix
  }

  predicate EndsWith(s: string, suffix: string) {
    |suffix| <= |s| && s[|s| - |suffix|..] == suffix
  }

  /** `t` occurs in `s` starting at index `i`. */
  predicate OccursAt(s: string, t: string, i: nat) {
    i + |t| <= |s| && s[i..i + |t|] == t
  }

  ghost predicate Contains(s: string, t: string) {
    exists i: nat :: OccursAt(s, t, i)
  }

  /** `t` occurs at least twice in `s`, without the two occurrences overlapping. */
  ghost predicate ContainsTwice(s: string, t: string) {
    exists i: nat, j: nat :: i + |t| <= j && OccursAt(s, t, i) && OccursAt(s, t, j)
  }

  /** `n` copies of `c`. */
  function Repeat(c: char, n: nat): (r: string)
    ensures |r| == n && forall i :: 0 <= i < n ==> r[i] == c
  {
    if n == 0 then [] else [c] + Repeat(c, n - 1)
  }

  /**
   * Python's `str.replace(pattern, replacement)` for a non-empty `pattern`: scans from the
   * left and rewrites every non-overlapping occurrence.
   */
  function ReplaceAll(s: string, pattern: string, replacement: string): (r: string)
    requires pattern != []
    ensures (forall i: nat :: !OccursAt(s, pattern, i)) ==> r == s
    decreases |s|
  {
    if |s| == 0 then s
    else if StartsWith(s, pattern) then
      assert OccursAt(s, pattern, 0);
      replacement + ReplaceAll(s[|pattern|..], pattern, replacement)
    else
      assert forall i: nat :: OccursAt(s[1..], pattern, i) ==> OccursAt(s, pattern, i + 1) by {
        forall i: nat | OccursAt(s[1..], pattern, i) ensures OccursAt(s, pattern, i + 1) {
          assert s[i + 1..i + 1 + |pattern|] == s[1..][i..i + |pattern|];
        }
      }
      [s[0]] + ReplaceAll(s[1..], pattern, replacement)
  }

  /** A string not starting with the pattern's first code point keeps that code point through ReplaceAll. */
  lemma ReplaceAllKeepsHead(s: string, pattern: string, replacement: string)
    requires pattern != [] && s != [] && s[0] != pattern[0]
    ensures ReplaceAll(s, pattern, replacement) == [s[0]] + ReplaceAll(s[1..], pattern, replacement)
  {
    if |pattern| <= |s| {
      assert s[..|pattern|][0] == s[0];
    }
  }

  /** A stem that never holds the pattern's first code point passes through ReplaceAll unchanged. */
  lemma {:induction false} ReplaceAllPassesStem(stem: string, rest: string, pattern: string, replacement: string)
    requires pattern != []
    requires forall i :: 0 <= i < |stem| ==> stem[i] != pattern[0]
    ensures ReplaceAll(stem + rest, pattern, replacement) == stem + ReplaceAll(rest, pattern, replacement)
    decreases |stem|
  {
    if stem == [] {
      assert stem + rest == rest;
    } else {
      var s := stem + rest;
      var r := ReplaceAll(rest, pattern, replacement);
      assert s[0] == stem[0] && s[1..] == stem[1..] + rest;
      calc {
        ReplaceAll(s, pattern, replacement);
        { ReplaceAllKeepsHead(s, pattern, replacement); }
        [stem[0]] + ReplaceAll(stem[1..] + rest, pattern, replacement);
        { ReplaceAllPassesStem(stem[1..], rest, pattern, replacement); }
        [stem[0]] + (stem[1..] + r);
        stem + r;
      }
    }
  }
}
