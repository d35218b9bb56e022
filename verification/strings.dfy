/**
 * The parts of ECMAScript string handling the application relies on:
 * `String.prototype.indexOf`, `String.prototype.replace` with a string
 * pattern (including the `$` patterns of GetSubstitution, section 22.1.3.19.1
 * of ECMAScript 2024) and `String.prototype.trim`.
 */
module Strings {
  import opened Wrappers

  /** `pat` occurs in `s` starting at index `i`. */
  predicate OccursAt(s: string, pat: string, i: int) {
    0 <= i && i + |pat| <= |s| && s[i..i + |pat|] == pat
  }

  /** Every index at which `pat` occurs in `s`. */
  function Occurrences(s: string, pat: string): set<nat> {
    set i: nat | i + |pat| <= |s| && OccursAt(s, pat, i)
  }

  /** No character of `s` is `c`. */
  predicate Lacks(s: string, c: char) {
    forall k :: 0 <= k < |s| ==> s[k] != c
  }

  /** A concatenation lacks `c` when both halves do. */
  lemma LacksAppend(a: string, b: string, c: char)
    requires Lacks(a, c) && Lacks(b, c)
    ensures Lacks(a + b, c)
  {
    forall k | 0 <= k < |a + b| ensures (a + b)[k] != c {
      if k >= |a| {
        assert (a + b)[k] == b[k - |a|];
      }
    }
  }

  /** The first index at or after `from` where `pat` occurs in `s`, if any. */
  function IndexOfFrom(s: string, pat: string, from: nat): (r: Option<nat>)
    decreases |s| - from
    ensures r.Some? ==> from <= r.value && OccursAt(s, pat, r.value)
    ensures r.Some? ==> forall j :: from <= j < r.value ==> !OccursAt(s, pat, j)
    ensures r.None? ==> forall j :: from <= j ==> !OccursAt(s, pat, j)
  {
    if from + |pat| > |s| then None
    else if s[from..from + |pat|] == pat then Some(from)
    else IndexOfFrom(s, pat, from + 1)
  }

  /** `s.indexOf(pat)`, with -1 rendered as `None`. */
  function IndexOf(s: string, pat: string): (r: Option<nat>)
    ensures r.Some? ==> OccursAt(s, pat, r.value)
    ensures r.Some? ==> forall j :: 0 <= j < r.value ==> !OccursAt(s, pat, j)
    ensures r.None? <==> forall j :: !OccursAt(s, pat, j)
  {
    IndexOfFrom(s, pat, 0)
  }

  /** The first occurrence is found wherever it lies. */
  lemma IndexOfFirst(s: string, pat: string, i: nat)
    requires OccursAt(s, pat, i)
    requires forall j :: 0 <= j < i ==> !OccursAt(s, pat, j)
    ensures IndexOf(s, pat) == Some(i)
  {
  }

  /**
   * GetSubstitution for a string pattern, which has no capture groups:
   * `$$` inserts `$`, `$&` the matched text, `` $` `` the text before the
   * match, `$'` the text after it; every other `$` is copied literally
   * (so `$1` and `$<` stay as written).
   */
  function Substitution(replacement: string, matched: string, before: string, after: string): (r: string)
    ensures Lacks(replacement, '$') ==> r == replacement
    decreases |replacement|
  {
    if |replacement| == 0 then ""
    else if replacement[0] == '$' && |replacement| >= 2 && replacement[1] == '$' then
      "$" + Substitution(replacement[2..], matched, before, after)
    else if replacement[0] == '$' && |replacement| >= 2 && replacement[1] == '&' then
      matched + Substitution(replacement[2..], matched, before, after)
    else if replacement[0] == '$' && |replacement| >= 2 && replacement[1] == '`' then
      before + Substitution(replacement[2..], matched, before, after)
    else if replacement[0] == '$' && |replacement| >= 2 && replacement[1] == '\'' then
      after + Substitution(replacement[2..], matched, before, after)
    else
      [replacement[0]] + Substitution(replacement[1..], matched, before, after)
  }

  /** `s.replace(pat, replacement)` with a string `pat`: only the first occurrence is replaced. */
  function ReplaceFirst(s: string, pat: string, replacement: string): (r: string)
    ensures (forall j :: !OccursAt(s, pat, j)) ==> r == s
  {
    match IndexOf(s, pat)
    case None => s
    case Some(i) => s[..i] + Substitution(replacement, pat, s[..i], s[i + |pat|..]) + s[i + |pat|..]
  }

  /**
   * Replacing in `a + pat + b`, where `pat` does not occur earlier, with a
   * `$`-free replacement puts the replacement exactly where `pat` stood.
   */
  lemma ReplaceFirstAt(a: string, pat: string, b: string, replacement: string)
    requires forall j :: 0 <= j < |a| ==> !OccursAt(a + pat + b, pat, j)
    requires Lacks(replacement, '$')
    ensures ReplaceFirst(a + pat + b, pat, replacement) == a + replacement + b
  {
    ReplaceFirstAtSub(a, pat, b, replacement);
  }

  /** Replacing in `a + pat + b` with no earlier occurrence expands the replacement at `pat`. */
  lemma ReplaceFirstAtSub(a: string, pat: string, b: string, replacement: string)
    requires forall j :: 0 <= j < |a| ==> !OccursAt(a + pat + b, pat, j)
    ensures ReplaceFirst(a + pat + b, pat, replacement) == a + Substitution(replacement, pat, a, b) + b
  {
    var s := a + pat + b;
    assert s[|a|..|a| + |pat|] == pat;
    IndexOfFirst(s, pat, |a|);
    assert s[..|a|] == a;
    assert s[|a| + |pat|..] == b;
  }

  /** `$&` expands to the matched text. */
  lemma MatchedPattern(matched: string, before: string, after: string)
    ensures Substitution("$&", matched, before, after) == matched
  {
    assert Substitution("$&", matched, before, after) == matched + Substitution("", matched, before, after);
    assert matched + "" == matched;
  }

  /** `a + b + c + d + e` with its last three parts grouped. */
  lemma GroupTail(a: string, b: string, c: string, d: string, e: string)
    ensures a + b + c + d + e == a + b + (c + d + e)
  {
  }

  /** A pattern that starts with `c` cannot occur inside a prefix free of `c`. */
  lemma NoEarlyOccurrence(a: string, pat: string, b: string, c: char)
    requires |pat| > 0 && pat[0] == c
    requires Lacks(a, c)
    ensures forall j :: 0 <= j < |a| ==> !OccursAt(a + pat + b, pat, j)
  {
  }

  /**
   * Replacing a pattern that starts with `c`, in a string whose part before
   * the pattern is free of `c`, puts a `$`-free replacement in its place.
   */
  lemma ReplaceFirstAfterFree(a: string, pat: string, b: string, replacement: string, c: char)
    requires |pat| > 0 && pat[0] == c
    requires Lacks(a, c)
    requires Lacks(replacement, '$')
    ensures ReplaceFirst(a + pat + b, pat, replacement) == a + replacement + b
  {
    NoEarlyOccurrence(a, pat, b, c);
    ReplaceFirstAt(a, pat, b, replacement);
  }

  /** The first occurrence of `pat` in `x` is its first in `a + x + rest` when `a` cannot hold its start. */
  lemma IndexOfInside(a: string, x: string, rest: string, pat: string)
    requires |pat| > 0 && Lacks(a, pat[0])
    requires IndexOf(x, pat).Some?
    ensures IndexOf(a + x + rest, pat) == Some(|a| + IndexOf(x, pat).value)
  {
    var s := a + x + rest;
    var i := IndexOf(x, pat).value;
    var p := |a| + i;
    assert s[p..p + |pat|] == x[i..i + |pat|];
    forall j | 0 <= j < p
      ensures !OccursAt(s, pat, j)
    {
      if j < |a| {
        assert s[j] == a[j];
      } else if j + |pat| <= |s| {
        assert s[j..j + |pat|] == x[j - |a|..j - |a| + |pat|];
        assert !OccursAt(x, pat, j - |a|);
      }
    }
    IndexOfFirst(s, pat, p);
  }

  /**
   * Replacing in `a + x + rest`, where `a` cannot hold the start of `pat` and
   * `pat` occurs in `x`, replaces inside `x` alone; the replacement is `$`-free.
   */
  lemma ReplaceFirstInside(a: string, x: string, rest: string, pat: string, replacement: string)
    requires |pat| > 0 && Lacks(a, pat[0])
    requires IndexOf(x, pat).Some?
    requires Lacks(replacement, '$')
    ensures ReplaceFirst(a + x + rest, pat, replacement) == a + ReplaceFirst(x, pat, replacement) + rest
  {
    var i := IndexOf(x, pat).value;
    var x1, x2 := x[..i], x[i + |pat|..];
    SplitAround(x, pat, i);
    assert ReplaceFirst(x, pat, replacement) == x1 + replacement + x2 by {
      ReplaceFirstAt(x1, pat, x2, replacement);
    }
    assert ReplaceFirst(a + x + rest, pat, replacement) == (a + x1) + replacement + (x2 + rest) by {
      IndexOfInside(a, x, rest, pat);
      Reassociate(a, x1, pat, x2, rest);
      ReplaceFirstAt(a + x1, pat, x2 + rest, replacement);
    }
    Regroup(ReplaceFirst(a + x + rest, pat, replacement), ReplaceFirst(x, pat, replacement),
            a, x1, replacement, x2, rest);
  }

  /** A string is the text before an occurrence, the pattern, and the text after it. */
  lemma SplitAround(x: string, pat: string, i: nat)
    requires OccursAt(x, pat, i)
    ensures x == x[..i] + pat + x[i + |pat|..]
  {
  }

  /** `a + (x1 + pat + x2) + rest`, grouped around `pat`. */
  lemma Reassociate(a: string, x1: string, pat: string, x2: string, rest: string)
    ensures a + (x1 + pat + x2) + rest == (a + x1) + pat + (x2 + rest)
  {
  }

  /** Moving the outer pieces of a five-part concatenation around its middle three. */
  lemma Regroup(u: string, v: string, a: string, x1: string, r: string, x2: string, rest: string)
    requires u == (a + x1) + r + (x2 + rest)
    requires v == x1 + r + x2
    ensures u == a + v + rest
  {
  }

  /** In `pre + x + mid + y + post`, `x` and `y` occur where they were put. */
  lemma PartsOccur(pre: string, x: string, mid: string, y: string, post: string)
    ensures var h := pre + x + mid + y + post;
      OccursAt(h, x, |pre|) && OccursAt(h, y, |pre| + |x| + |mid|)
  {
    var h := pre + x + mid + y + post;
    assert h[|pre|..|pre| + |x|] == x;
    assert h[|pre| + |x| + |mid|..|pre| + |x| + |mid| + |y|] == y;
  }

  /** JavaScript's WhiteSpace and LineTerminator characters, which `trim` strips. */
  predicate IsWhiteSpace(c: char) {
    || c == '\t' || c == '\n' || c == '\U{000B}' || c == '\U{000C}' || c == '\r'
    || c == ' ' || c == '\U{00A0}' || c == '\U{1680}'
    || ('\U{2000}' <= c <= '\U{200A}')
    || c == '\U{2028}' || c == '\U{2029}' || c == '\U{202F}' || c == '\U{205F}'
    || c == '\U{3000}' || c == '\U{FEFF}'
  }

  /** Every character of `s` is white space (vacuously so for ""). */
  predicate AllWhiteSpace(s: string) {
    forall k :: 0 <= k < |s| ==> IsWhiteSpace(s[k])
  }

  /** The first index at or after `i` whose character is not white space (or `|s|`). */
  function SkipWhiteSpace(s: string, i: nat): (j: nat)
    requires i <= |s|
    ensures i <= j <= |s|
    ensures forall k :: i <= k < j ==> IsWhiteSpace(s[k])
    ensures j < |s| ==> !IsWhiteSpace(s[j])
    decreases |s| - i
  {
    if i < |s| && IsWhiteSpace(s[i]) then SkipWhiteSpace(s, i + 1) else i
  }

  /** The least `b` in `lo..j` such that `s[b..j]` is all white space. */
  function BackOverWhiteSpace(s: string, lo: nat, j: nat): (b: nat)
    requires lo <= j <= |s|
    ensures lo <= b <= j
    ensures forall k :: b <= k < j ==> IsWhiteSpace(s[k])
    ensures b > lo ==> !IsWhiteSpace(s[b - 1])
    decreases j
  {
    if j > lo && IsWhiteSpace(s[j - 1]) then BackOverWhiteSpace(s, lo, j - 1) else j
  }

  /** Scanning back over white space in `s[a..]` gives the same stop as in `s` from `a`. */
  lemma BackOverSuffix(s: string, a: nat, j: nat)
    requires a <= j <= |s|
    ensures BackOverWhiteSpace(s, a, j) == a + BackOverWhiteSpace(s[a..], 0, j - a)
    decreases j
  {
    if j > a {
      assert s[a..][j - a - 1] == s[j - 1];
      BackOverSuffix(s, a, j - 1);
    }
  }

  /** `s` without its leading white space. */
  function TrimStart(s: string): (r: string)
    ensures |r| <= |s| && r == s[|s| - |r|..]
    ensures AllWhiteSpace(s[..|s| - |r|])
    ensures r != [] ==> !IsWhiteSpace(r[0])
  {
    s[SkipWhiteSpace(s, 0)..]
  }

  /** `s` without its trailing white space. */
  function TrimEnd(s: string): (r: string)
    ensures |r| <= |s| && r == s[..|r|]
    ensures AllWhiteSpace(s[|r|..])
    ensures r != [] ==> !IsWhiteSpace(r[|r| - 1])
  {
    s[..BackOverWhiteSpace(s, 0, |s|)]
  }

  /** Trimming the start and then the end keeps the slice between the two scans. */
  lemma TrimBothEnds(s: string, a: nat, b: nat)
    requires a == SkipWhiteSpace(s, 0) && b == BackOverWhiteSpace(s, a, |s|)
    ensures TrimEnd(TrimStart(s)) == s[a..b]
  {
    var t := TrimStart(s);
    var c := BackOverWhiteSpace(t, 0, |t|);
    TrimStartIs(s);
    TrimEndIs(t);
    BackOverSuffix(s, a, |s|);
    SliceOfSuffix(s, t, a, c);
    Chain(TrimEnd(t), t[..c], s[a..b]);
  }

  /** `TrimStart` is the suffix after the leading white space. */
  lemma TrimStartIs(s: string)
    ensures TrimStart(s) == s[SkipWhiteSpace(s, 0)..]
  {
  }

  /** `TrimEnd` is the prefix before the trailing white space. */
  lemma TrimEndIs(t: string)
    ensures TrimEnd(t) == t[..BackOverWhiteSpace(t, 0, |t|)]
  {
  }

  /** Equality chains through a middle term. */
  lemma Chain(x: string, y: string, z: string)
    requires x == y && y == z
    ensures x == z
  {
  }

  /** A prefix of a suffix is a slice of the whole. */
  lemma SliceOfSuffix(s: string, t: string, a: nat, c: nat)
    requires a <= |s| && t == s[a..] && c <= |t|
    ensures t[..c] == s[a..a + c]
  {
  }

  /**
   * `s.trim()`: the slice of `s` left after its leading and trailing white
   * space is removed.
   */
  function Trim(s: string): (r: string)
    ensures var k := |s| - |TrimStart(s)|;
      && k + |r| <= |s|
      && r == s[k..k + |r|]
      && AllWhiteSpace(s[..k])
      && AllWhiteSpace(s[k + |r|..])
    ensures r == [] <==> AllWhiteSpace(s)
    ensures r != [] ==> !IsWhiteSpace(r[0]) && !IsWhiteSpace(r[|r| - 1])
  {
    var a := SkipWhiteSpace(s, 0);
    var b := BackOverWhiteSpace(s, a, |s|);
    assert a < |s| ==> b > a;
    s[a..b]
  }

  /** `trim` is `trimStart` followed by `trimEnd`. */
  lemma TrimComposes(s: string)
    ensures Trim(s) == TrimEnd(TrimStart(s))
  {
    var a := SkipWhiteSpace(s, 0);
    TrimBothEnds(s, a, BackOverWhiteSpace(s, a, |s|));
  }
}
