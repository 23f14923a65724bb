/** The Python string operations the core relies on, with Python's semantics:
    str.find, str.replace, str.join, str.strip, str.startswith, str.endswith,
    str(int) and the prefix slice s[:m]. */
module Text {

  predicate OccursAt(s: string, p: string, i: nat) {
    i + |p| <= |s| && s[i..i + |p|] == p
  }

  /** Python's `p in s`. */
  predicate Contains(s: string, p: string) {
    exists i: nat | i <= |s| :: OccursAt(s, p, i)
  }

  predicate StartsWith(s: string, p: string) {
    |p| <= |s| && s[..|p|] == p
  }

  predicate EndsWith(s: string, p: string) {
    |p| <= |s| && s[|s| - |p|..] == p
  }

  /** `s.find(p, start)`: the lowest index at or after `start` where `p` occurs, or -1. */
  function Find(s: string, p: string, start: nat): (r: int)
    ensures r == -1 || (start <= r && OccursAt(s, p, r))
    ensures r != -1 ==> forall j: nat :: start <= j < r ==> !OccursAt(s, p, j)
    ensures r == -1 <==> forall j: nat :: start <= j ==> !OccursAt(s, p, j)
    decreases |s| - start
  {
    if start + |p| > |s| then -1
    else if OccursAt(s, p, start) then start
    else Find(s, p, start + 1)
  }

  /** Searching for one character: the index found holds it, and none before it does. */
  lemma FindChar(s: string, c: char, start: nat)
    ensures Find(s, [c], start) != -1 ==>
              var n := Find(s, [c], start);
              n < |s| && s[n] == c && forall k :: start <= k < n ==> s[k] != c
    ensures Find(s, [c], start) == -1 ==> forall k :: start <= k < |s| ==> s[k] != c
  {
    forall k | start <= k < |s| && s[k] == c ensures OccursAt(s, [c], k) {
      assert s[k..k + 1] == [c];
    }
  }

  /** A character the pattern lacks, found after an occurrence's start, lies past it. */
  lemma CharAfterOccurrence(s: string, p: string, i: nat, c: char, n: nat)
    requires OccursAt(s, p, i) && i <= n < |s| && s[n] == c
    requires forall k :: 0 <= k < |p| ==> p[k] != c
    ensures n >= i + |p|
  {
  }

  /** `sep.join(parts)`. */
  function Join(parts: seq<string>, sep: string): string {
    if |parts| == 0 then ""
    else if |parts| == 1 then parts[0]
    else parts[0] + sep + Join(parts[1..], sep)
  }

  /** Joining two or more parts puts the separator into the result. */
  lemma {:induction false} JoinContainsSep(parts: seq<string>, sep: string)
    requires |parts| >= 2
    ensures OccursAt(Join(parts, sep), sep, |parts[0]|)
  {
    var rest := Join(parts[1..], sep);
    assert Join(parts, sep) == parts[0] + sep + rest;
    assert (parts[0] + sep + rest)[|parts[0]|..|parts[0]| + |sep|] == sep;
  }

  /** A joined list is empty only if its first part is. */
  lemma {:induction false} JoinNonEmpty(parts: seq<string>, sep: string)
    requires |parts| >= 1 && parts[0] != ""
    ensures |Join(parts, sep)| >= |parts[0]| > 0
  {
  }

  /** `s.replace(pat, rep)`: every non-overlapping occurrence of `pat`, scanning
      left to right, is replaced; an empty `pat` inserts `rep` around every character. */
  function ReplaceAll(s: string, pat: string, rep: string): string
    decreases |s|
  {
    if pat == [] then
      (if s == [] then rep else rep + [s[0]] + ReplaceAll(s[1..], pat, rep))
    else if |s| < |pat| then s
    else if s[..|pat|] == pat then rep + ReplaceAll(s[|pat|..], pat, rep)
    else [s[0]] + ReplaceAll(s[1..], pat, rep)
  }

  lemma OccursAtShift(s: string, p: string, i: nat, k: nat)
    requires k <= |s|
    ensures OccursAt(s[k..], p, i) <==> OccursAt(s, p, i + k)
  {
    if i + |p| <= |s| - k {
      assert s[k..][i..i + |p|] == s[i + k..i + k + |p|];
    }
  }

  /** An occurrence inside a slice is an occurrence in the slice, shifted. */
  lemma OccursInSlice(s: string, p: string, i: nat, a: nat, b: nat)
    requires OccursAt(s, p, i) && a <= i && i + |p| <= b <= |s|
    ensures OccursAt(s[a..b], p, i - a)
  {
    forall k | 0 <= k < |p| ensures s[a..b][i - a..i - a + |p|][k] == p[k] {
      assert s[a..b][i - a + k] == s[i + k] == s[i..i + |p|][k];
    }
  }

  /** Text that does not contain the pattern is returned unchanged. */
  lemma {:induction false} ReplaceAbsent(s: string, pat: string, rep: string)
    requires pat != []
    requires !Contains(s, pat)
    ensures ReplaceAll(s, pat, rep) == s
    decreases |s|
  {
    if |s| >= |pat| {
      assert !OccursAt(s, pat, 0);
      assert s[..|pat|] != pat;
      forall i: nat ensures !OccursAt(s[1..], pat, i) {
        OccursAtShift(s, pat, i, 1);
      }
      ReplaceAbsent(s[1..], pat, rep);
      assert [s[0]] + s[1..] == s;
    }
  }

  /** Replacing a pattern by itself changes nothing. */
  lemma {:induction false} ReplaceSelf(s: string, pat: string)
    ensures ReplaceAll(s, pat, pat) == s
    decreases |s|
  {
    if pat == [] {
      if s != [] {
        ReplaceSelf(s[1..], pat);
        assert [s[0]] + s[1..] == s;
      }
    } else if |s| >= |pat| {
      if s[..|pat|] == pat {
        ReplaceSelf(s[|pat|..], pat);
        assert s[..|pat|] + s[|pat|..] == s;
      } else {
        ReplaceSelf(s[1..], pat);
        assert [s[0]] + s[1..] == s;
      }
    }
  }

  /** With a replacement at least as long as the pattern, text never shrinks. */
  lemma {:induction false} ReplaceNotShorter(s: string, pat: string, rep: string)
    requires pat != [] && |rep| >= |pat|
    ensures |ReplaceAll(s, pat, rep)| >= |s|
    decreases |s|
  {
    if |s| >= |pat| {
      if s[..|pat|] == pat {
        ReplaceNotShorter(s[|pat|..], pat, rep);
      } else {
        ReplaceNotShorter(s[1..], pat, rep);
      }
    }
  }

  /** With a strictly longer replacement, text that contains the pattern grows. */
  lemma {:induction false} ReplaceGrows(s: string, pat: string, rep: string)
    requires pat != [] && |rep| > |pat|
    requires Contains(s, pat)
    ensures |ReplaceAll(s, pat, rep)| > |s|
    decreases |s|
  {
    var i: nat :| OccursAt(s, pat, i);
    assert |s| >= |pat|;
    if s[..|pat|] == pat {
      ReplaceNotShorter(s[|pat|..], pat, rep);
    } else {
      assert i != 0;
      OccursAtShift(s, pat, i - 1, 1);
      ReplaceGrows(s[1..], pat, rep);
    }
  }

  /** When the replacement begins with the pattern, the pattern survives replacement. */
  lemma {:induction false} ReplaceKeepsPattern(s: string, pat: string, rep: string)
    requires pat != [] && StartsWith(rep, pat)
    requires Contains(s, pat)
    ensures Contains(ReplaceAll(s, pat, rep), pat)
    decreases |s|
  {
    var i: nat :| OccursAt(s, pat, i);
    assert |s| >= |pat|;
    if s[..|pat|] == pat {
      var out := rep + ReplaceAll(s[|pat|..], pat, rep);
      assert out[0..|pat|] == rep[..|pat|];
      assert OccursAt(out, pat, 0);
    } else {
      assert i != 0;
      OccursAtShift(s, pat, i - 1, 1);
      ReplaceKeepsPattern(s[1..], pat, rep);
      var tail := ReplaceAll(s[1..], pat, rep);
      var j: nat :| OccursAt(tail, pat, j);
      var out := [s[0]] + tail;
      assert out[1..] == tail;
      OccursAtShift(out, pat, j, 1);
      assert OccursAt(out, pat, j + 1);
    }
  }

  /** Replacing a pattern that occurs puts the replacement into the text. */
  lemma {:induction false} ReplaceInserts(s: string, pat: string, rep: string)
    requires pat != [] && Contains(s, pat)
    ensures Contains(ReplaceAll(s, pat, rep), rep)
    decreases |s|
  {
    var i: nat :| OccursAt(s, pat, i);
    assert |s| >= |pat|;
    if s[..|pat|] == pat {
      var out := rep + ReplaceAll(s[|pat|..], pat, rep);
      assert out[0..|rep|] == rep;
      assert OccursAt(out, rep, 0);
    } else {
      assert i != 0;
      OccursAtShift(s, pat, i - 1, 1);
      ReplaceInserts(s[1..], pat, rep);
      var tail := ReplaceAll(s[1..], pat, rep);
      var j: nat :| OccursAt(tail, rep, j);
      var out := [s[0]] + tail;
      assert out[1..] == tail;
      OccursAtShift(out, rep, j, 1);
      assert OccursAt(out, rep, j + 1);
    }
  }

  /** No occurrence of `pat` starts before position `i` and ends after it. */
  predicate NoStraddle(s: string, pat: string, i: nat) {
    forall j: nat :: j < i < j + |pat| ==> !OccursAt(s, pat, j)
  }

  /** Dropping a prefix keeps a cut unstraddled. */
  lemma NoStraddleShift(s: string, pat: string, i: nat, k: nat)
    requires k <= i <= |s| && NoStraddle(s, pat, i)
    ensures NoStraddle(s[k..], pat, i - k)
  {
    forall j: nat | j < i - k < j + |pat| ensures !OccursAt(s[k..], pat, j) {
      OccursAtShift(s, pat, j, k);
    }
  }

  /** Where no occurrence straddles a cut, replacing in the whole text is
      replacing in the two halves. */
  lemma {:induction false} ReplaceSplit(s: string, pat: string, rep: string, i: nat)
    requires pat != [] && i <= |s| && NoStraddle(s, pat, i)
    ensures ReplaceAll(s, pat, rep) == ReplaceAll(s[..i], pat, rep) + ReplaceAll(s[i..], pat, rep)
    decreases |s|
  {
    if i == 0 {
      assert s[..0] == [] && s[0..] == s;
    } else if |s| < |pat| {
      assert s[..i] + s[i..] == s;
    } else if s[..|pat|] == pat {
      assert OccursAt(s, pat, 0);
      NoStraddleShift(s, pat, i, |pat|);
      ReplaceSplit(s[|pat|..], pat, rep, i - |pat|);
      SplitAfterMatch(s, pat, rep, i);
    } else {
      NoStraddleShift(s, pat, i, 1);
      ReplaceSplit(s[1..], pat, rep, i - 1);
      SplitAfterSkip(s, pat, rep, i);
    }
  }

  /** The step of ReplaceSplit where the text starts with the pattern. */
  lemma SplitAfterMatch(s: string, pat: string, rep: string, i: nat)
    requires pat != [] && |pat| <= i <= |s| && s[..|pat|] == pat
    requires var t := s[|pat|..];
             ReplaceAll(t, pat, rep)
             == ReplaceAll(t[..i - |pat|], pat, rep) + ReplaceAll(t[i - |pat|..], pat, rep)
    ensures ReplaceAll(s, pat, rep) == ReplaceAll(s[..i], pat, rep) + ReplaceAll(s[i..], pat, rep)
  {
    var t, u := s[|pat|..], s[..i];
    assert u[..|pat|] == pat;
    assert u[|pat|..] == t[..i - |pat|];
    assert t[i - |pat|..] == s[i..];
    var x, y := ReplaceAll(t[..i - |pat|], pat, rep), ReplaceAll(s[i..], pat, rep);
    assert ReplaceAll(s, pat, rep) == rep + (x + y);
    assert ReplaceAll(u, pat, rep) == rep + x;
    ConcatAssoc(rep, x, y);
  }

  /** The step of ReplaceSplit where the text does not start with the pattern. */
  lemma SplitAfterSkip(s: string, pat: string, rep: string, i: nat)
    requires pat != [] && 0 < i <= |s| && |pat| <= |s| && s[..|pat|] != pat
    requires var t := s[1..];
             ReplaceAll(t, pat, rep)
             == ReplaceAll(t[..i - 1], pat, rep) + ReplaceAll(t[i - 1..], pat, rep)
    ensures ReplaceAll(s, pat, rep) == ReplaceAll(s[..i], pat, rep) + ReplaceAll(s[i..], pat, rep)
  {
    var t, u := s[1..], s[..i];
    var v := t[..i - 1];
    assert t[i - 1..] == s[i..];
    assert v == u[1..];
    var x, y := ReplaceAll(v, pat, rep), ReplaceAll(s[i..], pat, rep);
    assert ReplaceAll(s, pat, rep) == [s[0]] + (x + y);
    if i >= |pat| {
      assert u[..|pat|] == s[..|pat|];
      assert ReplaceAll(u, pat, rep) == [s[0]] + x;
    } else {
      assert ReplaceAll(u, pat, rep) == u;
      assert x == v;
      assert [s[0]] + v == u;
    }
    ConcatAssoc([s[0]], x, y);
  }

  lemma ConcatAssoc(a: string, b: string, c: string)
    ensures a + (b + c) == (a + b) + c
  {
  }

  /** An occurrence that nothing straddles is replaced in place. */
  lemma ReplaceAtOccurrence(s: string, pat: string, rep: string, i: nat)
    requires pat != [] && OccursAt(s, pat, i) && NoStraddle(s, pat, i)
    ensures ReplaceAll(s, pat, rep)
            == ReplaceAll(s[..i], pat, rep) + rep + ReplaceAll(s[i + |pat|..], pat, rep)
  {
    ReplaceSplit(s, pat, rep, i);
    var t := s[i..];
    assert t[..|pat|] == pat;
    assert t[|pat|..] == s[i + |pat|..];
    var a, z := ReplaceAll(s[..i], pat, rep), ReplaceAll(s[i + |pat|..], pat, rep);
    assert ReplaceAll(t, pat, rep) == rep + z;
    ConcatAssoc(a, rep, z);
  }

  /** A stretch of text free of the pattern, with no occurrence straddling either
      end, survives replacement. */
  lemma ReplaceKeepsFree(s: string, pat: string, rep: string, i: nat, q: string)
    requires pat != [] && OccursAt(s, q, i) && !Contains(q, pat)
    requires NoStraddle(s, pat, i) && NoStraddle(s, pat, i + |q|)
    ensures Contains(ReplaceAll(s, pat, rep), q)
  {
    ReplaceSplit(s, pat, rep, i);
    var t := s[i..];
    forall j: nat | j < |q| < j + |pat| ensures !OccursAt(t, pat, j) {
      OccursAtShift(s, pat, j, i);
    }
    ReplaceSplit(t, pat, rep, |q|);
    assert t[..|q|] == q;
    ReplaceAbsent(q, pat, rep);
    var a, z := ReplaceAll(s[..i], pat, rep), ReplaceAll(t[|q|..], pat, rep);
    var out := a + (q + z);
    assert ReplaceAll(s, pat, rep) == out;
    assert out[|a|..|a| + |q|] == q;
    assert OccursAt(out, q, |a|);
  }

  /** An occurrence of `p` at `j` is ruled out by one character that disagrees with it. */
  lemma Mismatch(s: string, p: string, j: nat, m: nat)
    requires j + m < |s| && m < |p| && s[j + m] != p[m]
    ensures !OccursAt(s, p, j)
  {
    if j + |p| <= |s| {
      assert s[j..j + |p|][m] == s[j + m];
    }
  }

  /** Two texts written side by side occur together where the first begins. */
  lemma OccursAcross(a: string, u: string, v: string, b: string)
    ensures OccursAt((a + u) + (v + b), u + v, |a|)
  {
    var s := (a + u) + (v + b);
    assert s[|a|..|a| + |u + v|] == u + v;
  }

  /** The text has no occurrence of the character `c`. */
  predicate Lacks(s: string, c: char) {
    forall k :: 0 <= k < |s| ==> s[k] != c
  }

  lemma LacksConcat(x: string, y: string, c: char)
    requires Lacks(x, c) && Lacks(y, c)
    ensures Lacks(x + y, c)
  {
    forall k | 0 <= k < |x + y| ensures (x + y)[k] != c {
      if k >= |x| {
        assert (x + y)[k] == y[k - |x|];
      }
    }
  }

  /** A text found at `i` has each of its prefixes found there too. */
  lemma OccursPrefix(s: string, q: string, r: string, i: nat)
    requires OccursAt(s, q, i) && StartsWith(q, r)
    ensures OccursAt(s, r, i)
  {
    assert s[i..i + |r|] == s[i..i + |q|][..|r|];
  }

  /** The characters for which Python's str.isspace() holds. */
  predicate IsSpace(c: char) {
    ('\t' <= c <= '\r') || ('\U{1c}' <= c <= ' ') || c == '\U{85}' || c == '\U{a0}'
    || c == '\U{1680}' || ('\U{2000}' <= c <= '\U{200a}') || c == '\U{2028}' || c == '\U{2029}'
    || c == '\U{202f}' || c == '\U{205f}' || c == '\U{3000}'
  }

  predicate AllSpace(s: string) {
    forall i :: 0 <= i < |s| ==> IsSpace(s[i])
  }

  /** Number of leading whitespace characters. */
  function LeadingSpaces(s: string): (n: nat)
    ensures n <= |s| && AllSpace(s[..n])
    ensures n < |s| ==> !IsSpace(s[n])
  {
    if s != [] && IsSpace(s[0]) then
      var n := 1 + LeadingSpaces(s[1..]);
      assert forall i :: 1 <= i < n ==> s[..n][i] == s[1..][..n - 1][i - 1];
      n
    else 0
  }

  /** Number of trailing whitespace characters. */
  function TrailingSpaces(s: string): (n: nat)
    ensures n <= |s| && AllSpace(s[|s| - n..])
    ensures n < |s| ==> !IsSpace(s[|s| - n - 1])
  {
    if s != [] && IsSpace(s[|s| - 1]) then
      var n := 1 + TrailingSpaces(s[..|s| - 1]);
      assert s[|s| - n..] == s[..|s| - 1][|s| - n..] + [s[|s| - 1]];
      n
    else 0
  }

  /** Index of the first character `strip` keeps. */
  function StripStart(s: string): (a: nat)
    ensures a <= |s|
  {
    LeadingSpaces(s)
  }

  /** One past the last character `strip` keeps. */
  function StripEnd(s: string): (b: nat)
    ensures StripStart(s) <= b <= |s|
  {
    |s| - TrailingSpaces(s[StripStart(s)..])
  }

  /** `s.strip()`: the infix left after removing leading and trailing whitespace. */
  function Strip(s: string): (r: string)
    ensures r == [] <==> AllSpace(s)
    ensures r != [] ==> !IsSpace(r[0]) && !IsSpace(r[|r| - 1])
    ensures exists a: nat, b: nat ::
              a <= b <= |s| && r == s[a..b] && AllSpace(s[..a]) && AllSpace(s[b..])
  {
    StripEmptyIff(s);
    StripEnds(s);
    StripDropsSpaces(s);
    s[StripStart(s)..StripEnd(s)]
  }

  /** What is removed on either side is whitespace. */
  lemma StripDropsSpaces(s: string)
    ensures AllSpace(s[..StripStart(s)]) && AllSpace(s[StripEnd(s)..])
  {
    var t := s[StripStart(s)..];
    var n := TrailingSpaces(t);
    assert s[StripEnd(s)..] == t[|t| - n..];
  }

  /** Nothing is kept exactly when the text is all whitespace. */
  lemma StripEmptyIff(s: string)
    ensures s[StripStart(s)..StripEnd(s)] == [] <==> AllSpace(s)
  {
    var a, b := StripStart(s), StripEnd(s);
    var t := s[a..];
    var n := TrailingSpaces(t);
    if a == b {
      assert t[|t| - n..] == t;
      assert s == s[..a] + t;
      AllSpaceConcat(s[..a], t);
    } else {
      assert !IsSpace(s[a]);
    }
  }

  /** The first and the last character kept are not whitespace. */
  lemma StripEnds(s: string)
    ensures var r := s[StripStart(s)..StripEnd(s)];
            r != [] ==> !IsSpace(r[0]) && !IsSpace(r[|r| - 1])
  {
    var a, b := StripStart(s), StripEnd(s);
    var t := s[a..];
    var n := TrailingSpaces(t);
    if a < b {
      assert s[b - 1] == t[|t| - n - 1];
      assert s[a..b][0] == s[a] && s[a..b][b - a - 1] == s[b - 1];
    }
  }

  lemma AllSpaceConcat(x: string, y: string)
    requires AllSpace(x) && AllSpace(y)
    ensures AllSpace(x + y)
  {
    forall i | 0 <= i < |x + y| ensures IsSpace((x + y)[i]) {
      if i >= |x| {
        assert (x + y)[i] == y[i - |x|];
      }
    }
  }

  function Digit(d: nat): char
    requires d < 10
  {
    "0123456789"[d]
  }

  /** `str(n)` for a non-negative integer. */
  function NatToString(n: nat): (r: string)
    ensures |r| >= 1 && forall i :: 0 <= i < |r| ==> '0' <= r[i] <= '9'
  {
    if n < 10 then [Digit(n)] else NatToString(n / 10) + [Digit(n % 10)]
  }

  /** The number a string of decimal digits denotes. */
  function DigitsValue(s: string): nat
    requires forall i :: 0 <= i < |s| ==> '0' <= s[i] <= '9'
  {
    if s == [] then 0 else 10 * DigitsValue(s[..|s| - 1]) + (s[|s| - 1] as int - '0' as int)
  }

  /** `str(n)` can be read back as `n`. */
  lemma {:induction false} NatToStringRoundTrip(n: nat)
    ensures DigitsValue(NatToString(n)) == n
  {
    if n >= 10 {
      NatToStringRoundTrip(n / 10);
      var r := NatToString(n);
      assert r[..|r| - 1] == NatToString(n / 10);
    }
  }

  /** Python's `s[:m]` for any integer `m` (a negative `m` counts from the end). */
  function PyPrefix(s: string, m: int): (r: string)
    ensures StartsWith(s, r)
    ensures 0 <= m ==> |r| == if m <= |s| then m else |s|
  {
    if m >= |s| then s
    else if m >= 0 then s[..m]
    else if |s| + m >= 0 then s[..|s| + m]
    else []
  }
}
