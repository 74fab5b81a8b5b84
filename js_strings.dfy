/**
 * The few JavaScript string operations the shell-integration parsers and the
 * upload and connection services rely on: `indexOf`, `startsWith`,
 * `slice`, `split(c)[0]` and `split(c, 2)`.  Strings are sequences of Dafny `char`s (Unicode scalar values); JavaScript counts and compares UTF-16 code units, which differ only for characters outside the Basic Multilingual Plane.
 */
module JsStrings {
  import opened Wrappers

  /** `s.startsWith(p)`. */
  predicate StartsWith(s: string, p: string) {
    |p| <= |s| && s[..|p|] == p
  }

  /** `s.indexOf(c, from)`: the first position at or after `from` holding `c`, or -1. */
  function IndexOfFrom(s: string, c: char, from: nat): (r: int)
    decreases |s| - from
    ensures r == -1 || from <= r < |s|
    ensures r != -1 ==> s[r] == c
    ensures forall j :: from <= j < |s| && (r == -1 || j < r) ==> s[j] != c
  {
    if from >= |s| then -1
    else if s[from] == c then from
    else IndexOfFrom(s, c, from + 1)
  }

  /** `s.indexOf(c)`. */
  function IndexOf(s: string, c: char): (r: int)
    ensures r == -1 || 0 <= r < |s|
    ensures r != -1 ==> s[r] == c && c !in s[..r]
    ensures r == -1 <==> c !in s
  {
    var r := IndexOfFrom(s, c, 0);
    assert r != -1 ==> forall j :: 0 <= j < r ==> s[..r][j] == s[j];
    r
  }

  /** `s.split(c)[0]`: the text before the first `c`, or all of `s`. */
  function BeforeFirst(s: string, c: char): (r: string)
    ensures c !in r
    ensures StartsWith(s, r)
    ensures |r| < |s| ==> s[|r|] == c
  {
    var i := IndexOf(s, c);
    if i < 0 then s else s[..i]
  }

  /** `s.split(c, 2)`: the text before the first `c`, and, when there is one,
      the text between the first and the second `c` (the rest is discarded). */
  function SplitTwo(s: string, c: char): (r: (string, Option<string>))
    ensures r.0 == BeforeFirst(s, c)
    ensures r.1.None? <==> c !in s
    ensures r.1.Some? ==> c !in r.1.value && StartsWith(s[|r.0| + 1..], r.1.value)
  {
    var i := IndexOf(s, c);
    if i < 0 then (s, None) else (s[..i], Some(BeforeFirst(s[i + 1..], c)))
  }

  /** When `s` holds `c`, its two fields of `s.split(c, 2)` joined by `c` begin `s`. */
  lemma SplitTwoJoins(s: string, c: char)
    requires c in s
    ensures var r := SplitTwo(s, c);
      r.1.Some? && StartsWith(s, r.0 + [c] + r.1.value)
  {
    var r := SplitTwo(s, c);
    var k := |r.0|;
    assert s[..k] == r.0 && s[k] == c;
    assert s[k + 1..][..|r.1.value|] == r.1.value;
    assert s[..k + 1 + |r.1.value|] == s[..k] + [s[k]] + s[k + 1..][..|r.1.value|];
  }

  /** `s.slice(start)`: the suffix from `start`; a negative `start` counts back from the end. */
  function SliceFrom(s: string, start: int): (r: string)
    ensures 0 <= start <= |s| ==> s == s[..start] + r
    ensures start > |s| ==> r == ""
    ensures start < 0 ==> |r| == (if -start < |s| then -start else |s|) && s == s[..|s| - |r|] + r
  {
    if start < 0 then (if -start < |s| then s[|s| + start..] else s)
    else if start <= |s| then s[start..]
    else ""
  }
}
