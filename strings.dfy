/**
 * The few .NET string operations the converter relies on, stated over
 * `seq<char>`: `char.IsWhiteSpace`, `string.IsNullOrWhiteSpace`,
 * `string.EndsWith(_, StringComparison.OrdinalIgnoreCase)` and
 * `bool.TryParse`.
 */
module Strings {
  import opened Wrappers

  /** `char.IsWhiteSpace`: the Unicode space separators, the line and paragraph
      separators, U+0009..U+000D and U+0085. */
  predicate IsWhiteSpace(c: char) {
    || ('\U{0009}' <= c <= '\U{000D}')
    || c == '\U{0020}' || c == '\U{0085}' || c == '\U{00A0}' || c == '\U{1680}'
    || ('\U{2000}' <= c <= '\U{200A}')
    || c == '\U{2028}' || c == '\U{2029}' || c == '\U{202F}' || c == '\U{205F}' || c == '\U{3000}'
  }

  /** `string.IsNullOrWhiteSpace`: absent, empty, or made only of white space. */
  predicate IsNullOrWhiteSpace(s: Option<string>) {
    match s
    case None => true
    case Some(t) => forall i :: 0 <= i < |t| ==> IsWhiteSpace(t[i])
  }

  /** Folds an ASCII upper-case letter to lower case; every other character is kept. */
  function FoldAscii(c: char): (r: char)
    ensures 'A' <= c <= 'Z' ==> r as int == c as int + 32
    ensures !('A' <= c <= 'Z') ==> r == c
  {
    if 'A' <= c <= 'Z' then (c as int + 32) as char else c
  }

  /** Ordinal case-insensitive equality of two strings (ASCII case folding). */
  predicate EqualsIgnoreCase(s: string, t: string) {
    |s| == |t| && forall i :: 0 <= i < |s| ==> FoldAscii(s[i]) == FoldAscii(t[i])
  }

  /** `s.EndsWith(suffix, StringComparison.OrdinalIgnoreCase)`. */
  predicate EndsWithIgnoreCase(s: string, suffix: string) {
    |suffix| <= |s| && EqualsIgnoreCase(s[|s| - |suffix|..], suffix)
  }

  /** Ordinal, case-sensitive prefix test. */
  predicate StartsWith(s: string, prefix: string) {
    |prefix| <= |s| && s[..|prefix|] == prefix
  }

  predicate IsWhiteSpaceOrNull(c: char) {
    IsWhiteSpace(c) || c == '\0'
  }

  /** Drops white space and NUL characters from both ends, as `bool.TryParse`
      does before its second comparison. */
  function TrimWhiteSpaceAndNull(s: string): (r: string)
    ensures |r| <= |s|
    ensures r == [] || (!IsWhiteSpaceOrNull(r[0]) && !IsWhiteSpaceOrNull(r[|r| - 1]))
    ensures forall i :: 0 <= i < |s| && !IsWhiteSpaceOrNull(s[i]) ==> r != []
    decreases |s|
  {
    if s == [] then s
    else if IsWhiteSpaceOrNull(s[0]) then TrimWhiteSpaceAndNull(s[1..])
    else if IsWhiteSpaceOrNull(s[|s| - 1]) then TrimWhiteSpaceAndNull(s[..|s| - 1])
    else s
  }

  /** `TrimWhiteSpaceAndNull(s)` is `s[i..j]`, and everything cut off before
      `i` and from `j` on is white space or NUL. */
  predicate TrimmedAt(s: string, i: int, j: int) {
    && 0 <= i <= j <= |s|
    && TrimWhiteSpaceAndNull(s) == s[i..j]
    && (forall k :: 0 <= k < i ==> IsWhiteSpaceOrNull(s[k]))
    && (forall k :: j <= k < |s| ==> IsWhiteSpaceOrNull(s[k]))
  }

  /** Trimming removes only white space and NUL characters, and only at the
      two ends: the result is a slice of the input with nothing else cut. */
  lemma {:induction false} TrimRemovesOnlyEnds(s: string)
    ensures exists i, j :: TrimmedAt(s, i, j)
    decreases |s|
  {
    if s == [] {
      assert TrimmedAt(s, 0, 0);
    } else if IsWhiteSpaceOrNull(s[0]) {
      TrimRemovesOnlyEnds(s[1..]);
      var i, j :| TrimmedAt(s[1..], i, j);
      TrimmedFront(s, i, j);
    } else if IsWhiteSpaceOrNull(s[|s| - 1]) {
      TrimRemovesOnlyEnds(s[..|s| - 1]);
      var i, j :| TrimmedAt(s[..|s| - 1], i, j);
      TrimmedBack(s, i, j);
    } else {
      assert s[0..|s|] == s;
      assert TrimmedAt(s, 0, |s|);
    }
  }

  lemma {:induction false} TrimmedFront(s: string, i: int, j: int)
    requires s != [] && IsWhiteSpaceOrNull(s[0]) && TrimmedAt(s[1..], i, j)
    ensures TrimmedAt(s, i + 1, j + 1)
  {
    var t := s[1..];
    assert TrimWhiteSpaceAndNull(s) == t[i..j] == s[i + 1..j + 1];
    forall k | 0 <= k < i + 1
      ensures IsWhiteSpaceOrNull(s[k])
    {
      if k > 0 { assert s[k] == t[k - 1]; }
    }
    forall k | j + 1 <= k < |s|
      ensures IsWhiteSpaceOrNull(s[k])
    {
      assert s[k] == t[k - 1];
    }
  }

  lemma {:induction false} TrimmedBack(s: string, i: int, j: int)
    requires s != [] && !IsWhiteSpaceOrNull(s[0]) && IsWhiteSpaceOrNull(s[|s| - 1]) && TrimmedAt(s[..|s| - 1], i, j)
    ensures TrimmedAt(s, i, j)
  {
    var t := s[..|s| - 1];
    assert TrimWhiteSpaceAndNull(s) == t[i..j] == s[i..j];
    assert t[0] == s[0];
    assert i == 0;
    forall k | j <= k < |s|
      ensures IsWhiteSpaceOrNull(s[k])
    {
      if k < |t| { assert s[k] == t[k]; }
    }
  }

  /** `bool.TryParse`: "True" or "False" in any ASCII letter case, possibly
      surrounded by white space or NUL characters; anything else fails. */
  function TryParseBool(s: string): (r: Option<bool>)
    ensures r == Some(true) <==> EqualsIgnoreCase(TrimWhiteSpaceAndNull(s), "true")
    ensures r == Some(false) <==> EqualsIgnoreCase(TrimWhiteSpaceAndNull(s), "false")
  {
    var t := TrimWhiteSpaceAndNull(s);
    if EqualsIgnoreCase(t, "true") then Some(true)
    else if EqualsIgnoreCase(t, "false") then Some(false)
    else None
  }
}
