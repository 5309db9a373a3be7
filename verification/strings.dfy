/** The few System.String operations the outfit tools use, over `seq<char>`.
    Comparisons are ordinal (character by character). */
module Strings {
  import opened Results

  /** Char.IsWhiteSpace: the Unicode space separators, line and paragraph
      separators, and the control characters U+0009..U+000D and U+0085. */
  predicate IsWhiteSpace(c: char) {
    || ('\t' <= c <= '\r')
    || c == ' ' || c == '\U{0085}' || c == '\U{00A0}' || c == '\U{1680}'
    || ('\U{2000}' <= c <= '\U{200A}')
    || c == '\U{2028}' || c == '\U{2029}' || c == '\U{202F}' || c == '\U{205F}'
    || c == '\U{3000}'
  }

  predicate AllWhiteSpace(s: string) {
    forall k :: 0 <= k < |s| ==> IsWhiteSpace(s[k])
  }

  /** String.Trim(): white space is dropped from both ends, one character at
      a time. No white space is left at either end, and the result is empty
      exactly when `s` is all white space (TrimIsInfix says where in `s` the
      result sits). */
  function Trim(s: string): (r: string)
    ensures |r| <= |s|
    ensures r == [] || (!IsWhiteSpace(r[0]) && !IsWhiteSpace(r[|r| - 1]))
    ensures r == [] <==> AllWhiteSpace(s)
    decreases |s|
  {
    if s == [] then []
    else if IsWhiteSpace(s[0]) then
      assert forall k :: 1 <= k < |s| ==> s[k] == s[1..][k - 1];
      Trim(s[1..])
    else if IsWhiteSpace(s[|s| - 1]) then
      assert forall k :: 0 <= k < |s| - 1 ==> s[k] == s[..|s| - 1][k];
      Trim(s[..|s| - 1])
    else s
  }

  /** The trimmed string is the infix of `s` left after removing the white
      space at both ends. */
  lemma {:induction false} TrimIsInfix(s: string)
    ensures exists i :: 0 <= i <= |s| - |Trim(s)| && IsTrimmedInfix(s, i, Trim(s))
    decreases |s|
  {
    var r := Trim(s);
    if s == [] {
      assert IsTrimmedInfix(s, 0, r);
    } else if IsWhiteSpace(s[0]) {
      TrimIsInfix(s[1..]);
      var i :| 0 <= i <= |s| - 1 - |r| && IsTrimmedInfix(s[1..], i, r);
      InfixAfterWhiteSpace(s, i, r);
    } else if IsWhiteSpace(s[|s| - 1]) {
      TrimIsInfix(s[..|s| - 1]);
      var i :| 0 <= i <= |s| - 1 - |r| && IsTrimmedInfix(s[..|s| - 1], i, r);
      InfixBeforeWhiteSpace(s, i, r);
    } else {
      assert IsTrimmedInfix(s, 0, r);
    }
  }

  /** A white-space character in front of `s` shifts a trimmed infix by one. */
  lemma {:induction false} InfixAfterWhiteSpace(s: string, i: nat, r: string)
    requires s != [] && IsWhiteSpace(s[0])
    requires i + |r| <= |s| - 1 && IsTrimmedInfix(s[1..], i, r)
    ensures IsTrimmedInfix(s, i + 1, r)
  {
    var t := s[1..];
    assert s[i + 1..i + 1 + |r|] == t[i..i + |r|];
    assert s[..i + 1] == [s[0]] + t[..i];
    AllWhiteSpaceConcat([s[0]], t[..i]);
    assert s[i + 1 + |r|..] == t[i + |r|..];
  }

  /** A white-space character after `s` keeps a trimmed infix in place. */
  lemma {:induction false} InfixBeforeWhiteSpace(s: string, i: nat, r: string)
    requires s != [] && IsWhiteSpace(s[|s| - 1])
    requires i + |r| <= |s| - 1 && IsTrimmedInfix(s[..|s| - 1], i, r)
    ensures IsTrimmedInfix(s, i, r)
  {
    var t := s[..|s| - 1];
    assert s[i..i + |r|] == t[i..i + |r|];
    assert s[..i] == t[..i];
    assert s[i + |r|..] == t[i + |r|..] + [s[|s| - 1]];
    AllWhiteSpaceConcat(t[i + |r|..], [s[|s| - 1]]);
  }

  /** `r` sits at index `i` of `s` with only white space around it. */
  predicate IsTrimmedInfix(s: string, i: nat, r: string)
    requires i + |r| <= |s|
  {
    r == s[i..i + |r|] && AllWhiteSpace(s[..i]) && AllWhiteSpace(s[i + |r|..])
  }

  lemma {:induction false} AllWhiteSpaceConcat(a: string, b: string)
    requires AllWhiteSpace(a) && AllWhiteSpace(b)
    ensures AllWhiteSpace(a + b)
  {
    forall k | 0 <= k < |a + b| ensures IsWhiteSpace((a + b)[k]) {
      if k < |a| { assert (a + b)[k] == a[k]; } else { assert (a + b)[k] == b[k - |a|]; }
    }
  }

  /** Trimming keeps a first character that is not white space. */
  lemma {:induction false} TrimKeepsFirst(s: string)
    requires s != [] && !IsWhiteSpace(s[0])
    ensures Trim(s) != [] && Trim(s)[0] == s[0]
    decreases |s|
  {
    if IsWhiteSpace(s[|s| - 1]) {
      TrimKeepsFirst(s[..|s| - 1]);
    }
  }

  /** A string with no white space at either end is its own trim. */
  lemma {:induction false} TrimNoWhiteSpaceEnds(s: string)
    requires s != [] && !IsWhiteSpace(s[0]) && !IsWhiteSpace(s[|s| - 1])
    ensures Trim(s) == s
  {
  }

  lemma {:induction false} TrimIdempotent(s: string)
    ensures Trim(Trim(s)) == Trim(s)
  {
    if Trim(s) != [] {
      TrimNoWhiteSpaceEnds(Trim(s));
    }
  }

  predicate StartsWith(s: string, prefix: string) {
    |prefix| <= |s| && s[..|prefix|] == prefix
  }

  predicate EndsWith(s: string, suffix: string) {
    |suffix| <= |s| && s[|s| - |suffix|..] == suffix
  }

  /** `p` occurs in `s` starting at index `i`. */
  predicate OccursAt(s: string, p: string, i: int) {
    0 <= i && i + |p| <= |s| && s[i..i + |p|] == p
  }

  /** String.Contains (ordinal). */
  predicate Contains(s: string, p: string) {
    exists i | 0 <= i <= |s| - |p| :: OccursAt(s, p, i)
  }

  /** Every string that starts with `p` also contains it. */
  lemma {:induction false} StartsWithImpliesContains(s: string, p: string)
    requires StartsWith(s, p)
    ensures Contains(s, p)
  {
    assert OccursAt(s, p, 0);
  }

  /** String.LastIndexOf(p): the greatest index at which `p` occurs, or
      None where C# returns -1. */
  function LastIndexOf(s: string, p: string): (r: Option<nat>)
    ensures r.Some? ==> OccursAt(s, p, r.value)
                        && forall j :: r.value < j ==> !OccursAt(s, p, j)
    ensures r.None? <==> !Contains(s, p)
  {
    if |p| <= |s| then LastIndexAtOrBelow(s, p, |s| - |p|) else None
  }

  function LastIndexAtOrBelow(s: string, p: string, i: nat): (r: Option<nat>)
    requires i + |p| <= |s|
    ensures r.Some? ==> r.value <= i && OccursAt(s, p, r.value)
                        && forall j :: r.value < j <= i ==> !OccursAt(s, p, j)
    ensures r.None? ==> forall j :: 0 <= j <= i ==> !OccursAt(s, p, j)
    decreases i
  {
    if s[i..i + |p|] == p then Some(i)
    else if i == 0 then None
    else LastIndexAtOrBelow(s, p, i - 1)
  }

  /** s.Replace(c.ToString(), string.Empty): every occurrence of `c` removed. */
  function RemoveAll(s: string, c: char): (r: string)
    ensures c !in r
    ensures |r| <= |s|
  {
    if s == [] then []
    else (if s[0] == c then [] else [s[0]]) + RemoveAll(s[1..], c)
  }

  /** Removal takes out `c` and nothing else. */
  lemma {:induction false} RemoveAllKeepsOthers(s: string, c: char, x: char)
    requires x != c
    ensures x in RemoveAll(s, c) <==> x in s
  {
    if s != [] {
      RemoveAllKeepsOthers(s[1..], c, x);
      assert s == [s[0]] + s[1..];
    }
  }

  /** Removal works piecewise, so it keeps the order of the other characters. */
  lemma {:induction false} RemoveAllDistributes(a: string, b: string, c: char)
    ensures RemoveAll(a + b, c) == RemoveAll(a, c) + RemoveAll(b, c)
  {
    if a != [] {
      assert (a + b)[1..] == a[1..] + b;
      RemoveAllDistributes(a[1..], b, c);
    } else {
      assert a + b == b;
    }
  }

  /** A string without `c` is left as it is. */
  lemma {:induction false} RemoveAllAbsent(s: string, c: char)
    requires c !in s
    ensures RemoveAll(s, c) == s
  {
    if s != [] {
      RemoveAllAbsent(s[1..], c);
    }
  }
}
