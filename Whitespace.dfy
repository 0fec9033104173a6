/**
 * Python's `str.strip()` with no argument: remove every leading and every
 * trailing whitespace character. Which characters count as whitespace is left
 * abstract: it is the predicate `isSpace` that every function takes.
 */
module Whitespace {

  /** Every character of `s` is whitespace. */
  predicate AllSpace(s: string, isSpace: char -> bool) {
    forall i :: 0 <= i < |s| ==> isSpace(s[i])
  }

  /** `s` neither starts nor ends with whitespace. */
  predicate Bare(s: string, isSpace: char -> bool) {
    s == [] || (!isSpace(s[0]) && !isSpace(s[|s| - 1]))
  }

  /** `r` is `s[i..i + |r|]` and everything around it in `s` is whitespace. */
  predicate CoreAt(s: string, i: int, r: string, isSpace: char -> bool) {
    && 0 <= i && i + |r| <= |s|
    && s[i..i + |r|] == r
    && AllSpace(s[..i], isSpace)
    && AllSpace(s[i + |r|..], isSpace)
  }

  /** The number of whitespace characters `s` starts with. */
  function LeadingSpace(s: string, isSpace: char -> bool): (k: nat)
    ensures k <= |s|
    ensures AllSpace(s[..k], isSpace)
    ensures k < |s| ==> !isSpace(s[k])
  {
    if s != [] && isSpace(s[0]) then 1 + LeadingSpace(s[1..], isSpace) else 0
  }

  /** The number of whitespace characters `s` ends with. */
  function TrailingSpace(s: string, isSpace: char -> bool): (k: nat)
    ensures k <= |s|
    ensures AllSpace(s[|s| - k..], isSpace)
    ensures k < |s| ==> !isSpace(s[|s| - 1 - k])
  {
    if s != [] && isSpace(s[|s| - 1]) then 1 + TrailingSpace(s[..|s| - 1], isSpace) else 0
  }

  /** Python's `s.strip()`. */
  function Strip(s: string, isSpace: char -> bool): (r: string)
    ensures Bare(r, isSpace)
    ensures CoreAt(s, LeadingSpace(s, isSpace), r, isSpace)
  {
    var i := LeadingSpace(s, isSpace);
    var t := s[i..];
    var j := |t| - TrailingSpace(t, isSpace);
    assert s[i..i + j] == t[..j];
    assert s[i + j..] == t[j..];
    t[..j]
  }

  /** In front of a string that does not start with whitespace, the leading whitespace is all of `a`. */
  lemma {:induction false} LeadingSpacePast(a: string, t: string, isSpace: char -> bool)
    requires AllSpace(a, isSpace)
    requires t == [] || !isSpace(t[0])
    ensures LeadingSpace(a + t, isSpace) == |a|
  {
    if a != [] {
      assert (a + t)[1..] == a[1..] + t;
      LeadingSpacePast(a[1..], t, isSpace);
    } else {
      assert a + t == t;
    }
  }

  /** Behind a string that does not end with whitespace, the trailing whitespace is all of `b`. */
  lemma {:induction false} TrailingSpacePast(t: string, b: string, isSpace: char -> bool)
    requires AllSpace(b, isSpace)
    requires t == [] || !isSpace(t[|t| - 1])
    ensures TrailingSpace(t + b, isSpace) == |b|
  {
    if b != [] {
      assert (t + b)[..|t + b| - 1] == t + b[..|b| - 1];
      TrailingSpacePast(t, b[..|b| - 1], isSpace);
    } else {
      assert t + b == t;
    }
  }

  /**
   * Strip is determined by its postcondition: whenever `s` splits into
   * whitespace, a part neither starting nor ending with whitespace, and
   * whitespace again, that middle part is what Strip returns.
   */
  lemma StripUnique(a: string, m: string, b: string, isSpace: char -> bool)
    requires AllSpace(a, isSpace) && AllSpace(b, isSpace)
    requires Bare(m, isSpace)
    ensures Strip(a + m + b, isSpace) == m
  {
    var s := a + m + b;
    if m == [] {
      assert s == (a + b) + [];
      LeadingSpacePast(a + b, [], isSpace);
    } else {
      assert s == a + (m + b);
      LeadingSpacePast(a, m + b, isSpace);
      assert s[|a|..] == m + b;
      TrailingSpacePast(m, b, isSpace);
    }
  }

  /** Stripping a second time changes nothing. */
  lemma StripIdempotent(s: string, isSpace: char -> bool)
    ensures Strip(Strip(s, isSpace), isSpace) == Strip(s, isSpace)
  {
    var r := Strip(s, isSpace);
    assert [] + r + [] == r;
    StripUnique([], r, [], isSpace);
  }

  /** A string made of whitespace only strips to the empty string. */
  lemma StripAllSpace(s: string, isSpace: char -> bool)
    requires AllSpace(s, isSpace)
    ensures Strip(s, isSpace) == []
  {
    assert s + [] + [] == s;
    StripUnique(s, [], [], isSpace);
  }

  /** Strip consults the whitespace predicate only through its values. */
  lemma StripRespectsSpaceClass(s: string, p: char -> bool, q: char -> bool)
    requires forall c :: p(c) == q(c)
    ensures Strip(s, p) == Strip(s, q)
  {
    var r := Strip(s, p);
    var front, back := SplitAround(s, LeadingSpace(s, p), r, p);
    assert AllSpace(front, q) && AllSpace(back, q) && Bare(r, q);
    StripUnique(front, r, back, q);
  }

  lemma AllSpaceConcat(a: string, b: string, isSpace: char -> bool)
    requires AllSpace(a, isSpace) && AllSpace(b, isSpace)
    ensures AllSpace(a + b, isSpace)
  {
    forall i | 0 <= i < |a + b| ensures isSpace((a + b)[i]) {
      if i >= |a| {
        assert (a + b)[i] == b[i - |a|];
      }
    }
  }

  /** Whitespace padding around a string does not change what it strips to. */
  lemma StripIgnoresPadding(a: string, m: string, b: string, isSpace: char -> bool)
    requires AllSpace(a, isSpace) && AllSpace(b, isSpace)
    ensures Strip(a + m + b, isSpace) == Strip(m, isSpace)
  {
    var core := Strip(m, isSpace);
    var i := LeadingSpace(m, isSpace);
    var front, back := SplitAround(m, i, core, isSpace);
    AllSpaceConcat(a, front, isSpace);
    AllSpaceConcat(back, b, isSpace);
    Regroup(a, front, core, back, b);
    StripUnique(a + front, core, back + b, isSpace);
  }

  /** A string with a core at `i` is that core between its whitespace prefix and suffix. */
  lemma SplitAround(m: string, i: int, core: string, isSpace: char -> bool) returns (front: string, back: string)
    requires CoreAt(m, i, core, isSpace)
    ensures m == front + core + back
    ensures AllSpace(front, isSpace) && AllSpace(back, isSpace)
  {
    front, back := m[..i], m[i + |core|..];
    assert m == m[..i] + m[i..i + |core|] + m[i + |core|..];
  }

  lemma Regroup(a: string, front: string, core: string, back: string, b: string)
    ensures a + (front + core + back) + b == (a + front) + core + (back + b)
  {
  }
}
