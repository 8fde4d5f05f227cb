/** The string primitives the program uses: `str.upper`, `str.strip` and the
    first-occurrence search behind `str.split(',')`. */
module Text {
  import opened Outcome

  /** `str.isspace` for a single character (Python's whitespace set). */
  predicate IsSpace(c: char): (r: bool)
    ensures c == ' ' || c == '\t' || c == '\n' ==> r
    ensures r ==> c != ',' && !IsLower(c)
  {
    c in {' ', '\t', '\n', '\r', '\U{B}', '\U{C}', '\U{1C}', '\U{1D}', '\U{1E}', '\U{1F}',
          '\U{85}', '\U{A0}', '\U{1680}', '\U{2000}', '\U{2001}', '\U{2002}', '\U{2003}',
          '\U{2004}', '\U{2005}', '\U{2006}', '\U{2007}', '\U{2008}', '\U{2009}', '\U{200A}',
          '\U{2028}', '\U{2029}', '\U{202F}', '\U{205F}', '\U{3000}'}
  }

  predicate IsLower(c: char)
  {
    'a' <= c <= 'z'
  }

  function UpperChar(c: char): (u: char)
    ensures !IsLower(u)
    ensures IsLower(c) ==> u as int == c as int - 32
    ensures !IsLower(c) ==> u == c
  {
    if IsLower(c) then (c as int - 32) as char else c
  }

  /** `str.upper` on the ASCII letters. */
  function Upper(s: string): (u: string)
    ensures |u| == |s|
    ensures forall i :: 0 <= i < |u| ==> !IsLower(u[i])
    ensures forall i :: 0 <= i < |s| ==> u[i] == UpperChar(s[i])
  {
    seq(|s|, i requires 0 <= i < |s| => UpperChar(s[i]))
  }

  /** Uppercasing is idempotent, and a string without lower-case letters is its own
      upper-case form. */
  lemma UpperIdempotent(s: string)
    ensures Upper(Upper(s)) == Upper(s)
  {
    UpperFixesUpper(Upper(s));
  }

  lemma UpperFixesUpper(s: string)
    requires forall i :: 0 <= i < |s| ==> !IsLower(s[i])
    ensures Upper(s) == s
  {
  }

  /** The first position at or after `i` that does not hold whitespace (`|s|` when
      there is none). */
  function SkipSpaces(s: string, i: nat): (j: nat)
    requires i <= |s|
    ensures i <= j <= |s|
    ensures forall k :: i <= k < j ==> IsSpace(s[k])
    ensures j == |s| || !IsSpace(s[j])
    decreases |s| - i
  {
    if i == |s| || !IsSpace(s[i]) then i else SkipSpaces(s, i + 1)
  }

  /** The end of `s[..j]` once its trailing whitespace is cut off. */
  function TrimEnd(s: string, j: nat): (k: nat)
    requires j <= |s|
    ensures k <= j
    ensures forall m :: k <= m < j ==> IsSpace(s[m])
    ensures k == 0 || !IsSpace(s[k - 1])
  {
    if j == 0 || !IsSpace(s[j - 1]) then j else TrimEnd(s, j - 1)
  }

  /** Leading whitespace removed. */
  function StripLeft(s: string): (r: string)
    ensures |r| <= |s| && r == s[|s| - |r|..]
    ensures r == [] || !IsSpace(r[0])
    ensures forall i :: 0 <= i < |s| - |r| ==> IsSpace(s[i])
  {
    s[SkipSpaces(s, 0)..]
  }

  /** Trailing whitespace removed. */
  function StripRight(s: string): (r: string)
    ensures |r| <= |s| && r == s[..|r|]
    ensures r == [] || !IsSpace(r[|r| - 1])
    ensures forall i :: |r| <= i < |s| ==> IsSpace(s[i])
  {
    s[..TrimEnd(s, |s|)]
  }

  /** `r` is `s` with exactly its first `i` characters and everything after
      `i + |r|` cut off, all of which are whitespace. */
  predicate TrimmedFrom(s: string, r: string, i: nat)
  {
    && i + |r| <= |s|
    && r == s[i..i + |r|]
    && (forall k :: 0 <= k < i ==> IsSpace(s[k]))
    && (forall k :: i + |r| <= k < |s| ==> IsSpace(s[k]))
  }

  /** `str.strip()`: the result is a slice of `s` that neither starts nor ends with
      whitespace, and only whitespace was cut off on either side. */
  function Strip(s: string): (r: string)
    ensures |r| <= |s|
    ensures r == [] || (!IsSpace(r[0]) && !IsSpace(r[|r| - 1]))
  {
    StripRight(StripLeft(s))
  }

  lemma StripSpec(s: string)
    ensures TrimmedFrom(s, Strip(s), |s| - |StripLeft(s)|)
    ensures Strip(s) == [] || (!IsSpace(Strip(s)[0]) && !IsSpace(Strip(s)[|Strip(s)| - 1]))
  {
    StripCutsSpaces(s);
    StripEnds(s);
  }

  /** What Strip cuts off is whitespace, on both sides. */
  lemma StripCutsSpaces(s: string)
    ensures TrimmedFrom(s, Strip(s), |s| - |StripLeft(s)|)
  {
    var l := StripLeft(s);
    var r := StripRight(l);
    var i := |s| - |l|;
    assert l == s[i..];
    assert r == l[..|r|];
    assert r == s[i..i + |r|] by {
      assert s[i..][..|r|] == s[i..i + |r|];
    }
    assert forall k :: 0 <= k < i ==> IsSpace(s[k]);
    assert forall k :: |r| <= k < |l| ==> IsSpace(l[k]);
    forall k | i + |r| <= k < |s| ensures IsSpace(s[k]) {
      assert s[k] == l[k - i];
    }
  }

  /** Strip leaves no whitespace at either end. */
  lemma StripEnds(s: string)
    ensures Strip(s) == [] || (!IsSpace(Strip(s)[0]) && !IsSpace(Strip(s)[|Strip(s)| - 1]))
  {
    var l := StripLeft(s);
    var r := StripRight(l);
    if r != [] {
      assert r[0] == l[0];
    }
  }

  /** Strip introduces no character: one absent from `s` is absent from the result. */
  lemma StripKeepsAbsent(s: string, c: char)
    requires c !in s
    ensures c !in Strip(s)
  {
    StripSpec(s);
    var i := |s| - |StripLeft(s)|;
    var r := Strip(s);
    forall k | 0 <= k < |r| ensures r[k] != c {
      assert r[k] == s[i + k];
    }
  }

  /** A string that neither starts nor ends with whitespace is unchanged by Strip. */
  lemma StripTrimmed(s: string)
    requires s == [] || (!IsSpace(s[0]) && !IsSpace(s[|s| - 1]))
    ensures Strip(s) == s
  {
  }

  /** Whitespace around a trimmed string is exactly what Strip removes. */
  lemma StripPadded(pre: string, s: string, post: string)
    requires forall k :: 0 <= k < |pre| ==> IsSpace(pre[k])
    requires forall k :: 0 <= k < |post| ==> IsSpace(post[k])
    requires s == [] || (!IsSpace(s[0]) && !IsSpace(s[|s| - 1]))
    requires s != [] || post == []
    ensures Strip(pre + s + post) == s
  {
    assert pre + s + post == pre + (s + post);
    StripLeftPadded(pre, s + post);
    StripRightPadded(s, post);
  }

  lemma StripLeftPadded(pre: string, s: string)
    requires forall k :: 0 <= k < |pre| ==> IsSpace(pre[k])
    requires s == [] || !IsSpace(s[0])
    ensures StripLeft(pre + s) == s
  {
    var t := pre + s;
    assert t[|pre|..] == s;
  }

  lemma StripRightPadded(s: string, post: string)
    requires forall k :: 0 <= k < |post| ==> IsSpace(post[k])
    requires s == [] || !IsSpace(s[|s| - 1])
    ensures StripRight(s + post) == s
  {
    var t := s + post;
    assert t[..|s|] == s;
  }

  /** The first position at or after `i` holding `c`. */
  function FindFrom(s: string, c: char, i: nat): (r: Option<nat>)
    requires i <= |s|
    ensures r.None? <==> forall k :: i <= k < |s| ==> s[k] != c
    ensures r.Some? ==> i <= r.value < |s| && s[r.value] == c
    ensures r.Some? ==> forall k :: i <= k < r.value ==> s[k] != c
    decreases |s| - i
  {
    if i == |s| then None else if s[i] == c then Some(i) else FindFrom(s, c, i + 1)
  }

  /** Index of the first occurrence of `c` in `s`, as `str.split` finds it. */
  function Find(s: string, c: char): (r: Option<nat>)
    ensures r.None? <==> c !in s
    ensures r.Some? ==> r.value < |s| && s[r.value] == c && c !in s[..r.value]
  {
    var r := FindFrom(s, c, 0);
    assert r.Some? ==> forall k :: 0 <= k < r.value ==> s[..r.value][k] != c;
    r
  }
}
