/** The few Python string operations the input interpreter relies on. */
module Text {

  /** The characters Python's str.isspace accepts: the ASCII controls
      \t \n \v \f \r, the separators U+001C..U+001F, the space, U+0085,
      U+00A0, U+1680, U+2000..U+200A, U+2028, U+2029, U+202F, U+205F, U+3000. */
  const Whitespace: set<char> := {
      '\U{9}', '\U{A}', '\U{B}', '\U{C}', '\U{D}', '\U{1C}', '\U{1D}', '\U{1E}',
      '\U{1F}', '\U{20}', '\U{85}', '\U{A0}', '\U{1680}', '\U{2000}', '\U{2001}', '\U{2002}',
      '\U{2003}', '\U{2004}', '\U{2005}', '\U{2006}', '\U{2007}', '\U{2008}', '\U{2009}', '\U{200A}',
      '\U{2028}', '\U{2029}', '\U{202F}', '\U{205F}', '\U{3000}'
    }

  predicate IsSpace(c: char) {
    c in Whitespace
  }

  /** The visible ASCII characters are not whitespace. */
  lemma VisibleNotSpace(c: char)
    requires '!' <= c <= '~'
    ensures !IsSpace(c)
  {
  }

  predicate AllSpace(s: string) {
    forall k :: 0 <= k < |s| ==> IsSpace(s[k])
  }

  /** Python's str.strip() with no argument: whitespace is removed from both
      ends until neither end is whitespace. */
  function Strip(s: string): (r: string)
    ensures |r| <= |s|
    ensures r == [] || (!IsSpace(r[0]) && !IsSpace(r[|r| - 1]))
    decreases |s|
  {
    if s != [] && IsSpace(s[0]) then Strip(s[1..])
    else if s != [] && IsSpace(s[|s| - 1]) then Strip(s[..|s| - 1])
    else s
  }

  /** r sits in s at position i with only whitespace on either side of it. */
  predicate SliceAmidSpace(s: string, r: string, i: nat) {
    && i + |r| <= |s|
    && r == s[i..i + |r|]
    && AllSpace(s[..i]) && AllSpace(s[i + |r|..])
  }

  /** Strip keeps a contiguous slice of the text and removes only whitespace
      around it; `i` is where the slice starts. */
  lemma {:induction false} StripIsSlice(s: string) returns (i: nat)
    ensures SliceAmidSpace(s, Strip(s), i)
    decreases |s|
  {
    if s != [] && IsSpace(s[0]) {
      var j := StripIsSlice(s[1..]);
      i := SliceAfterFront(s, Strip(s[1..]), j);
    } else if s != [] && IsSpace(s[|s| - 1]) {
      i := StripIsSlice(s[..|s| - 1]);
      SliceBeforeBack(s, Strip(s[..|s| - 1]), i);
    } else {
      i := 0;
    }
  }

  /** A slice amid whitespace after a leading whitespace character is one in
      the whole text, one position further on. */
  lemma SliceAfterFront(s: string, r: string, j: nat) returns (i: nat)
    requires s != [] && IsSpace(s[0])
    requires SliceAmidSpace(s[1..], r, j)
    ensures i == j + 1 && SliceAmidSpace(s, r, i)
  {
    i := j + 1;
    assert s[1..][j..j + |r|] == s[i..i + |r|];
    assert s[1..][j + |r|..] == s[i + |r|..];
    forall k | 0 <= k < i ensures IsSpace(s[..i][k]) {
      if k > 0 {
        assert s[..i][k] == s[1..][..j][k - 1];
      }
    }
  }

  /** A slice amid whitespace before a trailing whitespace character is one
      in the whole text, at the same position. */
  lemma SliceBeforeBack(s: string, r: string, i: nat)
    requires s != [] && IsSpace(s[|s| - 1])
    requires SliceAmidSpace(s[..|s| - 1], r, i)
    ensures SliceAmidSpace(s, r, i)
  {
    var t := s[..|s| - 1];
    assert t[..i] == s[..i];
    assert t[i..i + |r|] == s[i..i + |r|];
    var u := s[i + |r|..];
    forall k | 0 <= k < |u| ensures IsSpace(u[k]) {
      if k < |u| - 1 {
        assert u[k] == t[i + |r|..][k];
      }
    }
  }

  /** A text with no whitespace at either end is its own strip. */
  lemma StripUnpadded(s: string)
    requires s == [] || (!IsSpace(s[0]) && !IsSpace(s[|s| - 1]))
    ensures Strip(s) == s
  {
  }

  /** A text that starts and ends with a visible ASCII character is its own strip. */
  lemma StripVisibleEnds(s: string)
    requires s != [] && '!' <= s[0] <= '~' && '!' <= s[|s| - 1] <= '~'
    ensures Strip(s) == s
  {
    VisibleNotSpace(s[0]);
    VisibleNotSpace(s[|s| - 1]);
    StripUnpadded(s);
  }

  /** A line strips to nothing exactly when it is all whitespace. */
  lemma {:induction false} StripEmpty(s: string)
    ensures Strip(s) == [] <==> AllSpace(s)
    decreases |s|
  {
    if s != [] && IsSpace(s[0]) {
      StripEmpty(s[1..]);
      assert AllSpace(s) <==> AllSpace(s[1..]) by {
        assert forall k :: 0 < k < |s| ==> s[k] == s[1..][k - 1];
      }
    } else if s != [] && IsSpace(s[|s| - 1]) {
      var t := s[..|s| - 1];
      StripEmpty(t);
      assert AllSpace(s) <==> AllSpace(t) by {
        assert forall k :: 0 <= k < |t| ==> s[k] == t[k];
      }
    }
  }

  /** Strip removes exactly the surrounding whitespace: a text with no
      whitespace at its ends comes back unchanged from between any whitespace. */
  lemma {:induction false} StripSurrounded(pre: string, mid: string, post: string)
    requires AllSpace(pre) && AllSpace(post)
    requires mid == [] || (!IsSpace(mid[0]) && !IsSpace(mid[|mid| - 1]))
    ensures Strip(pre + mid + post) == mid
    decreases |pre| + |post|
  {
    var s := pre + mid + post;
    if mid == [] {
      assert AllSpace(s) by {
        assert s == pre + post;
        assert forall k :: 0 <= k < |s| ==> s[k] == if k < |pre| then pre[k] else post[k - |pre|];
      }
      StripEmpty(s);
    } else if pre != [] {
      assert s[0] == pre[0] && IsSpace(pre[0]);
      assert s[1..] == pre[1..] + mid + post;
      assert AllSpace(pre[1..]) by {
        assert forall k :: 0 <= k < |pre| - 1 ==> pre[1..][k] == pre[k + 1];
      }
      StripSurrounded(pre[1..], mid, post);
    } else if post != [] {
      assert s == mid + post;
      assert s[0] == mid[0];
      assert s[|s| - 1] == post[|post| - 1] && IsSpace(post[|post| - 1]);
      assert s[..|s| - 1] == [] + mid + post[..|post| - 1];
      assert AllSpace(post[..|post| - 1]) by {
        assert forall k :: 0 <= k < |post| - 1 ==> post[..|post| - 1][k] == post[k];
      }
      StripSurrounded([], mid, post[..|post| - 1]);
    } else {
      assert s == mid;
    }
  }

  predicate IsCapital(c: char) {
    'A' <= c <= 'Z'
  }

  /** Two characters that are the same up to ASCII case: equal, or an ASCII
      capital and its small letter. */
  predicate SameUpToCase(a: char, b: char) {
    || a == b
    || (IsCapital(a) && b as int == a as int + 32)
    || (IsCapital(b) && a as int == b as int + 32)
  }

  /** Python's str.lower() on the ASCII letters: the one character that is the
      same as `c` up to case and is not a capital. */
  function LowerChar(c: char): (r: char)
    ensures !IsCapital(r)
    ensures SameUpToCase(c, r)
  {
    if IsCapital(c) then (c as int + 32) as char else c
  }

  /** Python's str.lower() on a text, character by character. */
  function Lower(s: string): (r: string)
    ensures |r| == |s|
    ensures forall k :: 0 <= k < |s| ==> !IsCapital(r[k]) && SameUpToCase(s[k], r[k])
  {
    seq(|s|, k requires 0 <= k < |s| => LowerChar(s[k]))
  }

  /** Lower-casing leaves a text without ASCII capitals as it is. */
  lemma LowerUnchanged(s: string)
    requires forall k :: 0 <= k < |s| ==> !IsCapital(s[k])
    ensures Lower(s) == s
  {
  }

  /** Lower-casing twice is lower-casing once. */
  lemma LowerIdempotent(s: string)
    ensures Lower(Lower(s)) == Lower(s)
  {
    LowerUnchanged(Lower(s));
  }

  /** Two texts lower-case to the same text exactly when they are the same up
      to ASCII case, character by character. */
  lemma LowerIgnoresCase(s: string, t: string)
    ensures Lower(s) == Lower(t) <==>
      |s| == |t| && forall k :: 0 <= k < |s| ==> SameUpToCase(s[k], t[k])
  {
    if |s| == |t| && forall k :: 0 <= k < |s| ==> SameUpToCase(s[k], t[k]) {
      forall k | 0 <= k < |s| ensures Lower(s)[k] == Lower(t)[k] {
        assert Lower(s)[k] == LowerChar(s[k]) && Lower(t)[k] == LowerChar(t[k]);
      }
    }
    if Lower(s) == Lower(t) {
      forall k | 0 <= k < |s| ensures SameUpToCase(s[k], t[k]) {
        assert Lower(s)[k] == LowerChar(s[k]) && Lower(t)[k] == LowerChar(t[k]);
      }
    }
  }

  /** Python's str.startswith. */
  predicate StartsWith(s: string, prefix: string) {
    |prefix| <= |s| && s[..|prefix|] == prefix
  }
}
