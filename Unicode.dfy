/**
 * Character classes used by the name validators, and Go's strings.TrimSpace.
 *
 * The Unicode tables (`unicode.Han`, `unicode.IsLetter`, `unicode.IsDigit`)
 * are not reproduced: they are passed around as a `UnicodeTables` value, and
 * `Sound` states the only facts about them that the model relies on.
 * White space is concrete: it is the Unicode White_Space property, which is
 * exactly what Go's `unicode.IsSpace` (and so `strings.TrimSpace`) tests.
 */
module Unicode {

  /** The three Unicode tables the validators consult. */
  datatype UnicodeTables = UnicodeTables(
    isHan: char -> bool,
    isLetter: char -> bool,
    isDigit: char -> bool)

  predicate IsAsciiLetter(c: char) {
    ('a' <= c <= 'z') || ('A' <= c <= 'Z')
  }

  predicate IsAsciiDigit(c: char) {
    '0' <= c <= '9'
  }

  /** The identifier grammar `[A-Za-z0-9_-]`, one character at a time. */
  predicate IsIdentChar(c: char) {
    IsAsciiLetter(c) || IsAsciiDigit(c) || c == '-' || c == '_'
  }

  /** Unicode White_Space: U+0009..U+000D, U+0020, U+0085, U+00A0, U+1680,
      U+2000..U+200A, U+2028, U+2029, U+202F, U+205F, U+3000. */
  predicate IsSpace(c: char) {
    ('\U{9}' <= c <= '\U{D}') || c == ' ' || c == '\U{85}' || c == '\U{A0}'
    || c == '\U{1680}' || ('\U{2000}' <= c <= '\U{200A}') || c == '\U{2028}'
    || c == '\U{2029}' || c == '\U{202F}' || c == '\U{205F}' || c == '\U{3000}'
  }

  /** What the real tables satisfy and the model needs: ASCII letters and
      digits are letters or digits and not Han; `-`, `_` and white space are
      neither letters, digits nor Han. */
  ghost predicate Sound(u: UnicodeTables) {
    && (forall c :: IsAsciiLetter(c) ==> u.isLetter(c) && !u.isHan(c))
    && (forall c :: IsAsciiDigit(c) ==> u.isDigit(c) && !u.isHan(c))
    && (forall c :: (c == '-' || c == '_' || IsSpace(c)) ==> !u.isLetter(c) && !u.isDigit(c) && !u.isHan(c))
  }

  /** Tables that are Sound: Han is the CJK Unified Ideographs block,
      letters and digits are the ASCII ones. */
  function SampleTables(): (u: UnicodeTables)
    ensures Sound(u)
    ensures u.isHan('\U{62A5}') && u.isHan('\U{8868}')
  {
    UnicodeTables(c => '\U{4E00}' <= c <= '\U{9FFF}', IsAsciiLetter, IsAsciiDigit)
  }

  /** strings.TrimLeft with unicode.IsSpace: the longest suffix of `s` that
      does not start with white space. */
  function TrimLeftSpace(s: string): (r: string)
    ensures |r| <= |s| && r == s[|s| - |r|..]
    ensures forall i :: 0 <= i < |s| - |r| ==> IsSpace(s[i])
    ensures r != [] ==> !IsSpace(r[0])
  {
    if s != [] && IsSpace(s[0]) then TrimLeftSpace(s[1..]) else s
  }

  /** strings.TrimRight with unicode.IsSpace: the longest prefix of `s` that
      does not end with white space. */
  function TrimRightSpace(s: string): (r: string)
    ensures |r| <= |s| && r == s[..|r|]
    ensures forall i :: |r| <= i < |s| ==> IsSpace(s[i])
    ensures r != [] ==> !IsSpace(r[|r| - 1])
  {
    if s != [] && IsSpace(s[|s| - 1]) then TrimRightSpace(s[..|s| - 1]) else s
  }

  /** No white space at either end. */
  predicate Trimmed(s: string) {
    s == [] || (!IsSpace(s[0]) && !IsSpace(s[|s| - 1]))
  }

  /** strings.TrimSpace: `s` without its leading and trailing white space. */
  function TrimSpace(s: string): (r: string)
    ensures Trimmed(r)
    ensures |r| <= |s|
  {
    TrimRightSpace(TrimLeftSpace(s))
  }

  /** The trimmed string is the slice s[i..j] with only white space outside
      it. */
  lemma TrimSpaceIsSlice(s: string)
    ensures exists i, j :: 0 <= i <= j <= |s| && TrimSpace(s) == s[i..j]
                        && (forall k :: 0 <= k < i ==> IsSpace(s[k]))
                        && (forall k :: j <= k < |s| ==> IsSpace(s[k]))
  {
    SpaceOutsideSlice(s, TrimLeftSpace(s), TrimSpace(s));
  }

  /** A suffix after leading white space, cut before trailing white space,
      is a slice with only white space outside it. */
  lemma SpaceOutsideSlice(s: string, l: string, r: string)
    requires |l| <= |s| && l == s[|s| - |l|..]
    requires forall k :: 0 <= k < |s| - |l| ==> IsSpace(s[k])
    requires |r| <= |l| && r == l[..|r|]
    requires forall k :: |r| <= k < |l| ==> IsSpace(l[k])
    ensures exists i, j :: 0 <= i <= j <= |s| && r == s[i..j]
                        && (forall k :: 0 <= k < i ==> IsSpace(s[k]))
                        && (forall k :: j <= k < |s| ==> IsSpace(s[k]))
  {
    var i := |s| - |l|;
    var j := i + |r|;
    assert r == s[i..j];
    forall k | j <= k < |s| ensures IsSpace(s[k]) {
      assert s[k] == l[k - i];
    }
  }

  /** Trimming a string with no white space at its ends changes nothing. */
  lemma {:induction false} TrimSpaceOfTrimmed(s: string)
    requires Trimmed(s)
    ensures TrimSpace(s) == s
  {
  }

  /** TrimSpace is idempotent. */
  lemma TrimSpaceIdempotent(s: string)
    ensures TrimSpace(TrimSpace(s)) == TrimSpace(s)
  {
    TrimSpaceOfTrimmed(TrimSpace(s));
  }

  lemma {:induction false} TrimLeftSkipsSpace(pre: string, x: string)
    requires forall i :: 0 <= i < |pre| ==> IsSpace(pre[i])
    ensures TrimLeftSpace(pre + x) == TrimLeftSpace(x)
  {
    if pre != [] {
      assert (pre + x)[0] == pre[0];
      assert (pre + x)[1..] == pre[1..] + x;
      TrimLeftSkipsSpace(pre[1..], x);
    } else {
      assert pre + x == x;
    }
  }

  lemma {:induction false} TrimLeftOfConcat(s: string, post: string)
    ensures TrimLeftSpace(s + post)
         == if TrimLeftSpace(s) == [] then TrimLeftSpace(post) else TrimLeftSpace(s) + post
  {
    if s == [] {
      assert s + post == post;
    } else {
      assert (s + post)[0] == s[0];
      if IsSpace(s[0]) {
        assert (s + post)[1..] == s[1..] + post;
        TrimLeftOfConcat(s[1..], post);
      }
    }
  }

  lemma {:induction false} TrimRightSkipsSpace(x: string, post: string)
    requires forall i :: 0 <= i < |post| ==> IsSpace(post[i])
    ensures TrimRightSpace(x + post) == TrimRightSpace(x)
  {
    if post == [] {
      assert x + post == x;
    } else {
      var w := x + post;
      assert w[|w| - 1] == post[|post| - 1];
      assert w[..|w| - 1] == x + post[..|post| - 1];
      TrimRightSkipsSpace(x, post[..|post| - 1]);
    }
  }

  /** Padding a string with white space on either side does not change what
      it trims to. */
  lemma TrimSpaceIgnoresPadding(pre: string, s: string, post: string)
    requires forall i :: 0 <= i < |pre| ==> IsSpace(pre[i])
    requires forall i :: 0 <= i < |post| ==> IsSpace(post[i])
    ensures TrimSpace(pre + s + post) == TrimSpace(s)
  {
    assert pre + s + post == pre + (s + post);
    TrimLeftSkipsSpace(pre, s + post);
    TrimLeftOfConcat(s, post);
    if TrimLeftSpace(s) != [] {
      TrimRightSkipsSpace(TrimLeftSpace(s), post);
    }
  }

  /** A string made of white space only trims to the empty string. */
  lemma {:induction false} TrimSpaceOfBlank(s: string)
    requires forall k :: 0 <= k < |s| ==> IsSpace(s[k])
    ensures TrimSpace(s) == []
  {
  }
}
