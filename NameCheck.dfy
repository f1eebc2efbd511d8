/**
 * The character-class validators of pkg/util/helper.go (FirstIllegalChar,
 * isValidDirName, containsChinese, containsSpecialChar, InArray). The
 * package-private copies in cmd/helper.go (firstIllegalChar, isValidDirName,
 * containsChinese, containsSpecialChar) are the same code and are modelled by
 * these same functions.
 *
 * Strings are sequences of code points; each Go `for _, r := range s` loop
 * with an early return becomes a recursive scan.
 */
module NameCheck {
  import opened Unicode

  /** The switch inside the validators' loops: a Han code point is
      rejected first, then the identifier characters pass, then everything
      else is rejected. */
  predicate Legal(u: UnicodeTables, c: char) {
    !u.isHan(c) && IsIdentChar(c)
  }

  /** The loop of FirstIllegalChar, over an already trimmed string: the
      first code point that is not Legal, as a one-rune string, or "". */
  function FirstIllegalIn(u: UnicodeTables, t: string): (r: string)
    ensures r == [] <==> forall i :: 0 <= i < |t| ==> Legal(u, t[i])
    ensures r != [] ==> exists k :: 0 <= k < |t| && r == [t[k]] && !Legal(u, t[k])
                                 && forall i :: 0 <= i < k ==> Legal(u, t[i])
  {
    if t == [] then []
    else if u.isHan(t[0]) then [t[0]]
    else if IsIdentChar(t[0]) then
      var r := FirstIllegalIn(u, t[1..]);
      assert forall i :: 1 <= i < |t| ==> t[1..][i - 1] == t[i];
      r
    else [t[0]]
  }

  /** FirstIllegalChar(s) (pkg/util/helper.go) and firstIllegalChar(s)
      (cmd/helper.go): trims white space, then reports the first code point
      outside the identifier grammar (Han or otherwise), or "" when there is
      none. */
  function FirstIllegalChar(u: UnicodeTables, s: string): (r: string)
    ensures r == [] <==> forall i :: 0 <= i < |TrimSpace(s)| ==> Legal(u, TrimSpace(s)[i])
    ensures r != [] ==> |r| == 1 && r[0] in TrimSpace(s) && !Legal(u, r[0])
    ensures r != [] ==> var t := TrimSpace(s);
                        exists k :: 0 <= k < |t| && r == [t[k]] && !Legal(u, t[k])
                                 && forall i :: 0 <= i < k ==> Legal(u, t[i])
  {
    FirstIllegalIn(u, TrimSpace(s))
  }

  /** isValidDirName: the same scan as FirstIllegalChar but without
      trimming, answering only yes or no. */
  function IsValidDirName(u: UnicodeTables, s: string): (b: bool)
    ensures b <==> forall i :: 0 <= i < |s| ==> Legal(u, s[i])
  {
    if s == [] then true
    else if u.isHan(s[0]) then false
    else if IsIdentChar(s[0]) then
      var b := IsValidDirName(u, s[1..]);
      assert forall i :: 1 <= i < |s| ==> s[1..][i - 1] == s[i];
      b
    else false
  }

  /** containsChinese: some code point of `s` is Han. */
  function ContainsChinese(u: UnicodeTables, s: string): (b: bool)
    ensures b <==> exists i :: 0 <= i < |s| && u.isHan(s[i])
  {
    if s == [] then false
    else if u.isHan(s[0]) then true
    else
      var b := ContainsChinese(u, s[1..]);
      assert forall i :: 1 <= i < |s| ==> s[1..][i - 1] == s[i];
      b
  }

  /** The test inside containsSpecialChar's loop. */
  predicate Special(u: UnicodeTables, c: char) {
    !(u.isLetter(c) || u.isDigit(c) || u.isHan(c))
  }

  /** containsSpecialChar: some code point of `s` is neither a letter, a
      digit nor Han. */
  function ContainsSpecialChar(u: UnicodeTables, s: string): (b: bool)
    ensures b <==> exists i :: 0 <= i < |s| && Special(u, s[i])
  {
    if s == [] then false
    else if Special(u, s[0]) then true
    else
      var b := ContainsSpecialChar(u, s[1..]);
      assert forall i :: 1 <= i < |s| ==> s[1..][i - 1] == s[i];
      b
  }

  /** InArray: linear search with early return. */
  function InArray<T(==)>(v: T, xs: seq<T>): (b: bool)
    ensures b <==> exists i :: 0 <= i < |xs| && xs[i] == v
  {
    if xs == [] then false
    else if xs[0] == v then true
    else
      var b := InArray(v, xs[1..]);
      assert forall i :: 1 <= i < |xs| ==> xs[1..][i - 1] == xs[i];
      b
  }

  // ---------------------------------------------------------------------
  // Properties

  /** With sound tables, a code point is Legal exactly when it belongs to
      the identifier grammar `[A-Za-z0-9_-]`. */
  lemma LegalIsIdentChar(u: UnicodeTables, c: char)
    requires Sound(u)
    ensures Legal(u, c) <==> IsIdentChar(c)
  {
  }

  /** A name passes FirstIllegalChar exactly when every code point of its
      trimmed form is an ASCII letter, an ASCII digit, `-` or `_`. */
  lemma FirstIllegalCharEmptyIff(u: UnicodeTables, s: string)
    requires Sound(u)
    ensures FirstIllegalChar(u, s) == [] <==> forall i :: 0 <= i < |TrimSpace(s)| ==> IsIdentChar(TrimSpace(s)[i])
  {
    var t := TrimSpace(s);
    forall i | 0 <= i < |t| ensures Legal(u, t[i]) <==> IsIdentChar(t[i]) {
      LegalIsIdentChar(u, t[i]);
    }
  }

  /** A string of identifier characters passes FirstIllegalChar. */
  lemma IdentifierPasses(u: UnicodeTables, s: string)
    requires Sound(u)
    requires forall i :: 0 <= i < |s| ==> IsIdentChar(s[i])
    ensures FirstIllegalChar(u, s) == []
  {
    TrimSpaceOfTrimmed(s);
  }

  /** White space at the ends of a name never causes a rejection, and the
      empty name is not rejected either. */
  lemma EdgeSpaceIgnored(u: UnicodeTables, pre: string, s: string, post: string)
    requires forall i :: 0 <= i < |pre| ==> IsSpace(pre[i])
    requires forall i :: 0 <= i < |post| ==> IsSpace(post[i])
    ensures FirstIllegalChar(u, pre + s + post) == FirstIllegalChar(u, s)
    ensures FirstIllegalChar(u, []) == []
  {
    TrimSpaceIgnoresPadding(pre, s, post);
    TrimSpaceOfBlank([]);
  }

  /** For a name without white space at its ends, isValidDirName and
      FirstIllegalChar agree. */
  lemma ValidDirNameAgrees(u: UnicodeTables, s: string)
    requires Trimmed(s)
    ensures IsValidDirName(u, s) <==> FirstIllegalChar(u, s) == []
  {
    TrimSpaceOfTrimmed(s);
  }

  /** isValidDirName does not trim: " a" is rejected by it while
      FirstIllegalChar accepts it. */
  lemma ValidDirNameDoesNotTrim(u: UnicodeTables)
    requires Sound(u)
    ensures !IsValidDirName(u, " a")
    ensures FirstIllegalChar(u, " a") == []
  {
    assert TrimLeftSpace(" a") == "a";
    assert TrimSpace(" a") == "a";
  }

  /** A name containing a Han code point is never a valid directory name. */
  lemma ChineseIsInvalid(u: UnicodeTables, s: string)
    requires ContainsChinese(u, s)
    ensures !IsValidDirName(u, s)
  {
  }

  /** containsSpecialChar is true for any name containing `-`, `_` or
      white space, so it is not the negation of isValidDirName. */
  lemma SpecialCharIncludesSeparators(u: UnicodeTables, s: string, i: nat)
    requires Sound(u)
    requires i < |s| && (s[i] == '-' || s[i] == '_' || IsSpace(s[i]))
    ensures ContainsSpecialChar(u, s)
  {
  }

  /** "a-b" is a valid directory name that contains a special character. */
  lemma SpecialCharIsNotInvalidity(u: UnicodeTables)
    requires Sound(u)
    ensures IsValidDirName(u, "a-b") && ContainsSpecialChar(u, "a-b")
  {
    SpecialCharIncludesSeparators(u, "a-b", 1);
  }

  /** The first rejected code point of "报表" is "报". */
  lemma HanNameRejected()
    ensures FirstIllegalChar(SampleTables(), "\U{62A5}\U{8868}") == "\U{62A5}"
  {
    var s := "\U{62A5}\U{8868}";
    TrimSpaceOfTrimmed(s);
    var u := SampleTables();
    assert u.isHan(s[0]);
  }
}
