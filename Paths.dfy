/**
 * The few string and path helpers of Go's standard library that the
 * scaffolder's decisions depend on: filepath.Join, filepath.Base,
 * strings.Split with a one-character separator, and `%d` formatting.
 */
module Paths {

  /** filepath.Join: the non-empty elements joined with "/". Cleaning of
      "." and ".." elements is not modelled; the scaffolder only joins
      validated names and fixed literals, which contain neither. */
  function Join(segs: seq<string>): (r: string)
    ensures r == [] <==> forall i :: 0 <= i < |segs| ==> segs[i] == []
  {
    if segs == [] then []
    else
      var head := Join(segs[..|segs| - 1]);
      var last := segs[|segs| - 1];
      assert forall i :: 0 <= i < |segs| - 1 ==> segs[..|segs| - 1][i] == segs[i];
      if last == [] then head
      else if head == [] then last
      else head + "/" + last
  }

  /** The non-empty elements of `segs`, in order. */
  function NonEmpty(segs: seq<string>): (r: seq<string>)
    ensures |r| <= |segs|
    ensures forall i :: 0 <= i < |r| ==> r[i] != []
  {
    if segs == [] then []
    else
      var last := segs[|segs| - 1];
      NonEmpty(segs[..|segs| - 1]) + (if last == [] then [] else [last])
  }

  /** filepath.Join is strings.Join of the non-empty elements with "/". */
  lemma {:induction false} JoinNonEmpty(segs: seq<string>)
    ensures Join(segs) == JoinWith(NonEmpty(segs), '/')
    decreases |segs|
  {
    if segs != [] {
      var front, last := segs[..|segs| - 1], segs[|segs| - 1];
      JoinNonEmpty(front);
      var ne := NonEmpty(front);
      if last == [] {
        assert NonEmpty(segs) == ne + [] == ne;
      } else if ne == [] {
        assert NonEmpty(segs) == [last];
      } else {
        assert NonEmpty(segs) == ne + [last];
        assert JoinWith(ne, '/') != [] by { JoinWithHead(ne, '/'); }
        JoinWithSnoc(ne, last, '/');
      }
    }
  }

  /** Elements that are all non-empty are all kept. */
  lemma {:induction false} NonEmptyOfFull(segs: seq<string>)
    requires forall i :: 0 <= i < |segs| ==> segs[i] != []
    ensures NonEmpty(segs) == segs
    decreases |segs|
  {
    if segs != [] {
      NonEmptyOfFull(segs[..|segs| - 1]);
      assert segs[..|segs| - 1] + [segs[|segs| - 1]] == segs;
    }
  }

  /** Non-empty elements are joined with "/" between each two of them, as in
      `api/<d>/user.api` or `build/scripts/gen_<d>.sh`. */
  lemma JoinAllNonEmpty(segs: seq<string>)
    requires forall i :: 0 <= i < |segs| ==> segs[i] != []
    ensures Join(segs) == JoinWith(segs, '/')
  {
    JoinNonEmpty(segs);
    NonEmptyOfFull(segs);
  }

  /** strings.Join starts with the first piece. */
  lemma JoinWithHead(pieces: seq<string>, sep: char)
    requires pieces != []
    ensures |JoinWith(pieces, sep)| >= |pieces[0]|
    ensures JoinWith(pieces, sep)[..|pieces[0]|] == pieces[0]
  {
  }

  /** One more piece at the end adds a separator and the piece. */
  lemma {:induction false} JoinWithSnoc(pieces: seq<string>, x: string, sep: char)
    requires pieces != []
    ensures JoinWith(pieces + [x], sep) == JoinWith(pieces, sep) + [sep] + x
    decreases |pieces|
  {
    var w := pieces + [x];
    assert w[0] == pieces[0] && w[1..] == pieces[1..] + [x];
    if |pieces| == 1 {
      assert w[1..] == [x];
    } else {
      JoinWithSnoc(pieces[1..], x, sep);
      Regroup(pieces[0] + [sep], JoinWith(pieces[1..], sep) + [sep], x);
      Regroup(pieces[0] + [sep], JoinWith(pieces[1..], sep), [sep]);
    }
  }

  /** `filepath.Join` of two elements. */
  lemma JoinPair(p: string, x: string)
    ensures Join([p, x]) == if x == [] then p else if p == [] then x else p + "/" + x
  {
    assert [p, x][..1] == [p];
    assert [p][..0] == [];
  }

  /** `filepath.Join` of three elements, the middle one possibly empty. */
  lemma JoinTriple(a: string, b: string, c: string)
    requires a != [] && c != []
    ensures Join([a, b, c]) == if b == [] then a + "/" + c else a + "/" + b + "/" + c
  {
    assert [a, b, c][..2] == [a, b];
    JoinPair(a, b);
  }

  /** Joining `p` with the path a/b/c is joining p/a/b with c. */
  lemma JoinRegroup(p: string, a: string, b: string, c: string)
    requires p != [] && a != [] && b != [] && c != []
    ensures Join([p, Join([a, b, c])]) == Join([Join([p, a, b]), c])
  {
    var abc, pab := a + "/" + b + "/" + c, p + "/" + a + "/" + b;
    JoinTriple(a, b, c);
    JoinTriple(p, a, b);
    calc {
      Join([p, Join([a, b, c])]);
      { JoinPair(p, abc); }
      p + "/" + abc;
      { SlashRegroup(p, a, b, c); }
      pab + "/" + c;
      { JoinPair(pab, c); }
      Join([Join([p, a, b]), c]);
    }
  }

  /** The separators of p/(a/b/c) and (p/a/b)/c fall in the same places. */
  lemma SlashRegroup(p: string, a: string, b: string, c: string)
    ensures p + "/" + (a + "/" + b + "/" + c) == (p + "/" + a + "/" + b) + "/" + c
  {
    Regroup(p + "/", a + "/" + b + "/", c);
    Regroup(p + "/", a + "/", b + "/");
  }

  /** Concatenation is associative. */
  lemma Regroup(x: string, y: string, z: string)
    ensures x + (y + z) == x + y + z
  {
  }

  /** filepath.Base: the last element of a path, after trailing slashes are
      removed ("." for the empty path, "/" for a path of slashes only). The
      last element is the non-empty, slash-free end of the path that is
      either all of it or preceded by a "/". */
  function Base(path: string): (r: string)
    ensures r != []
    ensures '/' in r ==> r == "/"
    ensures var q := DropTrailingSlashes(path);
            q != [] ==> && |r| <= |q| && r == q[|q| - |r|..] && '/' !in r
                        && (|r| < |q| ==> q[|q| - |r| - 1] == '/')
    ensures DropTrailingSlashes(path) == [] ==> r == (if path == [] then "." else "/")
  {
    var p := DropTrailingSlashes(path);
    if p == [] then (if path == [] then "." else "/")
    else LastElement(p)
  }

  /** `p` without its trailing slashes: a prefix of `p` followed by slashes
      only, and not ending in one itself. */
  function DropTrailingSlashes(p: string): (r: string)
    ensures r == [] || r[|r| - 1] != '/'
    ensures |r| <= |p| && r == p[..|r|]
    ensures forall i :: |r| <= i < |p| ==> p[i] == '/'
  {
    if p != [] && p[|p| - 1] == '/' then DropTrailingSlashes(p[..|p| - 1]) else p
  }

  /** The part of `p` after its last "/": its longest slash-free end. */
  function LastElement(p: string): (r: string)
    ensures '/' !in r
    ensures p != [] && p[|p| - 1] != '/' ==> r != []
    ensures |r| <= |p| && r == p[|p| - |r|..]
    ensures |r| < |p| ==> p[|p| - |r| - 1] == '/'
    decreases |p|
  {
    if p == [] || p[|p| - 1] == '/' then []
    else LastElement(p[..|p| - 1]) + [p[|p| - 1]]
  }

  /** A slash-free end of `q` that is all of `q` or preceded by a "/" is
      its last element. */
  lemma {:induction false} LastElementUnique(q: string, a: string)
    requires |a| <= |q| && a == q[|q| - |a|..] && '/' !in a
    requires |a| < |q| ==> q[|q| - |a| - 1] == '/'
    ensures a == LastElement(q)
    decreases |q|
  {
    if a != [] {
      var q', a' := q[..|q| - 1], a[..|a| - 1];
      assert a[|a| - 1] == q[|q| - 1];
      assert a' == q'[|q'| - |a'|..];
      assert |a'| < |q'| ==> q'[|q'| - |a'| - 1] == q[|q| - |a| - 1];
      LastElementUnique(q', a');
      FrontAndLast(a);
    }
  }

  /** A non-empty string is its front followed by its last character. */
  lemma FrontAndLast(s: string)
    requires s != []
    ensures s == s[..|s| - 1] + [s[|s| - 1]]
  {
  }

  /** The base name of `dir` joined with a slash-free name is that name:
      the walk's `d.Name()` of `templates/.../name` is `name`. */
  lemma BaseOfJoin(dir: string, name: string)
    requires name != [] && '/' !in name
    ensures Base(Join([dir, name])) == name
  {
    JoinPair(dir, name);
    var q := Join([dir, name]);
    assert q[|q| - 1] == name[|name| - 1];
    assert DropTrailingSlashes(q) == q;
    assert q[|q| - |name|..] == name;
    LastElementUnique(q, name);
  }

  /** strings.Split(s, string(sep)): the pieces of `s` between occurrences
      of `sep`; always at least one piece, and "" splits to [""]. */
  function Split(s: string, sep: char): (r: seq<string>)
    ensures |r| >= 1
    ensures forall i :: 0 <= i < |r| ==> sep !in r[i]
  {
    if s == [] then [[]]
    else if s[0] == sep then [[]] + Split(s[1..], sep)
    else
      var rest := Split(s[1..], sep);
      [[s[0]] + rest[0]] + rest[1..]
  }

  /** strings.Join(pieces, string(sep)). */
  function JoinWith(pieces: seq<string>, sep: char): string
  {
    if pieces == [] then []
    else if |pieces| == 1 then pieces[0]
    else pieces[0] + [sep] + JoinWith(pieces[1..], sep)
  }

  /** Joining the pieces back with the separator gives the original string. */
  lemma {:induction false} JoinSplit(s: string, sep: char)
    ensures JoinWith(Split(s, sep), sep) == s
  {
    if s == [] {
    } else if s[0] == sep {
      JoinSplit(s[1..], sep);
      assert s == [sep] + s[1..];
    } else {
      JoinSplit(s[1..], sep);
      var rest := Split(s[1..], sep);
      if |rest| == 1 {
        assert s == [s[0]] + s[1..];
      } else {
        assert s == [s[0]] + s[1..];
        assert ([[s[0]] + rest[0]] + rest[1..])[1..] == rest[1..];
      }
    }
  }

  /** Splitting pieces that do not contain the separator, once joined,
      gives the pieces back. */
  lemma {:induction false} SplitJoin(pieces: seq<string>, sep: char)
    requires |pieces| >= 1
    requires forall i :: 0 <= i < |pieces| ==> sep !in pieces[i]
    ensures Split(JoinWith(pieces, sep), sep) == pieces
  {
    if |pieces| == 1 {
      SplitNoSep(pieces[0], sep);
    } else {
      SplitJoin(pieces[1..], sep);
      SplitPrefix(pieces[0], JoinWith(pieces[1..], sep), sep);
    }
  }

  lemma {:induction false} SplitNoSep(p: string, sep: char)
    requires sep !in p
    ensures Split(p, sep) == [p]
  {
    if p != [] {
      SplitNoSep(p[1..], sep);
      assert p == [p[0]] + p[1..];
    }
  }

  /** Split of `p + [sep] + rest`, for `p` free of the separator. */
  lemma {:induction false} SplitPrefix(p: string, rest: string, sep: char)
    requires sep !in p
    ensures Split(p + [sep] + rest, sep) == [p] + Split(rest, sep)
  {
    var w := p + [sep] + rest;
    if p == [] {
      assert w == [sep] + rest;
      assert w[1..] == rest;
    } else {
      assert w[0] == p[0];
      assert w[1..] == p[1..] + [sep] + rest;
      SplitPrefix(p[1..], rest, sep);
      assert p == [p[0]] + p[1..];
    }
  }

  /** "a--b" splits into "a", "" and "b". */
  lemma SplitKeepsEmptyPieces()
    ensures Split("a--b", '-') == ["a", "", "b"]
  {
    SplitPrefix("a", "-b", '-');
    SplitPrefix("", "b", '-');
    SplitNoSep("b", '-');
    assert "a--b" == "a" + ['-'] + "-b";
    assert "-b" == "" + ['-'] + "b";
  }

  /** The decimal digit of a value below ten. */
  function Digit(d: nat): (c: char)
    requires d < 10
    ensures '0' <= c <= '9'
    ensures DigitValue(c) == d
  {
    (('0' as int) + d) as char
  }

  /** The value of a decimal digit. */
  function DigitValue(c: char): nat
    requires '0' <= c <= '9'
  {
    (c as int) - ('0' as int)
  }

  /** fmt.Sprintf("%d", n) for a natural number: decimal digits without a
      leading zero. */
  function Decimal(n: nat): (r: string)
    ensures |r| >= 1
    ensures forall i :: 0 <= i < |r| ==> '0' <= r[i] <= '9'
    ensures n >= 10 <==> |r| >= 2
    ensures n == 0 || r[0] != '0'
  {
    if n < 10 then [Digit(n)] else Decimal(n / 10) + [Digit(n % 10)]
  }

  /** The number a string of decimal digits denotes, read from the left. */
  function DigitsValue(s: string): nat
    requires forall i :: 0 <= i < |s| ==> '0' <= s[i] <= '9'
  {
    ReadDigits(0, s)
  }

  /** Reading the digits of `s` after the number `acc` was read. */
  function ReadDigits(acc: nat, s: string): nat
    requires forall i :: 0 <= i < |s| ==> '0' <= s[i] <= '9'
    decreases |s|
  {
    if s == [] then acc else ReadDigits(acc * 10 + DigitValue(s[0]), s[1..])
  }

  /** A digit read last multiplies what was read before by ten. */
  lemma {:induction false} ReadDigitsSnoc(acc: nat, s: string, c: char)
    requires forall i :: 0 <= i < |s| ==> '0' <= s[i] <= '9'
    requires '0' <= c <= '9'
    ensures ReadDigits(acc, s + [c]) == ReadDigits(acc, s) * 10 + DigitValue(c)
    decreases |s|
  {
    var w := s + [c];
    if s == [] {
      assert w == [c] && w[1..] == [];
    } else {
      assert w[0] == s[0] && w[1..] == s[1..] + [c];
      ReadDigitsSnoc(acc * 10 + DigitValue(s[0]), s[1..], c);
    }
  }

  /** `%d` is read back as the number it prints. */
  lemma {:induction false} DecimalValue(n: nat)
    ensures DigitsValue(Decimal(n)) == n
  {
    if n < 10 {
      var d := Digit(n);
      assert Decimal(n) == [d] && [d][1..] == [];
      assert ReadDigits(0, [d]) == ReadDigits(DigitValue(d), []);
    } else {
      DecimalValue(n / 10);
      ReadDigitsSnoc(0, Decimal(n / 10), Digit(n % 10));
    }
  }

  /** Distinct numbers print differently. */
  lemma DecimalInjective(a: nat, b: nat)
    requires Decimal(a) == Decimal(b)
    ensures a == b
  {
    DecimalValue(a);
    DecimalValue(b);
  }
}
