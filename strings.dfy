/** String primitives used by the converters, each standing for one Python
    built-in: `startswith`, `find` followed by slicing, `split`, `join`,
    `strip`, `rstrip('\r\n')` and the ordering of `sorted`. */
module Strings {

  /** `s.startswith(p)`. */
  predicate StartsWith(s: string, p: string) {
    p <= s
  }

  /** `s[:s.find(c)]` when `c` occurs in `s`, and `s` itself otherwise: the
      part of `s` before the first `c`. */
  function Before(s: string, c: char): (r: string)
    ensures r <= s && c !in r
    ensures |r| < |s| ==> s[|r|] == c
    ensures c !in s ==> r == s
  {
    if s == [] || s[0] == c then [] else [s[0]] + Before(s[1..], c)
  }

  /** `sep.join(xs)`. */
  function Join(xs: seq<string>, sep: string): string {
    if xs == [] then []
    else if |xs| == 1 then xs[0]
    else xs[0] + sep + Join(xs[1..], sep)
  }

  /** The images of the strings under `f`, concatenated in order. */
  function ConcatMap(f: string -> string, ws: seq<string>): string {
    if ws == [] then [] else ConcatMap(f, ws[..|ws| - 1]) + f(ws[|ws| - 1])
  }

  lemma ConcatMapSnoc(f: string -> string, ws: seq<string>, i: nat)
    requires i < |ws|
    ensures ConcatMap(f, ws[..i + 1]) == ConcatMap(f, ws[..i]) + f(ws[i])
  {
    assert ws[..i + 1][..i] == ws[..i];
  }

  lemma {:induction false} ConcatMapCons(f: string -> string, w: string, ws: seq<string>)
    ensures ConcatMap(f, [w] + ws) == f(w) + ConcatMap(f, ws)
    decreases |ws|
  {
    if ws == [] {
      assert ([w] + ws)[..0] == [];
    } else {
      var n := |ws|;
      var l := [w] + ws;
      assert l[..n] == [w] + ws[..n - 1] && l[n] == ws[n - 1];
      ConcatMapCons(f, w, ws[..n - 1]);
    }
  }

  /** `s.split(sep)` for a non-empty separator: the pieces between the
      non-overlapping occurrences of `sep`, found left to right. */
  function SplitOn(s: string, sep: string): (r: seq<string>)
    requires sep != []
    ensures |r| >= 1
    decreases |s|
  {
    if |s| < |sep| then [s]
    else if s[..|sep|] == sep then [[]] + SplitOn(s[|sep|..], sep)
    else
      var rest := SplitOn(s[1..], sep);
      [[s[0]] + rest[0]] + rest[1..]
  }

  lemma JoinCons(x: string, xs: seq<string>, sep: string)
    requires xs != []
    ensures Join([x] + xs, sep) == x + sep + Join(xs, sep)
  {
    assert ([x] + xs)[1..] == xs;
  }

  /** Joining the pieces of a split with the same separator gives back the
      string that was split. */
  lemma {:induction false} JoinSplitOn(s: string, sep: string)
    requires sep != []
    ensures Join(SplitOn(s, sep), sep) == s
    decreases |s|, 1
  {
    if |s| < |sep| {
    } else if s[..|sep|] == sep {
      JoinSplitOnAtSep(s, sep);
    } else {
      JoinSplitOnAtChar(s, sep);
    }
  }

  lemma {:induction false} JoinSplitOnAtSep(s: string, sep: string)
    requires sep != [] && |s| >= |sep| && s[..|sep|] == sep
    ensures Join(SplitOn(s, sep), sep) == s
    decreases |s|, 0
  {
    var tail := SplitOn(s[|sep|..], sep);
    assert SplitOn(s, sep) == [[]] + tail;
    JoinSplitOn(s[|sep|..], sep);
    JoinCons([], tail, sep);
    assert s == s[..|sep|] + s[|sep|..];
  }

  lemma {:induction false} JoinSplitOnAtChar(s: string, sep: string)
    requires sep != [] && |s| >= |sep| && s[..|sep|] != sep
    ensures Join(SplitOn(s, sep), sep) == s
    decreases |s|, 0
  {
    var rest := SplitOn(s[1..], sep);
    assert SplitOn(s, sep) == [[s[0]] + rest[0]] + rest[1..];
    JoinSplitOn(s[1..], sep);
    JoinFirstExtended(s[0], rest, sep);
    assert s == [s[0]] + s[1..];
  }

  /** Putting a character in front of the first piece puts it in front of
      the join. */
  lemma JoinFirstExtended(c: char, xs: seq<string>, sep: string)
    requires xs != []
    ensures Join([[c] + xs[0]] + xs[1..], sep) == [c] + Join(xs, sep)
  {
    var first := [c] + xs[0];
    if |xs| == 1 {
      assert [first] + xs[1..] == [first];
    } else {
      JoinCons(first, xs[1..], sep);
      assert xs == [xs[0]] + xs[1..];
      JoinCons(xs[0], xs[1..], sep);
    }
  }

  lemma {:induction false} JoinSnoc(xs: seq<string>, x: string, sep: string)
    requires xs != []
    ensures Join(xs + [x], sep) == Join(xs, sep) + sep + x
  {
    if |xs| == 1 {
      assert xs + [x] == [xs[0]] + [x];
      JoinCons(xs[0], [x], sep);
    } else {
      assert xs + [x] == [xs[0]] + (xs[1..] + [x]);
      JoinCons(xs[0], xs[1..] + [x], sep);
      JoinSnoc(xs[1..], x, sep);
      JoinCons(xs[0], xs[1..], sep);
      assert [xs[0]] + xs[1..] == xs;
    }
  }

  /** Splitting a string that starts with a piece free of the separator's
      first character extends the first piece of the rest. */
  lemma {:induction false} SplitOnFreePrefix(x: string, t: string, sep: string)
    requires sep != [] && sep[0] !in x
    ensures SplitOn(x + t, sep) == [x + SplitOn(t, sep)[0]] + SplitOn(t, sep)[1..]
    decreases |x|
  {
    var tail := SplitOn(t, sep);
    if x == [] {
      assert x + t == t && x + tail[0] == tail[0];
      assert tail == [tail[0]] + tail[1..];
    } else {
      var s := x + t;
      assert s[0] == x[0];
      if |s| < |sep| {
        assert |t| < |sep|;
        assert tail == [t];
        assert SplitOn(s, sep) == [s];
      } else {
        assert s[..|sep|] != sep by { assert s[..|sep|][0] == x[0]; }
        var rest := SplitOn(s[1..], sep);
        assert SplitOn(s, sep) == [[s[0]] + rest[0]] + rest[1..];
        assert s[1..] == x[1..] + t;
        SplitOnFreePrefix(x[1..], t, sep);
        assert rest == [x[1..] + tail[0]] + tail[1..];
        assert [x[0]] + (x[1..] + tail[0]) == x + tail[0];
      }
    }
  }

  /** Splitting the join of pieces that do not contain the separator's first
      character gives back the pieces. */
  lemma {:induction false} SplitOnJoin(xs: seq<string>, sep: string)
    requires sep != [] && xs != []
    requires forall i :: 0 <= i < |xs| ==> sep[0] !in xs[i]
    ensures SplitOn(Join(xs, sep), sep) == xs
  {
    if |xs| == 1 {
      SplitOnFreePrefix(xs[0], [], sep);
      assert xs[0] + [] == xs[0];
    } else {
      var rest := Join(xs[1..], sep);
      JoinCons(xs[0], xs[1..], sep);
      assert [xs[0]] + xs[1..] == xs;
      SplitOnJoin(xs[1..], sep);
      var t := sep + rest;
      assert t[..|sep|] == sep;
      assert t[|sep|..] == rest;
      assert SplitOn(t, sep) == [[]] + xs[1..];
      SplitOnFreePrefix(xs[0], t, sep);
      assert xs[0] + sep + rest == xs[0] + t;
      assert xs[0] + [] == xs[0];
    }
  }

  /** The characters Python's `str.isspace` accepts (Unicode white space as
      of Python 2.7), which `str.strip()` removes. */
  predicate IsSpace(c: char) {
    c == ' ' || ('\t' <= c <= '\r') || ('\U{1c}' <= c <= '\U{1f}')
    || c == '\U{85}' || c == '\U{a0}' || c == '\U{1680}' || c == '\U{180e}'
    || ('\U{2000}' <= c <= '\U{200a}') || c == '\U{2028}' || c == '\U{2029}'
    || c == '\U{202f}' || c == '\U{205f}' || c == '\U{3000}'
  }

  /** `s.lstrip()`. */
  function StripLeft(s: string): (r: string)
    ensures |r| <= |s| && r == s[|s| - |r|..]
    ensures forall i :: 0 <= i < |s| - |r| ==> IsSpace(s[i])
    ensures r != [] ==> !IsSpace(r[0])
  {
    if s != [] && IsSpace(s[0]) then StripLeft(s[1..]) else s
  }

  /** `s.rstrip()`. */
  function StripRight(s: string): (r: string)
    ensures r <= s
    ensures forall i :: |r| <= i < |s| ==> IsSpace(s[i])
    ensures r != [] ==> !IsSpace(r[|r| - 1])
  {
    if s != [] && IsSpace(s[|s| - 1]) then StripRight(s[..|s| - 1]) else s
  }

  /** `s.strip()`. */
  function Strip(s: string): string {
    StripRight(StripLeft(s))
  }

  predicate IsEol(c: char) {
    c == '\r' || c == '\n'
  }

  /** `s.rstrip('\r\n')`: every trailing carriage return and line feed is
      removed, and nothing else. */
  function StripEol(s: string): (r: string)
    ensures r <= s
    ensures forall i :: |r| <= i < |s| ==> IsEol(s[i])
    ensures r != [] ==> !IsEol(r[|r| - 1])
  {
    if s != [] && IsEol(s[|s| - 1]) then StripEol(s[..|s| - 1]) else s
  }

  /** Python's `<` on strings: lexicographic order on code points. */
  predicate LexLess(a: string, b: string) {
    if a == [] then b != []
    else if b == [] then false
    else if a[0] != b[0] then a[0] < b[0]
    else LexLess(a[1..], b[1..])
  }

  lemma {:induction false} LexLessIrreflexive(a: string)
    ensures !LexLess(a, a)
  {
    if a != [] { LexLessIrreflexive(a[1..]); }
  }

  lemma {:induction false} LexLessAsymmetric(a: string, b: string)
    requires LexLess(a, b)
    ensures !LexLess(b, a)
  {
    if a != [] && b != [] && a[0] == b[0] { LexLessAsymmetric(a[1..], b[1..]); }
  }

  lemma {:induction false} LexLessTransitive(a: string, b: string, c: string)
    requires LexLess(a, b) && LexLess(b, c)
    ensures LexLess(a, c)
  {
    if a != [] && b != [] && c != [] && a[0] == b[0] && b[0] == c[0] {
      LexLessTransitive(a[1..], b[1..], c[1..]);
    }
  }

  lemma {:induction false} LexLessTotal(a: string, b: string)
    requires a != b
    ensures LexLess(a, b) || LexLess(b, a)
  {
    if a != [] && b != [] && a[0] == b[0] {
      assert a == [a[0]] + a[1..] && b == [b[0]] + b[1..];
      LexLessTotal(a[1..], b[1..]);
    }
  }

  /** Strings that share a prefix compare as their remainders do. */
  lemma {:induction false} LexLessCommonPrefix(p: string, a: string, b: string)
    ensures LexLess(p + a, p + b) == LexLess(a, b)
  {
    if p != [] {
      var pa, pb := p + a, p + b;
      assert pa != [] && pb != [] && pa[0] == pb[0];
      assert pa[1..] == p[1..] + a && pb[1..] == p[1..] + b;
      LexLessCommonPrefix(p[1..], a, b);
    } else {
      assert p + a == a && p + b == b;
    }
  }
}
