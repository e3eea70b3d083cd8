/** `sorted(dates, reverse=True)` on a set of strings: its elements in
    strictly decreasing order of Python's string comparison. */
module Sorting {
  import opened Strings

  function Elements(xs: seq<string>): set<string> {
    set x | x in xs
  }

  lemma ElementsAppend(a: seq<string>, b: seq<string>)
    ensures Elements(a + b) == Elements(a) + Elements(b)
  {
    assert forall x :: x in a + b <==> x in a || x in b;
  }

  /** Strictly decreasing: every string is greater than all that follow. */
  predicate Descending(xs: seq<string>) {
    forall i, j :: 0 <= i < j < |xs| ==> LexLess(xs[j], xs[i])
  }

  /** `x` placed into a decreasing sequence, unless it is there already. */
  function Insert(x: string, xs: seq<string>): (r: seq<string>)
    ensures Elements(r) == Elements(xs) + {x}
  {
    if xs == [] then [x]
    else if x == xs[0] then xs
    else if LexLess(xs[0], x) then [x] + xs
    else
      ElementsAppend([xs[0]], xs[1..]);
      ElementsAppend([xs[0]], Insert(x, xs[1..]));
      assert xs == [xs[0]] + xs[1..];
      [xs[0]] + Insert(x, xs[1..])
  }

  /** The distinct strings of `xs`, greatest first. */
  function SortDesc(xs: seq<string>): (r: seq<string>)
    ensures Elements(r) == Elements(xs)
  {
    if xs == [] then []
    else
      var r := Insert(xs[|xs| - 1], SortDesc(xs[..|xs| - 1]));
      assert Elements(xs) == Elements(xs[..|xs| - 1]) + {xs[|xs| - 1]} by {
        assert xs == xs[..|xs| - 1] + [xs[|xs| - 1]];
      }
      r
  }

  lemma {:induction false} InsertDescending(x: string, xs: seq<string>)
    requires Descending(xs)
    ensures Descending(Insert(x, xs))
  {
    if xs == [] || x == xs[0] {
    } else if LexLess(xs[0], x) {
      var r := [x] + xs;
      forall i, j | 0 <= i < j < |r|
        ensures LexLess(r[j], r[i])
      {
        if i == 0 {
          if j > 1 { LexLessTransitive(xs[j - 1], xs[0], x); }
        } else {
          assert r[i] == xs[i - 1] && r[j] == xs[j - 1];
        }
      }
    } else {
      LexLessTotal(x, xs[0]);
      var tail := xs[1..];
      assert Descending(tail) by {
        forall i, j | 0 <= i < j < |tail| ensures LexLess(tail[j], tail[i]) {
          assert tail[i] == xs[i + 1] && tail[j] == xs[j + 1];
        }
      }
      InsertDescending(x, tail);
      var ins := Insert(x, tail);
      var r := [xs[0]] + ins;
      forall i, j | 0 <= i < j < |r|
        ensures LexLess(r[j], r[i])
      {
        if i == 0 {
          assert r[j] in Elements(ins);
          assert r[j] == x || r[j] in Elements(tail);
        } else {
          assert r[i] == ins[i - 1] && r[j] == ins[j - 1];
        }
      }
    }
  }

  /** `SortDesc` is decreasing. */
  lemma {:induction false} SortDescDescending(xs: seq<string>)
    ensures Descending(SortDesc(xs))
    decreases |xs|
  {
    if xs != [] {
      SortDescDescending(xs[..|xs| - 1]);
      InsertDescending(xs[|xs| - 1], SortDesc(xs[..|xs| - 1]));
    }
  }

  lemma ElementsEmpty(xs: seq<string>)
    ensures xs == [] <==> Elements(xs) == {}
  {
    if xs != [] { assert xs[0] in Elements(xs); }
  }

  /** A set has only one decreasing enumeration. */
  lemma {:induction false} DescendingUnique(a: seq<string>, b: seq<string>)
    requires Descending(a) && Descending(b) && Elements(a) == Elements(b)
    ensures a == b
    decreases |a|
  {
    if a == [] || b == [] {
      ElementsEmpty(a);
      ElementsEmpty(b);
    } else {
      if a[0] != b[0] {
        assert b[0] in Elements(a);
        var k :| 0 <= k < |a| && a[k] == b[0];
        assert a[0] in Elements(b);
        var m :| 0 <= m < |b| && b[m] == a[0];
        LexLessAsymmetric(a[k], a[0]);
        assert false;
      }
      var ta, tb := a[1..], b[1..];
      assert a[0] !in Elements(ta) by {
        if a[0] in Elements(ta) {
          var k :| 0 <= k < |ta| && ta[k] == a[0];
          assert a[k + 1] == a[0];
          LexLessIrreflexive(a[0]);
        }
      }
      assert b[0] !in Elements(tb) by {
        if b[0] in Elements(tb) {
          var k :| 0 <= k < |tb| && tb[k] == b[0];
          assert b[k + 1] == b[0];
          LexLessIrreflexive(b[0]);
        }
      }
      assert a == [a[0]] + ta && b == [b[0]] + tb;
      assert Elements(a) == {a[0]} + Elements(ta) && Elements(b) == {b[0]} + Elements(tb);
      assert Elements(ta) == Elements(tb);
      assert Descending(ta) by {
        forall i, j | 0 <= i < j < |ta| ensures LexLess(ta[j], ta[i]) {
          assert ta[i] == a[i + 1] && ta[j] == a[j + 1];
        }
      }
      assert Descending(tb) by {
        forall i, j | 0 <= i < j < |tb| ensures LexLess(tb[j], tb[i]) {
          assert tb[i] == b[i + 1] && tb[j] == b[j + 1];
        }
      }
      DescendingUnique(ta, tb);
    }
  }

  /** Every non-empty set of strings has a greatest element. */
  lemma {:induction false} MaximumExists(s: set<string>)
    requires s != {}
    ensures exists m :: m in s && forall y :: y in s && y != m ==> LexLess(y, m)
    decreases |s|
  {
    var x :| x in s;
    var rest := s - {x};
    if rest != {} {
      MaximumExists(rest);
      var m :| m in rest && forall y :: y in rest && y != m ==> LexLess(y, m);
      LexLessTotal(x, m);
      if LexLess(x, m) {
        assert forall y :: y in s && y != m ==> LexLess(y, m);
      } else {
        forall y | y in s && y != x
          ensures LexLess(y, x)
        {
          if y != m { LexLessTransitive(y, m, x); }
        }
      }
    } else {
      assert forall y :: y in s && y != x ==> y in rest;
    }
  }

  /** What the selection loop keeps: `r` is decreasing, holds what is
      not in `rest`, and is greater everywhere than what is. */
  predicate Selected(r: seq<string>, rest: set<string>, s: set<string>) {
    && Descending(r)
    && Elements(r) + rest == s && Elements(r) !! rest
    && forall i, y :: 0 <= i < |r| && y in rest ==> LexLess(y, r[i])
  }

  lemma SelectMaximum(r: seq<string>, rest: set<string>, s: set<string>, m: string)
    requires Selected(r, rest, s)
    requires m in rest && forall y :: y in rest && y != m ==> LexLess(y, m)
    ensures Selected(r + [m], rest - {m}, s)
  {
    var next := r + [m];
    ElementsAppend(r, [m]);
    assert Elements([m]) == {m};
    forall i, j | 0 <= i < j < |next|
      ensures LexLess(next[j], next[i])
    {
      assert next[i] == r[i];
    }
    forall i, y | 0 <= i < |next| && y in rest - {m}
      ensures LexLess(y, next[i])
    {
      if i < |r| { assert next[i] == r[i]; }
    }
  }

  /** `sorted(s, reverse=True)`: the maximum of what is left is taken
      until nothing is. */
  method SortedDescending(s: set<string>) returns (r: seq<string>)
    ensures Descending(r) && Elements(r) == s
  {
    r := [];
    var rest := s;
    while rest != {}
      invariant Selected(r, rest, s)
      decreases |rest|
    {
      MaximumExists(rest);
      var m :| m in rest && forall y :: y in rest && y != m ==> LexLess(y, m);
      SelectMaximum(r, rest, s, m);
      r := r + [m];
      rest := rest - {m};
    }
  }

  /** Sorting the set of `xs` is `SortDesc` of `xs`. */
  lemma SortedSet(r: seq<string>, xs: seq<string>)
    requires Descending(r) && Elements(r) == Elements(xs)
    ensures r == SortDesc(xs)
  {
    SortDescDescending(xs);
    DescendingUnique(r, SortDesc(xs));
  }
}
