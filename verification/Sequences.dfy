/** Sequence functions shared by the other modules. */
module Sequences {

  datatype Option<+T> = None | Some(value: T)

  function Min(a: int, b: int): int { if a <= b then a else b }

  function Max(a: int, b: int): int { if a >= b then a else b }

  function Elements<T(!new)>(s: seq<T>): (r: set<T>)
    ensures forall x :: x in r <==> x in s
  {
    set x | x in s
  }

  ghost predicate NoDuplicates<T>(s: seq<T>) {
    forall i, j :: 0 <= i < j < |s| ==> s[i] != s[j]
  }

  /** The elements of `s` that satisfy `keep`, in order: a list comprehension with an `if`. */
  function Filter<T(!new)>(s: seq<T>, keep: T -> bool): (r: seq<T>)
    ensures forall x :: x in r <==> x in s && keep(x)
    ensures |r| <= |s|
  {
    if s == [] then []
    else (if keep(s[0]) then [s[0]] else []) + Filter(s[1..], keep)
  }

  lemma {:induction false} FilterNoDuplicates<T(!new)>(s: seq<T>, keep: T -> bool)
    requires NoDuplicates(s)
    ensures NoDuplicates(Filter(s, keep))
  {
    if s != [] {
      FilterNoDuplicates(s[1..], keep);
      assert s[0] !in s[1..];
    }
  }

  lemma {:induction false} FilterConcat<T(!new)>(a: seq<T>, b: seq<T>, keep: T -> bool)
    ensures Filter(a + b, keep) == Filter(a, keep) + Filter(b, keep)
  {
    if a == [] {
      assert a + b == b;
    } else {
      assert (a + b)[1..] == a[1..] + b;
      FilterConcat(a[1..], b, keep);
    }
  }

  lemma FilterOne<T(!new)>(x: T, keep: T -> bool)
    ensures Filter([x], keep) == if keep(x) then [x] else []
  {
    assert [x][1..] == [];
  }

  lemma FilterAppend<T(!new)>(a: seq<T>, x: T, keep: T -> bool)
    ensures Filter(a + [x], keep) == Filter(a, keep) + if keep(x) then [x] else []
  {
    FilterConcat(a, [x], keep);
    FilterOne(x, keep);
  }

  /** One more element of a loop that filters `s` from the left. */
  lemma FilterStep<T(!new)>(s: seq<T>, i: nat, keep: T -> bool)
    requires i < |s|
    ensures Filter(s[..i + 1], keep) == Filter(s[..i], keep) + if keep(s[i]) then [s[i]] else []
  {
    assert s[..i + 1] == s[..i] + [s[i]];
    FilterAppend(s[..i], s[i], keep);
  }

  lemma {:induction false} FilterAll<T(!new)>(s: seq<T>, keep: T -> bool)
    requires forall x :: x in s ==> keep(x)
    ensures Filter(s, keep) == s
  {
    if s != [] {
      FilterAll(s[1..], keep);
    }
  }

  lemma {:induction false} FilterFull<T(!new)>(s: seq<T>, keep: T -> bool)
    ensures |Filter(s, keep)| == |s| <==> forall x :: x in s ==> keep(x)
  {
    if s != [] {
      FilterFull(s[1..], keep);
      assert forall x :: x in s <==> x == s[0] || x in s[1..];
    }
  }

  /** A part of a set has no more elements. */
  lemma {:induction false} SubsetSize<T>(a: set<T>, b: set<T>)
    requires a <= b
    ensures |a| <= |b|
  {
    if a != {} {
      var x :| x in a;
      SubsetSize(a - {x}, b - {x});
    }
  }

  /** First occurrences only, in order: `list(dict.fromkeys(s))`. */
  function Distinct<T(!new, ==)>(s: seq<T>): (r: seq<T>)
    ensures forall x :: x in r <==> x in s
  {
    if s == [] then []
    else
      var rest := Distinct(s[..|s| - 1]);
      if s[|s| - 1] in rest then rest else rest + [s[|s| - 1]]
  }

  lemma {:induction false} DistinctNoDuplicates<T(!new)>(s: seq<T>)
    ensures NoDuplicates(Distinct(s))
  {
    if s != [] {
      DistinctNoDuplicates(s[..|s| - 1]);
    }
  }

  function Reverse<T>(s: seq<T>): (r: seq<T>)
    ensures |r| == |s|
    ensures forall i :: 0 <= i < |s| ==> r[i] == s[|s| - 1 - i]
  {
    if s == [] then [] else Reverse(s[1..]) + [s[0]]
  }

  lemma ReverseConcat<T>(a: seq<T>, b: seq<T>)
    ensures Reverse(a + b) == Reverse(b) + Reverse(a)
  {
  }

  lemma {:induction false} ReverseFilter<T(!new)>(s: seq<T>, keep: T -> bool)
    ensures Reverse(Filter(s, keep)) == Filter(Reverse(s), keep)
  {
    if s != [] {
      ReverseFilter(s[1..], keep);
      FilterConcat(Reverse(s[1..]), [s[0]], keep);
      ReverseConcat(if keep(s[0]) then [s[0]] else [], Filter(s[1..], keep));
    }
  }

  /** Two texts cut at their first colon. */
  lemma {:induction false} FirstColonSplits(a: string, x: string, b: string, y: string)
    requires ':' !in a && ':' !in b && a + ":" + x == b + ":" + y
    ensures a == b && x == y
  {
    var s, t := a + ":" + x, b + ":" + y;
    forall i | 0 <= i < |a| ensures s[i] != ':' {
      assert a[i] in a;
    }
    forall i | 0 <= i < |b| ensures t[i] != ':' {
      assert b[i] in b;
    }
    assert s[|a|] == ':' && t[|b|] == ':' && |a| == |b|;
    assert a == s[..|a|] && b == t[..|b|];
    assert x == s[|a| + 1..] && y == t[|b| + 1..];
  }

  /** Two texts joined by a colon are told apart, except when the part before the colon of one goes on with
      a colon and the end of it belongs to the other part in the other text. */
  lemma ColonJoinsAlikeIff(a: string, x: string, b: string, y: string)
    ensures a + ":" + x == b + ":" + y <==>
            || (a == b && x == y)
            || (exists m :: b == a + ":" + m && x == m + ":" + y)
            || (exists m :: a == b + ":" + m && y == m + ":" + x)
  {
    if a + ":" + x == b + ":" + y {
      if |a| < |b| {
        LongerPart(a, x, b, y);
      } else if |b| < |a| {
        LongerPart(b, y, a, x);
      } else {
        assert a == (a + ":" + x)[..|a|] && b == (b + ":" + y)[..|b|];
        assert x == (a + ":" + x)[|a| + 1..] && y == (b + ":" + y)[|b| + 1..];
      }
    }
    forall m ensures a + ":" + (m + ":" + y) == (a + ":" + m) + ":" + y && b + ":" + (m + ":" + x) == (b + ":" + m) + ":" + x {
    }
  }

  lemma LongerPart(a: string, x: string, b: string, y: string)
    requires a + ":" + x == b + ":" + y && |a| < |b|
    ensures exists m :: b == a + ":" + m && x == m + ":" + y
  {
    var s, m := a + ":" + x, b[|a| + 1..];
    assert b == s[..|b|] && a == s[..|a|] && s[|a|] == ':';
    assert b == a + ":" + m;
    assert x == s[|a| + 1..] == m + ":" + y;
  }
}
