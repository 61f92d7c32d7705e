/** Sizes of sets and of lists without repetition. */
module Counting {
  lemma {:induction false} SameSize<A, B>(a: set<A>, b: set<B>, f: map<A, B>)
    requires f.Keys == a && (forall x :: x in a ==> f[x] in b)
    requires forall x, y :: x in a && y in a && f[x] == f[y] ==> x == y
    requires forall z :: z in b ==> exists x :: x in a && f[x] == z
    ensures |a| == |b|
  {
    if a == {} {
      assert b == {};
    } else {
      var x :| x in a;
      var g := map y | y in a - {x} :: f[y];
      forall z | z in b - {f[x]} ensures exists y :: y in a - {x} && g[y] == z {
        var y :| y in a && f[y] == z;
        assert y in a - {x} && g[y] == z;
      }
      SameSize(a - {x}, b - {f[x]}, g);
    }
  }

  lemma SubsetSize<T>(a: set<T>, b: set<T>)
    requires a <= b
    ensures |a| <= |b|
    ensures |a| == |b| ==> a == b
  {
    assert |b - a| == |b| - |a|;
    if |a| == |b| {
      assert |b - a| == 0;
      assert b - a == {};
    }
  }

  lemma MinusSize<T>(a: set<T>, b: set<T>)
    requires b <= a
    ensures |a - b| == |a| - |b|
  {
  }

  lemma GrownBy<T(!new)>(before: set<T>, after: set<T>, x: T, more: bool)
    requires x !in before && forall y :: y in after <==> y in before || (y == x && more)
    ensures |after| == |before| + if more then 1 else 0
  {
    if more { assert after == before + {x}; } else { assert after == before; }
  }

  /** The positions of a list's tail, moved up by one, and the first position if it counts. */
  lemma Shifted(tail: set<int>, all: set<int>, first: bool)
    requires forall i :: i in tail ==> i >= 0
    requires forall i :: i in all <==> (i == 0 && first) || i - 1 in tail
    ensures |all| == |tail| + if first then 1 else 0
  {
    var moved := set i | i in all && i != 0;
    var f := map i | i in tail :: i + 1;
    forall z | z in moved ensures exists i :: i in tail && f[i] == z { assert z - 1 in tail && f[z - 1] == z; }
    SameSize(tail, moved, f);
    GrownBy(moved, all, 0, first);
  }

  lemma OneElement<T>(s: set<T>, x: T)
    requires x in s && forall y :: y in s ==> y == x
    ensures |s| == 1
  {
    assert s == {x};
  }

  lemma Position<T>(s: seq<T>, x: T) returns (j: nat)
    requires x in s
    ensures j < |s| && s[j] == x
  {
    j :| 0 <= j < |s| && s[j] == x;
  }

  predicate Distinct<T(==)>(s: seq<T>) {
    forall i, j :: 0 <= i < j < |s| ==> s[i] != s[j]
  }

  function Elements<T(==,!new)>(s: seq<T>): (e: set<T>)
    ensures forall x :: x in e <==> x in s
  {
    set x | x in s
  }

  lemma {:induction false} DistinctSize<T(!new)>(s: seq<T>)
    requires Distinct(s)
    ensures |Elements(s)| == |s|
  {
    if s != [] {
      var last, rest := s[|s| - 1], s[..|s| - 1];
      DistinctSize(rest);
      assert last !in rest;
      assert s == rest + [last];
      assert Elements(s) == Elements(rest) + {last};
    }
  }

  /** The members of `keep`, in the order they have in s. */
  function Filter<T(==,!new)>(s: seq<T>, keep: set<T>): (f: seq<T>)
    ensures forall x :: x in f <==> x in s && x in keep
  {
    if s == [] then []
    else if s[0] in keep then [s[0]] + Filter(s[1..], keep)
    else Filter(s[1..], keep)
  }

  lemma {:induction false} FilterDistinct<T(!new)>(s: seq<T>, keep: set<T>)
    requires Distinct(s)
    ensures Distinct(Filter(s, keep))
  {
    if s != [] {
      FilterDistinct(s[1..], keep);
      forall j | 0 <= j < |Filter(s[1..], keep)| ensures Filter(s[1..], keep)[j] != s[0] {
        assert Filter(s[1..], keep)[j] in s[1..];
      }
    }
  }

  lemma FilterSize<T(!new)>(s: seq<T>, keep: set<T>)
    requires Distinct(s) && forall x :: x in keep ==> x in s
    ensures |Filter(s, keep)| == |keep|
  {
    FilterDistinct(s, keep);
    DistinctSize(Filter(s, keep));
    assert Elements(Filter(s, keep)) == keep;
  }
}
