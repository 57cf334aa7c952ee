/** Facts about sequences and finite sets that the lineup proofs rely on. */
module Seqs {

  /** No element occurs twice. */
  predicate Distinct<T(==)>(s: seq<T>)
  {
    forall i, j :: 0 <= i < j < |s| ==> s[i] != s[j]
  }

  /** The set of elements of a sequence. */
  function Elems<T>(s: seq<T>): set<T>
  {
    set x | x in s
  }

  lemma {:induction false} DistinctCard<T>(s: seq<T>)
    requires Distinct(s)
    ensures |Elems(s)| == |s|
  {
    if s != [] {
      DistinctCard(s[1..]);
      assert Elems(s) == {s[0]} + Elems(s[1..]);
      assert s[0] !in Elems(s[1..]) by {
        forall k | 0 <= k < |s[1..]| ensures s[1..][k] != s[0] {
          assert s[1..][k] == s[k + 1];
        }
      }
    }
  }

  lemma {:induction false} SubsetCard<T>(a: set<T>, b: set<T>)
    requires a <= b
    ensures |a| <= |b|
    ensures |a| == |b| ==> a == b
  {
    if a != {} {
      var x :| x in a;
      SubsetCard(a - {x}, b - {x});
    }
  }

  /** The elements of `xs` that lie in `S`, in the order of `xs`. */
  function Filter<T>(xs: seq<T>, S: set<T>): seq<T>
  {
    if xs == [] then []
    else (if xs[0] in S then [xs[0]] else []) + Filter(xs[1..], S)
  }

  /** An element survives the filter exactly when it occurs in `xs` and lies in `S`. */
  lemma {:induction false} FilterMembers<T>(xs: seq<T>, S: set<T>, x: T)
    ensures x in Filter(xs, S) <==> x in xs && x in S
  {
    if xs != [] {
      FilterMembers(xs[1..], S, x);
      assert xs == [xs[0]] + xs[1..];
    }
  }

  /** Filtering keeps a sequence free of repetitions. */
  lemma {:induction false} FilterDistinct<T>(xs: seq<T>, S: set<T>)
    requires Distinct(xs)
    ensures Distinct(Filter(xs, S))
  {
    if xs != [] {
      assert Distinct(xs[1..]) by {
        forall i, j | 0 <= i < j < |xs[1..]| ensures xs[1..][i] != xs[1..][j] {
          assert xs[1..][i] == xs[i + 1] && xs[1..][j] == xs[j + 1];
        }
      }
      FilterDistinct(xs[1..], S);
      var rest := Filter(xs[1..], S);
      if xs[0] in S {
        FilterMembers(xs[1..], S, xs[0]);
        assert xs[0] !in xs[1..] by {
          forall k | 0 <= k < |xs[1..]| ensures xs[1..][k] != xs[0] {
            assert xs[1..][k] == xs[k + 1];
          }
        }
        var r := [xs[0]] + rest;
        forall i, j | 0 <= i < j < |r| ensures r[i] != r[j] {
          if i == 0 {
            assert r[j] == rest[j - 1];
          } else {
            assert r[i] == rest[i - 1] && r[j] == rest[j - 1];
          }
        }
      } else {
        assert Filter(xs, S) == rest;
      }
    }
  }

  /** Filtering by `S` after filtering by `K` is filtering by `S` alone, when `S` lies within `K`. */
  lemma {:induction false} FilterWithin<T>(xs: seq<T>, K: set<T>, S: set<T>)
    requires S <= K
    ensures Filter(Filter(xs, K), S) == Filter(xs, S)
  {
    if xs != [] {
      FilterWithin(xs[1..], K, S);
      var head := if xs[0] in K then [xs[0]] else [];
      FilterAppend(head, Filter(xs[1..], K), S);
      assert head == [] ==> head + Filter(xs[1..], K) == Filter(xs[1..], K);
      assert head != [] ==> Filter(head, S) == (if xs[0] in S then [xs[0]] else []) by {
        if head != [] { assert head[1..] == []; }
      }
    }
  }

  /** The filter of a concatenation is the concatenation of the filters. */
  lemma {:induction false} FilterAppend<T>(xs: seq<T>, ys: seq<T>, S: set<T>)
    ensures Filter(xs + ys, S) == Filter(xs, S) + Filter(ys, S)
  {
    if xs == [] {
      assert xs + ys == ys;
    } else {
      assert (xs + ys)[0] == xs[0];
      assert (xs + ys)[1..] == xs[1..] + ys;
      FilterAppend(xs[1..], ys, S);
    }
  }

  /** Two sets that agree on the elements of `xs` filter it alike. */
  lemma {:induction false} FilterSame<T>(xs: seq<T>, S: set<T>, U: set<T>)
    requires forall x <- xs :: x in S <==> x in U
    ensures Filter(xs, S) == Filter(xs, U)
  {
    if xs != [] {
      assert forall x <- xs[1..] :: x in xs;
      FilterSame(xs[1..], S, U);
    }
  }

  /** A set with no element in `xs` filters it to nothing. */
  lemma {:induction false} FilterNone<T>(xs: seq<T>, S: set<T>)
    requires forall x <- xs :: x !in S
    ensures Filter(xs, S) == []
  {
    if xs != [] {
      assert forall x <- xs[1..] :: x in xs;
      FilterNone(xs[1..], S);
    }
  }

  /** A repetition-free sequence filtered by a set that meets it in `x` alone is `[x]`. */
  lemma FilterSingle<T>(xs: seq<T>, S: set<T>, x: T)
    requires Distinct(xs) && x in xs && x in S
    requires forall y <- xs :: y in S ==> y == x
    ensures Filter(xs, S) == [x]
  {
    var f := Filter(xs, S);
    FilterDistinct(xs, S);
    forall y ensures y in f <==> y == x {
      FilterMembers(xs, S, y);
    }
    assert Elems(f) == {x};
    DistinctCard(f);
    assert f[0] in f;
  }

  /** Dropping the head keeps a list without repeats, and the head does not occur again. */
  lemma DistinctTail<T>(xs: seq<T>)
    requires Distinct(xs) && xs != []
    ensures Distinct(xs[1..]) && xs[0] !in Elems(xs[1..])
    ensures Elems(xs) == {xs[0]} + Elems(xs[1..])
  {
  }
}
