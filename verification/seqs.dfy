/**
 Duplicate-free sequences and the counting facts the progress estimate
 relies on.
 */
module Seqs {

  predicate NoDuplicates<T(==)>(xs: seq<T>) {
    forall i, j :: 0 <= i < j < |xs| ==> xs[i] != xs[j]
  }

  /** `a` is an initial segment of `b`. */
  predicate IsPrefix<T(==)>(a: seq<T>, b: seq<T>) {
    |a| <= |b| && b[..|a|] == a
  }

  lemma PrefixTrans<T>(a: seq<T>, b: seq<T>, c: seq<T>)
    requires IsPrefix(a, b) && IsPrefix(b, c)
    ensures IsPrefix(a, c)
  {
    assert c[..|a|] == c[..|b|][..|a|];
  }

  /** The set of elements of a sequence. */
  function Elems<T(==)>(xs: seq<T>): set<T> {
    set x | x in xs
  }

  /** A duplicate-free sequence has as many elements as its length. */
  lemma {:induction false} DistinctCard<T>(xs: seq<T>)
    requires NoDuplicates(xs)
    ensures |Elems(xs)| == |xs|
  {
    if xs != [] {
      var tail := xs[1..];
      assert NoDuplicates(tail);
      DistinctCard(tail);
      assert Elems(xs) == {xs[0]} + Elems(tail);
      forall j | 0 <= j < |tail|
        ensures tail[j] != xs[0]
      {
        assert tail[j] == xs[j + 1];
      }
      assert xs[0] !in Elems(tail);
    }
  }

  /** A set never has more elements than a sequence that lists them all. */
  lemma {:induction false} ElemsCard<T>(ys: seq<T>)
    ensures |Elems(ys)| <= |ys|
  {
    if ys != [] {
      ElemsCard(ys[1..]);
      assert Elems(ys) == {ys[0]} + Elems(ys[1..]);
    }
  }

  /** A duplicate-free sequence drawn from `ys` is no longer than `ys`. */
  lemma DistinctSubsetLength<T>(xs: seq<T>, ys: seq<T>)
    requires NoDuplicates(xs)
    requires Elems(xs) <= Elems(ys)
    ensures |xs| <= |ys|
  {
    DistinctCard(xs);
    ElemsCard(ys);
    SubsetCard(Elems(xs), Elems(ys));
  }

  lemma SubsetCard<T>(a: set<T>, b: set<T>)
    requires a <= b
    ensures |a| <= |b|
    ensures |a| == |b| ==> a == b
  {
    assert b == a + (b - a);
    assert |b| == |a| + |b - a|;
    if |a| == |b| {
      assert |b - a| == 0;
      assert b - a == {};
    }
  }

  /** A duplicate-free sequence drawn from the duplicate-free `ys` holds
      every element of `ys` exactly when it is as long as `ys`. */
  lemma DistinctSubsetFull<T>(xs: seq<T>, ys: seq<T>)
    requires NoDuplicates(xs) && NoDuplicates(ys)
    requires Elems(xs) <= Elems(ys)
    ensures |xs| == |ys| <==> Elems(xs) == Elems(ys)
  {
    DistinctCard(xs);
    DistinctCard(ys);
    SubsetCard(Elems(xs), Elems(ys));
  }
}
