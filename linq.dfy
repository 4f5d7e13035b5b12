/** The LINQ set operators the asset core uses, on sequences: `Distinct` and `Except`
    both keep the first occurrence of each element, in order. */
module Linq {

  /** No element occurs twice. */
  predicate NoDuplicates<T(==)>(xs: seq<T>)
  {
    forall i, j :: 0 <= i < j < |xs| ==> xs[i] != xs[j]
  }

  /** `xs.Except(excluded)`: the elements of `xs` outside `excluded`, each once, in the order
      of their first occurrence. */
  function Except<T(==)>(xs: seq<T>, excluded: set<T>): (r: seq<T>)
    ensures forall k :: 0 <= k < |r| ==> r[k] in xs && r[k] !in excluded
    ensures forall k :: 0 <= k < |xs| && xs[k] !in excluded ==> xs[k] in r
    ensures NoDuplicates(r)
    ensures |r| <= |xs|
    ensures forall i, j :: 0 <= i < j < |r| ==> FirstIndex(xs, r[i]) < FirstIndex(xs, r[j])
    decreases |xs|
  {
    if xs == [] then []
    else if xs[0] in excluded then Except(xs[1..], excluded)
    else [xs[0]] + Except(xs[1..], excluded + {xs[0]})
  }

  /** `xs.Distinct()`: each element once, in the order of its first occurrence. */
  function Distinct<T(==)>(xs: seq<T>): (r: seq<T>)
    ensures forall k :: 0 <= k < |r| ==> r[k] in xs
    ensures forall k :: 0 <= k < |xs| ==> xs[k] in r
    ensures NoDuplicates(r)
    ensures |r| <= |xs|
    ensures forall i, j :: 0 <= i < j < |r| ==> FirstIndex(xs, r[i]) < FirstIndex(xs, r[j])
  {
    Except(xs, {})
  }

  /** A sequence that already has no duplicates is its own `Distinct`. */
  lemma {:induction false} ExceptOfDistinct<T>(xs: seq<T>, excluded: set<T>)
    requires NoDuplicates(xs)
    requires forall k :: 0 <= k < |xs| ==> xs[k] !in excluded
    ensures Except(xs, excluded) == xs
    decreases |xs|
  {
    if xs != [] {
      ExceptOfDistinct(xs[1..], excluded + {xs[0]});
    }
  }

  lemma DistinctOfDistinct<T>(xs: seq<T>)
    requires NoDuplicates(xs)
    ensures Distinct(xs) == xs
  {
    ExceptOfDistinct(xs, {});
  }

  /** `xs.Select(x => x.Equals(from) ? to : x)`: every occurrence of `from` replaced by `to`. */
  function Replace<T(==)>(xs: seq<T>, from: T, to: T): (r: seq<T>)
    ensures |r| == |xs|
    ensures forall k :: 0 <= k < |xs| ==> r[k] == if xs[k] == from then to else xs[k]
  {
    if xs == [] then [] else [if xs[0] == from then to else xs[0]] + Replace(xs[1..], from, to)
  }

  /** What `Replace` leaves, removes and adds. */
  lemma ReplaceMembership<T>(xs: seq<T>, from: T, to: T, x: T)
    ensures x in Replace(xs, from, to) <==> (x in xs && x != from) || (x == to && from in xs)
  {
    var r := Replace(xs, from, to);
    if x in r {
      var k :| 0 <= k < |r| && r[k] == x;
    }
    if x in xs && x != from {
      var k :| 0 <= k < |xs| && xs[k] == x;
      assert r[k] == x;
    }
    if x == to && from in xs {
      var k :| 0 <= k < |xs| && xs[k] == from;
      assert r[k] == to;
    }
  }

  /** The position of the first occurrence of `x`. */
  function FirstIndex<T(==)>(xs: seq<T>, x: T): (i: nat)
    requires x in xs
    ensures i < |xs| && xs[i] == x && x !in xs[..i]
  {
    if xs[0] == x then 0 else 1 + FirstIndex(xs[1..], x)
  }
}
