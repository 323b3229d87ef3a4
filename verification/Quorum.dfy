/** Quorum arithmetic over validator indices. */
module Quorum {

  /** The engine's test for +2/3: more than the integer part of two thirds. */
  predicate OverTwoThirds(count: nat, n: nat): (r: bool)
    ensures r <==> 3 * count > 2 * n
  {
    count > n * 2 / 3
  }

  function Indices(n: nat): (s: set<nat>)
    ensures forall i: nat :: i in s <==> i < n
    ensures |s| == n
  {
    if n == 0 then {} else
    var s := Indices(n - 1) + {n - 1};
    s
  }

  lemma SubsetCard<T>(a: set<T>, b: set<T>)
    requires a <= b
    ensures |a| <= |b|
  {
    assert b == a + (b - a);
  }

  /** A set of indices below n has at most n elements. */
  lemma Bounded(a: set<nat>, n: nat)
    requires forall i :: i in a ==> i < n
    ensures |a| <= n
  {
    SubsetCard(a, Indices(n));
  }

  /** The two sets overlap in at least what their sizes exceed n by. */
  lemma Overlap(a: set<nat>, b: set<nat>, n: nat)
    requires forall i :: i in a ==> i < n
    requires forall i :: i in b ==> i < n
    ensures |a * b| >= |a| + |b| - n
  {
    Bounded(a + b, n);
    assert |a + b| == |a| + |b| - |a * b|;
  }

  /** Two quorums share more than a third of the validators. */
  lemma QuorumsOverlap(a: set<nat>, b: set<nat>, n: nat)
    requires forall i :: i in a ==> i < n
    requires forall i :: i in b ==> i < n
    requires OverTwoThirds(|a|, n) && OverTwoThirds(|b|, n)
    ensures 3 * |a * b| > n
  {
    Overlap(a, b, n);
  }

  /** Two quorums share a validator outside any set smaller than a third. */
  lemma HonestOverlap(a: set<nat>, b: set<nat>, faulty: set<nat>, n: nat) returns (i: nat)
    requires forall i :: i in a ==> i < n
    requires forall i :: i in b ==> i < n
    requires OverTwoThirds(|a|, n) && OverTwoThirds(|b|, n)
    requires 3 * |faulty| < n
    ensures i in a && i in b && i !in faulty
  {
    QuorumsOverlap(a, b, n);
    if a * b <= faulty { SubsetCard(a * b, faulty); }
    i :| i in a * b && i !in faulty;
  }
}
