/** Who proposes in which round: the validators take turns. */
module Rotation {
  import opened Votes

  predicate Distinct(vals: seq<Address>) { forall i, j :: 0 <= i < j < |vals| ==> vals[i] != vals[j] }

  function ProposerOf(vals: seq<Address>, h: nat, r: nat): Option<Address> {
    if vals == [] then None else Some(vals[(h + r) % |vals|])
  }

  lemma DistinctPlace(vals: seq<Address>, i: nat)
    requires Distinct(vals) && i < |vals|
    ensures IndexOf(vals, vals[i]) == Some(i)
  {}

  /** Numbers less than n apart with one remainder are equal. */
  lemma SameRemainder(a: nat, b: nat, n: nat)
    requires n > 0 && a % n == b % n && a < b + n && b < a + n
    ensures a == b
  {
    var p, q := a / n, b / n;
    assert a - b == n * p - n * q;
    assert p > q ==> n * p >= n * (q + 1) == n * q + n;
    assert q > p ==> n * q >= n * (p + 1) == n * p + n;
  }

  /** Some number of any n in a row has any remainder. */
  lemma Somewhere(x: nat, n: nat, i: nat) returns (y: nat)
    requires i < n
    ensures x <= y < x + n && y % n == i
  {
    var m := x % n;
    y := if m <= i then x + (i - m) else x + (n + i - m);
    var q := x / n;
    assert x == n * q + m;
    if m <= i {
      Remainder(y, q, i, n);
    } else {
      assert n * (q + 1) == n * q + n;
      Remainder(y, q + 1, i, n);
    }
  }

  lemma Remainder(y: nat, q: nat, i: nat, n: nat)
    requires i < n && y == n * q + i
    ensures y % n == i
  {
    var p := y / n;
    assert y == n * p + y % n;
    assert p > q ==> n * p >= n * (q + 1) == n * q + n;
    assert q > p ==> n * q >= n * (p + 1) == n * p + n;
  }

  /** In as many rounds in a row as there are validators, each of them proposes in exactly one. */
  lemma EachProposesOnce(vals: seq<Address>, h: nat, r0: nat, a: Address) returns (r: nat)
    requires Distinct(vals) && a in vals
    ensures r0 <= r < r0 + |vals| && ProposerOf(vals, h, r) == Some(a)
    ensures forall q: nat :: r0 <= q < r0 + |vals| && ProposerOf(vals, h, q) == Some(a) ==> q == r
  {
    var i :| 0 <= i < |vals| && vals[i] == a;
    var y := Somewhere(h + r0, |vals|, i);
    r := y - h;
    forall q: nat | r0 <= q < r0 + |vals| && ProposerOf(vals, h, q) == Some(a) ensures q == r {
      assert (h + q) % |vals| == i;
      SameRemainder(h + q, h + r, |vals|);
    }
  }

  /** The first validator begins. */
  lemma FirstProposes(vals: seq<Address>)
    requires vals != []
    ensures ProposerOf(vals, 0, 0) == Some(vals[0])
  {
    Remainder(0, 0, 0, |vals|);
  }

  /** Of two rounds in a row, as of two heights in a row, the later belongs to the next validator in the list. */
  lemma NextProposes(vals: seq<Address>, h: nat, r: nat)
    requires vals != []
    ensures ProposerOf(vals, h + 1, r) == ProposerOf(vals, h, r + 1)
    ensures var i := (h + r) % |vals|;
      ProposerOf(vals, h, r + 1) == Some(vals[if i + 1 == |vals| then 0 else i + 1])
  {
    var n, x := |vals|, h + r;
    var q, i := x / n, x % n;
    assert x == n * q + i;
    if i + 1 == n {
      assert n * (q + 1) == n * q + n;
      Remainder(x + 1, q + 1, 0, n);
    } else {
      Remainder(x + 1, q, i + 1, n);
    }
    assert h + 1 + r == x + 1 && h + (r + 1) == x + 1;
  }
}
