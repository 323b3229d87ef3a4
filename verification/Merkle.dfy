/** Merkle roots and proofs of a network type (btp/ntm/module.go). Every result is for an arbitrary hash function;
    the work buffer is an array of 32-byte cells. */
module Merkle {
  import opened Votes

  type Bytes = seq<nat>

  const HASH_LEN := 32

  /** One node of a proof; the value is absent where an odd node has no partner. */
  datatype Node = Node(left: bool, value: Option<Bytes>)

  /** The row above: pairs are hashed, an odd last node moves up. */
  function Above(hash: Bytes -> Bytes, row: seq<Bytes>): (r: seq<Bytes>)
    ensures |r| == (|row| + 1) / 2
    ensures forall k :: 0 <= k < |r| ==> r[k] == if 2 * k + 1 < |row| then hash(row[2 * k] + row[2 * k + 1]) else row[2 * k]
  {
    seq((|row| + 1) / 2, k requires 0 <= k < (|row| + 1) / 2 =>
      if 2 * k + 1 < |row| then hash(row[2 * k] + row[2 * k + 1]) else row[2 * k])
  }

  function Root(hash: Bytes -> Bytes, row: seq<Bytes>): (r: Bytes)
    requires row != []
    decreases |row|
  {
    if |row| == 1 then row[0] else Root(hash, Above(hash, row))
  }

  /** The root of a list, absent for an empty one. */
  function MerkleRoot(hash: Bytes -> Bytes, row: seq<Bytes>): (r: Option<Bytes>)
    ensures r.None? <==> row == []
  {
    if row == [] then None else Some(Root(hash, row))
  }

  /** The node beside place idx. */
  function Beside(row: seq<Bytes>, idx: nat): (n: Node)
    requires idx < |row|
  {
    if idx % 2 == 1 then Node(true, Some(row[idx - 1]))
    else Node(false, if idx + 1 < |row| then Some(row[idx + 1]) else None)
  }

  function Proof(hash: Bytes -> Bytes, row: seq<Bytes>, idx: nat): (r: seq<Node>)
    requires idx < |row|
    decreases |row|
  {
    if |row| == 1 then [] else [Beside(row, idx)] + Proof(hash, Above(hash, row), idx / 2)
  }

  function Joined(hash: Bytes -> Bytes, node: Bytes, n: Node): (r: Bytes) {
    if n.value.None? then node
    else if n.left then hash(n.value.value + node)
    else hash(node + n.value.value)
  }

  /** What a proof says the root is. */
  function Climb(hash: Bytes -> Bytes, leaf: Bytes, proof: seq<Node>): (r: Bytes)
    decreases proof
  {
    if proof == [] then leaf else Climb(hash, Joined(hash, leaf, proof[0]), proof[1..])
  }

  lemma JoinedIsAbove(hash: Bytes -> Bytes, row: seq<Bytes>, idx: nat)
    requires idx < |row|
    ensures idx / 2 < |Above(hash, row)| && Joined(hash, row[idx], Beside(row, idx)) == Above(hash, row)[idx / 2]
  {
    assert idx == if idx % 2 == 1 then 2 * (idx / 2) + 1 else 2 * (idx / 2);
  }

  lemma ProofUnfolds(hash: Bytes -> Bytes, row: seq<Bytes>, idx: nat)
    requires idx < |row| && |row| > 1
    ensures idx / 2 < |Above(hash, row)| < |row|
    ensures var p := Proof(hash, row, idx);
      p != [] && p[0] == Beside(row, idx) && p[1..] == Proof(hash, Above(hash, row), idx / 2)
    ensures Root(hash, row) == Root(hash, Above(hash, row))
  {
  }

  /** Every proof verifies. */
  lemma {:induction false} ProofVerifies(hash: Bytes -> Bytes, row: seq<Bytes>, idx: nat)
    requires idx < |row|
    ensures Climb(hash, row[idx], Proof(hash, row, idx)) == Root(hash, row)
    decreases |row|
  {
    if |row| > 1 {
      hide Joined, Beside, Above, Proof, Root;
      ProofUnfolds(hash, row, idx);
      JoinedIsAbove(hash, row, idx);
      ProofVerifies(hash, Above(hash, row), idx / 2);
    }
  }

  // The tree, read from the top.

  predicate PowerOfTwo(k: nat) { k == 1 || (k > 0 && k % 2 == 0 && PowerOfTwo(k / 2)) }

  lemma RootAbove(hash: Bytes -> Bytes, row: seq<Bytes>)
    requires row != []
    ensures Root(hash, row) == Root(hash, Above(hash, row))
  {
    if |row| == 1 { assert Above(hash, row) == row; }
  }

  lemma AboveSplits(hash: Bytes -> Bytes, row: seq<Bytes>, k: nat)
    requires k % 2 == 0 && k <= |row|
    ensures k / 2 <= |Above(hash, row)|
    ensures Above(hash, row)[..k / 2] == Above(hash, row[..k]) && Above(hash, row)[k / 2..] == Above(hash, row[k..])
  {
  }

  /** The root is the hash of the roots of two trees: the left one over the largest power of two below the length,
      the right one over what is left. */
  lemma {:induction false} RootSplits(hash: Bytes -> Bytes, row: seq<Bytes>, k: nat)
    requires PowerOfTwo(k) && k < |row| <= 2 * k
    ensures Root(hash, row) == hash(Root(hash, row[..k]) + Root(hash, row[k..]))
    decreases k
  {
    if k == 1 {
      assert Above(hash, row) == [hash(row[0] + row[1])];
    } else {
      AboveSplits(hash, row, k);
      RootSplits(hash, Above(hash, row), k / 2);
      RootAbove(hash, row);
      RootAbove(hash, row[..k]);
      RootAbove(hash, row[k..]);
    }
  }

  /** A proof without its gaps. */
  function Solid(proof: seq<Node>): (r: seq<Node>) {
    if proof == [] then [] else (if proof[0].value.Some? then [proof[0]] else []) + Solid(proof[1..])
  }

  lemma SolidUnfolds(hash: Bytes -> Bytes, row: seq<Bytes>, idx: nat)
    requires idx < |row|
    ensures idx / 2 < |Above(hash, row)|
    ensures Solid(Proof(hash, row, idx)) == Solid([Beside(row, idx)]) + Solid(Proof(hash, Above(hash, row), idx / 2))
  {
    if |row| == 1 { assert Above(hash, row) == row; }
  }

  lemma BesideSplits(row: seq<Bytes>, idx: nat, k: nat)
    requires k % 2 == 0 && idx < |row| && k < |row|
    ensures Beside(row, idx) == if idx < k then Beside(row[..k], idx) else Beside(row[k..], idx - k)
  {
  }

  /** A proof is that of the half the place is in, and then the root of the other half, with the side it is on. */
  lemma {:induction false} ProofSplits(hash: Bytes -> Bytes, row: seq<Bytes>, idx: nat, k: nat)
    requires idx < |row| && PowerOfTwo(k) && k < |row| <= 2 * k
    ensures Solid(Proof(hash, row, idx)) ==
      if idx < k then Solid(Proof(hash, row[..k], idx)) + [Node(false, Some(Root(hash, row[k..])))]
      else Solid(Proof(hash, row[k..], idx - k)) + [Node(true, Some(Root(hash, row[..k])))]
    decreases k, 1
  {
    if k == 1 {
      ProofOfTwo(hash, row, idx);
    } else if idx < k {
      ProofSplitsLeft(hash, row, idx, k);
    } else {
      ProofSplitsRight(hash, row, idx, k);
    }
  }

  lemma ProofOfTwo(hash: Bytes -> Bytes, row: seq<Bytes>, idx: nat)
    requires |row| == 2 && idx < 2
    ensures Proof(hash, row, idx) == [if idx == 0 then Node(false, Some(row[1])) else Node(true, Some(row[0]))]
  {
    assert Proof(hash, Above(hash, row), idx / 2) == [];
  }

  lemma {:induction false} ProofSplitsLeft(hash: Bytes -> Bytes, row: seq<Bytes>, idx: nat, k: nat)
    requires PowerOfTwo(k) && 1 < k && idx < k < |row| <= 2 * k
    ensures Solid(Proof(hash, row, idx)) == Solid(Proof(hash, row[..k], idx)) + [Node(false, Some(Root(hash, row[k..])))]
    decreases k, 0
  {
    hide Above, Proof, Root, Beside, Solid;
    SolidUnfolds(hash, row, idx);
    AboveSplits(hash, row, k);
    BesideSplits(row, idx, k);
    RootAbove(hash, row[k..]);
    ProofSplits(hash, Above(hash, row), idx / 2, k / 2);
    SolidUnfolds(hash, row[..k], idx);
  }

  lemma {:induction false} ProofSplitsRight(hash: Bytes -> Bytes, row: seq<Bytes>, idx: nat, k: nat)
    requires PowerOfTwo(k) && 1 < k <= idx < |row| <= 2 * k
    ensures Solid(Proof(hash, row, idx)) == Solid(Proof(hash, row[k..], idx - k)) + [Node(true, Some(Root(hash, row[..k])))]
    decreases k, 0
  {
    hide Above, Proof, Root, Beside, Solid;
    SolidUnfolds(hash, row, idx);
    AboveSplits(hash, row, k);
    BesideSplits(row, idx, k);
    RootAbove(hash, row[..k]);
    ProofSplits(hash, Above(hash, row), idx / 2, k / 2);
    SolidUnfolds(hash, row[k..], idx - k);
    assert (idx - k) / 2 == idx / 2 - k / 2;
  }

  function Power(n: nat): nat { if n == 0 then 1 else 2 * Power(n - 1) }

  /** This many levels are above so many leaves. */
  predicate Levels(n: nat, leaves: nat) { leaves <= Power(n) && (n > 0 ==> Power(n - 1) < leaves) }

  lemma OneMoreLevel(n: nat, leaves: nat)
    requires leaves > 1 && Levels(n, (leaves + 1) / 2)
    ensures Levels(n + 1, leaves)
  {
    assert Power(n + 1) == 2 * Power(n);
    if n > 0 { assert Power(n) == 2 * Power(n - 1); }
  }

  /** A proof has one node, or one gap, for each level of the tree. */
  lemma {:induction false} ProofLength(hash: Bytes -> Bytes, row: seq<Bytes>, idx: nat)
    requires idx < |row|
    ensures Levels(|Proof(hash, row, idx)|, |row|)
    decreases |row|
  {
    if |row| > 1 {
      hide Above, Proof, Root, Beside, Levels;
      ProofUnfolds(hash, row, idx);
      ProofLength(hash, Above(hash, row), idx / 2);
      OneMoreLevel(|Proof(hash, Above(hash, row), idx / 2)|, |row|);
    }
  }

  // With a collision-free hash.

  predicate Cells(row: seq<Bytes>) { forall i :: 0 <= i < |row| ==> |row[i]| == HASH_LEN }

  ghost predicate CollisionFree(hash: Bytes -> Bytes) {
    forall x, y {:trigger hash(x), hash(y)} :: |hash(x)| == HASH_LEN && (hash(x) == hash(y) ==> x == y)
  }

  lemma PairsApart(hash: Bytes -> Bytes, a: Bytes, b: Bytes, c: Bytes, d: Bytes)
    requires CollisionFree(hash) && hash(a + b) == hash(c + d) && |a| == |c|
    ensures a == c && b == d
  {
    assert a + b == c + d;
    assert a == (a + b)[..|a|] && b == (a + b)[|a|..];
    assert c == (c + d)[..|a|] && d == (c + d)[|a|..];
  }

  lemma AboveApart(hash: Bytes -> Bytes, a: seq<Bytes>, b: seq<Bytes>)
    requires CollisionFree(hash) && Cells(a) && Cells(b) && |a| == |b| && Above(hash, a) == Above(hash, b)
    ensures a == b
  {
    forall i | 0 <= i < |a| ensures a[i] == b[i] {
      var k := i / 2;
      assert Above(hash, a)[k] == Above(hash, b)[k];
      if 2 * k + 1 < |a| { PairsApart(hash, a[2 * k], a[2 * k + 1], b[2 * k], b[2 * k + 1]); }
    }
  }

  /** A root commits to the list, among lists of one length. */
  lemma {:induction false} RootBinds(hash: Bytes -> Bytes, a: seq<Bytes>, b: seq<Bytes>)
    requires CollisionFree(hash) && Cells(a) && Cells(b) && |a| == |b| > 0 && Root(hash, a) == Root(hash, b)
    ensures a == b
    decreases |a|
  {
    if |a| > 1 {
      RootBinds(hash, Above(hash, a), Above(hash, b));
      AboveApart(hash, a, b);
    }
  }

  /** ... but not across lengths: two hashes have the root of the one message made of them. */
  lemma {:induction false} RootsOfTwoLengths(hash: Bytes -> Bytes, a: Bytes, b: Bytes)
    ensures Root(hash, [a, b]) == Root(hash, [hash(a + b)])
  {
    assert Above(hash, [a, b]) == [hash(a + b)];
  }

  /** The directions and the gaps of a proof, which the place and the length of the list decide. */
  predicate SameShape(p: seq<Node>, q: seq<Node>) {
    |p| == |q| && forall i :: 0 <= i < |p| ==>
      p[i].left == q[i].left && p[i].value.Some? == q[i].value.Some?
      && (p[i].value.Some? ==> |p[i].value.value| == |q[i].value.value| == HASH_LEN)
  }

  /** Nothing but the true leaf, with the true proof, verifies at its place. */
  lemma {:induction false} ProofBinds(hash: Bytes -> Bytes, row: seq<Bytes>, idx: nat, leaf: Bytes, proof: seq<Node>)
    requires CollisionFree(hash) && Cells(row) && idx < |row| && |leaf| == HASH_LEN
    requires SameShape(proof, Proof(hash, row, idx)) && Climb(hash, leaf, proof) == Root(hash, row)
    ensures leaf == row[idx] && proof == Proof(hash, row, idx)
    decreases |row|
  {
    if |row| > 1 {
      hide Joined, Beside, Above, Proof, Root;
      var above := Above(hash, row);
      ProofUnfolds(hash, row, idx);
      JoinedIsAbove(hash, row, idx);
      AboveCells(hash, row);
      JoinedCell(hash, leaf, proof[0]);
      ProofBinds(hash, above, idx / 2, Joined(hash, leaf, proof[0]), proof[1..]);
      JoinedApart(hash, leaf, proof[0], row[idx], Beside(row, idx));
      assert proof == [proof[0]] + proof[1..];
    }
  }

  lemma AboveCells(hash: Bytes -> Bytes, row: seq<Bytes>)
    requires CollisionFree(hash) && Cells(row)
    ensures Cells(Above(hash, row))
  {
  }

  lemma JoinedCell(hash: Bytes -> Bytes, node: Bytes, n: Node)
    requires CollisionFree(hash) && |node| == HASH_LEN
    ensures |Joined(hash, node, n)| == HASH_LEN
  {
  }

  lemma JoinedApart(hash: Bytes -> Bytes, a: Bytes, n: Node, b: Bytes, m: Node)
    requires CollisionFree(hash) && |a| == |b| && SameShape([n], [m]) && Joined(hash, a, n) == Joined(hash, b, m)
    ensures a == b && n == m
  {
    assert [n][0] == n && [m][0] == m;
    if n.value.Some? {
      if n.left { PairsApart(hash, n.value.value, a, m.value.value, b); }
      else { PairsApart(hash, a, n.value.value, b, m.value.value); }
    }
  }

  // The computation in place.

  lemma PairAt(hash: Bytes -> Bytes, row: seq<Bytes>, k: nat)
    requires 2 * k < |row|
    ensures k < |Above(hash, row)|
    ensures Above(hash, row)[k] == if 2 * k + 1 < |row| then hash(row[2 * k] + row[2 * k + 1]) else row[2 * k]
    ensures Beside(row, 2 * k) == Node(false, if 2 * k + 1 < |row| then Some(row[2 * k + 1]) else None)
    ensures 2 * k + 1 < |row| ==> Beside(row, 2 * k + 1) == Node(true, Some(row[2 * k]))
    ensures 2 * k / 2 == (2 * k + 1) / 2 == k
  {
  }

  /** Overwrites the first cells of a row with the row above. */
  method Halve(hash: Bytes -> Bytes, data: array<Bytes>, len: nat) returns (j: nat)
    requires 1 < len <= data.Length
    modifies data
    ensures j <= len && data[..j] == Above(hash, old(data[..len]))
  {
    hide Above, Beside;
    ghost var row := data[..len];
    var i := 0;
    j := 0;
    while i < len
      invariant i == 2 * j && j <= |Above(hash, row)| && (i >= len ==> j == |Above(hash, row)|)
      invariant forall k :: 0 <= k < j ==> data[k] == Above(hash, row)[k]
      invariant forall k :: i <= k < len ==> data[k] == row[k]
    {
      PairAt(hash, row, j);
      if i + 2 <= len {
        data[j] := hash(data[i] + data[i + 1]);
      } else {
        data[j] := data[i];
      }
      i, j := i + 2, j + 1;
    }
  }

  method RootInPlace(hash: Bytes -> Bytes, data: array<Bytes>) returns (root: Bytes)
    requires data.Length > 0
    modifies data
    ensures root == Root(hash, old(data[..]))
  {
    var len := data.Length;
    assert data[..len] == data[..];
    while len > 1
      invariant 1 <= len <= data.Length && Root(hash, data[..len]) == Root(hash, old(data[..]))
    {
      len := Halve(hash, data, len);
    }
    return data[0];
  }

  method ComputeRoot(hash: Bytes -> Bytes, list: seq<Bytes>) returns (root: Option<Bytes>)
    ensures root == MerkleRoot(hash, list)
  {
    if |list| == 0 { return None; }
    if |list| == 1 { return Some(list[0]); }
    var data := new Bytes[|list|](i requires 0 <= i < |list| => list[i]);
    assert data[..] == list;
    var r := RootInPlace(hash, data);
    return Some(r);
  }

  /** The same, noting the node beside place idx and where idx moves to. */
  method HalveNoting(hash: Bytes -> Bytes, data: array<Bytes>, len: nat, idx: nat) returns (j: nat, node: Node, place: nat)
    requires 1 < len <= data.Length && idx < len
    modifies data
    ensures j <= len && data[..j] == Above(hash, old(data[..len]))
    ensures node == Beside(old(data[..len]), idx) && place == idx / 2
  {
    hide Above, Beside;
    ghost var row := data[..len];
    var i := 0;
    j, place := 0, idx;
    node := Node(false, None);
    while i < len
      invariant i == 2 * j && j <= |Above(hash, row)| && (i >= len ==> j == |Above(hash, row)|)
      invariant forall k :: 0 <= k < j ==> data[k] == Above(hash, row)[k]
      invariant forall k :: i <= k < len ==> data[k] == row[k]
      invariant if idx < i then node == Beside(row, idx) && place == idx / 2 else place == idx
    {
      PairAt(hash, row, j);
      if i + 2 <= len {
        if place == i {
          node, place := Node(false, Some(data[i + 1])), j;
        } else if place == i + 1 {
          node, place := Node(true, Some(data[i])), j;
        }
        data[j] := hash(data[i] + data[i + 1]);
      } else {
        if place == i {
          node, place := Node(false, None), j;
        }
        data[j] := data[i];
      }
      i, j := i + 2, j + 1;
    }
  }

  lemma Moved(p: seq<Node>, q: seq<Node>)
    requires q != []
    ensures p + [q[0]] + q[1..] == p + q
  {
  }

  method ProofInPlace(hash: Bytes -> Bytes, data: array<Bytes>, idx: nat) returns (proof: seq<Node>)
    requires idx < data.Length
    modifies data
    ensures proof == Proof(hash, old(data[..]), idx)
  {
    hide Above, Beside, Proof;
    var len: nat, place: nat := data.Length, idx;
    assert data[..len] == data[..];
    proof := [];
    while len > 1
      invariant 1 <= len <= data.Length && place < len
      invariant proof + Proof(hash, data[..len], place) == Proof(hash, old(data[..]), idx)
    {
      ProofUnfolds(hash, data[..len], place);
      Moved(proof, Proof(hash, data[..len], place));
      var node;
      len, node, place := HalveNoting(hash, data, len, place);
      proof := proof + [node];
    }
    ProofOfOne(hash, data[..len]);
  }

  lemma ProofOfOne(hash: Bytes -> Bytes, row: seq<Bytes>)
    requires |row| == 1
    ensures Proof(hash, row, 0) == []
  {
  }

  method ComputeProof(hash: Bytes -> Bytes, list: seq<Bytes>, idx: nat) returns (proof: seq<Node>)
    requires list != [] ==> idx < |list|
    ensures proof == if list == [] then [] else Proof(hash, list, idx)
  {
    if |list| <= 1 { return []; }
    var data := new Bytes[|list|](i requires 0 <= i < |list| => list[i]);
    assert data[..] == list;
    proof := ProofInPlace(hash, data, idx);
  }
}
