/** Vote lists that store the common part of equal votes once (consensus/votelist.go). */
module VoteLists {
  import opened Votes

  /** Everything of a vote but timestamp, signature and proof parts. */
  datatype VoteBase = VoteBase(height: nat, round: nat, vtype: VoteType, decision: Decision)

  function BaseOf(m: VoteMessage): VoteBase { VoteBase(m.height, m.round, m.vtype, m.decision) }

  /** Prototype indices are stored in 16 bits. */
  const LIMIT: int := 0x8000

  function Int16(x: int): (r: int)
    ensures -LIMIT <= r < LIMIT
    ensures -LIMIT <= x < LIMIT ==> r == x
    ensures (r - x) % 0x1_0000 == 0
  {
    (x + LIMIT) % (2 * LIMIT) - LIMIT
  }

  datatype VoteItem = VoteItem(prototype: int, timestamp: int, signature: Signature, proofParts: seq<ProofPart>)

  datatype Packed = Packed(prototypes: seq<VoteBase>, items: seq<VoteItem>)
  {
    /** The i-th vote; nothing if its prototype index is out of range. */
    function Get(i: nat): Option<VoteMessage>
      requires i < |items|
    {
      var it := items[i];
      if 0 <= it.prototype < |prototypes| then
        var b := prototypes[it.prototype];
        Some(VoteMessage(b.height, b.round, b.vtype, b.decision, it.timestamp, it.signature, it.proofParts))
      else None
    }
  }

  /** Position of a vote base among those seen first, or their number. */
  function Position(ps: seq<VoteBase>, b: VoteBase): (k: nat)
    ensures k <= |ps|
    ensures k < |ps| ==> ps[k] == b
    ensures k == |ps| <==> b !in ps
  {
    if ps == [] then 0 else if ps[0] == b then 0 else 1 + Position(ps[1..], b)
  }

  function Append(p: Packed, m: VoteMessage): Packed {
    var k := Position(p.prototypes, BaseOf(m));
    Packed(
      if k < |p.prototypes| then p.prototypes else p.prototypes + [BaseOf(m)],
      p.items + [VoteItem(Int16(k), m.timestamp, m.signature, m.proofParts)])
  }

  function Pack(ms: seq<VoteMessage>): (p: Packed)
    ensures |p.items| == |ms|
  {
    if ms == [] then Packed([], []) else Append(Pack(ms[..|ms| - 1]), ms[|ms| - 1])
  }

  function Bases(ms: seq<VoteMessage>): set<VoteBase> { set m | m in ms :: BaseOf(m) }

  /** Prototypes are exactly the different vote bases, each once. */
  lemma {:induction false} PackPrototypes(ms: seq<VoteMessage>)
    ensures var ps := Pack(ms).prototypes;
      (forall i, j :: 0 <= i < j < |ps| ==> ps[i] != ps[j])
      && (forall b :: b in ps <==> b in Bases(ms)) && |ps| == |Bases(ms)|
  {
    if ms != [] {
      hide Bases, BaseOf, Append, Pack;
      PackPrototypes(ms[..|ms| - 1]);
      BasesGrow(ms);
      PrototypesGrow(ms);
    }
  }

  lemma PrototypesGrow(ms: seq<VoteMessage>)
    requires ms != []
    ensures var ps, b := Pack(ms[..|ms| - 1]).prototypes, BaseOf(ms[|ms| - 1]);
      Pack(ms).prototypes == if b in ps then ps else ps + [b]
  {}

  lemma BasesGrow(ms: seq<VoteMessage>)
    requires ms != []
    ensures var bs, b := Bases(ms[..|ms| - 1]), BaseOf(ms[|ms| - 1]);
      Bases(ms) == bs + {b} && |Bases(ms)| == |bs| + if b in bs then 0 else 1
  {
    assert ms == ms[..|ms| - 1] + [ms[|ms| - 1]];
    var bs, b := Bases(ms[..|ms| - 1]), BaseOf(ms[|ms| - 1]);
    assert Bases(ms) == bs + {b};
    if b in bs { assert bs + {b} == bs; }
  }

  /** Adding votes leaves earlier prototypes and items in place. */
  lemma {:induction false} PackGrows(ms: seq<VoteMessage>, k: nat)
    requires k <= |ms|
    ensures Pack(ms[..k]).prototypes <= Pack(ms).prototypes
    ensures Pack(ms[..k]).items <= Pack(ms).items
  {
    if k == |ms| {
      assert ms[..k] == ms;
    } else {
      var front := ms[..|ms| - 1];
      assert front[..k] == ms[..k];
      PackGrows(front, k);
    }
  }

  /** The vote at i is rebuilt exactly when the index of its prototype fits into 16 bits. */
  lemma {:induction false} GetAt(ms: seq<VoteMessage>, i: nat)
    requires i < |ms|
    ensures var k := Position(Pack(ms[..i]).prototypes, BaseOf(ms[i]));
      Pack(ms).Get(i) == Some(ms[i]) <==> k < LIMIT
  {
    var p := Pack(ms[..i]);
    var k := Position(p.prototypes, BaseOf(ms[i]));
    PackGrows(ms, i + 1);
    assert ms[..i + 1][..i] == ms[..i];
    var q := Pack(ms[..i + 1]);
    assert q == Append(p, ms[i]);
    assert q.prototypes[k] == BaseOf(ms[i]);
    assert Pack(ms).items[i] == q.items[i] && q.items[i].prototype == Int16(k);
    assert Pack(ms).prototypes[k] == q.prototypes[k];
    if k >= LIMIT {
      PackPrototypes(ms);
      WrapsAway(k);
    }
  }

  lemma WrapsAway(k: nat)
    requires k >= LIMIT
    ensures Int16(k) != k
  {}

  /** Round trip: every vote of a list is rebuilt if and only if the list has at most 32768 different
      vote bases; one base more and some vote cannot be read back. */
  lemma {:induction false} PackRoundTrip(ms: seq<VoteMessage>)
    ensures (forall i :: 0 <= i < |ms| ==> Pack(ms).Get(i) == Some(ms[i])) <==> |Bases(ms)| <= LIMIT
  {
    hide Pack, Bases, Position, Packed.Get;
    PackPrototypes(ms);
    if |Bases(ms)| <= LIMIT {
      forall i | 0 <= i < |ms| ensures Pack(ms).Get(i) == Some(ms[i]) {
        PositionWithin(ms, i);
        GetAt(ms, i);
      }
    } else {
      var i := Introduces(ms, LIMIT);
      GetAt(ms, i);
    }
  }

  lemma PositionWithin(ms: seq<VoteMessage>, i: nat)
    requires i < |ms|
    ensures Position(Pack(ms[..i]).prototypes, BaseOf(ms[i])) < |Pack(ms).prototypes|
  {
    PackGrows(ms, i + 1);
    assert ms[..i + 1][..i] == ms[..i];
  }

  /** Some vote introduced the k-th prototype. */
  lemma {:induction false} Introduces(ms: seq<VoteMessage>, k: nat) returns (i: nat)
    requires k < |Pack(ms).prototypes|
    ensures i < |ms| && Position(Pack(ms[..i]).prototypes, BaseOf(ms[i])) == k == |Pack(ms[..i]).prototypes|
  {
    var front := ms[..|ms| - 1];
    if k < |Pack(front).prototypes| {
      i := Introduces(front, k);
      assert front[..i] == ms[..i];
    } else {
      i := |ms| - 1;
    }
  }

  /** Nil prevotes of one validator, one for each of the first n rounds. */
  function NilVotes(n: nat, me: Address, nid: Hash): (ms: seq<VoteMessage>)
    ensures |ms| == n
  {
    seq(n, r requires 0 <= r < n => VoteMessage(1, r, Prevote, Decision(nid, None, []), 0, Signature(me, Ballot(1, r, Prevote, nid, None, 0)), []))
  }

  lemma NilMore(n: nat, me: Address, nid: Hash)
    requires n > 0
    ensures NilVotes(n, me, nid)[..n - 1] == NilVotes(n - 1, me, nid) && BaseOf(NilVotes(n, me, nid)[n - 1]).round == n - 1
  {
  }

  lemma {:induction false} NilBases(n: nat, me: Address, nid: Hash)
    ensures |Pack(NilVotes(n, me, nid)).prototypes| == n
    ensures forall b :: b in Pack(NilVotes(n, me, nid)).prototypes ==> b.round < n
  {
    if n > 0 {
      hide Pack, NilVotes;
      NilBases(n - 1, me, nid);
      NilMore(n, me, nid);
      PrototypesGrow(NilVotes(n, me, nid));
    } else {
      assert Pack(NilVotes(0, me, nid)).prototypes == [];
    }
  }

  /** A list that does not give its votes back: of 32769 votes that differ in their rounds, the last. */
  lemma {:induction false} TooManyBases(me: Address, nid: Hash)
    ensures var ms := NilVotes(LIMIT + 1, me, nid); |ms| == 32769 && Pack(ms).Get(32768) != Some(ms[32768])
  {
    hide Pack, Packed.Get;
    var ms := NilVotes(LIMIT + 1, me, nid);
    NilBases(LIMIT, me, nid);
    assert ms[..LIMIT] == NilVotes(LIMIT, me, nid);
    GetAt(ms, LIMIT);
  }

  class VoteList {
    var prototypes: seq<VoteBase>
    var items: seq<VoteItem>

    function Value(): Packed
      reads this
    {
      Packed(prototypes, items)
    }

    constructor ()
      ensures Value() == Pack([])
    {
      prototypes, items := [], [];
    }

    method AddVote(m: VoteMessage)
      modifies this
      ensures Value() == Append(old(Value()), m)
      ensures forall ms :: old(Value()) == Pack(ms) ==> Value() == Pack(ms + [m])
    {
      ghost var was := Value();
      var index := 0;
      while index < |prototypes| && prototypes[index] != BaseOf(m)
        invariant index <= |prototypes|
        invariant forall k :: 0 <= k < index ==> prototypes[k] != BaseOf(m)
      {
        index := index + 1;
      }
      FirstIs(prototypes, BaseOf(m), index);
      if index == |prototypes| {
        prototypes := prototypes + [BaseOf(m)];
      }
      items := items + [VoteItem(Int16(index), m.timestamp, m.signature, m.proofParts)];
      forall ms | was == Pack(ms) ensures Value() == Pack(ms + [m]) {
        assert (ms + [m])[..|ms|] == ms;
      }
    }
  }

  lemma {:induction false} FirstIs(ps: seq<VoteBase>, b: VoteBase, k: nat)
    requires k <= |ps| && (k < |ps| ==> ps[k] == b) && forall j :: 0 <= j < k ==> ps[j] != b
    ensures Position(ps, b) == k
  {
    if k > 0 { FirstIs(ps[1..], b, k - 1); }
  }
}
