/** Vote messages of the consensus engine.

    Addresses, block IDs and hashes are opaque identities, so a digest is as good as the value it
    digests: `Decision` stands for its own round decision digest. A signature is ideal: it names its
    signer and exactly the ballot that was signed. The NTS votes and proof parts of a message are not
    part of the signed ballot (consensus/message.go:263-272). */
module Votes {

  datatype Option<+T> = None | Some(value: T)

  type Address = nat
  type Hash = nat

  datatype VoteType = Prevote | Precommit

  datatype PartSetID = PartSetID(count: nat, hash: Hash)

  /** A part set ID with its application data: network ID and number of NTS votes. */
  datatype TaggedID = TaggedID(id: PartSetID, appData: nat)

  datatype NTSVote = NTSVote(networkTypeID: int, sectionHash: Hash)

  /** What one vote decides: block ID, tagged part set ID (none for a nil vote) and NTS votes. */
  datatype Decision = Decision(blockID: Hash, parts: Option<TaggedID>, nts: seq<NTSVote>)
  {
    function PartSet(): Option<PartSetID> {
      if parts.Some? then Some(parts.value.id) else None
    }
  }

  datatype Ballot = Ballot(height: nat, round: nat, vtype: VoteType, blockID: Hash, parts: Option<TaggedID>, timestamp: int)

  datatype Signature = Signature(signer: Address, ballot: Ballot)

  /** One validator's share of the proof of an NTS decision. */
  datatype ProofPart = ProofPart(validator: nat, share: Hash)

  datatype VoteMessage = VoteMessage(
    height: nat, round: nat, vtype: VoteType, decision: Decision, timestamp: int,
    signature: Signature, proofParts: seq<ProofPart>)
  {
    function SignedBallot(): Ballot {
      Ballot(height, round, vtype, decision.blockID, decision.parts, timestamp)
    }

    /** The address recovered from the signature; recovery against another ballot yields nobody. */
    function Signer(): Option<Address> {
      if signature.ballot == SignedBallot() then Some(signature.signer) else None
    }

    predicate EqualExceptSigs(m: VoteMessage) {
      height == m.height && round == m.round && vtype == m.vtype && decision == m.decision && timestamp == m.timestamp
    }

    function PartSet(): Option<PartSetID> { decision.PartSet() }
  }

  /** A precommit for a block is dated at least `iota` after the block. A block's ID is its hash, so it fixes the
      block's timestamp, times(ID). */
  predicate DatedAfter(v: VoteMessage, times: Hash -> int, iota: int) {
    v.vtype == Precommit && v.decision.parts.Some? ==> v.timestamp >= times(v.decision.blockID) + iota
  }

  /** Position of an address in a validator list. */
  function IndexOf(vals: seq<Address>, a: Address): (r: Option<nat>)
    ensures r.Some? ==> r.value < |vals| && vals[r.value] == a
    ensures r.Some? ==> forall i :: 0 <= i < r.value ==> vals[i] != a
    ensures r.None? <==> a !in vals
  {
    if vals == [] then None
    else if vals[0] == a then Some(0)
    else
      var r := IndexOf(vals[1..], a);
      if r.Some? then Some(r.value + 1) else None
  }
}
