/** Commit certificates and their timestamps (consensus/commitvotelist.go). */
module Certificates {
  import opened Votes
  import opened Quorum
  import opened VoteSets

  /** `Panic` is an index out of range, which ends the process. */
  datatype Result<T> = Ok(value: T) | Err | Panic

  datatype Item = Item(timestamp: int, signature: Signature)

  /** The proof of one NTS decision: the shares of those who voted, by validator. */
  type Proof = map<nat, Hash>

  datatype Certificate = Certificate(round: nat, parts: Option<TaggedID>, items: seq<Item>, proofs: seq<Proof>)

  // --- verification ----------------------------------------------------------------------------

  function ItemBallot(cert: Certificate, h: nat, bid: Hash, it: Item): Ballot {
    Ballot(h, cert.round, Precommit, bid, cert.parts, it.timestamp)
  }

  /** Who signed an item as a precommit for this block. */
  function ItemSigner(cert: Certificate, h: nat, bid: Hash, it: Item): Option<Address> {
    if it.signature.ballot == ItemBallot(cert, h, bid, it) then Some(it.signature.signer) else None
  }

  /** The validator who signed the k-th item. */
  function SignerAt(cert: Certificate, h: nat, bid: Hash, vals: seq<Address>, k: nat): Option<nat>
    requires k < |cert.items|
  {
    var signer := ItemSigner(cert, h, bid, cert.items[k]);
    if signer.Some? then IndexOf(vals, signer.value) else None
  }

  /** Validators who signed one of the first n items. */
  ghost function SignersUpTo(cert: Certificate, h: nat, bid: Hash, vals: seq<Address>, n: nat): set<nat>
    requires n <= |cert.items|
  {
    set k: nat | k < n && SignerAt(cert, h, bid, vals, k).Some? :: SignerAt(cert, h, bid, vals, k).value
  }

  ghost function Signers(cert: Certificate, h: nat, bid: Hash, vals: seq<Address>): set<nat> {
    SignersUpTo(cert, h, bid, vals, |cert.items|)
  }

  ghost predicate AllSigned(cert: Certificate, h: nat, bid: Hash, vals: seq<Address>) {
    forall k :: 0 <= k < |cert.items| ==> SignerAt(cert, h, bid, vals, k).Some?
  }

  ghost predicate NoDoubles(cert: Certificate, h: nat, bid: Hash, vals: seq<Address>) {
    forall j, k :: 0 <= j < k < |cert.items| ==> SignerAt(cert, h, bid, vals, j) != SignerAt(cert, h, bid, vals, k)
  }

  predicate EnoughVote(voted: nat, voters: nat): (r: bool)
    ensures r <==> voters == 0 || 3 * voted > 2 * voters
  {
    voters == 0 || voted > voters * 2 / 3
  }

  /** Valid: every item signed by a validator, none twice, more than two thirds of them. */
  ghost predicate Accepted(cert: Certificate, h: nat, bid: Hash, vals: seq<Address>) {
    AllSigned(cert, h, bid, vals) && NoDoubles(cert, h, bid, vals) && EnoughVote(|cert.items|, |vals|)
  }

  /** The first n items carry n different signers. */
  lemma {:induction false} SignerCount(cert: Certificate, h: nat, bid: Hash, vals: seq<Address>, n: nat)
    requires n <= |cert.items| && AllSigned(cert, h, bid, vals) && NoDoubles(cert, h, bid, vals)
    ensures |SignersUpTo(cert, h, bid, vals, n)| == n
  {
    if n > 0 {
      SignerCount(cert, h, bid, vals, n - 1);
      SignersGrow(cert, h, bid, vals, n);
    }
  }

  lemma SignersGrow(cert: Certificate, h: nat, bid: Hash, vals: seq<Address>, n: nat)
    requires 0 < n <= |cert.items| && AllSigned(cert, h, bid, vals) && NoDoubles(cert, h, bid, vals)
    ensures |SignersUpTo(cert, h, bid, vals, n)| == |SignersUpTo(cert, h, bid, vals, n - 1)| + 1
  {
    hide SignerAt;
    var i := SignerAt(cert, h, bid, vals, n - 1).value;
    assert i !in SignersUpTo(cert, h, bid, vals, n - 1);
    assert SignersUpTo(cert, h, bid, vals, n) == SignersUpTo(cert, h, bid, vals, n - 1) + {i};
  }

  /** Verification: the voted flags, exactly those of the signers, if the certificate is valid. The
      genesis block and a missing validator list admit only the empty certificate. */
  method VerifyBlock(cert: Certificate, h: nat, bid: Hash, validators: Option<seq<Address>>) returns (r: Result<seq<bool>>)
    ensures h == 0 || validators.None? ==> r == if cert.items == [] then Ok([]) else Err
    ensures h > 0 && validators.Some? ==> !r.Panic? && (r.Ok? <==> Accepted(cert, h, bid, validators.value))
    ensures h > 0 && validators.Some? && r.Ok? ==>
              |r.value| == |validators.value|
              && forall i :: 0 <= i < |r.value| ==> (r.value[i] <==> i in Signers(cert, h, bid, validators.value))
  {
    if h == 0 || validators.None? {
      return if cert.items == [] then Ok([]) else Err;
    }
    var vals := validators.value;
    var vset := new bool[|vals|](_ => false);
    for k := 0 to |cert.items|
      invariant forall i :: 0 <= i < |vals| ==> (vset[i] <==> i in SignersUpTo(cert, h, bid, vals, k))
      invariant forall j :: 0 <= j < k ==> SignerAt(cert, h, bid, vals, j).Some?
      invariant forall i, j :: 0 <= i < j < k ==> SignerAt(cert, h, bid, vals, i) != SignerAt(cert, h, bid, vals, j)
    {
      var index := SignerAt(cert, h, bid, vals, k);
      if index.None? { return Err; }
      assert SignersUpTo(cert, h, bid, vals, k + 1) == SignersUpTo(cert, h, bid, vals, k) + {index.value};
      if vset[index.value] { return Err; }
      assert index.value !in SignersUpTo(cert, h, bid, vals, k);
      vset[index.value] := true;
    }
    if EnoughVote(|cert.items|, |vals|) { return Ok(vset[..]); }
    return Err;
  }

  /** Soundness: two valid certificates of one height and round for different blocks mean that more
      than a third of the validators signed both. */
  lemma ForkNeedsDoubleSigners(c1: Certificate, c2: Certificate, h: nat, b1: Hash, b2: Hash, vals: seq<Address>)
    requires Accepted(c1, h, b1, vals) && Accepted(c2, h, b2, vals) && vals != []
    requires c1.round == c2.round && (b1 != b2 || c1.parts != c2.parts)
    ensures 3 * |DoubleSigners(c1, c2, h, b1, b2, vals)| > |vals|
  {
    SignerCount(c1, h, b1, vals, |c1.items|);
    SignerCount(c2, h, b2, vals, |c2.items|);
    var A, B := Signers(c1, h, b1, vals), Signers(c2, h, b2, vals);
    QuorumsOverlap(A, B, |vals|);
    forall i | i in A * B ensures i in DoubleSigners(c1, c2, h, b1, b2, vals) {
      var j: nat :| j < |c1.items| && SignerAt(c1, h, b1, vals, j) == Some(i);
      var k: nat :| k < |c2.items| && SignerAt(c2, h, b2, vals, k) == Some(i);
      assert c1.items[j].signature.ballot != c2.items[k].signature.ballot;
      assert IsDouble(c1, c2, j, k, vals[i], h, c1.round);
    }
    SubsetCard(A * B, DoubleSigners(c1, c2, h, b1, b2, vals));
  }

  /** Two signatures of one validator on different precommits of the same height and round. */
  ghost predicate IsDouble(c1: Certificate, c2: Certificate, j: nat, k: nat, a: Address, h: nat, r: nat) {
    && j < |c1.items| && k < |c2.items|
    && var s, t := c1.items[j].signature, c2.items[k].signature;
    && s.signer == t.signer == a
    && s.ballot.height == t.ballot.height == h && s.ballot.round == t.ballot.round == r
    && s.ballot.vtype == t.ballot.vtype == Precommit
    && (s.ballot.blockID, s.ballot.parts) != (t.ballot.blockID, t.ballot.parts)
  }

  ghost function DoubleSigners(c1: Certificate, c2: Certificate, h: nat, b1: Hash, b2: Hash, vals: seq<Address>): set<nat> {
    set i: nat | i < |vals| && exists j, k :: IsDouble(c1, c2, j, k, vals[i], h, c1.round)
  }

  // --- making certificates ---------------------------------------------------------------------

  /** The votes of a decision, in validator order. */
  function VotesOf(msgs: Ballots, d: Decision): (r: seq<VoteMessage>)
  {
    if msgs == [] then []
    else
      var m := msgs[|msgs| - 1];
      VotesOf(msgs[..|msgs| - 1], d) + if m.Some? && m.value.decision == d then [m.value] else []
  }

  /** Shares collected for the i-th NTS decision. */
  function ProofOf(ms: seq<VoteMessage>, i: nat): Proof
    requires forall k :: 0 <= k < |ms| ==> i < |ms[k].proofParts|
  {
    if ms == [] then map[]
    else
      var p := ms[|ms| - 1].proofParts[i];
      ProofOf(ms[..|ms| - 1], i)[p.validator := p.share]
  }

  ghost predicate SameDecision(ms: seq<VoteMessage>) {
    forall k :: 0 <= k < |ms| ==> ms[k].decision == ms[0].decision
  }

  ghost predicate FullParts(ms: seq<VoteMessage>) {
    forall k :: 0 <= k < |ms| ==> |ms[k].proofParts| >= |ms[0].decision.nts|
  }

  /** The certificate lists these votes, in order. */
  ghost predicate Lists(cert: Certificate, ms: seq<VoteMessage>) {
    && |cert.items| == |ms|
    && (forall k :: 0 <= k < |ms| ==> cert.items[k] == Item(ms[k].timestamp, ms[k].signature))
    && (ms == [] ==> cert == Certificate(0, None, [], []))
    && (ms != [] ==> cert.round == ms[0].round && cert.parts == ms[0].decision.parts)
  }

  /** ... and has the proofs of the NTS decisions that their shares make. */
  ghost predicate Certifies(cert: Certificate, ms: seq<VoteMessage>) {
    && FullParts(ms) && Lists(cert, ms)
    && (ms != [] ==>
          && |cert.proofs| == |ms[0].decision.nts|
          && forall i :: 0 <= i < |cert.proofs| ==> cert.proofs[i] == ProofOf(ms, i))
  }

  /** There is a proof context for each network type voted on. */
  predicate AllKnown(nts: seq<NTSVote>, known: set<int>) {
    forall i :: 0 <= i < |nts| ==> nts[i].networkTypeID in known
  }

  /** The certificate of a list of votes: an error if they decide differently or there is no proof context for a network
      type they vote on, and no proofs at all if there are no proof contexts. */
  method NewCommitVoteList(pcm: Option<set<int>>, ms: seq<VoteMessage>) returns (r: Result<Certificate>)
    ensures r.Ok? <==> SameDecision(ms) && (ms != [] && pcm.Some? ==> AllKnown(ms[0].decision.nts, pcm.value) && FullParts(ms))
    ensures !SameDecision(ms) ==> r.Err?
    ensures SameDecision(ms) && ms != [] && pcm.Some? ==>
      && (AllKnown(ms[0].decision.nts, pcm.value) ==> !r.Err?) && (FullParts(ms) ==> !r.Panic?)
    ensures r.Ok? ==> Lists(r.value, ms) && if pcm.Some? then Certifies(r.value, ms) else r.value.proofs == []
  {
    if ms == [] { return Ok(Certificate(0, None, [], [])); }
    var items := [];
    for k := 0 to |ms|
      invariant |items| == k
      invariant forall j :: 0 <= j < k ==> items[j] == Item(ms[j].timestamp, ms[j].signature) && ms[j].decision == ms[0].decision
    {
      items := items + [Item(ms[k].timestamp, ms[k].signature)];
      if ms[k].decision != ms[0].decision { return Err; }
    }
    if pcm.None? { return Ok(Certificate(ms[0].round, ms[0].decision.parts, items, [])); }
    var proofs := MakeProofs(pcm.value, ms);
    match proofs
    case Ok(ps) => return Ok(Certificate(ms[0].round, ms[0].decision.parts, items, ps));
    case Err => return Err;
    case Panic => return Panic;
  }

  /** The proofs of all NTS decisions, up to the first that cannot be made. */
  method MakeProofs(known: set<int>, ms: seq<VoteMessage>) returns (r: Result<seq<Proof>>)
    requires ms != []
    ensures r.Ok? <==> AllKnown(ms[0].decision.nts, known) && FullParts(ms)
    ensures (AllKnown(ms[0].decision.nts, known) ==> !r.Err?) && (FullParts(ms) ==> !r.Panic?)
    ensures r.Ok? ==> |r.value| == |ms[0].decision.nts| && forall i :: 0 <= i < |r.value| ==> r.value[i] == ProofOf(ms, i)
  {
    hide ProofOf;
    var proofs := [];
    for i := 0 to |ms[0].decision.nts|
      invariant |proofs| == i
      invariant forall j :: 0 <= j < i ==> ms[0].decision.nts[j].networkTypeID in known
      invariant forall k :: 0 <= k < |ms| ==> |ms[k].proofParts| >= i
      invariant forall j :: 0 <= j < i ==> proofs[j] == ProofOf(ms, j)
    {
      if ms[0].decision.nts[i].networkTypeID !in known { return Err; }
      var pf := MakeProof(ms, i);
      if pf.None? { return Panic; }
      proofs := proofs + [pf.value];
    }
    return Ok(proofs);
  }

  method MakeProof(ms: seq<VoteMessage>, i: nat) returns (pf: Option<Proof>)
    ensures pf.Some? <==> forall k :: 0 <= k < |ms| ==> i < |ms[k].proofParts|
    ensures pf.Some? ==> pf.value == ProofOf(ms, i)
  {
    var p: Proof := map[];
    for k := 0 to |ms|
      invariant forall j :: 0 <= j < k ==> i < |ms[j].proofParts|
      invariant p == ProofOf(ms[..k], i)
    {
      if |ms[k].proofParts| <= i { return None; }
      assert ms[..k + 1][..k] == ms[..k];
      p := p[ms[k].proofParts[i].validator := ms[k].proofParts[i].share];
    }
    assert ms[..|ms|] == ms;
    return Some(p);
  }

  /** A vote set as the engine keeps it for one height and round of precommits: the vote at i is
      signed by validator i and has that validator's share of each of its NTS decisions. */
  ghost predicate PrecommitSet(msgs: Ballots, h: nat, r: nat, vals: seq<Address>) {
    && |msgs| == |vals|
    && forall i :: 0 <= i < |msgs| && msgs[i].Some? ==>
         var m := msgs[i].value;
         && m.height == h && m.round == r && m.vtype == Precommit
         && m.Signer().Some? && IndexOf(vals, m.Signer().value) == Some(i)
         && |m.proofParts| == |m.decision.nts|
         && forall j :: 0 <= j < |m.proofParts| ==> m.proofParts[j].validator == i
  }

  /** Each vote of the decision comes from one voter, in order. */
  ghost predicate Traces(msgs: Ballots, d: Decision, ms: seq<VoteMessage>, at: seq<nat>) {
    && |at| == |ms|
    && (forall k :: 0 <= k < |ms| ==> at[k] in Voters(msgs, d) && msgs[at[k]] == Some(ms[k]))
    && (forall j, k :: 0 <= j < k < |ms| ==> at[j] < at[k])
    && (forall i :: i in Voters(msgs, d) ==> i in at)
  }

  lemma {:induction false} VotesTrace(msgs: Ballots, d: Decision) returns (at: seq<nat>)
    ensures Traces(msgs, d, VotesOf(msgs, d), at)
  {
    if msgs == [] {
      at := [];
    } else {
      var n := |msgs| - 1;
      at := VotesTrace(msgs[..n], d);
      forall i | i in Voters(msgs[..n], d) ensures i in Voters(msgs, d) {}
      if msgs[n].Some? && msgs[n].value.decision == d { at := at + [n]; }
      forall i | i in Voters(msgs, d) ensures i in at {
        if i < n { assert i in Voters(msgs[..n], d); }
      }
    }
  }

  lemma {:induction false} TraceCount(at: seq<nat>, s: set<nat>)
    requires forall j, k :: 0 <= j < k < |at| ==> at[j] < at[k]
    requires forall i :: i in s <==> i in at
    ensures |s| == |at|
  {
    if at == [] {
      assert s == {};
    } else {
      var last := at[|at| - 1];
      TraceCount(at[..|at| - 1], s - {last});
    }
  }

  lemma CertifiedSigners(msgs: Ballots, d: Decision, h: nat, r: nat, vals: seq<Address>, cert: Certificate, at: seq<nat>)
    requires PrecommitSet(msgs, h, r, vals)
    requires Lists(cert, VotesOf(msgs, d)) && Traces(msgs, d, VotesOf(msgs, d), at)
    ensures forall k :: 0 <= k < |at| ==> SignerAt(cert, h, d.blockID, vals, k) == Some(at[k])
  {
    var ms := VotesOf(msgs, d);
    forall k | 0 <= k < |at| ensures SignerAt(cert, h, d.blockID, vals, k) == Some(at[k]) {
      assert ms[k].Signer().Some?;
    }
  }

  /** Completeness: a vote set with +2/3 precommits for a block yields a certificate that verification
      accepts for it, and whose signers are exactly the voters. */
  lemma {:induction false} WinnerIsCertified(msgs: Ballots, d: Decision, h: nat, r: nat, vals: seq<Address>, cert: Certificate)
    requires PrecommitSet(msgs, h, r, vals) && Wins(msgs, d)
    requires Lists(cert, VotesOf(msgs, d))
    ensures Accepted(cert, h, d.blockID, vals)
    ensures Signers(cert, h, d.blockID, vals) == Voters(msgs, d)
  {
    hide PrecommitSet, SignerAt, Lists, Signers, AllSigned, NoDoubles, VotesOf;
    var at := VotesTrace(msgs, d);
    SetSize(msgs, h, r, vals);
    CertifiedSigners(msgs, d, h, r, vals, cert, at);
    TraceCount(at, Voters(msgs, d));
    SizeOf(cert, VotesOf(msgs, d));
    TraceSigners(cert, h, d.blockID, vals, at, Voters(msgs, d));
  }

  lemma SetSize(msgs: Ballots, h: nat, r: nat, vals: seq<Address>)
    requires PrecommitSet(msgs, h, r, vals)
    ensures |msgs| == |vals|
  {}

  /** The k-th item is signed by the k-th of a list of different validators. */
  lemma TraceSigners(cert: Certificate, h: nat, bid: Hash, vals: seq<Address>, at: seq<nat>, who: set<nat>)
    requires |cert.items| == |at| && (forall k :: 0 <= k < |at| ==> SignerAt(cert, h, bid, vals, k) == Some(at[k]))
    requires forall j, k :: 0 <= j < k < |at| ==> at[j] != at[k]
    requires (forall k :: 0 <= k < |at| ==> at[k] in who) && (forall i :: i in who ==> i in at)
    ensures AllSigned(cert, h, bid, vals) && NoDoubles(cert, h, bid, vals) && Signers(cert, h, bid, vals) == who
  {
    hide SignerAt;
    forall i | i in who ensures i in Signers(cert, h, bid, vals) {
      var k :| 0 <= k < |at| && at[k] == i;
      assert SignerAt(cert, h, bid, vals, k).value == i;
    }
  }

  lemma SizeOf(cert: Certificate, ms: seq<VoteMessage>)
    requires Lists(cert, ms)
    ensures |cert.items| == |ms|
  {}

  lemma CertifiesLists(cert: Certificate, ms: seq<VoteMessage>)
    requires Certifies(cert, ms)
    ensures Lists(cert, ms) && |cert.items| == |ms|
  {}

  lemma VotesFit(msgs: Ballots, d: Decision, h: nat, r: nat, vals: seq<Address>)
    requires PrecommitSet(msgs, h, r, vals)
    ensures SameDecision(VotesOf(msgs, d)) && FullParts(VotesOf(msgs, d))
  {
    var at := VotesTrace(msgs, d);
  }

  /** The certificate of a vote set, none without +2/3. */
  method CommitVoteListForOverTwoThirds(pcm: Option<set<int>>, msgs: Ballots, ghost h: nat, ghost r: nat, ghost vals: seq<Address>)
    returns (cert: Result<Option<Certificate>>)
    requires PrecommitSet(msgs, h, r, vals)
    ensures msgs == [] ==> cert == Ok(Some(Certificate(0, None, [], [])))
    ensures msgs != [] && Winner(msgs).None? ==> cert == Ok(None)
    ensures msgs != [] && Winner(msgs).Some? ==>
              var d := Winner(msgs).value;
              && (if pcm.Some? && !AllKnown(d.nts, pcm.value) then cert.Err? else cert.Ok?)
              && (cert.Ok? ==> cert.value.Some? && var c := cert.value.value;
                    && Accepted(c, h, d.blockID, vals) && c.parts == d.parts && c.round == r
                    && Signers(c, h, d.blockID, vals) == Voters(msgs, d)
                    && (pcm.Some? ==> Certifies(c, VotesOf(msgs, d))))
  {
    if msgs == [] { return Ok(Some(Certificate(0, None, [], []))); }
    var d := Winner(msgs);
    if d.None? { return Ok(None); }
    var ms := [];
    for k := 0 to |msgs|
      invariant ms == VotesOf(msgs[..k], d.value)
    {
      assert msgs[..k + 1][..k] == msgs[..k];
      if msgs[k].Some? && msgs[k].value.decision == d.value { ms := ms + [msgs[k].value]; }
    }
    assert msgs[..|msgs|] == msgs;
    VotesFit(msgs, d.value, h, r, vals);
    FirstVote(msgs, d.value, h, r, vals);
    var res := NewCommitVoteList(pcm, ms);
    if !res.Ok? { return Err; }
    WinnerIsCertified(msgs, d.value, h, r, vals, res.value);
    return Ok(Some(res.value));
  }

  lemma FirstVote(msgs: Ballots, d: Decision, h: nat, r: nat, vals: seq<Address>)
    requires PrecommitSet(msgs, h, r, vals) && Wins(msgs, d)
    ensures VotesOf(msgs, d) != [] && VotesOf(msgs, d)[0].decision == d && VotesOf(msgs, d)[0].round == r
  {
    var at := VotesTrace(msgs, d);
    TraceCount(at, Voters(msgs, d));
  }

  // --- back to votes ---------------------------------------------------------------------------

  /** Network types of the block's sections for which there is a proof context vote. */
  function KnownEntries(entries: seq<NTSVote>, known: set<int>): seq<NTSVote> {
    if entries == [] then []
    else
      var e := entries[|entries| - 1];
      KnownEntries(entries[..|entries| - 1], known) + if e.networkTypeID in known then [e] else []
  }

  /** These are the entries at some places, in order, which are all the places of known network types. */
  ghost predicate PicksKnown(r: seq<NTSVote>, entries: seq<NTSVote>, known: set<int>, at: seq<nat>) {
    && |at| == |r|
    && (forall k :: 0 <= k < |r| ==> at[k] < |entries| && r[k] == entries[at[k]] && r[k].networkTypeID in known)
    && (forall j, k :: 0 <= j < k < |r| ==> at[j] < at[k])
    && (forall i: nat :: i < |entries| && entries[i].networkTypeID in known ==> i in at)
  }

  lemma {:induction false} KnownTrace(entries: seq<NTSVote>, known: set<int>) returns (at: seq<nat>)
    ensures PicksKnown(KnownEntries(entries, known), entries, known, at)
  {
    if entries == [] {
      at := [];
    } else {
      var n := |entries| - 1;
      hide KnownEntries;
      at := KnownTrace(entries[..n], known);
      PicksMore(KnownEntries(entries[..n], known), entries, known, at);
      KnownMore(entries, known);
      if entries[n].networkTypeID in known { at := at + [n]; }
    }
  }

  lemma KnownMore(entries: seq<NTSVote>, known: set<int>)
    requires entries != []
    ensures var n := |entries| - 1;
      KnownEntries(entries, known) == KnownEntries(entries[..n], known) + if entries[n].networkTypeID in known then [entries[n]] else []
  {
  }

  lemma PicksMore(r: seq<NTSVote>, entries: seq<NTSVote>, known: set<int>, at: seq<nat>)
    requires entries != [] && PicksKnown(r, entries[..|entries| - 1], known, at)
    ensures var n := |entries| - 1;
      if entries[n].networkTypeID in known then PicksKnown(r + [entries[n]], entries, known, at + [n]) else PicksKnown(r, entries, known, at)
  {
    var n := |entries| - 1;
    forall i | 0 <= i < n && entries[i].networkTypeID in known ensures i in at { assert entries[..n][i] == entries[i]; }
  }

  /** The shares of validator v in the proofs. */
  function SharesOf(proofs: seq<Proof>, v: nat): seq<ProofPart> {
    if proofs == [] then []
    else
      var p := proofs[|proofs| - 1];
      SharesOf(proofs[..|proofs| - 1], v) + if v in p then [ProofPart(v, p[v])] else []
  }

  /** The votes behind a certificate, rebuilt from the block, its section hashes and the proofs. */
  method ToVoteList(cert: Certificate, h: nat, bid: Hash, vals: seq<Address>, entries: seq<NTSVote>, known: set<int>)
    returns (r: Result<seq<VoteMessage>>)
    ensures r.Ok? <==> |KnownEntries(entries, known)| <= |cert.proofs| && AllSigned(cert, h, bid, vals)
    ensures !r.Panic? && (r.Ok? ==> |r.value| == |cert.items|)
    ensures r.Ok? ==> forall k :: 0 <= k < |cert.items| ==> r.value[k] == Rebuilt(cert, h, bid, vals, entries, known, k)
  {
    var nts := [];
    var used := 0;
    for i := 0 to |entries|
      invariant nts == KnownEntries(entries[..i], known) && used == |nts| <= |cert.proofs|
    {
      assert entries[..i + 1][..i] == entries[..i];
      if entries[i].networkTypeID in known {
        if |cert.proofs| <= used {
          KnownGrow(entries, known, i + 1);
          return Err;
        }
        nts := nts + [entries[i]];
        used := used + 1;
      }
    }
    assert entries[..|entries|] == entries;
    var d := Decision(bid, cert.parts, nts);
    var votes := [];
    for k := 0 to |cert.items|
      invariant |votes| == k
      invariant forall j :: 0 <= j < k ==>
        SignerAt(cert, h, bid, vals, j).Some? && votes[j] == Rebuilt(cert, h, bid, vals, entries, known, j)
    {
      var it := cert.items[k];
      var v := SignerAt(cert, h, bid, vals, k);
      if v.None? { return Err; }
      votes := votes + [VoteMessage(h, cert.round, Precommit, d, it.timestamp, it.signature, SharesOf(cert.proofs[..used], v.value))];
    }
    return Ok(votes);
  }

  ghost function Rebuilt(cert: Certificate, h: nat, bid: Hash, vals: seq<Address>, entries: seq<NTSVote>, known: set<int>, k: nat): VoteMessage
    requires k < |cert.items| && SignerAt(cert, h, bid, vals, k).Some?
    requires |KnownEntries(entries, known)| <= |cert.proofs|
  {
    var it := cert.items[k];
    var nts := KnownEntries(entries, known);
    VoteMessage(h, cert.round, Precommit, Decision(bid, cert.parts, nts), it.timestamp, it.signature,
                SharesOf(cert.proofs[..|nts|], SignerAt(cert, h, bid, vals, k).value))
  }

  lemma {:induction false} KnownGrow(entries: seq<NTSVote>, known: set<int>, i: nat)
    requires i <= |entries|
    ensures |KnownEntries(entries[..i], known)| <= |KnownEntries(entries, known)|
  {
    if i < |entries| {
      assert entries[..|entries| - 1][..i] == entries[..i];
      KnownGrow(entries[..|entries| - 1], known, i);
    } else {
      assert entries[..i] == entries;
    }
  }

  /** One validator's share in a proof is the one its vote carried. */
  lemma {:induction false} ProofHolds(ms: seq<VoteMessage>, at: seq<nat>, i: nat, k: nat)
    requires |at| == |ms| && k < |ms|
    requires forall j :: 0 <= j < |ms| ==> i < |ms[j].proofParts| && ms[j].proofParts[i].validator == at[j]
    requires forall j, j' :: 0 <= j < j' < |at| ==> at[j] < at[j']
    ensures at[k] in ProofOf(ms, i) && ProofOf(ms, i)[at[k]] == ms[k].proofParts[i].share
  {
    if k < |ms| - 1 { ProofHolds(ms[..|ms| - 1], at[..|ms| - 1], i, k); }
  }

  /** A proof holds the shares of those who voted, and of nobody else. */
  lemma {:induction false} ProofHasOnly(ms: seq<VoteMessage>, i: nat, v: nat)
    requires forall k :: 0 <= k < |ms| ==> i < |ms[k].proofParts|
    ensures v in ProofOf(ms, i) <==> exists k :: 0 <= k < |ms| && ms[k].proofParts[i].validator == v
  {
    if ms != [] {
      var n := |ms| - 1;
      ProofHasOnly(ms[..n], i, v);
      assert ms == ms[..n] + [ms[n]];
    }
  }

  /** ... and the shares of a validator are those of the proofs that have one. */
  lemma {:induction false} SharesFrom(proofs: seq<Proof>, v: nat) returns (at: seq<nat>)
    ensures |at| == |SharesOf(proofs, v)| && (forall j, k :: 0 <= j < k < |at| ==> at[j] < at[k])
    ensures forall k :: 0 <= k < |at| ==> at[k] < |proofs| && v in proofs[at[k]] && SharesOf(proofs, v)[k] == ProofPart(v, proofs[at[k]][v])
    ensures forall i :: 0 <= i < |proofs| && v in proofs[i] ==> i in at
  {
    if proofs == [] {
      at := [];
    } else {
      var n := |proofs| - 1;
      at := SharesFrom(proofs[..n], v);
      if v in proofs[n] { at := at + [n]; }
      forall i | 0 <= i < |proofs| && v in proofs[i] ensures i in at {
        if i < n { assert proofs[..n][i] == proofs[i]; }
      }
    }
  }

  lemma {:induction false} SharesAre(proofs: seq<Proof>, v: nat, parts: seq<ProofPart>)
    requires |parts| == |proofs|
    requires forall i :: 0 <= i < |proofs| ==> v in proofs[i] && parts[i] == ProofPart(v, proofs[i][v])
    ensures SharesOf(proofs, v) == parts
  {
    if proofs != [] {
      SharesAre(proofs[..|proofs| - 1], v, parts[..|proofs| - 1]);
    }
  }

  /** Round trip: the votes rebuilt from the certificate of a winning decision are the very votes it
      was made from, if the block's section hashes are those voted for. */
  lemma {:induction false} CertificateRoundTrip(msgs: Ballots, d: Decision, h: nat, r: nat, vals: seq<Address>, cert: Certificate, entries: seq<NTSVote>, known: set<int>, k: nat)
    requires PrecommitSet(msgs, h, r, vals) && Wins(msgs, d)
    requires Certifies(cert, VotesOf(msgs, d))
    requires KnownEntries(entries, known) == d.nts
    requires k < |cert.items|
    ensures SignerAt(cert, h, d.blockID, vals, k).Some? && |d.nts| <= |cert.proofs|
    ensures Rebuilt(cert, h, d.blockID, vals, entries, known, k) == VotesOf(msgs, d)[k]
  {
    hide VotesOf, Wins, KnownEntries;
    var ms := VotesOf(msgs, d);
    var at := VotesTrace(msgs, d);
    var v := at[k];
    assert ms[k].Signer().Some? && IndexOf(vals, ms[k].Signer().value) == Some(v);
    assert ms[0].decision == d;
    forall i | 0 <= i < |cert.proofs| ensures v in cert.proofs[i] && ms[k].proofParts[i] == ProofPart(v, cert.proofs[i][v]) {
      ProofHolds(ms, at, i, k);
    }
    SharesAre(cert.proofs, v, ms[k].proofParts);
    assert cert.proofs[..|d.nts|] == cert.proofs;
  }

  /** Votes of one decision, added one by one to a fresh vote set. */
  ghost function Readded(ms: seq<VoteMessage>, at: seq<nat>, n: nat): Ballots
    requires |at| == |ms| && forall k :: 0 <= k < |at| ==> at[k] < n
  {
    AddedAll(seq(n, _ => None), seq(|ms|, k requires 0 <= k < |ms| => (at[k], ms[k])))
  }

  lemma {:induction false} ReaddedVoters(ms: seq<VoteMessage>, at: seq<nat>, n: nat, d: Decision)
    requires |at| == |ms| && forall k :: 0 <= k < |at| ==> at[k] < n
    requires forall k :: 0 <= k < |ms| ==> ms[k].decision == d
    requires forall j, k :: 0 <= j < k < |at| ==> at[j] < at[k]
    ensures |Readded(ms, at, n)| == n
    ensures forall i :: i in Voters(Readded(ms, at, n), d) <==> i in at
    ensures forall i :: 0 <= i < n && i !in at ==> Readded(ms, at, n)[i].None?
  {
    if ms != [] {
      var l := |ms| - 1;
      ReaddedVoters(ms[..l], at[..l], n, d);
      var pairs := seq(|ms|, k requires 0 <= k < |ms| => (at[k], ms[k]));
      assert pairs[..l] == seq(l, k requires 0 <= k < l => (at[..l][k], ms[..l][k]));
      var before := Readded(ms[..l], at[..l], n);
      assert Readded(ms, at, n) == Added(before, at[l], ms[l]);
      assert before[at[l]].None?;
      assert at == at[..l] + [at[l]];
    }
  }

  lemma VotesRestoreWinner(msgs: Ballots, d: Decision, at: seq<nat>)
    requires Wins(msgs, d) && Traces(msgs, d, VotesOf(msgs, d), at)
    ensures Winner(Readded(VotesOf(msgs, d), at, |msgs|)) == Some(d)
    ensures Voters(Readded(VotesOf(msgs, d), at, |msgs|), d) == Voters(msgs, d)
  {
    ReaddedVoters(VotesOf(msgs, d), at, |msgs|, d);
    var again := Readded(VotesOf(msgs, d), at, |msgs|);
    assert Voters(again, d) == Voters(msgs, d);
    WinnerIs(again, d);
  }

  /** What a certificate stands for: each rebuilt vote, added at the place of its signer to a fresh vote set. */
  ghost function Restored(cert: Certificate, h: nat, bid: Hash, vals: seq<Address>, entries: seq<NTSVote>, known: set<int>): Ballots
    requires AllSigned(cert, h, bid, vals) && |KnownEntries(entries, known)| <= |cert.proofs|
  {
    AddedAll(seq(|vals|, _ => None), seq(|cert.items|, k requires 0 <= k < |cert.items| =>
      (SignerAt(cert, h, bid, vals, k).value, Rebuilt(cert, h, bid, vals, entries, known, k))))
  }

  /** The whole trip: from a vote set with +2/3 precommits to its certificate, back to votes, and into a fresh vote set,
      which has +2/3 for the same decision from the same voters. */
  lemma {:induction false} CertificateRestoresWinner(msgs: Ballots, d: Decision, h: nat, r: nat, vals: seq<Address>, cert: Certificate,
                                  entries: seq<NTSVote>, known: set<int>)
    requires PrecommitSet(msgs, h, r, vals) && Wins(msgs, d)
    requires Certifies(cert, VotesOf(msgs, d)) && KnownEntries(entries, known) == d.nts
    ensures AllSigned(cert, h, d.blockID, vals) && |KnownEntries(entries, known)| <= |cert.proofs|
    ensures Winner(Restored(cert, h, d.blockID, vals, entries, known)) == Some(d)
    ensures Voters(Restored(cert, h, d.blockID, vals, entries, known), d) == Voters(msgs, d)
  {
    hide PrecommitSet, Certifies, Lists, SignerAt, Rebuilt, Wins, VotesOf;
    SetSize(msgs, h, r, vals);
    CertifiesLists(cert, VotesOf(msgs, d));
    var ms := VotesOf(msgs, d);
    var at := VotesTrace(msgs, d);
    CertifiedSigners(msgs, d, h, r, vals, cert, at);
    forall k | 0 <= k < |cert.items|
      ensures |d.nts| <= |cert.proofs| && SignerAt(cert, h, d.blockID, vals, k) == Some(at[k])
      ensures Rebuilt(cert, h, d.blockID, vals, entries, known, k) == ms[k]
    {
      CertificateRoundTrip(msgs, d, h, r, vals, cert, entries, known, k);
    }
    FirstVote(msgs, d, h, r, vals);
    VotesRestoreWinner(msgs, d, at);
    assert seq(|cert.items|, k requires 0 <= k < |cert.items| =>
        (SignerAt(cert, h, d.blockID, vals, k).value, Rebuilt(cert, h, d.blockID, vals, entries, known, k)))
      == seq(|ms|, k requires 0 <= k < |ms| => (at[k], ms[k]));
  }
}
