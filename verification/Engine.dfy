/** The consensus engine of one node (consensus/consensus.go): its handlers, with their nested calls,
    are runs of the events of module `Node`.

    What the environment decides while a handler runs (signing and import failures, clocks, cached block parts) is asked
    of it: `answers` has its answers, any at all, one after the other. A panic ends the process: `halted` is set and the state left as it was. */
module Engines {
  import opened Votes
  import opened Quorum
  import opened VoteSets
  import opened Node
  import opened NodeSafety
  import opened Rotation

  datatype BlockData = BlockData(id: Hash, proposer: Address)

  /** What the environment says when it is asked. */
  datatype Answer = Answer(fails: bool, importFails: bool, wait: bool, badProof: bool, now: int, parts: set<nat>, block: Option<BlockData>)

  /** A block part set with the block decoded from it, and whether that block was validated. */
  datatype Slot = Zero | Slot(id: PartSetID, parts: set<nat>, block: Option<BlockData>, validated: bool)
  {
    predicate IsComplete() { Slot? && |parts| == id.count }
    predicate HasBlock() { Slot? && block.Some? }
    predicate HasValidated() { Slot? && validated }
    function ID(): Option<PartSetID> { if Zero? then None else Some(id) }
    function SetByID(p: PartSetID): Slot {
      if ID() == Some(p) then this else Slot(p, {}, None, false)
    }
  }

  /** What a node entering the prevote step does: vote its lock; without a lock, vote the current
      block if validated, else import it or vote nil. */
  ghost predicate PrevoteAllowed(locked: Slot, current: Slot, a: PrevoteAction) {
    match a
    case Cast(v) =>
      if locked.Slot? then v.PartSet() == locked.ID()
      else if current.HasBlock() && current.HasValidated() then v.PartSet() == current.ID()
      else v.PartSet().None?
    case Import => locked.Zero? && current.HasBlock() && !current.HasValidated()
    case Silent => true
  }

  /** Outstanding imports belong to a round already entered, and to its prevote step or later. */
  lemma ImportsBehind(c: Node, h: nat, es: seq<Event>)
    requires Legal(c, h, es)
    ensures var s := After(c, h, es);
      forall p :: p in s.importing ==> p.0 < s.height || (p.0 == s.height && p.1 <= s.round)
  {
    InvRun(c, h, es);
  }

  /** The part set ID, or nil, of the decision with +2/3. */
  function IDOf(msgs: Ballots): Option<Option<PartSetID>> {
    var w := Winner(msgs);
    if w.Some? then Some(w.value.PartSet()) else None
  }

  ghost predicate AllValidators(vals: seq<Address>, votes: seq<VoteMessage>) {
    forall k :: 0 <= k < |votes| ==> votes[k].Signer().Some? && votes[k].Signer().value in vals
  }

  /** Votes with the indices of their signers. */
  ghost function Indexed(vals: seq<Address>, votes: seq<VoteMessage>): (r: seq<(nat, VoteMessage)>)
    requires AllValidators(vals, votes)
    ensures |r| == |votes| && forall k :: 0 <= k < |r| ==> r[k].0 < |vals|
  {
    seq(|votes|, k requires 0 <= k < |votes| => (IndexOf(vals, votes[k].Signer().value).value, votes[k]))
  }

  lemma AddedNone(was: Ballots, vals: seq<Address>)
    requires |was| == |vals|
    ensures AddedAll(was, Indexed(vals, [])) == was
  {}

  lemma AddedNext(was: Ballots, vals: seq<Address>, votes: seq<VoteMessage>, k: nat, before: Ballots, after: Ballots)
    requires k < |votes| && AllValidators(vals, votes[..k + 1]) && AllValidators(vals, votes[..k]) && |was| == |vals|
    requires before == AddedAll(was, Indexed(vals, votes[..k]))
    requires after == Added(before, IndexOf(vals, votes[k].Signer().value).value, votes[k])
    ensures after == AddedAll(was, Indexed(vals, votes[..k + 1]))
  {
    hide Added, IndexOf;
    assert Indexed(vals, votes[..k + 1])[..k] == Indexed(vals, votes[..k]);
  }

  /** +2/3 votes stay +2/3 votes, for the same thing. */
  lemma EnoughStays(msgs: Ballots, i: nat, m: VoteMessage)
    requires i < |msgs|
    ensures |Present(msgs)| <= |Present(Added(msgs, i, m))| && (IDOf(msgs).Some? ==> IDOf(Added(msgs, i, m)) == IDOf(msgs))
  {
    SubsetCard(Present(msgs), Present(Added(msgs, i, m)));
    if IDOf(msgs).Some? { WinnerStable(msgs, Winner(msgs).value, i, m); }
  }

  lemma PrunedVotes(b: Book, n: nat, lower: int, keep: int)
    ensures forall q: nat, t :: VotesFor(Pruned(b, lower, keep), n, q, t) == if q >= lower || q == keep then VotesFor(b, n, q, t) else seq(n, _ => None)
    ensures Sized(b, n) ==> Sized(Pruned(b, lower, keep), n)
  {}

  /** What a handler does first. */
  datatype Move = Stay | First(e: Event) | Proposes | Prevotes | Precommits

  /** The events after `before` start with this move. Entering precommit may end the process instead. */
  ghost predicate Begins(move: Move, before: seq<Event>, after: seq<Event>, halted: bool) {
    match move
    case Stay => after == before
    case First(e) => before < after && after[|before|] == e
    case Proposes => before < after && after[|before|].EnterPropose?
    case Prevotes => before < after && after[|before|].EnterPrevote?
    case Precommits => if after == before then halted else before < after && after[|before|].EnterPrecommit?
  }

  /** A node in this round and step, whose proposal's proof of lock is from round `pol` if `complete`, has +2/3
      prevotes of round r, for p if they are for one thing. */
  function MoveOnPrevotes(round: nat, step: nat, r: nat, p: Option<Option<PartSetID>>, pol: int, complete: bool): Move {
    if step >= COMMIT then Stay
    else if r > round then First(EnterRound(r))
    else if r < round then if step < PREVOTE && r == pol && complete then Prevotes else Stay
    else if step < PREVOTE then Prevotes
    else if step == PREVOTE then First(Event.EnterPrevoteWait)
    else if step == PREVOTE_WAIT && p.Some? then Precommits
    else Stay
  }

  /** The same for +2/3 precommits. */
  function MoveOnPrecommits(round: nat, step: nat, r: nat, p: Option<Option<PartSetID>>): Move {
    if r > round then if step < COMMIT then First(EnterRound(r)) else Stay
    else if r < round then
      if step < COMMIT && p.Some? && p.value.Some? then First(Decide(r, p.value.value)) else Stay
    else if step < PRECOMMIT then Precommits
    else if step == PRECOMMIT then First(Event.EnterPrecommitWait)
    else if step == PRECOMMIT_WAIT && p.Some? then
      First(if p.value.Some? then Decide(r, p.value.value) else EnterRound(round + 1))
    else Stay
  }

  /** A node that has replayed its logs goes on from the step it had reached; a step that may already have
      voted is not entered again. */
  function MoveOnResume(round: nat, step: nat, enoughPrevotes: bool, enoughPrecommits: bool): Move {
    if step == NEW_HEIGHT then if round == 0 then First(Event.EnterTransactionWait) else Proposes
    else if step == PROPOSE then Prevotes
    else if step == PREVOTE && enoughPrevotes then First(Event.EnterPrevoteWait)
    else if step == PRECOMMIT && enoughPrecommits then First(Event.EnterPrecommitWait)
    else Stay
  }

  function MoveOnTimeout(round: nat, step: nat): Move {
    if step == NEW_HEIGHT then First(Event.EnterTransactionWait)
    else if step < PROPOSE then Proposes
    else if step == PROPOSE then Prevotes
    else if step == PREVOTE_WAIT then Precommits
    else if step == PRECOMMIT_WAIT then First(EnterRound(round + 1))
    else Stay
  }

  lemma LateMove(round: nat, step: nat, r: nat, p: Option<Option<PartSetID>>, pol: int, complete: bool, trace: seq<Event>, halted: bool)
    requires step >= COMMIT
    ensures Begins(MoveOnPrevotes(round, step, r, p, pol, complete), trace, trace, halted)
  {}

  /** Whether the proposal is complete matters for older rounds only. */
  lemma SameMove(round: nat, step: nat, r: nat, p: Option<Option<PartSetID>>, pol: int, a: bool, b: bool)
    requires r >= round || a == b
    ensures MoveOnPrevotes(round, step, r, p, pol, a) == MoveOnPrevotes(round, step, r, p, pol, b)
  {}

  // What some events do to a node.

  lemma NextHeightDoes(c: Node, s: State)
    requires Sized(s.votes, |c.vals(s.height)|) && s.step == COMMIT
    ensures Enabled(c, s, NextHeight)
    ensures Next(c, s, NextHeight) ==
      s.(height := s.height + 1, round := 0, step := NEW_HEIGHT, lockedRound := -1, locked := None, votes := map[])
  {}

  lemma EnterRoundDoes(c: Node, s: State, r: nat)
    requires Sized(s.votes, |c.vals(s.height)|) && r > s.round && s.step < COMMIT
    ensures Enabled(c, s, EnterRound(r))
    ensures Next(c, s, EnterRound(r)) == s.(round := r, step := NEW_ROUND, votes := Pruned(s.votes, r - 1, s.lockedRound))
  {}

  lemma DecideDoes(c: Node, s: State, r: nat, id: PartSetID)
    requires Sized(s.votes, |c.vals(s.height)|) && Polka(c, s, r, Precommit) == Some(Some(id))
    ensures Enabled(c, s, Decide(r, id))
    ensures Next(c, s, Decide(r, id)) == s.(step := COMMIT, decided := s.decided + [(s.height, id)])
  {}

  lemma EnterPrevoteDoes(c: Node, s: State, a: PrevoteAction)
    requires Sized(s.votes, |c.vals(s.height)|) && s.step < PREVOTE
    requires a.Cast? ==> IsOwn(c, s, Prevote, a.vote) && (s.locked.Some? ==> a.vote.PartSet() == s.locked)
    requires a.Import? ==> s.locked.None?
    ensures Enabled(c, s, Event.EnterPrevote(a))
    ensures Next(c, s, Event.EnterPrevote(a)) ==
      Cast1(s.(step := PREVOTE, importing := if a.Import? then s.importing + {(s.height, s.round)} else s.importing),
            if a.Cast? then Some(a.vote) else None)
  {}

  lemma EnterPrecommitDoes(c: Node, s: State, have: bool, v: Option<VoteMessage>)
    requires Sized(s.votes, |c.vals(s.height)|) && s.step < PRECOMMIT
    requires v.Some? ==> IsOwn(c, s, Precommit, v.value) && v.value.PartSet() == PrecommitFor(c, s, have)
    ensures Enabled(c, s, Event.EnterPrecommit(have, v))
    ensures var l := LockAfter(c, s, have);
      Next(c, s, Event.EnterPrecommit(have, v)) == Cast1(s.(step := PRECOMMIT, lockedRound := l.0, locked := l.1), v)
  {}

  lemma EnterProposeDoes(c: Node, s: State, p: Option<Proposal>, pending: bool)
    requires Sized(s.votes, |c.vals(s.height)|) && s.step < PROPOSE && (p.Some? ==> IsOwnProposal(c, s, p.value) && !pending)
    ensures Enabled(c, s, Event.EnterPropose(p, pending))
    ensures Next(c, s, Event.EnterPropose(p, pending)) ==
      Cast1Proposal(s.(step := PROPOSE, proposing := if pending then s.proposing + {(s.height, s.round)} else s.proposing), p)
  {}

  class Engine {
    const c: Node
    const h0: nat        // height at which the run began
    const nid: Hash
    const blockIota: int // minimum commit timeout in microseconds
    const times: Hash -> int // timestamp of a block, by its ID
    const answers: nat -> Answer

    var height: nat
    var round: nat
    var step: nat
    var hvs: Book
    var lockedRound: int
    var locked: Slot
    var proposalPOLRound: int
    var current: Slot
    var commitRound: int
    var importing: set<(nat, nat)>
    var proposing: set<(nat, nat)>
    var committing: set<(nat, nat)>
    var sent: seq<VoteMessage>
    var proposals: seq<Proposal>
    var decided: seq<(nat, PartSetID)>
    var roundWAL: seq<Record>
    var synced: nat
    var lockWAL: seq<Record>
    var commitWAL: seq<Record>
    var halted: bool
    var asked: nat       // how often the environment was asked

    ghost var trace: seq<Event>     // events so far
    ghost var fed: set<VoteMessage> // votes that came from outside
    ghost var imports: map<(nat, nat), (BlockData, PartSetID)> // what was last handed to the importer, by height and round

    function Abs(): State
      reads this
    {
      State(height, round, step, lockedRound, locked.ID(), hvs, importing, proposing,
            sent, proposals, decided, roundWAL, synced)
    }

    /** The fields are what the events so far make of a fresh node, and every vote counted came from
        outside or was cast here. */
    ghost predicate Valid()
      reads this
    {
      && Legal(c, h0, trace) && Abs() == After(c, h0, trace)
      && Sized(hvs, |c.vals(height)|)
      && step <= COMMIT
      && (locked.Slot? ==> locked.HasBlock())
      && ((height, round) in importing ==> step >= PREVOTE)
      && importing <= imports.Keys
      && Sourced() && Dated()
    }

    ghost predicate Dated()
      reads `sent
    {
      forall v :: v in sent ==> DatedAfter(v, times, blockIota)
    }

    /** An import is outstanding and its result may still be prevoted. */
    ghost predicate Importing()
      reads `height, `round, `step, `importing
    {
      (height, round) in importing && step <= PREVOTE_WAIT
    }

    /** The current block is the one handed to the importer in this round. */
    ghost predicate CurrentImported()
      reads `height, `round, `imports, `current
    {
      && current.HasBlock() && current.IsComplete()
      && (height, round) in imports && imports[(height, round)] == (current.block.value, current.id)
    }

    /** Between handlers, the block being imported is still the current one: nothing else has +2/3. */
    ghost predicate ImportReady()
      reads `height, `round, `step, `importing, `imports, `current, `hvs
    {
      Importing() ==> CurrentImported() && OverTwoThirdsID(round, Prevote).None?
    }

    ghost predicate Sourced()
      reads `trace, `fed, `sent
    {
      forall k :: 0 <= k < |trace| && trace[k].Receive? ==> trace[k].m in fed || trace[k].m in sent
    }

    constructor (c: Node, h: nat, nid: Hash, blockIota: int, times: Hash -> int, answers: nat -> Answer)
      ensures Valid() && !halted && trace == [] && height == h && this.c == c && this.blockIota == blockIota && this.times == times
      ensures round == 0 && step == NEW_HEIGHT && locked.Zero? && current.Zero? && sent == [] && decided == [] && this.answers == answers
    {
      this.c, h0, this.nid, this.blockIota, this.times, this.answers, asked := c, h, nid, blockIota, times, answers, 0;
      height, round, step, hvs := h, 0, NEW_HEIGHT, map[];
      lockedRound, locked, proposalPOLRound, current, commitRound := -1, Zero, -1, Zero, -1;
      importing, proposing, committing, imports := {}, {}, {}, map[];
      sent, proposals, decided := [], [], [];
      roundWAL, synced, lockWAL, commitWAL := [], 0, [], [];
      halted := false;
      trace, fed := [], {};
    }

    /** Whatever the handlers did and however often the process restarted: one vote of a kind per height and round. */
    lemma NeverVotesTwice()
      requires Valid()
      ensures forall i, j :: 0 <= i < |sent| && 0 <= j < |sent|
                && sent[i].height == sent[j].height && sent[i].round == sent[j].round && sent[i].vtype == sent[j].vtype
                ==> i == j
    {
      hide Legal, After;
      NonEquivocation(c, h0, trace);
      assert sent == After(c, h0, trace).sent by { assert Abs().sent == sent; }
    }

    /** Whatever the handlers did: a precommit for a block is dated at least the minimum commit timeout after it. */
    lemma PrecommitsDated()
      requires Valid()
      ensures forall v :: v in sent ==> DatedAfter(v, times, blockIota)
    {
      hide Legal, After, Sourced;
    }

    /** So the events of a node are those of a run with such dates. */
    lemma TraceDated()
      requires Valid()
      ensures Legal(c, h0, trace) && DatedEvents(trace, times, blockIota)
    {
      hide Legal, After, Sourced, DatedAfter;
      PrecommitsDated();
      assert sent == After(c, h0, trace).sent by { assert Abs().sent == sent; }
      forall k | 0 <= k < |trace| && trace[k].EnterPrecommit? && trace[k].vote.Some?
        ensures DatedAfter(trace[k].vote.value, times, blockIota)
      {
        CastWasSent(c, h0, trace, k);
      }
    }

    /** A locked node can always show the +2/3 prevotes it locked on. */
    lemma CanProveLock()
      requires Valid()
      ensures lockedRound >= 0 <==> locked.Slot?
      ensures locked.Slot? ==> Polka(c, Abs(), lockedRound, Prevote) == Some(locked.ID())
    {
      hide Legal, After, Polka;
      ProofOfLockKept(c, h0, trace);
      assert Abs().lockedRound == lockedRound && Abs().locked == locked.ID();
    }

    function Votes(r: nat, t: VoteType): Ballots
      reads `hvs, `height
    {
      VotesFor(hvs, |c.vals(height)|, r, t)
    }

    predicate EnoughVotes(r: nat, t: VoteType)
      reads `hvs, `height
    {
      OverTwoThirds(|Present(Votes(r, t))|, |c.vals(height)|)
    }

    /** The part set ID, or nil, with +2/3 of the votes. */
    function OverTwoThirdsID(r: nat, t: VoteType): Option<Option<PartSetID>>
      reads `hvs, `height
    {
      IDOf(Votes(r, t))
    }

    /** +2/3 for one decision is +2/3 of any kind. */
    lemma PolkaIsEnough(r: nat, t: VoteType)
      requires Valid()
      ensures OverTwoThirdsID(r, t).Some? ==> EnoughVotes(r, t)
    {
      hide Legal, After, Sourced, Dated;
      if OverTwoThirdsID(r, t).Some? {
        var w := Winner(Votes(r, t)).value;
        SubsetCard(Voters(Votes(r, t), w), Present(Votes(r, t)));
      }
    }

    /** The node is at this height, round and step or later. */
    predicate Onward(h: nat, r: nat, st: nat)
      reads `height, `round, `step
    {
      height > h || (height == h && !Before(round, step, r, st))
    }

    /** What +2/3 precommits of round r lead to, for p, at a node in round `now` of height h: a block is decided, in
        whatever round; nil ends the round, unless it is over already. */
    predicate Resolved(h: nat, now: nat, r: nat, p: Option<Option<PartSetID>>)
      reads `height, `round, `step, `decided
    {
      p.Some? ==> if p.value.Some? then (h, p.value.value) in decided else r >= now ==> Onward(h, r + 1, NEW_ROUND)
    }

    /** No event, no change. */
    twostate lemma SameState()
      requires old(Valid()) && Valid() && trace == old(trace)
      ensures height == old(height) && round == old(round) && step == old(step) && hvs == old(hvs) && decided == old(decided)
    {
      hide Legal, After, Sourced, Dated;
      assert Abs() == old(Abs());
    }

    lemma NoImportYet()
      requires Valid() && step < PREVOTE
      ensures ImportReady()
    {}

    predicate IsProposer()
      reads `height, `round
      ensures IsProposer() <==> ProposerOf(c.vals(height), height, round) == Some(c.me)
    {
      var vals := c.vals(height);
      vals != [] && vals[(height + round) % |vals|] == c.me
    }

    /** The +2/3 prevotes for a block that a proposal refers to, if any, are there. */
    predicate HasPOL(r: int)
      reads `hvs, `height
    {
      r >= 0 ==> OverTwoThirdsID(r, Prevote).Some? && OverTwoThirdsID(r, Prevote).value.Some?
    }

    predicate ProposalAndPOLComplete()
      reads `hvs, `height, `current, `proposalPOLRound
    {
      current.IsComplete() && HasPOL(proposalPOLRound)
    }

    predicate ProposalHasValidProposer()
      reads `hvs, `height, `round, `current, `proposalPOLRound
      ensures ProposalHasValidProposer() && proposalPOLRound == -1 ==>
                current.HasBlock() && ProposerOf(c.vals(height), height, round) == Some(current.block.value.proposer)
    {
      ProposalAndPOLComplete() &&
      (proposalPOLRound == -1 ==>
         var vals := c.vals(height);
         current.HasBlock() && vals != [] &&
         IndexOf(vals, current.block.value.proposer) == Some((height + round) % |vals|))
    }

    /** The clock, but not before the minimum commit timeout after the block locked, or else the current one. */
    function VoteTimestamp(now: int): (ts: int)
      reads `locked, `current
      ensures ts >= now
      ensures locked.HasBlock() ==> ts >= times(locked.block.value.id) + blockIota && ts in {now, times(locked.block.value.id) + blockIota}
      ensures !locked.HasBlock() && current.HasBlock() ==>
                ts >= times(current.block.value.id) + blockIota && ts in {now, times(current.block.value.id) + blockIota}
      ensures !locked.HasBlock() && !current.HasBlock() ==> ts >= 0 && ts in {now, 0}
    {
      var ts := if locked.HasBlock() then times(locked.block.value.id) + blockIota
                else if current.HasBlock() then times(current.block.value.id) + blockIota
                else 0;
      if now > ts then now else ts
    }

    // --- direct effects: one event each ----------------------------------------------------------

    /** Records an event whose effect the fields already show. */
    ghost method Record(e: Event)
      requires Legal(c, h0, trace) && Enabled(c, After(c, h0, trace), e)
      requires Abs() == Next(c, After(c, h0, trace), e)
      requires Sourced() && (e.Receive? ==> e.m in fed || e.m in sent)
      modifies this`trace
      ensures trace == old(trace) + [e] && Legal(c, h0, trace) && Abs() == After(c, h0, trace)
      ensures Sourced()
    {
      LegalStep(c, h0, trace, e);
      trace := trace + [e];
    }

    /** What the events see of this node. */
    lemma Shown()
      ensures var s := Abs();
        && s.height == height && s.round == round && s.step == step && s.votes == hvs
        && s.lockedRound == lockedRound && s.locked == locked.ID() && s.importing == importing
    {}

    method Ask() returns (a: Answer)
      requires Valid()
      modifies this`asked
      ensures Valid() && a == answers(old(asked)) && asked == old(asked) + 1
    {
      hide Legal, After, Sourced, Dated;
      a := answers(asked);
      asked := asked + 1;
    }

    method SetStep(st: nat)
      modifies this`step
      ensures step == st && Abs() == old(Abs()).(step := st)
    {
      step := st;
    }

    /** Builds a signed vote for a block slot, or for nil; nothing if not a validator or on failure.
        A vote for a block is dated at least the minimum commit timeout after the block. */
    method Sign(t: VoteType, slot: Slot, fails: bool, now: int) returns (v: Option<VoteMessage>)
      requires slot.Slot? ==> slot.HasBlock()
      ensures v.Some? <==> c.me in c.vals(height) && !fails
      ensures v.Some? ==> v.value.timestamp == VoteTimestamp(now) && (t == Prevote ==> v.value.decision.nts == [])
      ensures v.Some? ==> IsOwn(c, Abs(), t, v.value) && v.value.PartSet() == slot.ID()
      ensures v.Some? ==> v.value.height == height && v.value.round == round
      ensures v.Some? && slot.Slot? ==> v.value.decision.blockID == slot.block.value.id
      ensures v.Some? && slot.Slot? && (slot == locked || (locked.Zero? && slot == current)) ==>
                v.value.timestamp >= times(slot.block.value.id) + blockIota
      ensures v.Some? && slot.Zero? ==> v.value.decision == Decision(nid, None, [])
    {
      if c.me !in c.vals(height) { return None; }
      if fails { return None; }
      var appData: nat := *;
      var nts: seq<NTSVote> := *;
      var proofParts: seq<ProofPart> := *;
      var d := if slot.Zero? then Decision(nid, None, [])
               else Decision(slot.block.value.id, Some(TaggedID(slot.id, appData)), if t == Precommit then nts else []);
      return Some(Own(c, Abs(), t, d, VoteTimestamp(now), proofParts));
    }

    /** Writes the vote to the round log, syncs the log, then sends the vote. */
    method Post(v: Option<VoteMessage>)
      requires Sourced() && Dated() && (v.Some? ==> DatedAfter(v.value, times, blockIota))
      modifies this`sent, this`roundWAL, this`synced
      ensures Abs() == Cast1(old(Abs()), v) && Sourced() && Dated()
      ensures v.Some? ==> v.value in sent && sent == old(sent) + [v.value] && roundWAL == old(roundWAL) + [OneVote(v.value)] && synced == |roundWAL|
      ensures v.None? ==> unchanged(`sent, `roundWAL, `synced)
    {
      if v.Some? {
        roundWAL := roundWAL + [OneVote(v.value)];
        synced := |roundWAL|;
        sent := sent + [v.value];
      }
    }

    method PostProposal(p: Option<Proposal>)
      modifies this`proposals, this`roundWAL, this`synced
      ensures Abs() == Cast1Proposal(old(Abs()), p)
      ensures p.Some? ==> proposals == old(proposals) + [p.value] && roundWAL == old(roundWAL) + [OwnProposal(p.value)] && synced == |roundWAL|
    {
      if p.Some? {
        roundWAL := roundWAL + [OwnProposal(p.value)];
        synced := |roundWAL|;
        proposals := proposals + [p.value];
      }
    }

    method AddVote(m: VoteMessage) returns (added: bool)
      requires Valid() && m.height == height && m.Signer().Some? && m.Signer().value in c.vals(height)
      requires m in fed || m in sent
      modifies this`hvs, this`trace
      ensures Valid()
      ensures added == Accepts(old(Votes(m.round, m.vtype)), IndexOf(c.vals(height), m.Signer().value).value, m)
      ensures trace == if added then old(trace) + [Receive(m)] else old(trace)
      ensures (m.round, m.vtype) != (round, Prevote) ==> OverTwoThirdsID(round, Prevote) == old(OverTwoThirdsID(round, Prevote))
      ensures !added ==> hvs == old(hvs)
      ensures Votes(m.round, m.vtype) == Added(old(Votes(m.round, m.vtype)), IndexOf(c.vals(height), m.Signer().value).value, m)
      ensures (EnoughVotes(m.round, m.vtype), OverTwoThirdsID(m.round, m.vtype)) == old(WithVote(m))
      ensures step <= COMMIT
    {
      hide Legal, After, Sourced, Dated, Winner, WinnerUpTo, VoteListOf, Present, IndexOf;
      var index := IndexOf(c.vals(height), m.Signer().value).value;
      added := Accepts(Votes(m.round, m.vtype), index, m);
      if added {
        hvs := AddTo(hvs, |c.vals(height)|, index, m);
        Record(Receive(m));
      }
    }

    method BeginUnlock(r: nat)
      requires Valid() && step < COMMIT && locked.Slot? && lockedRound < r
      requires OverTwoThirdsID(r, Prevote).Some? && OverTwoThirdsID(r, Prevote).value != locked.ID()
      modifies this`locked, this`lockedRound, this`trace
      ensures Valid() && locked.Zero? && trace == old(trace) + [Unlock(r)]
    {
      hide Legal, After, Sourced, Dated, Winner, WinnerUpTo, VoteListOf, Present, IndexOf;
      lockedRound := -1;
      locked := Zero;
      Record(Unlock(r));
    }

    method SetCurrent(slot: Slot)
      requires Valid()
      modifies this`current
      ensures Valid() && current == slot
    {
      current := slot;
    }

    method ResetForNewRound(r: nat)
      requires Valid() && r > round && step < COMMIT
      modifies this`proposalPOLRound, this`current, this`height, this`round, this`hvs, this`step, this`trace
      ensures Valid() && trace == old(trace) + [EnterRound(r)]
      ensures height == old(height) && round == r && step == NEW_ROUND && current.Zero? && proposalPOLRound == -1
      ensures forall t :: EnoughVotes(r, t) == old(EnoughVotes(r, t)) && OverTwoThirdsID(r, t) == old(OverTwoThirdsID(r, t))
      ensures forall q: nat, t :: Votes(q, t) == if q >= r - 1 || q == lockedRound then old(Votes(q, t)) else seq(|c.vals(height)|, _ => None)
    {
      hide Legal, After, Sourced, Dated, Next, Enabled, VotesFor, Abs, Pruned;
      Shown();
      PrunedVotes(hvs, |c.vals(height)|, r - 1, lockedRound);
      EnterRoundDoes(c, Abs(), r);
      ImportsBehind(c, h0, trace);
      ClearProposal();
      MoveTo(height, r, NEW_ROUND, Pruned(hvs, r - 1, lockedRound));
      Record(EnterRound(r));
    }

    /** An unlocked node has a block that it has to import first: one with a valid proposer, and not validated yet. */
    predicate MustImport()
      reads `hvs, `height, `round, `current, `locked, `proposalPOLRound
    {
      locked.Zero? && current.HasBlock() && !current.HasValidated() && ProposalHasValidProposer()
    }

    /** The slot to prevote for (`Zero` for nil), unless the block has to be imported first. */
    method ChoosePrevote(importFails: bool) returns (slot: Slot, pending: bool, failed: bool)
      requires locked.Slot? ==> locked.HasBlock()
      modifies this`importing, this`imports
      ensures slot.Slot? ==> slot.HasBlock()
      ensures importing == if pending then old(importing) + {(height, round)} else old(importing)
      ensures Abs() == old(Abs()).(importing := importing)
      ensures imports.Keys == if pending then old(imports.Keys) + {(height, round)} else old(imports.Keys)
      ensures pending <==> MustImport() && !importFails
      ensures failed <==> MustImport() && importFails
      ensures pending ==> CurrentImported()
      ensures if locked.Slot? then slot == locked
              else if current.HasBlock() && current.HasValidated() then slot == current
              else slot == Zero
    {
      slot, pending, failed := Zero, false, false;
      if locked.Slot? {
        slot := locked;
      } else if current.HasBlock() {
        if current.HasValidated() {
          slot := current;
        } else if ProposalHasValidProposer() {
          failed := importFails;
          if !failed {
            importing := importing + {(height, round)};
            imports := imports[(height, round) := (current.block.value, current.id)];
            pending := true;
          }
        }
      }
    }

    /** Casts the prevote or starts the import it has to wait for. */
    method CastPrevote(fails: bool, importFails: bool, now: int) returns (vote: Option<VoteMessage>, failed: bool, ghost a: PrevoteAction)
      requires (locked.Slot? ==> locked.HasBlock()) && Sourced() && Dated() && importing <= imports.Keys
      modifies this`step, this`importing, this`imports, this`sent, this`roundWAL, this`synced
      ensures Sourced() && Dated() && importing <= imports.Keys && step == PREVOTE
      ensures importing == if a.Import? then old(importing) + {(height, round)} else old(importing)
      ensures Abs() == Cast1(old(Abs()).(step := PREVOTE, importing := importing), if a.Cast? then Some(a.vote) else None)
      ensures a.Import? <==> MustImport() && !importFails
      ensures failed <==> MustImport() && importFails
      ensures a.Cast? <==> !a.Import? && c.me in c.vals(height) && !fails
      ensures a.Cast? <==> vote.Some?
      ensures vote.Some? ==> a == Cast(vote.value) && vote.value in sent && vote.value.height == height && vote.value.round == round
      ensures vote.Some? ==> IsOwn(c, old(Abs()), Prevote, vote.value)
      ensures PrevoteAllowed(locked, current, a)
      ensures a.Import? ==> CurrentImported()
    {
      hide Sourced, Dated, ProposalHasValidProposer, VoteTimestamp, Abs;
      Shown();
      SetStep(PREVOTE);
      var slot, pending;
      slot, pending, failed := ChoosePrevote(importFails);
      vote := None;
      if !pending { vote := Sign(Prevote, slot, fails, now); }
      Post(vote);
      a := if pending then Import else if vote.Some? then Cast(vote.value) else Silent;
    }

    method BeginPrevote(fails: bool, importFails: bool, now: int) returns (vote: Option<VoteMessage>, failed: bool)
      requires Valid() && step < PREVOTE
      modifies this`step, this`importing, this`imports, this`sent, this`roundWAL, this`synced, this`trace
      ensures Valid() && step == PREVOTE
      ensures |trace| == |old(trace)| + 1 && trace[..|old(trace)|] == old(trace) && trace[|old(trace)|].EnterPrevote?
      ensures PrevoteAllowed(locked, current, trace[|old(trace)|].action)
      ensures trace[|old(trace)|].action.Import? <==> MustImport() && !importFails
      ensures vote.Some? <==> (MustImport() ==> importFails) && c.me in c.vals(height) && !fails
      ensures failed <==> MustImport() && importFails
      ensures trace[|old(trace)|].action.Cast? <==> vote.Some?
      ensures vote.Some? ==> trace[|old(trace)|].action == Cast(vote.value) && vote.value in sent && vote.value.Signer() == Some(c.me)
      ensures vote.Some? ==> vote.value.height == height && vote.value.round == round && vote.value.vtype == Prevote
      ensures (height, round) in importing ==> vote.None? && !failed && CurrentImported()
    {
      hide Legal, After, Sourced, Dated, Next, Enabled, Sized, Abs, Cast1, MustImport;
      ghost var s := Abs();
      Shown();
      ghost var a;
      vote, failed, a := CastPrevote(fails, importFails, now);
      EnterPrevoteDoes(c, s, a);
      Record(Event.EnterPrevote(a));
    }

    method BeginPrevoteWait()
      requires Valid() && step == PREVOTE && EnoughVotes(round, Prevote)
      modifies this`step, this`roundWAL, this`trace
      ensures Valid() && step == PREVOTE_WAIT && trace == old(trace) + [Event.EnterPrevoteWait]
      ensures roundWAL == old(roundWAL) + [VoteList(VoteListOf(Votes(round, Prevote)))]
    {
      hide Legal, After, Sourced, Dated, Winner, WinnerUpTo, VoteListOf, Present, IndexOf;
      step := PREVOTE_WAIT;
      roundWAL := roundWAL + [VoteList(VoteListOf(Votes(round, Prevote)))];
      Record(Event.EnterPrevoteWait);
    }

    /** The block with +2/3 prevotes in this round is the current one, and is decoded. */
    ghost predicate HasPolkaBlock()
      reads `hvs, `height, `round, `current
    {
      var p := OverTwoThirdsID(round, Prevote);
      p.Some? && p.value.Some? && current.ID() == p.value && current.HasBlock()
    }

    /** +2/3 prevotes for a complete part set that is no block to this node. */
    predicate PolkaUndecodable()
      reads `hvs, `height, `round, `current, `locked
    {
      var p := OverTwoThirdsID(round, Prevote);
      p.Some? && p.value.Some? && locked.ID() != p.value && current.ID() == p.value
      && !current.HasBlock() && current.IsComplete()
    }

    /** Moves the lock as the prevotes of this round say, logging a new lock, and returns the slot
        to precommit for. */
    method UpdateLock() returns (slot: Slot)
      requires locked.Slot? ==> locked.HasBlock()
      modifies this`lockedRound, this`locked, this`current, this`lockWAL
      ensures locked.Slot? ==> locked.HasBlock()
      ensures slot.Slot? ==> slot == locked
      ensures (lockedRound, locked.ID()) == LockAfter(c, old(Abs()), old(HasPolkaBlock()))
      ensures slot.ID() == PrecommitFor(c, old(Abs()), old(HasPolkaBlock()))
      ensures lockWAL == old(lockWAL) + old(LockLogged(c, Abs(), HasPolkaBlock()))
      ensures Abs() == old(Abs()).(lockedRound := lockedRound, locked := locked.ID())
      ensures var p := OverTwoThirdsID(round, Prevote);
        if p.None? then lockedRound == old(lockedRound) && locked == old(locked) && slot == Zero && unchanged(`current, `lockWAL)
        else if p.value.None? then lockedRound == -1 && locked == slot == Zero && unchanged(`current, `lockWAL)
        else if old(locked).ID() == p.value then lockedRound == round && locked == slot == old(locked) && unchanged(`current, `lockWAL)
        else if old(current).ID() == p.value && old(current).HasBlock() then
          && lockedRound == round && locked == slot == current == old(current)
          && lockWAL == old(lockWAL) + LockRecords(height, Votes(round, Prevote), current.id)
        else lockedRound == -1 && locked == slot == Zero && current.ID() == p.value && unchanged(`lockWAL)
    {
      hide Winner, LockRecords;
      var p := OverTwoThirdsID(round, Prevote);
      if p.None? {
        slot := Zero;
      } else if p.value.None? {
        lockedRound := -1;
        locked := Zero;
        slot := Zero;
      } else if locked.ID() == p.value {
        lockedRound := round;
        slot := locked;
      } else if current.ID() == p.value && current.HasBlock() {
        lockedRound := round;
        locked := current;
        lockWAL := lockWAL + LockRecords(height, Votes(round, Prevote), locked.id);
        slot := locked;
      } else {
        current := current.SetByID(p.value.value);
        lockedRound := -1;
        locked := Zero;
        slot := Zero;
      }
    }

    /** Moves the lock and casts the precommit. */
    method CastPrecommit(fails: bool, now: int) returns (vote: Option<VoteMessage>)
      requires (locked.Slot? ==> locked.HasBlock()) && Sourced() && Dated()
      modifies this`step, this`lockedRound, this`locked, this`current, this`lockWAL, this`sent, this`roundWAL, this`synced
      ensures (locked.Slot? ==> locked.HasBlock()) && Sourced() && Dated() && step == PRECOMMIT
      ensures vote.Some? <==> c.me in c.vals(height) && !fails
      ensures vote.Some? ==> vote.value in sent && vote.value.height == height && vote.value.round == round
      ensures vote.Some? ==> IsOwn(c, old(Abs()), Precommit, vote.value) && vote.value.PartSet() == PrecommitFor(c, old(Abs()), old(HasPolkaBlock()))
      ensures var l := LockAfter(c, old(Abs()), old(HasPolkaBlock()));
        Abs() == Cast1(old(Abs()).(step := PRECOMMIT, lockedRound := l.0, locked := l.1), vote)
      ensures lockWAL == old(lockWAL) + old(LockLogged(c, Abs(), HasPolkaBlock()))
    {
      hide Sourced, Dated, LockAfter, LockLogged, PrecommitFor, HasPolkaBlock, Abs;
      Shown();
      var slot := UpdateLock();
      SetStep(PRECOMMIT);
      vote := Sign(Precommit, slot, fails, now);
      Post(vote);
    }

    method BeginPrecommit(fails: bool, now: int) returns (vote: Option<VoteMessage>)
      requires Valid() && step < PRECOMMIT && !PolkaUndecodable()
      modifies this`step, this`lockedRound, this`locked, this`current, this`lockWAL, this`sent, this`roundWAL, this`synced, this`trace
      ensures Valid() && step == PRECOMMIT
      ensures vote.Some? <==> c.me in c.vals(height) && !fails
      ensures trace == old(trace) + [Event.EnterPrecommit(old(HasPolkaBlock()), vote)]
      ensures vote.Some? ==> vote.value in sent && vote.value.height == height && vote.value.round == round && vote.value.vtype == Precommit
      ensures vote.Some? ==> vote.value.Signer() == Some(c.me)
      ensures lockWAL == old(lockWAL) + old(LockLogged(c, Abs(), HasPolkaBlock()))
    {
      hide Legal, After, Sourced, Dated, LockAfter, LockLogged, PrecommitFor, HasPolkaBlock, PolkaUndecodable, Next, Enabled, Sized, Abs, Cast1;
      ghost var have, s := HasPolkaBlock(), Abs();
      Shown();
      vote := CastPrecommit(fails, now);
      EnterPrecommitDoes(c, s, have, vote);
      Record(Event.EnterPrecommit(have, vote));
    }

    method BeginPrecommitWait()
      requires Valid() && step == PRECOMMIT && EnoughVotes(round, Precommit)
      modifies this`step, this`roundWAL, this`trace
      ensures Valid() && step == PRECOMMIT_WAIT && trace == old(trace) + [Event.EnterPrecommitWait]
      ensures roundWAL == old(roundWAL) + [VoteList(VoteListOf(Votes(round, Precommit)))]
    {
      hide Legal, After, Sourced, Dated, Winner, WinnerUpTo, VoteListOf, Present, IndexOf;
      step := PRECOMMIT_WAIT;
      roundWAL := roundWAL + [VoteList(VoteListOf(Votes(round, Precommit)))];
      Record(Event.EnterPrecommitWait);
    }

    method BeginCommit(id: PartSetID, r: nat)
      requires Valid() && OverTwoThirdsID(r, Precommit) == Some(Some(id))
      modifies this`step, this`commitRound, this`commitWAL, this`decided, this`trace
      ensures Valid() && step == COMMIT && commitRound == r
      ensures decided == old(decided) + [(height, id)] && trace == old(trace) + [Decide(r, id)]
      ensures commitWAL == old(commitWAL) + [VoteList(VoteListOf(Votes(r, Precommit)))]
    {
      hide Legal, After, Sourced, Dated, Winner, WinnerUpTo, VoteListOf, Present, IndexOf, Next, Enabled;
      DecideDoes(c, Abs(), r, id);
      step := COMMIT;
      commitRound := r;
      commitWAL := commitWAL + [VoteList(VoteListOf(Votes(r, Precommit)))];
      decided := decided + [(height, id)];
      Record(Decide(r, id));
    }

    method ClearProposal()
      modifies this`proposalPOLRound, this`current
      ensures proposalPOLRound == -1 && current == Zero && Abs() == old(Abs())
    {
      proposalPOLRound, current := -1, Zero;
    }

    method MoveTo(h: nat, r: nat, st: nat, votes: Book)
      modifies this`height, this`round, this`step, this`hvs
      ensures height == h && round == r && step == st && hvs == votes
      ensures Abs() == old(Abs()).(height := h, round := r, step := st, votes := votes)
    {
      height, round, step, hvs := h, r, st, votes;
    }

    method Mount(slot: Slot, lr: int)
      modifies this`commitRound, this`proposalPOLRound, this`current, this`locked, this`lockedRound
      ensures commitRound == -1 && proposalPOLRound == -1 && current == slot && locked == slot && lockedRound == lr
      ensures Abs() == old(Abs()).(locked := slot.ID(), lockedRound := lr)
    {
      commitRound, proposalPOLRound, current := -1, -1, slot;
      locked, lockedRound := slot, lr;
    }

    method BeginHeight()
      requires Valid() && step == COMMIT
      modifies this`height, this`round, this`step, this`hvs, this`lockedRound, this`locked, this`commitRound,
               this`proposalPOLRound, this`current, this`trace
      ensures Valid() && trace == old(trace) + [NextHeight]
      ensures height == old(height) + 1 && round == 0 && step == NEW_HEIGHT && locked.Zero? && current.Zero?
    {
      hide Legal, After, Sourced, Dated, Next, Enabled;
      ImportsBehind(c, h0, trace);
      NextHeightDoes(c, Abs());
      MoveTo(height + 1, 0, NEW_HEIGHT, map[]);
      Mount(Zero, -1);
      Record(NextHeight);
    }

    method BeginTransactionWait()
      requires Valid() && step < TRANSACTION_WAIT
      modifies this`step, this`trace
      ensures Valid() && step == TRANSACTION_WAIT && trace == old(trace) + [Event.EnterTransactionWait]
    {
      hide Legal, After, Sourced, Dated, Winner, WinnerUpTo, VoteListOf, Present, IndexOf;
      step := TRANSACTION_WAIT;
      Record(Event.EnterTransactionWait);
    }

    /** A locked proposer proposes its lock; an unlocked one asks for a new block. */
    method CastProposal(fails: bool) returns (p: Option<Proposal>, pending: bool)
      requires lockedRound >= 0 <==> locked.Slot?
      requires locked.Slot? ==> Polka(c, Abs(), lockedRound, Prevote) == Some(locked.ID())
      modifies this`step, this`proposing, this`proposals, this`roundWAL, this`synced, this`current
      ensures step == PROPOSE
      ensures p.Some? <==> IsProposer() && locked.Slot? && !fails
      ensures p.Some? ==> p == Some(Proposal(height, round, locked.id, lockedRound, c.me))
      ensures pending <==> IsProposer() && locked.Zero? && !fails
      ensures current == if IsProposer() && locked.Slot? then locked else old(current)
      ensures Abs() == Cast1Proposal(old(Abs()).(step := PROPOSE, proposing := if pending then old(Abs()).proposing + {(height, round)} else old(Abs()).proposing), p)
    {
      hide IsProposer, Polka, Abs;
      p, pending := None, IsProposer() && locked.Zero? && !fails;
      if IsProposer() && locked.Slot? && !fails {
        // the prevotes that prove the lock go out with the proposal
        assert Polka(c, Abs(), lockedRound, Prevote) == Some(locked.ID());
        p := Some(Proposal(height, round, locked.id, lockedRound, c.me));
      }
      StartProposing(pending);
      PostProposal(p);
      if IsProposer() && locked.Slot? { SetSlot(locked); }
    }

    method BeginPropose(fails: bool)
      requires Valid() && step < PROPOSE
      modifies this`step, this`proposing, this`proposals, this`roundWAL, this`synced, this`current, this`trace
      ensures Valid() && step == PROPOSE
      ensures |trace| == |old(trace)| + 1 && trace[..|old(trace)|] == old(trace) && trace[|old(trace)|].EnterPropose?
      ensures var e := trace[|old(trace)|];
        && (e.p.Some? <==> IsProposer() && locked.Slot? && !fails)
        && (e.p.Some? ==> Some(e.p.value.parts) == locked.ID() && e.p.value.polRound == lockedRound)
        && (e.pending <==> IsProposer() && locked.Zero? && !fails)
      ensures IsProposer() && locked.Slot? ==> current == locked
      ensures !(IsProposer() && locked.Slot?) ==> current == old(current)
    {
      hide Legal, After, Sourced, Dated, IsProposer, Polka, Next, Enabled, Sized, Abs, Cast1Proposal;
      CanProveLock();
      ghost var s := Abs();
      Shown();
      var p, pending := CastProposal(fails);
      EnterProposeDoes(c, s, p, pending);
      Record(Event.EnterPropose(p, pending));
    }

    method StartProposing(pending: bool)
      modifies this`step, this`proposing
      ensures step == PROPOSE
      ensures Abs() == old(Abs()).(step := PROPOSE, proposing := if pending then old(Abs()).proposing + {(height, round)} else old(Abs()).proposing)
    {
      step := PROPOSE;
      if pending { proposing := proposing + {(height, round)}; }
    }

    method SetSlot(slot: Slot)
      modifies this`current
      ensures current == slot && Abs() == old(Abs())
    {
      current := slot;
    }

    // --- votes -----------------------------------------------------------------------------------

    /** A vote from the network, or from a vote list. */
    method ReceiveVote(m: VoteMessage, badProof: bool)
      requires Valid() && !halted
      requires ImportReady()
      modifies this
      ensures Valid() && old(trace) <= trace && fed == old(fed) + {m}
      ensures halted || ImportReady()
      ensures old(decided) <= decided && Onward(old(height), old(round), old(step))
      ensures if old(Takes(m, badProof)) then Begins(First(Receive(m)), old(trace), trace, halted) else trace == old(trace)
      ensures old(Takes(m, badProof)) && m.vtype == Precommit && old(step) < COMMIT && old(WithVote(m)).0 ==>
                halted || (Resolved(old(height), old(round), m.round, old(WithVote(m)).1) && (m.round >= old(round) ==> Onward(old(height), m.round, PRECOMMIT_WAIT)))
    {
      hide Valid, Legal, After, EnoughVotes, OverTwoThirdsID, Takes, WithVote, Resolved, Onward;
      Feed({m});
      ReceiveVoteMessage(m, badProof);
    }

    ghost method Feed(ms: set<VoteMessage>)
      requires Valid()
      modifies this`fed
      ensures Valid() && fed == old(fed) + ms
    {
      hide Legal, After;
      fed := fed + ms;
    }

    /** A vote counts if it is of this height, from a validator, its proof parts are right, and the vote set accepts it. */
    ghost predicate Takes(m: VoteMessage, badProof: bool)
      requires Sized(hvs, |c.vals(height)|)
      reads `hvs, `height
    {
      && m.height == height && m.Signer().Some? && m.Signer().value in c.vals(height) && !badProof
      && Accepts(Votes(m.round, m.vtype), IndexOf(c.vals(height), m.Signer().value).value, m)
    }

    /** Whether +2/3 votes of its kind are there with this one, and what they are for. */
    ghost function WithVote(m: VoteMessage): (bool, Option<Option<PartSetID>>)
      requires Sized(hvs, |c.vals(height)|)
      reads `hvs, `height
    {
      if m.Signer().Some? && m.Signer().value in c.vals(height) then
        var b := Added(Votes(m.round, m.vtype), IndexOf(c.vals(height), m.Signer().value).value, m);
        (OverTwoThirds(|Present(b)|, |c.vals(height)|), IDOf(b))
      else (false, None)
    }

    method ReceiveVoteMessage(m: VoteMessage, badProof: bool)
      requires Valid() && !halted && (m in fed || m in sent)
      requires ImportReady()
      modifies this
      ensures Valid() && old(trace) <= trace && fed == old(fed)
      ensures halted || ImportReady()
      ensures old(decided) <= decided && Onward(old(height), old(round), old(step))
      ensures if old(Takes(m, badProof)) then Begins(First(Receive(m)), old(trace), trace, halted) else trace == old(trace)
      ensures old(Takes(m, badProof)) && m.vtype == Precommit && old(step) < COMMIT && old(WithVote(m)).0 ==>
                halted || (Resolved(old(height), old(round), m.round, old(WithVote(m)).1) && (m.round >= old(round) ==> Onward(old(height), m.round, PRECOMMIT_WAIT)))
      ensures old(Takes(m, badProof)) && m.vtype == Prevote && old(step) < COMMIT && old(WithVote(m)).0 && m.round >= old(round) ==>
                halted || Onward(old(height), m.round, PREVOTE)
      ensures old(Takes(m, badProof)) && m.vtype == Prevote && old(step) in {PREVOTE, PREVOTE_WAIT} && m.round == old(round) && old(WithVote(m)).0 ==>
                halted || Onward(old(height), m.round, if old(WithVote(m)).1.Some? then PRECOMMIT else PREVOTE_WAIT)
      decreases if m.round > round then 50 else 4 * (8 - step) + 2, 0
    {
      hide Valid, Legal, After, EnoughVotes, OverTwoThirdsID, Accepts, IndexOf, WithVote;
      if m.height != height { return; }
      if m.Signer().None? || m.Signer().value !in c.vals(height) { return; }
      if badProof { return; }
      var added := AddVote(m);
      if !added { return; }
      PolkaIsEnough(round, Prevote);
      if !EnoughVotes(m.round, m.vtype) { return; }
      if m.vtype == Prevote {
        HandlePrevoteMessage(m);
      } else {
        HandlePrecommitMessage(m);
      }
    }

    /** +2/3 prevotes of round r for something else take the lock away. */
    ghost predicate Unlocks(r: nat)
      reads this
    {
      && step < COMMIT && locked.Slot? && lockedRound < r
      && OverTwoThirdsID(r, Prevote).Some? && OverTwoThirdsID(r, Prevote).value != locked.ID()
    }

    method HandlePrevoteMessage(m: VoteMessage)
      requires Valid() && !halted && m.height == height && m.vtype == Prevote
      requires EnoughVotes(m.round, Prevote)
      requires Importing() ==> CurrentImported() && (OverTwoThirdsID(round, Prevote).None? || m.round == round)
      modifies this
      ensures Valid() && old(trace) <= trace && fed == old(fed)
      ensures halted || ImportReady()
      ensures old(decided) <= decided && Onward(old(height), old(round), old(step))
      ensures Begins(old(MoveOnPrevotes(round, step, m.round, OverTwoThirdsID(m.round, Prevote), proposalPOLRound, ProposalAndPOLComplete())),
                     old(trace) + (if old(Unlocks(m.round)) then [Unlock(m.round)] else []), trace, halted)
      ensures m.round >= old(round) && old(step) < COMMIT ==> halted || Onward(old(height), m.round, PREVOTE)
      ensures m.round == old(round) && old(step) == PREVOTE ==> halted || Onward(old(height), old(round), PREVOTE_WAIT)
      ensures m.round == old(round) && old(step) in {PREVOTE, PREVOTE_WAIT} && old(OverTwoThirdsID(m.round, Prevote)).Some? ==>
                halted || Onward(old(height), old(round), PRECOMMIT)
      ensures var base := old(trace) + (if old(Unlocks(m.round)) then [Unlock(m.round)] else []);
        && (m.round > old(round) && old(step) < COMMIT ==> base < trace && trace[|base|] == EnterRound(m.round))
        && (m.round < old(round) && old(step) < PREVOTE && m.round == old(proposalPOLRound) && old(ProposalAndPOLComplete()) ==>
              base < trace && trace[|base|].EnterPrevote? && Onward(old(height), old(round), PREVOTE))
        && (m.round < old(round) && !(old(step) < PREVOTE && m.round == old(proposalPOLRound) && old(ProposalAndPOLComplete())) ==> trace == base)
        && (m.round == old(round) && old(step) == PREVOTE_WAIT && old(OverTwoThirdsID(m.round, Prevote)).None? ==> trace == base)
        && (m.round == old(round) && old(step) >= PRECOMMIT ==> trace == base)
      ensures var p := old(OverTwoThirdsID(m.round, Prevote));
        m.round == old(round) && PRECOMMIT <= old(step) < COMMIT && p.Some? && p.value.Some? ==> current.ID() == p.value
      decreases if m.round > round then 49 else 4 * (8 - step) + 1, 1
    {
      hide Valid, Legal, After, EnoughVotes, OverTwoThirdsID, MoveOnPrevotes, Begins;
      ghost var base := trace + (if Unlocks(m.round) then [Unlock(m.round)] else []);
      if step >= COMMIT {
        assert trace == base;
        LateMove(round, step, m.round, OverTwoThirdsID(m.round, Prevote), proposalPOLRound, ProposalAndPOLComplete(), trace, halted);
        return;
      }
      var p := OverTwoThirdsID(m.round, Prevote);
      if p.Some? {
        if lockedRound < m.round && locked.Slot? && locked.ID() != p.value {
          BeginUnlock(m.round);
        }
        if round == m.round && p.value.Some? {
          SetCurrent(current.SetByID(p.value.value));
        }
      }
      SameMove(round, step, m.round, p, proposalPOLRound, old(ProposalAndPOLComplete()), ProposalAndPOLComplete());
      assert trace == base;
      MoveOn(m.round);
    }

    /** +2/3 prevotes of round r move the node on. */
    method MoveOn(r: nat)
      requires Valid() && !halted && step < COMMIT && EnoughVotes(r, Prevote)
      requires Importing() ==> r == round || (CurrentImported() && OverTwoThirdsID(round, Prevote).None?)
      requires Importing() && OverTwoThirdsID(round, Prevote).None? ==> CurrentImported()
      modifies this
      ensures Valid() && old(trace) <= trace && fed == old(fed)
      ensures halted || ImportReady()
      ensures old(decided) <= decided && Onward(old(height), old(round), old(step))
      ensures Begins(old(MoveOnPrevotes(round, step, r, OverTwoThirdsID(r, Prevote), proposalPOLRound, ProposalAndPOLComplete())),
                     old(trace), trace, halted)
      ensures r >= old(round) ==> halted || Onward(old(height), r, PREVOTE)
      ensures r == old(round) && old(step) == PREVOTE ==> halted || Onward(old(height), old(round), PREVOTE_WAIT)
      ensures r == old(round) && old(step) in {PREVOTE, PREVOTE_WAIT} && old(OverTwoThirdsID(r, Prevote)).Some? ==>
                halted || Onward(old(height), old(round), PRECOMMIT)
      ensures r > old(round) ==> old(trace) < trace && trace[|old(trace)|] == EnterRound(r)
      ensures r < old(round) ==>
                if old(step) < PREVOTE && r == old(proposalPOLRound) && old(ProposalAndPOLComplete())
                then old(trace) < trace && trace[|old(trace)|].EnterPrevote? && Onward(old(height), old(round), PREVOTE) else trace == old(trace)
      ensures r == old(round) && old(step) == PREVOTE_WAIT && old(OverTwoThirdsID(r, Prevote)).None? ==> trace == old(trace)
      ensures r == old(round) && old(step) >= PRECOMMIT ==> trace == old(trace) && current == old(current)
      decreases if r > round then 49 else 4 * (8 - step) + 1, 0
    {
      hide Valid, Legal, After, EnoughVotes, OverTwoThirdsID;
      if round > r && step < PREVOTE && r == proposalPOLRound && ProposalAndPOLComplete() {
        EnterPrevote();
      } else if round == r && step < PREVOTE {
        EnterPrevote();
      } else if round == r && step == PREVOTE {
        EnterPrevoteWait();
      } else if round == r && step == PREVOTE_WAIT {
        if OverTwoThirdsID(r, Prevote).Some? { EnterPrecommit(); }
      } else if round < r {
        ResetForNewRound(r);
        EnterPrevote();
      }
    }

    method HandlePrecommitMessage(m: VoteMessage)
      requires Valid() && !halted && m.height == height && m.vtype == Precommit
      requires EnoughVotes(m.round, Precommit)
      requires ImportReady()
      modifies this
      ensures Valid() && old(trace) <= trace && fed == old(fed)
      ensures halted || ImportReady()
      ensures old(decided) <= decided && Onward(old(height), old(round), old(step))
      ensures Begins(old(MoveOnPrecommits(round, step, m.round, OverTwoThirdsID(m.round, Precommit))), old(trace), trace, halted)
      ensures old(step) < COMMIT ==> halted || Resolved(old(height), old(round), m.round, old(OverTwoThirdsID(m.round, Precommit)))
      ensures old(step) < COMMIT && m.round >= old(round) ==> halted || Onward(old(height), m.round, PRECOMMIT_WAIT)
      ensures old(step) >= COMMIT ==> trace == old(trace)
      ensures var p := old(OverTwoThirdsID(m.round, Precommit));
        m.round < old(round) && old(step) < COMMIT ==>
          if p.Some? && p.value.Some? then decided == old(decided) + [(old(height), p.value.value)] else trace == old(trace)
      ensures m.round > old(round) && old(step) < COMMIT ==> old(trace) < trace && trace[|old(trace)|] == EnterRound(m.round)
      ensures m.round == old(round) && old(step) == PRECOMMIT_WAIT && old(OverTwoThirdsID(m.round, Precommit)).None? ==> trace == old(trace)
      decreases if m.round > round then 49 else 4 * (8 - step) + 1
    {
      hide Valid, Legal, After, EnoughVotes, OverTwoThirdsID;
      if m.round < round && step < COMMIT {
        var p := OverTwoThirdsID(m.round, Precommit);
        if p.Some? && p.value.Some? { EnterCommit(p.value.value, m.round); }
      } else if round == m.round && step < PRECOMMIT {
        EnterPrecommit();
      } else if round == m.round && step == PRECOMMIT {
        EnterPrecommitWait();
      } else if round == m.round && step == PRECOMMIT_WAIT {
        var p := OverTwoThirdsID(m.round, Precommit);
        if p.Some? && p.value.Some? {
          EnterCommit(p.value.value, m.round);
        } else if p.Some? {
          EnterNewRound();
        }
      } else if round < m.round && step < COMMIT {
        ResetForNewRound(m.round);
        EnterPrecommit();
      }
    }

    // --- steps -----------------------------------------------------------------------------------

    /** +2/3 precommits of round r are still to be looked at, or were. */
    ghost predicate Settling(h: nat, r: nat, p: Option<Option<PartSetID>>)
      reads `hvs, `height, `round, `step, `decided, `halted
    {
      || halted
      || (step == PRECOMMIT && height == h && round == r && EnoughVotes(round, Precommit) && OverTwoThirdsID(round, Precommit) == p)
      || (Resolved(h, r, r, p) && Onward(h, r, PRECOMMIT_WAIT))
    }

    lemma StillSettling()
      ensures step == PRECOMMIT && EnoughVotes(round, Precommit) ==> Settling(height, round, OverTwoThirdsID(round, Precommit))
    {}

    /** This node has not voted in this round. */
    ghost predicate Fresh(t: VoteType)
      reads `hvs, `height, `round
    {
      var i := IndexOf(c.vals(height), c.me);
      i.Some? && i.value < |Votes(round, t)| && Votes(round, t)[i.value].None?
    }

    /** A first vote of its own. */
    ghost predicate Counts(m: VoteMessage)
      reads `hvs, `height, `round
    {
      m.height == height && m.round == round && m.Signer() == Some(c.me) && Fresh(m.vtype)
    }

    lemma FreshIsTaken(m: VoteMessage)
      requires Valid() && Counts(m)
      ensures Takes(m, false)
    {}

    /** A vote just cast is received like any other; its proof parts may be found wrong too. */
    method ReceiveOwn(m: VoteMessage)
      requires Valid() && !halted && m in sent && ImportReady()
      modifies this
      ensures Valid() && old(trace) <= trace && fed == old(fed)
      ensures halted || ImportReady()
      ensures old(decided) <= decided && Onward(old(height), old(round), old(step))
      ensures trace == old(trace) ==> height == old(height) && round == old(round) && step == old(step) && hvs == old(hvs)
      ensures old(Counts(m)) && !answers(old(asked)).badProof ==> old(trace) < trace && trace[|old(trace)|] == Receive(m)
      ensures m.vtype == Precommit && m.round == old(round) && old(step) == PRECOMMIT && old(EnoughVotes(round, Precommit)) ==>
                Settling(old(height), old(round), old(OverTwoThirdsID(round, Precommit)))
      decreases if m.round > round then 50 else 4 * (8 - step) + 2, 1
    {
      hide Valid, Legal, After, WithVote, EnoughVotes, OverTwoThirdsID, Accepts, Counts;
      if Counts(m) { FreshIsTaken(m); }
      if m.vtype == Precommit && m.round == round && EnoughVotes(round, Precommit) && m.Signer().Some? && m.Signer().value in c.vals(height) { StillEnough(m); }
      var answer := Ask();
      ReceiveVoteMessage(m, answer.badProof);
      if trace == old(trace) { SameState(); }
    }

    lemma StillEnough(m: VoteMessage)
      requires Valid() && m.vtype == Precommit && m.round == round && EnoughVotes(round, Precommit) && m.Signer().Some? && m.Signer().value in c.vals(height)
      ensures WithVote(m).0 && (OverTwoThirdsID(round, Precommit).Some? ==> WithVote(m).1 == OverTwoThirdsID(round, Precommit))
    {
      hide Legal, After, Sourced, Dated;
      EnoughStays(Votes(round, Precommit), IndexOf(c.vals(height), m.Signer().value).value, m);
    }

    method EnterPrevote()
      requires Valid() && !halted && step < PREVOTE
      modifies this
      ensures Valid() && old(trace) < trace && fed == old(fed)
      ensures halted || ImportReady()
      ensures old(decided) <= decided && Onward(old(height), old(round), old(step))
      ensures trace[|old(trace)|].EnterPrevote? && PrevoteAllowed(old(locked), old(current), trace[|old(trace)|].action)
      ensures Onward(old(height), old(round), PREVOTE)
      ensures var a, answer := trace[|old(trace)|].action, answers(old(asked));
        && (a.Import? <==> old(MustImport()) && !answer.importFails)
        && (a.Cast? <==> !a.Import? && c.me in c.vals(old(height)) && !answer.fails)
        && (a.Cast? && old(Fresh(Prevote)) && !answers(old(asked) + 1).badProof ==> |trace| > |old(trace)| + 1 && trace[|old(trace)| + 1] == Receive(a.vote))
      decreases 4 * 4 + 3
    {
      hide Valid, Legal, After, EnoughVotes, OverTwoThirdsID, MustImport, Fresh;
      var failed := PrevoteAndCount();
      if failed { return; }
      PolkaIsEnough(round, Prevote);
      if !halted && step == PREVOTE && EnoughVotes(round, Prevote) {
        EnterPrevoteWait();
      }
    }

    /** Casts the prevote, if there is one to cast now, and counts it like any other. */
    method PrevoteAndCount() returns (failed: bool)
      requires Valid() && !halted && step < PREVOTE
      modifies this
      ensures Valid() && old(trace) < trace && fed == old(fed) && trace[|old(trace)|].EnterPrevote?
      ensures halted || ImportReady() || (Importing() && step == PREVOTE && CurrentImported() && !failed)
      ensures old(decided) <= decided && Onward(old(height), old(round), PREVOTE)
      ensures PrevoteAllowed(old(locked), old(current), trace[|old(trace)|].action)
      ensures var a, answer := trace[|old(trace)|].action, answers(old(asked));
        && (a.Import? <==> old(MustImport()) && !answer.importFails) && (failed <==> old(MustImport()) && answer.importFails)
        && (a.Cast? <==> !a.Import? && c.me in c.vals(old(height)) && !answer.fails)
        && (a.Cast? && old(Fresh(Prevote)) && !answers(old(asked) + 1).badProof ==> |trace| > |old(trace)| + 1 && trace[|old(trace)| + 1] == Receive(a.vote))
      decreases 4 * 4 + 2, 2
    {
      hide Valid, Legal, After, EnoughVotes, OverTwoThirdsID, MustImport, Fresh;
      var answer := Ask();
      var vote;
      vote, failed := BeginPrevote(answer.fails, answer.importFails, answer.now);
      if vote.Some? { ReceiveOwn(vote.value); }
    }

    method EnterPrevoteWait()
      requires Valid() && !halted && step == PREVOTE && EnoughVotes(round, Prevote)
      requires Importing() && OverTwoThirdsID(round, Prevote).None? ==> CurrentImported()
      modifies this
      ensures Valid() && old(trace) < trace && fed == old(fed)
      ensures halted || ImportReady()
      ensures old(decided) <= decided && Onward(old(height), old(round), old(step))
      ensures trace[|old(trace)|] == Event.EnterPrevoteWait
      ensures old(OverTwoThirdsID(round, Prevote)).Some? && !halted ==>
                |trace| > |old(trace)| + 1 && trace[|old(trace)| + 1].EnterPrecommit?
      ensures Onward(old(height), old(round), if old(OverTwoThirdsID(round, Prevote)).Some? && !halted then PRECOMMIT else PREVOTE_WAIT)
      decreases 4 * 3 + 3
    {
      hide Valid, Legal, After, EnoughVotes, OverTwoThirdsID;
      BeginPrevoteWait();
      if OverTwoThirdsID(round, Prevote).Some? {
        EnterPrecommit();
      }
    }

    method EnterPrecommit()
      requires Valid() && !halted && step < PRECOMMIT
      modifies this
      ensures Valid() && old(trace) <= trace && fed == old(fed)
      ensures halted || ImportReady()
      ensures old(decided) <= decided && Onward(old(height), old(round), old(step))
      ensures old(PolkaUndecodable()) <==> trace == old(trace)
      ensures trace == old(trace) ==> halted
      ensures old(trace) != trace ==>
                trace[|old(trace)|].EnterPrecommit? && trace[|old(trace)|].have == old(HasPolkaBlock())
                && (trace[|old(trace)|].vote.Some? <==> c.me in c.vals(old(height)) && !answers(old(asked)).fails)
      ensures old(trace) != trace && trace[|old(trace)|].vote.Some? && old(Fresh(Precommit)) && !answers(old(asked) + 1).badProof ==>
                |trace| > |old(trace)| + 1 && trace[|old(trace)| + 1] == Receive(trace[|old(trace)|].vote.value)
      ensures halted || Onward(old(height), old(round), if old(EnoughVotes(round, Precommit)) then PRECOMMIT_WAIT else PRECOMMIT)
      ensures old(EnoughVotes(round, Precommit)) ==> halted || Resolved(old(height), old(round), old(round), old(OverTwoThirdsID(round, Precommit)))
      decreases 4 * 2 + 3
    {
      hide Valid, Legal, After, EnoughVotes, OverTwoThirdsID, PolkaUndecodable, HasPolkaBlock, Fresh;
      if PolkaUndecodable() {
        Halt();
        return;
      }
      PrecommitAndCount();
      if !halted && step == PRECOMMIT && EnoughVotes(round, Precommit) {
        EnterPrecommitWait();
      }
    }

    /** Casts the precommit, if this node can, and counts it like any other. */
    method PrecommitAndCount()
      requires Valid() && !halted && step < PRECOMMIT && !PolkaUndecodable()
      modifies this
      ensures Valid() && old(trace) < trace && fed == old(fed)
      ensures halted || ImportReady()
      ensures old(decided) <= decided && Onward(old(height), old(round), PRECOMMIT)
      ensures trace[|old(trace)|].EnterPrecommit? && trace[|old(trace)|].have == old(HasPolkaBlock())
      ensures trace[|old(trace)|].vote.Some? <==> c.me in c.vals(old(height)) && !answers(old(asked)).fails
      ensures trace[|old(trace)|].vote.Some? && old(Fresh(Precommit)) && !answers(old(asked) + 1).badProof ==>
                |trace| > |old(trace)| + 1 && trace[|old(trace)| + 1] == Receive(trace[|old(trace)|].vote.value)
      ensures old(EnoughVotes(round, Precommit)) ==> Settling(old(height), old(round), old(OverTwoThirdsID(round, Precommit)))
      decreases 4 * 2 + 2, 2
    {
      hide Valid, Legal, After, EnoughVotes, OverTwoThirdsID, PolkaUndecodable, HasPolkaBlock, Fresh, Settling, LockLogged, Abs, IndexOf;
      var answer := Ask();
      var vote := BeginPrecommit(answer.fails, answer.now);
      StillSettling();
      if vote.Some? { ReceiveOwn(vote.value); }
    }

    method Halt()
      requires Valid()
      modifies this`halted
      ensures Valid() && halted
    {
      halted := true;
    }

    method EnterPrecommitWait()
      requires Valid() && !halted && step == PRECOMMIT && EnoughVotes(round, Precommit)
      modifies this
      ensures Valid() && old(trace) < trace && fed == old(fed)
      ensures halted || ImportReady()
      ensures old(decided) <= decided && Onward(old(height), old(round), old(step))
      ensures trace[|old(trace)|] == Event.EnterPrecommitWait
      ensures var p := old(OverTwoThirdsID(round, Precommit));
        p.Some? ==> |trace| > |old(trace)| + 1
                    && trace[|old(trace)| + 1] == if p.value.Some? then Decide(old(round), p.value.value) else EnterRound(old(round) + 1)
      ensures Onward(old(height), old(round), PRECOMMIT_WAIT) && Resolved(old(height), old(round), old(round), old(OverTwoThirdsID(round, Precommit)))
      decreases 4 + 3
    {
      hide Valid, Legal, After, EnoughVotes, OverTwoThirdsID;
      BeginPrecommitWait();
      var p := OverTwoThirdsID(round, Precommit);
      if p.Some? && p.value.Some? {
        EnterCommit(p.value.value, round);
      } else if p.Some? {
        EnterNewRound();
      }
    }

    method EnterCommit(id: PartSetID, r: nat)
      requires Valid() && !halted && step < COMMIT && OverTwoThirdsID(r, Precommit) == Some(Some(id))
      modifies this
      ensures Valid() && old(trace) < trace && fed == old(fed) && sent == old(sent)
      ensures halted || ImportReady()
      ensures old(decided) <= decided && Onward(old(height), old(round), old(step))
      ensures trace[|old(trace)|] == Decide(r, id)
      ensures decided == old(decided) + [(old(height), id)] && Onward(old(height), old(round), COMMIT)
      ensures |trace| == |old(trace)| + 1 ==> current.ID() == Some(id) && commitRound == r
      ensures old(current).ID() == Some(id) && old(current).IsComplete() && old(current).HasValidated() && !answers(old(asked)).fails ==>
                height == old(height) + 1 && |trace| > |old(trace)| + 1 && trace[|old(trace)| + 1] == NextHeight
      ensures old(current).ID() == Some(id) && old(current).IsComplete() && !old(current).HasValidated() ==>
                (old(height), old(round)) in committing
      decreases 4
    {
      hide Valid, Legal, After, EnoughVotes, OverTwoThirdsID;
      BeginCommit(id, r);
      FindCommitted(id);
      if current.IsComplete() { CommitAndEnterNewHeight(); }
    }

    /** The committed block becomes the current one, with the parts that are there. */
    method FindCommitted(id: PartSetID)
      requires Valid()
      modifies this`current, this`asked
      ensures Valid() && current.ID() == Some(id)
      ensures old(current).ID() == Some(id) && old(current).IsComplete() ==> current == old(current) && asked == old(asked)
    {
      hide Valid, FilledFromCache;
      SetCurrent(current.SetByID(id));
      if !current.IsComplete() {
        var answer := Ask();
        SetCurrent(FilledFromCache(current, answer.parts, answer.block));
      }
    }

    /** Block parts that arrived early are taken from a cache; all of them give a block, if they can be decoded. */
    static function FilledFromCache(slot: Slot, parts: set<nat>, block: Option<BlockData>): (r: Slot)
      requires slot.Slot?
      ensures r.Slot? && r.id == slot.id && r.validated == slot.validated
      ensures forall k :: k in r.parts <==> k in slot.parts || (k in parts && k < slot.id.count)
      ensures r.block == if r.IsComplete() then block else None
    {
      var all := slot.parts + (set k: nat | k in parts && k < slot.id.count);
      Slot(slot.id, all, if |all| == slot.id.count then block else None, slot.validated)
    }

    method CommitAndEnterNewHeight()
      requires Valid() && !halted && step == COMMIT
      modifies this
      ensures Valid() && old(trace) <= trace && fed == old(fed) && sent == old(sent) && decided == old(decided)
      ensures halted || ImportReady()
      ensures old(decided) <= decided && Onward(old(height), old(round), old(step))
      ensures !old(current).HasValidated() ==>
                trace == old(trace) && committing == old(committing) + {(height, round)} && height == old(height) && round == old(round)
      ensures old(current).HasValidated() ==>
                if answers(old(asked)).fails then trace == old(trace) && halted
                else old(trace) < trace && trace[|old(trace)|] == NextHeight && height == old(height) + 1
      ensures trace == old(trace) ==> current == old(current) && commitRound == old(commitRound)
      decreases 3
    {
      hide Valid, Legal, After;
      if !current.HasValidated() {
        AwaitImport();
      } else {
        Finalize();
      }
    }

    method AwaitImport()
      requires Valid()
      modifies this`committing
      ensures Valid() && committing == old(committing) + {(height, round)}
    {
      committing := committing + {(height, round)};
    }

    method Finalize()
      requires Valid() && !halted && step == COMMIT
      modifies this
      ensures Valid() && old(trace) <= trace && fed == old(fed) && sent == old(sent) && decided == old(decided)
      ensures halted || ImportReady()
      ensures old(decided) <= decided && Onward(old(height), old(round), old(step))
      ensures if answers(old(asked)).fails then trace == old(trace) && halted && current == old(current) && commitRound == old(commitRound)
              else old(trace) < trace && trace[|old(trace)|] == NextHeight && height == old(height) + 1 && round == 0
      decreases 2
    {
      hide Valid, Legal, After;
      var answer := Ask();
      if answer.fails {
        Halt();
      } else {
        EnterNewHeight();
      }
    }

    method EnterNewHeight()
      requires Valid() && !halted && step == COMMIT
      modifies this
      ensures Valid() && old(trace) < trace && fed == old(fed) && sent == old(sent) && decided == old(decided)
      ensures halted || ImportReady()
      ensures old(decided) <= decided && Onward(old(height), old(round), old(step))
      ensures trace[|old(trace)|] == NextHeight
      ensures height == old(height) + 1 && round == 0 && locked.Zero?
      ensures if answers(old(asked)).wait then trace == old(trace) + [NextHeight] && current.Zero?
              else |trace| > |old(trace)| + 1 && trace[|old(trace)| + 1] == Event.EnterTransactionWait
      decreases 1, 2
    {
      hide Valid, Legal, After;
      BeginHeight();
      NoImportYet();
      var answer := Ask();
      if !answer.wait { EnterTransactionWait(); }
    }

    method EnterTransactionWait()
      requires Valid() && !halted && step < TRANSACTION_WAIT
      modifies this
      ensures Valid() && old(trace) < trace && fed == old(fed)
      ensures halted || ImportReady()
      ensures old(decided) <= decided && Onward(old(height), old(round), old(step))
      ensures trace[|old(trace)|] == Event.EnterTransactionWait
      ensures if answers(old(asked)).wait then trace == old(trace) + [Event.EnterTransactionWait]
              else |trace| > |old(trace)| + 1 && trace[|old(trace)| + 1].EnterPropose?
      ensures old(current.Zero?) ==> sent == old(sent) && decided == old(decided) && height == old(height) && round == old(round) && locked == old(locked)
      decreases if current.Zero? then 1 else 30, 1
    {
      hide Valid, Legal, After;
      BeginTransactionWait();
      NoImportYet();
      var answer := Ask();
      if !answer.wait { EnterPropose(); }
    }

    method EnterPropose()
      requires Valid() && !halted && step < PROPOSE
      modifies this
      ensures Valid() && old(trace) < trace && fed == old(fed)
      ensures halted || ImportReady()
      ensures old(decided) <= decided && Onward(old(height), old(round), old(step))
      ensures trace[|old(trace)|].EnterPropose?
      ensures var e, fails := trace[|old(trace)|], answers(old(asked)).fails;
        && (e.p.Some? <==> old(IsProposer()) && old(locked).Slot? && !fails)
        && (e.p.Some? ==> Some(e.p.value.parts) == old(locked).ID() && e.p.value.polRound == old(lockedRound))
        && (e.pending <==> old(IsProposer()) && old(locked).Zero? && !fails)
      ensures if !old(IsProposer()) && old(ProposalAndPOLComplete()) then |trace| > |old(trace)| + 1 && trace[|old(trace)| + 1].EnterPrevote?
              else |trace| == |old(trace)| + 1
      ensures old(current.Zero?) ==> sent == old(sent) && decided == old(decided) && height == old(height) && round == old(round) && locked == old(locked)
      decreases if current.Zero? then 1 else 30, 0
    {
      hide Valid, Legal, After;
      var answer := Ask();
      BeginPropose(answer.fails);
      NoImportYet();
      if !IsProposer() && ProposalAndPOLComplete() { EnterPrevote(); }
    }

    method EnterNewRound()
      requires Valid() && !halted && step < COMMIT
      modifies this
      ensures Valid() && old(trace) < trace && fed == old(fed) && sent == old(sent)
      ensures halted || ImportReady()
      ensures old(decided) <= decided && Onward(old(height), old(round), old(step))
      ensures trace[|old(trace)|] == EnterRound(old(round) + 1)
      ensures Onward(old(height), old(round) + 1, NEW_ROUND)
      ensures if answers(old(asked)).wait then trace == old(trace) + [EnterRound(old(round) + 1)]
              else |trace| > |old(trace)| + 1 && trace[|old(trace)| + 1].EnterPropose?
      decreases 4
    {
      hide Valid, Legal, After;
      ResetForNewRound(round + 1);
      NoImportYet();
      var answer := Ask();
      if !answer.wait { EnterPropose(); }
    }

    // --- what the environment calls --------------------------------------------------------------

    /** A timer of the current step fires. */
    method OnTimeout()
      requires Valid() && !halted && ImportReady()
      modifies this
      ensures Valid() && old(trace) <= trace && fed == old(fed)
      ensures halted || ImportReady()
      ensures old(decided) <= decided && Onward(old(height), old(round), old(step))
      ensures Begins(MoveOnTimeout(old(round), old(step)), old(trace), trace, halted)
      ensures old(step) == NEW_HEIGHT ==> old(trace) < trace && trace[|old(trace)|] == Event.EnterTransactionWait
      ensures old(step) in {TRANSACTION_WAIT, NEW_ROUND} ==> old(trace) < trace && trace[|old(trace)|].EnterPropose?
      ensures old(step) == PROPOSE ==> old(trace) < trace && trace[|old(trace)|].EnterPrevote?
      ensures old(step) == PREVOTE_WAIT ==> halted || (old(trace) < trace && trace[|old(trace)|].EnterPrecommit?)
      ensures old(step) == PRECOMMIT_WAIT ==> old(trace) < trace && trace[|old(trace)|] == EnterRound(old(round) + 1)
      ensures old(step) in {PREVOTE, PRECOMMIT, COMMIT} ==> trace == old(trace)
    {
      hide Valid, Legal, After, EnoughVotes, OverTwoThirdsID;
      if step == NEW_HEIGHT {
        EnterTransactionWait();
      } else if step < PROPOSE {
        EnterPropose();
      } else if step == PROPOSE {
        EnterPrevote();
      } else if step == PREVOTE_WAIT {
        EnterPrecommit();
      } else if step == PRECOMMIT_WAIT {
        EnterNewRound();
      }
    }

    /** The first proposal of the round's proposer, before commit. */
    predicate TakesProposal(p: Proposal)
      reads `height, `round, `step, `current
      ensures TakesProposal(p) ==> ProposerOf(c.vals(height), height, round) == Some(p.signer)
      ensures Distinct(c.vals(height)) && ProposerOf(c.vals(height), height, round) == Some(p.signer) ==>
                (TakesProposal(p) <==> p.height == height && p.round == round && step < COMMIT && current.Zero?)
    {
      && p.height == height && p.round == round && step < COMMIT && current.Zero?
      && var vals := c.vals(height);
         p.signer in vals && IndexOf(vals, p.signer).value == (height + round) % |vals|
    }

    method ReceiveProposalMessage(p: Proposal)
      requires Valid() && !halted && ImportReady()
      modifies this
      ensures Valid() && old(trace) <= trace && fed == old(fed)
      ensures halted || ImportReady()
      ensures old(decided) <= decided && Onward(old(height), old(round), old(step))
      ensures !old(TakesProposal(p)) ==> trace == old(trace) && current == old(current) && proposalPOLRound == old(proposalPOLRound)
      ensures old(TakesProposal(p)) && trace == old(trace) ==> current.ID() == Some(p.parts) && proposalPOLRound == p.polRound
      ensures trace != old(trace) ==> trace[|old(trace)|].EnterPrevote?
      ensures var slot := FilledFromCache(Slot(p.parts, {}, None, false), answers(old(asked)).parts, None);
        trace != old(trace) <==> old(TakesProposal(p)) && old(step) in {TRANSACTION_WAIT, PROPOSE} && old(HasPOL(p.polRound)) && slot.IsComplete()
    {
      hide Valid, Legal, After, EnoughVotes, OverTwoThirdsID;
      if p.height != height || p.round != round || step >= COMMIT { return; }
      var vals := c.vals(height);
      if p.signer !in vals || IndexOf(vals, p.signer).value != (height + round) % |vals| { return; }
      if current.Slot? { return; }
      var answer := Ask();
      SetProposal(p.polRound, FilledFromCache(Slot(p.parts, {}, None, false), answer.parts, answer.block));
      if (step == TRANSACTION_WAIT || step == PROPOSE) && ProposalAndPOLComplete() {
        EnterPrevote();
      }
    }

    method SetProposal(polRound: int, slot: Slot)
      requires Valid()
      modifies this`proposalPOLRound, this`current
      ensures Valid() && proposalPOLRound == polRound && current == slot
    {
      proposalPOLRound := polRound;
      current := slot;
    }

    /** A part that the current part set still misses. */
    predicate TakesPart(h: nat, owner: PartSetID, index: nat)
      reads `height, `current
    {
      h == height && current.Slot? && !current.IsComplete() && owner == current.id && index < owner.count && index !in current.parts
    }

    /** A block part; `owner` is the part set its proof leads to, `block` what the parts decode into when all are there. */
    method ReceiveBlockPart(h: nat, owner: PartSetID, index: nat, block: Option<BlockData>)
      requires Valid() && !halted && ImportReady()
      modifies this
      ensures Valid() && old(trace) <= trace && fed == old(fed)
      ensures halted || ImportReady()
      ensures old(decided) <= decided && Onward(old(height), old(round), old(step))
      ensures !old(TakesPart(h, owner, index)) ==> trace == old(trace) && current == old(current)
      ensures old(TakesPart(h, owner, index)) && trace == old(trace) ==>
                current.ID() == Some(owner) && current.parts == old(current).parts + {index}
      ensures trace != old(trace) ==>
                if old(step) == COMMIT then trace[|old(trace)|] == NextHeight
                else trace[|old(trace)|].EnterPrevote?
      ensures old(step) != COMMIT ==>
                (trace != old(trace) <==> old(TakesPart(h, owner, index)) && old(step) in {TRANSACTION_WAIT, PROPOSE}
                                          && |old(current).parts| + 1 == owner.count && old(HasPOL(proposalPOLRound)))
      ensures old(step) == COMMIT && old(TakesPart(h, owner, index)) && |old(current).parts| + 1 == owner.count ==>
                if old(current).validated then (trace != old(trace) <==> !answers(old(asked)).fails)
                else (old(height), old(round)) in committing
    {
      hide Valid, Legal, After, EnoughVotes, OverTwoThirdsID;
      if h != height { return; }
      if current.Zero? || current.IsComplete() { return; }
      if owner != current.id || index >= owner.count || index in current.parts { return; }
      var parts := current.parts + {index};
      SetCurrent(Slot(owner, parts, if |parts| == owner.count then block else current.block, current.validated));
      if (step == TRANSACTION_WAIT || step == PROPOSE) && ProposalAndPOLComplete() {
        EnterPrevote();
      } else if step == COMMIT && current.IsComplete() {
        CommitAndEnterNewHeight();
      }
    }

    /** Drops the outstanding import and casts the prevote that waited for it. */
    method BeginImported(cast: bool, slot: Slot, fails: bool, now: int) returns (vote: Option<VoteMessage>)
      requires Valid() && (height, round) in importing && step < COMMIT
      requires cast ==> step <= PREVOTE_WAIT
      requires slot.Slot? ==> slot.HasBlock()
      modifies this`importing, this`sent, this`roundWAL, this`synced, this`trace
      ensures Valid() && (height, round) !in importing
      ensures trace == old(trace) + [Event.Imported(vote)]
      ensures vote.Some? <==> cast && c.me in c.vals(height) && !fails
      ensures vote.Some? ==> vote.value in sent && vote.value.PartSet() == slot.ID()
      ensures vote.Some? ==> vote.value.height == height && vote.value.round == round && vote.value.vtype == Prevote && vote.value.Signer() == Some(c.me)
    {
      hide Legal, After, Sourced, Dated;
      importing := importing - {(height, round)};
      vote := None;
      if cast { vote := Sign(Prevote, slot, fails, now); }
      Post(vote);
      Record(Event.Imported(vote));
    }

    /** The callback of the import started at height h and round r, with the block it was started with: the
        prevote it casts is for that block, which is still the current one as long as it may be prevoted. */
    method OnImported(h: nat, r: nat, result: Option<(BlockData, PartSetID)>)
      requires Valid() && !halted && ImportReady() && (h, r) in importing && (h, r) in imports
      requires result.Some? ==> result.value == imports[(h, r)]
      modifies this
      ensures Valid() && old(trace) <= trace && fed == old(fed)
      ensures halted || ImportReady()
      ensures old(decided) <= decided && Onward(old(height), old(round), old(step))
      ensures trace == old(trace) <==> (h, r) != old((height, round)) || old(step) >= COMMIT
      ensures old(trace) != trace ==> trace[|old(trace)|].Imported?
      ensures old(trace) != trace ==>
                (trace[|old(trace)|].vote.Some? <==> old(step) <= PREVOTE_WAIT && c.me in c.vals(h) && !answers(old(asked)).fails)
      ensures old(trace) != trace && trace[|old(trace)|].vote.Some? && old(Fresh(Prevote)) && !answers(old(asked) + 1).badProof ==>
                |trace| > |old(trace)| + 1 && trace[|old(trace)| + 1] == Receive(trace[|old(trace)|].vote.value)
      ensures old(trace) != trace && result.Some? && trace[|old(trace)|].vote.Some? ==>
                trace[|old(trace)|].vote.value.PartSet() == Some(result.value.1)
      ensures old(trace) != trace && old(step) > PREVOTE_WAIT ==> trace[|old(trace)|] == Event.Imported(None)
      ensures old(trace) != trace && result.None? && trace[|old(trace)|].vote.Some? ==>
                trace[|old(trace)|].vote.value.PartSet().None?
    {
      hide Valid, Legal, After, EnoughVotes, OverTwoThirdsID, Fresh;
      if height != h || round != r || step >= COMMIT { return; }
      var vote := FinishImport(result);
      if vote.Some? { ReceiveOwn(vote.value); }
    }

    /** Marks the block as validated and casts the prevote that waited for it, if it is not too late. */
    method FinishImport(result: Option<(BlockData, PartSetID)>) returns (vote: Option<VoteMessage>)
      requires Valid() && ImportReady() && step < COMMIT && (height, round) in importing && (height, round) in imports
      requires result.Some? ==> result.value == imports[(height, round)]
      modifies this`current, this`asked, this`importing, this`sent, this`roundWAL, this`synced, this`trace
      ensures Valid() && ImportReady() && trace == old(trace) + [Event.Imported(vote)]
      ensures vote.Some? <==> step <= PREVOTE_WAIT && c.me in c.vals(height) && !answers(old(asked)).fails
      ensures vote.Some? ==> vote.value in sent && vote.value.PartSet() == if result.Some? then Some(result.value.1) else None
      ensures vote.Some? ==> vote.value.height == height && vote.value.round == round && vote.value.vtype == Prevote && vote.value.Signer() == Some(c.me)
      ensures asked == old(asked) + 1
    {
      hide Valid, Legal, After, EnoughVotes, OverTwoThirdsID;
      var slot: Slot := Zero;
      if result.Some? {
        var (blk, id) := result.value;
        if current.HasBlock() && current.block.value.id == blk.id {
          SetCurrent(Slot(id, Indices(id.count), Some(blk), true));
        }
        if step <= PREVOTE_WAIT { slot := current; }
      }
      var answer := Ask();
      vote := BeginImported(step <= PREVOTE_WAIT, slot, answer.fails, answer.now);
    }

    /** The proposed block, if any, is announced and put into the current slot. */
    method BeginProposed(p: Option<Proposal>, slot: Slot)
      requires Valid() && (height, round) in proposing && step == PROPOSE
      requires p.Some? ==> p.value.height == height && p.value.round == round && p.value.signer == c.me
      modifies this`proposing, this`proposals, this`roundWAL, this`synced, this`current, this`trace
      ensures Valid() && (height, round) !in proposing && trace == old(trace) + [Event.Proposed(p)]
      ensures current == slot
    {
      hide Legal, After, Sourced, Dated;
      proposing := proposing - {(height, round)};
      PostProposal(p);
      current := slot;
      Record(Event.Proposed(p));
    }

    /** The callback of a block proposal. */
    method OnProposed(h: nat, r: nat, result: Option<(BlockData, PartSetID)>)
      requires Valid() && !halted && ImportReady() && (h, r) in proposing
      modifies this
      ensures Valid() && old(trace) <= trace && fed == old(fed)
      ensures halted || ImportReady()
      ensures old(decided) <= decided && Onward(old(height), old(round), old(step))
      ensures trace == old(trace) <==> (h, r) != old((height, round)) || old(step) != PROPOSE
      ensures trace != old(trace) ==> |trace| > |old(trace)| + 1 && trace[|old(trace)| + 1].EnterPrevote? && trace[|old(trace)|].Proposed?
      ensures trace != old(trace) ==>
                trace[|old(trace)|].p == if result.Some? && !answers(old(asked)).fails then Some(Proposal(h, r, result.value.1, -1, c.me)) else None
    {
      hide Valid, Legal, After, EnoughVotes, OverTwoThirdsID;
      if height != h || round != r || step != PROPOSE { return; }
      if result.None? {
        BeginProposed(None, current);
      } else {
        var (blk, id) := result.value;
        var answer := Ask();
        BeginProposed(if answer.fails then None else Some(Proposal(height, round, id, -1, c.me)),
                      Slot(id, Indices(id.count), Some(blk), true));
      }
      EnterPrevote();
    }

    /** The callback of the import of a committed block. */
    method OnCommitImported(h: nat, r: nat, result: Option<(BlockData, PartSetID)>)
      requires Valid() && !halted && ImportReady() && (h, r) in committing
      modifies this
      ensures Valid() && old(trace) <= trace && fed == old(fed) && sent == old(sent) && decided == old(decided)
      ensures halted || ImportReady()
      ensures old(decided) <= decided && Onward(old(height), old(round), old(step))
      ensures (h, r) != old((height, round)) || old(step) != COMMIT ==> trace == old(trace) && !halted
      ensures (h, r) == old((height, round)) && old(step) == COMMIT ==>
                if result.None? || answers(old(asked)).fails then trace == old(trace) && halted
                else old(trace) < trace && trace[|old(trace)|] == NextHeight && height == h + 1
    {
      hide Valid, Legal, After, EnoughVotes, OverTwoThirdsID;
      if height != h || round != r || step != COMMIT { return; }
      if result.None? { Halt(); return; }
      var (blk, id) := result.value;
      SetCurrent(Slot(id, Indices(id.count), Some(blk), true));
      Finalize();
    }

    method NoteDecision(id: PartSetID, r: nat)
      requires Valid() && step == COMMIT && OverTwoThirdsID(r, Precommit) == Some(Some(id))
      modifies this`decided, this`trace
      ensures Valid() && decided == old(decided) + [(height, id)] && trace == old(trace) + [Decide(r, id)]
    {
      hide Legal, After, Sourced, Dated, Winner, WinnerUpTo;
      decided := decided + [(height, id)];
      Record(Decide(r, id));
    }

    /** The node still needs the block, all the votes are of validators, and with them +2/3 precommits are for it. */
    ghost predicate Convinces(id: PartSetID, r: nat, votes: seq<VoteMessage>)
      requires Sized(hvs, |c.vals(height)|)
      reads `hvs, `height, `step, `current
    {
      && !(step == COMMIT && current.IsComplete()) && AllValidators(c.vals(height), votes)
      && IDOf(AddedAll(Votes(r, Precommit), Indexed(c.vals(height), votes))) == Some(Some(id))
    }

    /** A block of this height from fast sync, with the precommits of its certificate. Whatever is
        decided has +2/3 precommits of that round in this node's own book. */
    method ReceiveBlock(id: PartSetID, blk: BlockData, r: nat, votes: seq<VoteMessage>)
      requires Valid() && !halted && ImportReady()
      requires forall k :: 0 <= k < |votes| ==> votes[k].height == height && votes[k].round == r && votes[k].vtype == Precommit
      modifies this
      ensures Valid() && old(trace) <= trace && fed == old(fed) + (set m | m in votes)
      ensures halted || ImportReady()
      ensures old(decided) <= decided && Onward(old(height), old(round), old(step))
      ensures decided == if old(Convinces(id, r, votes)) then old(decided) + [(old(height), id)] else old(decided)
    {
      hide Valid, Legal, After, EnoughVotes, IDOf, AddedAll, Indexed, AllValidators;
      Feed(set m | m in votes);
      if step == COMMIT && current.IsComplete() { return; }
      var ok := AddCertificate(r, votes);
      if !ok { return; }
      if OverTwoThirdsID(r, Precommit) == Some(Some(id)) { CommitTo(id, blk, r); }
    }

    method CommitTo(id: PartSetID, blk: BlockData, r: nat)
      requires Valid() && !halted && ImportReady() && step <= COMMIT && OverTwoThirdsID(r, Precommit) == Some(Some(id))
      modifies this
      ensures Valid() && old(trace) < trace && fed == old(fed) && trace[|old(trace)|] == Decide(r, id)
      ensures halted || ImportReady()
      ensures old(decided) <= decided && Onward(old(height), old(round), old(step))
      ensures decided == old(decided) + [(old(height), id)]
    {
      hide Valid, Legal, After, EnoughVotes, OverTwoThirdsID;
      SetCurrent(Slot(id, Indices(id.count), Some(blk), current.ID() == Some(id) && current.validated));
      if step < COMMIT {
        EnterCommit(id, r);
      } else {
        NoteDecision(id, r);
        CommitAndEnterNewHeight();
      }
    }

    method AddCertificate(r: nat, votes: seq<VoteMessage>) returns (ok: bool)
      requires Valid() && ImportReady()
      requires forall k :: 0 <= k < |votes| ==> votes[k].height == height && votes[k].round == r && votes[k].vtype == Precommit
      requires forall k :: 0 <= k < |votes| ==> votes[k] in fed
      modifies this`hvs, this`trace
      ensures Valid() && ImportReady() && old(trace) <= trace && step <= COMMIT
      ensures ok <==> AllValidators(c.vals(height), votes)
      ensures ok ==> Votes(r, Precommit) == AddedAll(old(Votes(r, Precommit)), Indexed(c.vals(height), votes))
    {
      hide Legal, After, EnoughVotes, OverTwoThirdsID, Sourced, Dated, IndexOf, AddedAll, Added, Indexed, Accepts, CurrentImported, Abs;
      AddedNone(Votes(r, Precommit), c.vals(height));
      assert votes[..0] == [];
      ghost var vals, was := c.vals(height), Votes(r, Precommit);
      for k := 0 to |votes|
        invariant Valid() && ImportReady() && old(trace) <= trace
        invariant AllValidators(vals, votes[..k])
        invariant Votes(r, Precommit) == AddedAll(was, Indexed(vals, votes[..k]))
      {
        if votes[k].Signer().None? || votes[k].Signer().value !in c.vals(height) { return false; }
        ghost var before := Votes(r, Precommit);
        var _ := AddVote(votes[k]);
        AddedNext(was, vals, votes, k, before, Votes(r, Precommit));
      }
      assert votes[..|votes|] == votes;
      return true;
    }

    // --- restart ---------------------------------------------------------------------------------

    /** Adds the votes of a logged list to a book. */
    method ApplyVotes(h: nat, a: Replay, ms: seq<VoteMessage>, all: bool) returns (b: Replay)
      requires Sized(a.votes, |c.vals(h)|)
      ensures b == ReplayVotes(c, h, a, ms, all)
    {
      b := a;
      for k := 0 to |ms|
        invariant b == ReplayVotes(c, h, a, ms[..k], all)
      {
        assert ms[..k + 1][..k] == ms[..k];
        var m := ms[k];
        if (m.height == h || all) && m.Signer().Some? && m.Signer().value in c.vals(h) {
          b := b.(votes := AddTo(b.votes, |c.vals(h)|, IndexOf(c.vals(h), m.Signer().value).value, m));
        }
      }
      assert ms[..|ms|] == ms;
    }

    method ApplyRoundWAL(h: nat, recs: seq<Record>) returns (a: Replay)
      ensures a == ReplayLog(c, h, EMPTY, RoundLog, recs)
    {
      a := EMPTY;
      for k := 0 to |recs|
        invariant Sized(a.votes, |c.vals(h)|)
        invariant a == ReplayLog(c, h, EMPTY, RoundLog, recs[..k])
      {
        assert recs[..k + 1][..k] == recs[..k];
        match recs[k] {
          case OwnProposal(p) =>
            if p.height == h && p.signer == c.me
               && (a.round < p.round || (a.round == p.round && a.step <= PROPOSE))
            {
              a := a.(round := p.round, step := PROPOSE);
            }
          case OneVote(m) =>
            if m.height == h && m.Signer() == Some(c.me) && c.me in c.vals(h) {
              var mstep := if m.vtype == Prevote then PREVOTE else PRECOMMIT;
              var forward := a.round < m.round || (a.round == m.round && a.step <= mstep);
              a := a.(votes := AddTo(a.votes, |c.vals(h)|, IndexOf(c.vals(h), c.me).value, m));
              if forward { a := a.(round := m.round, step := mstep); }
            }
          case VoteList(ms) =>
            a := ApplyVotes(h, a, ms, false);
            if ms != [] && ms[0].height == h { a := Advance(c, h, a, ms[0]); }
          case BlockPart(_, _, _) =>
        }
      }
      assert recs[..|recs|] == recs;
    }

    method ApplyLockWAL(h: nat, start: Replay, recs: seq<Record>) returns (a: Replay)
      requires Sized(start.votes, |c.vals(h)|)
      ensures a == ReplayLog(c, h, start, LockLog, recs)
    {
      hide Winner, WinnerUpTo;
      a := start;
      for k := 0 to |recs|
        invariant Sized(a.votes, |c.vals(h)|)
        invariant a == ReplayLog(c, h, start, LockLog, recs[..k])
      {
        assert recs[..k + 1][..k] == recs[..k];
        match recs[k] {
          case VoteList(ms) =>
            a := ApplyVotes(h, a, ms, false);
            if ms != [] && ms[0].height == h {
              var w := Winner(VotesFor(a.votes, |c.vals(h)|, ms[0].round, Prevote));
              if w.Some? && w.value.PartSet().Some? {
                a := a.(filling := Some((w.value.PartSet().value, ms[0].round, {})));
              }
              a := Advance(c, h, a, ms[0]);
            }
          case BlockPart(ph, owner, index) =>
            if ph == h && a.filling.Some? && a.filling.value.0 == owner && index < owner.count && index !in a.filling.value.2 {
              var parts := a.filling.value.2 + {index};
              a := a.(filling := Some((owner, a.filling.value.1, parts)));
              if |parts| == owner.count { a := a.(lock := Some((owner, a.filling.value.1))); }
            }
          case _ =>
        }
      }
      assert recs[..|recs|] == recs;
    }

    method ApplyCommitWAL(h: nat, start: Replay, recs: seq<Record>) returns (a: Replay)
      requires Sized(start.votes, |c.vals(h)|)
      ensures a == ReplayLog(c, h, start, CommitLog, recs)
    {
      a := start;
      for k := 0 to |recs|
        invariant Sized(a.votes, |c.vals(h)|)
        invariant a == ReplayLog(c, h, start, CommitLog, recs[..k])
      {
        assert recs[..k + 1][..k] == recs[..k];
        match recs[k] {
          case VoteList(ms) =>
            if ms != [] && ms[0].height == h {
              a := ApplyVotes(h, a, ms, true);
              a := Advance(c, h, a, ms[0]);
            }
          case _ =>
        }
      }
      assert recs[..|recs|] == recs;
    }

    method ReplayLogs(h: nat, rw: seq<Record>, lw: seq<Record>, cw: seq<Record>) returns (r: Replay)
      ensures r == ReplayAll(c, h, rw, lw, cw)
    {
      hide ReplayLog;
      r := ApplyRoundWAL(h, rw);
      r := ApplyLockWAL(h, r, lw);
      r := ApplyCommitWAL(h, r, cw);
    }

    /** Rebuilds the fields from the logs. */
    method Load(h: nat, rw: seq<Record>, lw: seq<Record>, cw: seq<Record>)
      modifies this`height, this`round, this`step, this`hvs, this`lockedRound, this`locked, this`proposalPOLRound,
               this`current, this`commitRound, this`importing, this`proposing, this`committing,
               this`roundWAL, this`synced, this`lockWAL, this`commitWAL
      ensures Abs() == Restarted(c, old(Abs()), h, rw, lw, cw)
      ensures importing == {} && (locked.Slot? ==> locked.HasBlock())
      ensures lockWAL == lw && commitWAL == cw
    {
      hide ReplayAll, Sized, ReplayLog, Abs;
      var r := ReplayLogs(h, rw, lw, cw);
      var block: BlockData := *;
      var slot := if r.lock.Some? then Slot(r.lock.value.0, Indices(r.lock.value.0.count), Some(block), false) else Zero;
      MoveTo(h, r.round, r.step, r.votes);
      Mount(slot, if r.lock.Some? then r.lock.value.1 else -1);
      ReopenRoundLog(rw);
      ReopenOtherLogs(lw, cw);
    }

    method ReopenRoundLog(rw: seq<Record>)
      modifies this`importing, this`proposing, this`roundWAL, this`synced
      ensures importing == {}
      ensures Abs() == old(Abs()).(importing := {}, proposing := {}, roundWAL := rw, synced := |rw|)
    {
      importing, proposing := {}, {};
      roundWAL, synced := rw, |rw|;
    }

    method ReopenOtherLogs(lw: seq<Record>, cw: seq<Record>)
      modifies this`committing, this`lockWAL, this`commitWAL
      ensures committing == {} && lockWAL == lw && commitWAL == cw
      ensures Abs() == old(Abs())
    {
      committing := {};
      lockWAL, commitWAL := lw, cw;
    }

    /** The process died and starts again at height h. The first `kept` records of the round log are
        read back, which are at least the synced ones; of the other logs, anything may be left. */
    method Restart(h: nat, kept: nat, lockRecs: seq<Record>, commitRecs: seq<Record>)
      requires Valid() && (h == height || (h == height + 1 && step == COMMIT))
      requires synced <= kept <= |roundWAL|
      modifies this
      ensures Valid() && fed == old(fed) && sent == old(sent) && lockWAL == lockRecs && commitWAL == commitRecs
      ensures trace == old(trace) + [Event.Restart(h, kept, lockRecs, commitRecs)]
      ensures halted || ImportReady()
    {
      hide Legal, After, Sourced, Dated, ReplayAll;
      Load(h, roundWAL[..kept], lockRecs, commitRecs);
      halted := false;
      ReplayStepBound(c, h, roundWAL, lockRecs, commitRecs);
      Record(Event.Restart(h, kept, lockRecs, commitRecs));
    }

    method Resume()
      requires Valid() && !halted && ImportReady() && !Importing()
      modifies this
      ensures Valid() && old(trace) <= trace && fed == old(fed)
      ensures halted || ImportReady()
      ensures old(decided) <= decided && Onward(old(height), old(round), old(step))
      ensures Begins(old(MoveOnResume(round, step, EnoughVotes(round, Prevote), EnoughVotes(round, Precommit))), old(trace), trace, halted)
      ensures old(step) == NEW_HEIGHT && old(round) == 0 ==> old(trace) < trace && trace[|old(trace)|] == Event.EnterTransactionWait
      ensures old(step) == NEW_HEIGHT && old(round) > 0 ==> old(trace) < trace && trace[|old(trace)|].EnterPropose?
      ensures old(step) == PROPOSE ==> old(trace) < trace && trace[|old(trace)|].EnterPrevote? && Onward(old(height), old(round), PREVOTE)
      ensures old(step) == PREVOTE && old(EnoughVotes(round, Prevote)) ==>
                Onward(old(height), old(round), if old(OverTwoThirdsID(round, Prevote)).Some? && !halted then PRECOMMIT else PREVOTE_WAIT)
      ensures old(step) == PRECOMMIT && old(EnoughVotes(round, Precommit)) ==>
                Onward(old(height), old(round), PRECOMMIT_WAIT) && Resolved(old(height), old(round), old(round), old(OverTwoThirdsID(round, Precommit)))
      ensures old(step) == PREVOTE && !old(EnoughVotes(round, Prevote)) ==> trace == old(trace)
      ensures old(step) == PRECOMMIT && !old(EnoughVotes(round, Precommit)) ==> trace == old(trace)
      ensures old(step) !in {NEW_HEIGHT, PROPOSE, PREVOTE, PRECOMMIT} ==> trace == old(trace)
    {
      hide Valid, Legal, After, EnoughVotes, OverTwoThirdsID;
      if step == NEW_HEIGHT && round == 0 {
        EnterTransactionWait();
      } else if step == NEW_HEIGHT {
        EnterPropose();
      } else if step == PROPOSE {
        EnterPrevote();
      } else if step == PREVOTE {
        if EnoughVotes(round, Prevote) { EnterPrevoteWait(); }
      } else if step == PRECOMMIT {
        if EnoughVotes(round, Precommit) { EnterPrecommitWait(); }
      }
    }
  }
}
