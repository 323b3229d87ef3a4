/** What every run of one node keeps, restarts included: votes are cast in strictly increasing
    order (so no two for the same height, round and type), and the lock always has its +2/3 prevotes. */
module NodeSafety {
  import opened Votes
  import opened Quorum
  import opened VoteSets
  import opened Node

  // --- runs ------------------------------------------------------------------------------------

  /** es can happen, in this order, from a fresh start at height h. */
  ghost predicate Legal(c: Node, h: nat, es: seq<Event>)
    decreases |es|, 0
  {
    es == [] || (Legal(c, h, es[..|es| - 1]) && Enabled(c, After(c, h, es[..|es| - 1]), es[|es| - 1]))
  }

  ghost function After(c: Node, h: nat, es: seq<Event>): State
    requires Legal(c, h, es)
    decreases |es|, 1
  {
    if es == [] then Start(h) else Next(c, After(c, h, es[..|es| - 1]), es[|es| - 1])
  }

  lemma LegalStep(c: Node, h: nat, es: seq<Event>, e: Event)
    requires Legal(c, h, es)
    requires Enabled(c, After(c, h, es), e)
    ensures Legal(c, h, es + [e]) && After(c, h, es + [e]) == Next(c, After(c, h, es), e)
  {
    assert (es + [e])[..|es|] == es;
  }

  // --- invariants ------------------------------------------------------------------------------

  predicate Reached(s: State, h: nat, r: nat, st: nat) {
    h < s.height || (h == s.height && !Before(s.round, s.step, r, st))
  }

  predicate Later(a: VoteMessage, b: VoteMessage) {
    a.height < b.height || (a.height == b.height && Before(a.round, StepOf(a.vtype), b.round, StepOf(b.vtype)))
  }

  predicate LaterProposal(a: Proposal, b: Proposal) {
    a.height < b.height || (a.height == b.height && a.round < b.round)
  }

  /** The lock and the proof of lock. */
  ghost predicate LockInv(c: Node, s: State) {
    && Sized(s.votes, |c.vals(s.height)|)
    && (s.lockedRound >= 0 <==> s.locked.Some?)
    && (s.locked.Some? ==> Polka(c, s, s.lockedRound, Prevote) == Some(s.locked))
  }

  ghost predicate NoPrevoteAt(s: State, h: nat, r: nat) {
    forall v :: v in s.sent && v.vtype == Prevote ==> !(v.height == h && v.round == r)
  }

  ghost predicate VoteInv(c: Node, s: State) {
    && s.step <= COMMIT
    && (forall i, j :: 0 <= i < j < |s.sent| ==> Later(s.sent[i], s.sent[j]))
    && (forall v :: v in s.sent ==>
          Reached(s, v.height, v.round, StepOf(v.vtype)) && v.Signer() == Some(c.me) && c.me in c.vals(v.height))
    && (forall p :: p in s.importing ==> Reached(s, p.0, p.1, PREVOTE))
    && ((s.height, s.round) in s.importing ==> NoPrevoteAt(s, s.height, s.round))
  }

  ghost predicate ProposalInv(c: Node, s: State) {
    && (forall i, j :: 0 <= i < j < |s.proposals| ==> LaterProposal(s.proposals[i], s.proposals[j]))
    && (forall p :: p in s.proposals ==> Reached(s, p.height, p.round, PROPOSE) && p.signer == c.me)
    && (forall p :: p in s.proposing ==> Reached(s, p.0, p.1, PROPOSE))
    && ((s.height, s.round) in s.proposing ==> forall p :: p in s.proposals ==> !(p.height == s.height && p.round == s.round))
  }

  /** Everything sent has been synced; no empty list was logged (its replay would fail). */
  ghost predicate LogInv(c: Node, s: State) {
    && s.synced <= |s.roundWAL|
    && (forall v :: v in s.sent ==> OneVote(v) in s.roundWAL[..s.synced])
    && (forall p :: p in s.proposals ==> OwnProposal(p) in s.roundWAL[..s.synced])
    && (forall k :: 0 <= k < |s.roundWAL| ==> s.roundWAL[k] != VoteList([]))
  }

  ghost predicate Inv(c: Node, s: State) {
    LockInv(c, s) && VoteInv(c, s) && ProposalInv(c, s) && LogInv(c, s)
  }

  // --- preservation ----------------------------------------------------------------------------

  lemma AddKeepsPolka(b: Book, n: nat, i: nat, m: VoteMessage, r: nat, t: VoteType)
    requires Sized(b, n) && i < n
    requires Winner(VotesFor(b, n, r, t)).Some?
    ensures Winner(VotesFor(AddTo(b, n, i, m), n, r, t)) == Winner(VotesFor(b, n, r, t))
  {
    if (m.round, m.vtype) == (r, t) {
      WinnerStable(VotesFor(b, n, r, t), Winner(VotesFor(b, n, r, t)).value, i, m);
    }
  }

  lemma LockStep(c: Node, s: State, e: Event)
    requires LockInv(c, s) && Enabled(c, s, e)
    ensures LockInv(c, Next(c, s, e))
  {
    match e
    case Receive(m) =>
      if s.locked.Some? {
        AddKeepsPolka(s.votes, |c.vals(s.height)|, IndexOf(c.vals(s.height), m.Signer().value).value, m, s.lockedRound, Prevote);
      }
    case EnterRound(r) =>
    case Restart(h, kept, lw, cw) =>
      ReplayLockHolds(c, h, s.roundWAL[..kept], lw, cw);
    case _ =>
  }

  /** The position of a node: height, round and step. */
  predicate Forward(s: State, s': State) { Reached(s', s.height, s.round, s.step) && s'.step <= COMMIT }

  lemma ForwardKeepsVotes(c: Node, s: State, s': State)
    requires VoteInv(c, s) && Forward(s, s') && s'.sent == s.sent && s'.importing <= s.importing
    ensures VoteInv(c, s')
  {}

  lemma CastKeepsVotes(c: Node, s: State, v: VoteMessage)
    requires VoteInv(c, s) && IsOwn(c, s, v.vtype, v) && Reached(s, v.height, v.round, StepOf(v.vtype))
    requires v.vtype == Prevote ==> (s.height, s.round) !in s.importing
    requires forall w :: w in s.sent ==> Later(w, v)
    ensures VoteInv(c, Cast1(s, Some(v)))
  {}

  lemma {:induction false} VoteStep(c: Node, s: State, e: Event)
    requires Inv(c, s) && Enabled(c, s, e)
    ensures VoteInv(c, Next(c, s, e))
  {
    hide LockInv, ProposalInv, Polka, LockAfter, PrecommitFor, ReplayAll, AddTo, Pruned, Present;
    var s' := Next(c, s, e);
    match e
    case EnterPrevote(a) =>
      ForwardKeepsVotes(c, s, s.(step := PREVOTE));
      if a.Cast? { CastKeepsVotes(c, s.(step := PREVOTE), a.vote); }
    case Imported(v) =>
      var s1 := s.(importing := s.importing - {(s.height, s.round)});
      ForwardKeepsVotes(c, s, s1);
      if v.Some? { CastKeepsVotes(c, s1, v.value); }
    case EnterPrecommit(have, v) =>
      var l := LockAfter(c, s, have);
      var s1 := s.(step := PRECOMMIT, lockedRound := l.0, locked := l.1);
      ForwardKeepsVotes(c, s, s1);
      if v.Some? { CastKeepsVotes(c, s1, v.value); }
    case Restart(h, kept, lw, cw) =>
      forall v | v in s.sent && v.height == h
        ensures Reached(s', v.height, v.round, StepOf(v.vtype))
      {
        assert OneVote(v) in s.roundWAL[..kept] by { assert OneVote(v) in s.roundWAL[..s.synced]; }
        ReplayReachesVote(c, h, s.roundWAL[..kept], lw, cw, v);
      }
      ReplayStepBound(c, h, s.roundWAL[..kept], lw, cw);
    case _ => ForwardKeepsVotes(c, s, s');
  }

  lemma ForwardKeepsProposals(c: Node, s: State, s': State)
    requires ProposalInv(c, s) && Forward(s, s') && s'.proposals == s.proposals && s'.proposing <= s.proposing
    ensures ProposalInv(c, s')
  {}

  lemma CastKeepsProposals(c: Node, s: State, p: Proposal)
    requires ProposalInv(c, s) && IsOwnProposal(c, s, p) && s.step >= PROPOSE && (s.height, s.round) !in s.proposing
    requires forall q :: q in s.proposals ==> LaterProposal(q, p)
    ensures ProposalInv(c, Cast1Proposal(s, Some(p)))
  {}

  lemma ProposalStep(c: Node, s: State, e: Event)
    requires Inv(c, s) && Enabled(c, s, e)
    ensures ProposalInv(c, Next(c, s, e))
  {
    hide LockInv, Polka, LockAfter, PrecommitFor, ReplayAll, AddTo, Pruned, Present;
    var s' := Next(c, s, e);
    match e
    case EnterPropose(p, pending) =>
      ForwardKeepsProposals(c, s, s.(step := PROPOSE));
      if p.Some? { CastKeepsProposals(c, s.(step := PROPOSE), p.value); }
    case Proposed(p) =>
      var s1 := s.(proposing := s.proposing - {(s.height, s.round)});
      ForwardKeepsProposals(c, s, s1);
      if p.Some? { CastKeepsProposals(c, s1, p.value); }
    case Restart(h, kept, lw, cw) =>
      forall p | p in s.proposals && p.height == h
        ensures Reached(s', p.height, p.round, PROPOSE)
      {
        assert OwnProposal(p) in s.roundWAL[..kept] by { assert OwnProposal(p) in s.roundWAL[..s.synced]; }
        ReplayReachesProposal(c, h, s.roundWAL[..kept], lw, cw, p);
      }
    case _ => ForwardKeepsProposals(c, s, s');
  }

  /** The log only grows by records that are not empty lists; what is sent is synced. */
  lemma LogStep(c: Node, s: State, e: Event)
    requires Inv(c, s) && Enabled(c, s, e)
    ensures LogInv(c, Next(c, s, e))
  {
    hide LockInv, VoteInv, ProposalInv, LogInv, Next, Enabled;
    LogShape(c, s, e);
    ShapeKeepsLog(c, s, Next(c, s, e));
  }

  /** The log keeps its synced part and grows by one record at a time; a message is sent after its record is synced. */
  ghost predicate LogGrows(s: State, s': State) {
    && s'.synced <= |s'.roundWAL|
    && ((s'.roundWAL <= s.roundWAL && s.synced <= s'.synced && s'.sent == s.sent && s'.proposals == s.proposals)
        || (|s'.roundWAL| == |s.roundWAL| + 1 && s.roundWAL < s'.roundWAL && s.synced <= s'.synced
            && var rec := s'.roundWAL[|s.roundWAL|];
               && rec != VoteList([])
               && (forall v :: v in s'.sent ==> v in s.sent || (rec == OneVote(v) && s'.synced == |s'.roundWAL|))
               && (forall p :: p in s'.proposals ==> p in s.proposals || (rec == OwnProposal(p) && s'.synced == |s'.roundWAL|))))
  }

  lemma LogShape(c: Node, s: State, e: Event)
    requires Inv(c, s) && Enabled(c, s, e)
    ensures LogGrows(s, Next(c, s, e))
  {
    hide LockInv, VoteInv, ProposalInv, Polka, LockAfter, PrecommitFor, ReplayAll, AddTo, Pruned, VoteListOf;
  }

  lemma ShapeKeepsLog(c: Node, s: State, s': State)
    requires LogInv(c, s) && LogGrows(s, s')
    ensures LogInv(c, s')
  {
    assert forall x :: x in s.roundWAL[..s.synced] ==> x in s'.roundWAL[..s'.synced] by {
      assert s'.roundWAL[..s'.synced][..s.synced] == s.roundWAL[..s.synced];
    }
    assert |s'.roundWAL| > |s.roundWAL| && s'.synced > |s.roundWAL| ==> s'.roundWAL[|s.roundWAL|] in s'.roundWAL[..s'.synced];
  }

  lemma InvStep(c: Node, s: State, e: Event)
    requires Inv(c, s) && Enabled(c, s, e)
    ensures Inv(c, Next(c, s, e))
  {
    LockStep(c, s, e);
    VoteStep(c, s, e);
    ProposalStep(c, s, e);
    LogStep(c, s, e);
  }

  lemma {:induction false} InvRun(c: Node, h: nat, es: seq<Event>)
    requires Legal(c, h, es)
    ensures Inv(c, After(c, h, es))
  {
    if es != [] {
      InvRun(c, h, es[..|es| - 1]);
      InvStep(c, After(c, h, es[..|es| - 1]), es[|es| - 1]);
    }
  }

  // --- replay ----------------------------------------------------------------------------------

  ghost predicate AtLeast(a: Replay, r: nat, st: nat) { !Before(a.round, a.step, r, st) }

  lemma RecordAdvances(c: Node, h: nat, a: Replay, log: Log, rec: Record)
    requires Sized(a.votes, |c.vals(h)|)
    ensures AtLeast(ReplayRecord(c, h, a, log, rec), a.round, a.step)
    ensures a.step <= COMMIT ==> ReplayRecord(c, h, a, log, rec).step <= COMMIT
  {}

  lemma {:induction false} LogAdvances(c: Node, h: nat, a: Replay, log: Log, recs: seq<Record>)
    requires Sized(a.votes, |c.vals(h)|)
    ensures AtLeast(ReplayLog(c, h, a, log, recs), a.round, a.step)
    ensures a.step <= COMMIT ==> ReplayLog(c, h, a, log, recs).step <= COMMIT
  {
    if recs != [] {
      LogAdvances(c, h, a, log, recs[..|recs| - 1]);
      RecordAdvances(c, h, ReplayLog(c, h, a, log, recs[..|recs| - 1]), log, recs[|recs| - 1]);
    }
  }

  const EMPTY: Replay := Replay(0, NEW_HEIGHT, map[], None, None)

  /** The round log alone brings the node to every own record of this height that it holds. */
  lemma {:induction false} RoundLogReaches(c: Node, h: nat, recs: seq<Record>, k: nat)
    requires k < |recs|
    ensures recs[k].OneVote? && recs[k].vote.height == h && recs[k].vote.Signer() == Some(c.me) && c.me in c.vals(h)
            ==> AtLeast(ReplayLog(c, h, EMPTY, RoundLog, recs), recs[k].vote.round, StepOf(recs[k].vote.vtype))
    ensures recs[k].OwnProposal? && recs[k].proposal.height == h && recs[k].proposal.signer == c.me
            ==> AtLeast(ReplayLog(c, h, EMPTY, RoundLog, recs), recs[k].proposal.round, PROPOSE)
  {
    var front := recs[..|recs| - 1];
    if k < |recs| - 1 {
      RoundLogReaches(c, h, front, k);
      RecordAdvances(c, h, ReplayLog(c, h, EMPTY, RoundLog, front), RoundLog, recs[|recs| - 1]);
    }
  }

  lemma ReplayAdvances(c: Node, h: nat, rw: seq<Record>, lw: seq<Record>, cw: seq<Record>)
    ensures AtLeast(ReplayAll(c, h, rw, lw, cw), ReplayLog(c, h, EMPTY, RoundLog, rw).round, ReplayLog(c, h, EMPTY, RoundLog, rw).step)
  {
    var a := ReplayLog(c, h, EMPTY, RoundLog, rw);
    LogAdvances(c, h, a, LockLog, lw);
    LogAdvances(c, h, ReplayLog(c, h, a, LockLog, lw), CommitLog, cw);
  }

  lemma ReplayStepBound(c: Node, h: nat, rw: seq<Record>, lw: seq<Record>, cw: seq<Record>)
    ensures ReplayAll(c, h, rw, lw, cw).step <= COMMIT
  {
    var a := ReplayLog(c, h, EMPTY, RoundLog, rw);
    LogAdvances(c, h, EMPTY, RoundLog, rw);
    LogAdvances(c, h, a, LockLog, lw);
    LogAdvances(c, h, ReplayLog(c, h, a, LockLog, lw), CommitLog, cw);
  }

  /** A restart resumes at or after every vote of this height in the round log, whatever is left of
      the other two logs. */
  lemma ReplayReachesVote(c: Node, h: nat, rw: seq<Record>, lw: seq<Record>, cw: seq<Record>, v: VoteMessage)
    requires OneVote(v) in rw && v.height == h && v.Signer() == Some(c.me) && c.me in c.vals(h)
    ensures AtLeast(ReplayAll(c, h, rw, lw, cw), v.round, StepOf(v.vtype))
  {
    var k :| 0 <= k < |rw| && rw[k] == OneVote(v);
    RoundLogReaches(c, h, rw, k);
    ReplayAdvances(c, h, rw, lw, cw);
  }

  lemma ReplayReachesProposal(c: Node, h: nat, rw: seq<Record>, lw: seq<Record>, cw: seq<Record>, p: Proposal)
    requires OwnProposal(p) in rw && p.height == h && p.signer == c.me
    ensures AtLeast(ReplayAll(c, h, rw, lw, cw), p.round, PROPOSE)
  {
    var k :| 0 <= k < |rw| && rw[k] == OwnProposal(p);
    RoundLogReaches(c, h, rw, k);
    ReplayAdvances(c, h, rw, lw, cw);
  }

  /** Both the part set being filled and the completed one have their +2/3 prevotes in the book. */
  ghost predicate ReplayInv(c: Node, h: nat, a: Replay) {
    && Sized(a.votes, |c.vals(h)|)
    && (a.filling.Some? ==> HasPolka(c, h, a.votes, a.filling.value.1, a.filling.value.0))
    && (a.lock.Some? ==> HasPolka(c, h, a.votes, a.lock.value.1, a.lock.value.0))
  }

  ghost predicate HasPolka(c: Node, h: nat, b: Book, r: nat, id: PartSetID) {
    var w := Winner(VotesFor(b, |c.vals(h)|, r, Prevote));
    w.Some? && w.value.PartSet() == Some(id)
  }

  lemma {:induction false} VotesKeepPolka(c: Node, h: nat, a: Replay, ms: seq<VoteMessage>, all: bool, r: nat, id: PartSetID)
    requires Sized(a.votes, |c.vals(h)|) && HasPolka(c, h, a.votes, r, id)
    ensures HasPolka(c, h, ReplayVotes(c, h, a, ms, all).votes, r, id)
  {
    if ms != [] {
      VotesKeepPolka(c, h, a, ms[..|ms| - 1], all, r, id);
      VoteKeepsPolka(c, h, ReplayVotes(c, h, a, ms[..|ms| - 1], all), ms[|ms| - 1], r, id);
    }
  }

  lemma VoteKeepsPolka(c: Node, h: nat, a: Replay, m: VoteMessage, r: nat, id: PartSetID)
    requires Sized(a.votes, |c.vals(h)|) && HasPolka(c, h, a.votes, r, id)
    ensures HasPolka(c, h, ReplayVote(c, h, a, m).votes, r, id)
  {
    if m.Signer().Some? && m.Signer().value in c.vals(h) {
      AddKeepsPolka(a.votes, |c.vals(h)|, IndexOf(c.vals(h), m.Signer().value).value, m, r, Prevote);
    }
  }

  /** Reading a record keeps any +2/3 prevotes in the book. */
  lemma RecordKeepsPolka(c: Node, h: nat, a: Replay, log: Log, rec: Record, r: nat, id: PartSetID)
    requires Sized(a.votes, |c.vals(h)|) && HasPolka(c, h, a.votes, r, id)
    ensures HasPolka(c, h, ReplayRecord(c, h, a, log, rec).votes, r, id)
  {
    hide HasPolka, AddTo, Winner, WinnerUpTo;
    if rec.OneVote? { VoteKeepsPolka(c, h, a, rec.vote, r, id); }
    if rec.VoteList? { VotesKeepPolka(c, h, a, rec.votes, log.CommitLog?, r, id); }
  }

  lemma RecordKeepsPolkas(c: Node, h: nat, a: Replay, log: Log, rec: Record)
    requires ReplayInv(c, h, a)
    ensures ReplayInv(c, h, ReplayRecord(c, h, a, log, rec))
  {
    hide WinnerUpTo, ReplayVotes, AddTo;
    if a.filling.Some? { RecordKeepsPolka(c, h, a, log, rec, a.filling.value.1, a.filling.value.0); }
    if a.lock.Some? { RecordKeepsPolka(c, h, a, log, rec, a.lock.value.1, a.lock.value.0); }
  }

  lemma {:induction false} LogKeepsPolkas(c: Node, h: nat, a: Replay, log: Log, recs: seq<Record>)
    requires ReplayInv(c, h, a)
    ensures ReplayInv(c, h, ReplayLog(c, h, a, log, recs))
  {
    if recs != [] {
      LogKeepsPolkas(c, h, a, log, recs[..|recs| - 1]);
      RecordKeepsPolkas(c, h, ReplayLog(c, h, a, log, recs[..|recs| - 1]), log, recs[|recs| - 1]);
    }
  }

  /** A lock rebuilt from the logs comes with its +2/3 prevotes. */
  lemma ReplayLockHolds(c: Node, h: nat, rw: seq<Record>, lw: seq<Record>, cw: seq<Record>)
    ensures ReplayInv(c, h, ReplayAll(c, h, rw, lw, cw))
  {
    var a := ReplayLog(c, h, EMPTY, RoundLog, rw);
    LogKeepsPolkas(c, h, EMPTY, RoundLog, rw);
    LogKeepsPolkas(c, h, a, LockLog, lw);
    LogKeepsPolkas(c, h, ReplayLog(c, h, a, LockLog, lw), CommitLog, cw);
  }

  // --- dates ---------------------------------------------------------------------------------------

  /** Precommits are cast with dates that fit their blocks. */
  ghost predicate DatedEvents(es: seq<Event>, times: Hash -> int, iota: int) {
    forall k :: 0 <= k < |es| && es[k].EnterPrecommit? && es[k].vote.Some? ==> DatedAfter(es[k].vote.value, times, iota)
  }

  /** What an event casts is a prevote, or the precommit of entering that step. */
  lemma CastKind(c: Node, s: State, e: Event)
    requires Enabled(c, s, e)
    ensures forall v :: v in s.sent ==> v in Next(c, s, e).sent
    ensures forall v :: v in Next(c, s, e).sent ==> v in s.sent || v.vtype == Prevote || (e.EnterPrecommit? && e.vote == Some(v))
    ensures e.EnterPrecommit? && e.vote.Some? ==> e.vote.value in Next(c, s, e).sent
  {
    hide ReplayAll, VoteListOf, Pruned, AddTo, Present, Winner, LockAfter;
  }

  /** So a run that casts them so has sent them so, */
  lemma {:induction false} DatedSent(c: Node, h: nat, es: seq<Event>, times: Hash -> int, iota: int)
    requires Legal(c, h, es) && DatedEvents(es, times, iota)
    ensures forall v :: v in After(c, h, es).sent ==> DatedAfter(v, times, iota)
  {
    if es != [] {
      hide Enabled, Next;
      var front, e := es[..|es| - 1], es[|es| - 1];
      DatedSent(c, h, front, times, iota);
      CastKind(c, After(c, h, front), e);
    }
  }

  /** and every precommit cast was sent. */
  lemma {:induction false} CastWasSent(c: Node, h: nat, es: seq<Event>, k: nat)
    requires Legal(c, h, es) && k < |es| && es[k].EnterPrecommit? && es[k].vote.Some?
    ensures es[k].vote.value in After(c, h, es).sent
  {
    hide Enabled, Next;
    var front, e := es[..|es| - 1], es[|es| - 1];
    CastKind(c, After(c, h, front), e);
    if k < |front| { CastWasSent(c, h, front, k); }
  }

  // --- theorems --------------------------------------------------------------------------------

  /** In every run, crashes and replays included, a node casts at most one prevote and one precommit
      per height and round. */
  lemma {:induction false} NonEquivocation(c: Node, h: nat, es: seq<Event>)
    requires Legal(c, h, es)
    ensures var sent := After(c, h, es).sent;
      forall i, j :: 0 <= i < |sent| && 0 <= j < |sent|
                     && sent[i].height == sent[j].height && sent[i].round == sent[j].round && sent[i].vtype == sent[j].vtype
                     ==> i == j
  {
    InvRun(c, h, es);
  }

  /** The same for proposals. */
  lemma {:induction false} OneProposalPerRound(c: Node, h: nat, es: seq<Event>)
    requires Legal(c, h, es)
    ensures var ps := After(c, h, es).proposals;
      forall i, j :: 0 <= i < |ps| && 0 <= j < |ps| && ps[i].height == ps[j].height && ps[i].round == ps[j].round ==> i == j
  {
    InvRun(c, h, es);
  }

  /** In every reachable state a round is locked exactly when a block is, and the vote book still
      holds +2/3 prevotes for that block in that round: a locked proposer can attach its proof. */
  lemma {:induction false} ProofOfLockKept(c: Node, h: nat, es: seq<Event>)
    requires Legal(c, h, es)
    ensures
      var s := After(c, h, es);
      && (s.lockedRound >= 0 <==> s.locked.Some?)
      && (s.locked.Some? ==> Polka(c, s, s.lockedRound, Prevote) == Some(s.locked))
  {
    InvRun(c, h, es);
  }
}
