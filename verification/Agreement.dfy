/** Any number of honest nodes, any faulty ones below a third of each validator list, any order of
    events and deliveries, and restarts that keep a lock: at each height all honest nodes commit the same block.

    A faulty validator may sign anything at any time; nobody can forge an honest signature. The log
    lists every vote cast by an honest node in the order they were cast; it is a ghost of the run. */
module Agreement {
  import opened Votes
  import opened Quorum
  import opened VoteSets
  import opened Node
  import opened NodeSafety

  datatype Net = Net(lists: map<nat, seq<Address>>, honest: set<Address>)
  {
    function vals(h: nat): seq<Address> { if h in lists then lists[h] else [] }
  }

  datatype System = System(nodes: map<Address, State>, log: seq<VoteMessage>)

  // --- votes cast so far -----------------------------------------------------------------------

  /** The message can exist: its signer is faulty, or has signed exactly this ballot. */
  ghost predicate Authentic(net: Net, log: seq<VoteMessage>, m: VoteMessage) {
    && m.Signer().Some?
    && (m.Signer().value in net.honest ==>
          exists v :: v in log && v.Signer() == m.Signer() && v.SignedBallot() == m.SignedBallot())
  }

  ghost predicate IsVote(v: VoteMessage, a: Address, h: nat, r: nat, t: VoteType, p: Option<PartSetID>) {
    v.Signer() == Some(a) && v.height == h && v.round == r && v.vtype == t && v.PartSet() == p
  }

  ghost predicate HasVoted(log: seq<VoteMessage>, a: Address, h: nat, r: nat, t: VoteType, p: Option<PartSetID>) {
    exists v :: v in log && IsVote(v, a, h, r, t, p)
  }

  /** Validators who can be counted for p: the faulty ones and those who voted for it. */
  ghost function Supporters(net: Net, log: seq<VoteMessage>, h: nat, r: nat, t: VoteType, p: Option<PartSetID>): set<nat> {
    set i: nat | i < |net.vals(h)| && (net.vals(h)[i] in net.honest ==> HasVoted(log, net.vals(h)[i], h, r, t, p))
  }

  ghost predicate CanWin(net: Net, log: seq<VoteMessage>, h: nat, r: nat, t: VoteType, p: Option<PartSetID>) {
    OverTwoThirds(|Supporters(net, log, h, r, t, p)|, |net.vals(h)|)
  }

  ghost function Faulty(net: Net, h: nat): set<nat> {
    set i: nat | i < |net.vals(h)| && net.vals(h)[i] !in net.honest
  }

  /** A later round has +2/3 prevotes for something else. */
  ghost predicate Overruled(net: Net, log: seq<VoteMessage>, h: nat, r: nat, p: PartSetID) {
    exists r', q :: r' > r && q != Some(p) && CanWin(net, log, h, r', Prevote, q)
  }

  // --- steps and runs --------------------------------------------------------------------------

  ghost predicate RecordAuthentic(net: Net, log: seq<VoteMessage>, rec: Record) {
    match rec
    case OneVote(m) => Authentic(net, log, m)
    case VoteList(ms) => forall m :: m in ms ==> Authentic(net, log, m)
    case _ => true
  }

  ghost predicate LogAuthentic(net: Net, log: seq<VoteMessage>, recs: seq<Record>) {
    forall i :: 0 <= i < |recs| ==> RecordAuthentic(net, log, recs[i])
  }

  /** Lists of the commit log are of one height. */
  ghost predicate OneHeight(recs: seq<Record>, h: nat) {
    forall i, m :: 0 <= i < |recs| && recs[i].VoteList? && m in recs[i].votes && recs[i].votes[0].height == h ==> m.height == h
  }

  /** What is read back was once written: votes that exist, and commit lists of one height. */
  ghost predicate ReadsBack(net: Net, log: seq<VoteMessage>, e: Event)
    requires e.Restart?
  {
    LogAuthentic(net, log, e.lockWAL) && LogAuthentic(net, log, e.commitWAL) && OneHeight(e.commitWAL, e.h)
  }

  /** A node that was locked is locked on the same block in the same round again. */
  predicate KeepsLock(s: State, s': State) {
    s.height == s'.height && s.locked.Some? ==> s'.locked == s.locked && s'.lockedRound == s.lockedRound
  }

  /** What an honest node can do next. */
  ghost predicate Possible(net: Net, s: System, a: Address, e: Event) {
    && a in net.honest && a in s.nodes
    && (e.Receive? ==> Authentic(net, s.log, e.m))
    && (e.Restart? ==> ReadsBack(net, s.log, e))
    && Enabled(Node(a, net.lists), s.nodes[a], e)
  }

  /** The same, with restarts that keep a lock only. */
  ghost predicate CanAct(net: Net, s: System, a: Address, e: Event) {
    Possible(net, s, a, e) && (e.Restart? ==> KeepsLock(s.nodes[a], Next(Node(a, net.lists), s.nodes[a], e)))
  }

  ghost function Act(net: Net, s: System, a: Address, e: Event): System
    requires Possible(net, s, a, e)
  {
    var n := Next(Node(a, net.lists), s.nodes[a], e);
    System(s.nodes[a := n], s.log + n.sent[if |s.nodes[a].sent| <= |n.sent| then |s.nodes[a].sent| else 0..])
  }

  ghost predicate Run(net: Net, start: map<Address, nat>, acts: seq<(Address, Event)>)
    decreases |acts|, 0
  {
    if acts == [] then start.Keys == net.honest
    else Run(net, start, acts[..|acts| - 1])
         && CanAct(net, Reach(net, start, acts[..|acts| - 1]), acts[|acts| - 1].0, acts[|acts| - 1].1)
  }

  /** The system after the run; each honest node starts at a height of its own. */
  ghost function Reach(net: Net, start: map<Address, nat>, acts: seq<(Address, Event)>): System
    requires Run(net, start, acts)
    decreases |acts|, 1
  {
    if acts == [] then System(map a | a in start :: Start(start[a]), [])
    else Act(net, Reach(net, start, acts[..|acts| - 1]), acts[|acts| - 1].0, acts[|acts| - 1].1)
  }

  // --- invariants ------------------------------------------------------------------------------

  ghost predicate BookOk(net: Net, log: seq<VoteMessage>, s: State) { VotesOk(net, log, s.height, s.votes) }

  ghost predicate VotesOk(net: Net, log: seq<VoteMessage>, h: nat, votes: Book) {
    forall k, i :: k in votes && 0 <= i < |votes[k]| && votes[k][i].Some? ==>
      EntryOk(net, log, h, k.0, k.1, i, votes[k][i].value)
  }

  ghost predicate EntryOk(net: Net, log: seq<VoteMessage>, h: nat, r: nat, t: VoteType, i: nat, m: VoteMessage) {
    && m.height == h && m.round == r && m.vtype == t
    && m.Signer().Some? && IndexOf(net.vals(h), m.Signer().value) == Some(i)
    && Authentic(net, log, m)
  }

  /** An import whose result may still be prevoted runs only while unlocked. */
  ghost predicate LockTimely(s: State) {
    (s.height, s.round) in s.importing && s.step <= PREVOTE_WAIT ==> s.locked.None?
  }

  /** A precommitted block stays locked unless a later round overrules it. */
  ghost predicate LockHeld(net: Net, log: seq<VoteMessage>, s: State) {
    forall v :: v in s.sent && v.height == s.height && v.vtype == Precommit && v.PartSet().Some? ==>
      || (s.locked == v.PartSet() && s.lockedRound >= v.round)
      || Overruled(net, log, v.height, v.round, v.PartSet().value)
  }

  ghost predicate DecidedOk(net: Net, log: seq<VoteMessage>, s: State) {
    forall d :: d in s.decided ==> exists r :: CanWin(net, log, d.0, r, Precommit, Some(d.1))
  }

  /** What holds of a node whatever its restarts do to its lock. */
  ghost predicate NodeBase(net: Net, log: seq<VoteMessage>, a: Address, s: State) {
    && Inv(Node(a, net.lists), s)
    && BookOk(net, log, s)
    && LogAuthentic(net, log, s.roundWAL)
    && (forall v :: v in log && v.Signer() == Some(a) <==> v in s.sent)
  }

  ghost predicate NodeOk(net: Net, log: seq<VoteMessage>, a: Address, s: State) {
    && NodeBase(net, log, a, s)
    && LockTimely(s)
    && LockHeld(net, log, s)
    && DecidedOk(net, log, s)
  }

  /** The vote at position j contradicts no earlier precommit that was not yet overruled. */
  ghost predicate PrevoteJustified(net: Net, log: seq<VoteMessage>, j: nat)
    requires j < |log|
  {
    log[j].vtype == Prevote ==>
      forall i :: 0 <= i < j && log[i].Signer() == log[j].Signer() && log[i].vtype == Precommit
                  && log[i].height == log[j].height && log[i].round < log[j].round
                  && log[i].PartSet().Some? && log[i].PartSet() != log[j].PartSet() ==>
        Overruled(net, log[..j], log[i].height, log[i].round, log[i].PartSet().value)
  }

  /** Each validator votes in order. */
  ghost predicate LogOrdered(log: seq<VoteMessage>) {
    forall i, j :: 0 <= i < j < |log| && log[i].Signer() == log[j].Signer() ==> Later(log[i], log[j])
  }

  ghost predicate LogOk(net: Net, log: seq<VoteMessage>) {
    && LogOrdered(log)
    && (forall j :: 0 <= j < |log| ==> PrevoteJustified(net, log, j))
    && (forall v :: v in log && v.vtype == Precommit && v.PartSet().Some? ==>
          CanWin(net, log, v.height, v.round, Prevote, v.PartSet()))
  }

  ghost predicate BaseOk(net: Net, s: System) {
    && s.nodes.Keys == net.honest
    && (forall a :: a in s.nodes ==> NodeBase(net, s.log, a, s.nodes[a]))
    && LogOrdered(s.log)
  }

  ghost predicate SystemOk(net: Net, s: System) {
    && s.nodes.Keys == net.honest
    && (forall a :: a in s.nodes ==> NodeOk(net, s.log, a, s.nodes[a]))
    && LogOk(net, s.log)
  }

  // --- monotonicity ----------------------------------------------------------------------------

  ghost predicate Extends(log: seq<VoteMessage>, log': seq<VoteMessage>) { forall v :: v in log ==> v in log' }

  lemma SupportGrows(net: Net, log: seq<VoteMessage>, log': seq<VoteMessage>, h: nat, r: nat, t: VoteType, p: Option<PartSetID>)
    requires Extends(log, log') && CanWin(net, log, h, r, t, p)
    ensures CanWin(net, log', h, r, t, p)
  {
    SubsetCard(Supporters(net, log, h, r, t, p), Supporters(net, log', h, r, t, p));
  }

  lemma OverruledGrows(net: Net, log: seq<VoteMessage>, log': seq<VoteMessage>, h: nat, r: nat, p: PartSetID)
    requires Extends(log, log') && Overruled(net, log, h, r, p)
    ensures Overruled(net, log', h, r, p)
  {
    var r', q :| r' > r && q != Some(p) && CanWin(net, log, h, r', Prevote, q);
    SupportGrows(net, log, log', h, r', Prevote, q);
  }

  lemma AuthenticGrows(net: Net, log: seq<VoteMessage>, log': seq<VoteMessage>, m: VoteMessage)
    requires Extends(log, log') && Authentic(net, log, m)
    ensures Authentic(net, log', m)
  {
    if m.Signer().value in net.honest {
      var v :| v in log && v.Signer() == m.Signer() && v.SignedBallot() == m.SignedBallot();
      assert v in log';
    }
  }

  lemma BookGrows(net: Net, log: seq<VoteMessage>, log': seq<VoteMessage>, s: State)
    requires Extends(log, log') && BookOk(net, log, s)
    ensures BookOk(net, log', s)
  {
    forall k, i | k in s.votes && 0 <= i < |s.votes[k]| && s.votes[k][i].Some?
      ensures EntryOk(net, log', s.height, k.0, k.1, i, s.votes[k][i].value)
    {
      AuthenticGrows(net, log, log', s.votes[k][i].value);
    }
  }

  lemma LogGrows(net: Net, log: seq<VoteMessage>, log': seq<VoteMessage>, recs: seq<Record>)
    requires Extends(log, log') && LogAuthentic(net, log, recs)
    ensures LogAuthentic(net, log', recs)
  {
    forall i | 0 <= i < |recs| ensures RecordAuthentic(net, log', recs[i]) {
      match recs[i]
      case OneVote(m) => AuthenticGrows(net, log, log', m);
      case VoteList(ms) => forall m | m in ms ensures Authentic(net, log', m) { AuthenticGrows(net, log, log', m); }
      case _ =>
    }
  }

  lemma LockHeldGrows(net: Net, log: seq<VoteMessage>, log': seq<VoteMessage>, s: State)
    requires Extends(log, log') && LockHeld(net, log, s)
    ensures LockHeld(net, log', s)
  {
    forall v | v in s.sent && v.height == s.height && v.vtype == Precommit && v.PartSet().Some?
               && Overruled(net, log, v.height, v.round, v.PartSet().value)
      ensures Overruled(net, log', v.height, v.round, v.PartSet().value)
    {
      OverruledGrows(net, log, log', v.height, v.round, v.PartSet().value);
    }
  }

  lemma DecidedGrows(net: Net, log: seq<VoteMessage>, log': seq<VoteMessage>, s: State)
    requires Extends(log, log') && DecidedOk(net, log, s)
    ensures DecidedOk(net, log', s)
  {
    forall d | d in s.decided ensures exists r :: CanWin(net, log', d.0, r, Precommit, Some(d.1)) {
      var r :| CanWin(net, log, d.0, r, Precommit, Some(d.1));
      SupportGrows(net, log, log', d.0, r, Precommit, Some(d.1));
    }
  }

  // --- one step --------------------------------------------------------------------------------

  /** +2/3 in a book is +2/3 among the votes really cast. */
  lemma WinnerIsReal(net: Net, log: seq<VoteMessage>, h: nat, votes: Book, r: nat, t: VoteType, d: Decision)
    requires VotesOk(net, log, h, votes) && Sized(votes, |net.vals(h)|) && Wins(VotesFor(votes, |net.vals(h)|, r, t), d)
    ensures CanWin(net, log, h, r, t, d.PartSet())
  {
    var msgs := VotesFor(votes, |net.vals(h)|, r, t);
    forall i | i in Voters(msgs, d) ensures i in Supporters(net, log, h, r, t, d.PartSet()) {
      assert (r, t) in votes;
      EntryCounts(net, log, h, r, t, i, votes[(r, t)][i].value);
    }
    SubsetCard(Voters(msgs, d), Supporters(net, log, h, r, t, d.PartSet()));
  }

  lemma EntryCounts(net: Net, log: seq<VoteMessage>, h: nat, r: nat, t: VoteType, i: nat, m: VoteMessage)
    requires EntryOk(net, log, h, r, t, i, m)
    ensures i in Supporters(net, log, h, r, t, m.PartSet())
  {
    if net.vals(h)[i] in net.honest {
      var v :| v in log && v.Signer() == m.Signer() && v.SignedBallot() == m.SignedBallot();
      assert IsVote(v, net.vals(h)[i], h, r, t, m.PartSet());
    }
  }

  /** +2/3 in a node's own book is +2/3 among the votes really cast. */
  lemma PolkaIsReal(net: Net, log: seq<VoteMessage>, a: Address, s: State, r: nat, t: VoteType)
    requires BookOk(net, log, s) && Sized(s.votes, |net.vals(s.height)|)
    requires Polka(Node(a, net.lists), s, r, t).Some?
    ensures CanWin(net, log, s.height, r, t, Polka(Node(a, net.lists), s, r, t).value)
  {
    WinnerIsReal(net, log, s.height, s.votes, r, t, Winner(Tally(Node(a, net.lists), s, r, t)).value);
  }

  /** A replayed vote enters the book at the place of its signer. */
  lemma ReplayedVoteOk(net: Net, log: seq<VoteMessage>, a: Address, h: nat, b: Replay, m: VoteMessage)
    requires Sized(b.votes, |net.vals(h)|) && VotesOk(net, log, h, b.votes) && m.height == h && Authentic(net, log, m)
    ensures VotesOk(net, log, h, ReplayVote(Node(a, net.lists), h, b, m).votes)
  {
    var b' := ReplayVote(Node(a, net.lists), h, b, m);
    if m.Signer().value in net.vals(h) {
      var i := IndexOf(net.vals(h), m.Signer().value).value;
      var was := VotesFor(b.votes, |net.vals(h)|, m.round, m.vtype);
      forall k, j | k in b'.votes && 0 <= j < |b'.votes[k]| && b'.votes[k][j].Some?
        ensures EntryOk(net, log, h, k.0, k.1, j, b'.votes[k][j].value)
      {
        if k == (m.round, m.vtype) {
          if b'.votes[k][j] != Some(m) || j != i { assert was[j] == b'.votes[k][j]; }
        } else {
          assert b.votes[k] == b'.votes[k];
        }
      }
    }
  }

  lemma {:induction false} ReplayedVotesOk(net: Net, log: seq<VoteMessage>, a: Address, h: nat, b: Replay, ms: seq<VoteMessage>, all: bool)
    requires Sized(b.votes, |net.vals(h)|) && VotesOk(net, log, h, b.votes) && (forall m :: m in ms ==> Authentic(net, log, m))
    requires all ==> forall m :: m in ms ==> m.height == h
    ensures VotesOk(net, log, h, ReplayVotes(Node(a, net.lists), h, b, ms, all).votes)
  {
    if ms != [] {
      hide VotesOk, ReplayVote;
      var m := ms[|ms| - 1];
      ReplayedVotesOk(net, log, a, h, b, ms[..|ms| - 1], all);
      if m.height == h || all {
        ReplayedVoteOk(net, log, a, h, ReplayVotes(Node(a, net.lists), h, b, ms[..|ms| - 1], all), m);
      }
    }
  }

  lemma ReplayedRecordOk(net: Net, log: seq<VoteMessage>, a: Address, h: nat, b: Replay, wal: Log, rec: Record)
    requires Sized(b.votes, |net.vals(h)|) && VotesOk(net, log, h, b.votes) && RecordAuthentic(net, log, rec)
    requires wal == CommitLog && rec.VoteList? && rec.votes != [] && rec.votes[0].height == h ==> forall m :: m in rec.votes ==> m.height == h
    ensures VotesOk(net, log, h, ReplayRecord(Node(a, net.lists), h, b, wal, rec).votes)
  {
    hide VotesOk, ReplayVotes, ReplayVote;
    match rec
    case OneVote(m) => if m.height == h { ReplayedVoteOk(net, log, a, h, b, m); }
    case VoteList(ms) =>
      if wal != CommitLog || (ms != [] && ms[0].height == h) { ReplayedVotesOk(net, log, a, h, b, ms, wal == CommitLog); }
    case _ =>
  }

  lemma {:induction false} ReplayedLogOk(net: Net, log: seq<VoteMessage>, a: Address, h: nat, b: Replay, wal: Log, recs: seq<Record>)
    requires Sized(b.votes, |net.vals(h)|) && VotesOk(net, log, h, b.votes) && LogAuthentic(net, log, recs)
    requires wal == CommitLog ==> OneHeight(recs, h)
    ensures VotesOk(net, log, h, ReplayLog(Node(a, net.lists), h, b, wal, recs).votes)
  {
    if recs != [] {
      hide VotesOk, ReplayRecord;
      var front, rec := recs[..|recs| - 1], recs[|recs| - 1];
      ReplayedLogOk(net, log, a, h, b, wal, front);
      ReplayedRecordOk(net, log, a, h, ReplayLog(Node(a, net.lists), h, b, wal, front), wal, rec);
    }
  }

  lemma RestartBookOk(net: Net, log: seq<VoteMessage>, a: Address, h: nat, rw: seq<Record>, lw: seq<Record>, cw: seq<Record>)
    requires LogAuthentic(net, log, rw) && LogAuthentic(net, log, lw) && LogAuthentic(net, log, cw) && OneHeight(cw, h)
    ensures VotesOk(net, log, h, ReplayAll(Node(a, net.lists), h, rw, lw, cw).votes)
  {
    hide ReplayLog, LogAuthentic, OneHeight;
    var c, e := Node(a, net.lists), Replay(0, NEW_HEIGHT, map[], None, None);
    var x := ReplayLog(c, h, e, RoundLog, rw);
    ReplayedLogOk(net, log, a, h, e, RoundLog, rw);
    ReplayedLogOk(net, log, a, h, x, LockLog, lw);
    ReplayedLogOk(net, log, a, h, ReplayLog(c, h, x, LockLog, lw), CommitLog, cw);
  }

  /** The round log keeps to votes that exist. */
  lemma LogStepOk(net: Net, log: seq<VoteMessage>, a: Address, s: State, e: Event, log': seq<VoteMessage>)
    requires BookOk(net, log, s) && LogAuthentic(net, log, s.roundWAL) && Enabled(Node(a, net.lists), s, e) && Extends(log, log')
    requires var s' := Next(Node(a, net.lists), s, e); forall v :: v in s'.sent ==> v in log' && v.Signer().Some?
    ensures LogAuthentic(net, log', Next(Node(a, net.lists), s, e).roundWAL)
  {
    hide BookOk;
    var s' := Next(Node(a, net.lists), s, e);
    LogGrows(net, log, log', s.roundWAL);
    if e.EnterPrevoteWait? { ListAuthentic(net, log, log', a, s, s.round, Prevote); }
    if e.EnterPrecommitWait? { ListAuthentic(net, log, log', a, s, s.round, Precommit); }
    forall i | 0 <= i < |s'.roundWAL| ensures RecordAuthentic(net, log', s'.roundWAL[i]) {
      var rec := s'.roundWAL[i];
      if i == |s.roundWAL| {
        if rec.OneVote? { assert rec.vote in s'.sent; }
      } else {
        assert rec == s.roundWAL[i];
      }
    }
  }

  lemma ListAuthentic(net: Net, log: seq<VoteMessage>, log': seq<VoteMessage>, a: Address, s: State, r: nat, t: VoteType)
    requires BookOk(net, log, s) && Extends(log, log')
    ensures forall m :: m in VoteListOf(Tally(Node(a, net.lists), s, r, t)) ==> Authentic(net, log', m)
  {
    var msgs := Tally(Node(a, net.lists), s, r, t);
    forall m | m in VoteListOf(msgs) ensures Authentic(net, log', m) {
      assert Some(m) in msgs;
      var i :| 0 <= i < |msgs| && msgs[i] == Some(m);
      assert (r, t) in s.votes;
      assert EntryOk(net, log, s.height, r, t, i, m);
      AuthenticGrows(net, log, log', m);
    }
  }

  lemma BookStep(net: Net, log: seq<VoteMessage>, a: Address, s: State, e: Event)
    requires BookOk(net, log, s) && LogAuthentic(net, log, s.roundWAL) && Enabled(Node(a, net.lists), s, e)
    requires (e.Receive? ==> Authentic(net, log, e.m)) && (e.Restart? ==> ReadsBack(net, log, e))
    ensures BookOk(net, log, Next(Node(a, net.lists), s, e))
  {
    if e.Restart? { RestartBookOk(net, log, a, e.h, s.roundWAL[..e.kept], e.lockWAL, e.commitWAL); }
    if e.Receive? { ReplayedVoteOk(net, log, a, s.height, EMPTY.(votes := s.votes), e.m); }
  }

  lemma LockTimelyStep(net: Net, a: Address, s: State, e: Event)
    requires Inv(Node(a, net.lists), s) && LockTimely(s) && Enabled(Node(a, net.lists), s, e)
    ensures LockTimely(Next(Node(a, net.lists), s, e))
  {}

  /** Every way to lose or change a lock leaves +2/3 prevotes of a later round behind. */
  lemma LockHeldStep(net: Net, log: seq<VoteMessage>, a: Address, s: State, e: Event)
    requires Inv(Node(a, net.lists), s) && BookOk(net, log, s) && LockTimely(s) && LockHeld(net, log, s)
    requires Enabled(Node(a, net.lists), s, e) && (e.Restart? ==> KeepsLock(s, Next(Node(a, net.lists), s, e)))
    ensures LockHeld(net, log, Next(Node(a, net.lists), s, e))
  {
    hide ReplayAll, VoteListOf, Pruned, AddTo, Present, Winner, BookOk, CanWin;
    var c := Node(a, net.lists);
    var s' := Next(c, s, e);
    if e.Unlock? { PolkaIsReal(net, log, a, s, e.r, Prevote); }
    if e.EnterPrecommit? && Polka(c, s, s.round, Prevote).Some? { PolkaIsReal(net, log, a, s, s.round, Prevote); }
    forall v | v in s'.sent && v.height == s'.height && v.vtype == Precommit && v.PartSet().Some?
      ensures (s'.locked == v.PartSet() && s'.lockedRound >= v.round)
              || Overruled(net, log, v.height, v.round, v.PartSet().value)
    {
      if v in s.sent {
        assert Reached(s, v.height, v.round, PRECOMMIT);
        assert v.height == s.height;
        if e.EnterPrecommit? { assert v.round < s.round; }
      }
    }
  }

  lemma DecidedStep(net: Net, log: seq<VoteMessage>, a: Address, s: State, e: Event)
    requires BookOk(net, log, s) && DecidedOk(net, log, s)
    requires Enabled(Node(a, net.lists), s, e)
    ensures DecidedOk(net, log, Next(Node(a, net.lists), s, e))
  {
    if e.Decide? {
      PolkaIsReal(net, log, a, s, e.r, Precommit);
      var s' := Next(Node(a, net.lists), s, e);
      forall d | d in s'.decided ensures exists r :: CanWin(net, log, d.0, r, Precommit, Some(d.1)) {}
    }
  }

  /** At most one vote is cast per event, and it follows the lock. */
  lemma CastFacts(net: Net, log: seq<VoteMessage>, a: Address, s: State, e: Event)
    requires NodeBase(net, log, a, s) && LockTimely(s) && Enabled(Node(a, net.lists), s, e)
    ensures var s' := Next(Node(a, net.lists), s, e);
      s'.sent == s.sent
      || (|s'.sent| == |s.sent| + 1 && s'.sent[..|s.sent|] == s.sent
          && CastOk(net, log, s, s'.sent[|s.sent|]))
  {
    var c := Node(a, net.lists);
    if e.EnterPrecommit? && Polka(c, s, s.round, Prevote).Some? { PolkaIsReal(net, log, a, s, s.round, Prevote); }
  }

  ghost predicate CastOk(net: Net, log: seq<VoteMessage>, s: State, v: VoteMessage) {
    && v.height == s.height && v.round == s.round
    && (v.vtype == Prevote && s.locked.Some? ==> v.PartSet() == s.locked)
    && (v.vtype == Precommit && v.PartSet().Some? ==> CanWin(net, log, v.height, v.round, Prevote, v.PartSet()))
  }

  /** One vote more, later than all of its node before. */
  lemma CastKeepsOrder(log: seq<VoteMessage>, v: VoteMessage)
    requires LogOrdered(log) && forall w :: w in log && w.Signer() == v.Signer() ==> Later(w, v)
    ensures LogOrdered(log + [v])
  {
    var log' := log + [v];
    forall i, j | 0 <= i < j < |log'| && log'[i].Signer() == log'[j].Signer() ensures Later(log'[i], log'[j]) {
      if j == |log| { assert log[i] in log; }
    }
  }

  lemma CastKeepsLog(net: Net, log: seq<VoteMessage>, a: Address, s: State, v: VoteMessage)
    requires LogOk(net, log) && NodeOk(net, log, a, s) && a in net.honest
    requires v.Signer() == Some(a) && CastOk(net, log, s, v)
    requires forall w :: w in s.sent ==> Later(w, v)
    ensures LogOk(net, log + [v])
  {
    hide Inv, BookOk, LogAuthentic;
    var log' := log + [v];
    CastKeepsOrder(log, v);
    forall j | 0 <= j < |log'| ensures PrevoteJustified(net, log', j) {
      assert log'[..j] == log[..j];
      if j < |log| {
        assert PrevoteJustified(net, log, j);
      } else if v.vtype == Prevote {
        assert log[..j] == log;
        forall i | 0 <= i < j && log'[i].Signer() == v.Signer() && log'[i].vtype == Precommit
                   && log'[i].height == v.height && log'[i].round < v.round
                   && log'[i].PartSet().Some? && log'[i].PartSet() != v.PartSet()
          ensures Overruled(net, log'[..j], log'[i].height, log'[i].round, log'[i].PartSet().value)
        {
          assert log[i] in log;
          assert log[i] in s.sent;
        }
      }
    }
    forall w | w in log' && w.vtype == Precommit && w.PartSet().Some?
      ensures CanWin(net, log', w.height, w.round, Prevote, w.PartSet())
    {
      SupportGrows(net, log, log', w.height, w.round, Prevote, w.PartSet());
    }
  }

  /** At most one vote is cast per event. */
  lemma CastOne(c: Node, s: State, e: Event)
    requires Enabled(c, s, e)
    ensures var s' := Next(c, s, e);
      s'.sent == s.sent || (|s'.sent| == |s.sent| + 1 && s'.sent[..|s.sent|] == s.sent)
  {
    hide ReplayAll, VoteListOf, Pruned, AddTo, Present, Winner;
  }

  /** What is kept whatever restarts do to a lock. */
  lemma ActorBase(net: Net, s: System, a: Address, e: Event)
    requires BaseOk(net, s) && Possible(net, s, a, e)
    ensures Extends(s.log, Act(net, s, a, e).log) && LogOrdered(Act(net, s, a, e).log)
    ensures forall v :: v in Act(net, s, a, e).log && v !in s.log ==> v.Signer() == Some(a)
    ensures var n, n' := s.nodes[a], Act(net, s, a, e).nodes[a];
      if n'.sent == n.sent then Act(net, s, a, e).log == s.log
      else |n'.sent| == |n.sent| + 1 && n'.sent == n.sent + [n'.sent[|n.sent|]] && Act(net, s, a, e).log == s.log + [n'.sent[|n.sent|]]
    ensures BookOk(net, s.log, Act(net, s, a, e).nodes[a])
    ensures NodeBase(net, Act(net, s, a, e).log, a, Act(net, s, a, e).nodes[a])
  {
    hide Next, Enabled, Inv, BookOk, Later, LogAuthentic, ReadsBack, LogOrdered;
    var c := Node(a, net.lists);
    var n, log := s.nodes[a], s.log;
    var n', log' := Next(c, n, e), Act(net, s, a, e).log;
    InvStep(c, n, e);
    CastOne(c, n, e);
    if n'.sent == n.sent {
      assert log' == log;
    } else {
      var v := n'.sent[|n.sent|];
      assert log' == log + [v];
      assert n'.sent == n.sent + [v];
      OwnVotesOrdered(c, n, n', v);
      CastKeepsOrder(log, v);
    }
    BookStep(net, log, a, n, e);
    LogStepOk(net, log, a, n, e, log');
    BookGrows(net, log, log', n');
  }

  lemma OthersBase(net: Net, s: System, s': System, a: Address, b: Address)
    requires BaseOk(net, s) && b in s.nodes && b != a
    requires Extends(s.log, s'.log)
    requires forall v :: v in s'.log && v !in s.log ==> v.Signer() == Some(a)
    ensures NodeBase(net, s'.log, b, s.nodes[b])
  {
    hide BookOk, LogAuthentic, Inv;
    BookGrows(net, s.log, s'.log, s.nodes[b]);
    LogGrows(net, s.log, s'.log, s.nodes[b].roundWAL);
  }

  /** Kept by every action, restarts that lose a lock included. */
  lemma BaseStep(net: Net, s: System, a: Address, e: Event)
    requires BaseOk(net, s) && Possible(net, s, a, e)
    ensures BaseOk(net, Act(net, s, a, e)) && Extends(s.log, Act(net, s, a, e).log)
  {
    hide Next, Enabled, NodeBase, LogOrdered;
    ActorBase(net, s, a, e);
    var s' := Act(net, s, a, e);
    forall b | b in s'.nodes ensures NodeBase(net, s'.log, b, s'.nodes[b]) {
      if b != a { OthersBase(net, s, s', a, b); }
    }
  }

  lemma OthersUnmoved(net: Net, s: System, s': System, a: Address, b: Address)
    requires SystemOk(net, s) && BaseOk(net, s) && b in s.nodes && b != a
    requires Extends(s.log, s'.log)
    requires forall v :: v in s'.log && v !in s.log ==> v.Signer() == Some(a)
    ensures NodeOk(net, s'.log, b, s.nodes[b])
  {
    hide NodeBase, LockTimely, LockHeld, DecidedOk;
    OthersBase(net, s, s', a, b);
    LockHeldGrows(net, s.log, s'.log, s.nodes[b]);
    DecidedGrows(net, s.log, s'.log, s.nodes[b]);
  }

  lemma SystemBase(net: Net, s: System)
    requires SystemOk(net, s)
    ensures BaseOk(net, s)
  {
    hide NodeBase, LogOrdered;
  }

  lemma ActorOk(net: Net, s: System, a: Address, e: Event)
    requires SystemOk(net, s) && BaseOk(net, s) && CanAct(net, s, a, e)
    ensures LogOk(net, Act(net, s, a, e).log)
    ensures NodeOk(net, Act(net, s, a, e).log, a, Act(net, s, a, e).nodes[a])
  {
    hide Next, Enabled, Inv, BookOk, LockTimely, LockHeld, DecidedOk, LogOk, Later, LogAuthentic, ReadsBack, KeepsLock, LogOrdered;
    var c := Node(a, net.lists);
    var n, log := s.nodes[a], s.log;
    var n', log' := Next(c, n, e), Act(net, s, a, e).log;
    ActorBase(net, s, a, e);
    CastFacts(net, log, a, n, e);
    if n'.sent != n.sent {
      var v := n'.sent[|n.sent|];
      OwnVotesOrdered(c, n, n', v);
      CastKeepsLog(net, log, a, n, v);
    }
    LockTimelyStep(net, a, n, e);
    LockHeldStep(net, log, a, n, e);
    DecidedStep(net, log, a, n, e);
    LockHeldGrows(net, log, log', n');
    DecidedGrows(net, log, log', n');
  }

  lemma OwnVotesOrdered(c: Node, n: State, n': State, v: VoteMessage)
    requires Inv(c, n') && n'.sent == n.sent + [v]
    ensures v.Signer() == Some(c.me) && forall w :: w in n.sent ==> Later(w, v)
  {
    assert v in n'.sent;
    forall w | w in n.sent ensures Later(w, v) {
      var i :| 0 <= i < |n.sent| && n.sent[i] == w;
      assert n'.sent[i] == w && n'.sent[|n.sent|] == v && VoteInv(c, n');
    }
  }

  lemma {:induction false} SystemStep(net: Net, s: System, a: Address, e: Event)
    requires SystemOk(net, s) && CanAct(net, s, a, e)
    ensures SystemOk(net, Act(net, s, a, e))
  {
    hide Next, Enabled, NodeOk, LogOk, BaseOk;
    SystemBase(net, s);
    ActorOk(net, s, a, e);
    var s' := Act(net, s, a, e);
    assert Extends(s.log, s'.log) && forall v :: v in s'.log && v !in s.log ==> v.Signer() == Some(a) by { ActorBase(net, s, a, e); }
    forall b | b in s'.nodes ensures NodeOk(net, s'.log, b, s'.nodes[b]) {
      if b != a { OthersUnmoved(net, s, s', a, b); }
    }
  }

  lemma {:induction false} SystemRun(net: Net, start: map<Address, nat>, acts: seq<(Address, Event)>)
    requires Run(net, start, acts)
    ensures SystemOk(net, Reach(net, start, acts))
  {
    if acts != [] {
      SystemRun(net, start, acts[..|acts| - 1]);
      SystemStep(net, Reach(net, start, acts[..|acts| - 1]), acts[|acts| - 1].0, acts[|acts| - 1].1);
    }
  }

  // --- theorems --------------------------------------------------------------------------------

  /** No prefix of the log has +2/3 prevotes against a block that gets +2/3 precommits. */
  lemma {:induction false} NoPolkaAgainst(net: Net, log: seq<VoteMessage>, m: nat, h: nat, r: nat, p: PartSetID, r': nat, q: Option<PartSetID>)
    requires LogOk(net, log) && m <= |log|
    requires 3 * |Faulty(net, h)| < |net.vals(h)|
    requires CanWin(net, log, h, r, Precommit, Some(p))
    requires r' > r && q != Some(p)
    ensures !CanWin(net, log[..m], h, r', Prevote, q)
    decreases m
  {
    if CanWin(net, log[..m], h, r', Prevote, q) {
      hide LogOk, CanWin;
      var a := CommonVoter(net, log, m, h, r, p, r', q);
      var k, r2, q2 := EarlierPolka(net, log, m, a, h, r, p, r', q);
      NoPolkaAgainst(net, log, k, h, r, p, r2, q2);
    }
  }

  /** An honest validator who precommitted the block and later prevoted against it. */
  lemma CommonVoter(net: Net, log: seq<VoteMessage>, m: nat, h: nat, r: nat, p: PartSetID, r': nat, q: Option<PartSetID>)
    returns (a: Address)
    requires m <= |log| && 3 * |Faulty(net, h)| < |net.vals(h)|
    requires CanWin(net, log, h, r, Precommit, Some(p)) && CanWin(net, log[..m], h, r', Prevote, q)
    ensures HasVoted(log, a, h, r, Precommit, Some(p)) && HasVoted(log[..m], a, h, r', Prevote, q)
  {
    var A, B := Supporters(net, log, h, r, Precommit, Some(p)), Supporters(net, log[..m], h, r', Prevote, q);
    var i := HonestOverlap(A, B, Faulty(net, h), |net.vals(h)|);
    a := net.vals(h)[i];
  }

  /** Such a validator had seen +2/3 prevotes against the block before. */
  lemma EarlierPolka(net: Net, log: seq<VoteMessage>, m: nat, a: Address, h: nat, r: nat, p: PartSetID, r': nat, q: Option<PartSetID>)
    returns (k: nat, r2: nat, q2: Option<PartSetID>)
    requires LogOk(net, log) && m <= |log| && r' > r && q != Some(p)
    requires HasVoted(log, a, h, r, Precommit, Some(p)) && HasVoted(log[..m], a, h, r', Prevote, q)
    ensures k < m && r2 > r && q2 != Some(p) && CanWin(net, log[..k], h, r2, Prevote, q2)
  {
    hide CanWin;
    var v :| v in log && IsVote(v, a, h, r, Precommit, Some(p));
    var w :| w in log[..m] && IsVote(w, a, h, r', Prevote, q);
    var j :| 0 <= j < |log| && log[j] == v;
    k :| 0 <= k < m && log[k] == w;
    assert j < k;
    assert PrevoteJustified(net, log, k);
    r2, q2 :| r2 > r && q2 != Some(p) && CanWin(net, log[..k], h, r2, Prevote, q2);
  }

  /** Lock persistence: once a block can have +2/3 precommits in a round, no later round of that
      height ever has +2/3 prevotes for anything else, nil included. */
  lemma {:induction false} LockPersistence(net: Net, start: map<Address, nat>, acts: seq<(Address, Event)>, h: nat)
    requires Run(net, start, acts)
    requires 3 * |Faulty(net, h)| < |net.vals(h)|
    ensures var log := Reach(net, start, acts).log;
      forall r, p, r', q ::
        CanWin(net, log, h, r, Precommit, Some(p)) && r' > r && q != Some(p) ==> !CanWin(net, log, h, r', Prevote, q)
  {
    SystemRun(net, start, acts);
    var log := Reach(net, start, acts).log;
    assert log[..|log|] == log;
    forall r, p, r', q | CanWin(net, log, h, r, Precommit, Some(p)) && r' > r && q != Some(p)
      ensures !CanWin(net, log, h, r', Prevote, q)
    {
      NoPolkaAgainst(net, log, |log|, h, r, p, r', q);
    }
  }

  /** An honest validator who voted for both. */
  lemma VotedBoth(net: Net, log: seq<VoteMessage>, h: nat, t: VoteType, r1: nat, p1: Option<PartSetID>, r2: nat, p2: Option<PartSetID>)
    returns (a: Address)
    requires 3 * |Faulty(net, h)| < |net.vals(h)|
    requires CanWin(net, log, h, r1, t, p1) && CanWin(net, log, h, r2, t, p2)
    ensures HasVoted(log, a, h, r1, t, p1) && HasVoted(log, a, h, r2, t, p2)
  {
    var A, B := Supporters(net, log, h, r1, t, p1), Supporters(net, log, h, r2, t, p2);
    var i := HonestOverlap(A, B, Faulty(net, h), |net.vals(h)|);
    a := net.vals(h)[i];
  }

  /** Votes of one kind in one round can have +2/3 for one thing only. */
  lemma OnePerRound(net: Net, log: seq<VoteMessage>, h: nat, r: nat, t: VoteType, p1: Option<PartSetID>, p2: Option<PartSetID>)
    requires LogOrdered(log) && 3 * |Faulty(net, h)| < |net.vals(h)|
    requires CanWin(net, log, h, r, t, p1) && CanWin(net, log, h, r, t, p2)
    ensures p1 == p2
  {
    hide CanWin, Faulty;
    var a := VotedBoth(net, log, h, t, r, p1, r, p2);
    var v :| v in log && IsVote(v, a, h, r, t, p1);
    var w :| w in log && IsVote(w, a, h, r, t, p2);
    var j :| 0 <= j < |log| && log[j] == v;
    var k :| 0 <= k < |log| && log[k] == w;
    assert j < k ==> Later(v, w);
    assert k < j ==> Later(w, v);
  }

  lemma {:induction false} OneCommittable(net: Net, log: seq<VoteMessage>, h: nat, r1: nat, p1: PartSetID, r2: nat, p2: PartSetID)
    requires LogOk(net, log)
    requires 3 * |Faulty(net, h)| < |net.vals(h)|
    requires CanWin(net, log, h, r1, Precommit, Some(p1)) && CanWin(net, log, h, r2, Precommit, Some(p2))
    requires r1 <= r2
    ensures p1 == p2
  {
    hide CanWin, Faulty, PrevoteJustified;
    if r1 == r2 {
      OnePerRound(net, log, h, r1, Precommit, Some(p1), Some(p2));
    } else if p1 != p2 {
      var a := VotedBoth(net, log, h, Precommit, r1, Some(p1), r2, Some(p2));
      assert log[..|log|] == log;
      NoPolkaAgainst(net, log, |log|, h, r1, p1, r2, Some(p2));
    }
  }

  /** Agreement: in every run, restarts that keep a lock and its round included, two honest nodes never commit
      different blocks at a height where fewer than a third of the validators are faulty. */
  lemma {:induction false} AgreementHolds(net: Net, start: map<Address, nat>, acts: seq<(Address, Event)>, h: nat)
    requires Run(net, start, acts)
    requires 3 * |Faulty(net, h)| < |net.vals(h)|
    ensures var nodes := Reach(net, start, acts).nodes;
      forall a, b, p, q :: a in nodes && b in nodes && (h, p) in nodes[a].decided && (h, q) in nodes[b].decided ==> p == q
  {
    SystemRun(net, start, acts);
    var s := Reach(net, start, acts);
    forall a, b, p, q | a in s.nodes && b in s.nodes && (h, p) in s.nodes[a].decided && (h, q) in s.nodes[b].decided
      ensures p == q
    {
      var r1 :| CanWin(net, s.log, h, r1, Precommit, Some(p));
      var r2 :| CanWin(net, s.log, h, r2, Precommit, Some(q));
      if r1 <= r2 { OneCommittable(net, s.log, h, r1, p, r2, q); } else { OneCommittable(net, s.log, h, r2, q, r1, p); }
    }
  }

  /** The events of one node in a run of the system. */
  ghost function EventsOf(acts: seq<(Address, Event)>, a: Address): seq<Event> {
    if acts == [] then []
    else EventsOf(acts[..|acts| - 1], a) + if acts[|acts| - 1].0 == a then [acts[|acts| - 1].1] else []
  }

  /** Each honest node of a system run does a run of its own; its votes, and no others of its
      signature, are in the log. */
  lemma {:induction false} NodesRun(net: Net, start: map<Address, nat>, acts: seq<(Address, Event)>, a: Address)
    requires Run(net, start, acts) && a in net.honest
    ensures a in start && a in Reach(net, start, acts).nodes
    ensures Legal(Node(a, net.lists), start[a], EventsOf(acts, a))
    ensures After(Node(a, net.lists), start[a], EventsOf(acts, a)) == Reach(net, start, acts).nodes[a]
    ensures forall v :: v in Reach(net, start, acts).log && v.Signer() == Some(a) <==> v in Reach(net, start, acts).nodes[a].sent
  {
    SystemRun(net, start, acts);
    if acts != [] {
      var front, last := acts[..|acts| - 1], acts[|acts| - 1];
      NodesRun(net, start, front, a);
      if last.0 == a {
        LegalStep(Node(a, net.lists), start[a], EventsOf(front, a), last.1);
      } else {
        assert EventsOf(acts, a) == EventsOf(front, a);
      }
    }
  }
}
