/** A lock that moves to a later round is not written to the lock log (consensus/consensus.go:851-854). With every
    log read back in full, a restart then locks the older round again, and two honest nodes commit different blocks.

    Validators 0 to 3, the last one faulty, at height 1. Round 0: block P is prevoted by 0, 1 and 3, but only node 0 sees
    all three and locks P. Round 1: node 0 prevotes P, nodes 1 and 2 prevote Q; validator 3 keeps its prevote for Q back.
    Round 2: P again; node 0 moves its lock, and node 1 commits P. Node 0 restarts and is locked in round 0. Now the prevote
    kept back arrives, with it Q has +2/3 in round 1, and node 0 unlocks. Round 3: nodes 0 and 2 vote for R, and node 2
    commits R. */
module Relock {
  import opened Votes
  import opened Quorum
  import opened VoteSets
  import opened Node
  import opened NodeSafety
  import opened Agreement
  import opened LockLogs
  import opened Disks
  import opened Engines
  import opened Handlers
  import opened Rotation
  import opened Turns
  import opened Rereading

  const START: map<Address, nat> := map[0 := 1, 1 := 1, 2 := 1]

  // The state of a node, what is due at it, and its locks on disk.

  function N(p: Play, a: Address): State { if a in p.w.sys.nodes then p.w.sys.nodes[a] else Start(1) }
  function D(p: Play, a: Address): Move { if a in p.due then p.due[a] else Stay }
  function L(p: Play, a: Address): seq<Lock> { if a in p.w.locks then p.w.locks[a] else [] }

  // --- turns as seen from outside ------------------------------------------------------------------

  /** Where a node stands: its round and step, its lock, and the last round it holds votes of. */
  ghost predicate Stands(n: State, round: nat, step: nat, lockedRound: int, locked: Option<PartSetID>, last: int) {
    && n.round == round && n.step == step && n.lockedRound == lockedRound && n.locked == locked
    && forall k :: k in n.votes ==> k.0 <= last
  }

  ghost predicate Holds(n: State, r: nat, t: VoteType, who: Poll) { (r, t) in n.votes && n.votes[(r, t)] == Held(r, t, who) }

  ghost predicate Said(p: Play, a: Address, r: nat, t: VoteType, v: Option<PartSetID>) { Vote(a, r, t, v) in p.w.sys.log }

  /** The state of node a after its first turn in a round. */
  ghost predicate Begun(n: State, n': State, a: Address, r: nat, lr: int, l: Option<PartSetID>, v: Option<PartSetID>) {
    && Stands(n', r, PREVOTE, lr, l, r) && Holds(n', r, Prevote, map[a := v]) && (r, Precommit) !in n'.votes
    && n'.roundWAL == n.roundWAL + [OneVote(Vote(a, r, Prevote, v))] && n'.proposals == n.proposals && n'.decided == n.decided
    && n'.votes == n.votes[(r, Prevote) := Held(r, Prevote, map[a := v])]
  }

  lemma PrevotedIs(n: State, a: Address, v: Option<PartSetID>, lr: int, l: Option<PartSetID>)
    requires Stands(n, n.round, PROPOSE, lr, l, n.round - 1)
    ensures Begun(n, Prevoted(n, a, v), a, n.round, lr, l, v)
  {
    hide Held, Vote;
  }

  /** Prevoting in a round proposed by somebody else. */
  lemma PrevotesIn(p: Play, a: Address, r: nat, st: nat, lr: int, l: Option<PartSetID>, v: Option<PartSetID>) returns (q: Play)
    requires Ready(p) && a in {0, 1, 2} && D(p, a) == Stay && Stands(N(p, a), r, st, lr, l, r - 1) && st in {TRANSACTION_WAIT, NEW_ROUND}
    requires (l.Some? ==> l == v) && (v.Some? && l.None? ==> Backed(p, a, N(p, a), v.value))
    ensures Turn(p, q, a) && D(q, a) == Stay && L(q, a) == L(p, a) && Said(q, a, r, Prevote, v)
    ensures Begun(N(p, a), N(q, a), a, r, lr, l, v)
  {
    hide Moves, Backed, Vote, Held, Prevoted, Leads;
    var n := N(p, a);
    var n1 := n.(step := PROPOSE);
    Proposing(p, a);
    BackedAlso(p, a, n, n1, v);
    q := Prevotes1(p, a, n1, Stay, v);
    PrevotedIs(n1, a, v, lr, l);
  }

  lemma BackedAlso(p: Play, a: Address, n: State, n1: State, v: Option<PartSetID>)
    requires n1.round == n.round && n.proposals <= n1.proposals
    ensures v.Some? && Backed(p, a, n, v.value) ==> Backed(p, a, n1, v.value)
  {
    if v.Some? && Backed(p, a, n, v.value) && (1 + n.round) % 4 == a && a != 3 {
      var q :| q in n.proposals && q.height == 1 && q.round == n.round && q.parts == v.value;
      assert q in n1.proposals;
    }
  }

  function Proposed1(n: State, a: Address, id: PartSetID): State {
    Cast1Proposal(n.(step := PROPOSE, proposing := n.proposing + {(1, n.round)} - {(1, n.round)}), Some(Proposal(1, n.round, id, -1, a)))
  }

  lemma ProposingIs(a: Address, n: State, id: PartSetID)
    requires NodeReady(n) && n.step in {TRANSACTION_WAIT, NEW_ROUND}
    ensures var e, n' := Event.EnterPropose(None, true), n.(step := PROPOSE, proposing := n.proposing + {(1, n.round)});
      && Enabled(Me(a), n, e) && Starts(Me(a), n, e) && Next(Me(a), n, e) == n' && NodeReady(n') && Due(Me(a), n', e) == Stay
      && var f, n2 := Event.Proposed(Some(Proposal(1, n.round, id, -1, a))), Proposed1(n, a, id);
         Enabled(Me(a), n', f) && Starts(Me(a), n', f) && Next(Me(a), n', f) == n2 && NodeReady(n2) && Due(Me(a), n2, f) == Prevotes
  {}

  /** Proposing a new block. */
  lemma Offers(p: Play, a: Address, id: PartSetID)
    requires Ready(p) && a in {0, 1, 2} && D(p, a) == Stay && N(p, a).step in {TRANSACTION_WAIT, NEW_ROUND}
    requires N(p, a).locked.None? && (1 + N(p, a).round) % 4 == a
    ensures Moves(p, a, Proposed1(N(p, a), a, id), [], [], Prevotes)
  {
    hide Moves, With, Next, Enabled, Starts, Due;
    var n := N(p, a);
    var n1 := n.(step := PROPOSE, proposing := n.proposing + {(1, n.round)});
    assert Proposer(NET, 1, n.round) == Some(a);
    ProposingIs(a, n, id);
    Still(p, a);
    ThenGoes(p, a, n, [], [], Stay, Event.EnterPropose(None, true), n1, Stay);
    ThenGoes(p, a, n1, [], [], Stay, Event.Proposed(Some(Proposal(1, n.round, id, -1, a))), Proposed1(n, a, id), Prevotes);
  }

  /** Proposing a new block and prevoting it. */
  lemma OffersIn(p: Play, a: Address, r: nat, st: nat, id: PartSetID) returns (q: Play)
    requires Ready(p) && a in {0, 1, 2} && D(p, a) == Stay && Stands(N(p, a), r, st, -1, None, r - 1) && st in {TRANSACTION_WAIT, NEW_ROUND}
    requires (1 + r) % 4 == a
    ensures Turn(p, q, a) && D(q, a) == Stay && L(q, a) == L(p, a) && Said(q, a, r, Prevote, Some(id))
    ensures Begun(Proposed1(N(p, a), a, id), N(q, a), a, r, -1, None, Some(id)) && HasProposed(N(q, a), r, id)
  {
    hide Moves, Vote, Held, Prevoted, Leads;
    var n1 := Proposed1(N(p, a), a, id);
    Offers(p, a, id);
    assert Proposal(1, r, id, -1, a) in n1.proposals;
    assert Backed(p, a, n1, id);
    q := Prevotes1(p, a, n1, Prevotes, Some(id));
    PrevotedIs(n1, a, Some(id), -1, None);
  }

  /** The state of node a after its second turn. */
  ghost predicate Midway(n: State, n': State, a: Address, r: nat, lr: int, l: Option<PartSetID>, x: Count) {
    && Stands(n', r, PRECOMMIT, if x.w.Some? then LockBy(n, x.w).0 else lr, if x.w.Some? then LockBy(n, x.w).1 else l, r)
    && Holds(n', r, Precommit, map[a := Choice(x.w)]) && Half(n, n', a, x)
  }

  /** Counting three prevotes and precommitting. */
  lemma PrecommitsIn(p: Play, a: Address, r: nat, lr: int, l: Option<PartSetID>, x: Count) returns (q: Play)
    requires Ready(p) && a in {0, 1, 2} && D(p, a) == Stay && Stands(N(p, a), r, PREVOTE, lr, l, r)
    requires Holds(N(p, a), r, Prevote, map[a := x.v]) && (r, Precommit) !in N(p, a).votes && Counts(p, a, r, Prevote, x)
    requires l.Some? && x.w.Some? ==> x.w.value == l
    requires x.w.Some? && x.w.value.Some? ==> x.w.value.value.count > 0 && Backed(p, a, N(p, a), x.w.value.value)
    ensures Turn(p, q, a) && D(q, a) == Stay && Said(q, a, r, Precommit, Choice(x.w)) && L(q, a) == L(p, a) + Written(N(p, a), a, x)
    ensures Midway(N(p, a), N(q, a), a, r, lr, l, x)
  {
    hide Backed, Vote, Held, Counts, Leads, Written, All, Half, Midway;
    q := Precommits1(p, a, x);
    MidwayIs(N(p, a), N(q, a), a, r, lr, l, x);
  }

  lemma MidwayIs(n: State, n': State, a: Address, r: nat, lr: int, l: Option<PartSetID>, x: Count)
    requires Stands(n, r, PREVOTE, lr, l, r) && Half(n, n', a, x)
    ensures Midway(n, n', a, r, lr, l, x)
  {
    hide Vote, Held, All;
  }

  /** The state of node a after its last turn in a round that decides nothing. */
  ghost predicate Ended(n: State, n': State, a: Address, r: nat, lr: int, l: Option<PartSetID>, x: Count) {
    Stands(n', r + 1, NEW_ROUND, lr, l, r) && Over(n, n', a, x)
  }

  /** Counting three precommits that decide nothing. */
  lemma EndsIn(p: Play, a: Address, r: nat, lr: int, l: Option<PartSetID>, x: Count) returns (q: Play)
    requires Ready(p) && a in {0, 1, 2} && D(p, a) == Stay && Stands(N(p, a), r, PRECOMMIT, lr, l, r)
    requires Holds(N(p, a), r, Precommit, map[a := x.v]) && Counts(p, a, r, Precommit, x) && (x.w.Some? ==> x.w.value.None?)
    ensures Turn(p, q, a) && D(q, a) == Stay && L(q, a) == L(p, a)
    ensures Ended(N(p, a), N(q, a), a, r, lr, l, x)
  {
    hide Vote, Held, Counts, Leads, All, Over, Ended;
    q := SecondHalf(p, a, x);
    EndedIs(N(p, a), N(q, a), a, r, lr, l, x);
  }

  lemma EndedIs(n: State, n': State, a: Address, r: nat, lr: int, l: Option<PartSetID>, x: Count)
    requires Stands(n, r, PRECOMMIT, lr, l, r) && Over(n, n', a, x)
    ensures Ended(n, n', a, r, lr, l, x)
  {
    hide Held, All;
  }

  /** Counting three precommits that decide. */
  lemma DecidesIn(p: Play, a: Address, r: nat, lr: int, l: Option<PartSetID>, x: Count) returns (q: Play)
    requires Ready(p) && a in {0, 1, 2} && D(p, a) == Stay && Stands(N(p, a), r, PRECOMMIT, lr, l, r)
    requires Holds(N(p, a), r, Precommit, map[a := x.v]) && Counts(p, a, r, Precommit, x) && x.w.Some? && x.w.value.Some?
    ensures Turn(p, q, a) && (1, x.w.value.value) in N(q, a).decided
  {
    hide Vote, Held, Counts, Leads, All;
    q := Deciding(p, a, x);
  }

  lemma Agree(p: Play, a: Address, r: nat, t: VoteType, x: Count)
    requires a in {0, 1, 2} && x.j != a && x.k != a && x.j != x.k && Shows(p, x.j, r, t, x.vj) && Shows(p, x.k, r, t, x.vk)
    requires x.w == Some(x.v) && x.v == x.vj == x.vk
    ensures Counts(p, a, r, t, x)
  {}

  lemma Differ(p: Play, a: Address, r: nat, t: VoteType, x: Count)
    requires a in {0, 1, 2} && x.j != a && x.k != a && x.j != x.k && Shows(p, x.j, r, t, x.vj) && Shows(p, x.k, r, t, x.vk)
    requires x.w == None && !(x.v == x.vj == x.vk)
    ensures Counts(p, a, r, t, x)
  {
    var who := All(a, x);
    assert who[a] == x.v && who[x.j] == x.vj && who[x.k] == x.vk;
  }

  /** Node 0 after its restart, but for its lock. */
  ghost predicate Back(n: State) {
    && n.round == 2 && n.step == PRECOMMIT && Holds(n, 1, Prevote, All(0, A1)) && Holds(n, 2, Precommit, map[0 := Some(P)])
    && forall k :: k in n.votes ==> k.0 <= 2
  }

  /** Nothing has happened yet. */
  ghost function Opening(): Play { Play(Begin(START), map a | a in START :: Stay) }

  lemma FewFaultyHere()
    ensures FewFaulty(NET)
  {
    assert Faulty(NET, 1) == {3};
  }

  /** What every play keeps. */
  lemma PlayOk(p: Play)
    requires Leads(NET, Opening(), p)
    ensures WorldOk(NET, p.w)
  {
    hide Plays, Outcome, WorldOk, FewFaulty, Runs, Reaches, Begin;
    var acts :| Plays(NET, Opening(), acts) && Outcome(NET, Opening(), acts) == p;
    PlaysRuns(NET, Opening(), acts);
    FewFaultyHere();
    assert START.Keys == NET.honest;
    WorldRun(NET, START, acts);
  }

  /** The lock of round 0 as it was written. */
  function FirstLock(): Lock { Lock(1, 0, Held(0, Prevote, All(0, A0)), P) }

  /** What is on disk when node 0 restarts. */
  ghost predicate OnDisk(p: Play) {
    && FitsIn(RoundLog, N(p, 0).roundWAL) && L(p, 0) == [FirstLock()]
    && VoteList(VoteListOf(Held(1, Prevote, All(0, A1)))) in N(p, 0).roundWAL && OneVote(Vote(0, 2, Precommit, Some(P))) in N(p, 0).roundWAL
  }

  lemma FirstLockFits()
    ensures FitsIn(LockLog, LogOf([FirstLock()]))
  {
    var l := FirstLock();
    assert [l][..0] == [];
    assert LogOf([l]) == LockRecords(1, l.msgs, P);
    PollFits(0, Prevote);
  }

  /** The list of a poll of the story fits. */
  lemma PollFits(r: nat, t: VoteType)
    requires (r, t) in Story()
    ensures FitsRecord(VoteList(VoteListOf(Held(r, t, Story()[(r, t)]))))
  {
    hide Vote, VoteListOf, Story;
    var who := Story()[(r, t)];
    forall m | m in VoteListOf(Held(r, t, who)) ensures Fits(m) {
      assert Some(m) in Held(r, t, who);
      var i :| 0 <= i < 4 && Held(r, t, who)[i] == Some(m);
      VoteIs(i, r, t, who[i]);
      assert FitsAt(m, i);
    }
  }

  lemma RestartNode(n: State, lw: seq<Record>)
    requires NodeReady(n) && FitsIn(RoundLog, n.roundWAL) && FitsIn(LockLog, lw)
    requires VoteList(VoteListOf(Held(1, Prevote, All(0, A1)))) in n.roundWAL && OneVote(Vote(0, 2, Precommit, Some(P))) in n.roundWAL
    ensures var e := Restart(1, |n.roundWAL|, lw, []);
      Enabled(Me(0), n, e) && var n' := Next(Me(0), n, e); Back(n') && NodeReady(n') && n'.sent == n.sent && Due(Me(0), n', e) == Stay
  {
    hide ReplayAll, Vote, VoteListOf, FitsIn, Held, Polka;
    var e := Restart(1, |n.roundWAL|, lw, []);
    assert n.roundWAL[..|n.roundWAL|] == n.roundWAL;
    Rereads(n.roundWAL, lw);
    var n' := Next(Me(0), n, e);
    DueFew(0, n', 2, Precommit, map[0 := Some(P)], 0, Some(P));
  }

  /** Node 0 restarts, and is locked in round 0. */
  lemma Restarts(p: Play) returns (q: Play)
    requires Leads(NET, Opening(), p) && Ready(p) && OnDisk(p)
    ensures Turn(p, q, 0) && D(q, 0) == Stay && Back(N(q, 0)) && N(q, 0).locked == Some(P) && N(q, 0).lockedRound == 0
  {
    hide Leads, WorldOk, FitsIn, Vote, VoteListOf, LogOf, Moves, Next, Enabled, Back, CanPlay, Due, Held, Ready, NodeReady, Turn, Can, FewFaulty;
    var n, lw := N(p, 0), LogOf([FirstLock()]);
    var e := Restart(1, |n.roundWAL|, lw, []);
    FirstLockFits();
    PlayOk(p);
    FewFaultyHere();
    NodeIsReady(p, 0);
    ReadyNodes(p);
    RestartNode(n, lw);
    CanRestart(p, e);
    PlayCan(p, 0, e);
    RestartLocks(NET, p.w, 0, e);
    assert n.sent + [] == n.sent;
    Step(p, 0, e, Next(Me(0), n, e), [], Stay);
    q := TurnOf(p, 0, Next(Me(0), n, e), [], [], Stay);
    TurnNode(p, q, 0);
  }

  lemma PlayCan(p: Play, a: Address, e: Event)
    requires CanPlay(NET, p, a, e)
    ensures Can(NET, p.w, a, e)
  {}

  lemma TurnNode(p: Play, q: Play, a: Address)
    requires Turn(p, q, a)
    ensures a in q.w.sys.nodes && a in q.due && Ready(q)
  {}

  lemma CanRestart(p: Play, e: Event)
    requires WorldOk(NET, p.w) && Ready(p) && L(p, 0) == [FirstLock()]
    requires e == Restart(1, |N(p, 0).roundWAL|, LogOf([FirstLock()]), []) && Enabled(Me(0), N(p, 0), e)
    ensures CanPlay(NET, p, 0, e)
  {
    hide LockOk, LogOf, BaseOk, Enabled, LogAuthentic, NewLock;
    assert DiskOk(NET, p.w.sys.log, p.w.sys.nodes[0], p.w.locks[0]);
    DiskAuthentic(NET, p.w.sys.log, p.w.locks[0]);
    NoneAuthentic(p.w.sys.log);
  }

  lemma NoneAuthentic(log: seq<VoteMessage>)
    ensures LogAuthentic(NET, log, []) && OneHeight([], 1)
  {}

  /** The last prevote for Q of round 1 arrives at last. */
  lemma Unlocks1(p: Play) returns (q: Play)
    requires Ready(p) && D(p, 0) == Stay && Back(N(p, 0)) && N(p, 0).locked == Some(P) && N(p, 0).lockedRound == 0
    ensures Turn(p, q, 0) && D(q, 0) == Stay && Stands(N(q, 0), 2, PRECOMMIT, -1, None, 2) && Holds(N(q, 0), 2, Precommit, map[0 := Some(P)])
  {
    hide Moves, Held, With, Next, Enabled, Due, Vote, Ready, Leads, Polka, Enough, Stands;
    ReadyNodes(p);
    var n := N(p, 0);
    var who := All(0, A1)[3 := Some(Q)];
    var n1 := Heard(n, 1, Prevote, who);
    NodeIsReady(p, 0);
    HeardReady(n, 1, Prevote, who);
    HeardTwice(n, 1, Prevote, who, who);
    FourVotes(n1);
    UnlockDue(n1);
    Still(p, 0);
    ThenHears(p, 0, n, [], [], Stay, 1, Prevote, All(0, A1), 3, Some(Q), First(Unlock(1)));
    var n2 := n1.(lockedRound := -1, locked := None);
    UnlockIs(n1);
    ThenGoes(p, 0, n1, [], [], First(Unlock(1)), Unlock(1), n2, Stay);
    q := TurnOf(p, 0, n2, [], [], Stay);
    BackIs(n, who);
    ReadyNodes(q);
  }

  lemma BackIs(n: State, who: Poll)
    requires Back(n)
    ensures var n' := Heard(n, 1, Prevote, who).(lockedRound := -1, locked := None);
      Stands(n', 2, PRECOMMIT, -1, None, 2) && Holds(n', 2, Precommit, map[0 := Some(P)])
  {
    hide Held;
  }

  lemma NodeIsReady(p: Play, a: Address)
    requires Ready(p) && a in {0, 1, 2}
    ensures NodeReady(N(p, a))
  {}

  lemma FourVotes(n: State)
    requires n.height == 1 && VotesFor(n.votes, 4, 1, Prevote) == Held(1, Prevote, All(0, A1)[3 := Some(Q)])
    ensures Enough(Me(0), n, 1, Prevote) && Polka(Me(0), n, 1, Prevote) == Some(Some(Q))
  {
    hide Vote, Winner, For;
    var who := All(0, A1)[3 := Some(Q)];
    var b := Held(1, Prevote, who);
    assert who.Keys == {0, 1, 2, 3} && who[1] == who[2] == who[3] == Some(Q);
    VoteIs(1, 1, Prevote, Some(Q));
    VoteIs(2, 1, Prevote, Some(Q));
    VoteIs(3, 1, Prevote, Some(Q));
    ThreeOf(b, For(Some(Q)));
    ForQ();
  }

  lemma ForQ()
    ensures For(Some(Q)).PartSet() == Some(Q)
  {}

  lemma ThreeOf(b: Ballots, d: Decision)
    requires |b| == 4 && forall x :: x in {1, 2, 3} ==> b[x].Some? && b[x].value.decision == d
    ensures Winner(b) == Some(d) && |Present(b)| >= 3
  {
    SubsetCard({1, 2, 3}, Voters(b, d));
    SubsetCard({1, 2, 3}, Present(b));
    WinnerIs(b, d);
  }

  lemma UnlockDue(n: State)
    requires Enough(Me(0), n, 1, Prevote) && Polka(Me(0), n, 1, Prevote) == Some(Some(Q)) && n.round == 2 && n.step == PRECOMMIT
    requires n.locked == Some(P) && n.lockedRound == 0
    ensures Due(Me(0), n, Receive(Vote(3, 1, Prevote, Some(Q)))) == First(Unlock(1))
  {
    hide Enough, Polka, Vote;
    VoteIs(3, 1, Prevote, Some(Q));
  }

  lemma UnlockIs(n: State)
    requires NodeReady(n) && Polka(Me(0), n, 1, Prevote) == Some(Some(Q)) && n.round == 2 && n.step == PRECOMMIT && n.locked == Some(P) && n.lockedRound == 0
    ensures var n' := n.(lockedRound := -1, locked := None);
      Enabled(Me(0), n, Unlock(1)) && Next(Me(0), n, Unlock(1)) == n' && NodeReady(n') && Due(Me(0), n', Unlock(1)) == Stay
  {
    hide Polka;
  }

  // --- the run -------------------------------------------------------------------------------------

  /** What a turn of node a leaves as it was. */
  lemma Turned(p: Play, q: Play, a: Address)
    requires Leads(NET, Opening(), p) && Turn(p, q, a)
    ensures Leads(NET, Opening(), q) && Ready(q) && Extends(p.w.sys.log, q.w.sys.log)
    ensures forall b :: b in {0, 1, 2} && b != a ==> N(q, b) == N(p, b) && D(q, b) == D(p, b) && L(q, b) == L(p, b)
  {
    hide Leads;
    LeadsOn(NET, Opening(), p, q);
  }

  lemma FitsMore(recs: seq<Record>, rec: Record)
    requires FitsIn(RoundLog, recs) && FitsRecord(rec) && (rec.OneVote? ==> rec.vote.Signer() == Some(0))
    ensures FitsIn(RoundLog, recs + [rec])
  {
    hide FitsRecord;
  }

  /** Node 0 prevotes; its log still tells the story. */
  lemma Prevotes0(p: Play, r: nat, st: nat, lr: int, l: Option<PartSetID>, v: Option<PartSetID>) returns (q: Play)
    requires Leads(NET, Opening(), p) && Ready(p) && D(p, 0) == Stay && Stands(N(p, 0), r, st, lr, l, r - 1) && st in {TRANSACTION_WAIT, NEW_ROUND}
    requires (l.Some? ==> l == v) && (v.Some? && l.None? ==> Backed(p, 0, N(p, 0), v.value))
    requires FitsIn(RoundLog, N(p, 0).roundWAL) && (r, Prevote) in Story() && 0 in Story()[(r, Prevote)] && Story()[(r, Prevote)][0] == v
    ensures Turn(p, q, 0) && D(q, 0) == Stay && L(q, 0) == L(p, 0) && Said(q, 0, r, Prevote, v) && Begun(N(p, 0), N(q, 0), 0, r, lr, l, v)
    ensures FitsIn(RoundLog, N(q, 0).roundWAL) && N(p, 0).roundWAL <= N(q, 0).roundWAL
  {
    hide Backed, Vote, Held, Leads, Turn, Stands, FitsIn, Story, Ready;
    q := PrevotesIn(p, 0, r, st, lr, l, v);
    VoteIs(0, r, Prevote, v);
    assert FitsAt(Vote(0, r, Prevote, v), 0);
    FitsMore(N(p, 0).roundWAL, OneVote(Vote(0, r, Prevote, v)));
  }

  lemma Precommits0(p: Play, r: nat, lr: int, l: Option<PartSetID>, x: Count) returns (q: Play)
    requires Leads(NET, Opening(), p) && Ready(p) && D(p, 0) == Stay && Stands(N(p, 0), r, PREVOTE, lr, l, r)
    requires Holds(N(p, 0), r, Prevote, map[0 := x.v]) && (r, Precommit) !in N(p, 0).votes && Counts(p, 0, r, Prevote, x)
    requires l.Some? && x.w.Some? ==> x.w.value == l
    requires x.w.Some? && x.w.value.Some? ==> x.w.value.value.count > 0 && Backed(p, 0, N(p, 0), x.w.value.value)
    requires FitsIn(RoundLog, N(p, 0).roundWAL) && (r, Prevote) in Story() && Story()[(r, Prevote)] == All(0, x)
    requires (r, Precommit) in Story() && 0 in Story()[(r, Precommit)] && Story()[(r, Precommit)][0] == Choice(x.w)
    ensures Turn(p, q, 0) && D(q, 0) == Stay && Said(q, 0, r, Precommit, Choice(x.w)) && L(q, 0) == L(p, 0) + Written(N(p, 0), 0, x)
    ensures Midway(N(p, 0), N(q, 0), 0, r, lr, l, x)
    ensures FitsIn(RoundLog, N(q, 0).roundWAL) && N(p, 0).roundWAL <= N(q, 0).roundWAL
    ensures VoteList(VoteListOf(Held(r, Prevote, All(0, x)))) in N(q, 0).roundWAL && OneVote(Vote(0, r, Precommit, Choice(x.w))) in N(q, 0).roundWAL
  {
    hide Backed, Vote, Held, Leads, Turn, FitsIn, Story, Counts, Written, All, VoteListOf, Stands, Holds, Ready;
    q := PrecommitsIn(p, 0, r, lr, l, x);
    var v := Vote(0, r, Precommit, Choice(x.w));
    VoteIs(0, r, Precommit, Choice(x.w));
    PollFits(r, Prevote);
    assert FitsAt(v, 0);
    var list := VoteList(VoteListOf(Held(r, Prevote, All(0, x))));
    RoundIs(p, 0, r, PREVOTE, lr, l);
    assert N(q, 0).roundWAL == N(p, 0).roundWAL + [list] + [OneVote(v)];
    FitsMore(N(p, 0).roundWAL, list);
    FitsMore(N(p, 0).roundWAL + [list], OneVote(v));
  }

  lemma RoundIs(p: Play, a: Address, r: nat, st: nat, lr: int, l: Option<PartSetID>)
    requires Stands(N(p, a), r, st, lr, l, r)
    ensures N(p, a).round == r
  {}

  lemma Ends0(p: Play, r: nat, lr: int, l: Option<PartSetID>, x: Count) returns (q: Play)
    requires Leads(NET, Opening(), p) && Ready(p) && D(p, 0) == Stay && Stands(N(p, 0), r, PRECOMMIT, lr, l, r)
    requires Holds(N(p, 0), r, Precommit, map[0 := x.v]) && Counts(p, 0, r, Precommit, x) && (x.w.Some? ==> x.w.value.None?)
    requires FitsIn(RoundLog, N(p, 0).roundWAL) && (r, Precommit) in Story() && Story()[(r, Precommit)] == All(0, x)
    ensures Turn(p, q, 0) && D(q, 0) == Stay && L(q, 0) == L(p, 0) && Ended(N(p, 0), N(q, 0), 0, r, lr, l, x)
    ensures FitsIn(RoundLog, N(q, 0).roundWAL) && N(p, 0).roundWAL <= N(q, 0).roundWAL
  {
    hide Vote, Held, Leads, Turn, FitsIn, Story, Counts, All, VoteListOf, Stands, Holds, Ready;
    q := EndsIn(p, 0, r, lr, l, x);
    PollFits(r, Precommit);
    RoundIs(p, 0, r, PRECOMMIT, lr, l);
    FitsMore(N(p, 0).roundWAL, VoteList(VoteListOf(Held(r, Precommit, All(0, x)))));
  }

  /** Every node of these starts a round of its own. */
  ghost predicate At(p: Play, a: Address, r: nat, st: nat, lr: int, l: Option<PartSetID>, last: int) {
    D(p, a) == Stay && Stands(N(p, a), r, st, lr, l, last)
  }

  /** A node has prevoted and nothing more. */
  ghost predicate Up(p: Play, a: Address, r: nat, lr: int, l: Option<PartSetID>, v: Option<PartSetID>) {
    At(p, a, r, PREVOTE, lr, l, r) && Holds(N(p, a), r, Prevote, map[a := v]) && (r, Precommit) !in N(p, a).votes && Said(p, a, r, Prevote, v)
  }

  /** A node has precommitted. */
  ghost predicate Done(p: Play, a: Address, r: nat, lr: int, l: Option<PartSetID>, v: Option<PartSetID>) {
    At(p, a, r, PRECOMMIT, lr, l, r) && Holds(N(p, a), r, Precommit, map[a := v]) && Said(p, a, r, Precommit, v)
  }

  /** The story so far, in the log of node 0. */
  ghost predicate Told(p: Play) { On(p) && FitsIn(RoundLog, N(p, 0).roundWAL) }

  ghost predicate On(p: Play) { Leads(NET, Opening(), p) && Ready(p) }

  lemma ToldStays(p: Play, q: Play, a: Address)
    requires Told(p) && Turn(p, q, a) && a != 0
    ensures Told(q)
  {
    hide Leads, Turn, Ready, FitsIn;
    Turned(p, q, a);
  }

  lemma SaidStays(p: Play, q: Play, a: Address, r: nat, t: VoteType, v: Option<PartSetID>)
    requires Said(p, a, r, t, v) && Extends(p.w.sys.log, q.w.sys.log)
    ensures Said(q, a, r, t, v)
  {}

  lemma SaidShows(p: Play, a: Address, r: nat, t: VoteType, v: Option<PartSetID>)
    requires a < 4 && (a == 3 || Said(p, a, r, t, v))
    ensures Shows(p, a, r, t, v)
  {}

  /** Node b is where it was. */
  lemma UpStays(p: Play, q: Play, a: Address, b: Address, r: nat, lr: int, l: Option<PartSetID>, v: Option<PartSetID>)
    requires Leads(NET, Opening(), p) && Turn(p, q, a) && b in {0, 1, 2} && b != a && Up(p, b, r, lr, l, v)
    ensures Up(q, b, r, lr, l, v)
  {
    hide Leads, Turn, Vote, Held;
    Turned(p, q, a);
    SaidStays(p, q, b, r, Prevote, v);
  }

  lemma DoneStays(p: Play, q: Play, a: Address, b: Address, r: nat, lr: int, l: Option<PartSetID>, v: Option<PartSetID>)
    requires Leads(NET, Opening(), p) && Turn(p, q, a) && b in {0, 1, 2} && b != a && Done(p, b, r, lr, l, v)
    ensures Done(q, b, r, lr, l, v)
  {
    hide Leads, Turn, Vote, Held;
    Turned(p, q, a);
    SaidStays(p, q, b, r, Precommit, v);
  }

  lemma CountsStay(p: Play, q: Play, a: Address, r: nat, t: VoteType, x: Count)
    requires Counts(p, a, r, t, x) && Extends(p.w.sys.log, q.w.sys.log)
    ensures Counts(q, a, r, t, x)
  {
    hide Wanted, All;
  }

  /** A node other than the first counts three prevotes that have +2/3 for nothing, and precommits nil. */
  lemma OtherPrecommits(p: Play, a: Address, r: nat, x: Count) returns (q: Play)
    requires On(p) && a in {1, 2} && Up(p, a, r, -1, None, x.v) && Counts(p, a, r, Prevote, x) && x.w == None
    ensures Turn(p, q, a) && On(q) && Done(q, a, r, -1, None, NIL) && N(q, a).proposals == N(p, a).proposals
  {
    hide Leads, Turn, Vote, Held, Counts, FitsIn, Ready, All;
    q := PrecommitsIn(p, a, r, -1, None, x);
    Turned(p, q, a);
  }

  lemma OtherEnds(p: Play, a: Address, r: nat, v: Option<PartSetID>, x: Count) returns (q: Play)
    requires On(p) && a in {1, 2} && Done(p, a, r, -1, None, v) && x.v == v && Counts(p, a, r, Precommit, x) && (x.w.Some? ==> x.w.value.None?)
    ensures Turn(p, q, a) && On(q) && At(q, a, r + 1, NEW_ROUND, -1, None, r)
  {
    hide Leads, Turn, Vote, Held, Counts, FitsIn, Ready, All, Over;
    q := EndsIn(p, a, r, -1, None, x);
    Turned(p, q, a);
  }

  /** What node 0 has to count for its log to tell the story. */
  ghost predicate Tells(r: nat, t: VoteType, x: Count) { (r, t) in Story() && Story()[(r, t)] == All(0, x) }

  ghost predicate TellsOne(r: nat, t: VoteType, v: Option<PartSetID>) { (r, t) in Story() && 0 in Story()[(r, t)] && Story()[(r, t)][0] == v }

  lemma FirstPrecommits(p: Play, r: nat, lr: int, l: Option<PartSetID>, x: Count) returns (q: Play)
    requires Told(p) && Up(p, 0, r, lr, l, x.v) && Counts(p, 0, r, Prevote, x) && (l.Some? && x.w.Some? ==> x.w.value == l)
    requires x.w.Some? ==> x.w == Some(Some(P)) && Backed(p, 0, N(p, 0), P)
    requires Tells(r, Prevote, x) && TellsOne(r, Precommit, Choice(x.w))
    ensures Turn(p, q, 0) && Told(q) && Done(q, 0, r, if x.w.Some? then r else lr, if x.w.Some? then Some(P) else l, Choice(x.w))
    ensures L(q, 0) == L(p, 0) + Written(N(p, 0), 0, x) && N(p, 0).roundWAL <= N(q, 0).roundWAL
    ensures VoteList(VoteListOf(Held(r, Prevote, All(0, x)))) in N(q, 0).roundWAL && OneVote(Vote(0, r, Precommit, Choice(x.w))) in N(q, 0).roundWAL
  {
    hide Leads, Turn, Vote, Held, Counts, FitsIn, Ready, All, Half, Story, VoteListOf, Backed, Written;
    RoundIs(p, 0, r, PREVOTE, lr, l);
    q := Precommits0(p, r, lr, l, x);
    Turned(p, q, 0);
  }

  /** The second turn of all nodes, in a round in which only node 0 may see +2/3 prevotes. */
  lemma AllPrecommit(p: Play, r: nat, lr: int, l: Option<PartSetID>, x: Count, y: Count, z: Count) returns (q: Play)
    requires Told(p) && Up(p, 0, r, lr, l, x.v) && Up(p, 1, r, -1, None, y.v) && Up(p, 2, r, -1, None, z.v)
    requires Counts(p, 0, r, Prevote, x) && Counts(p, 1, r, Prevote, y) && Counts(p, 2, r, Prevote, z) && y.w == None && z.w == None
    requires (l.Some? && x.w.Some? ==> x.w.value == l) && (x.w.Some? ==> x.w == Some(Some(P)) && Backed(p, 0, N(p, 0), P))
    requires Tells(r, Prevote, x) && TellsOne(r, Precommit, Choice(x.w))
    ensures Told(q) && Done(q, 0, r, if x.w.Some? then r else lr, if x.w.Some? then Some(P) else l, Choice(x.w))
    ensures Done(q, 1, r, -1, None, NIL) && Done(q, 2, r, -1, None, NIL)
    ensures L(q, 0) == L(p, 0) + Written(N(p, 0), 0, x) && N(p, 0).roundWAL <= N(q, 0).roundWAL
    ensures VoteList(VoteListOf(Held(r, Prevote, All(0, x)))) in N(q, 0).roundWAL
  {
    hide Leads, Turn, Vote, Held, Counts, FitsIn, Ready, All, VoteListOf, Backed, Written, Up, Done, Tells, TellsOne;
    var p1 := FirstPrecommits(p, r, lr, l, x);
    Turned(p, p1, 0);
    UpStays(p, p1, 0, 1, r, -1, None, y.v);
    UpStays(p, p1, 0, 2, r, -1, None, z.v);
    CountsStay(p, p1, 1, r, Prevote, y);
    CountsStay(p, p1, 2, r, Prevote, z);
    var p2 := OtherPrecommits(p1, 1, r, y);
    ToldStays(p1, p2, 1);
    Turned(p1, p2, 1);
    UpStays(p1, p2, 1, 2, r, -1, None, z.v);
    CountsStay(p1, p2, 2, r, Prevote, z);
    q := OtherPrecommits(p2, 2, r, z);
    ToldStays(p2, q, 2);
    Turned(p2, q, 2);
    DoneStays(p2, q, 2, 1, r, -1, None, NIL);
    var lr', l', v := if x.w.Some? then r else lr, if x.w.Some? then Some(P) else l, Choice(x.w);
    DoneStays(p1, p2, 1, 0, r, lr', l', v);
    DoneStays(p2, q, 2, 0, r, lr', l', v);
  }

  lemma FirstEnds(p: Play, r: nat, lr: int, l: Option<PartSetID>, v: Option<PartSetID>, x: Count) returns (q: Play)
    requires Told(p) && Done(p, 0, r, lr, l, v) && x.v == v && Counts(p, 0, r, Precommit, x) && (x.w.Some? ==> x.w.value.None?) && Tells(r, Precommit, x)
    ensures Turn(p, q, 0) && Told(q) && At(q, 0, r + 1, NEW_ROUND, lr, l, r) && L(q, 0) == L(p, 0) && N(p, 0).roundWAL <= N(q, 0).roundWAL
  {
    hide Leads, Turn, Vote, Held, Counts, FitsIn, Ready, All, Over, Story;
    q := Ends0(p, r, lr, l, x);
    Turned(p, q, 0);
  }

  /** The last turn of all nodes, in a round that decides nothing. */
  lemma AllEnd(p: Play, r: nat, lr: int, l: Option<PartSetID>, x: Count, y: Count, z: Count) returns (q: Play)
    requires Told(p) && Done(p, 0, r, lr, l, x.v) && Done(p, 1, r, -1, None, y.v) && Done(p, 2, r, -1, None, z.v)
    requires Counts(p, 0, r, Precommit, x) && Counts(p, 1, r, Precommit, y) && Counts(p, 2, r, Precommit, z)
    requires (x.w.Some? ==> x.w.value.None?) && (y.w.Some? ==> y.w.value.None?) && (z.w.Some? ==> z.w.value.None?) && Tells(r, Precommit, x)
    ensures Told(q) && At(q, 0, r + 1, NEW_ROUND, lr, l, r) && At(q, 1, r + 1, NEW_ROUND, -1, None, r) && At(q, 2, r + 1, NEW_ROUND, -1, None, r)
    ensures L(q, 0) == L(p, 0) && N(p, 0).roundWAL <= N(q, 0).roundWAL
  {
    hide Leads, Turn, Vote, Held, Counts, FitsIn, Ready, Done, Tells, Stands;
    var p1 := FirstEnds(p, r, lr, l, x.v, x);
    Turned(p, p1, 0);
    DoneStays(p, p1, 0, 1, r, -1, None, y.v);
    DoneStays(p, p1, 0, 2, r, -1, None, z.v);
    CountsStay(p, p1, 1, r, Precommit, y);
    CountsStay(p, p1, 2, r, Precommit, z);
    var p2 := OtherEnds(p1, 1, r, y.v, y);
    ToldStays(p1, p2, 1);
    Turned(p1, p2, 1);
    DoneStays(p1, p2, 1, 2, r, -1, None, z.v);
    CountsStay(p1, p2, 2, r, Precommit, z);
    q := OtherEnds(p2, 2, r, z.v, z);
    ToldStays(p2, q, 2);
    Turned(p2, q, 2);
  }

  lemma BegunUp(p: Play, n: State, a: Address, r: nat, lr: int, l: Option<PartSetID>, v: Option<PartSetID>)
    requires Begun(n, N(p, a), a, r, lr, l, v) && D(p, a) == Stay && Said(p, a, r, Prevote, v)
    ensures Up(p, a, r, lr, l, v)
  {
    hide Vote, Held, Stands;
  }

  /** A node other than the first prevotes. */
  lemma OtherPrevotes(p: Play, a: Address, r: nat, st: nat, v: Option<PartSetID>) returns (q: Play)
    requires On(p) && a in {1, 2} && At(p, a, r, st, -1, None, r - 1) && st in {TRANSACTION_WAIT, NEW_ROUND} && (v.Some? ==> Backed(p, a, N(p, a), v.value))
    ensures Turn(p, q, a) && On(q) && Up(q, a, r, -1, None, v)
  {
    hide Leads, Turn, Vote, Held, Ready, Backed, Begun, Up, Said, Stands;
    q := PrevotesIn(p, a, r, st, -1, None, v);
    Turned(p, q, a);
    BegunUp(q, N(p, a), a, r, -1, None, v);
  }

  lemma AnyOffers(p: Play, a: Address, r: nat, st: nat, id: PartSetID) returns (q: Play)
    requires On(p) && a in {0, 1, 2} && At(p, a, r, st, -1, None, r - 1) && st in {TRANSACTION_WAIT, NEW_ROUND} && (1 + r) % 4 == a
    ensures Turn(p, q, a) && On(q) && Up(q, a, r, -1, None, Some(id)) && HasProposed(N(q, a), r, id)
  {
    hide Leads, Turn, Vote, Held, Ready, Begun, Up, Said, Stands, HasProposed;
    q := OffersIn(p, a, r, st, id);
    Turned(p, q, a);
    BegunUp(q, Proposed1(N(p, a), a, id), a, r, -1, None, Some(id));
  }

  lemma FirstPrevotes(p: Play, r: nat, st: nat, lr: int, l: Option<PartSetID>, v: Option<PartSetID>) returns (q: Play)
    requires Told(p) && At(p, 0, r, st, lr, l, r - 1) && st in {TRANSACTION_WAIT, NEW_ROUND}
    requires (l.Some? ==> l == v) && (v.Some? && l.None? ==> Backed(p, 0, N(p, 0), v.value)) && TellsOne(r, Prevote, v)
    ensures Turn(p, q, 0) && Told(q) && Up(q, 0, r, lr, l, v) && L(q, 0) == L(p, 0) && N(p, 0).roundWAL <= N(q, 0).roundWAL
  {
    hide Leads, Turn, Vote, Held, Ready, Backed, Begun, Up, Said, Stands, Story, FitsIn;
    q := Prevotes0(p, r, st, lr, l, v);
    Turned(p, q, 0);
    BegunUp(q, N(p, 0), 0, r, lr, l, v);
  }

  /** Proposed by node b, as node a knows. */
  lemma BackedBy(p: Play, a: Address, b: Address, r: nat, id: PartSetID)
    requires Ready(p) && a in {0, 1, 2} && b in {0, 1, 2} && (1 + r) % 4 == b && N(p, a).round == r && HasProposed(N(p, b), r, id)
    ensures Backed(p, a, N(p, a), id)
  {
    hide HasProposed;
  }

  lemma BackedByLast(p: Play, a: Address, id: PartSetID)
    requires (1 + N(p, a).round) % 4 == 3
    ensures Backed(p, a, N(p, a), id)
  {}

  lemma AtRound(p: Play, a: Address, r: nat, st: nat, lr: int, l: Option<PartSetID>, last: int)
    requires At(p, a, r, st, lr, l, last)
    ensures N(p, a).round == r && N(p, a).locked == l
  {}

  lemma UpRound(p: Play, a: Address, r: nat, lr: int, l: Option<PartSetID>, v: Option<PartSetID>)
    requires Up(p, a, r, lr, l, v)
    ensures N(p, a).round == r && N(p, a).locked == l && Said(p, a, r, Prevote, v)
  {}

  lemma DoneSaid(p: Play, a: Address, r: nat, lr: int, l: Option<PartSetID>, v: Option<PartSetID>)
    requires Done(p, a, r, lr, l, v)
    ensures Said(p, a, r, Precommit, v)
  {}

  // What nodes 1 and 2 count.

  const B0: Count := Count(Some(P), 0, Some(P), 2, NIL, None)
  const C0: Count := Count(NIL, 0, Some(P), 1, Some(P), None)
  const B0C: Count := Count(NIL, 0, Some(P), 2, NIL, None)
  const C0C: Count := Count(NIL, 0, Some(P), 1, NIL, None)
  const B1: Count := Count(Some(Q), 0, Some(P), 2, Some(Q), None)
  const C1: Count := Count(Some(Q), 0, Some(P), 1, Some(Q), None)
  const B1C: Count := Count(NIL, 0, NIL, 2, NIL, Some(NIL))
  const C1C: Count := Count(NIL, 0, NIL, 1, NIL, Some(NIL))

  lemma Votes0(p: Play)
    requires Up(p, 0, 0, -1, None, Some(P)) && Up(p, 1, 0, -1, None, Some(P)) && Up(p, 2, 0, -1, None, NIL)
    ensures Counts(p, 0, 0, Prevote, A0) && Counts(p, 1, 0, Prevote, B0) && Counts(p, 2, 0, Prevote, C0)
  {
    hide Up, Vote;
    UpRound(p, 0, 0, -1, None, Some(P));
    UpRound(p, 1, 0, -1, None, Some(P));
    UpRound(p, 2, 0, -1, None, NIL);
    Agree(p, 0, 0, Prevote, A0);
    Differ(p, 1, 0, Prevote, B0);
    Differ(p, 2, 0, Prevote, C0);
  }

  lemma Votes0C(p: Play)
    requires Done(p, 0, 0, 0, Some(P), Some(P)) && Done(p, 1, 0, -1, None, NIL) && Done(p, 2, 0, -1, None, NIL)
    ensures Counts(p, 0, 0, Precommit, A0C) && Counts(p, 1, 0, Precommit, B0C) && Counts(p, 2, 0, Precommit, C0C)
  {
    hide Done, Vote;
    DoneSaid(p, 0, 0, 0, Some(P), Some(P));
    DoneSaid(p, 1, 0, -1, None, NIL);
    DoneSaid(p, 2, 0, -1, None, NIL);
    Differ(p, 0, 0, Precommit, A0C);
    Differ(p, 1, 0, Precommit, B0C);
    Differ(p, 2, 0, Precommit, C0C);
  }

  lemma Story0()
    ensures Tells(0, Prevote, A0) && TellsOne(0, Prevote, Some(P)) && TellsOne(0, Precommit, Some(P)) && Tells(0, Precommit, A0C)
  {}

  /** Prevotes of round 0, which node 1 proposes P in. */
  lemma Prevotes00(p: Play) returns (q: Play)
    requires Told(p) && At(p, 0, 0, TRANSACTION_WAIT, -1, None, -1) && At(p, 1, 0, TRANSACTION_WAIT, -1, None, -1) && At(p, 2, 0, TRANSACTION_WAIT, -1, None, -1)
    ensures Told(q) && Up(q, 0, 0, -1, None, Some(P)) && Up(q, 1, 0, -1, None, Some(P)) && Up(q, 2, 0, -1, None, NIL)
    ensures Backed(q, 0, N(q, 0), P) && L(q, 0) == L(p, 0)
  {
    hide Leads, Turn, Vote, Ready, Up, Stands, FitsIn, HasProposed, Backed, TellsOne;
    var p1 := AnyOffers(p, 1, 0, TRANSACTION_WAIT, P);
    Turned(p, p1, 1);
    ToldStays(p, p1, 1);
    AtRound(p1, 0, 0, TRANSACTION_WAIT, -1, None, -1);
    BackedBy(p1, 0, 1, 0, P);
    Story0();
    var p2 := FirstPrevotes(p1, 0, TRANSACTION_WAIT, -1, None, Some(P));
    Turned(p1, p2, 0);
    UpStays(p1, p2, 0, 1, 0, -1, None, Some(P));
    q := OtherPrevotes(p2, 2, 0, TRANSACTION_WAIT, NIL);
    Turned(p2, q, 2);
    ToldStays(p2, q, 2);
    UpStays(p2, q, 2, 0, 0, -1, None, Some(P));
    UpStays(p2, q, 2, 1, 0, -1, None, Some(P));
    UpRound(q, 0, 0, -1, None, Some(P));
    BackedBy(q, 0, 1, 0, P);
  }

  /** Round 0: node 0 locks P. */
  lemma Round0(p: Play) returns (q: Play)
    requires Told(p) && At(p, 0, 0, TRANSACTION_WAIT, -1, None, -1) && At(p, 1, 0, TRANSACTION_WAIT, -1, None, -1) && At(p, 2, 0, TRANSACTION_WAIT, -1, None, -1)
    requires L(p, 0) == []
    ensures Told(q) && At(q, 0, 1, NEW_ROUND, 0, Some(P), 0) && At(q, 1, 1, NEW_ROUND, -1, None, 0) && At(q, 2, 1, NEW_ROUND, -1, None, 0)
    ensures L(q, 0) == [FirstLock()]
  {
    hide Vote, Up, Done, At, Told, Backed, Counts, Tells, TellsOne, Held, VoteListOf;
    var p1 := Prevotes00(p);
    Votes0(p1);
    Story0();
    UpRound(p1, 0, 0, -1, None, Some(P));
    var p2 := AllPrecommit(p1, 0, -1, None, A0, B0, C0);
    Votes0C(p2);
    q := AllEnd(p2, 0, 0, Some(P), A0C, B0C, C0C);
    assert [] + [FirstLock()] == [FirstLock()];
  }

  lemma Votes1(p: Play)
    requires Up(p, 0, 1, 0, Some(P), Some(P)) && Up(p, 1, 1, -1, None, Some(Q)) && Up(p, 2, 1, -1, None, Some(Q))
    ensures Counts(p, 0, 1, Prevote, A1) && Counts(p, 1, 1, Prevote, B1) && Counts(p, 2, 1, Prevote, C1)
  {
    hide Up, Vote;
    UpRound(p, 0, 1, 0, Some(P), Some(P));
    UpRound(p, 1, 1, -1, None, Some(Q));
    UpRound(p, 2, 1, -1, None, Some(Q));
    Differ(p, 0, 1, Prevote, A1);
    Differ(p, 1, 1, Prevote, B1);
    Differ(p, 2, 1, Prevote, C1);
  }

  lemma Votes1C(p: Play)
    requires Done(p, 0, 1, 0, Some(P), NIL) && Done(p, 1, 1, -1, None, NIL) && Done(p, 2, 1, -1, None, NIL)
    ensures Counts(p, 0, 1, Precommit, A1C) && Counts(p, 1, 1, Precommit, B1C) && Counts(p, 2, 1, Precommit, C1C)
  {
    hide Done, Vote;
    DoneSaid(p, 0, 1, 0, Some(P), NIL);
    DoneSaid(p, 1, 1, -1, None, NIL);
    DoneSaid(p, 2, 1, -1, None, NIL);
    Agree(p, 0, 1, Precommit, A1C);
    Agree(p, 1, 1, Precommit, B1C);
    Agree(p, 2, 1, Precommit, C1C);
  }

  lemma Story1()
    ensures Tells(1, Prevote, A1) && TellsOne(1, Prevote, Some(P)) && TellsOne(1, Precommit, NIL) && Tells(1, Precommit, A1C)
  {}

  /** Prevotes of round 1, which node 2 proposes Q in. */
  lemma Prevotes11(p: Play) returns (q: Play)
    requires Told(p) && At(p, 0, 1, NEW_ROUND, 0, Some(P), 0) && At(p, 1, 1, NEW_ROUND, -1, None, 0) && At(p, 2, 1, NEW_ROUND, -1, None, 0)
    ensures Told(q) && Up(q, 0, 1, 0, Some(P), Some(P)) && Up(q, 1, 1, -1, None, Some(Q)) && Up(q, 2, 1, -1, None, Some(Q)) && L(q, 0) == L(p, 0)
  {
    hide Leads, Turn, Vote, Ready, Up, Stands, FitsIn, HasProposed, Backed, TellsOne;
    var p1 := AnyOffers(p, 2, 1, NEW_ROUND, Q);
    Turned(p, p1, 2);
    ToldStays(p, p1, 2);
    Story1();
    var p2 := FirstPrevotes(p1, 1, NEW_ROUND, 0, Some(P), Some(P));
    Turned(p1, p2, 0);
    UpStays(p1, p2, 0, 2, 1, -1, None, Some(Q));
    AtRound(p2, 1, 1, NEW_ROUND, -1, None, 0);
    BackedBy(p2, 1, 2, 1, Q);
    q := OtherPrevotes(p2, 1, 1, NEW_ROUND, Some(Q));
    Turned(p2, q, 1);
    ToldStays(p2, q, 1);
    UpStays(p2, q, 1, 0, 1, 0, Some(P), Some(P));
    UpStays(p2, q, 1, 2, 1, -1, None, Some(Q));
  }

  /** Round 1: prevotes are split, and all precommit nil. */
  lemma Round1(p: Play) returns (q: Play)
    requires Told(p) && At(p, 0, 1, NEW_ROUND, 0, Some(P), 0) && At(p, 1, 1, NEW_ROUND, -1, None, 0) && At(p, 2, 1, NEW_ROUND, -1, None, 0)
    ensures Told(q) && At(q, 0, 2, NEW_ROUND, 0, Some(P), 1) && At(q, 1, 2, NEW_ROUND, -1, None, 1) && At(q, 2, 2, NEW_ROUND, -1, None, 1)
    ensures L(q, 0) == L(p, 0) && VoteList(VoteListOf(Held(1, Prevote, All(0, A1)))) in N(q, 0).roundWAL
  {
    hide Vote, Up, Done, At, Told, Backed, Counts, Tells, TellsOne, Held, VoteListOf, All;
    var p1 := Prevotes11(p);
    Votes1(p1);
    Story1();
    var p2 := AllPrecommit(p1, 1, 0, Some(P), A1, B1, C1);
    Votes1C(p2);
    q := AllEnd(p2, 1, 0, Some(P), A1C, B1C, C1C);
    assert L(p1, 0) + [] == L(p1, 0);
  }

  const B2: Count := Count(Some(P), 0, Some(P), 3, Some(P), Some(Some(P)))
  const C2: Count := Count(NIL, 0, Some(P), 1, Some(P), None)
  const A2C: Count := Count(Some(P), 2, NIL, 3, NIL, None)
  const C2C: Count := Count(NIL, 0, Some(P), 3, NIL, None)
  const A3: Count := Count(Some(R), 2, Some(R), 3, Some(R), Some(Some(R)))
  const C3: Count := Count(Some(R), 0, Some(R), 3, Some(R), Some(Some(R)))

  lemma Votes2(p: Play)
    requires Up(p, 0, 2, 0, Some(P), Some(P)) && Up(p, 1, 2, -1, None, Some(P)) && Up(p, 2, 2, -1, None, NIL)
    ensures Counts(p, 0, 2, Prevote, A2) && Counts(p, 1, 2, Prevote, B2) && Counts(p, 2, 2, Prevote, C2)
  {
    hide Up, Vote;
    UpRound(p, 0, 2, 0, Some(P), Some(P));
    UpRound(p, 1, 2, -1, None, Some(P));
    UpRound(p, 2, 2, -1, None, NIL);
    Agree(p, 0, 2, Prevote, A2);
    Agree(p, 1, 2, Prevote, B2);
    Differ(p, 2, 2, Prevote, C2);
  }

  lemma Story2()
    ensures Tells(2, Prevote, A2) && TellsOne(2, Prevote, Some(P)) && TellsOne(2, Precommit, Some(P))
  {}

  /** Prevotes of round 2, which the faulty validator proposes P in. */
  lemma Prevotes22(p: Play) returns (q: Play)
    requires Told(p) && At(p, 0, 2, NEW_ROUND, 0, Some(P), 1) && At(p, 1, 2, NEW_ROUND, -1, None, 1) && At(p, 2, 2, NEW_ROUND, -1, None, 1)
    ensures Told(q) && Up(q, 0, 2, 0, Some(P), Some(P)) && Up(q, 1, 2, -1, None, Some(P)) && Up(q, 2, 2, -1, None, NIL)
    ensures L(q, 0) == L(p, 0) && N(p, 0).roundWAL <= N(q, 0).roundWAL
  {
    hide Leads, Turn, Vote, Ready, Up, Stands, FitsIn, Backed, TellsOne;
    Story2();
    var p1 := FirstPrevotes(p, 2, NEW_ROUND, 0, Some(P), Some(P));
    Turned(p, p1, 0);
    AtRound(p1, 1, 2, NEW_ROUND, -1, None, 1);
    BackedByLast(p1, 1, P);
    var p2 := OtherPrevotes(p1, 1, 2, NEW_ROUND, Some(P));
    Turned(p1, p2, 1);
    ToldStays(p1, p2, 1);
    UpStays(p1, p2, 1, 0, 2, 0, Some(P), Some(P));
    q := OtherPrevotes(p2, 2, 2, NEW_ROUND, NIL);
    Turned(p2, q, 2);
    ToldStays(p2, q, 2);
    UpStays(p2, q, 2, 0, 2, 0, Some(P), Some(P));
    UpStays(p2, q, 2, 1, 2, -1, None, Some(P));
  }

  /** A node counts three prevotes for a block and locks it. */
  lemma AnyLocks(p: Play, a: Address, r: nat, id: PartSetID, x: Count) returns (q: Play)
    requires On(p) && a in {0, 1, 2} && Up(p, a, r, -1, None, x.v) && Counts(p, a, r, Prevote, x) && x.w == Some(Some(id))
    requires id.count > 0 && Backed(p, a, N(p, a), id)
    ensures Turn(p, q, a) && On(q) && Done(q, a, r, r, Some(id), Some(id)) && N(q, a).proposals == N(p, a).proposals
  {
    hide Leads, Turn, Vote, Held, Counts, Ready, All, Backed, Written;
    RoundIs(p, a, r, PREVOTE, -1, None);
    q := PrecommitsIn(p, a, r, -1, None, x);
    Turned(p, q, a);
  }

  /** Precommits of round 2: node 0 moves its lock, node 1 locks. */
  lemma Precommits22(p: Play) returns (q: Play)
    requires Told(p) && Up(p, 0, 2, 0, Some(P), Some(P)) && Up(p, 1, 2, -1, None, Some(P)) && Up(p, 2, 2, -1, None, NIL)
    ensures Told(q) && Done(q, 0, 2, 2, Some(P), Some(P)) && Done(q, 1, 2, 2, Some(P), Some(P)) && Done(q, 2, 2, -1, None, NIL)
    ensures L(q, 0) == L(p, 0) && N(p, 0).roundWAL <= N(q, 0).roundWAL && OneVote(Vote(0, 2, Precommit, Some(P))) in N(q, 0).roundWAL
  {
    hide Leads, Turn, Vote, Ready, Up, Done, Stands, FitsIn, Backed, Tells, TellsOne, Counts, Held, VoteListOf;
    Votes2(p);
    Story2();
    UpRound(p, 0, 2, 0, Some(P), Some(P));
    BackedByLast(p, 0, P);
    var p1 := FirstPrecommits(p, 2, 0, Some(P), A2);
    assert Written(N(p, 0), 0, A2) == [] && L(p, 0) + [] == L(p, 0);
    Turned(p, p1, 0);
    UpStays(p, p1, 0, 1, 2, -1, None, Some(P));
    UpStays(p, p1, 0, 2, 2, -1, None, NIL);
    CountsStay(p, p1, 1, 2, Prevote, B2);
    CountsStay(p, p1, 2, 2, Prevote, C2);
    UpRound(p1, 1, 2, -1, None, Some(P));
    BackedByLast(p1, 1, P);
    var p2 := AnyLocks(p1, 1, 2, P, B2);
    Turned(p1, p2, 1);
    ToldStays(p1, p2, 1);
    DoneStays(p1, p2, 1, 0, 2, 2, Some(P), Some(P));
    UpStays(p1, p2, 1, 2, 2, -1, None, NIL);
    CountsStay(p1, p2, 2, 2, Prevote, C2);
    q := OtherPrecommits(p2, 2, 2, C2);
    Turned(p2, q, 2);
    ToldStays(p2, q, 2);
    DoneStays(p2, q, 2, 0, 2, 2, Some(P), Some(P));
    DoneStays(p2, q, 2, 1, 2, 2, Some(P), Some(P));
  }

  /** A node counts three precommits for a block and commits it. */
  lemma AnyDecides(p: Play, a: Address, r: nat, id: PartSetID, x: Count) returns (q: Play)
    requires On(p) && a in {0, 1, 2} && Done(p, a, r, r, Some(id), x.v) && Counts(p, a, r, Precommit, x) && x.w == Some(Some(id))
    ensures Turn(p, q, a) && On(q) && (1, id) in N(q, a).decided
  {
    hide Leads, Turn, Vote, Held, Counts, Ready, All;
    q := DecidesIn(p, a, r, r, Some(id), x);
    Turned(p, q, a);
  }

  /** Round 2: node 1 commits P. */
  lemma Round2(p: Play) returns (q: Play)
    requires Told(p) && At(p, 0, 2, NEW_ROUND, 0, Some(P), 1) && At(p, 1, 2, NEW_ROUND, -1, None, 1) && At(p, 2, 2, NEW_ROUND, -1, None, 1)
    requires L(p, 0) == [FirstLock()] && VoteList(VoteListOf(Held(1, Prevote, All(0, A1)))) in N(p, 0).roundWAL
    ensures On(q) && OnDisk(q) && Done(q, 0, 2, 2, Some(P), Some(P)) && Done(q, 2, 2, -1, None, NIL) && (1, P) in N(q, 1).decided
  {
    hide Leads, Turn, Vote, Ready, Up, Done, Stands, FitsIn, Counts, Held, VoteListOf, All;
    var p1 := Prevotes22(p);
    var p2 := Precommits22(p1);
    DoneSaid(p2, 0, 2, 2, Some(P), Some(P));
    SaidShows(p2, 0, 2, Precommit, Some(P));
    SaidShows(p2, 3, 2, Precommit, Some(P));
    Agree(p2, 1, 2, Precommit, B2);
    q := AnyDecides(p2, 1, 2, P, B2);
    Turned(p2, q, 1);
    DoneStays(p2, q, 1, 0, 2, 2, Some(P), Some(P));
    DoneStays(p2, q, 1, 2, 2, -1, None, NIL);
  }

  /** Node 0 restarts and loses its lock; nodes 0 and 2 give round 2 up. */
  lemma Crash(p: Play) returns (q: Play)
    requires On(p) && OnDisk(p) && Done(p, 0, 2, 2, Some(P), Some(P)) && Done(p, 2, 2, -1, None, NIL)
    ensures On(q) && At(q, 0, 3, NEW_ROUND, -1, None, 2) && At(q, 2, 3, NEW_ROUND, -1, None, 2) && N(q, 1) == N(p, 1)
  {
    hide Leads, Turn, Vote, Ready, Done, Stands, Counts, Held, OnDisk, Back, Holds, Over;
    DoneSaid(p, 0, 2, 2, Some(P), Some(P));
    var p1 := Restarts(p);
    Turned(p, p1, 0);
    DoneStays(p, p1, 0, 2, 2, -1, None, NIL);
    var p2 := Unlocks1(p1);
    Turned(p1, p2, 0);
    DoneStays(p1, p2, 0, 2, 2, -1, None, NIL);
    SaidStays(p, p2, 0, 2, Precommit, Some(P));
    DoneSaid(p2, 2, 2, -1, None, NIL);
    SaidShows(p2, 2, 2, Precommit, NIL);
    SaidShows(p2, 3, 2, Precommit, NIL);
    Differ(p2, 0, 2, Precommit, A2C);
    var p3 := EndsIn(p2, 0, 2, -1, None, A2C);
    Turned(p2, p3, 0);
    DoneStays(p2, p3, 0, 2, 2, -1, None, NIL);
    SaidStays(p2, p3, 0, 2, Precommit, Some(P));
    SaidShows(p3, 0, 2, Precommit, Some(P));
    SaidShows(p3, 3, 2, Precommit, NIL);
    Differ(p3, 2, 2, Precommit, C2C);
    q := OtherEnds(p3, 2, 2, NIL, C2C);
    Turned(p3, q, 2);
  }

  /** Round 3: node 0 proposes R, and node 2 commits it. */
  lemma Round3(p: Play) returns (q: Play)
    requires On(p) && At(p, 0, 3, NEW_ROUND, -1, None, 2) && At(p, 2, 3, NEW_ROUND, -1, None, 2)
    ensures On(q) && (1, R) in N(q, 2).decided && N(q, 1) == N(p, 1)
  {
    hide Leads, Turn, Vote, Ready, Up, Done, Stands, Counts, Held, Backed, HasProposed;
    var p1 := AnyOffers(p, 0, 3, NEW_ROUND, R);
    Turned(p, p1, 0);
    AtRound(p1, 2, 3, NEW_ROUND, -1, None, 2);
    BackedBy(p1, 2, 0, 3, R);
    var p2 := OtherPrevotes(p1, 2, 3, NEW_ROUND, Some(R));
    Turned(p1, p2, 2);
    UpStays(p1, p2, 2, 0, 3, -1, None, Some(R));
    var p3 := Locks3(p2);
    q := Decides3(p3);
  }

  lemma Locks3(p: Play) returns (q: Play)
    requires On(p) && Up(p, 0, 3, -1, None, Some(R)) && Up(p, 2, 3, -1, None, Some(R)) && HasProposed(N(p, 0), 3, R)
    ensures On(q) && Done(q, 0, 3, 3, Some(R), Some(R)) && Done(q, 2, 3, 3, Some(R), Some(R)) && N(q, 1) == N(p, 1)
  {
    hide Leads, Turn, Vote, Ready, Up, Done, Counts, Backed;
    UpRound(p, 0, 3, -1, None, Some(R));
    UpRound(p, 2, 3, -1, None, Some(R));
    SaidShows(p, 2, 3, Prevote, Some(R));
    SaidShows(p, 3, 3, Prevote, Some(R));
    Agree(p, 0, 3, Prevote, A3);
    BackedBy(p, 0, 0, 3, R);
    var p1 := AnyLocks(p, 0, 3, R, A3);
    Turned(p, p1, 0);
    UpStays(p, p1, 0, 2, 3, -1, None, Some(R));
    UpRound(p1, 2, 3, -1, None, Some(R));
    SaidStays(p, p1, 0, 3, Prevote, Some(R));
    SaidShows(p1, 0, 3, Prevote, Some(R));
    SaidShows(p1, 3, 3, Prevote, Some(R));
    Agree(p1, 2, 3, Prevote, C3);
    BackedBy(p1, 2, 0, 3, R);
    q := AnyLocks(p1, 2, 3, R, C3);
    Turned(p1, q, 2);
    DoneStays(p1, q, 2, 0, 3, 3, Some(R), Some(R));
  }

  lemma Decides3(p: Play) returns (q: Play)
    requires On(p) && Done(p, 0, 3, 3, Some(R), Some(R)) && Done(p, 2, 3, 3, Some(R), Some(R))
    ensures On(q) && (1, R) in N(q, 2).decided && N(q, 1) == N(p, 1)
  {
    hide Leads, Turn, Vote, Ready, Done, Counts;
    DoneSaid(p, 0, 3, 3, Some(R), Some(R));
    SaidShows(p, 0, 3, Precommit, Some(R));
    SaidShows(p, 3, 3, Precommit, Some(R));
    Agree(p, 2, 3, Precommit, C3);
    q := AnyDecides(p, 2, 3, R, C3);
    Turned(p, q, 2);
  }

  /** The wait for transactions at the beginning of a height. */
  lemma Waits(p: Play, a: Address) returns (q: Play)
    requires On(p) && a in {0, 1, 2} && N(p, a) == Start(1) && D(p, a) == Stay
    ensures Turn(p, q, a) && On(q) && At(q, a, 0, TRANSACTION_WAIT, -1, None, -1) && N(q, a).roundWAL == [] && L(q, a) == L(p, a)
  {
    hide Moves, With, Leads;
    var n := N(p, a);
    Still(p, a);
    ThenGoes(p, a, n, [], [], Stay, Event.EnterTransactionWait, n.(step := TRANSACTION_WAIT), Stay);
    q := TurnOf(p, a, n.(step := TRANSACTION_WAIT), [], [], Stay);
    Turned(p, q, a);
  }

  lemma OpeningOn()
    ensures On(Opening()) && forall a :: a in {0, 1, 2} ==> N(Opening(), a) == Start(1) && D(Opening(), a) == Stay && L(Opening(), a) == []
  {
    hide CanPlay, Played;
    var none: seq<(Address, Event)> := [];
    assert Plays(NET, Opening(), none) && Outcome(NET, Opening(), none) == Opening();
    assert START.Keys == {0, 1, 2};
  }

  lemma Begins0() returns (q: Play)
    ensures Told(q) && At(q, 0, 0, TRANSACTION_WAIT, -1, None, -1) && At(q, 1, 0, TRANSACTION_WAIT, -1, None, -1) && At(q, 2, 0, TRANSACTION_WAIT, -1, None, -1)
    ensures L(q, 0) == []
  {
    hide Leads, Turn, Ready, Stands, Opening;
    OpeningOn();
    var p1 := Waits(Opening(), 0);
    Turned(Opening(), p1, 0);
    var p2 := Waits(p1, 1);
    Turned(p1, p2, 1);
    q := Waits(p2, 2);
    Turned(p2, q, 2);
  }

  /** One validator of four is faulty, every log is read back in full, and every node does what its handlers prescribe:
      still two honest nodes commit different blocks. */
  lemma {:induction false} RelockForgotten() returns (acts: seq<(Address, Event)>, q: Play)
    ensures FewFaulty(NET) && START.Keys == NET.honest
    ensures Plays(NET, Opening(), acts) && Outcome(NET, Opening(), acts) == q
    ensures 1 in q.w.sys.nodes && 2 in q.w.sys.nodes && P != R
    ensures (1, P) in q.w.sys.nodes[1].decided && (1, R) in q.w.sys.nodes[2].decided
  {
    hide Told, At, Done, OnDisk, Vote, Held, Ready, Plays, Outcome, Opening, VoteListOf;
    FewFaultyHere();
    var p0 := Begins0();
    var p1 := Round0(p0);
    var p2 := Round1(p1);
    var p3 := Round2(p2);
    var p4 := Crash(p3);
    q := Round3(p4);
    ReadyNodes(q);
    acts :| Plays(NET, Opening(), acts) && Outcome(NET, Opening(), acts) == q;
  }
}
