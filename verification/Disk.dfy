/** A system of nodes with their lock logs on disk: what a restart finds there, which restarts keep a lock, and agreement
    for the runs in which they do. */
module Disks {
  import opened Votes
  import opened Quorum
  import opened VoteSets
  import opened Node
  import opened NodeSafety
  import opened Agreement
  import opened Logs
  import opened LockLogs

  /** A lock as it was written: where it was made, the prevotes it rests on, and the block. */
  datatype Lock = Lock(height: nat, round: nat, msgs: Ballots, id: PartSetID)

  /** The lock log. */
  function LogOf(ls: seq<Lock>): seq<Record> {
    if ls == [] then []
    else
      var l := ls[|ls| - 1];
      LogOf(ls[..|ls| - 1]) + LockRecords(l.height, l.msgs, l.id)
  }

  /** The lock that entering the precommit step writes, if it writes one. */
  function NewLock(c: Node, s: State, have: bool): seq<Lock> {
    var p := Polka(c, s, s.round, Prevote);
    if p.Some? && p.value.Some? && s.locked != p.value && have
    then [Lock(s.height, s.round, Tally(c, s, s.round, Prevote), p.value.value)] else []
  }

  lemma {:induction false} LogGrowsBy(c: Node, s: State, have: bool, ls: seq<Lock>)
    ensures LogOf(ls + NewLock(c, s, have)) == LogOf(ls) + LockLogged(c, s, have)
  {
    hide Polka, LockRecords;
    var l := NewLock(c, s, have);
    if l == [] { assert ls + l == ls && LogOf(ls) + [] == LogOf(ls); } else { assert (ls + l)[..|ls|] == ls; }
  }

  // --- runs ----------------------------------------------------------------------------------------

  datatype World = World(sys: System, locks: map<Address, seq<Lock>>)

  /** What an honest node can do next. A restart reads back the lock log as it was written, and a block has parts. */
  ghost predicate Can(net: Net, w: World, a: Address, e: Event) {
    && Possible(net, w.sys, a, e) && a in w.locks
    && (e.Restart? ==> e.lockWAL == LogOf(w.locks[a]))
    && (e.EnterPrecommit? ==> forall l :: l in NewLock(Node(a, net.lists), w.sys.nodes[a], e.have) ==> l.id.count > 0)
  }

  ghost function Do(net: Net, w: World, a: Address, e: Event): World
    requires Can(net, w, a, e)
  {
    var more := if e.EnterPrecommit? then NewLock(Node(a, net.lists), w.sys.nodes[a], e.have) else [];
    World(Act(net, w.sys, a, e), w.locks[a := w.locks[a] + more])
  }

  ghost predicate Runs(net: Net, w: World, acts: seq<(Address, Event)>)
    decreases |acts|, 0
  {
    acts == [] || (Runs(net, w, acts[..|acts| - 1])
                   && Can(net, Reaches(net, w, acts[..|acts| - 1]), acts[|acts| - 1].0, acts[|acts| - 1].1))
  }

  ghost function Reaches(net: Net, w: World, acts: seq<(Address, Event)>): World
    requires Runs(net, w, acts)
    decreases |acts|, 1
  {
    if acts == [] then w else Do(net, Reaches(net, w, acts[..|acts| - 1]), acts[|acts| - 1].0, acts[|acts| - 1].1)
  }

  /** Each honest node starts at a height of its own, with nothing on disk. */
  ghost function Begin(start: map<Address, nat>): World {
    World(System(map a | a in start :: Start(start[a]), []), map a | a in start :: [])
  }

  /** Fewer than a third of the validators are faulty, at each height that has any. */
  ghost predicate FewFaulty(net: Net) { forall h :: net.vals(h) != [] ==> 3 * |Faulty(net, h)| < |net.vals(h)| }

  // --- what is on disk -----------------------------------------------------------------------------

  /** A lock on disk rests on +2/3 prevotes that exist. */
  ghost predicate LockOk(net: Net, log: seq<VoteMessage>, l: Lock) {
    && |l.msgs| == |net.vals(l.height)| && l.id.count > 0
    && VotesOk(net, log, l.height, map[(l.round, Prevote) := l.msgs])
    && Won(l)
  }

  ghost predicate Won(l: Lock) { exists d :: Wins(l.msgs, d) && d.PartSet() == Some(l.id) }

  /** The last lock written is for the block that a locked node is locked on. */
  ghost predicate DiskOk(net: Net, log: seq<VoteMessage>, n: State, ls: seq<Lock>) {
    && (forall i :: 0 <= i < |ls| ==> LockOk(net, log, ls[i]) && ls[i].height <= n.height)
    && (forall i, j :: 0 <= i < j < |ls| ==> ls[i].height <= ls[j].height)
    && (n.locked.Some? ==> Last(ls, n.height) == n.locked)
  }

  /** The block of the last lock on disk, if it is of this height. */
  function Last(ls: seq<Lock>, h: nat): Option<PartSetID> {
    if ls != [] && ls[|ls| - 1].height == h then Some(ls[|ls| - 1].id) else None
  }

  function LastRound(ls: seq<Lock>, h: nat): int {
    if ls != [] && ls[|ls| - 1].height == h then ls[|ls| - 1].round else -1
  }

  ghost predicate WorldOk(net: Net, w: World) {
    && BaseOk(net, w.sys) && w.locks.Keys == net.honest
    && forall a :: a in w.locks ==> DiskOk(net, w.sys.log, w.sys.nodes[a], w.locks[a])
  }

  // --- reading it back -----------------------------------------------------------------------------

  lemma LockPlaced(net: Net, log: seq<VoteMessage>, l: Lock)
    requires LockOk(net, log, l)
    ensures Placed(net.vals(l.height), l.height, l.round, Prevote, l.msgs)
  {
    var b: Book := map[(l.round, Prevote) := l.msgs];
    forall i | 0 <= i < |l.msgs| && l.msgs[i].Some? ensures PlacedAt(net.vals(l.height), l.height, l.round, Prevote, i, l.msgs[i].value) {
      assert EntryOk(net, log, l.height, l.round, Prevote, i, b[(l.round, Prevote)][i].value);
    }
  }

  /** However many prevotes of the round are read back, they have +2/3 for nothing but the block of the lock. */
  lemma NoneBeats(net: Net, log: seq<VoteMessage>, l: Lock, votes: Book)
    requires LockOk(net, log, l) && LogOrdered(log) && FewFaulty(net)
    requires VotesOk(net, log, l.height, votes) && Sized(votes, |net.vals(l.height)|)
    ensures NoRival(VotesFor(votes, |net.vals(l.height)|, l.round, Prevote), l.id)
  {
    hide VotesOk, LogOrdered, CanWin, Faulty;
    var h, msgs := l.height, VotesFor(votes, |net.vals(l.height)|, l.round, Prevote);
    var d :| Wins(l.msgs, d) && d.PartSet() == Some(l.id);
    var i :| i in Voters(l.msgs, d);
    var b: Book := map[(l.round, Prevote) := l.msgs];
    assert VotesFor(b, |net.vals(h)|, l.round, Prevote) == l.msgs;
    WinnerIsReal(net, log, h, b, l.round, Prevote, d);
    forall d' | Wins(msgs, d') ensures d'.PartSet() == Some(l.id) {
      WinnerIsReal(net, log, h, votes, l.round, Prevote, d');
      OnePerRound(net, log, h, l.round, Prevote, Some(l.id), d'.PartSet());
    }
  }

  lemma PrefixAuthentic(net: Net, log: seq<VoteMessage>, xs: seq<Record>, ys: seq<Record>)
    requires LogAuthentic(net, log, xs + ys)
    ensures LogAuthentic(net, log, xs) && LogAuthentic(net, log, ys)
  {
    forall i | 0 <= i < |xs| ensures RecordAuthentic(net, log, xs[i]) { assert (xs + ys)[i] == xs[i]; }
    forall i | 0 <= i < |ys| ensures RecordAuthentic(net, log, ys[i]) { assert (xs + ys)[|xs| + i] == ys[i]; }
  }

  /** The lock written last is locked again, if it is of this height. */
  lemma {:induction false} LastLockRead(net: Net, log: seq<VoteMessage>, a: Address, s: State, e: Event, ls: seq<Lock>)
    requires e.Restart? && Enabled(Node(a, net.lists), s, e) && e.lockWAL == LogOf(ls) && ls != [] && ls[|ls| - 1].height == e.h
    requires LogAuthentic(net, log, s.roundWAL) && LogAuthentic(net, log, e.lockWAL)
    requires LockOk(net, log, ls[|ls| - 1]) && LogOrdered(log) && FewFaulty(net)
    ensures Next(Node(a, net.lists), s, e).locked == Some(ls[|ls| - 1].id) && Next(Node(a, net.lists), s, e).lockedRound == ls[|ls| - 1].round
  {
    hide Next, Enabled, LogAuthentic, LogOrdered, FewFaulty, ReplayLog, ReplayVotes, VotesOk, VoteListOf, Placed, NoRival;
    var c, h, l, lw := Node(a, net.lists), e.h, ls[|ls| - 1], LogOf(ls[..|ls| - 1]);
    KeptWithin(c, s, e);
    var rw := s.roundWAL[..e.kept];
    assert rw + s.roundWAL[e.kept..] == s.roundWAL;
    PrefixAuthentic(net, log, rw, s.roundWAL[e.kept..]);
    PrefixAuthentic(net, log, lw, LockRecords(h, l.msgs, l.id));
    var x := ReplayLog(c, h, EMPTY, RoundLog, rw);
    NothingHeld(net, log, h);
    ReplayedLogOk(net, log, a, h, EMPTY, RoundLog, rw);
    ReplayedLogOk(net, log, a, h, x, LockLog, lw);
    var y := ReplayLog(c, h, x, LockLog, lw);
    ListIsAuthentic(net, log, h, l);
    ReplayedVotesOk(net, log, a, h, y, VoteListOf(l.msgs), false);
    NoneBeats(net, log, l, ReplayVotes(c, h, y, VoteListOf(l.msgs), false).votes);
    LockPlaced(net, log, l);
    var d :| Wins(l.msgs, d) && d.PartSet() == Some(l.id);
    LockSurvives(c, s, e, lw, l.round, l.msgs, d, l.id);
  }

  lemma KeptWithin(c: Node, s: State, e: Event)
    requires e.Restart? && Enabled(c, s, e)
    ensures e.kept <= |s.roundWAL|
  {}

  lemma NothingHeld(net: Net, log: seq<VoteMessage>, h: nat)
    ensures VotesOk(net, log, h, EMPTY.votes) && Sized(EMPTY.votes, |net.vals(h)|)
  {}

  lemma ListIsAuthentic(net: Net, log: seq<VoteMessage>, h: nat, l: Lock)
    requires LogAuthentic(net, log, LockRecords(h, l.msgs, l.id))
    ensures forall m :: m in VoteListOf(l.msgs) ==> Authentic(net, log, m)
  {
    assert RecordAuthentic(net, log, LockRecords(h, l.msgs, l.id)[0]);
  }

  lemma {:induction false} RoundKeepsLock(c: Node, h: nat, a: Replay, recs: seq<Record>)
    requires Sized(a.votes, |c.vals(h)|)
    ensures ReplayLog(c, h, a, RoundLog, recs).lock == a.lock
  {
    if recs != [] { RoundKeepsLock(c, h, a, recs[..|recs| - 1]); }
  }

  lemma {:induction false} PartsIgnored(c: Node, h: nat, a: Replay, h': nat, id: PartSetID, n: nat)
    requires Sized(a.votes, |c.vals(h)|) && h' != h
    ensures ReplayLog(c, h, a, LockLog, PartRecords(h', id, n)) == a
  {
    if n > 0 {
      PartsIgnored(c, h, a, h', id, n - 1);
      assert PartRecords(h', id, n)[..n - 1] == PartRecords(h', id, n - 1);
    }
  }

  /** Locks of other heights lock nothing. */
  lemma OtherHeight(c: Node, h: nat, a: Replay, l: Lock)
    requires Sized(a.votes, |c.vals(h)|) && l.height != h
    requires forall m :: m in VoteListOf(l.msgs) ==> m.height == l.height
    ensures ReplayLog(c, h, a, LockLog, LockRecords(l.height, l.msgs, l.id)).lock == a.lock
  {
    hide VoteListOf, ReplayVotes;
    var list := [VoteList(VoteListOf(l.msgs))];
    ReplayCat(c, h, a, LockLog, list, PartRecords(l.height, l.id, l.id.count));
    assert list[..0] == [];
    var b := ReplayLock(c, h, a, list[0]);
    assert ReplayLog(c, h, a, LockLog, list) == b;
    PartsIgnored(c, h, b, l.height, l.id, l.id.count);
  }

  lemma ListHeight(net: Net, log: seq<VoteMessage>, l: Lock)
    requires LockOk(net, log, l)
    ensures forall m :: m in VoteListOf(l.msgs) ==> m.height == l.height
  {
    hide VoteListOf;
    LockPlaced(net, log, l);
    forall m | m in VoteListOf(l.msgs) ensures m.height == l.height {
      assert Some(m) in l.msgs;
      var i :| 0 <= i < |l.msgs| && l.msgs[i] == Some(m);
      assert PlacedAt(net.vals(l.height), l.height, l.round, Prevote, i, m);
    }
  }

  lemma {:induction false} OtherHeights(net: Net, log: seq<VoteMessage>, c: Node, h: nat, a: Replay, ls: seq<Lock>)
    requires Sized(a.votes, |c.vals(h)|) && forall i :: 0 <= i < |ls| ==> LockOk(net, log, ls[i]) && ls[i].height != h
    ensures ReplayLog(c, h, a, LockLog, LogOf(ls)).lock == a.lock
  {
    if ls != [] {
      hide LockOk, LockRecords, ReplayRecord;
      var front, l := ls[..|ls| - 1], ls[|ls| - 1];
      OtherHeights(net, log, c, h, a, front);
      ReplayCat(c, h, a, LockLog, LogOf(front), LockRecords(l.height, l.msgs, l.id));
      ListHeight(net, log, l);
      OtherHeight(c, h, ReplayLog(c, h, a, LockLog, LogOf(front)), l);
    }
  }

  lemma {:induction false} NoLockRead(net: Net, log: seq<VoteMessage>, a: Address, s: State, e: Event, ls: seq<Lock>)
    requires e.Restart? && Enabled(Node(a, net.lists), s, e) && e.lockWAL == LogOf(ls)
    requires forall i :: 0 <= i < |ls| ==> LockOk(net, log, ls[i]) && ls[i].height != e.h
    ensures Next(Node(a, net.lists), s, e).locked == None && Next(Node(a, net.lists), s, e).lockedRound == -1
  {
    hide ReplayLog, LockOk;
    var c, h := Node(a, net.lists), e.h;
    var x := ReplayLog(c, h, EMPTY, RoundLog, s.roundWAL[..e.kept]);
    RoundKeepsLock(c, h, EMPTY, s.roundWAL[..e.kept]);
    OtherHeights(net, log, c, h, x, ls);
    CommitKeepsLock(c, h, ReplayLog(c, h, x, LockLog, e.lockWAL), e.commitWAL);
  }

  /** A restart locks exactly the last lock on disk, in the round it was written in, if it is of the height resumed. */
  lemma {:induction false} RestartLocks(net: Net, w: World, a: Address, e: Event)
    requires WorldOk(net, w) && Can(net, w, a, e) && e.Restart? && FewFaulty(net)
    ensures var n := Next(Node(a, net.lists), w.sys.nodes[a], e);
      n.height == e.h && n.locked == Last(w.locks[a], e.h) && n.lockedRound == LastRound(w.locks[a], e.h)
  {
    hide LogAuthentic, LogOrdered, FewFaulty, LockOk, ReplayAll, Inv, BookOk;
    var n, ls := w.sys.nodes[a], w.locks[a];
    assert NodeBase(net, w.sys.log, a, n) && DiskOk(net, w.sys.log, n, ls);
    if ls != [] && ls[|ls| - 1].height == e.h {
      LastLockRead(net, w.sys.log, a, n, e, ls);
    } else {
      NoLockRead(net, w.sys.log, a, n, e, ls);
    }
  }

  // --- every run -----------------------------------------------------------------------------------

  lemma LockStays(net: Net, log: seq<VoteMessage>, log': seq<VoteMessage>, l: Lock)
    requires LockOk(net, log, l) && Extends(log, log')
    ensures LockOk(net, log', l)
  {
    var b: Book := map[(l.round, Prevote) := l.msgs];
    forall k, i | k in b && 0 <= i < |b[k]| && b[k][i].Some? ensures EntryOk(net, log', l.height, k.0, k.1, i, b[k][i].value) {
      AuthenticGrows(net, log, log', b[k][i].value);
    }
  }

  lemma DiskStays(net: Net, log: seq<VoteMessage>, log': seq<VoteMessage>, n: State, ls: seq<Lock>)
    requires DiskOk(net, log, n, ls) && Extends(log, log')
    ensures DiskOk(net, log', n, ls)
  {
    hide LockOk;
    forall i | 0 <= i < |ls| ensures LockOk(net, log', ls[i]) { LockStays(net, log, log', ls[i]); }
  }

  lemma NewLockOk(net: Net, log: seq<VoteMessage>, a: Address, s: State, have: bool)
    requires BookOk(net, log, s) && Sized(s.votes, |net.vals(s.height)|)
    ensures forall l :: l in NewLock(Node(a, net.lists), s, have) && l.id.count > 0 ==> LockOk(net, log, l)
  {
    var c := Node(a, net.lists);
    if NewLock(c, s, have) != [] {
      var l := NewLock(c, s, have)[0];
      assert Wins(l.msgs, Winner(l.msgs).value);
      assert Won(l);
    }
  }

  /** Entering the precommit step writes a new lock, and only that. */
  lemma PrecommitKeepsDisk(net: Net, log: seq<VoteMessage>, a: Address, s: State, have: bool, s': State, ls: seq<Lock>)
    requires DiskOk(net, log, s, ls) && BookOk(net, log, s) && Sized(s.votes, |net.vals(s.height)|)
    requires forall l :: l in NewLock(Node(a, net.lists), s, have) ==> l.id.count > 0
    requires s'.height == s.height && s'.locked == LockAfter(Node(a, net.lists), s, have).1
    ensures DiskOk(net, log, s', ls + NewLock(Node(a, net.lists), s, have))
  {
    hide LockOk, BookOk, Polka;
    NewLockOk(net, log, a, s, have);
    var more := NewLock(Node(a, net.lists), s, have);
    if more == [] { assert ls + more == ls; }
  }

  /** Events other than that and restarts change a lock only by giving it up. */
  lemma EventKeepsLock(c: Node, s: State, e: Event)
    requires Enabled(c, s, e) && !e.Restart? && !e.EnterPrecommit?
    ensures var s' := Next(c, s, e); s.height <= s'.height && (s'.locked.Some? ==> s'.locked == s.locked && s'.height == s.height)
  {
    hide Winner, VoteListOf, Present, AddTo, Pruned, Polka;
  }

  lemma PrecommitLock(c: Node, s: State, e: Event)
    requires e.EnterPrecommit? && Enabled(c, s, e)
    ensures Next(c, s, e).height == s.height && Next(c, s, e).locked == LockAfter(c, s, e.have).1
  {}

  lemma {:induction false} ActorDisk(net: Net, w: World, a: Address, e: Event)
    requires WorldOk(net, w) && Can(net, w, a, e) && FewFaulty(net)
    ensures DiskOk(net, w.sys.log, Do(net, w, a, e).sys.nodes[a], Do(net, w, a, e).locks[a])
  {
    hide Next, LockOk, BookOk, Inv, LogAuthentic, LogOrdered, FewFaulty, Polka, LockAfter, NewLock, ReadsBack;
    var c, n, ls := Node(a, net.lists), w.sys.nodes[a], w.locks[a];
    assert NodeBase(net, w.sys.log, a, n) && DiskOk(net, w.sys.log, n, ls);
    var none: seq<Lock> := [];
    assert ls + none == ls;
    if e.EnterPrecommit? {
      PrecommitLock(c, n, e);
      PrecommitKeepsDisk(net, w.sys.log, a, n, e.have, Next(c, n, e), ls);
    } else if e.Restart? {
      RestartLocks(net, w, a, e);
    } else {
      EventKeepsLock(c, n, e);
    }
  }

  lemma {:induction false} WorldStep(net: Net, w: World, a: Address, e: Event)
    requires WorldOk(net, w) && Can(net, w, a, e) && FewFaulty(net)
    ensures WorldOk(net, Do(net, w, a, e))
  {
    hide Next, Enabled, BaseOk, DiskOk, FewFaulty, NewLock, LogOf;
    var w' := Do(net, w, a, e);
    BaseStep(net, w.sys, a, e);
    ActorDisk(net, w, a, e);
    BaseNodes(net, w.sys);
    forall b | b in w'.locks ensures DiskOk(net, w'.sys.log, w'.sys.nodes[b], w'.locks[b]) {
      DiskStays(net, w.sys.log, w'.sys.log, w'.sys.nodes[b], w'.locks[b]);
    }
  }

  lemma BaseNodes(net: Net, s: System)
    requires BaseOk(net, s)
    ensures s.nodes.Keys == net.honest
  {}

  lemma BeginOk(net: Net, start: map<Address, nat>)
    requires start.Keys == net.honest
    ensures WorldOk(net, Begin(start))
  {}

  /** In every run, whatever restarts do, the lock log of a locked node ends with the lock on its block written last. */
  lemma {:induction false} WorldRun(net: Net, start: map<Address, nat>, acts: seq<(Address, Event)>)
    requires start.Keys == net.honest && Runs(net, Begin(start), acts) && FewFaulty(net)
    ensures WorldOk(net, Reaches(net, Begin(start), acts))
  {
    hide WorldOk, FewFaulty, Can, Do, Begin;
    if acts == [] {
      BeginOk(net, start);
    } else {
      WorldRun(net, start, acts[..|acts| - 1]);
      WorldStep(net, Reaches(net, Begin(start), acts[..|acts| - 1]), acts[|acts| - 1].0, acts[|acts| - 1].1);
    }
  }

  /** The votes of a lock on disk exist. */
  lemma LockAuthentic(net: Net, log: seq<VoteMessage>, l: Lock)
    requires LockOk(net, log, l)
    ensures LogAuthentic(net, log, LockRecords(l.height, l.msgs, l.id))
  {
    hide VoteListOf;
    var b: Book := map[(l.round, Prevote) := l.msgs];
    forall m | m in VoteListOf(l.msgs) ensures Authentic(net, log, m) {
      assert Some(m) in l.msgs;
      var i :| 0 <= i < |l.msgs| && l.msgs[i] == Some(m);
      assert EntryOk(net, log, l.height, l.round, Prevote, i, b[(l.round, Prevote)][i].value);
    }
  }

  /** So the lock log can be read back. */
  lemma {:induction false} DiskAuthentic(net: Net, log: seq<VoteMessage>, ls: seq<Lock>)
    requires forall i :: 0 <= i < |ls| ==> LockOk(net, log, ls[i])
    ensures LogAuthentic(net, log, LogOf(ls))
  {
    hide LockOk, LockRecords, RecordAuthentic;
    if ls != [] {
      var l := ls[|ls| - 1];
      DiskAuthentic(net, log, ls[..|ls| - 1]);
      LockAuthentic(net, log, l);
    }
  }

  // --- agreement -----------------------------------------------------------------------------------

  /** The lock is in the round in which it was written. */
  predicate Unmoved(n: State, ls: seq<Lock>) { n.locked.Some? ==> n.lockedRound == LastRound(ls, n.height) }

  /** Which restarts keep a lock: in every run, exactly those at which the lock has not moved since it was written. */
  lemma {:induction false} KeepsLockIff(net: Net, start: map<Address, nat>, acts: seq<(Address, Event)>, a: Address, e: Event)
    requires start.Keys == net.honest && Runs(net, Begin(start), acts) && FewFaulty(net)
    requires var w := Reaches(net, Begin(start), acts); Can(net, w, a, e) && e.Restart? && e.h == w.sys.nodes[a].height
    ensures var w := Reaches(net, Begin(start), acts);
      KeepsLock(w.sys.nodes[a], Next(Node(a, net.lists), w.sys.nodes[a], e)) <==> Unmoved(w.sys.nodes[a], w.locks[a])
  {
    hide Next, Runs, Reaches, Begin, FewFaulty, Possible, BaseOk, LogOf, NewLock;
    WorldRun(net, start, acts);
    var w := Reaches(net, Begin(start), acts);
    InLocks(net, w, a, e);
    RestartLocks(net, w, a, e);
    assert DiskOk(net, w.sys.log, w.sys.nodes[a], w.locks[a]);
  }

  lemma InLocks(net: Net, w: World, a: Address, e: Event)
    requires Can(net, w, a, e)
    ensures a in w.locks && a in w.sys.nodes && Enabled(Node(a, net.lists), w.sys.nodes[a], e)
  {}

  /** Nodes restart only while their lock has not moved since it was written. */
  ghost predicate StillRuns(net: Net, w: World, acts: seq<(Address, Event)>)
    requires Runs(net, w, acts)
  {
    acts == [] ||
    (var front, (a, e) := acts[..|acts| - 1], acts[|acts| - 1];
     var v := Reaches(net, w, front);
     StillRuns(net, w, front) && (e.Restart? ==> Unmoved(v.sys.nodes[a], v.locks[a])))
  }

  lemma {:induction false} StillIsRun(net: Net, start: map<Address, nat>, acts: seq<(Address, Event)>)
    requires start.Keys == net.honest && Runs(net, Begin(start), acts) && FewFaulty(net) && StillRuns(net, Begin(start), acts)
    ensures Run(net, start, acts) && Reach(net, start, acts) == Reaches(net, Begin(start), acts).sys
  {
    hide Next, FewFaulty, Enabled, LogOf, NewLock;
    if acts != [] {
      var front, a, e := acts[..|acts| - 1], acts[|acts| - 1].0, acts[|acts| - 1].1;
      StillIsRun(net, start, front);
      if e.Restart? {
        var n := Reaches(net, Begin(start), front).sys.nodes[a];
        if e.h == n.height { KeepsLockIff(net, start, front, a, e); } else { HeightIs(Node(a, net.lists), n, e); }
      }
    }
  }

  lemma HeightIs(c: Node, s: State, e: Event)
    requires e.Restart? && Enabled(c, s, e)
    ensures Next(c, s, e).height == e.h
  {}

  /** Agreement on disk: with fewer than a third faulty, any message order, and restarts at any time from the logs as
      they were written, as long as the lock of the node restarted has not moved since it was written, no two honest
      nodes ever commit different blocks. */
  lemma {:induction false} AgreementOnDisk(net: Net, start: map<Address, nat>, acts: seq<(Address, Event)>)
    requires start.Keys == net.honest && Runs(net, Begin(start), acts) && FewFaulty(net) && StillRuns(net, Begin(start), acts)
    ensures var nodes := Reaches(net, Begin(start), acts).sys.nodes;
      forall h, a, b, p, q :: a in nodes && b in nodes && (h, p) in nodes[a].decided && (h, q) in nodes[b].decided ==> p == q
  {
    hide Runs, Reaches, Begin, StillRuns, Run, Reach;
    StillIsRun(net, start, acts);
    var nodes := Reaches(net, Begin(start), acts).sys.nodes;
    forall h, a, b, p, q | a in nodes && b in nodes && (h, p) in nodes[a].decided && (h, q) in nodes[b].decided ensures p == q {
      DecidedHasValidators(net, start, acts, a, h, p);
      AgreementHolds(net, start, acts, h);
    }
  }

  lemma DecidedHasValidators(net: Net, start: map<Address, nat>, acts: seq<(Address, Event)>, a: Address, h: nat, p: PartSetID)
    requires Run(net, start, acts) && a in Reach(net, start, acts).nodes && (h, p) in Reach(net, start, acts).nodes[a].decided
    ensures net.vals(h) != []
  {
    hide Run, Reach;
    SystemRun(net, start, acts);
    var s := Reach(net, start, acts);
    assert NodeOk(net, s.log, a, s.nodes[a]);
    var r :| CanWin(net, s.log, h, r, Precommit, Some(p));
    var i :| i in Supporters(net, s.log, h, r, Precommit, Some(p));
  }
}
