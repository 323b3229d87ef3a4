/** One validator node as an event machine.

    Each event is the direct effect of one function of consensus/consensus.go, up to the point where
    that function calls the next one; the class `Engines.Engine` shows that the code's nested calls
    are runs of these events. Timers, import results and message arrivals are events that may happen
    at any time. A restart is an event, too: it rebuilds the state from the write-ahead logs. */
module Node {
  import opened Votes
  import opened Quorum
  import opened VoteSets

  const NEW_HEIGHT: nat := 0
  const TRANSACTION_WAIT: nat := 1
  const NEW_ROUND: nat := 2
  const PROPOSE: nat := 3
  const PREVOTE: nat := 4
  const PREVOTE_WAIT: nat := 5
  const PRECOMMIT: nat := 6
  const PRECOMMIT_WAIT: nat := 7
  const COMMIT: nat := 8

  function StepOf(t: VoteType): nat { if t == Prevote then PREVOTE else PRECOMMIT }

  /** Votes of one height, by round and type. */
  type Book = map<(nat, VoteType), Ballots>

  function VotesFor(b: Book, n: nat, r: nat, t: VoteType): Ballots {
    if (r, t) in b then b[(r, t)] else seq(n, _ => None)
  }

  ghost predicate Sized(b: Book, n: nat) { forall k :: k in b ==> |b[k]| == n }

  function AddTo(b: Book, n: nat, i: nat, m: VoteMessage): (r: Book)
    requires i < |VotesFor(b, n, m.round, m.vtype)|
  {
    b[(m.round, m.vtype) := Added(VotesFor(b, n, m.round, m.vtype), i, m)]
  }

  /** Old rounds are forgotten, except the round of the lock. */
  function Pruned(b: Book, lower: int, keep: int): Book {
    map k | k in b && (k.0 >= lower || k.0 == keep) :: b[k]
  }

  function VoteListOf(msgs: Ballots): (r: seq<VoteMessage>)
    ensures forall m :: m in r ==> Some(m) in msgs
    ensures Present(msgs) != {} ==> r != []
  {
    if msgs == [] then []
    else
      var rest := VoteListOf(msgs[..|msgs| - 1]);
      assert Present(msgs[..|msgs| - 1]) == Present(msgs) - {|msgs| - 1};
      if msgs[|msgs| - 1].Some? then rest + [msgs[|msgs| - 1].value] else rest
  }

  datatype Proposal = Proposal(height: nat, round: nat, parts: PartSetID, polRound: int, signer: Address)

  /** Records of the three write-ahead logs. */
  datatype Record =
    | OwnProposal(proposal: Proposal)
    | OneVote(vote: VoteMessage)
    | VoteList(votes: seq<VoteMessage>)
    | BlockPart(height: nat, owner: PartSetID, index: nat)

  datatype State = State(
    height: nat, round: nat, step: nat,
    lockedRound: int, locked: Option<PartSetID>,
    votes: Book,
    importing: set<(nat, nat)>,   // height and round of imports whose callback is outstanding
    proposing: set<(nat, nat)>,   // the same for block proposals
    sent: seq<VoteMessage>,
    proposals: seq<Proposal>,
    decided: seq<(nat, PartSetID)>,
    roundWAL: seq<Record>, synced: nat)

  /** A node and the validator lists by height; a height without an entry has no validators. */
  datatype Node = Node(me: Address, lists: map<nat, seq<Address>>)
  {
    function vals(h: nat): seq<Address> { if h in lists then lists[h] else [] }
  }

  function Start(h: nat): State {
    State(h, 0, NEW_HEIGHT, -1, None, map[], {}, {}, [], [], [], [], 0)
  }

  function Own(c: Node, s: State, t: VoteType, d: Decision, ts: int, pp: seq<ProofPart>): VoteMessage {
    VoteMessage(s.height, s.round, t, d, ts,
                Signature(c.me, Ballot(s.height, s.round, t, d.blockID, d.parts, ts)), pp)
  }

  ghost predicate IsOwn(c: Node, s: State, t: VoteType, m: VoteMessage) {
    m.height == s.height && m.round == s.round && m.vtype == t && m.Signer() == Some(c.me)
    && c.me in c.vals(s.height)
  }

  ghost predicate IsOwnProposal(c: Node, s: State, p: Proposal) {
    p.height == s.height && p.round == s.round && p.signer == c.me
  }

  function Tally(c: Node, s: State, r: nat, t: VoteType): Ballots {
    VotesFor(s.votes, |c.vals(s.height)|, r, t)
  }

  /** The part set ID (or nil) with +2/3, if any. */
  function Polka(c: Node, s: State, r: nat, t: VoteType): Option<Option<PartSetID>> {
    var w := Winner(Tally(c, s, r, t));
    if w.Some? then Some(w.value.PartSet()) else None
  }

  // --- events ----------------------------------------------------------------------------------

  datatype PrevoteAction = Cast(vote: VoteMessage) | Import | Silent

  datatype Event =
    | Receive(m: VoteMessage)
    | Unlock(r: nat)
    | EnterRound(r: nat)
    | EnterTransactionWait
    | EnterPropose(p: Option<Proposal>, pending: bool)
    | Proposed(p: Option<Proposal>)
    | EnterPrevote(action: PrevoteAction)
    | Imported(vote: Option<VoteMessage>)
    | EnterPrevoteWait
    | EnterPrecommit(have: bool, vote: Option<VoteMessage>)
    | EnterPrecommitWait
    | Decide(r: nat, id: PartSetID)
    | NextHeight
    | Restart(h: nat, kept: nat, lockWAL: seq<Record>, commitWAL: seq<Record>)

  /** What entering the precommit step does to the lock. */
  function LockAfter(c: Node, s: State, have: bool): (int, Option<PartSetID>) {
    var p := Polka(c, s, s.round, Prevote);
    if p.None? then (s.lockedRound, s.locked)
    else if p.value.None? then (-1, None)
    else if s.locked == p.value || have then (s.round, p.value)
    else (-1, None)
  }

  /** What a lock leaves in the lock log: the prevotes it rests on, and the parts of the block. */
  function LockRecords(h: nat, msgs: Ballots, id: PartSetID): (r: seq<Record>)
    ensures |r| == 1 + id.count && forall k: nat :: k < id.count ==> r[k + 1] == BlockPart(h, id, k)
  {
    [VoteList(VoteListOf(msgs))] + PartRecords(h, id, id.count)
  }

  function PartRecords(h: nat, id: PartSetID, n: nat): (r: seq<Record>)
    ensures |r| == n && forall k: nat :: k < n ==> r[k] == BlockPart(h, id, k)
  {
    seq(n, k requires k >= 0 => BlockPart(h, id, k))
  }

  /** What entering the precommit step writes to the lock log: a new lock; a lock that only moves to this round is not written. */
  function LockLogged(c: Node, s: State, have: bool): seq<Record> {
    var p := Polka(c, s, s.round, Prevote);
    if p.Some? && p.value.Some? && s.locked != p.value && have
    then LockRecords(s.height, Tally(c, s, s.round, Prevote), p.value.value) else []
  }

  /** What is precommitted: the block with +2/3 prevotes that is now locked, else nil. */
  function PrecommitFor(c: Node, s: State, have: bool): Option<PartSetID> {
    var p := Polka(c, s, s.round, Prevote);
    if p.Some? && p.value.Some? && (s.locked == p.value || have) then p.value else None
  }

  ghost predicate Enabled(c: Node, s: State, e: Event) {
    && Sized(s.votes, |c.vals(s.height)|)
    && match e
    case Receive(m) => m.height == s.height && m.Signer().Some? && m.Signer().value in c.vals(s.height)
    case Unlock(r) =>
      && s.step < COMMIT && s.locked.Some? && s.lockedRound < r
      && Polka(c, s, r, Prevote).Some? && Polka(c, s, r, Prevote).value != s.locked
    case EnterRound(r) => r > s.round && s.step < COMMIT
    case EnterTransactionWait => s.step < TRANSACTION_WAIT
    case EnterPropose(p, _) => s.step < PROPOSE && (p.Some? ==> IsOwnProposal(c, s, p.value) && !e.pending)
    case Proposed(p) =>
      (s.height, s.round) in s.proposing && s.step == PROPOSE && (p.Some? ==> IsOwnProposal(c, s, p.value))
    case EnterPrevote(a) =>
      && s.step < PREVOTE
      && (a.Cast? ==> IsOwn(c, s, Prevote, a.vote) && (s.locked.Some? ==> a.vote.PartSet() == s.locked))
      && (a.Import? ==> s.locked.None?)
    case Imported(v) =>
      && (s.height, s.round) in s.importing && s.step < COMMIT
      && (v.Some? ==> s.step <= PREVOTE_WAIT && IsOwn(c, s, Prevote, v.value))
    case EnterPrevoteWait =>
      s.step < PREVOTE_WAIT && OverTwoThirds(|Present(Tally(c, s, s.round, Prevote))|, |c.vals(s.height)|)
    case EnterPrecommit(have, v) =>
      && s.step < PRECOMMIT
      && (v.Some? ==> IsOwn(c, s, Precommit, v.value) && v.value.PartSet() == PrecommitFor(c, s, have))
    case EnterPrecommitWait =>
      s.step < PRECOMMIT_WAIT && OverTwoThirds(|Present(Tally(c, s, s.round, Precommit))|, |c.vals(s.height)|)
    case Decide(r, id) => Polka(c, s, r, Precommit) == Some(Some(id))
    case NextHeight => s.step == COMMIT
    case Restart(h, kept, _, _) =>
      (h == s.height || (h == s.height + 1 && s.step == COMMIT)) && s.synced <= kept <= |s.roundWAL|
  }

  /** A vote is written to the round log and synced before it is sent. */
  function Cast1(s: State, v: Option<VoteMessage>): State {
    if v.None? then s
    else s.(sent := s.sent + [v.value], roundWAL := s.roundWAL + [OneVote(v.value)], synced := |s.roundWAL| + 1)
  }

  function Cast1Proposal(s: State, p: Option<Proposal>): State {
    if p.None? then s
    else s.(proposals := s.proposals + [p.value], roundWAL := s.roundWAL + [OwnProposal(p.value)], synced := |s.roundWAL| + 1)
  }

  ghost function Next(c: Node, s: State, e: Event): State
    requires Enabled(c, s, e)
  {
    match e
    case Receive(m) =>
      s.(votes := AddTo(s.votes, |c.vals(s.height)|, IndexOf(c.vals(s.height), m.Signer().value).value, m))
    case Unlock(_) => s.(lockedRound := -1, locked := None)
    case EnterRound(r) => s.(round := r, step := NEW_ROUND, votes := Pruned(s.votes, r - 1, s.lockedRound))
    case EnterTransactionWait => s.(step := TRANSACTION_WAIT)
    case EnterPropose(p, pending) =>
      Cast1Proposal(s.(step := PROPOSE, proposing := if pending then s.proposing + {(s.height, s.round)} else s.proposing), p)
    case Proposed(p) => Cast1Proposal(s.(proposing := s.proposing - {(s.height, s.round)}), p)
    case EnterPrevote(a) =>
      var s1 := s.(step := PREVOTE);
      match a {
        case Cast(v) => Cast1(s1, Some(v))
        case Import => s1.(importing := s.importing + {(s.height, s.round)})
        case Silent => s1
      }
    case Imported(v) => Cast1(s.(importing := s.importing - {(s.height, s.round)}), v)
    case EnterPrevoteWait =>
      s.(step := PREVOTE_WAIT, roundWAL := s.roundWAL + [VoteList(VoteListOf(Tally(c, s, s.round, Prevote)))])
    case EnterPrecommit(have, v) =>
      var l := LockAfter(c, s, have);
      Cast1(s.(step := PRECOMMIT, lockedRound := l.0, locked := l.1), v)
    case EnterPrecommitWait =>
      s.(step := PRECOMMIT_WAIT, roundWAL := s.roundWAL + [VoteList(VoteListOf(Tally(c, s, s.round, Precommit)))])
    case Decide(_, id) => s.(step := COMMIT, decided := s.decided + [(s.height, id)])
    case NextHeight => s.(height := s.height + 1, round := 0, step := NEW_HEIGHT, lockedRound := -1, locked := None, votes := map[])
    case Restart(h, kept, lw, cw) => Restarted(c, s, h, s.roundWAL[..kept], lw, cw)
  }

  // --- replay of the logs ----------------------------------------------------------------------

  /** What a replay has rebuilt so far; `filling` is the part set being collected, `lock` the last
      one that was completed, each with the round of its +2/3 prevotes. */
  datatype Replay = Replay(
    round: nat, step: nat, votes: Book,
    filling: Option<(PartSetID, nat, set<nat>)>, lock: Option<(PartSetID, nat)>)

  predicate Before(r1: nat, s1: nat, r2: nat, s2: nat) { r1 < r2 || (r1 == r2 && s1 < s2) }

  function ReplayVote(c: Node, h: nat, a: Replay, m: VoteMessage): (r: Replay)
    requires Sized(a.votes, |c.vals(h)|)
    ensures Sized(r.votes, |c.vals(h)|)
  {
    if m.Signer().None? || m.Signer().value !in c.vals(h) then a
    else a.(votes := AddTo(a.votes, |c.vals(h)|, IndexOf(c.vals(h), m.Signer().value).value, m))
  }

  /** Adds the votes of a list; `all` keeps even those of another height, as the commit log does. */
  function ReplayVotes(c: Node, h: nat, a: Replay, ms: seq<VoteMessage>, all: bool): (r: Replay)
    requires Sized(a.votes, |c.vals(h)|)
    ensures Sized(r.votes, |c.vals(h)|)
    ensures r.round == a.round && r.step == a.step && r.filling == a.filling && r.lock == a.lock
  {
    if ms == [] then a
    else
      var front := ReplayVotes(c, h, a, ms[..|ms| - 1], all);
      var m := ms[|ms| - 1];
      if m.height == h || all then ReplayVote(c, h, front, m) else front
  }

  /** A list moves round and step forward if its votes make +2/3 of any kind. */
  function Advance(c: Node, h: nat, a: Replay, m: VoteMessage): Replay {
    if Before(a.round, a.step, m.round, StepOf(m.vtype))
       && OverTwoThirds(|Present(VotesFor(a.votes, |c.vals(h)|, m.round, m.vtype))|, |c.vals(h)|)
    then a.(round := m.round, step := StepOf(m.vtype)) else a
  }

  function ReplayRound(c: Node, h: nat, a: Replay, rec: Record): (r: Replay)
    requires Sized(a.votes, |c.vals(h)|)
    ensures Sized(r.votes, |c.vals(h)|)
  {
    match rec
    case OwnProposal(p) =>
      if p.height == h && p.signer == c.me && !Before(p.round, PROPOSE, a.round, a.step)
      then a.(round := p.round, step := PROPOSE) else a
    case OneVote(m) =>
      if m.height == h && m.Signer() == Some(c.me) && c.me in c.vals(h) then
        var b := ReplayVote(c, h, a, m);
        if !Before(m.round, StepOf(m.vtype), a.round, a.step) then b.(round := m.round, step := StepOf(m.vtype)) else b
      else a
    case VoteList(ms) =>
      var b := ReplayVotes(c, h, a, ms, false);
      if ms != [] && ms[0].height == h then Advance(c, h, b, ms[0]) else b
    case BlockPart(_, _, _) => a
  }

  function ReplayLock(c: Node, h: nat, a: Replay, rec: Record): (r: Replay)
    requires Sized(a.votes, |c.vals(h)|)
    ensures Sized(r.votes, |c.vals(h)|)
  {
    match rec
    case VoteList(ms) =>
      var b := ReplayVotes(c, h, a, ms, false);
      if ms == [] || ms[0].height != h then b
      else
        var w := Winner(VotesFor(b.votes, |c.vals(h)|, ms[0].round, Prevote));
        var b' := if w.Some? && w.value.PartSet().Some?
                  then b.(filling := Some((w.value.PartSet().value, ms[0].round, {}))) else b;
        Advance(c, h, b', ms[0])
    case BlockPart(ph, owner, index) =>
      if ph != h || a.filling.None? || a.filling.value.0 != owner || index >= owner.count || index in a.filling.value.2 then a
      else
        var parts := a.filling.value.2 + {index};
        var b := a.(filling := Some((owner, a.filling.value.1, parts)));
        if |parts| == owner.count then b.(lock := Some((owner, a.filling.value.1))) else b
    case _ => a
  }

  function ReplayCommit(c: Node, h: nat, a: Replay, rec: Record): (r: Replay)
    requires Sized(a.votes, |c.vals(h)|)
    ensures Sized(r.votes, |c.vals(h)|)
  {
    match rec
    case VoteList(ms) =>
      if ms == [] || ms[0].height != h then a
      else Advance(c, h, ReplayVotes(c, h, a, ms, true), ms[0])
    case _ => a
  }

  datatype Log = RoundLog | LockLog | CommitLog

  function ReplayRecord(c: Node, h: nat, a: Replay, log: Log, rec: Record): (r: Replay)
    requires Sized(a.votes, |c.vals(h)|)
    ensures Sized(r.votes, |c.vals(h)|)
  {
    match log
    case RoundLog => ReplayRound(c, h, a, rec)
    case LockLog => ReplayLock(c, h, a, rec)
    case CommitLog => ReplayCommit(c, h, a, rec)
  }

  function ReplayLog(c: Node, h: nat, a: Replay, log: Log, recs: seq<Record>): (r: Replay)
    requires Sized(a.votes, |c.vals(h)|)
    ensures Sized(r.votes, |c.vals(h)|)
  {
    if recs == [] then a
    else ReplayRecord(c, h, ReplayLog(c, h, a, log, recs[..|recs| - 1]), log, recs[|recs| - 1])
  }

  function ReplayAll(c: Node, h: nat, round: seq<Record>, lock: seq<Record>, commit: seq<Record>): (r: Replay)
    ensures Sized(r.votes, |c.vals(h)|)
  {
    var a := ReplayLog(c, h, Replay(0, NEW_HEIGHT, map[], None, None), RoundLog, round);
    var b := ReplayLog(c, h, a, LockLog, lock);
    ReplayLog(c, h, b, CommitLog, commit)
  }

  /** The state after a restart. What was sent and decided stays sent and decided. */
  ghost function Restarted(c: Node, s: State, h: nat, round: seq<Record>, lock: seq<Record>, commit: seq<Record>): State {
    var r := ReplayAll(c, h, round, lock, commit);
    s.(height := h, round := r.round, step := r.step,
       lockedRound := if r.lock.Some? then r.lock.value.1 else -1,
       locked := if r.lock.Some? then Some(r.lock.value.0) else None,
       votes := r.votes, importing := {}, proposing := {},
       roundWAL := round, synced := |round|)
  }
}
