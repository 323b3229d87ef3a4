/** Which events the handlers of the engine make, and when: a node that has just done something goes on as prescribed,
    and otherwise acts only on a message, a timer or a callback.

    The moves are those that the handlers of `Engines.Engine` are proved to make. */
module Handlers {
  import opened Votes
  import opened Quorum
  import opened VoteSets
  import opened Node
  import opened Agreement
  import opened Disks
  import opened Engines
  import opened Rotation

  predicate Enough(c: Node, n: State, r: nat, t: VoteType) {
    OverTwoThirds(|Present(Tally(c, n, r, t))|, |c.vals(n.height)|)
  }

  /** +2/3 prevotes of round r for something else take the lock away. */
  predicate Unlocks(c: Node, n: State, r: nat) {
    && n.step < COMMIT && n.locked.Some? && n.lockedRound < r
    && Polka(c, n, r, Prevote).Some? && Polka(c, n, r, Prevote).value != n.locked
  }

  /** What comes next in the same handler, for a node that event e has left in state n. A vote just cast is received
      at once; enough votes lead on; a round entered for its votes is voted in at once. */
  function Due(c: Node, n: State, e: Event): Move {
    match e
    case Receive(m) =>
      if !Enough(c, n, m.round, m.vtype) then Stay
      else if m.vtype == Precommit then MoveOnPrecommits(n.round, n.step, m.round, Polka(c, n, m.round, Precommit))
      else if Unlocks(c, n, m.round) then First(Unlock(m.round))
      else MoveOnPrevotes(n.round, n.step, m.round, Polka(c, n, m.round, Prevote), -1, false)
    case Unlock(r) => MoveOnPrevotes(n.round, n.step, r, Polka(c, n, r, Prevote), -1, false)
    case EnterRound(r) => if Enough(c, n, r, Prevote) then Prevotes else if Enough(c, n, r, Precommit) then Precommits else Stay
    case Proposed(_) => Prevotes
    case EnterPrevote(a) =>
      if a.Cast? then First(Receive(a.vote))
      else if Enough(c, n, n.round, Prevote) then First(Event.EnterPrevoteWait) else Stay
    case Imported(v) => if v.Some? then First(Receive(v.value)) else Stay
    case EnterPrevoteWait => if Polka(c, n, n.round, Prevote).Some? then Precommits else Stay
    case EnterPrecommit(_, v) =>
      if v.Some? then First(Receive(v.value))
      else if Enough(c, n, n.round, Precommit) then First(Event.EnterPrecommitWait) else Stay
    case EnterPrecommitWait =>
      var p := Polka(c, n, n.round, Precommit);
      if p.None? then Stay else First(if p.value.Some? then Decide(n.round, p.value.value) else EnterRound(n.round + 1))
    case Restart(_, _, _, _) => MoveOnResume(n.round, n.step, Enough(c, n, n.round, Prevote), Enough(c, n, n.round, Precommit))
    case _ => Stay
  }

  predicate Is(move: Move, e: Event) {
    match move
    case Stay => false
    case First(f) => e == f
    case Proposes => e.EnterPropose?
    case Prevotes => e.EnterPrevote?
    case Precommits => e.EnterPrecommit?
  }

  /** What starts a handler: a message that is accepted, a timer, a proposal that is complete, or a callback. */
  predicate Starts(c: Node, n: State, e: Event) {
    match e
    case Receive(m) =>
      var i := IndexOf(c.vals(n.height), if m.Signer().Some? then m.Signer().value else 0);
      i.Some? && i.value < |Tally(c, n, m.round, m.vtype)| && Accepts(Tally(c, n, m.round, m.vtype), i.value, m)
    case EnterPrevote(_) => n.step == TRANSACTION_WAIT || Is(MoveOnTimeout(n.round, n.step), e)
    case Proposed(_) => true
    case Imported(_) => true
    case NextHeight => true
    case _ => Is(MoveOnTimeout(n.round, n.step), e)
  }

  function Proposer(net: Net, h: nat, r: nat): Option<Address> { ProposerOf(net.vals(h), h, r) }

  /** The block was proposed in this round; a faulty proposer proposes anything. */
  ghost predicate Offered(net: Net, s: System, h: nat, r: nat, id: PartSetID) {
    var p := Proposer(net, h, r);
    p.Some? && (p.value in net.honest ==> p.value in s.nodes && exists q :: q in s.nodes[p.value].proposals && q.height == h && q.round == r && q.parts == id)
  }

  /** What a node proposes and votes for: a locked proposer proposes its lock, another one a new block, and nobody votes
      for a block, or locks it, that was not proposed. */
  ghost predicate Fair(net: Net, s: System, a: Address, n: State, e: Event) {
    match e
    case EnterPropose(p, pending) =>
      && (p.Some? || pending ==> Proposer(net, n.height, n.round) == Some(a))
      && (p.Some? ==> n.locked == Some(p.value.parts) && p.value.polRound == n.lockedRound) && (pending ==> n.locked.None?)
    case Proposed(p) => p.Some? ==> p.value.polRound == -1
    case EnterPrevote(x) =>
      x.Cast? && x.vote.PartSet().Some? && n.locked.None? ==> Offered(net, s, n.height, n.round, x.vote.PartSet().value)
    case EnterPrecommit(have, _) =>
      var p := Polka(Node(a, net.lists), n, n.round, Prevote);
      have && p.Some? && p.value.Some? ==> Offered(net, s, n.height, n.round, p.value.value)
    case Restart(_, kept, _, _) => kept == |n.roundWAL|
    case _ => true
  }

  /** A world with what is due at each node. */
  datatype Play = Play(w: World, due: map<Address, Move>)

  /** A node goes on as prescribed, or something starts a handler. It may crash at any time, and reads back all of its
      round log then. */
  ghost predicate CanPlay(net: Net, p: Play, a: Address, e: Event) {
    && Can(net, p.w, a, e) && a in p.due && Fair(net, p.w.sys, a, p.w.sys.nodes[a], e)
    && (e.Restart? || if p.due[a].Stay? then Starts(Node(a, net.lists), p.w.sys.nodes[a], e) else Is(p.due[a], e))
  }

  ghost function Played(net: Net, p: Play, a: Address, e: Event): Play
    requires CanPlay(net, p, a, e)
  {
    var w := Do(net, p.w, a, e);
    Play(w, p.due[a := Due(Node(a, net.lists), w.sys.nodes[a], e)])
  }

  ghost predicate Plays(net: Net, p: Play, acts: seq<(Address, Event)>)
    decreases |acts|, 0
  {
    acts == [] || (Plays(net, p, acts[..|acts| - 1])
                   && CanPlay(net, Outcome(net, p, acts[..|acts| - 1]), acts[|acts| - 1].0, acts[|acts| - 1].1))
  }

  ghost function Outcome(net: Net, p: Play, acts: seq<(Address, Event)>): Play
    requires Plays(net, p, acts)
    decreases |acts|, 1
  {
    if acts == [] then p else Played(net, Outcome(net, p, acts[..|acts| - 1]), acts[|acts| - 1].0, acts[|acts| - 1].1)
  }

  /** A play is a run. */
  lemma {:induction false} PlaysRuns(net: Net, p: Play, acts: seq<(Address, Event)>)
    requires Plays(net, p, acts)
    ensures Runs(net, p.w, acts) && Reaches(net, p.w, acts) == Outcome(net, p, acts).w
  {
    hide Can, Fair, Starts, Is, Do, Due;
    if acts != [] { PlaysRuns(net, p, acts[..|acts| - 1]); }
  }

  lemma {:induction false} PlaysOn(net: Net, p: Play, acts: seq<(Address, Event)>, more: seq<(Address, Event)>)
    requires Plays(net, p, acts) && Plays(net, Outcome(net, p, acts), more)
    ensures Plays(net, p, acts + more) && Outcome(net, p, acts + more) == Outcome(net, Outcome(net, p, acts), more)
  {
    hide CanPlay, Played;
    if more == [] {
      assert acts + more == acts;
    } else {
      assert (acts + more)[..|acts + more| - 1] == acts + more[..|more| - 1];
      PlaysOn(net, p, acts, more[..|more| - 1]);
    }
  }

  ghost predicate Leads(net: Net, p: Play, q: Play) { exists acts :: Plays(net, p, acts) && Outcome(net, p, acts) == q }

  lemma LeadsOn(net: Net, p: Play, q: Play, r: Play)
    requires Leads(net, p, q) && Leads(net, q, r)
    ensures Leads(net, p, r)
  {
    hide Plays, Outcome;
    var acts :| Plays(net, p, acts) && Outcome(net, p, acts) == q;
    var more :| Plays(net, q, more) && Outcome(net, q, more) == r;
    PlaysOn(net, p, acts, more);
  }

  lemma LeadsOnce(net: Net, p: Play, a: Address, e: Event)
    requires CanPlay(net, p, a, e)
    ensures Leads(net, p, Played(net, p, a, e))
  {
    hide CanPlay, Played;
    var acts := [(a, e)];
    assert acts[..0] == [];
    assert Plays(net, p, acts);
  }
}
