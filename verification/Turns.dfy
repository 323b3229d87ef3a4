/** Four validators at height 1, the last of them faulty: what one of the honest nodes does in a round, handler by
    handler, in three turns. */
module Turns {
  import opened Votes
  import opened Quorum
  import opened VoteSets
  import opened Node
  import opened NodeSafety
  import opened Agreement
  import opened LockLogs
  import opened Disks
  import opened Engines
  import opened Handlers
  import opened Rotation

  const LIST: seq<Address> := [0, 1, 2, 3]
  const NET: Net := Net(map[1 := LIST], {0, 1, 2})

  function Me(a: Address): Node { Node(a, NET.lists) }

  function For(p: Option<PartSetID>): Decision {
    if p.None? then Decision(0, None, []) else Decision(p.value.hash, Some(TaggedID(p.value, 0)), [])
  }

  function Vote(a: Address, r: nat, t: VoteType, p: Option<PartSetID>): VoteMessage {
    VoteMessage(1, r, t, For(p), 0, Signature(a, Ballot(1, r, t, For(p).blockID, For(p).parts, 0)), [])
  }

  /** What validators voted for in one round. */
  type Poll = map<Address, Option<PartSetID>>

  function Held(r: nat, t: VoteType, who: Poll): (b: Ballots)
    ensures |b| == 4
  {
    seq(4, x => if x in who then Some(Vote(x, r, t, who[x])) else None)
  }

  // --- counting ------------------------------------------------------------------------------------

  lemma Places(a: Address)
    requires a < 4
    ensures IndexOf(LIST, a) == Some(a)
  {
    assert LIST[IndexOf(LIST, a).value] == a;
  }

  lemma VoteIs(a: Address, r: nat, t: VoteType, p: Option<PartSetID>)
    ensures var v := Vote(a, r, t, p);
      v.height == 1 && v.round == r && v.vtype == t && v.decision == For(p) && v.Signer() == Some(a) && v.PartSet() == p
  {}

  lemma HeldPresent(r: nat, t: VoteType, who: Poll)
    requires who.Keys <= {0, 1, 2, 3}
    ensures Present(Held(r, t, who)) == who.Keys
  {
    hide Vote;
  }

  /** With all votes counted, three of them, +2/3 are for p or for nothing. */
  predicate Wanted(who: Poll, p: Option<Option<PartSetID>>) {
    if p.Some? then forall x :: x in who ==> who[x] == p.value else exists x, y :: x in who && y in who && who[x] != who[y]
  }

  lemma HeldWinner(r: nat, t: VoteType, who: Poll, p: Option<Option<PartSetID>>)
    requires who.Keys <= {0, 1, 2, 3} && |who.Keys| == 3 && Wanted(who, p)
    ensures Winner(Held(r, t, who)) == if p.Some? then Some(For(p.value)) else None
  {
    hide Vote, For;
    var b := Held(r, t, who);
    HeldPresent(r, t, who);
    forall x | x in who ensures b[x].Some? && b[x].value.decision == For(who[x]) { VoteIs(x, r, t, who[x]); }
    if p.Some? {
      assert Voters(b, For(p.value)) == who.Keys;
      WinnerIs(b, For(p.value));
    } else {
      NoWinner(b, who);
    }
  }

  lemma NoWinner(b: Ballots, who: Poll)
    requires |b| == 4 && Present(b) == who.Keys && |who.Keys| == 3 && Wanted(who, None)
    requires forall x :: x in who ==> b[x].Some? && b[x].value.decision == For(who[x])
    ensures Winner(b) == None
  {
    if Winner(b).Some? {
      var d := Winner(b).value;
      var x, y :| x in who && y in who && who[x] != who[y];
      ForApart(who[x], who[y]);
      var z := if For(who[x]) == d then y else x;
      SubsetCard(Voters(b, d), who.Keys - {z});
    }
  }

  lemma ForApart(p: Option<PartSetID>, q: Option<PartSetID>)
    requires p != q
    ensures For(p) != For(q)
  {
    assert For(p).PartSet() == p && For(q).PartSet() == q;
  }

  // --- one node's turn -----------------------------------------------------------------------------

  ghost predicate NodeReady(n: State) { n.height == 1 && Sized(n.votes, 4) && n.synced <= |n.roundWAL| }

  ghost predicate Ready(p: Play) {
    && p.w.sys.nodes.Keys == {0, 1, 2} && p.w.locks.Keys == {0, 1, 2} && p.due.Keys == {0, 1, 2}
    && forall a :: a in p.w.sys.nodes ==> NodeReady(p.w.sys.nodes[a])
  }

  /** The play after one node has acted: its new state, what it cast, what it added to its lock log, and what is due. */
  ghost function With(p: Play, a: Address, n: State, cast: seq<VoteMessage>, more: seq<Lock>, due: Move): Play
    requires a in p.w.locks
  {
    Play(World(System(p.w.sys.nodes[a := n], p.w.sys.log + cast), p.w.locks[a := p.w.locks[a] + more]), p.due[a := due])
  }

  lemma WithTwice(p: Play, a: Address, n1: State, n2: State, c1: seq<VoteMessage>, c2: seq<VoteMessage>, m1: seq<Lock>, m2: seq<Lock>, d1: Move, d2: Move)
    requires a in p.w.locks
    ensures With(With(p, a, n1, c1, m1, d1), a, n2, c2, m2, d2) == With(p, a, n2, c1 + c2, m1 + m2, d2)
  {
    var x, y := With(With(p, a, n1, c1, m1, d1), a, n2, c2, m2, d2), With(p, a, n2, c1 + c2, m1 + m2, d2);
    assert x.w.sys.nodes == y.w.sys.nodes;
    assert x.w.sys.log == y.w.sys.log;
    assert x.w.locks[a] == y.w.locks[a];
    assert x.w.locks == y.w.locks;
    assert x.due == y.due;
  }

  ghost predicate Moves(p: Play, a: Address, n: State, cast: seq<VoteMessage>, more: seq<Lock>, due: Move) {
    a in p.w.sys.nodes && a in p.w.locks && NodeReady(n) && Leads(NET, p, With(p, a, n, cast, more, due))
  }

  /** One event. */
  lemma Step(p: Play, a: Address, e: Event, n: State, cast: seq<VoteMessage>, due: Move)
    requires CanPlay(NET, p, a, e)
    requires n == Next(Me(a), p.w.sys.nodes[a], e) && n.sent == p.w.sys.nodes[a].sent + cast && NodeReady(n) && due == Due(Me(a), n, e)
    ensures Moves(p, a, n, cast, if e.EnterPrecommit? then NewLock(Me(a), p.w.sys.nodes[a], e.have) else [], due)
  {
    hide Next, Enabled, Authentic, NewLock, Leads, NodeReady, Due, Starts, Fair, Is, LogOf;
    LeadsOnce(NET, p, a, e);
    assert n.sent[|p.w.sys.nodes[a].sent|..] == cast;
  }

  lemma Then(p: Play, a: Address, n1: State, n2: State, c1: seq<VoteMessage>, c2: seq<VoteMessage>, m1: seq<Lock>, m2: seq<Lock>, d1: Move, d2: Move)
    requires Moves(p, a, n1, c1, m1, d1) && Moves(With(p, a, n1, c1, m1, d1), a, n2, c2, m2, d2)
    ensures Moves(p, a, n2, c1 + c2, m1 + m2, d2)
  {
    hide Leads, NodeReady;
    WithTwice(p, a, n1, n2, c1, c2, m1, m2, d1, d2);
    LeadsOn(NET, p, With(p, a, n1, c1, m1, d1), With(p, a, n2, c1 + c2, m1 + m2, d2));
  }

  /** The second of two steps casts and writes nothing. */
  lemma QuietThen(p: Play, a: Address, n1: State, n2: State, cast: seq<VoteMessage>, more: seq<Lock>, d1: Move, d2: Move)
    requires Moves(p, a, n1, cast, more, d1) && Moves(With(p, a, n1, cast, more, d1), a, n2, [], [], d2)
    ensures Moves(p, a, n2, cast, more, d2)
  {
    hide Moves, With;
    Then(p, a, n1, n2, cast, [], more, [], d1, d2);
    assert cast + [] == cast && more + [] == more;
  }

  // --- receiving -----------------------------------------------------------------------------------

  /** The vote can be shown: the last validator signs anything, the others what they cast. */
  ghost predicate Shows(p: Play, a: Address, r: nat, t: VoteType, v: Option<PartSetID>) {
    a < 4 && (a == 3 || Vote(a, r, t, v) in p.w.sys.log)
  }

  function Heard(n: State, r: nat, t: VoteType, who: Poll): State { n.(votes := n.votes[(r, t) := Held(r, t, who)]) }

  lemma HeldMore(r: nat, t: VoteType, who: Poll, i: Address, v: Option<PartSetID>)
    requires i < 4 && i !in who
    ensures Held(r, t, who)[i].None? && Held(r, t, who[i := v]) == Held(r, t, who)[i := Some(Vote(i, r, t, v))]
  {
    hide Vote;
  }

  /** A vote that is not held yet is received. */
  lemma Hears(p: Play, a: Address, r: nat, t: VoteType, who: Poll, i: Address, v: Option<PartSetID>, due: Move)
    requires Ready(p) && a in {0, 1, 2} && i !in who && Shows(p, i, r, t, v)
    requires VotesFor(p.w.sys.nodes[a].votes, 4, r, t) == Held(r, t, who)
    requires p.due[a] == Stay || p.due[a] == First(Receive(Vote(i, r, t, v)))
    requires due == Due(Me(a), Heard(p.w.sys.nodes[a], r, t, who[i := v]), Receive(Vote(i, r, t, v)))
    ensures Moves(p, a, Heard(p.w.sys.nodes[a], r, t, who[i := v]), [], [], due)
  {
    hide Moves, Held, Due, Vote, Next, Enabled, Starts, CanPlay, Shows;
    var n, m := p.w.sys.nodes[a], Vote(i, r, t, v);
    ShownAuthentic(p, i, r, t, v);
    Places(i);
    HeldMore(r, t, who, i, v);
    VoteIs(i, r, t, v);
    ReceiveIs(a, n, r, t, m, i);
    CanHear(p, a, m);
    Step(p, a, Receive(m), Heard(n, r, t, who[i := v]), [], due);
  }

  lemma ShownAuthentic(p: Play, i: Address, r: nat, t: VoteType, v: Option<PartSetID>)
    requires Shows(p, i, r, t, v)
    ensures i < 4 && Authentic(NET, p.w.sys.log, Vote(i, r, t, v))
  {
    hide For;
  }

  lemma CanHear(p: Play, a: Address, m: VoteMessage)
    requires Ready(p) && a in {0, 1, 2} && Enabled(Me(a), p.w.sys.nodes[a], Receive(m)) && Starts(Me(a), p.w.sys.nodes[a], Receive(m))
    requires Authentic(NET, p.w.sys.log, m) && (p.due[a] == Stay || p.due[a] == First(Receive(m)))
    ensures CanPlay(NET, p, a, Receive(m))
  {
    hide Enabled, Starts, Authentic, LogOf, NewLock;
  }

  lemma ReceiveIs(a: Address, n: State, r: nat, t: VoteType, m: VoteMessage, i: Address)
    requires NodeReady(n) && i < 4 && m.height == 1 && m.round == r && m.vtype == t && m.Signer() == Some(i)
    requires IndexOf(LIST, i) == Some(i) && VotesFor(n.votes, 4, r, t)[i].None?
    ensures Enabled(Me(a), n, Receive(m)) && Starts(Me(a), n, Receive(m))
    ensures Next(Me(a), n, Receive(m)) == n.(votes := n.votes[(r, t) := VotesFor(n.votes, 4, r, t)[i := Some(m)]])
  {
    hide Winner, IndexOf;
  }

  /** One or two votes lead nowhere. */
  lemma DueFew(a: Address, n: State, r: nat, t: VoteType, who: Poll, i: Address, v: Option<PartSetID>)
    requires n.height == 1 && VotesFor(n.votes, 4, r, t) == Held(r, t, who) && who.Keys <= {0, 1, 2, 3} && |who.Keys| <= 2
    ensures Due(Me(a), n, Receive(Vote(i, r, t, v))) == Stay && !Enough(Me(a), n, r, t)
  {
    hide Held, Polka;
    HeldPresent(r, t, who);
    VoteIs(i, r, t, v);
  }

  lemma PolkaIs(a: Address, n: State, r: nat, t: VoteType, who: Poll, p: Option<Option<PartSetID>>)
    requires n.height == 1 && VotesFor(n.votes, 4, r, t) == Held(r, t, who) && who.Keys <= {0, 1, 2, 3} && |who.Keys| == 3 && Wanted(who, p)
    ensures Enough(Me(a), n, r, t) && Polka(Me(a), n, r, t) == p
  {
    hide Held, Winner;
    HeldPresent(r, t, who);
    HeldWinner(r, t, who, p);
  }

  /** Three prevotes lead to prevote wait. */
  lemma DuePrevotes(a: Address, n: State, who: Poll, p: Option<Option<PartSetID>>, i: Address, v: Option<PartSetID>)
    requires n.height == 1 && VotesFor(n.votes, 4, n.round, Prevote) == Held(n.round, Prevote, who)
    requires who.Keys <= {0, 1, 2, 3} && |who.Keys| == 3 && Wanted(who, p) && n.step == PREVOTE
    requires n.locked.Some? && p.Some? ==> p.value == n.locked
    ensures Due(Me(a), n, Receive(Vote(i, n.round, Prevote, v))) == First(Event.EnterPrevoteWait)
  {
    hide Held, Polka, Enough;
    PolkaIs(a, n, n.round, Prevote, who, p);
    VoteIs(i, n.round, Prevote, v);
  }

  /** Three precommits lead to precommit wait. */
  lemma DuePrecommits(a: Address, n: State, who: Poll, p: Option<Option<PartSetID>>, i: Address, v: Option<PartSetID>)
    requires n.height == 1 && VotesFor(n.votes, 4, n.round, Precommit) == Held(n.round, Precommit, who)
    requires who.Keys <= {0, 1, 2, 3} && |who.Keys| == 3 && Wanted(who, p) && n.step == PRECOMMIT
    ensures Due(Me(a), n, Receive(Vote(i, n.round, Precommit, v))) == First(Event.EnterPrecommitWait)
  {
    hide Held, Polka, Enough;
    PolkaIs(a, n, n.round, Precommit, who, p);
    VoteIs(i, n.round, Precommit, v);
  }

  // --- chains of events ----------------------------------------------------------------------------

  /** The node has proposed the block in this round. */
  ghost predicate HasProposed(n: State, r: nat, id: PartSetID) {
    exists q :: q in n.proposals && q.height == 1 && q.round == r && q.parts == id
  }

  /** The block was proposed in the round of n, the state of node a. */
  ghost predicate Backed(p: Play, a: Address, n: State, id: PartSetID) {
    var x := (1 + n.round) % 4;
    x == 3 || (x in p.w.sys.nodes && HasProposed(if x == a then n else p.w.sys.nodes[x], n.round, id))
  }

  lemma BackedOffered(p: Play, a: Address, n: State, n': State, cast: seq<VoteMessage>, more: seq<Lock>, d: Move, id: PartSetID)
    requires a in p.w.locks && Backed(p, a, n, id) && n'.proposals == n.proposals && n'.round == n.round
    ensures Offered(NET, With(p, a, n', cast, more, d).w.sys, 1, n.round, id)
  {
    var x := (1 + n.round) % 4;
    assert Proposer(NET, 1, n.round) == Some(x);
    if x != 3 {
      var m := if x == a then n else p.w.sys.nodes[x];
      var q :| q in m.proposals && q.height == 1 && q.round == n.round && q.parts == id;
      assert q in With(p, a, n', cast, more, d).w.sys.nodes[x].proposals;
    }
  }

  lemma Still(p: Play, a: Address)
    requires Ready(p) && a in {0, 1, 2}
    ensures Moves(p, a, p.w.sys.nodes[a], [], [], p.due[a])
  {
    hide CanPlay, Played;
    var none: seq<(Address, Event)> := [];
    assert Plays(NET, p, none) && Outcome(NET, p, none) == p;
    StillWith(p, a);
  }

  lemma StillWith(p: Play, a: Address)
    requires a in p.w.sys.nodes && a in p.w.locks && a in p.due
    ensures With(p, a, p.w.sys.nodes[a], [], [], p.due[a]) == p
  {
    var q := With(p, a, p.w.sys.nodes[a], [], [], p.due[a]);
    assert q.w.sys.nodes == p.w.sys.nodes && q.w.sys.log == p.w.sys.log;
    assert q.w.locks[a] == p.w.locks[a];
    assert q.w.locks == p.w.locks && q.due == p.due;
  }

  lemma WithReady(p: Play, a: Address, n: State, cast: seq<VoteMessage>, more: seq<Lock>, due: Move)
    requires Ready(p) && a in {0, 1, 2} && Moves(p, a, n, cast, more, due)
    ensures var q := With(p, a, n, cast, more, due);
      Ready(q) && q.w.sys.nodes[a] == n && q.due[a] == due && (forall v :: v in p.w.sys.log || v in cast <==> v in q.w.sys.log)
  {
    hide Leads;
  }

  /** Next, a vote is received. */
  lemma ThenHears(p: Play, a: Address, n: State, cast: seq<VoteMessage>, more: seq<Lock>, d: Move,
                  r: nat, t: VoteType, who: Poll, i: Address, v: Option<PartSetID>, due: Move)
    requires Ready(p) && a in {0, 1, 2} && Moves(p, a, n, cast, more, d)
    requires i < 4 && i !in who && (i == 3 || Vote(i, r, t, v) in p.w.sys.log || Vote(i, r, t, v) in cast)
    requires VotesFor(n.votes, 4, r, t) == Held(r, t, who)
    requires d == Stay || d == First(Receive(Vote(i, r, t, v)))
    requires due == Due(Me(a), Heard(n, r, t, who[i := v]), Receive(Vote(i, r, t, v)))
    ensures Moves(p, a, Heard(n, r, t, who[i := v]), cast, more, due)
  {
    hide Moves, Held, Due, Vote, With, Ready;
    ReadyNodes(p);
    var q := With(p, a, n, cast, more, d);
    WithReady(p, a, n, cast, more, d);
    Hears(q, a, r, t, who, i, v, due);
    QuietThen(p, a, n, Heard(n, r, t, who[i := v]), cast, more, d, due);
  }

  /** Next, something else happens. */
  lemma ThenDoes(p: Play, a: Address, n: State, cast: seq<VoteMessage>, more: seq<Lock>, d: Move,
                 e: Event, n': State, c: seq<VoteMessage>, l: seq<Lock>, due: Move)
    requires Ready(p) && a in {0, 1, 2} && Moves(p, a, n, cast, more, d) && !e.Receive? && !e.Restart?
    requires Enabled(Me(a), n, e) && (Is(d, e) || (d == Stay && Starts(Me(a), n, e)))
    requires Fair(NET, With(p, a, n, cast, more, d).w.sys, a, n, e)
    requires n' == Next(Me(a), n, e) && n'.sent == n.sent + c && NodeReady(n') && due == Due(Me(a), n', e)
    requires l == (if e.EnterPrecommit? then NewLock(Me(a), n, e.have) else []) && forall x :: x in l ==> x.id.count > 0
    ensures Moves(p, a, n', cast + c, more + l, due)
  {
    hide Moves, Due, With, Ready, Next, Enabled, NodeReady, Starts, Fair, NewLock, LogOf;
    ReadyNodes(p);
    var q := With(p, a, n, cast, more, d);
    WithReady(p, a, n, cast, more, d);
    ReadyNodes(q);
    Step(q, a, e, n', c, due);
    Then(p, a, n, n', cast, c, more, l, d, due);
  }

  lemma ReadyNodes(p: Play)
    requires Ready(p)
    ensures p.w.sys.nodes.Keys == {0, 1, 2} && p.w.locks.Keys == {0, 1, 2} && p.due.Keys == {0, 1, 2}
  {}

  /** The same if nothing is cast or written. */
  lemma ThenGoes(p: Play, a: Address, n: State, cast: seq<VoteMessage>, more: seq<Lock>, d: Move, e: Event, n': State, due: Move)
    requires Ready(p) && a in {0, 1, 2} && Moves(p, a, n, cast, more, d) && !e.Receive? && !e.Restart? && !e.EnterPrecommit?
    requires Enabled(Me(a), n, e) && (Is(d, e) || (d == Stay && Starts(Me(a), n, e)))
    requires Fair(NET, With(p, a, n, cast, more, d).w.sys, a, n, e)
    requires n' == Next(Me(a), n, e) && n'.sent == n.sent && NodeReady(n') && due == Due(Me(a), n', e)
    ensures Moves(p, a, n', cast, more, due)
  {
    hide Moves, Due, With, Ready, Next, Enabled, NodeReady, Starts, Is, Fair, NewLock;
    var none: seq<Lock> := [];
    assert n.sent + [] == n.sent && cast + [] == cast && more + none == more;
    ThenDoes(p, a, n, cast, more, d, e, n', [], none, due);
  }

  // --- a round -------------------------------------------------------------------------------------

  /** Entering the propose step without proposing. */
  lemma Proposing(p: Play, a: Address)
    requires Ready(p) && a in {0, 1, 2} && p.due[a] == Stay && p.w.sys.nodes[a].step in {TRANSACTION_WAIT, NEW_ROUND}
    ensures Moves(p, a, p.w.sys.nodes[a].(step := PROPOSE), [], [], Stay)
  {
    hide Moves, With;
    var n := p.w.sys.nodes[a];
    Still(p, a);
    ThenGoes(p, a, n, [], [], Stay, Event.EnterPropose(None, false), n.(step := PROPOSE), Stay);
  }

  function Voted(n: State, a: Address, v: Option<PartSetID>): State {
    Cast1(n.(step := PREVOTE), Some(Vote(a, n.round, Prevote, v)))
  }

  lemma VotedIs(a: Address, n: State, v: Option<PartSetID>)
    requires NodeReady(n) && a in {0, 1, 2} && n.step == PROPOSE && (n.locked.Some? ==> n.locked == v)
    ensures var e := Event.EnterPrevote(Cast(Vote(a, n.round, Prevote, v)));
      && Enabled(Me(a), n, e) && Starts(Me(a), n, e) && Next(Me(a), n, e) == Voted(n, a, v) && NodeReady(Voted(n, a, v))
      && Due(Me(a), Voted(n, a, v), e) == First(Receive(Vote(a, n.round, Prevote, v)))
  {
    hide Vote;
    VoteIs(a, n.round, Prevote, v);
  }

  /** Prevoting, with the own vote received. */
  lemma Voting(p: Play, a: Address, n: State, d: Move, v: Option<PartSetID>)
    requires Ready(p) && a in {0, 1, 2} && Moves(p, a, n, [], [], d) && d in {Stay, Prevotes} && n.step == PROPOSE && NodeReady(n)
    requires (n.locked.Some? ==> n.locked == v) && (n.round, Prevote) !in n.votes
    requires v.Some? && n.locked.None? ==> Backed(p, a, n, v.value)
    ensures Moves(p, a, Heard(Voted(n, a, v), n.round, Prevote, map[a := v]), [Vote(a, n.round, Prevote, v)], [], Stay)
  {
    hide Moves, Held, Backed, With, Next, Enabled, Starts, Due, Vote, Ready, Voted;
    var m := Vote(a, n.round, Prevote, v);
    var n1 := Voted(n, a, v);
    ReadyNodes(p);
    VotedIs(a, n, v);
    VotedHolds(n, a, v);
    VotedFair(p, a, n, d, v);
    var none: seq<Lock> := [];
    ThenDoes(p, a, n, [], none, d, Event.EnterPrevote(Cast(m)), n1, [m], none, First(Receive(m)));
    assert [] + [m] == [m] && none + none == none;
    var who: Poll := map[];
    assert who[a := v] == map[a := v];
    DueFew(a, Heard(n1, n.round, Prevote, map[a := v]), n.round, Prevote, map[a := v], a, v);
    ThenHears(p, a, n1, [m], none, First(Receive(m)), n.round, Prevote, who, a, v, Stay);
  }

  lemma VotedHolds(n: State, a: Address, v: Option<PartSetID>)
    requires (n.round, Prevote) !in n.votes
    ensures VotesFor(Voted(n, a, v).votes, 4, n.round, Prevote) == Held(n.round, Prevote, map[])
    ensures Voted(n, a, v).height == n.height && Voted(n, a, v).sent == n.sent + [Vote(a, n.round, Prevote, v)]
  {}

  lemma VotedFair(p: Play, a: Address, n: State, d: Move, v: Option<PartSetID>)
    requires a in p.w.locks && n.height == 1
    requires v.Some? && n.locked.None? ==> Backed(p, a, n, v.value)
    ensures Fair(NET, With(p, a, n, [], [], d).w.sys, a, n, Event.EnterPrevote(Cast(Vote(a, n.round, Prevote, v))))
  {
    hide Offered, With, Vote, Backed;
    VoteIs(a, n.round, Prevote, v);
    if v.Some? && n.locked.None? { BackedOffered(p, a, n, n, [], [], d, v.value); }
  }

  /** The precommit step: with +2/3 prevotes the node locks, and precommits the block or nil. */
  function Precommitted(n: State, a: Address): State {
    var l := LockAfter(Me(a), n, true);
    Cast1(n.(step := PRECOMMIT, lockedRound := l.0, locked := l.1), Some(Vote(a, n.round, Precommit, PrecommitFor(Me(a), n, true))))
  }

  function Waiting(n: State, t: VoteType): State {
    n.(step := if t == Prevote then PREVOTE_WAIT else PRECOMMIT_WAIT, roundWAL := n.roundWAL + [VoteList(VoteListOf(VotesFor(n.votes, 4, n.round, t)))])
  }

  lemma PrevoteWaitIs(a: Address, n: State, p: Option<Option<PartSetID>>)
    requires NodeReady(n) && n.step == PREVOTE && Enough(Me(a), n, n.round, Prevote) && Polka(Me(a), n, n.round, Prevote) == p
    ensures var e, n' := Event.EnterPrevoteWait, Waiting(n, Prevote);
      && Enabled(Me(a), n, e) && Next(Me(a), n, e) == n' && NodeReady(n')
      && Due(Me(a), n', e) == (if p.Some? then Precommits else Stay)
      && Polka(Me(a), n', n'.round, Prevote) == p
  {
    hide VoteListOf, Winner;
  }

  lemma PrecommittedIs(a: Address, n: State)
    requires NodeReady(n) && a in {0, 1, 2} && n.step == PREVOTE_WAIT
    ensures var m := Vote(a, n.round, Precommit, PrecommitFor(Me(a), n, true));
      var e, n' := Event.EnterPrecommit(true, Some(m)), Precommitted(n, a);
      && Enabled(Me(a), n, e) && Next(Me(a), n, e) == n' && NodeReady(n') && Due(Me(a), n', e) == First(Receive(m))
      && Is(Precommits, e) && Starts(Me(a), n, e) && n'.sent == n.sent + [m] && n'.votes == n.votes && n'.round == n.round && n'.height == n.height
  {
    hide Vote, LockAfter, PrecommitFor;
    VoteIs(a, n.round, Precommit, PrecommitFor(Me(a), n, true));
  }

  /** From prevote wait on: locking or not, precommitting, and the own vote received. */
  lemma Locking(p: Play, a: Address, n: State, cast: seq<VoteMessage>, who: Poll, w: Option<Option<PartSetID>>)
    requires Ready(p) && a in {0, 1, 2} && Moves(p, a, n, cast, [], First(Event.EnterPrevoteWait)) && NodeReady(n) && n.step == PREVOTE
    requires VotesFor(n.votes, 4, n.round, Prevote) == Held(n.round, Prevote, who) && (n.round, Precommit) !in n.votes
    requires who.Keys <= {0, 1, 2, 3} && |who.Keys| == 3 && Wanted(who, w)
    requires w.Some? && w.value.Some? ==> w.value.value.count > 0 && Backed(p, a, n, w.value.value)
    ensures var n2 := Waiting(n, Prevote);
      var v := PrecommitFor(Me(a), n2, true);
      Moves(p, a, Heard(Precommitted(n2, a), n.round, Precommit, map[a := v]), cast + [Vote(a, n.round, Precommit, v)], NewLock(Me(a), n2, true), Stay)
  {
    hide Moves, Held, With, Next, Enabled, Starts, Due, Vote, Ready, Waiting, Precommitted, NewLock, Fair, Polka, Backed, Wanted;
    ReadyNodes(p);
    PolkaIs(a, n, n.round, Prevote, who, w);
    PrevoteWaitIs(a, n, w);
    WaitingSame(n, Prevote);
    var n2 := Waiting(n, Prevote);
    var d := if w.Some? then Precommits else Stay;
    FairWait(p, a, n, cast, [], First(Event.EnterPrevoteWait));
    ThenGoes(p, a, n, cast, [], First(Event.EnterPrevoteWait), Event.EnterPrevoteWait, n2, d);
    var v, l := PrecommitFor(Me(a), n2, true), NewLock(Me(a), n2, true);
    var m, n3 := Vote(a, n.round, Precommit, v), Precommitted(n2, a);
    PrecommittedIs(a, n2);
    FairLock(p, a, n, n2, cast, d, w);
    ThenDoes(p, a, n2, cast, [], d, Event.EnterPrecommit(true, Some(m)), n3, [m], l, First(Receive(m)));
    assert [] + l == l;
    OwnPrecommitHeard(p, a, n3, n.round, cast + [m], l, v);
  }

  lemma WaitingSame(n: State, t: VoteType)
    ensures var w := Waiting(n, t);
      w.votes == n.votes && w.round == n.round && w.height == n.height && w.sent == n.sent && w.locked == n.locked && w.lockedRound == n.lockedRound
      && w.proposals == n.proposals && w.step == (if t == Prevote then PREVOTE_WAIT else PRECOMMIT_WAIT)
  {}

  lemma OwnPrecommitHeard(p: Play, a: Address, n: State, r: nat, cast: seq<VoteMessage>, l: seq<Lock>, v: Option<PartSetID>)
    requires Ready(p) && a in {0, 1, 2} && n.height == 1 && (r, Precommit) !in n.votes && Vote(a, r, Precommit, v) in cast
    requires Moves(p, a, n, cast, l, First(Receive(Vote(a, r, Precommit, v))))
    ensures Moves(p, a, Heard(n, r, Precommit, map[a := v]), cast, l, Stay)
  {
    hide Moves, Held, Due, Vote, Ready;
    var who: Poll := map[];
    assert who[a := v] == map[a := v];
    HeldNone(n.votes, r, Precommit);
    DueFew(a, Heard(n, r, Precommit, map[a := v]), r, Precommit, map[a := v], a, v);
    ThenHears(p, a, n, cast, l, First(Receive(Vote(a, r, Precommit, v))), r, Precommit, who, a, v, Stay);
  }

  lemma HeldNone(b: Book, r: nat, t: VoteType)
    requires (r, t) !in b
    ensures VotesFor(b, 4, r, t) == Held(r, t, map[])
  {}

  lemma FairWait(p: Play, a: Address, n: State, cast: seq<VoteMessage>, more: seq<Lock>, d: Move)
    requires a in p.w.locks
    ensures Fair(NET, With(p, a, n, cast, more, d).w.sys, a, n, Event.EnterPrevoteWait)
    ensures Fair(NET, With(p, a, n, cast, more, d).w.sys, a, n, Event.EnterPrecommitWait)
  {}

  lemma FairLock(p: Play, a: Address, n: State, n2: State, cast: seq<VoteMessage>, d: Move, w: Option<Option<PartSetID>>)
    requires Ready(p) && a in {0, 1, 2} && n2.height == 1 && n2.round == n.round && n2.proposals == n.proposals
    requires Polka(Me(a), n2, n2.round, Prevote) == w
    requires w.Some? && w.value.Some? ==> w.value.value.count > 0 && Backed(p, a, n, w.value.value)
    ensures a in p.w.locks && forall v :: Fair(NET, With(p, a, n2, cast, [], d).w.sys, a, n2, Event.EnterPrecommit(true, v))
    ensures forall x :: x in NewLock(Me(a), n2, true) ==> x.id.count > 0
  {
    hide Polka, With, Offered, Ready;
    ReadyNodes(p);
    if w.Some? && w.value.Some? { BackedOffered(p, a, n, n2, cast, [], d, w.value.value); }
  }

  /** The votes of one kind that a node counts in a round, its own and two others, and what they have +2/3 for. */
  datatype Count = Count(v: Option<PartSetID>, j: Address, vj: Option<PartSetID>, k: Address, vk: Option<PartSetID>, w: Option<Option<PartSetID>>)

  function One(a: Address, x: Count): Poll { map[a := x.v] }
  function Two(a: Address, x: Count): Poll { One(a, x)[x.j := x.vj] }
  function All(a: Address, x: Count): Poll { Two(a, x)[x.k := x.vk] }

  /** The two others can be shown. */
  ghost predicate Counts(p: Play, a: Address, r: nat, t: VoteType, x: Count) {
    && a in {0, 1, 2} && x.j != a && x.k != a && x.j != x.k && Wanted(All(a, x), x.w)
    && Shows(p, x.j, r, t, x.vj) && Shows(p, x.k, r, t, x.vk)
  }

  lemma CountKeys(p: Play, a: Address, r: nat, t: VoteType, x: Count)
    requires Counts(p, a, r, t, x)
    ensures One(a, x).Keys == {a} && Two(a, x).Keys == {a, x.j} && All(a, x).Keys == {a, x.j, x.k}
    ensures All(a, x).Keys <= {0, 1, 2, 3} && |All(a, x).Keys| == 3 && |Two(a, x).Keys| == 2
    ensures x.j !in One(a, x) && x.k !in Two(a, x) && Shows(p, x.j, r, t, x.vj) && Shows(p, x.k, r, t, x.vk) && Wanted(All(a, x), x.w)
  {
    hide Wanted;
  }

  /** Two more votes are received. */
  lemma HearsTwo(p: Play, a: Address, n: State, cast: seq<VoteMessage>, more: seq<Lock>, r: nat, t: VoteType, x: Count, due: Move)
    requires Ready(p) && Counts(p, a, r, t, x) && n.height == 1 && Moves(p, a, Heard(n, r, t, One(a, x)), cast, more, Stay)
    requires due == Due(Me(a), Heard(n, r, t, All(a, x)), Receive(Vote(x.k, r, t, x.vk)))
    ensures Moves(p, a, Heard(n, r, t, All(a, x)), cast, more, due)
  {
    hide Moves, Held, Due, Vote, Ready, Wanted, Counts, One, Enough;
    assert a in {0, 1, 2} by { CountsMe(p, a, r, t, x); }
    CountKeys(p, a, r, t, x);
    HeardTwice(n, r, t, One(a, x), Two(a, x));
    HeardTwice(n, r, t, Two(a, x), All(a, x));
    DueFew(a, Heard(n, r, t, Two(a, x)), r, t, Two(a, x), x.j, x.vj);
    ThenHears(p, a, Heard(n, r, t, One(a, x)), cast, more, Stay, r, t, One(a, x), x.j, x.vj, Stay);
    ThenHears(p, a, Heard(n, r, t, Two(a, x)), cast, more, Stay, r, t, Two(a, x), x.k, x.vk, due);
  }

  lemma CountsMe(p: Play, a: Address, r: nat, t: VoteType, x: Count)
    requires Counts(p, a, r, t, x)
    ensures a in {0, 1, 2}
  {}

  lemma HeardTwice(n: State, r: nat, t: VoteType, x: Poll, y: Poll)
    ensures Heard(Heard(n, r, t, x), r, t, y) == Heard(n, r, t, y)
    ensures VotesFor(Heard(n, r, t, x).votes, 4, r, t) == Held(r, t, x) && VotesFor(Heard(n, r, t, y).votes, 4, r, t) == Held(r, t, y)
  {
    hide Held;
    assert n.votes[(r, t) := Held(r, t, x)][(r, t) := Held(r, t, y)] == n.votes[(r, t) := Held(r, t, y)];
  }

  /** One node's turn: the others stand still, and what was cast stays cast. */
  ghost predicate Turn(p: Play, q: Play, a: Address) {
    && Leads(NET, p, q) && Ready(p) && Ready(q) && a in {0, 1, 2}
    && (forall b :: b in {0, 1, 2} && b != a ==> q.w.sys.nodes[b] == p.w.sys.nodes[b] && q.w.locks[b] == p.w.locks[b] && q.due[b] == p.due[b])
    && Extends(p.w.sys.log, q.w.sys.log)
  }

  lemma TurnOf(p: Play, a: Address, n: State, cast: seq<VoteMessage>, more: seq<Lock>, due: Move) returns (q: Play)
    requires Ready(p) && a in {0, 1, 2} && Moves(p, a, n, cast, more, due)
    ensures Turn(p, q, a) && q.w.sys.nodes[a] == n && q.w.locks[a] == p.w.locks[a] + more && q.due[a] == due
    ensures forall v :: v in cast ==> v in q.w.sys.log
  {
    hide Leads, Ready;
    q := With(p, a, n, cast, more, due);
    WithReady(p, a, n, cast, more, due);
    ReadyNodes(p);
  }

  /** What three prevotes make of the lock and the vote. */
  function LockBy(n: State, w: Option<Option<PartSetID>>): (int, Option<PartSetID>) {
    if w.None? then (n.lockedRound, n.locked) else if w.value.None? then (-1, None) else (n.round, w.value)
  }

  function Choice(w: Option<Option<PartSetID>>): Option<PartSetID> { if w.Some? then w.value else None }

  // --- the three turns of a node in a round --------------------------------------------------------

  /** A node in the propose step that can prevote v. */
  ghost predicate Ripe(p: Play, a: Address, n: State, d: Move, v: Option<PartSetID>) {
    && a in {0, 1, 2} && d in {Stay, Prevotes} && n.step == PROPOSE && NodeReady(n) && (n.round, Prevote) !in n.votes
    && (n.locked.Some? ==> n.locked == v) && (v.Some? && n.locked.None? ==> Backed(p, a, n, v.value))
  }

  function Prevoted(n: State, a: Address, v: Option<PartSetID>): State { Heard(Voted(n, a, v), n.round, Prevote, map[a := v]) }

  /** First turn: prevoting. */
  lemma Prevotes1(p: Play, a: Address, n: State, d: Move, v: Option<PartSetID>) returns (q: Play)
    requires Ready(p) && Ripe(p, a, n, d, v) && Moves(p, a, n, [], [], d)
    ensures Turn(p, q, a) && q.due[a] == Stay && q.w.sys.nodes[a] == Prevoted(n, a, v)
    ensures q.w.locks[a] == p.w.locks[a] && Vote(a, n.round, Prevote, v) in q.w.sys.log
  {
    hide Moves, Backed, Vote, Ready, Turn, Voted, Held;
    Voting(p, a, n, d, v);
    q := TurnOf(p, a, Prevoted(n, a, v), [Vote(a, n.round, Prevote, v)], [], Stay);
  }

  /** A node that has prevoted, with the prevotes it will count. */
  ghost predicate Polls(p: Play, a: Address, x: Count) {
    && a in p.due && p.due[a] == Stay && a in p.w.sys.nodes && var n := p.w.sys.nodes[a];
    && n.step == PREVOTE && NodeReady(n) && Counts(p, a, n.round, Prevote, x)
    && (n.round, Prevote) in n.votes && n.votes[(n.round, Prevote)] == Held(n.round, Prevote, One(a, x)) && (n.round, Precommit) !in n.votes
    && (n.locked.Some? && x.w.Some? ==> x.w.value == n.locked)
    && (x.w.Some? && x.w.value.Some? ==> x.w.value.value.count > 0 && Backed(p, a, n, x.w.value.value))
  }

  /** The state of node a after that. */
  ghost predicate Half(n0: State, n: State, a: Address, x: Count) {
    var r := n0.round;
    && n.round == r && n.step == PRECOMMIT && (n.lockedRound, n.locked) == LockBy(n0, x.w)
    && n.votes == n0.votes[(r, Prevote) := Held(r, Prevote, All(a, x))][(r, Precommit) := Held(r, Precommit, map[a := Choice(x.w)])]
    && n.roundWAL == n0.roundWAL + [VoteList(VoteListOf(Held(r, Prevote, All(a, x)))), OneVote(Vote(a, r, Precommit, Choice(x.w)))]
    && n.decided == n0.decided && n.proposals == n0.proposals
  }

  /** The lock that three prevotes add to the disk. */
  function Written(n: State, a: Address, x: Count): seq<Lock> {
    if x.w.Some? && x.w.value.Some? && n.locked != x.w.value
    then [Lock(1, n.round, Held(n.round, Prevote, All(a, x)), x.w.value.value)] else []
  }

  /** Second turn: three prevotes, locking or not, and precommitting. */
  lemma Precommits1(p: Play, a: Address, x: Count) returns (q: Play)
    requires Ready(p) && Polls(p, a, x)
    ensures Turn(p, q, a) && q.due[a] == Stay && Half(p.w.sys.nodes[a], q.w.sys.nodes[a], a, x)
    ensures Vote(a, p.w.sys.nodes[a].round, Precommit, Choice(x.w)) in q.w.sys.log
    ensures q.w.locks[a] == p.w.locks[a] + Written(p.w.sys.nodes[a], a, x)
  {
    hide Moves, Held, With, Next, Enabled, Starts, Due, Vote, Ready, Wanted, Turn, Waiting, Precommitted, NewLock, Half, Backed, Shows, All, Two, One;
    var n := p.w.sys.nodes[a];
    var r, n1 := n.round, Heard(n, n.round, Prevote, All(a, x));
    CountKeys(p, a, r, Prevote, x);
    Counted(p, a, x);
    HeardReady(n, r, Prevote, All(a, x));
    HeardTwice(n, r, Prevote, All(a, x), All(a, x));
    SameBacked(p, a, n, n1, x.w);
    Locking(p, a, n1, [], All(a, x), x.w);
    var n2 := Waiting(n1, Prevote);
    WaitingSame(n1, Prevote);
    PolkaIs(a, n2, r, Prevote, All(a, x), x.w);
    ChoiceIs(a, n2, x.w);
    HalfIs(a, n, x);
    var m := Vote(a, r, Precommit, Choice(x.w));
    assert [] + [m] == [m];
    q := TurnOf(p, a, Heard(Precommitted(n2, a), r, Precommit, map[a := Choice(x.w)]), [m], NewLock(Me(a), n2, true), Stay);
  }

  lemma Counted(p: Play, a: Address, x: Count)
    requires Ready(p) && Polls(p, a, x)
    ensures var n := p.w.sys.nodes[a]; Moves(p, a, Heard(n, n.round, Prevote, All(a, x)), [], [], First(Event.EnterPrevoteWait))
  {
    hide Moves, Held, With, Due, Vote, Ready, Wanted, Backed, Shows, All, Two, One;
    var n := p.w.sys.nodes[a];
    CountKeys(p, a, n.round, Prevote, x);
    Still(p, a);
    HeardSame(n, n.round, Prevote, One(a, x));
    HeardTwice(n, n.round, Prevote, All(a, x), All(a, x));
    DuePrevotes(a, Heard(n, n.round, Prevote, All(a, x)), All(a, x), x.w, x.k, x.vk);
    HearsTwo(p, a, n, [], [], n.round, Prevote, x, First(Event.EnterPrevoteWait));
  }

  lemma SameBacked(p: Play, a: Address, n: State, n1: State, w: Option<Option<PartSetID>>)
    requires n1.proposals == n.proposals && n1.round == n.round
    requires w.Some? && w.value.Some? ==> w.value.value.count > 0 && Backed(p, a, n, w.value.value)
    ensures w.Some? && w.value.Some? ==> w.value.value.count > 0 && Backed(p, a, n1, w.value.value)
  {}

  lemma ChoiceIs(a: Address, n: State, w: Option<Option<PartSetID>>)
    requires n.height == 1 && Polka(Me(a), n, n.round, Prevote) == w
    ensures PrecommitFor(Me(a), n, true) == Choice(w) && LockAfter(Me(a), n, true) == LockBy(n, w)
    ensures NewLock(Me(a), n, true) == if w.Some? && w.value.Some? && n.locked != w.value
                                       then [Lock(1, n.round, VotesFor(n.votes, 4, n.round, Prevote), w.value.value)] else []
  {
    hide Polka;
  }

  lemma HalfIs(a: Address, n: State, x: Count)
    requires var n2 := Waiting(Heard(n, n.round, Prevote, All(a, x)), Prevote);
      PrecommitFor(Me(a), n2, true) == Choice(x.w) && LockAfter(Me(a), n2, true) == LockBy(n2, x.w)
    ensures var n2 := Waiting(Heard(n, n.round, Prevote, All(a, x)), Prevote);
      Half(n, Heard(Precommitted(n2, a), n.round, Precommit, map[a := Choice(x.w)]), a, x)
  {
    hide Held, Vote, PrecommitFor, LockAfter, VoteListOf, All;
  }

  /** A node that has precommitted, with the precommits it will count. */
  ghost predicate Open(p: Play, a: Address, x: Count) {
    && a in p.due && p.due[a] == Stay && a in p.w.sys.nodes && var n := p.w.sys.nodes[a];
    && n.step == PRECOMMIT && NodeReady(n) && Counts(p, a, n.round, Precommit, x)
    && (n.round, Precommit) in n.votes && n.votes[(n.round, Precommit)] == Held(n.round, Precommit, One(a, x))
    && (n.round + 1, Prevote) !in n.votes && (n.round + 1, Precommit) !in n.votes
  }

  lemma HeardSame(n: State, r: nat, t: VoteType, who: Poll)
    requires (r, t) in n.votes && n.votes[(r, t)] == Held(r, t, who)
    ensures Heard(n, r, t, who) == n
  {
    hide Held;
    assert n.votes[(r, t) := Held(r, t, who)] == n.votes;
  }

  /** Three precommits counted, and the step after that entered. */
  lemma Closing(p: Play, a: Address, x: Count)
    requires Ready(p) && Open(p, a, x)
    ensures var n := p.w.sys.nodes[a];
      Moves(p, a, Waiting(Heard(n, n.round, Precommit, All(a, x)), Precommit), [], [], After(n, x))
  {
    hide Moves, Held, With, Next, Enabled, Starts, Due, Vote, Ready, Wanted, Shows, All, Two, One, Waiting;
    var n := p.w.sys.nodes[a];
    var n1 := Heard(n, n.round, Precommit, All(a, x));
    CountKeys(p, a, n.round, Precommit, x);
    Still(p, a);
    HeardSame(n, n.round, Precommit, One(a, x));
    HeardTwice(n, n.round, Precommit, All(a, x), All(a, x));
    DuePrecommits(a, n1, All(a, x), x.w, x.k, x.vk);
    HearsTwo(p, a, n, [], [], n.round, Precommit, x, First(Event.EnterPrecommitWait));
    PolkaIs(a, n1, n.round, Precommit, All(a, x), x.w);
    HeardReady(n, n.round, Precommit, All(a, x));
    PrecommitWaitIs(a, n1, x);
    WaitingSame(n1, Precommit);
    ReadyNodes(p);
    FairWait(p, a, n1, [], [], First(Event.EnterPrecommitWait));
    ThenGoes(p, a, n1, [], [], First(Event.EnterPrecommitWait), Event.EnterPrecommitWait, Waiting(n1, Precommit), After(n, x));
  }

  /** What three precommits lead to. */
  function After(n: State, x: Count): Move {
    if x.w.None? then Stay else First(if x.w.value.Some? then Decide(n.round, x.w.value.value) else EnterRound(n.round + 1))
  }

  lemma HeardReady(n: State, r: nat, t: VoteType, who: Poll)
    requires NodeReady(n)
    ensures NodeReady(Heard(n, r, t, who))
  {
    hide Held;
  }

  lemma PrecommitWaitIs(a: Address, n: State, x: Count)
    requires NodeReady(n) && n.step == PRECOMMIT && Enough(Me(a), n, n.round, Precommit) && Polka(Me(a), n, n.round, Precommit) == x.w
    ensures var e, n' := Event.EnterPrecommitWait, Waiting(n, Precommit);
      && Enabled(Me(a), n, e) && Next(Me(a), n, e) == n' && NodeReady(n') && Due(Me(a), n', e) == After(n, x)
      && Polka(Me(a), n', n'.round, Precommit) == x.w
  {
    hide VoteListOf, Winner;
  }

  /** The state of node a after the second half of a round that decides nothing. */
  ghost predicate Over(n0: State, n: State, a: Address, x: Count) {
    var r := n0.round;
    && n.round == r + 1 && n.step == NEW_ROUND && n.lockedRound == n0.lockedRound && n.locked == n0.locked
    && n.votes == Pruned(n0.votes[(r, Precommit) := Held(r, Precommit, All(a, x))], r, n0.lockedRound)
    && n.roundWAL == n0.roundWAL + [VoteList(VoteListOf(Held(r, Precommit, All(a, x))))]
    && n.decided == n0.decided && n.proposals == n0.proposals
  }

  function Entered(n: State): State { n.(round := n.round + 1, step := NEW_ROUND, votes := Pruned(n.votes, n.round, n.lockedRound)) }

  lemma EnteredIs(a: Address, n: State)
    requires NodeReady(n) && n.step == PRECOMMIT_WAIT && (n.round + 1, Prevote) !in n.votes && (n.round + 1, Precommit) !in n.votes
    ensures var e, n' := EnterRound(n.round + 1), Entered(n);
      && Enabled(Me(a), n, e) && Starts(Me(a), n, e) && Next(Me(a), n, e) == n' && NodeReady(n') && Due(Me(a), n', e) == Stay
  {
    var none: Poll := map[];
    HeldNone(Entered(n).votes, n.round + 1, Prevote);
    HeldNone(Entered(n).votes, n.round + 1, Precommit);
    DueFew(a, Entered(n), n.round + 1, Prevote, none, 0, None);
    DueFew(a, Entered(n), n.round + 1, Precommit, none, 0, None);
  }

  /** The second half of a round that decides nothing. */
  lemma SecondHalf(p: Play, a: Address, x: Count) returns (q: Play)
    requires Ready(p) && Open(p, a, x) && (x.w.Some? ==> x.w.value.None?)
    ensures Turn(p, q, a) && q.due[a] == Stay && Over(p.w.sys.nodes[a], q.w.sys.nodes[a], a, x) && q.w.locks[a] == p.w.locks[a]
  {
    hide Moves, Held, With, Next, Enabled, Starts, Due, Vote, Ready, Wanted, Shows, All, Two, One, Turn, Entered, Waiting;
    var n := p.w.sys.nodes[a];
    var n1 := Heard(n, n.round, Precommit, All(a, x));
    var n2 := Waiting(n1, Precommit);
    Closing(p, a, x);
    HeardReady(n, n.round, Precommit, All(a, x));
    WaitingSame(n1, Precommit);
    WaitingReady(n1, Precommit);
    EnteredIs(a, n2);
    ReadyNodes(p);
    EnteredSent(n2);
    ThenGoes(p, a, n2, [], [], After(n, x), EnterRound(n.round + 1), Entered(n2), Stay);
    OverIs(n, a, x);
    q := TurnOf(p, a, Entered(n2), [], [], Stay);
  }

  lemma WaitingReady(n: State, t: VoteType)
    requires NodeReady(n)
    ensures NodeReady(Waiting(n, t))
  {
    hide VoteListOf;
  }

  lemma EnteredSent(n: State)
    ensures Entered(n).sent == n.sent
  {}

  lemma OverIs(n: State, a: Address, x: Count)
    ensures Over(n, Entered(Waiting(Heard(n, n.round, Precommit, All(a, x)), Precommit)), a, x)
  {
    hide Held, All, VoteListOf, Pruned;
  }

  /** The second half of a round that decides. */
  lemma Deciding(p: Play, a: Address, x: Count) returns (q: Play)
    requires Ready(p) && Open(p, a, x) && x.w.Some? && x.w.value.Some?
    ensures Turn(p, q, a) && (1, x.w.value.value) in q.w.sys.nodes[a].decided
  {
    hide Moves, Held, With, Next, Enabled, Starts, Due, Vote, Ready, Wanted, Shows, All, Two, One, Turn, Waiting;
    var n, id := p.w.sys.nodes[a], x.w.value.value;
    var n1 := Heard(n, n.round, Precommit, All(a, x));
    var n2 := Waiting(n1, Precommit);
    Closing(p, a, x);
    CountKeys(p, a, n.round, Precommit, x);
    HeardReady(n, n.round, Precommit, All(a, x));
    HeardTwice(n, n.round, Precommit, All(a, x), All(a, x));
    WaitingSame(n1, Precommit);
    WaitingReady(n1, Precommit);
    PolkaIs(a, n2, n.round, Precommit, All(a, x), x.w);
    var n3 := n2.(step := COMMIT, decided := n2.decided + [(1, id)]);
    DecidedIs(a, n2, id);
    ReadyNodes(p);
    ThenGoes(p, a, n2, [], [], After(n, x), Decide(n.round, id), n3, Stay);
    q := TurnOf(p, a, n3, [], [], Stay);
  }

  lemma DecidedIs(a: Address, n: State, id: PartSetID)
    requires NodeReady(n) && Polka(Me(a), n, n.round, Precommit) == Some(Some(id))
    ensures var e, n' := Decide(n.round, id), n.(step := COMMIT, decided := n.decided + [(1, id)]);
      Enabled(Me(a), n, e) && Next(Me(a), n, e) == n' && NodeReady(n') && Due(Me(a), n', e) == Stay
  {
    hide Polka;
  }
}
