/** What node 0 of the run in `Relock` has on its round log when it restarts, and what it reads back from it. */
module Rereading {
  import opened Votes
  import opened VoteSets
  import opened Node
  import opened NodeSafety
  import opened Turns

  const P: PartSetID := PartSetID(1, 10)
  const Q: PartSetID := PartSetID(1, 20)
  const R: PartSetID := PartSetID(1, 30)

  // --- reading the round log of node 0 back ---------------------------------------------------------

  const NIL: Option<PartSetID> := None

  /** What node 0 counts in each round until it restarts. */
  const A0: Count := Count(Some(P), 1, Some(P), 3, Some(P), Some(Some(P)))
  const A0C: Count := Count(Some(P), 1, NIL, 2, NIL, None)
  const A1: Count := Count(Some(P), 1, Some(Q), 2, Some(Q), None)
  const A1C: Count := Count(NIL, 1, NIL, 2, NIL, Some(NIL))
  const A2: Count := Count(Some(P), 1, Some(P), 3, Some(P), Some(Some(P)))

  /** All the votes it holds then. */
  function Story(): map<(nat, VoteType), Poll> {
    map[(0, Prevote) := All(0, A0), (0, Precommit) := All(0, A0C), (1, Prevote) := All(0, A1), (1, Precommit) := All(0, A1C),
        (2, Prevote) := All(0, A2), (2, Precommit) := map[0 := Some(P)]]
  }

  ghost predicate Fits(m: VoteMessage) {
    exists i :: FitsAt(m, i)
  }

  predicate FitsAt(m: VoteMessage, i: Address) {
    (m.round, m.vtype) in Story() && i in Story()[(m.round, m.vtype)] && i < 4 && m == Vote(i, m.round, m.vtype, Story()[(m.round, m.vtype)][i])
  }

  ghost predicate FitsRecord(rec: Record) {
    match rec
    case OwnProposal(_) => false
    case OneVote(m) => Fits(m)
    case VoteList(ms) => forall m :: m in ms ==> Fits(m)
    case BlockPart(_, _, _) => true
  }

  /** What has been read back is part of the story, and not past the precommit of round 2. */
  ghost predicate Sub(x: Replay) {
    && Sized(x.votes, 4) && !Before(2, PRECOMMIT, x.round, x.step)
    && forall k :: k in x.votes ==> k in Story() && Part(x.votes[k], Held(k.0, k.1, Story()[k]))
  }

  ghost predicate Part(b: Ballots, all: Ballots) {
    |b| == |all| && forall i :: 0 <= i < |b| && b[i].Some? ==> b[i] == all[i]
  }

  ghost predicate Has(x: Replay, m: VoteMessage) {
    var b := VotesFor(x.votes, 4, m.round, m.vtype);
    m.Signer().Some? && m.Signer().value < |b| && b[m.Signer().value] == Some(m)
  }

  lemma FitsIs(m: VoteMessage, i: Address)
    requires FitsAt(m, i)
    ensures m.height == 1 && m.Signer() == Some(i) && IndexOf(LIST, i) == Some(i) && m.round <= 2
    ensures Held(m.round, m.vtype, Story()[(m.round, m.vtype)])[i] == Some(m)
    ensures !Before(2, PRECOMMIT, m.round, StepOf(m.vtype))
  {
    hide Vote;
    VoteIs(i, m.round, m.vtype, Story()[(m.round, m.vtype)][i]);
    Places(i);
  }

  /** A vote of the story put among others of it. */
  lemma PartAdded(b: Ballots, all: Ballots, i: nat, m: VoteMessage)
    requires Part(b, all) && i < |b| && all[i] == Some(m)
    ensures Part(Added(b, i, m), all) && Added(b, i, m)[i] == Some(m)
    ensures forall j :: 0 <= j < |b| && b[j].Some? ==> Added(b, i, m)[j] == b[j]
  {
    hide Winner;
  }

  lemma SubVotes(x: Replay, r: nat, t: VoteType)
    requires Sub(x) && (r, t) in Story()
    ensures Part(VotesFor(x.votes, 4, r, t), Held(r, t, Story()[(r, t)]))
  {
    hide Held, Story;
  }

  /** Reading one vote of the story back. */
  lemma ReadVote(x: Replay, m: VoteMessage, i: Address)
    requires Sub(x) && FitsAt(m, i)
    ensures var y := ReplayVote(Me(0), 1, x, m);
      Sub(y) && Has(y, m) && (forall m' :: Has(x, m') ==> Has(y, m')) && y.round == x.round && y.step == x.step
  {
    hide Held, Story, Vote, Added, IndexOf;
    FitsIs(m, i);
    SubVotes(x, m.round, m.vtype);
    PartAdded(VotesFor(x.votes, 4, m.round, m.vtype), Held(m.round, m.vtype, Story()[(m.round, m.vtype)]), i, m);
    assert |Me(0).vals(1)| == 4;
  }

  lemma SubSized(x: Replay)
    requires Sub(x)
    ensures Sized(x.votes, |Me(0).vals(1)|)
  {
    hide Story, Held;
  }

  lemma {:induction false} ReadList(x: Replay, ms: seq<VoteMessage>, all: bool)
    requires Sub(x) && Sized(x.votes, |Me(0).vals(1)|) && forall m :: m in ms ==> Fits(m)
    ensures var y := ReplayVotes(Me(0), 1, x, ms, all);
      Sub(y) && (forall m :: m in ms || Has(x, m) ==> Has(y, m))
  {
    hide Sub, Has, Fits, ReplayVote, Story;
    if ms != [] {
      var front, m := ms[..|ms| - 1], ms[|ms| - 1];
      ReadList(x, front, all);
      FitsHeight(m);
      var y := ReplayVotes(Me(0), 1, x, front, all);
      SubSized(y);
      assert exists i :: FitsAt(m, i) by { FitsOne(m); }
      var i :| FitsAt(m, i);
      ReadVote(y, m, i);
    }
  }

  lemma FitsOne(m: VoteMessage)
    requires Fits(m)
    ensures exists i :: FitsAt(m, i)
  {
    hide FitsAt;
  }

  lemma FitsHeight(m: VoteMessage)
    requires Fits(m)
    ensures m.height == 1 && m.Signer().Some? && !Before(2, PRECOMMIT, m.round, StepOf(m.vtype))
  {
    hide FitsAt;
    var i :| FitsAt(m, i);
    FitsIs(m, i);
  }

  /** The votes of a record are held. */
  ghost predicate HasAll(x: Replay, rec: Record) {
    match rec
    case OneVote(m) => Has(x, m)
    case VoteList(ms) => forall m :: m in ms ==> Has(x, m)
    case _ => true
  }

  ghost predicate Kept(x: Replay, y: Replay) { forall m :: Has(x, m) ==> Has(y, m) }

  lemma SubMoves(x: Replay, y: Replay)
    requires Sub(x) && y.votes == x.votes && !Before(2, PRECOMMIT, y.round, y.step)
    ensures Sub(y) && Kept(x, y) && forall m :: Has(y, m) ==> Has(x, m)
  {
    hide Story, Held;
  }

  lemma ReadRecord(x: Replay, log: Log, rec: Record)
    requires Sub(x) && Sized(x.votes, |Me(0).vals(1)|) && FitsRecord(rec) && log != CommitLog && (rec.OneVote? ==> log == RoundLog && rec.vote.Signer() == Some(0))
    ensures var y := ReplayRecord(Me(0), 1, x, log, rec); Sub(y) && HasAll(y, rec) && Kept(x, y)
  {
    hide Sub, Has, Fits, ReplayVote, ReplayVotes, Story, Winner;
    var y := ReplayRecord(Me(0), 1, x, log, rec);
    match rec
    case OneVote(m) =>
      FitsHeight(m);
      FitsOne(m);
      var i :| FitsAt(m, i);
      ReadVote(x, m, i);
      SubPlace(x);
      SubMoves(ReplayVote(Me(0), 1, x, m), y);
    case VoteList(ms) =>
      ReadList(x, ms, false);
      SubPlace(x);
      if ms != [] { FitsHeight(ms[0]); }
      SubMoves(ReplayVotes(Me(0), 1, x, ms, false), y);
    case BlockPart(_, _, _) =>
      SubPlace(x);
      SubMoves(x, y);
  }

  lemma SubPlace(x: Replay)
    requires Sub(x)
    ensures !Before(2, PRECOMMIT, x.round, x.step)
  {
    hide Story, Held;
  }

  /** Records that fit, with own votes in the round log only. */
  ghost predicate FitsIn(log: Log, recs: seq<Record>) {
    forall k :: 0 <= k < |recs| ==> FitsRecord(recs[k]) && (recs[k].OneVote? ==> log == RoundLog && recs[k].vote.Signer() == Some(0))
  }

  lemma {:induction false} ReadLog(x: Replay, log: Log, recs: seq<Record>)
    requires Sub(x) && Sized(x.votes, |Me(0).vals(1)|) && log != CommitLog && FitsIn(log, recs)
    ensures var y := ReplayLog(Me(0), 1, x, log, recs); Sub(y) && Kept(x, y) && forall k :: 0 <= k < |recs| ==> HasAll(y, recs[k])
  {
    hide Sub, Has, FitsRecord, ReplayRecord;
    if recs != [] {
      var front, rec := recs[..|recs| - 1], recs[|recs| - 1];
      ReadLog(x, log, front);
      var y := ReplayLog(Me(0), 1, x, log, front);
      ReadRecord(y, log, rec);
      var z := ReplayLog(Me(0), 1, x, log, recs);
      forall k | 0 <= k < |recs| ensures HasAll(z, recs[k]) {
        if k < |front| { assert HasAll(y, front[k]); }
      }
    }
  }

  lemma {:induction false} ListComplete(msgs: Ballots, m: VoteMessage)
    requires Some(m) in msgs
    ensures m in VoteListOf(msgs)
  {
    if msgs[|msgs| - 1] != Some(m) { ListComplete(msgs[..|msgs| - 1], m); }
  }

  /** All votes of a poll are held again. */
  lemma HeldAgain(x: Replay, r: nat, t: VoteType, who: Poll)
    requires Sub(x) && (r, t) in Story() && Story()[(r, t)] == who && 0 in who && who.Keys <= {0, 1, 2, 3}
    requires forall i :: i in who ==> Has(x, Vote(i, r, t, who[i]))
    ensures (r, t) in x.votes && x.votes[(r, t)] == Held(r, t, who)
  {
    hide Vote, Story, Sub;
    SubVotes(x, r, t);
    var b := VotesFor(x.votes, 4, r, t);
    forall i | i in who ensures b[i] == Some(Vote(i, r, t, who[i])) { VoteIs(i, r, t, who[i]); }
    assert b[0].Some?;
  }

  /** The book of node 0 after its restart, from its round log and its lock log. */
  ghost function Reread(rw: seq<Record>, lw: seq<Record>): Replay {
    ReplayAll(Me(0), 1, rw, lw, [])
  }

  lemma RereadIs(rw: seq<Record>, lw: seq<Record>)
    requires FitsIn(RoundLog, rw) && FitsIn(LockLog, lw)
    ensures Sub(Reread(rw, lw)) && forall k :: 0 <= k < |rw| ==> HasAll(Reread(rw, lw), rw[k])
  {
    hide Sub, FitsIn, ReplayLog, Has;
    EmptySub();
    ReadLog(EMPTY, RoundLog, rw);
    var x := ReplayLog(Me(0), 1, EMPTY, RoundLog, rw);
    ReadLog(x, LockLog, lw);
    var y := ReplayLog(Me(0), 1, x, LockLog, lw);
    NothingRead(y);
    forall k | 0 <= k < |rw| ensures HasAll(Reread(rw, lw), rw[k]) { assert HasAll(x, rw[k]); }
  }

  lemma NothingRead(y: Replay)
    requires Sized(y.votes, |Me(0).vals(1)|)
    ensures ReplayLog(Me(0), 1, y, CommitLog, []) == y
  {}

  lemma EmptySub()
    ensures Sub(EMPTY) && Sized(EMPTY.votes, |Me(0).vals(1)|)
  {}

  lemma Rereads(rw: seq<Record>, lw: seq<Record>)
    requires FitsIn(RoundLog, rw) && FitsIn(LockLog, lw)
    requires VoteList(VoteListOf(Held(1, Prevote, All(0, A1)))) in rw && OneVote(Vote(0, 2, Precommit, Some(P))) in rw
    ensures var x := Reread(rw, lw);
      && x.round == 2 && x.step == PRECOMMIT && (forall k :: k in x.votes ==> k.0 <= 2) && Sized(x.votes, 4)
      && (1, Prevote) in x.votes && x.votes[(1, Prevote)] == Held(1, Prevote, All(0, A1))
      && (2, Precommit) in x.votes && x.votes[(2, Precommit)] == Held(2, Precommit, map[0 := Some(P)])
  {
    hide ReplayAll, Vote, VoteListOf, FitsIn, Has, Held;
    var x, m := Reread(rw, lw), Vote(0, 2, Precommit, Some(P));
    RereadIs(rw, lw);
    VoteIs(0, 2, Precommit, Some(P));
    ReplayReachesVote(Me(0), 1, rw, lw, [], m);
    var i :| 0 <= i < |rw| && rw[i] == OneVote(m);
    assert HasAll(x, rw[i]);
    HeldAgain(x, 2, Precommit, map[0 := Some(P)]);
    var k :| 0 <= k < |rw| && rw[k] == VoteList(VoteListOf(Held(1, Prevote, All(0, A1))));
    assert HasAll(x, rw[k]);
    ListedAgain(x, 1, Prevote, All(0, A1));
  }

  lemma ListedAgain(x: Replay, r: nat, t: VoteType, who: Poll)
    requires Sub(x) && (r, t) in Story() && Story()[(r, t)] == who && 0 in who && who.Keys <= {0, 1, 2, 3}
    requires forall m :: m in VoteListOf(Held(r, t, who)) ==> Has(x, m)
    ensures (r, t) in x.votes && x.votes[(r, t)] == Held(r, t, who)
  {
    hide Sub, Vote, Story, VoteListOf, Has;
    forall i | i in who ensures Has(x, Vote(i, r, t, who[i])) {
      assert Held(r, t, who)[i] == Some(Vote(i, r, t, who[i]));
      ListComplete(Held(r, t, who), Vote(i, r, t, who[i]));
    }
    HeldAgain(x, r, t, who);
  }
}
