/** Vote lists on the write-ahead logs: what reading one of them back does. */
module Logs {
  import opened Votes
  import opened Quorum
  import opened VoteSets
  import opened Node
  import opened NodeSafety

  /** Votes of one round and type, each at the place of its signer. */
  ghost predicate Placed(vals: seq<Address>, h: nat, r: nat, t: VoteType, msgs: Ballots) {
    && |msgs| == |vals|
    && forall i :: 0 <= i < |msgs| && msgs[i].Some? ==> PlacedAt(vals, h, r, t, i, msgs[i].value)
  }

  ghost predicate PlacedAt(vals: seq<Address>, h: nat, r: nat, t: VoteType, i: nat, m: VoteMessage) {
    m.height == h && m.round == r && m.vtype == t && m.Signer().Some? && IndexOf(vals, m.Signer().value) == Some(i)
  }

  function Polled(c: Node, h: nat, a: Replay, r: nat, t: VoteType): Ballots { VotesFor(a.votes, |c.vals(h)|, r, t) }

  /** Reading one vote of the list back. */
  lemma VoteReadBack(c: Node, h: nat, a: Replay, r: nat, t: VoteType, i: nat, m: VoteMessage)
    requires Sized(a.votes, |c.vals(h)|) && i < |c.vals(h)| && PlacedAt(c.vals(h), h, r, t, i, m)
    ensures Polled(c, h, ReplayVote(c, h, a, m), r, t) == Added(Polled(c, h, a, r, t), i, m)
  {
    hide Added;
  }

  /** Another decision has +2/3. */
  ghost predicate Beaten(msgs: Ballots, d: Decision) { exists e :: e != d && Wins(msgs, e) }

  /** A vote read back for d counts for d, unless another decision has +2/3. */
  lemma AddedForD(msgs: Ballots, i: nat, m: VoteMessage, d: Decision)
    requires i < |msgs|
    ensures Beaten(msgs, d) ==> Beaten(Added(msgs, i, m), d)
    ensures !Beaten(msgs, d) && m.decision == d ==> Added(msgs, i, m)[i].Some? && Added(msgs, i, m)[i].value.decision == d
  {
    if Beaten(msgs, d) {
      var e :| e != d && Wins(msgs, e);
      WinnerStable(msgs, e, i, m);
    }
  }

  /** The votes held after the first k of msgs have been added. */
  ghost function Refilled(held: Ballots, msgs: Ballots, k: nat): (r: Ballots)
    requires k <= |msgs| == |held|
    ensures |r| == |held|
  {
    if k == 0 then held
    else
      var b := Refilled(held, msgs, k - 1);
      if msgs[k - 1].Some? then Added(b, k - 1, msgs[k - 1].value) else b
  }

  /** Adding them gives every voter of d its vote again, or else +2/3 are for another decision. */
  lemma {:induction false} RefilledForD(held: Ballots, msgs: Ballots, d: Decision, k: nat)
    requires k <= |msgs| == |held|
    ensures Beaten(Refilled(held, msgs, k), d)
         || forall i :: i in Voters(msgs, d) && i < k ==> Refilled(held, msgs, k)[i].Some? && Refilled(held, msgs, k)[i].value.decision == d
  {
    hide Beaten, Accepts;
    if k > 0 {
      RefilledForD(held, msgs, d, k - 1);
      if msgs[k - 1].Some? { AddedForD(Refilled(held, msgs, k - 1), k - 1, msgs[k - 1].value, d); }
    }
  }

  /** Reading the list back is adding its votes. */
  lemma {:induction false} ListReadBack(c: Node, h: nat, a: Replay, r: nat, t: VoteType, msgs: Ballots, all: bool, k: nat)
    requires Sized(a.votes, |c.vals(h)|) && Placed(c.vals(h), h, r, t, msgs) && k <= |msgs|
    ensures Polled(c, h, ReplayVotes(c, h, a, VoteListOf(msgs[..k]), all), r, t) == Refilled(Polled(c, h, a, r, t), msgs, k)
  {
    hide ReplayVote, Added;
    if k > 0 {
      ListReadBack(c, h, a, r, t, msgs, all, k - 1);
      assert msgs[..k][..k - 1] == msgs[..k - 1];
      var front := VoteListOf(msgs[..k - 1]);
      if msgs[k - 1].Some? {
        var m := msgs[k - 1].value;
        assert (front + [m])[..|front|] == front;
        assert PlacedAt(c.vals(h), h, r, t, k - 1, m);
        VoteReadBack(c, h, ReplayVotes(c, h, a, front, all), r, t, k - 1, m);
      }
    }
  }

  lemma {:induction false} ReplayCat(c: Node, h: nat, a: Replay, log: Log, xs: seq<Record>, ys: seq<Record>)
    requires Sized(a.votes, |c.vals(h)|)
    ensures ReplayLog(c, h, a, log, xs + ys) == ReplayLog(c, h, ReplayLog(c, h, a, log, xs), log, ys)
  {
    hide ReplayRecord;
    if ys == [] {
      assert xs + ys == xs;
    } else {
      assert (xs + ys)[..|xs + ys| - 1] == xs + ys[..|ys| - 1];
      ReplayCat(c, h, a, log, xs, ys[..|ys| - 1]);
    }
  }

  /** The votes of a round and type after a list has been read back. */
  function ReadBack(c: Node, h: nat, a: Replay, r: nat, t: VoteType, msgs: Ballots, all: bool): Ballots
    requires Sized(a.votes, |c.vals(h)|)
  {
    Polled(c, h, ReplayVotes(c, h, a, VoteListOf(msgs), all), r, t)
  }

  /** A list with +2/3 for d, read back, has +2/3 for d again, or else something else has. */
  lemma ListWins(c: Node, h: nat, a: Replay, r: nat, t: VoteType, msgs: Ballots, all: bool, d: Decision)
    requires Sized(a.votes, |c.vals(h)|) && Placed(c.vals(h), h, r, t, msgs) && Wins(msgs, d)
    ensures Wins(ReadBack(c, h, a, r, t, msgs, all), d) || Beaten(ReadBack(c, h, a, r, t, msgs, all), d)
  {
    hide ReplayVotes, VoteListOf, Refilled;
    assert msgs[..|msgs|] == msgs;
    ListReadBack(c, h, a, r, t, msgs, all, |msgs|);
    RefilledForD(Polled(c, h, a, r, t), msgs, d, |msgs|);
    var held := ReadBack(c, h, a, r, t, msgs, all);
    if !Beaten(held, d) { SubsetCard(Voters(msgs, d), Voters(held, d)); }
  }

  // --- any list on any log ---------------------------------------------------------------------------

  /** Whoever has voted is held with a vote from then on. */
  lemma {:induction false} RefilledPresent(held: Ballots, msgs: Ballots, k: nat)
    requires k <= |msgs| == |held|
    ensures forall i :: 0 <= i < |held| && (held[i].Some? || (i < k && msgs[i].Some?)) ==> Refilled(held, msgs, k)[i].Some?
  {
    hide Accepts;
    if k > 0 {
      RefilledPresent(held, msgs, k - 1);
      if msgs[k - 1].Some? { AddedPresent(Refilled(held, msgs, k - 1), k - 1, msgs[k - 1].value); }
    }
  }

  lemma AddedPresent(msgs: Ballots, i: nat, m: VoteMessage)
    requires i < |msgs|
    ensures Added(msgs, i, m)[i].Some? && forall j :: 0 <= j < |msgs| && msgs[j].Some? ==> Added(msgs, i, m)[j].Some?
  {}

  lemma ListPresent(c: Node, h: nat, a: Replay, r: nat, t: VoteType, msgs: Ballots, all: bool)
    requires Sized(a.votes, |c.vals(h)|) && Placed(c.vals(h), h, r, t, msgs)
    ensures |Present(msgs)| <= |Present(ReadBack(c, h, a, r, t, msgs, all))|
  {
    hide ReplayVotes, VoteListOf, Refilled;
    assert msgs[..|msgs|] == msgs;
    ListReadBack(c, h, a, r, t, msgs, all, |msgs|);
    RefilledPresent(Polled(c, h, a, r, t), msgs, |msgs|);
    SubsetCard(Present(msgs), Present(ReadBack(c, h, a, r, t, msgs, all)));
  }

  /** What reading a list with +2/3 for d leaves: +2/3 for d, or for something else, and a position not before its round and step. */
  ghost predicate Heard(c: Node, h: nat, a: Replay, r: nat, t: VoteType, d: Decision) {
    && Sized(a.votes, |c.vals(h)|) && AtLeast(a, r, StepOf(t))
    && (Wins(Polled(c, h, a, r, t), d) || Beaten(Polled(c, h, a, r, t), d))
  }

  lemma MoreThanVoters(c: Node, h: nat, a: Replay, r: nat, t: VoteType, msgs: Ballots, all: bool, d: Decision)
    requires Sized(a.votes, |c.vals(h)|) && Placed(c.vals(h), h, r, t, msgs) && Wins(msgs, d)
    ensures VoteListOf(msgs) != [] && VoteListOf(msgs)[0].height == h && VoteListOf(msgs)[0].round == r && VoteListOf(msgs)[0].vtype == t
    ensures OverTwoThirds(|Present(ReadBack(c, h, a, r, t, msgs, all))|, |c.vals(h)|)
  {
    hide ReplayVotes, VoteListOf;
    SubsetCard(Voters(msgs, d), Present(msgs));
    ListPresent(c, h, a, r, t, msgs, all);
    assert Present(msgs) != {};
    assert Some(VoteListOf(msgs)[0]) in msgs;
    var i :| 0 <= i < |msgs| && msgs[i] == Some(VoteListOf(msgs)[0]);
    assert PlacedAt(c.vals(h), h, r, t, i, msgs[i].value);
  }

  lemma ListHeard(c: Node, h: nat, a: Replay, log: Log, r: nat, t: VoteType, msgs: Ballots, d: Decision)
    requires Sized(a.votes, |c.vals(h)|) && Placed(c.vals(h), h, r, t, msgs) && Wins(msgs, d)
    ensures Heard(c, h, ReplayRecord(c, h, a, log, VoteList(VoteListOf(msgs))), r, t, d)
  {
    hide ReplayVotes, VoteListOf, Wins, Beaten, Winner;
    var all := log == CommitLog;
    ListWins(c, h, a, r, t, msgs, all, d);
    MoreThanVoters(c, h, a, r, t, msgs, all, d);
  }

  lemma VoteStays(c: Node, h: nat, a: Replay, m: VoteMessage, r: nat, t: VoteType, d: Decision)
    requires Heard(c, h, a, r, t, d)
    ensures Heard(c, h, ReplayVote(c, h, a, m), r, t, d)
  {
    hide Wins, Beaten, Accepts;
    if m.Signer().Some? && m.Signer().value in c.vals(h) && (m.round, m.vtype) == (r, t) {
      var b, i := Polled(c, h, a, r, t), IndexOf(c.vals(h), m.Signer().value).value;
      AddedForD(b, i, m, d);
      if Wins(b, d) { WinnerStable(b, d, i, m); }
    }
  }

  lemma {:induction false} VotesStay(c: Node, h: nat, a: Replay, ms: seq<VoteMessage>, all: bool, r: nat, t: VoteType, d: Decision)
    requires Heard(c, h, a, r, t, d)
    ensures Heard(c, h, ReplayVotes(c, h, a, ms, all), r, t, d)
  {
    if ms != [] {
      hide Heard, ReplayVote;
      assert Sized(a.votes, |c.vals(h)|) by { HeardSized(c, h, a, r, t, d); }
      VotesStay(c, h, a, ms[..|ms| - 1], all, r, t, d);
      VoteStays(c, h, ReplayVotes(c, h, a, ms[..|ms| - 1], all), ms[|ms| - 1], r, t, d);
    }
  }

  lemma HeardSized(c: Node, h: nat, a: Replay, r: nat, t: VoteType, d: Decision)
    requires Heard(c, h, a, r, t, d)
    ensures Sized(a.votes, |c.vals(h)|) && AtLeast(a, r, StepOf(t))
  {}

  lemma SameHeard(c: Node, h: nat, a: Replay, b: Replay, r: nat, t: VoteType, d: Decision)
    requires Heard(c, h, a, r, t, d) && a.votes == b.votes && AtLeast(b, r, StepOf(t))
    ensures Heard(c, h, b, r, t, d)
  {}

  lemma RecordStays(c: Node, h: nat, a: Replay, log: Log, rec: Record, r: nat, t: VoteType, d: Decision)
    requires Sized(a.votes, |c.vals(h)|) && Heard(c, h, a, r, t, d)
    ensures Heard(c, h, ReplayRecord(c, h, a, log, rec), r, t, d)
  {
    hide Heard, ReplayVote, ReplayVotes, Winner;
    HeardSized(c, h, a, r, t, d);
    RecordAdvances(c, h, a, log, rec);
    var b := ReplayRecord(c, h, a, log, rec);
    if rec.OneVote? { VoteStays(c, h, a, rec.vote, r, t, d); }
    if rec.VoteList? { VotesStay(c, h, a, rec.votes, log.CommitLog?, r, t, d); }
    var x := if b.votes == a.votes then a
             else if rec.OneVote? then ReplayVote(c, h, a, rec.vote) else ReplayVotes(c, h, a, rec.votes, log.CommitLog?);
    SameHeard(c, h, x, b, r, t, d);
  }

  lemma {:induction false} LogStays(c: Node, h: nat, a: Replay, log: Log, recs: seq<Record>, r: nat, t: VoteType, d: Decision)
    requires Sized(a.votes, |c.vals(h)|) && Heard(c, h, a, r, t, d)
    ensures Heard(c, h, ReplayLog(c, h, a, log, recs), r, t, d)
  {
    if recs != [] {
      hide Heard, ReplayRecord;
      LogStays(c, h, a, log, recs[..|recs| - 1], r, t, d);
      RecordStays(c, h, ReplayLog(c, h, a, log, recs[..|recs| - 1]), log, recs[|recs| - 1], r, t, d);
    }
  }

  lemma {:induction false} LogHeard(c: Node, h: nat, a: Replay, log: Log, recs: seq<Record>, r: nat, t: VoteType, msgs: Ballots, d: Decision)
    requires Sized(a.votes, |c.vals(h)|) && Placed(c.vals(h), h, r, t, msgs) && Wins(msgs, d) && VoteList(VoteListOf(msgs)) in recs
    ensures Heard(c, h, ReplayLog(c, h, a, log, recs), r, t, d)
  {
    hide Heard, ReplayRecord, Placed, Wins, VoteListOf;
    var front, rec := recs[..|recs| - 1], recs[|recs| - 1];
    var b := ReplayLog(c, h, a, log, front);
    if rec == VoteList(VoteListOf(msgs)) {
      ListHeard(c, h, b, log, r, t, msgs, d);
    } else {
      LogHeard(c, h, a, log, front, r, t, msgs, d);
      RecordStays(c, h, b, log, rec, r, t, d);
    }
  }

  /** What is on the three logs that a restart reads. */
  ghost predicate OnLog(s: State, e: Event, rec: Record)
    requires e.Restart? && e.kept <= |s.roundWAL|
  {
    rec in s.roundWAL[..e.kept] || rec in e.lockWAL || rec in e.commitWAL
  }

  /** A list of votes on any of the logs is read back: with +2/3 for d in it, the restarted node has +2/3 for d in that
      round again, unless it has +2/3 for something else there, and it resumes at or after that round and step. */
  lemma {:induction false} ListSurvives(c: Node, s: State, e: Event, r: nat, t: VoteType, msgs: Ballots, d: Decision)
    requires e.Restart? && Enabled(c, s, e) && OnLog(s, e, VoteList(VoteListOf(msgs)))
    requires Placed(c.vals(e.h), e.h, r, t, msgs) && Wins(msgs, d)
    ensures var s' := Next(c, s, e);
      && (Polka(c, s', r, t) == Some(d.PartSet()) || Beaten(Tally(c, s', r, t), d))
      && !Before(s'.round, s'.step, r, StepOf(t))
  {
    hide ReplayLog, Placed, VoteListOf, Heard;
    var h, rw, list := e.h, s.roundWAL[..e.kept], VoteList(VoteListOf(msgs));
    var x := ReplayLog(c, h, EMPTY, RoundLog, rw);
    var y := ReplayLog(c, h, x, LockLog, e.lockWAL);
    if list in rw { LogHeard(c, h, EMPTY, RoundLog, rw, r, t, msgs, d); }
    if list in e.lockWAL { LogHeard(c, h, x, LockLog, e.lockWAL, r, t, msgs, d); }
    else if list in rw { LogStays(c, h, x, LockLog, e.lockWAL, r, t, d); }
    if list in e.commitWAL { LogHeard(c, h, y, CommitLog, e.commitWAL, r, t, msgs, d); }
    else { LogStays(c, h, y, CommitLog, e.commitWAL, r, t, d); }
    HeardPolka(c, s, e, r, t, d);
  }

  lemma HeardPolka(c: Node, s: State, e: Event, r: nat, t: VoteType, d: Decision)
    requires e.Restart? && Enabled(c, s, e) && Heard(c, e.h, ReplayAll(c, e.h, s.roundWAL[..e.kept], e.lockWAL, e.commitWAL), r, t, d)
    ensures var s' := Next(c, s, e);
      && (Polka(c, s', r, t) == Some(d.PartSet()) || Beaten(Tally(c, s', r, t), d))
      && !Before(s'.round, s'.step, r, StepOf(t))
  {
    hide ReplayAll;
    var s' := Next(c, s, e);
    if Wins(Tally(c, s', r, t), d) { WinnerIs(Tally(c, s', r, t), d); }
  }

  // --- where a restart resumes -------------------------------------------------------------------------

  /** The record is of this round and step: an own proposal or vote, or a list of votes. */
  predicate PlaceOf(c: Node, h: nat, rec: Record, r: nat, st: nat) {
    match rec
    case OwnProposal(p) => p.height == h && p.signer == c.me && r == p.round && st == PROPOSE
    case OneVote(m) => m.height == h && m.Signer() == Some(c.me) && r == m.round && st == StepOf(m.vtype)
    case VoteList(ms) => ms != [] && ms[0].height == h && r == ms[0].round && st == StepOf(ms[0].vtype)
    case BlockPart(_, _, _) => false
  }

  lemma {:induction false} LogPlaces(c: Node, h: nat, a: Replay, log: Log, recs: seq<Record>)
    requires Sized(a.votes, |c.vals(h)|)
    ensures var b := ReplayLog(c, h, a, log, recs);
      (b.round, b.step) == (a.round, a.step) || exists rec :: rec in recs && PlaceOf(c, h, rec, b.round, b.step)
  {
    if recs != [] {
      var front, rec := recs[..|recs| - 1], recs[|recs| - 1];
      LogPlaces(c, h, a, log, front);
      RecordPlaces(c, h, ReplayLog(c, h, a, log, front), log, rec);
      assert rec in recs;
    }
  }

  lemma RecordPlaces(c: Node, h: nat, a: Replay, log: Log, rec: Record)
    requires Sized(a.votes, |c.vals(h)|)
    ensures var b := ReplayRecord(c, h, a, log, rec); (b.round, b.step) == (a.round, a.step) || PlaceOf(c, h, rec, b.round, b.step)
  {
    hide ReplayVotes, ReplayVote, Winner;
    if rec.OneVote? { VoteStaysPut(c, h, a, rec.vote); }
  }

  lemma VoteStaysPut(c: Node, h: nat, a: Replay, m: VoteMessage)
    requires Sized(a.votes, |c.vals(h)|)
    ensures ReplayVote(c, h, a, m).round == a.round && ReplayVote(c, h, a, m).step == a.step
  {}

  /** A restart never resumes beyond its logs: at the round and step of one of their records, or at the very beginning. */
  lemma {:induction false} RestartPlace(c: Node, s: State, e: Event)
    requires e.Restart? && Enabled(c, s, e)
    ensures var s' := Next(c, s, e);
      (s'.round, s'.step) == (0, NEW_HEIGHT) || exists rec :: OnLog(s, e, rec) && PlaceOf(c, e.h, rec, s'.round, s'.step)
  {
    hide ReplayLog, PlaceOf;
    var h, rw := e.h, s.roundWAL[..e.kept];
    var x := ReplayLog(c, h, EMPTY, RoundLog, rw);
    LogPlaces(c, h, EMPTY, RoundLog, rw);
    LogPlaces(c, h, x, LockLog, e.lockWAL);
    LogPlaces(c, h, ReplayLog(c, h, x, LockLog, e.lockWAL), CommitLog, e.commitWAL);
  }

  // --- votes of other heights ---------------------------------------------------------------------------

  ghost predicate HasVote(c: Node, h: nat, a: Replay, m: VoteMessage) {
    && m.Signer().Some? && m.Signer().value in c.vals(h)
    && var i, b := IndexOf(c.vals(h), m.Signer().value).value, Polled(c, h, a, m.round, m.vtype); i < |b| && b[i].Some?
  }

  /** Every vote of a validator that is read is held, or another one of the same validator, round and type. */
  lemma {:induction false} ReadIsHeld(c: Node, h: nat, a: Replay, ms: seq<VoteMessage>, all: bool, m: VoteMessage)
    requires Sized(a.votes, |c.vals(h)|) && m.Signer().Some? && m.Signer().value in c.vals(h)
    requires HasVote(c, h, a, m) || (m in ms && (all || m.height == h))
    ensures HasVote(c, h, ReplayVotes(c, h, a, ms, all), m)
  {
    if ms != [] {
      hide Accepts;
      var front, x := ms[..|ms| - 1], ms[|ms| - 1];
      var b := ReplayVotes(c, h, a, front, all);
      if HasVote(c, h, a, m) || m in front { ReadIsHeld(c, h, a, front, all, m); }
      if x.Signer().Some? && x.Signer().value in c.vals(h) {
        AddedPresent(Polled(c, h, b, x.round, x.vtype), IndexOf(c.vals(h), x.Signer().value).value, x);
      }
    }
  }

  /** A list of the commit log is read with its votes of other heights, if its first one is of this height, */
  lemma CommitReadsAll(c: Node, h: nat, a: Replay, ms: seq<VoteMessage>, m: VoteMessage)
    requires Sized(a.votes, |c.vals(h)|) && ms != [] && ms[0].height == h && m in ms && m.Signer().Some? && m.Signer().value in c.vals(h)
    ensures HasVote(c, h, ReplayRecord(c, h, a, CommitLog, VoteList(ms)), m)
  {
    hide ReplayVotes;
    ReadIsHeld(c, h, a, ms, true, m);
  }

  /** and the other logs without them. */
  lemma {:induction false} OthersIgnored(c: Node, h: nat, a: Replay, ms: seq<VoteMessage>)
    requires Sized(a.votes, |c.vals(h)|) && forall m :: m in ms ==> m.height != h
    ensures ReplayVotes(c, h, a, ms, false) == a && forall log :: ReplayRecord(c, h, a, log, VoteList(ms)) == a
  {
    if ms != [] {
      OthersIgnored(c, h, a, ms[..|ms| - 1]);
      assert ms[0] in ms;
    }
  }
}
