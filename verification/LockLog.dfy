/** The lock log: what entering the precommit step writes there is what a restart locks again. */
module LockLogs {
  import opened Votes
  import opened Quorum
  import opened VoteSets
  import opened Node
  import opened NodeSafety
  import opened Logs

  /** +2/3 are for this part set, if for anything. */
  ghost predicate NoRival(msgs: Ballots, id: PartSetID) { forall d :: Wins(msgs, d) ==> d.PartSet() == Some(id) }

  /** The list of a lock's prevotes opens the part set it was for, unless +2/3 are for something else by then. */
  lemma {:induction false} ListOpens(c: Node, h: nat, a: Replay, r: nat, msgs: Ballots, d: Decision, id: PartSetID)
    requires Sized(a.votes, |c.vals(h)|) && Placed(c.vals(h), h, r, Prevote, msgs) && Wins(msgs, d)
    requires NoRival(ReadBack(c, h, a, r, Prevote, msgs, false), id)
    ensures ReplayLock(c, h, a, VoteList(VoteListOf(msgs))).filling == Some((id, r, {}))
  {
    hide ReplayVotes, VoteListOf;
    ListWins(c, h, a, r, Prevote, msgs, false, d);
    SubsetCard(Voters(msgs, d), Present(msgs));
    assert Present(msgs) != {};
    assert Some(VoteListOf(msgs)[0]) in msgs;
  }

  /** One more part of the set being filled. */
  lemma PartFills(c: Node, h: nat, a: Replay, r: nat, id: PartSetID, k: nat)
    requires Sized(a.votes, |c.vals(h)|) && a.filling == Some((id, r, Indices(k))) && k < id.count
    ensures var b := ReplayLock(c, h, a, BlockPart(h, id, k));
      b.filling == Some((id, r, Indices(k + 1))) && (k + 1 == id.count ==> b.lock == Some((id, r)))
  {}

  /** The parts fill it, and the last one locks. */
  lemma {:induction false} PartsFill(c: Node, h: nat, a: Replay, r: nat, id: PartSetID, n: nat)
    requires Sized(a.votes, |c.vals(h)|) && a.filling == Some((id, r, {})) && n <= id.count
    ensures var b := ReplayLog(c, h, a, LockLog, PartRecords(h, id, n));
      b.filling == Some((id, r, Indices(n))) && (n == id.count && n > 0 ==> b.lock == Some((id, r)))
  {
    if n > 0 {
      hide ReplayLock, Indices;
      PartsFill(c, h, a, r, id, n - 1);
      var recs := PartRecords(h, id, n);
      assert recs[..n - 1] == PartRecords(h, id, n - 1);
      PartFills(c, h, ReplayLog(c, h, a, LockLog, recs[..n - 1]), r, id, n - 1);
    }
  }

  lemma {:induction false} CommitKeepsLock(c: Node, h: nat, a: Replay, recs: seq<Record>)
    requires Sized(a.votes, |c.vals(h)|)
    ensures ReplayLog(c, h, a, CommitLog, recs).lock == a.lock
  {
    if recs != [] { CommitKeepsLock(c, h, a, recs[..|recs| - 1]); }
  }

  /** A lock that was written survives a crash: when its records are the last of the lock log, a restart locks the
      same block in the same round, unless prevotes on record have +2/3 for something else in that round. */
  lemma {:induction false} LockSurvives(c: Node, s: State, e: Event, lw: seq<Record>, r: nat, msgs: Ballots, d: Decision, id: PartSetID)
    requires e.Restart? && Enabled(c, s, e) && e.lockWAL == lw + LockRecords(e.h, msgs, id)
    requires Placed(c.vals(e.h), e.h, r, Prevote, msgs) && Wins(msgs, d) && id.count > 0
    requires var a := ReplayLog(c, e.h, ReplayLog(c, e.h, EMPTY, RoundLog, s.roundWAL[..e.kept]), LockLog, lw);
      NoRival(ReadBack(c, e.h, a, r, Prevote, msgs, false), id)
    ensures Next(c, s, e).locked == Some(id) && Next(c, s, e).lockedRound == r
  {
    hide ReplayLock, VoteListOf, Wins, Placed, NoRival;
    var h, rw := e.h, s.roundWAL[..e.kept];
    var x := ReplayLog(c, h, EMPTY, RoundLog, rw);
    var a := ReplayLog(c, h, x, LockLog, lw);
    ReplayCat(c, h, x, LockLog, lw, LockRecords(h, msgs, id));
    var list := [VoteList(VoteListOf(msgs))];
    ReplayCat(c, h, a, LockLog, list, PartRecords(h, id, id.count));
    ListOpens(c, h, a, r, msgs, d, id);
    var b := ReplayLock(c, h, a, list[0]);
    assert list[..0] == [];
    assert ReplayLog(c, h, a, LockLog, list) == b;
    PartsFill(c, h, b, r, id, id.count);
    CommitKeepsLock(c, h, ReplayLog(c, h, x, LockLog, e.lockWAL), e.commitWAL);
  }

  /** Parts collected are on the log, and a lock rebuilt has all of its parts there. */
  ghost predicate FromLog(h: nat, a: Replay, recs: seq<Record>) {
    && (a.filling.Some? ==> forall k :: k in a.filling.value.2 ==> k < a.filling.value.0.count && BlockPart(h, a.filling.value.0, k) in recs)
    && (a.lock.Some? ==> forall k: nat :: k < a.lock.value.0.count ==> BlockPart(h, a.lock.value.0, k) in recs)
  }

  lemma AllParts(parts: set<nat>, n: nat)
    requires |parts| == n && forall k :: k in parts ==> k < n
    ensures forall k: nat :: k < n ==> k in parts
  {
    forall k: nat | k < n ensures k in parts {
      if k !in parts { SubsetCard(parts, Indices(n) - {k}); }
    }
  }

  lemma RecordFromLog(c: Node, h: nat, a: Replay, rec: Record, recs: seq<Record>)
    requires Sized(a.votes, |c.vals(h)|) && FromLog(h, a, recs)
    ensures FromLog(h, ReplayLock(c, h, a, rec), recs + [rec])
  {
    hide ReplayVotes, Winner;
    var b := ReplayLock(c, h, a, rec);
    if rec.BlockPart? && b.filling != a.filling && b.lock != a.lock { AllParts(b.filling.value.2, b.filling.value.0.count); }
  }

  /** A lock is rebuilt only from a log that has every part of its block. */
  lemma {:induction false} LockNeedsParts(c: Node, h: nat, a: Replay, recs: seq<Record>)
    requires Sized(a.votes, |c.vals(h)|) && a.filling.None? && a.lock.None?
    ensures FromLog(h, ReplayLog(c, h, a, LockLog, recs), recs)
  {
    if recs != [] {
      hide FromLog, ReplayLock;
      var front, rec := recs[..|recs| - 1], recs[|recs| - 1];
      LockNeedsParts(c, h, a, front);
      RecordFromLog(c, h, ReplayLog(c, h, a, LockLog, front), rec, front);
      assert front + [rec] == recs;
    } else {
      assert FromLog(h, a, recs);
    }
  }
}
