/** The incrementally counted vote set (consensus/voteset.go) against a recount of its votes. */
module VoteSets {
  import opened Votes
  import opened Quorum

  type Ballots = seq<Option<VoteMessage>>

  // --- recount ---------------------------------------------------------------------------------

  function Voters(msgs: Ballots, d: Decision): set<nat> {
    set i: nat | i < |msgs| && msgs[i].Some? && msgs[i].value.decision == d
  }

  function Present(msgs: Ballots): set<nat> {
    set i: nat | i < |msgs| && msgs[i].Some?
  }

  /** d has +2/3 of all validators, whether or not they have voted yet. */
  predicate Wins(msgs: Ballots, d: Decision) {
    OverTwoThirds(|Voters(msgs, d)|, |msgs|)
  }

  ghost predicate HasWinner(msgs: Ballots) { exists d :: Wins(msgs, d) }

  /** At most one decision can hold +2/3. */
  lemma WinnerUnique(msgs: Ballots, d: Decision, e: Decision)
    requires Wins(msgs, d) && Wins(msgs, e)
    ensures d == e
  {
    assert d != e ==> Voters(msgs, d) * Voters(msgs, e) == {};
    QuorumsOverlap(Voters(msgs, d), Voters(msgs, e), |msgs|);
  }

  /** The decision with +2/3 among those voted for by the first k validators. */
  function WinnerUpTo(msgs: Ballots, k: nat): (r: Option<Decision>)
    requires k <= |msgs|
    ensures r.Some? ==> Wins(msgs, r.value)
    ensures r.None? ==> forall i :: 0 <= i < k && msgs[i].Some? ==> !Wins(msgs, msgs[i].value.decision)
  {
    if k == 0 then None
    else if msgs[k - 1].Some? && Wins(msgs, msgs[k - 1].value.decision) then Some(msgs[k - 1].value.decision)
    else WinnerUpTo(msgs, k - 1)
  }

  /** The decision with +2/3, if there is one. */
  function Winner(msgs: Ballots): (r: Option<Decision>)
    ensures r.Some? ==> Wins(msgs, r.value)
    ensures r.None? ==> !HasWinner(msgs)
  {
    WinnerHasVoter(msgs);
    WinnerUpTo(msgs, |msgs|)
  }

  lemma WinnerHasVoter(msgs: Ballots)
    ensures forall d | Wins(msgs, d) :: exists i :: 0 <= i < |msgs| && msgs[i].Some? && msgs[i].value.decision == d
  {
    forall d | Wins(msgs, d) ensures exists i :: 0 <= i < |msgs| && msgs[i].Some? && msgs[i].value.decision == d {
      var i :| i in Voters(msgs, d);
    }
  }

  lemma WinnerIs(msgs: Ballots, d: Decision)
    requires Wins(msgs, d)
    ensures Winner(msgs) == Some(d)
  {
    WinnerUnique(msgs, d, Winner(msgs).value);
  }

  // --- what add does ---------------------------------------------------------------------------

  /** Whether a vote for validator i is accepted: not a repetition of the vote held, and not a
      replacement of a vote of the decision that has already won. */
  predicate Accepts(msgs: Ballots, i: nat, v: VoteMessage)
    requires i < |msgs|
  {
    msgs[i].Some? ==>
      && !msgs[i].value.EqualExceptSigs(v)
      && Winner(msgs) != Some(msgs[i].value.decision)
  }

  function Added(msgs: Ballots, i: nat, v: VoteMessage): (r: Ballots)
    requires i < |msgs|
    ensures |r| == |msgs|
  {
    if Accepts(msgs, i, v) then msgs[i := Some(v)] else msgs
  }

  /** A vote is accepted unless it repeats the one held, or the one held is for a decision with +2/3. */
  lemma AcceptsIff(msgs: Ballots, i: nat, v: VoteMessage)
    requires i < |msgs|
    ensures Accepts(msgs, i, v) <==> msgs[i].None? || var o := msgs[i].value;
      o.(signature := v.signature, proofParts := v.proofParts) != v && 3 * |Voters(msgs, o.decision)| <= 2 * |msgs|
  {
    if msgs[i].Some? && Wins(msgs, msgs[i].value.decision) { WinnerIs(msgs, msgs[i].value.decision); }
  }

  /** A vote is refused when it comes again, whatever came of it the first time. */
  lemma AddedOnce(msgs: Ballots, i: nat, v: VoteMessage, w: VoteMessage)
    requires i < |msgs| && w == v.(signature := w.signature, proofParts := w.proofParts)
    ensures !Accepts(Added(msgs, i, v), i, w)
  {
    if !Accepts(msgs, i, v) { assert Added(msgs, i, v) == msgs; }
  }

  /** Votes added one after the other. */
  ghost function AddedAll(msgs: Ballots, vs: seq<(nat, VoteMessage)>): (r: Ballots)
    requires forall k :: 0 <= k < |vs| ==> vs[k].0 < |msgs|
    ensures |r| == |msgs|
  {
    if vs == [] then msgs
    else Added(AddedAll(msgs, vs[..|vs| - 1]), vs[|vs| - 1].0, vs[|vs| - 1].1)
  }

  /** No single add takes a voter away from a decision that has won. */
  lemma WinnerStable(msgs: Ballots, d: Decision, i: nat, v: VoteMessage)
    requires i < |msgs| && Wins(msgs, d)
    ensures Voters(msgs, d) <= Voters(Added(msgs, i, v), d)
    ensures Wins(Added(msgs, i, v), d)
    ensures Winner(Added(msgs, i, v)) == Winner(msgs) == Some(d)
  {
    WinnerIs(msgs, d);
    SubsetCard(Voters(msgs, d), Voters(Added(msgs, i, v), d));
    WinnerIs(Added(msgs, i, v), d);
  }

  /** Quorum stability over every sequence of adds. */
  lemma {:induction false} WinnerStableAll(msgs: Ballots, d: Decision, vs: seq<(nat, VoteMessage)>)
    requires forall k :: 0 <= k < |vs| ==> vs[k].0 < |msgs|
    requires Wins(msgs, d)
    ensures Voters(msgs, d) <= Voters(AddedAll(msgs, vs), d)
    ensures Winner(AddedAll(msgs, vs)) == Some(d)
  {
    if vs == [] {
      WinnerIs(msgs, d);
    } else {
      var front := vs[..|vs| - 1];
      WinnerStableAll(msgs, d, front);
      WinnerStable(AddedAll(msgs, front), d, vs[|vs| - 1].0, vs[|vs| - 1].1);
    }
  }

  // --- the class -------------------------------------------------------------------------------

  datatype Counter = Counter(decision: Decision, parts: Option<TaggedID>, count: nat)

  ghost predicate CountersAgree(cs: seq<Counter>, msgs: Ballots) {
    && (forall a, b :: 0 <= a < b < |cs| ==> cs[a].decision != cs[b].decision)
    && (forall a :: 0 <= a < |cs| ==>
          && cs[a].parts == cs[a].decision.parts
          && cs[a].count == |Voters(msgs, cs[a].decision)|
          && cs[a].count > 0)
    && (forall i :: 0 <= i < |msgs| && msgs[i].Some? ==> Listed(cs, msgs[i].value.decision))
  }

  ghost predicate Listed(cs: seq<Counter>, d: Decision) {
    exists a :: 0 <= a < |cs| && cs[a].decision == d
  }

  ghost predicate IsMax(cs: seq<Counter>, m: int) {
    0 <= m < |cs| && forall a :: 0 <= a < |cs| ==> cs[a].count <= cs[m].count
  }

  /** Counters without validator i's vote: its counter goes down and disappears at zero. */
  function Dropped(cs: seq<Counter>, k: nat): (r: seq<Counter>)
    requires k < |cs| && cs[k].count > 0
  {
    if cs[k].count == 1 then cs[k := cs[|cs| - 1]][..|cs| - 1]
    else cs[k := cs[k].(count := cs[k].count - 1)]
  }

  lemma DroppedAgrees(cs: seq<Counter>, msgs: Ballots, i: nat, k: nat)
    requires CountersAgree(cs, msgs)
    requires i < |msgs| && msgs[i].Some?
    requires k < |cs| && cs[k].decision == msgs[i].value.decision
    ensures CountersAgree(Dropped(cs, k), msgs[i := None])
  {
    var msgs', cs' := msgs[i := None], Dropped(cs, k);
    forall e { VotersWithout(msgs, i, e); }
    forall j | 0 <= j < |msgs'| && msgs'[j].Some?
      ensures Listed(cs', msgs'[j].value.decision)
    {
      DroppedLists(cs, msgs, i, k, j);
    }
  }

  /** Whoever else has voted keeps a counter. */
  lemma DroppedLists(cs: seq<Counter>, msgs: Ballots, i: nat, k: nat, j: nat)
    requires CountersAgree(cs, msgs)
    requires i < |msgs| && msgs[i].Some?
    requires k < |cs| && cs[k].decision == msgs[i].value.decision
    requires j < |msgs| && j != i && msgs[j].Some?
    ensures Listed(Dropped(cs, k), msgs[j].value.decision)
  {
    var cs', e := Dropped(cs, k), msgs[j].value.decision;
    assert Listed(cs, e);
    var a :| 0 <= a < |cs| && cs[a].decision == e;
    if a == k { SubsetCard({i, j}, Voters(msgs, e)); }
    assert cs'[if a == |cs| - 1 && cs[k].count == 1 then k else a].decision == e;
  }

  lemma VotersWithout(msgs: Ballots, i: nat, d: Decision)
    requires i < |msgs|
    ensures Voters(msgs[i := None], d) == Voters(msgs, d) - {i}
  {}

  lemma VotersWith(msgs: Ballots, i: nat, v: VoteMessage, d: Decision)
    requires i < |msgs| && msgs[i].None?
    ensures Voters(msgs[i := Some(v)], d) == if v.decision == d then Voters(msgs, d) + {i} else Voters(msgs, d)
  {}

  /** Counters with one more vote: an existing counter goes up, or a new one is appended. */
  function Raised(cs: seq<Counter>, k: nat, v: VoteMessage): (r: seq<Counter>)
    requires k <= |cs|
  {
    if k < |cs| then cs[k := cs[k].(count := cs[k].count + 1)]
    else cs + [Counter(v.decision, v.decision.parts, 1)]
  }

  lemma RaisedAgrees(cs: seq<Counter>, msgs: Ballots, i: nat, v: VoteMessage, k: nat)
    requires CountersAgree(cs, msgs)
    requires i < |msgs| && msgs[i].None?
    requires k <= |cs|
    requires k < |cs| ==> cs[k].decision == v.decision
    requires k == |cs| ==> forall a :: 0 <= a < |cs| ==> cs[a].decision != v.decision
    ensures CountersAgree(Raised(cs, k, v), msgs[i := Some(v)])
  {
    var msgs', cs' := msgs[i := Some(v)], Raised(cs, k, v);
    forall e { VotersWith(msgs, i, v, e); }
    if k == |cs| {
      forall j | 0 <= j < |msgs| && msgs[j].Some? ensures msgs[j].value.decision != v.decision {
        assert Listed(cs, msgs[j].value.decision);
      }
      assert Voters(msgs, v.decision) == {};
    }
    forall j | 0 <= j < |msgs'| && msgs'[j].Some?
      ensures Listed(cs', msgs'[j].value.decision)
    {
      if j == i {
        assert cs'[k].decision == v.decision;
      } else {
        assert Listed(cs, msgs[j].value.decision);
        var a :| 0 <= a < |cs| && cs[a].decision == msgs[j].value.decision;
        assert cs'[a].decision == msgs[j].value.decision;
      }
    }
  }

  /** The largest counter decides whether there is a winner, and which. */
  lemma MaxDecides(cs: seq<Counter>, msgs: Ballots, m: int)
    requires CountersAgree(cs, msgs)
    requires cs != [] ==> IsMax(cs, m)
    ensures cs != [] && OverTwoThirds(cs[m].count, |msgs|) ==> Winner(msgs) == Some(cs[m].decision)
    ensures (cs == [] || !OverTwoThirds(cs[m].count, |msgs|)) ==> Winner(msgs) == None
  {
    if cs != [] && OverTwoThirds(cs[m].count, |msgs|) {
      WinnerIs(msgs, cs[m].decision);
    } else {
      forall d ensures !Wins(msgs, d) {
        if Voters(msgs, d) != {} {
          var i :| i in Voters(msgs, d);
          assert Listed(cs, msgs[i].value.decision);
        }
      }
    }
  }

  class VoteSet {
    const msgs: array<Option<VoteMessage>>
    var maxIndex: int
    var mask: seq<bool>
    var round: int
    var counters: seq<Counter>
    var count: nat

    ghost predicate Valid()
      reads this, msgs
    {
      && CountersAgree(counters, msgs[..])
      && count == |Present(msgs[..])|
      && |mask| == msgs.Length
      && (forall i :: 0 <= i < msgs.Length ==> mask[i] == msgs[i].Some?)
      && (maxIndex < 0 || IsMax(counters, maxIndex))
    }

    constructor (nValidators: nat)
      ensures Valid() && fresh(msgs)
      ensures msgs.Length == nValidators && forall i :: 0 <= i < nValidators ==> msgs[i] == None
      ensures round == -1
    {
      msgs := new Option<VoteMessage>[nValidators](_ => None);
      maxIndex := -1;
      mask := seq(nValidators, _ => false);
      round := -1;
      counters := [];
      count := 0;
      new;
      assert Present(msgs[..]) == {};
    }

    /** The position of the counter of d, or the number of counters. */
    method Find(d: Decision) returns (k: nat)
      ensures k <= |counters|
      ensures k < |counters| ==> counters[k].decision == d
      ensures k == |counters| ==> forall a :: 0 <= a < |counters| ==> counters[a].decision != d
    {
      k := 0;
      while k < |counters|
        invariant k <= |counters|
        invariant forall a :: 0 <= a < k ==> counters[a].decision != d
      {
        if counters[k].decision == d { return; }
        k := k + 1;
      }
    }

    /** The +2/3 query: answers exactly the recount's winner, and only refreshes the cache. */
    method OverTwoThirdsDecision() returns (r: Option<Decision>, id: Option<PartSetID>)
      requires Valid()
      modifies this`maxIndex
      ensures Valid()
      ensures r == Winner(msgs[..])
      ensures id == if r.Some? then r.value.PartSet() else None
    {
      var max := 0;
      if maxIndex < 0 {
        for i := 0 to |counters|
          invariant maxIndex < 0 ==> i == 0 && max == 0
          invariant maxIndex >= 0 ==> maxIndex < i && counters[maxIndex].count == max
          invariant forall a :: 0 <= a < i ==> counters[a].count <= max
        {
          if counters[i].count > max {
            maxIndex := i;
            max := counters[i].count;
          }
        }
      } else {
        max := counters[maxIndex].count;
      }
      MaxDecides(counters, msgs[..], maxIndex);
      if max > msgs.Length * 2 / 3 {
        var c := counters[maxIndex];
        return Some(c.decision), if c.parts.Some? then Some(c.parts.value.id) else None;
      }
      return None, None;
    }

    method HasOverTwoThirds() returns (r: bool)
      requires Valid()
      ensures r == OverTwoThirds(|Present(msgs[..])|, msgs.Length)
    {
      r := count > msgs.Length * 2 / 3;
    }

    /** Takes the vote of a validator out of the counts. */
    method Uncount(d: Decision, ghost votes: Ballots, ghost i: nat)
      requires CountersAgree(counters, votes) && count == |Present(votes)|
      requires i < |votes| && votes[i].Some? && votes[i].value.decision == d
      modifies this`counters, this`count
      ensures CountersAgree(counters, votes[i := None]) && count == |Present(votes[i := None])|
    {
      var k := Find(d);
      assert Listed(counters, votes[i].value.decision);
      DroppedAgrees(counters, votes, i, k);
      counters := Dropped(counters, k);
      assert Present(votes[i := None]) == Present(votes) - {i};
      assert i in Present(votes);
      count := count - 1;
    }

    /** Puts the vote of a validator who has none into the counts. */
    method Count(v: VoteMessage, ghost votes: Ballots, ghost i: nat)
      requires CountersAgree(counters, votes) && count == |Present(votes)|
      requires i < |votes| && votes[i].None?
      modifies this`counters, this`count
      ensures CountersAgree(counters, votes[i := Some(v)]) && count == |Present(votes[i := Some(v)])|
    {
      var k := Find(v.decision);
      RaisedAgrees(counters, votes, i, v, k);
      counters := Raised(counters, k, v);
      assert Present(votes[i := Some(v)]) == Present(votes) + {i};
      count := count + 1;
    }

    /** Adds a vote for the validator at `index`; the votes become what `Added` says. */
    method Add(index: nat, v: VoteMessage) returns (added: bool)
      requires Valid() && index < msgs.Length
      modifies this, msgs
      ensures Valid()
      ensures added == Accepts(old(msgs[..]), index, v)
      ensures msgs[..] == Added(old(msgs[..]), index, v)
      ensures round == if added then v.round else old(round)
      ensures !added ==> mask == old(mask)
      ensures added <==> old(msgs[index]).None? || var o := old(msgs[index]).value;
        && o.(signature := v.signature, proofParts := v.proofParts) != v
        && 3 * |Voters(old(msgs[..]), o.decision)| <= 2 * msgs.Length
      ensures forall i :: 0 <= i < msgs.Length ==> msgs[i] == if added && i == index then Some(v) else old(msgs[i])
    {
      hide Winner;
      var omsg := msgs[index];
      ghost var was := msgs[..];
      AcceptsIff(was, index, v);
      if omsg.Some? {
        if omsg.value.EqualExceptSigs(v) { return false; }
        var rdd, _ := OverTwoThirdsDecision();
        if rdd == Some(omsg.value.decision) { return false; }
        Uncount(omsg.value.decision, was, index);
      } else {
        assert was[index := None] == was;
      }
      Count(v, was[index := None], index);
      msgs[index] := Some(v);
      assert msgs[..] == was[index := None][index := Some(v)] == was[index := Some(v)];
      maxIndex := -1;
      mask := mask[index := true];
      round := v.round;
      return true;
    }

    /** Late precommits join a committed vote set only in its round and for its decision. */
    method CheckAndAdd(index: nat, v: VoteMessage) returns (added: bool)
      requires Valid() && index < msgs.Length
      modifies this, msgs
      ensures Valid()
      ensures added <==> Winner(old(msgs[..])) == Some(v.decision) && v.round == old(round) && Accepts(old(msgs[..]), index, v)
      ensures msgs[..] == if added then Added(old(msgs[..]), index, v) else old(msgs[..])
      ensures round == old(round)
      ensures Winner(old(msgs[..])).Some? ==>
                && Winner(msgs[..]) == Winner(old(msgs[..]))
                && Voters(old(msgs[..]), Winner(old(msgs[..])).value) <= Voters(msgs[..], Winner(msgs[..]).value)
    {
      var rdd, _ := OverTwoThirdsDecision();
      if rdd.None? || v.round != round || rdd.value != v.decision { return false; }
      WinnerStable(msgs[..], v.decision, index, v);
      added := Add(index, v);
    }
  }
}
