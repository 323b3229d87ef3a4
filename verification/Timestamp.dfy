/** The median timestamp of a certificate (consensus/commitvotelist.go:86-102) and the timestamp
    check of the next block (block/blockv2.go:353-363). */
module Timestamps {
  import opened Votes
  import opened Quorum
  import opened Node
  import opened NodeSafety
  import opened Agreement
  import opened Certificates
  import opened Integers

  predicate Ascending(s: seq<int>) { forall i, j :: 0 <= i < j < |s| ==> s[i] <= s[j] }

  /** Where x goes: after all smaller elements. */
  function Rank(s: seq<int>, x: int): (k: nat)
    requires Ascending(s)
    ensures k <= |s|
    ensures forall i :: 0 <= i < k ==> s[i] < x
    ensures forall i :: k <= i < |s| ==> x <= s[i]
  {
    if s == [] || x <= s[|s| - 1] then if s == [] then 0 else Rank(s[..|s| - 1], x) else |s|
  }

  function Insert(s: seq<int>, x: int): (r: seq<int>)
    requires Ascending(s)
    ensures Ascending(r) && |r| == |s| + 1
  {
    var k := Rank(s, x);
    s[..k] + [x] + s[k..]
  }

  /** The sorted timestamps. */
  function Sorted(s: seq<int>): (r: seq<int>)
    ensures Ascending(r) && |r| == |s|
  {
    if s == [] then [] else Insert(Sorted(s[..|s| - 1]), s[|s| - 1])
  }

  lemma {:induction false} SortedPermutes(s: seq<int>)
    ensures multiset(Sorted(s)) == multiset(s)
  {
    if s != [] {
      var front, x := s[..|s| - 1], s[|s| - 1];
      SortedPermutes(front);
      var t := Sorted(front);
      var k := Rank(t, x);
      assert t == t[..k] + t[k..];
      assert s == front + [x];
    }
  }

  /** Division by two toward zero. */
  function Half(x: int): int { if x >= 0 then x / 2 else -(-x / 2) }

  function Times(items: seq<Item>): seq<int> { seq(|items|, k requires 0 <= k < |items| => items[k].timestamp) }

  function Median(ts: seq<int>): int
    requires Ascending(ts)
  {
    var l := |ts|;
    if l == 0 then 0
    else if l % 2 == 1 then ts[l / 2]
    else Half(Int64(ts[l / 2 - 1] + ts[l / 2]))
  }

  method Timestamp(cert: Certificate) returns (t: int)
    ensures t == Median(Sorted(Times(cert.items))) && IsMedian(Times(cert.items), t)
  {
    hide Sorted, Half, Int64, IsMedian;
    var l := |cert.items|;
    MedianIs(Times(cert.items));
    if l == 0 { return 0; }
    var ts := new int[l];
    for k := 0 to l
      invariant forall j :: 0 <= j < k ==> ts[j] == cert.items[j].timestamp
    {
      ts[k] := cert.items[k].timestamp;
    }
    assert ts[..] == Times(cert.items);
    var s := Sorted(ts[..]);
    if l % 2 == 1 { return s[l / 2]; }
    return Half(Int64(s[l / 2 - 1] + s[l / 2]));
  }

  /** How many elements are below x, and how many above. */
  function Below(s: seq<int>, x: int): nat {
    if s == [] then 0 else Below(s[..|s| - 1], x) + if s[|s| - 1] < x then 1 else 0
  }

  function Above(s: seq<int>, x: int): nat {
    if s == [] then 0 else Above(s[..|s| - 1], x) + if s[|s| - 1] > x then 1 else 0
  }

  /** x is an element of rank k: at most k are below it, and at most the others above. */
  predicate Ranks(ts: seq<int>, x: int, k: int) { x in ts && Below(ts, x) <= k && Above(ts, x) <= |ts| - 1 - k }

  /** The middle element of an odd number; for an even number half the sum of the two middle ones, added in 64 bits and
      halved toward zero. */
  ghost predicate IsMedian(ts: seq<int>, t: int) {
    var l := |ts|;
    if l == 0 then t == 0
    else if l % 2 == 1 then Ranks(ts, t, l / 2)
    else exists x, y :: Ranks(ts, x, l / 2 - 1) && Ranks(ts, y, l / 2) && x <= y && HalfSum(x, y, t)
  }

  /** t is half of x + y, added in 64 bits and halved toward zero. */
  ghost predicate HalfSum(x: int, y: int, t: int) {
    exists s :: -TWO63 <= s < TWO63 && Sums(x, y, s) && if s >= 0 then 0 <= s - 2 * t <= 1 else 0 <= 2 * t - s <= 1
  }

  predicate Sums(x: int, y: int, s: int) { (s - x - y) % 0x1_0000_0000_0000_0000 == 0 }

  /** Within 62 bits nothing wraps. */
  lemma HalfSumExact(x: int, y: int, t: int)
    requires HalfSum(x, y, t) && -TWO63 / 2 <= x < TWO63 / 2 && -TWO63 / 2 <= y < TWO63 / 2
    ensures if x + y >= 0 then 0 <= x + y - 2 * t <= 1 else 0 <= 2 * t - (x + y) <= 1
  {}

  lemma {:induction false} BelowAtMost(s: seq<int>, x: int, k: nat)
    requires k <= |s| && forall i :: k <= i < |s| ==> s[i] >= x
    ensures Below(s, x) <= k
  {
    if s != [] { BelowAtMost(s[..|s| - 1], x, if k == |s| then k - 1 else k); }
  }

  lemma {:induction false} AboveAtMost(s: seq<int>, x: int, k: nat)
    requires k <= |s| && forall i :: 0 <= i < k ==> s[i] <= x
    ensures Above(s, x) <= |s| - k
  {
    if s != [] { AboveAtMost(s[..|s| - 1], x, if k == |s| then k - 1 else k); }
  }

  /** The k-th of the sorted elements has rank k in the list as it was. */
  lemma SortedRanks(ts: seq<int>, k: nat)
    requires k < |ts|
    ensures Ranks(ts, Sorted(ts)[k], k)
  {
    hide Sorted, Below, Above;
    var s := Sorted(ts);
    BelowAtMost(s, s[k], k);
    AboveAtMost(s, s[k], k + 1);
    SortedCounts(ts, s[k]);
    SortedPermutes(ts);
    assert s[k] in multiset(s);
  }

  /** What the code computes is the median. */
  lemma {:induction false} MedianIs(ts: seq<int>)
    ensures IsMedian(ts, Median(Sorted(ts)))
  {
    var l, s := |ts|, Sorted(ts);
    hide Sorted, Ranks;
    if l > 0 {
      SortedRanks(ts, l / 2);
      if l % 2 == 0 {
        SortedRanks(ts, l / 2 - 1);
        HalfSumIs(s[l / 2 - 1], s[l / 2]);
      }
    }
  }

  lemma HalfSumIs(x: int, y: int)
    ensures HalfSum(x, y, Half(Int64(x + y)))
  {
    var s := Int64(x + y);
    assert Sums(x, y, s);
  }

  lemma {:induction false} BelowIsCount(s: seq<int>, x: int, k: nat)
    requires Ascending(s) && k < |s|
    ensures s[k] < x ==> Below(s, x) > k
    ensures s[k] > x ==> Above(s, x) >= |s| - k
  {
    var n := |s| - 1;
    if k < n {
      BelowIsCount(s[..n], x, k);
    } else if n > 0 {
      BelowIsCount(s[..n], x, n - 1);
    }
  }

  lemma {:induction false} CountsSplit(s: seq<int>, t: seq<int>, x: int)
    ensures Below(s + t, x) == Below(s, x) + Below(t, x)
    ensures Above(s + t, x) == Above(s, x) + Above(t, x)
  {
    if t == [] {
      assert s + t == s;
    } else {
      assert (s + t)[..|s + t| - 1] == s + t[..|t| - 1];
      CountsSplit(s, t[..|t| - 1], x);
    }
  }

  lemma InsertCounts(t: seq<int>, y: int, x: int)
    requires Ascending(t)
    ensures Below(Insert(t, y), x) == Below(t, x) + Below([y], x)
    ensures Above(Insert(t, y), x) == Above(t, x) + Above([y], x)
  {
    hide Below, Above, Rank;
    var k := Rank(t, y);
    assert t == t[..k] + t[k..];
    CountsSplit(t[..k], t[k..], x);
    CountsSplit(t[..k], [y], x);
    CountsSplit(t[..k] + [y], t[k..], x);
  }

  /** Sorting does not change the counts. */
  lemma {:induction false} SortedCounts(s: seq<int>, x: int)
    ensures Below(Sorted(s), x) == Below(s, x) && Above(Sorted(s), x) == Above(s, x)
  {
    hide Insert;
    if s != [] {
      SortedCounts(s[..|s| - 1], x);
      InsertCounts(Sorted(s[..|s| - 1]), s[|s| - 1], x);
    }
  }

  lemma HalfBetween(a: int, b: int, lo: int, hi: int)
    requires lo <= a <= b <= hi && -TWO63 / 2 <= lo && hi < TWO63 / 2
    ensures lo <= Half(Int64(a + b)) <= hi
  {
    assert Int64(a + b) == a + b;
  }

  /** With fewer than half of the values outside [lo, hi], the median is inside. */
  lemma MedianBounded(ts: seq<int>, lo: int, hi: int)
    requires ts != [] && lo <= hi
    requires 2 * Below(ts, lo) < |ts| && 2 * Above(ts, hi) < |ts|
    requires -TWO63 / 2 <= lo && hi < TWO63 / 2
    ensures lo <= Median(Sorted(ts)) <= hi
  {
    hide Sorted, Below, Above, Half, Int64;
    var s := Sorted(ts);
    SortedCounts(ts, lo);
    SortedCounts(ts, hi);
    var l := |s|;
    BelowIsCount(s, lo, l / 2);
    BelowIsCount(s, hi, l / 2);
    if l % 2 == 0 {
      BelowIsCount(s, lo, l / 2 - 1);
      BelowIsCount(s, hi, l / 2 - 1);
      HalfBetween(s[l / 2 - 1], s[l / 2], lo, hi);
    }
  }

  // --- honest majority -------------------------------------------------------------------------

  /** Items signed by validators outside the honest set. */
  ghost function FaultyItems(cert: Certificate, h: nat, bid: Hash, vals: seq<Address>, honest: set<Address>, n: nat): set<nat>
    requires n <= |cert.items| && AllSigned(cert, h, bid, vals)
  {
    set k: nat | k < n && vals[SignerAt(cert, h, bid, vals, k).value] !in honest
      :: SignerAt(cert, h, bid, vals, k).value
  }

  ghost predicate HonestWithin(cert: Certificate, h: nat, bid: Hash, vals: seq<Address>, honest: set<Address>, lo: int, hi: int)
    requires AllSigned(cert, h, bid, vals)
  {
    forall k :: 0 <= k < |cert.items| && vals[SignerAt(cert, h, bid, vals, k).value] in honest ==>
      lo <= cert.items[k].timestamp <= hi
  }

  lemma {:induction false} OutliersAreFaulty(cert: Certificate, h: nat, bid: Hash, vals: seq<Address>, honest: set<Address>, lo: int, hi: int, n: nat)
    requires n <= |cert.items| && AllSigned(cert, h, bid, vals) && NoDoubles(cert, h, bid, vals)
    requires HonestWithin(cert, h, bid, vals, honest, lo, hi)
    ensures Below(Times(cert.items)[..n], lo) <= |FaultyItems(cert, h, bid, vals, honest, n)|
    ensures Above(Times(cert.items)[..n], hi) <= |FaultyItems(cert, h, bid, vals, honest, n)|
  {
    if n > 0 {
      OutliersAreFaulty(cert, h, bid, vals, honest, lo, hi, n - 1);
      var ts := Times(cert.items);
      assert ts[..n][..n - 1] == ts[..n - 1];
      var i := SignerAt(cert, h, bid, vals, n - 1).value;
      var before := FaultyItems(cert, h, bid, vals, honest, n - 1);
      assert i !in before;
      assert FaultyItems(cert, h, bid, vals, honest, n) == if vals[i] in honest then before else before + {i};
    }
  }

  /** Timestamp bound: with fewer than a third of the validators faulty, the median of a valid
      certificate lies between the least and the greatest honest timestamp; the sum of the two middle
      values does not overflow even if faulty timestamps are extreme. */
  lemma {:induction false} TimestampBounded(cert: Certificate, h: nat, bid: Hash, vals: seq<Address>, honest: set<Address>, lo: int, hi: int)
    requires Accepted(cert, h, bid, vals) && vals != []
    requires 3 * |set i: nat | i < |vals| && vals[i] !in honest| < |vals|
    requires HonestWithin(cert, h, bid, vals, honest, lo, hi) && lo <= hi
    requires -TWO63 / 2 <= lo && hi < TWO63 / 2
    ensures lo <= Median(Sorted(Times(cert.items))) <= hi
  {
    var n := |cert.items|;
    OutliersAreFaulty(cert, h, bid, vals, honest, lo, hi, n);
    var ts := Times(cert.items);
    assert ts[..n] == ts;
    SubsetCard(FaultyItems(cert, h, bid, vals, honest, n), set i: nat | i < |vals| && vals[i] !in honest);
    MedianBounded(ts, lo, hi);
  }

  // --- the next block --------------------------------------------------------------------------

  /** The timestamp check of a block against its votes and the previous block. */
  predicate VerifyTimestamp(height: nat, timestamp: int, votes: int, prev: int) {
    (height > 1 ==> timestamp == votes) && (height > 1 ==> prev < timestamp)
  }

  /** If honest precommits are dated at least iota > 0 after the block they vote for, the block after
      it, dated by their certificate, passes the check. */
  lemma {:induction false} NextBlockPasses(cert: Certificate, h: nat, bid: Hash, vals: seq<Address>, honest: set<Address>, blockTime: int, iota: int, hi: int)
    requires Accepted(cert, h, bid, vals) && vals != []
    requires 3 * |set i: nat | i < |vals| && vals[i] !in honest| < |vals|
    requires iota > 0 && HonestWithin(cert, h, bid, vals, honest, blockTime + iota, hi)
    requires -TWO63 / 2 <= blockTime && blockTime + iota <= hi < TWO63 / 2
    ensures var t := Median(Sorted(Times(cert.items))); VerifyTimestamp(h + 1, t, t, blockTime)
  {
    TimestampBounded(cert, h, bid, vals, honest, blockTime + iota, hi);
  }

  /** The precommit behind the k-th item. */
  function ItemVote(cert: Certificate, h: nat, bid: Hash, k: nat): VoteMessage
    requires k < |cert.items|
  {
    VoteMessage(h, cert.round, Precommit, Decision(bid, cert.parts, []), cert.items[k].timestamp, cert.items[k].signature, [])
  }

  /** An honest item of a certificate is a vote that its node has cast in the run. */
  lemma ItemWasCast(net: Net, start: map<Address, nat>, acts: seq<(Address, Event)>, cert: Certificate, h: nat, bid: Hash, k: nat)
    returns (v: VoteMessage)
    requires Run(net, start, acts) && k < |cert.items| && Authentic(net, Reach(net, start, acts).log, ItemVote(cert, h, bid, k))
    requires ItemVote(cert, h, bid, k).Signer().value in net.honest
    ensures var a := ItemVote(cert, h, bid, k).Signer().value;
      && a in start && Legal(Node(a, net.lists), start[a], EventsOf(acts, a)) && v in After(Node(a, net.lists), start[a], EventsOf(acts, a)).sent
      && v.SignedBallot() == ItemBallot(cert, h, bid, cert.items[k])
  {
    hide Run, Reach, Legal, After, EventsOf;
    var m, log := ItemVote(cert, h, bid, k), Reach(net, start, acts).log;
    NodesRun(net, start, acts, m.Signer().value);
    v :| v in log && v.Signer() == m.Signer() && v.SignedBallot() == m.SignedBallot();
  }

  /** In every run of the system whose nodes date their precommits as the engine does, the block after one that is
      certified by votes of the run, dated by its certificate, passes the check. */
  lemma {:induction false} NextBlockOfRunPasses(net: Net, start: map<Address, nat>, acts: seq<(Address, Event)>, cert: Certificate, h: nat, bid: Hash,
                             times: Hash -> int, iota: int, hi: int)
    requires Run(net, start, acts) && forall a :: a in net.honest ==> DatedEvents(EventsOf(acts, a), times, iota)
    requires Accepted(cert, h, bid, net.vals(h)) && cert.parts.Some? && 3 * |Faulty(net, h)| < |net.vals(h)|
    requires forall k :: 0 <= k < |cert.items| ==> Authentic(net, Reach(net, start, acts).log, ItemVote(cert, h, bid, k))
    requires forall k :: 0 <= k < |cert.items| ==> cert.items[k].signature.signer in net.honest ==> cert.items[k].timestamp <= hi
    requires iota > 0 && -TWO63 / 2 <= times(bid) && times(bid) + iota <= hi < TWO63 / 2
    ensures var t := Median(Sorted(Times(cert.items))); VerifyTimestamp(h + 1, t, t, times(bid))
  {
    hide Run, Reach, Legal, After, EventsOf, DatedEvents, Authentic, Median, Sorted;
    var vals := net.vals(h);
    forall k | 0 <= k < |cert.items| && vals[SignerAt(cert, h, bid, vals, k).value] in net.honest
      ensures times(bid) + iota <= cert.items[k].timestamp <= hi
    {
      var a := cert.items[k].signature.signer;
      assert vals[SignerAt(cert, h, bid, vals, k).value] == a && ItemVote(cert, h, bid, k).Signer() == Some(a);
      var v := ItemWasCast(net, start, acts, cert, h, bid, k);
      DatedSent(Node(a, net.lists), start[a], EventsOf(acts, a), times, iota);
    }
    NextBlockPasses(cert, h, bid, vals, net.honest, times(bid), iota, hi);
  }
}
