/** The send queues of a peer (network/queue.go): bounded rings, one per traffic class, drained by priority or by weight. */
module Queues {
  import opened Votes

  type Item = nat

  /** The slot `e` places after `from` in a circle of n slots. */
  function At(n: nat, from: nat, e: nat): (r: nat)
    requires from < n && e <= n
    ensures r < n
  {
    if from + e < n then from + e else from + e - n
  }

  /** How far class j is ahead of the turn. */
  function Gap(n: nat, from: nat, j: nat): (g: nat)
    requires from < n && j < n
    ensures g < n && At(n, from, g) == j
  {
    if j >= from then j - from else j - from + n
  }

  lemma AtIsModulo(n: nat, from: nat, e: nat)
    requires from < n && e <= n
    ensures At(n, from, e) == (from + e) % n
  {
    if from + e >= n { OnceAround(n, from + e - n); }
  }

  lemma OnceAround(n: nat, x: nat)
    requires x < n
    ensures (x + n) % n == x
  {
    var q := (x + n) / n;
    assert x + n == n * q + (x + n) % n;
    assert q >= 2 ==> n * q >= n * 2;
    assert q == 0 ==> n * q == 0;
  }

  /** A bounded ring buffer that is allocated when it is first used. */
  class Ring {
    const size: nat
    var buffer: array?<Option<Item>>
    var read: nat
    var write: nat
    var len: nat
    ghost var items: seq<Item>
    ghost var Repr: set<object>

    ghost predicate Valid()
      reads this, Repr
    {
      && this in Repr && (buffer != null ==> buffer in Repr)
      && len == |items| <= size
      && (buffer == null ==> len == 0)
      && (if size == 0 then read == 0 && write == 0
          else read < size && write == At(size, read, len))
      && (buffer != null ==> buffer.Length == size)
      && (forall i :: 0 <= i < len ==> buffer[At(size, read, i)] == Some(items[i]))
    }

    constructor (size: nat)
      ensures Valid() && fresh(Repr) && items == [] && this.size == size
    {
      this.size, buffer, read, write, len, items := size, null, 0, 0, 0, [];
      Repr := {this};
    }

    method Push(x: Item) returns (ok: bool)
      requires Valid()
      modifies Repr
      ensures Valid() && fresh(Repr - old(Repr))
      ensures ok <==> |old(items)| < size
      ensures items == if ok then old(items) + [x] else old(items)
    {
      if len == size { return false; }
      if buffer == null {
        buffer := new Option<Item>[size](_ => None);
        Repr := Repr + {buffer};
      }
      buffer[write] := Some(x);
      len := len + 1;
      AtIsModulo(size, write, 1);
      write := (write + 1) % size;
      items := items + [x];
      return true;
    }

    method Pop() returns (x: Option<Item>)
      requires Valid()
      modifies Repr
      ensures Valid() && Repr == old(Repr)
      ensures if old(items) == [] then x.None? && items == [] else x == Some(old(items)[0]) && items == old(items)[1..]
    {
      if len < 1 { return None; }
      x := buffer[read];
      buffer[read] := None;
      len := len - 1;
      AtIsModulo(size, read, 1);
      read := (read + 1) % size;
      items := items[1..];
    }
  }

  /** A queue of several classes: what waits in each, and the state of the weighted turn. */
  datatype Sched = Sched(weighted: bool, size: nat, queues: seq<seq<Item>>,
                         weights: seq<nat>, current: seq<nat>, idx: nat) {
    predicate Wf() {
      && |weights| == |queues| && |current| == |queues| && (idx < |queues| || idx == 0)
      && (forall k :: 0 <= k < |queues| ==> weights[k] >= 1)
    }

    predicate Empty() { forall k :: 0 <= k < |queues| ==> queues[k] == [] }

    predicate Class(k: int) { 0 <= k < |queues| }
  }

  datatype Event = Push(k: int, item: Item) | Pop | SetWeight(k: int, weight: int)

  /** How many classes the turn passes over, starting at `from`, before one that has something. */
  function Skipped(queues: seq<seq<Item>>, from: nat, n: nat): (d: nat)
    requires from < |queues| && n <= |queues|
    ensures d <= n
    ensures forall e :: 0 <= e < d ==> queues[At(|queues|, from, e)] == []
    ensures d < n ==> queues[At(|queues|, from, d)] != []
    decreases n
  {
    if n == 0 || queues[from] != [] then 0
    else
      var next := At(|queues|, from, 1);
      var d := Skipped(queues, next, n - 1);
      assert forall e :: 0 < e <= |queues| ==> At(|queues|, from, e) == At(|queues|, next, e - 1);
      1 + d
  }

  lemma TurnFinds(s: Sched, from: nat)
    requires !s.Empty() && from < |s.queues|
    ensures Skipped(s.queues, from, |s.queues|) < |s.queues|
  {
    var n := |s.queues|;
    var k :| 0 <= k < n && s.queues[k] != [];
    assert At(n, from, Gap(n, from, k)) == k;
  }

  lemma FirstInOrder(queues: seq<seq<Item>>)
    requires queues != []
    ensures forall i :: 0 <= i < Skipped(queues, 0, |queues|) ==> queues[i] == []
  {
    forall i | 0 <= i < Skipped(queues, 0, |queues|) ensures queues[i] == [] {
      assert At(|queues|, 0, i) == i;
    }
  }

  /** The class the next Pop serves. */
  function Turn(s: Sched): (k: nat)
    requires s.Wf() && !s.Empty()
    ensures s.Class(k) && s.queues[k] != []
    ensures !s.weighted ==> forall i :: 0 <= i < k ==> s.queues[i] == []
    ensures s.weighted && s.queues[s.idx] != [] ==> k == s.idx
    ensures s.weighted ==> forall e :: 0 <= e < Gap(|s.queues|, s.idx, k) ==> s.queues[At(|s.queues|, s.idx, e)] == []
  {
    var n := |s.queues|;
    if s.weighted then TurnFinds(s, s.idx); At(n, s.idx, Skipped(s.queues, s.idx, n))
    else
      TurnFinds(s, 0);
      FirstInOrder(s.queues);
      Skipped(s.queues, 0, n)
  }

  /** A class that is passed over loses the part of its turn it has used. */
  function Cleared(current: seq<nat>, from: nat, d: nat): (r: seq<nat>)
    requires d <= |current| && (d > 0 ==> from < |current|)
    ensures |r| == |current|
    ensures forall k :: 0 <= k < |current| ==> r[k] == 0 || r[k] == current[k]
    ensures forall e :: 0 <= e < d ==> r[At(|current|, from, e)] == 0
    ensures d > 0 ==> forall e :: d <= e < |current| ==> r[At(|current|, from, e)] == current[At(|current|, from, e)]
  {
    if d == 0 then current else Cleared(current, from, d - 1)[At(|current|, from, d - 1) := 0]
  }

  /** Class k has been served: its turn goes on until its weight is used up. */
  function Counted(s: Sched, k: nat): (t: Sched)
    requires s.Wf() && s.Class(k)
    ensures t.Wf()
  {
    if s.current[k] + 1 >= s.weights[k] then s.(current := s.current[k := 0], idx := At(|s.queues|, k, 1))
    else s.(current := s.current[k := s.current[k] + 1], idx := k)
  }

  function Popped(s: Sched): (t: Sched)
    requires s.Wf() && !s.Empty()
    ensures t.Wf() && t.weights == s.weights && t.weighted == s.weighted
    ensures t.queues == s.queues[Turn(s) := s.queues[Turn(s)][1..]]
  {
    var k := Turn(s);
    var t := s.(queues := s.queues[k := s.queues[k][1..]]);
    if s.weighted then
      Counted(t.(current := Cleared(s.current, s.idx, Skipped(s.queues, s.idx, |s.queues|))), k)
    else t
  }

  function Next(s: Sched, e: Event): (t: Sched)
    requires s.Wf()
    ensures t.Wf() && |t.queues| == |s.queues|
  {
    match e
    case Push(k, x) => if s.Class(k) && |s.queues[k]| < s.size then s.(queues := s.queues[k := s.queues[k] + [x]]) else s
    case Pop => if s.Empty() then s else Popped(s)
    case SetWeight(k, w) => if s.Class(k) && w >= 1 then s.(weights := s.weights[k := w]) else s
  }

  // Fairness of the weighted turn.

  /** The limits of d classes in a row, around the circle. */
  function Limits(m: seq<nat>, from: nat, d: nat): (r: nat)
    requires from < |m| && d <= |m|
    decreases d
  {
    if d == 0 then 0 else m[from] + Limits(m, At(|m|, from, 1), d - 1)
  }

  lemma {:induction false} LimitsSplit(m: seq<nat>, from: nat, a: nat, b: nat)
    requires from < |m| && a + b <= |m|
    ensures Limits(m, from, a + b) == Limits(m, from, a) + Limits(m, At(|m|, from, a), b)
    decreases a
  {
    if a > 0 {
      LimitsSplit(m, At(|m|, from, 1), a - 1, b);
      assert At(|m|, At(|m|, from, 1), a - 1) == At(|m|, from, a);
    }
  }

  /** All the way around, the sum is the same from every starting point. */
  lemma {:induction false} LimitsAround(m: seq<nat>, from: nat)
    requires from < |m|
    ensures Limits(m, from, |m|) == Limits(m, 0, |m|)
  {
    if from > 0 {
      LimitsAround(m, from - 1);
      LimitsSplit(m, from, |m| - 1, 1);
      assert At(|m|, from, |m| - 1) == from - 1;
      LimitsSplit(m, from - 1, 1, |m| - 1);
      assert Limits(m, from - 1, 1) == m[from - 1] + Limits(m, from, 0);
    }
  }

  /** How many Pops can go to other classes before class j, as long as weights stay within m. */
  function Debt(m: seq<nat>, idx: nat, used: nat, j: nat): (r: nat)
    requires idx < |m| && j < |m|
  {
    if idx == j then 0
    else (if m[idx] > used then m[idx] - used else 1) + Limits(m, At(|m|, idx, 1), Gap(|m|, idx, j) - 1)
  }

  lemma DebtAtMost(m: seq<nat>, idx: nat, used: nat, j: nat)
    requires idx < |m| && j < |m| && (forall k :: 0 <= k < |m| ==> m[k] >= 1)
    ensures Debt(m, idx, used, j) <= Limits(m, idx, Gap(|m|, idx, j))
  {
  }

  lemma DebtWithinOthers(m: seq<nat>, idx: nat, used: nat, j: nat)
    requires idx < |m| && j < |m| && (forall k :: 0 <= k < |m| ==> m[k] >= 1)
    ensures Debt(m, idx, used, j) <= Limits(m, 0, |m|) - m[j]
  {
    var g := Gap(|m|, idx, j);
    DebtAtMost(m, idx, used, j);
    LimitsSplit(m, idx, g, |m| - g);
    LimitsAround(m, idx);
  }

  predicate Within(s: Sched, m: seq<nat>) {
    |m| == |s.weights| && forall k :: 0 <= k < |m| ==> s.weights[k] <= m[k]
  }

  /** Serving the class d places on, short of j, either goes on there within its limit or moves past it. */
  lemma TurnPays(m: seq<nat>, idx: nat, used: nat, d: nat, idx': nat, used': nat, j: nat)
    requires idx < |m| && j < |m| && d < Gap(|m|, idx, j) && (forall k :: 0 <= k < |m| ==> m[k] >= 1)
    requires var k := At(|m|, idx, d);
      idx' == At(|m|, k, 1) || (idx' == k && 0 < used' < m[k] && (d == 0 ==> used' == used + 1))
    ensures idx' < |m| && Debt(m, idx', used', j) < Debt(m, idx, used, j)
  {
    var n := |m|;
    var k, g := At(n, idx, d), Gap(n, idx, j) - d;
    assert Gap(n, k, j) == g;
    if d > 0 {
      LimitsSplit(m, At(n, idx, 1), d - 1, g);
      assert At(n, At(n, idx, 1), d - 1) == k;
    }
    assert Limits(m, k, g) == m[k] + Limits(m, At(n, k, 1), g - 1);
    DebtAtMost(m, idx', used', j);
  }

  lemma SkipsShort(s: Sched, j: nat)
    requires s.Wf() && s.weighted && s.Class(j) && s.queues[j] != [] && Turn(s) != j
    ensures Skipped(s.queues, s.idx, |s.queues|) < Gap(|s.queues|, s.idx, j)
  {
  }

  /** A Pop that goes to another class brings the turn closer to class j. */
  lemma PopPaysDebt(s: Sched, m: seq<nat>, j: nat)
    requires s.Wf() && s.weighted && s.Class(j) && s.queues[j] != [] && Within(s, m) && Turn(s) != j
    ensures var t := Popped(s); Debt(m, t.idx, t.current[t.idx], j) < Debt(m, s.idx, s.current[s.idx], j)
  {
    hide Debt, Gap, Limits;
    var d := Skipped(s.queues, s.idx, |m|);
    SkipsShort(s, j);
    var t := Popped(s);
    TurnPays(m, s.idx, s.current[s.idx], d, t.idx, t.current[t.idx], j);
  }

  ghost predicate Starved(s: Sched, run: seq<Event>, j: nat, m: seq<nat>)
    requires s.Wf() && s.Class(j)
    decreases run
  {
    Within(s, m) && (run == [] ||
      ((run[0].Pop? && !s.Empty() ==> Turn(s) != j) && Starved(Next(s, run[0]), run[1..], j, m)))
  }

  function Pops(run: seq<Event>): (n: nat) {
    if run == [] then 0 else (if run[0].Pop? then 1 else 0) + Pops(run[1..])
  }

  lemma {:induction false} StarvedWithinDebt(s: Sched, run: seq<Event>, j: nat, m: seq<nat>)
    requires s.Wf() && s.weighted && s.Class(j) && s.queues[j] != [] && Starved(s, run, j, m)
    ensures Pops(run) <= Debt(m, s.idx, s.current[s.idx], j)
    decreases run
  {
    if run != [] {
      if run[0].Pop? { PopPaysDebt(s, m, j); }
      StarvedWithinDebt(Next(s, run[0]), run[1..], j, m);
    }
  }

  /** Fairness: whatever is pushed meanwhile and however weights change below the limits m, a class with something
      to send is passed over by fewer Pops than the other limits together allow. */
  lemma NoStarvation(s: Sched, run: seq<Event>, j: nat, m: seq<nat>)
    requires s.Wf() && s.weighted && s.Class(j) && s.queues[j] != [] && Starved(s, run, j, m)
    ensures Pops(run) <= Limits(m, 0, |m|) - m[j]
  {
    StarvedWithinDebt(s, run, j, m);
    DebtWithinOthers(m, s.idx, s.current[s.idx], j);
  }

  // The share of each class while all have something to send.

  /** Only the class whose turn it is has used a part of it. */
  ghost predicate Quiet(s: Sched) {
    s.Wf() && forall k :: s.Class(k) && k != s.idx ==> s.current[k] == 0
  }

  ghost predicate Settled(s: Sched) {
    Quiet(s) && s.Class(s.idx) && s.current[s.idx] < s.weights[s.idx]
  }

  lemma QuietKept(s: Sched, e: Event)
    requires Quiet(s)
    ensures Quiet(Next(s, e))
    ensures s.weighted && e.Pop? && !s.Empty() ==> Settled(Next(s, e))
  {
    if s.weighted && e.Pop? && !s.Empty() {
      var d := Skipped(s.queues, s.idx, |s.queues|);
      if d > 0 { assert At(|s.queues|, s.idx, 0) == s.idx; }
    }
  }

  function Repeat(k: nat, n: nat): (r: seq<nat>)
    ensures |r| == n && forall i :: 0 <= i < n ==> r[i] == k
  {
    seq(n, _ => k)
  }

  lemma {:induction false} RepeatCount(k: nat, n: nat, j: nat)
    ensures multiset(Repeat(k, n))[j] == if j == k then n else 0
  {
    if n > 0 {
      RepeatCount(k, n - 1, j);
      assert Repeat(k, n) == Repeat(k, n - 1) + [k];
    }
  }

  /** One round: each of the first n classes as often as its weight says. */
  function Round(w: seq<nat>, n: nat): (r: seq<nat>)
    requires n <= |w|
  {
    if n == 0 then [] else Round(w, n - 1) + Repeat(n - 1, w[n - 1])
  }

  lemma {:induction false} RoundCount(w: seq<nat>, n: nat, j: nat)
    requires n <= |w|
    ensures multiset(Round(w, n))[j] == if j < n then w[j] else 0
  {
    if n > 0 {
      RoundCount(w, n - 1, j);
      RepeatCount(n - 1, w[n - 1], j);
    }
  }

  lemma {:induction false} RoundAt(w: seq<nat>, n: nat, i: nat, c: nat)
    requires i < n <= |w| && c < w[i]
    ensures |Round(w, n)| == Limits(w, 0, n)
    ensures Limits(w, 0, i) + c < |Round(w, n)| && Round(w, n)[Limits(w, 0, i) + c] == i
  {
    LimitsSplit(w, 0, n - 1, 1);
    if i < n - 1 {
      RoundAt(w, n - 1, i, c);
    } else {
      RoundLength(w, n - 1);
    }
  }

  lemma {:induction false} RoundLength(w: seq<nat>, n: nat)
    requires n <= |w| && w != []
    ensures |Round(w, n)| == Limits(w, 0, n)
  {
    if n > 0 {
      RoundLength(w, n - 1);
      LimitsSplit(w, 0, n - 1, 1);
    }
  }

  /** While every class has something to send, and no weight changes. */
  ghost predicate Backlogged(s: Sched, run: seq<Event>)
    requires s.Wf()
    decreases run
  {
    run == [] ||
    (&& !run[0].SetWeight?
     && (run[0].Pop? ==> forall k :: s.Class(k) ==> s.queues[k] != [])
     && Backlogged(Next(s, run[0]), run[1..]))
  }

  /** The classes served, in order. */
  function Served(s: Sched, run: seq<Event>): (r: seq<nat>)
    requires s.Wf()
    decreases run
  {
    if run == [] then []
    else (if run[0].Pop? && !s.Empty() then [Turn(s)] else []) + Served(Next(s, run[0]), run[1..])
  }

  function Position(s: Sched): (p: nat)
    requires s.Wf() && s.Class(s.idx)
  {
    Limits(s.weights, 0, s.idx) + s.current[s.idx]
  }

  /** Such a Pop takes the next place of the round. */
  lemma PopAdvances(s: Sched)
    requires Settled(s) && s.weighted && s.queues[s.idx] != []
    ensures var t, round := Popped(s), Round(s.weights, |s.weights|);
      && Settled(t) && t.weights == s.weights && t.weighted && Turn(s) == s.idx
      && Position(s) < |round| && round[Position(s)] == s.idx
      && Position(t) == if Position(s) + 1 == |round| then 0 else Position(s) + 1
  {
    var w, i := s.weights, s.idx;
    RoundAt(w, |w|, i, s.current[i]);
    LimitsSplit(w, 0, i, 1);
    assert Limits(w, i, 1) == w[i] + Limits(w, At(|w|, i, 1), 0);
    LimitsSplit(w, 0, i + 1, |w| - i - 1);
    QuietKept(s, Pop);
    RoundAt(w, |w|, Popped(s).idx, 0);
  }

  lemma {:induction false} RoundIsFollowed(s: Sched, run: seq<Event>)
    requires Settled(s) && s.weighted && Backlogged(s, run) && Pops(run) <= |Round(s.weights, |s.weights|)|
    ensures var round, p := Round(s.weights, |s.weights|), Position(s);
      p < |round| && Served(s, run) == (round + round)[p..p + Pops(run)]
    decreases run
  {
    hide Round, Popped, Turn, Limits, Served, Backlogged, Pops, Next, Position;
    var round := Round(s.weights, |s.weights|);
    InRound(s);
    if run == [] {
      NoneServed(s);
    } else {
      FirstOf(s, run);
      if run[0].Pop? {
        PopAdvances(s);
        NextPlace(round, Position(s), Pops(run[1..]));
      }
      RoundIsFollowed(Next(s, run[0]), run[1..]);
    }
  }

  lemma InRound(s: Sched)
    requires Settled(s)
    ensures Position(s) < |Round(s.weights, |s.weights|)|
  {
    RoundAt(s.weights, |s.weights|, s.idx, s.current[s.idx]);
  }

  lemma NoneServed(s: Sched)
    requires s.Wf()
    ensures Served(s, []) == [] && Pops([]) == 0
  {
  }

  lemma FirstOf(s: Sched, run: seq<Event>)
    requires Settled(s) && s.weighted && run != [] && Backlogged(s, run)
    ensures var t, rest := Next(s, run[0]), run[1..];
      && Backlogged(t, rest) && t.weights == s.weights && t.weighted
      && if run[0].Pop? then s.queues[s.idx] != [] && t == Popped(s) && Served(s, run) == [Turn(s)] + Served(t, rest) && Pops(run) == 1 + Pops(rest)
         else Settled(t) && Position(t) == Position(s) && Served(s, run) == Served(t, rest) && Pops(run) == Pops(rest)
  {
    hide Turn, Popped;
    QuietKept(s, run[0]);
  }

  lemma NextPlace(round: seq<nat>, p: nat, n: nat)
    requires p < |round| && n < |round|
    ensures var p' := if p + 1 == |round| then 0 else p + 1;
      (round + round)[p..p + n + 1] == [round[p]] + (round + round)[p'..p' + n]
  {
  }

  lemma RotationKeeps(round: seq<nat>, p: nat)
    requires p <= |round|
    ensures multiset((round + round)[p..p + |round|]) == multiset(round)
  {
    assert (round + round)[p..p + |round|] == round[p..] + round[..p];
    assert round == round[..p] + round[p..];
  }

  /** Weighted share: over as many Pops as all weights together, each class is served exactly as often as its weight. */
  lemma WeightedShare(s: Sched, run: seq<Event>, k: nat)
    requires Settled(s) && s.weighted && Backlogged(s, run) && s.Class(k)
    requires Pops(run) == Limits(s.weights, 0, |s.weights|)
    ensures multiset(Served(s, run))[k] == s.weights[k]
  {
    hide Round, Limits, Served, Backlogged, Pops;
    var w := s.weights;
    RoundLength(w, |w|);
    RoundIsFollowed(s, run);
    RotationKeeps(Round(w, |w|), Position(s));
    RoundCount(w, |w|, k);
  }

  /** From any state that can be reached, whatever the weights were: one Pop later the shares are exact. */
  lemma {:induction false} ShareAfterOne(s: Sched, run: seq<Event>, k: nat)
    requires Quiet(s) && s.weighted && Backlogged(s, run) && s.Class(k)
    requires Pops(run) == 1 + Limits(s.weights, 0, |s.weights|)
    ensures Served(s, run) != [] && multiset(Served(s, run)[1..])[k] == s.weights[k]
    decreases run
  {
    hide Limits, Popped, Turn;
    var t, rest := Next(s, run[0]), run[1..];
    QuietKept(s, run[0]);
    if run[0].Pop? {
      WeightedShare(t, rest, k);
      assert Served(s, run) == [Turn(s)] + Served(t, rest);
    } else {
      ShareAfterOne(t, rest, k);
      assert Served(s, run) == Served(t, rest);
    }
  }

  lemma SetWeightCounts(s: Sched, k: nat, w: nat, run: seq<Event>)
    requires Quiet(s) && s.Class(s.idx) && s.Class(k) && w >= 1 && run != [] && run[0] == Event.SetWeight(k, w)
    ensures var t := Next(s, run[0]);
      && Quiet(t) && t.weights == s.weights[k := w] && (s.current[s.idx] < t.weights[s.idx] ==> Settled(t))
      && t.weighted == s.weighted && Pops(run) == Pops(run[1..]) && Served(s, run) == Served(t, run[1..])
  {
  }

  /** A new weight counts at once: over as many Pops as all weights together, class k is served w times and every other
      class as before; if the class whose turn it is has already used the weight up, one Pop later. */
  lemma SetWeightShare(s: Sched, k: nat, w: nat, run: seq<Event>, j: nat)
    requires Quiet(s) && s.weighted && s.Class(s.idx) && s.Class(k) && w >= 1 && s.Class(j)
    requires run != [] && run[0] == Event.SetWeight(k, w) && Backlogged(Next(s, run[0]), run[1..])
    ensures var m := s.weights[k := w];
      && (Pops(run) == Limits(m, 0, |m|) && s.current[s.idx] < m[s.idx] ==>
            multiset(Served(s, run))[j] == if j == k then w else s.weights[j])
      && (Pops(run) == 1 + Limits(m, 0, |m|) ==>
            Served(s, run) != [] && multiset(Served(s, run)[1..])[j] == if j == k then w else s.weights[j])
  {
    hide Limits, Served, Backlogged, Pops;
    var m, t := s.weights[k := w], Next(s, run[0]);
    SetWeightCounts(s, k, w, run);
    if Pops(run) == Limits(m, 0, |m|) && s.current[s.idx] < m[s.idx] { WeightedShare(t, run[1..], j); }
    if Pops(run) == 1 + Limits(m, 0, |m|) { ShareAfterOne(t, run[1..], j); }
  }

  // Conservation.

  function After(s: Sched, run: seq<Event>): (t: Sched)
    requires s.Wf()
    ensures t.Wf() && |t.queues| == |s.queues|
    decreases run
  {
    if run == [] then s else After(Next(s, run[0]), run[1..])
  }

  function GivenBy(s: Sched, e: Event, k: nat): (r: seq<Item>)
    requires s.Wf() && s.Class(k)
  {
    if e.Push? && e.k == k && |s.queues[k]| < s.size then [e.item] else []
  }

  function TakenBy(s: Sched, e: Event, k: nat): (r: seq<Item>)
    requires s.Wf() && s.Class(k)
  {
    if e.Pop? && !s.Empty() && Turn(s) == k then [s.queues[k][0]] else []
  }

  /** What class k accepted. */
  function Given(s: Sched, run: seq<Event>, k: nat): (r: seq<Item>)
    requires s.Wf() && s.Class(k)
    decreases run
  {
    if run == [] then [] else GivenBy(s, run[0], k) + Given(Next(s, run[0]), run[1..], k)
  }

  /** What Pops took from class k. */
  function Taken(s: Sched, run: seq<Event>, k: nat): (r: seq<Item>)
    requires s.Wf() && s.Class(k)
    decreases run
  {
    if run == [] then [] else TakenBy(s, run[0], k) + Taken(Next(s, run[0]), run[1..], k)
  }

  /** Nothing is lost, invented or reordered within a class, over every run. */
  lemma {:induction false} Conserved(s: Sched, run: seq<Event>, k: nat)
    requires s.Wf() && s.Class(k)
    ensures s.queues[k] + Given(s, run, k) == Taken(s, run, k) + After(s, run).queues[k]
    decreases run
  {
    hide Next, Turn;
    if run != [] {
      var t := Next(s, run[0]);
      Conserved(t, run[1..], k);
      ConservedStep(s, run[0], k);
      Regroup(s.queues[k], GivenBy(s, run[0], k), Given(t, run[1..], k),
              TakenBy(s, run[0], k), t.queues[k], Taken(t, run[1..], k), After(t, run[1..]).queues[k]);
    }
  }

  lemma ConservedStep(s: Sched, e: Event, k: nat)
    requires s.Wf() && s.Class(k)
    ensures s.queues[k] + GivenBy(s, e, k) == TakenBy(s, e, k) + Next(s, e).queues[k]
  {
  }

  lemma Regroup(a: seq<Item>, g: seq<Item>, g': seq<Item>, p: seq<Item>, b: seq<Item>, p': seq<Item>, c: seq<Item>)
    requires a + g == p + b && b + g' == p' + c
    ensures a + (g + g') == (p + p') + c
  {
    calc {
      a + (g + g');
      (a + g) + g';
      p + (b + g');
      (p + p') + c;
    }
  }

  // The queues themselves.

  function Total(queues: seq<seq<Item>>): (n: nat) {
    if queues == [] then 0 else |queues[0]| + Total(queues[1..])
  }

  lemma {:induction false} TotalUpdate(queues: seq<seq<Item>>, k: nat, q: seq<Item>)
    requires k < |queues|
    ensures Total(queues[k := q]) == Total(queues) - |queues[k]| + |q|
  {
    if k == 0 {
      assert queues[k := q][1..] == queues[1..];
    } else {
      TotalUpdate(queues[1..], k - 1, q);
      assert queues[k := q][1..] == queues[1..][k - 1 := q];
    }
  }

  lemma {:induction false} TotalZero(queues: seq<seq<Item>>)
    ensures Total(queues) == 0 <==> forall k :: 0 <= k < |queues| ==> queues[k] == []
  {
    if queues != [] {
      TotalZero(queues[1..]);
      assert forall k :: 0 < k < |queues| ==> queues[k] == queues[1..][k - 1];
    }
  }

  /** Several classes behind one lock; `weighted` chooses the fetch function. */
  class MultiQueue {
    const weighted: bool
    const size: nat
    const queues: seq<Ring>
    var len: nat
    var weights: seq<nat>
    var current: seq<nat>
    var idx: nat
    var out: bool            // a wake-up is in the channel
    ghost var awake: nat     // wake-ups received by readers that have not popped yet
    ghost var contents: seq<seq<Item>>
    ghost var objects: set<object>

    ghost function View(): Sched
      reads this`contents, this`weights, this`current, this`idx
    {
      Sched(weighted, size, contents, weights, current, idx)
    }

    ghost predicate RingsOk()
      reads this`contents, this`objects, objects
    {
      && |contents| == |queues|
      && (forall k :: 0 <= k < |queues| ==> queues[k] in objects && queues[k] in queues[k].Repr && queues[k].Repr <= objects)
      && (forall j, k :: 0 <= j < k < |queues| ==> queues[j].Repr !! queues[k].Repr)
      && (forall k :: 0 <= k < |queues| ==> queues[k].Valid() && queues[k].items == contents[k] && queues[k].size == size)
    }

    /** Also: as long as something waits, a reader is being woken. */
    ghost predicate Valid()
      reads this, objects
    {
      this !in objects && |contents| == |queues| && RingsOk() && View().Wf() && len == Total(contents) && (len > 0 ==> out || awake > 0)
    }

    /** All classes start empty, with weight 1. */
    constructor (weighted: bool, size: nat, n: nat)
      ensures Valid() && this.weighted == weighted && this.size == size && |queues| == n
      ensures View().Empty() && Quiet(View()) && (forall k :: 0 <= k < n ==> weights[k] == 1) && fresh(objects)
    {
      var rings, made := NewRings(size, n);
      this.weighted, this.size, len, idx, out, awake := weighted, size, 0, 0, false, 0;
      weights, current, contents := seq(n, _ => 1), seq(n, _ => 0), seq(n, _ => []);
      queues, objects := rings, made;
      new;
      TotalZero(contents);
    }

    static method NewRings(size: nat, n: nat) returns (rings: seq<Ring>, ghost made: set<object>)
      ensures |rings| == n && fresh(made)
      ensures forall k :: 0 <= k < n ==> rings[k] in made && rings[k] in rings[k].Repr && rings[k].Repr <= made
      ensures forall j, k :: 0 <= j < k < n ==> rings[j].Repr !! rings[k].Repr
      ensures forall k :: 0 <= k < n ==> rings[k].Valid() && rings[k].items == [] && rings[k].size == size
    {
      rings, made := [], {};
      for i := 0 to n
        invariant |rings| == i && fresh(made)
        invariant forall k :: 0 <= k < i ==> rings[k] in made && rings[k] in rings[k].Repr && rings[k].Repr <= made
        invariant forall j, k :: 0 <= j < k < i ==> rings[j].Repr !! rings[k].Repr
        invariant forall k :: 0 <= k < i ==> rings[k].Valid() && rings[k].items == [] && rings[k].size == size
      {
        var r := new Ring(size);
        rings := rings + [r];
        made := made + r.Repr;
      }
    }

    method PushRing(x: Item, k: nat) returns (ok: bool)
      requires RingsOk() && this !in objects && k < |queues| == |contents|
      modifies this`contents, this`objects, objects
      ensures RingsOk() && this !in objects && fresh(objects - old(objects)) && |contents| == |queues|
      ensures ok <==> |old(contents)[k]| < size
      ensures contents == if ok then old(contents)[k := old(contents)[k] + [x]] else old(contents)
    {
      hide Ring.Valid;
      assert queues[k] in queues[k].Repr;
      ok := queues[k].Push(x);
      objects := objects + queues[k].Repr;
      if ok { contents := contents[k := contents[k] + [x]]; }
    }

    method PopRing(k: nat) returns (x: Option<Item>)
      requires RingsOk() && this !in objects && k < |queues| == |contents|
      modifies this`contents, objects
      ensures RingsOk() && |contents| == |queues|
      ensures if old(contents)[k] == [] then x.None? && contents == old(contents)
        else x == Some(old(contents)[k][0]) && contents == old(contents)[k := old(contents)[k][1..]]
    {
      hide Ring.Valid;
      x := queues[k].Pop();
      if x.Some? { contents := contents[k := contents[k][1..]]; }
    }

    method Push(x: Item, k: int) returns (ok: bool)
      requires Valid()
      modifies this`contents, this`objects, this`len, this`out, objects
      ensures Valid() && fresh(objects - old(objects))
      ensures View() == Next(old(View()), Event.Push(k, x))
      ensures ok <==> 0 <= k < |queues| && |old(contents)[k]| < size
      ensures contents == (if ok then old(contents)[k := old(contents)[k] + [x]] else old(contents)) && out == (old(out) || ok)
    {
      hide RingsOk, Total;
      if k < 0 || k >= |queues| { return false; }
      ok := PushRing(x, k);
      if !ok { return; }
      TotalUpdate(old(contents), k, contents[k]);
      len := len + 1;
      out := true;
    }

    /** The classes in order of priority. */
    method FetchByPriority() returns (x: Option<Item>)
      requires RingsOk() && this !in objects && |contents| == |queues| && View().Wf() && !weighted && !View().Empty()
      modifies this`contents, objects
      ensures RingsOk() && |contents| == |queues| && View() == Popped(old(View()))
      ensures x == Some(old(contents)[Turn(old(View()))][0])
    {
      hide RingsOk;
      ghost var s := View();
      ghost var turn := Turn(s);
      for i := 0 to |queues|
        invariant RingsOk() && |contents| == |queues| && View() == s && i <= turn
      {
        x := PopRing(i);
        if x.Some? {
          return;
        }
      }
      assert false;
    }

    /** Class k has been served. */
    method Count(k: nat)
      requires View().Wf() && k < |contents| == |queues|
      modifies this`current, this`idx
      ensures View() == Counted(old(View()), k)
    {
      idx := k;
      current := current[k := current[k] + 1];
      if current[k] >= weights[k] {
        current := current[k := 0];
        AtIsModulo(|queues|, k, 1);
        idx := (k + 1) % |queues|;
      }
    }

    /** The classes in turn, each for as long as its weight allows. */
    method FetchByWeight() returns (x: Option<Item>)
      requires RingsOk() && this !in objects && |contents| == |queues| && View().Wf() && weighted && !View().Empty()
      modifies this`contents, this`current, this`idx, objects
      ensures RingsOk() && |contents| == |queues| && View() == Popped(old(View()))
      ensures x == Some(old(contents)[Turn(old(View()))][0])
    {
      hide RingsOk, Counted;
      ghost var s := View();
      var n := |queues|;
      TurnFinds(s, idx);
      ghost var d := Skipped(contents, idx, n);
      for i := 0 to n
        invariant RingsOk() && |contents| == |queues| && i <= d
        invariant View() == s.(current := Cleared(s.current, s.idx, i))
      {
        AtIsModulo(n, idx, i);
        var k := (idx + i) % n;
        x := PopRing(k);
        if x.Some? {
          Count(k);
          return;
        } else {
          current := current[k := 0];
        }
      }
      assert false;
    }

    method Pop() returns (x: Option<Item>)
      requires Valid()
      modifies this`contents, this`current, this`idx, this`len, this`out, this`awake, objects
      ensures Valid() && View() == Next(old(View()), Event.Pop)
      ensures if old(View()).Empty() then x.None? else x == Some(old(contents)[Turn(old(View()))][0])
      ensures out == (old(out) || (x.Some? && len > 0)) && len == if x.Some? then old(len) - 1 else old(len)
    {
      hide RingsOk, Total, Popped, Turn;
      awake := if awake > 0 then awake - 1 else 0;
      TotalZero(contents);
      if len < 1 { return None; }
      if weighted { x := FetchByWeight(); } else { x := FetchByPriority(); }
      if x.Some? {
        TotalPopped(old(View()));
        len := len - 1;
        if len > 0 { out := true; }
      }
    }

    /** A reader receives the wake-up. */
    method Wait()
      requires Valid() && out
      modifies this`out, this`awake
      ensures Valid() && View() == old(View()) && !out
    {
      out := false;
      awake := awake + 1;
    }

    method SetWeight(k: int, weight: int) returns (ok: bool)
      requires Valid() && weighted
      modifies this`weights
      ensures Valid() && View() == Next(old(View()), Event.SetWeight(k, weight))
      ensures ok <==> 0 <= k < |queues| && weight >= 1
      ensures weights == if ok then old(weights)[k := weight] else old(weights)
    {
      hide RingsOk;
      if k < 0 || k >= |weights| || weight < 1 { return false; }
      weights := weights[k := weight];
      return true;
    }
  }

  lemma TotalPopped(s: Sched)
    requires s.Wf() && !s.Empty()
    ensures Total(Popped(s).queues) == Total(s.queues) - 1
  {
    TotalUpdate(s.queues, Turn(s), s.queues[Turn(s)][1..]);
  }

  /** One class; a writer wakes a reader only when the queue was empty. */
  class SingleQueue {
    const ring: Ring
    var out: bool
    ghost var awake: nat

    ghost predicate Valid()
      reads this, ring, ring.Repr
    {
      this !in ring.Repr && ring.Valid() && (ring.len > 0 ==> out || awake > 0)
    }

    constructor (size: nat)
      ensures Valid() && ring.items == [] && ring.size == size && fresh(ring.Repr)
    {
      ring := new Ring(size);
      out, awake := false, 0;
    }

    method Push(x: Item) returns (ok: bool)
      requires Valid()
      modifies this, ring.Repr
      ensures Valid() && fresh(ring.Repr - old(ring.Repr))
      ensures ok <==> |old(ring.items)| < ring.size
      ensures ring.items == (if ok then old(ring.items) + [x] else old(ring.items)) && out == (old(out) || (ok && old(ring.items) == []))
    {
      ok := ring.Push(x);
      if ok && ring.len == 1 { out := true; }
    }

    method Pop() returns (x: Option<Item>)
      requires Valid()
      modifies this, ring.Repr
      ensures Valid()
      ensures if old(ring.items) == [] then x.None? && ring.items == []
        else x == Some(old(ring.items)[0]) && ring.items == old(ring.items)[1..]
      ensures out == (old(out) || ring.items != [])
    {
      x := ring.Pop();
      awake := if awake > 0 then awake - 1 else 0;
      if x.Some? && ring.len > 0 { out := true; }
    }

    method Wait()
      requires Valid() && out
      modifies this
      ensures Valid() && ring.items == old(ring.items) && !out
    {
      out := false;
      awake := awake + 1;
    }
  }
}
