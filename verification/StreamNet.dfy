/** Two streams over lossy first-in first-out channels: what is handed to the user is a subsequence of
    what was sent, in order and without repetition, over any number of wraps. */
module StreamNet {
  import opened Votes
  import opened Streams

  /** A message with the unbounded counts behind its two numbers. */
  datatype Tagged = Tagged(msg: Msg, n: nat, k: nat)

  /** One side: its endpoint, everything it has accepted for sending, how many of those it knows to be
      acknowledged, how many it has taken from the peer, what it has handed to its user (with the position
      of each payload among the peer's items), and the channel it sends into. */
  datatype Side = Side(
    e: Endpoint, items: seq<Payload>, acked: nat, got: nat, user: seq<Payload>, at: seq<nat>, out: seq<Tagged>)

  datatype Net = Net(l: Side, r: Side)

  function NewSide(): Side { Side(NewEndpoint(), [], 0, 0, [], [], []) }

  // --- steps -----------------------------------------------------------------------------------

  /** `posted` says whether any message posted by the action gets out; of several, those that do not are lost. */
  datatype Act =
    | Send(b: Payload, now: int, posted: bool)
    | Deliver(now: int, posted: bool)  // the oldest message of the peer's channel arrives
    | Repost(now: int, posted: bool)   // the repost timer fires
    | Ack(posted: bool)                // the ack timer fires
    | Lose(i: nat)                     // a message of the own channel is lost

  /** Count behind a sequence number of the own window, given the number of acknowledged items. */
  function Tag(m: Msg, s: Side): Tagged {
    Tagged(m, if m.payload.None? then |s.items| else s.acked + Offset(s.e.peerAck, m.seqNo), s.got)
  }

  function Offset(base: Seq16, n: Seq16): nat { (n + M - base) % M }

  function TagAll(ms: seq<Msg>, s: Side): (r: seq<Tagged>)
    ensures |r| == |ms|
  {
    seq(|ms|, i requires 0 <= i < |ms| => Tag(ms[i], s))
  }

  ghost predicate CanDo(x: Side, y: Side, a: Act) {
    match a
    case Deliver(_, _) => y.out != []
    case Repost(_, _) => x.e.timer.Some? && x.e.unacked != []
    case Ack(_) => x.e.ackTimer.Armed?
    case Lose(i) => i < |x.out|
    case _ => true
  }

  /** The sequence number of an arriving message: taken if next, and then its payload handed over. */
  function Take(x: Side, m: Msg): Side {
    var o := Ordered(x.e, m);
    var hand := o.1 && m.payload.Some?;
    x.(e := o.0, got := if o.1 then x.got + 1 else x.got,
       user := if hand then x.user + [m.payload.value] else x.user,
       at := if hand then x.at + [x.got] else x.at)
  }

  function Post(x: Side, ms: seq<Msg>, posted: bool): Side {
    x.(e := Posted(x.e, ms, posted), out := if posted then x.out + TagAll(ms, x) else x.out)
  }

  /** Side x acts; y loses the message that x takes. */
  function Do(x: Side, y: Side, a: Act): (r: (Side, Side))
    requires CanDo(x, y, a)
  {
    match a
    case Send(b, now, posted) =>
      var s := Sent(x.e, b, now, posted);
      (Post(x.(e := s.0, items := if s.1 then x.items + [b] else x.items), s.2, true), y)
    case Deliver(now, posted) =>
      var m := y.out[0].msg;
      var x1 := Post(Take(x, m), Ordered(x.e, m).2, posted);
      var c := Acked(x1.e, m.ack, now);
      (Post(x1.(e := c.0, acked := x.acked + Ahead(x1.e, m.ack)), c.1, posted), y.(out := y.out[1..]))
    case Repost(now, posted) =>
      var f := Fired(x.e, now);
      (Post(x.(e := f.0), f.1, posted), y)
    case Ack(posted) => (Post(x.(e := AckFired(x.e, posted)), [AckMsg(x.e)], posted), y)
    case Lose(i) => (x.(out := x.out[..i] + x.out[i + 1..]), y)
  }

  ghost predicate Enabled(s: Net, left: bool, a: Act) {
    if left then CanDo(s.l, s.r, a) else CanDo(s.r, s.l, a)
  }

  ghost function Step(s: Net, left: bool, a: Act): Net
    requires Enabled(s, left, a)
  {
    if left then var p := Do(s.l, s.r, a); Net(p.0, p.1) else var p := Do(s.r, s.l, a); Net(p.1, p.0)
  }

  ghost predicate Run(acts: seq<(bool, Act)>)
    decreases |acts|, 0
  {
    acts == [] || (Run(acts[..|acts| - 1]) && Enabled(Reach(acts[..|acts| - 1]), acts[|acts| - 1].0, acts[|acts| - 1].1))
  }

  ghost function Reach(acts: seq<(bool, Act)>): Net
    requires Run(acts)
    decreases |acts|, 1
  {
    if acts == [] then Net(NewSide(), NewSide())
    else Step(Reach(acts[..|acts| - 1]), acts[|acts| - 1].0, acts[|acts| - 1].1)
  }

  // --- invariants ------------------------------------------------------------------------------

  /** The window: the unacknowledged list is exactly the items after the acknowledged ones, numbers are
      counts modulo 2^16, and the window never holds more than 65535 items. */
  ghost predicate WindowOk(x: Side) {
    && x.acked <= |x.items| && |x.items| - x.acked < M
    && x.e.seqNo == |x.items| % M && x.e.peerAck == x.acked % M
    && |x.e.unacked| == |x.items| - x.acked
    && (forall i :: 0 <= i < |x.e.unacked| ==> x.e.unacked[i].payload == x.items[x.acked + i])
    && TimerOk(x.e)
  }

  /** A message in x's channel is an item of x, or an ack, with its original number. */
  ghost predicate MsgOk(x: Side, t: Tagged) {
    && t.msg.seqNo == t.n % M && t.msg.ack == t.k % M
    && t.n <= |x.items|
    && (t.msg.payload.Some? ==> 0 < t.n && t.msg.payload.value == x.items[t.n - 1])
  }

  /** From x to y. No message is so old that its number could pass for the next one, and acks come in
      the order they were sent. */
  ghost predicate FlowOk(x: Side, y: Side) {
    && x.acked <= y.got <= |x.items|
    && y.e.peerSeq == y.got % M
    && (forall i :: 0 <= i < |x.out| ==> MsgOk(x, x.out[i]) && x.out[i].n + M >= y.got + 2)
    && (forall i, j :: 0 <= i < j < |x.out| ==> x.out[j].n + M >= x.out[i].n + 2)
    && (forall i :: 0 <= i < |y.out| ==> x.acked <= y.out[i].k <= y.got)
    && (forall i, j :: 0 <= i < j < |y.out| ==> y.out[i].k <= y.out[j].k)
  }

  /** What y's user got are items of x at strictly increasing positions. */
  ghost predicate Subsequence(x: Side, y: Side) {
    && |y.user| == |y.at|
    && (forall i :: 0 <= i < |y.at| ==> y.at[i] < |x.items| && y.user[i] == x.items[y.at[i]])
    && (forall i, j :: 0 <= i < j < |y.at| ==> y.at[i] < y.at[j])
  }

  ghost predicate HandedOk(x: Side, y: Side) {
    Subsequence(x, y) && forall i :: 0 <= i < |y.at| ==> y.at[i] < y.got
  }

  ghost predicate Inv(s: Net) {
    && WindowOk(s.l) && WindowOk(s.r)
    && FlowOk(s.l, s.r) && FlowOk(s.r, s.l)
    && HandedOk(s.l, s.r) && HandedOk(s.r, s.l)
  }

  // --- preservation ----------------------------------------------------------------------------

  lemma ModUnique(a: nat, b: nat)
    requires a % M == b % M && a < b + M && b < a + M
    ensures a == b
  {}

  lemma IncIs(n: nat)
    ensures Inc(n % M) == (n + 1) % M
  {}

  lemma PlaceIs(base: nat, d: nat)
    ensures (base % M + d) % M == (base + d) % M
  {}

  lemma OffsetIs(base: nat, d: nat)
    requires d < M
    ensures Offset(base % M, (base + d) % M) == d
  {}

  /** The ack timer has no part in this. */
  lemma TimerFree(x: Side, y: Side, e: Endpoint)
    requires e == x.e.(ackTimer := e.ackTimer) && WindowOk(x) && FlowOk(x, y) && FlowOk(y, x)
    ensures var x' := x.(e := e); WindowOk(x') && FlowOk(x', y) && FlowOk(y, x')
  {
    var x' := x.(e := e);
    assert forall i :: 0 <= i < |x.out| && MsgOk(x, x.out[i]) ==> MsgOk(x', x.out[i]);
  }

  /** Appending messages posted by x, each an item of its window or an ack. */
  lemma PostKeepsFlow(x: Side, y: Side, ts: seq<Tagged>)
    requires WindowOk(x) && FlowOk(x, y) && FlowOk(y, x)
    requires forall i :: 0 <= i < |ts| ==> Fresh(x, ts[i])
    ensures var x' := x.(out := x.out + ts); WindowOk(x') && FlowOk(x', y) && FlowOk(y, x')
  {
    var x' := x.(out := x.out + ts);
    forall i, j | 0 <= i < j < |x'.out| ensures x'.out[j].n + M >= x'.out[i].n + 2 {
      if j >= |x.out| { assert x'.out[j] == ts[j - |x.out|]; }
      if i >= |x.out| { assert x'.out[i] == ts[i - |x.out|]; }
    }
  }

  lemma PostKeeps(x: Side, y: Side, ms: seq<Msg>, posted: bool)
    requires WindowOk(x) && FlowOk(x, y) && FlowOk(y, x)
    requires forall i :: 0 <= i < |ms| ==> Fresh(x, Tag(ms[i], x))
    ensures var x' := Post(x, ms, posted); WindowOk(x') && FlowOk(x', y) && FlowOk(y, x')
  {
    hide WindowOk, FlowOk, Fresh;
    var x1 := x.(e := Posted(x.e, ms, posted));
    if posted {
      PostKeepsFlow(x, y, TagAll(ms, x));
      TimerFree(x.(out := x.out + TagAll(ms, x)), y, x1.e);
    } else {
      TimerFree(x, y, x1.e);
    }
  }

  ghost predicate Fresh(x: Side, t: Tagged) {
    && MsgOk(x, t) && t.k == x.got
    && (t.n == |x.items| || x.acked < t.n)
  }

  /** A message posted from the window carries its item's number. */
  lemma TagIsFresh(x: Side, m: Msg, i: nat)
    requires WindowOk(x) && i < |x.e.unacked| && x.e.peerSeq == x.got % M
    requires m == Msg((x.e.peerAck + i + 1) % M, x.e.peerSeq, Some(x.e.unacked[i].payload))
    ensures Fresh(x, Tag(m, x)) && Tag(m, x).n == x.acked + i + 1
  {
    hide Offset, TimerOk;
    PlaceIs(x.acked, i + 1);
    OffsetIs(x.acked, i + 1);
  }

  lemma AckIsFresh(x: Side)
    requires WindowOk(x) && x.e.peerSeq == x.got % M
    ensures Fresh(x, Tag(AckMsg(x.e), x))
  {}

  /** Every retransmission after an ack is of an item of the new window. */
  lemma {:induction false} RepostsAreFresh(x: Side, items: seq<SendItem>, now: int, timedout: bool, j: nat)
    requires WindowOk(x) && x.e.peerSeq == x.got % M
    requires |items| <= |x.e.unacked| && forall i :: 0 <= i < |items| ==> items[i].payload == x.e.unacked[i].payload
    requires j < |Reposts(items, x.e.peerAck, x.e.peerSeq, now, timedout)|
    ensures Fresh(x, Tag(Reposts(items, x.e.peerAck, x.e.peerSeq, now, timedout)[j], x))
  {
    var i := |items| - 1;
    var front := Reposts(items[..i], x.e.peerAck, x.e.peerSeq, now, timedout);
    if j < |front| {
      RepostsAreFresh(x, items[..i], now, timedout, j);
    } else {
      TagIsFresh(x, Msg((x.e.peerAck + i + 1) % M, x.e.peerSeq, Some(items[i].payload)), i);
    }
  }

  lemma SendKeeps(x: Side, y: Side, b: Payload, now: int, posted: bool)
    requires Inv(Net(x, y))
    ensures var p := Do(x, y, Send(b, now, posted)); Inv(Net(p.0, p.1))
  {
    hide WindowOk, FlowOk, Fresh;
    var s := Sent(x.e, b, now, posted);
    if s.1 {
      var x1 := x.(e := s.0, items := x.items + [b]);
      ItemsGrow(x, y, b, now, posted);
      if s.2 != [] {
        SeenIs(x, y);
        NewestIsFresh(x, b, now, posted);
      }
      PostKeeps(x1, y, s.2, true);
    } else {
      PostKeeps(x, y, [], true);
    }
  }

  lemma SeenIs(x: Side, y: Side)
    requires FlowOk(y, x)
    ensures x.e.peerSeq == x.got % M
  {}

  lemma ItemsGrow(x: Side, y: Side, b: Payload, now: int, posted: bool)
    requires WindowOk(x) && FlowOk(x, y) && FlowOk(y, x) && Sent(x.e, b, now, posted).1
    ensures var x1 := x.(e := Sent(x.e, b, now, posted).0, items := x.items + [b]);
      WindowOk(x1) && FlowOk(x1, y) && FlowOk(y, x1)
  {
    hide Inc;
    var x1 := x.(e := Sent(x.e, b, now, posted).0, items := x.items + [b]);
    IncIs(|x.items|);
    assert |x.items| - x.acked < M - 1 by { FullWindow(x); }
    forall i | 0 <= i < |x.out| ensures MsgOk(x1, x.out[i]) { assert MsgOk(x, x.out[i]); }
  }

  /** The window is full exactly when the next number would be the last acknowledged one. */
  lemma {:induction false} FullWindow(x: Side)
    requires WindowOk(x)
    ensures Inc(x.e.seqNo) == x.e.peerAck <==> |x.items| - x.acked == M - 1
  {
    hide Inc;
    IncIs(|x.items|);
    WindowWraps(|x.items|, x.acked);
  }

  /** Numbers less than a whole circle apart coincide only if equal. */
  lemma WindowWraps(sent: nat, acked: nat)
    requires acked <= sent < acked + M
    ensures (sent + 1) % M == acked % M <==> sent - acked == M - 1
  {
    if sent + 1 < acked + M {
      if (sent + 1) % M == acked % M { ModUnique(sent + 1, acked); }
    } else {
      AroundOnce(acked);
    }
  }

  lemma AroundOnce(n: nat)
    ensures (n + M) % M == n % M
  {}

  lemma NewestIsFresh(x: Side, b: Payload, now: int, posted: bool)
    requires WindowOk(x) && Sent(x.e, b, now, posted).2 != [] && x.e.peerSeq == x.got % M
    requires WindowOk(x.(e := Sent(x.e, b, now, posted).0, items := x.items + [b]))
    ensures var s := Sent(x.e, b, now, posted);
      var x1 := x.(e := s.0, items := x.items + [b]);
      Fresh(x1, Tag(s.2[0], x1)) && Tag(s.2[0], x1).n == |x1.items|
  {
    hide Inc, Fresh, TimerOk;
    IncIs(|x.items|);
    var s := Sent(x.e, b, now, posted);
    var x1 := x.(e := s.0, items := x.items + [b]);
    var i := |x1.e.unacked| - 1;
    assert x1.acked + i + 1 == |x1.items|;
    PlaceIs(x.acked, i + 1);
    TagIsFresh(x1, s.2[0], i);
  }

  /** A number that passes for the next one is the next one. */
  lemma NextIsNext(n: nat, got: nat)
    requires n % M == Inc(got % M) && got + 2 <= n + M && n < got + M
    ensures n == got + 1
  {
    assert Inc(got % M) == (got + 1) % M;
    ModUnique(n, got + 1);
  }

  /** What the oldest message in y's channel says, and what stays true when it leaves. */
  lemma {:induction false} PopKeeps(x: Side, y: Side)
    requires WindowOk(y) && FlowOk(x, y) && FlowOk(y, x) && y.out != []
    ensures var t, y1 := y.out[0], y.(out := y.out[1..]);
      && MsgOk(y, t) && x.acked <= t.k <= y.got
      && (Ordered(x.e, t.msg).1 ==> t.n == x.got + 1)
      && WindowOk(y1) && FlowOk(x, y1) && FlowOk(y1, x)
      && (forall i :: 0 <= i < |y1.out| ==> t.k <= y1.out[i].k && y1.out[i].n + M >= t.n + 2)
  {
    var t, y1 := y.out[0], y.(out := y.out[1..]);
    assert MsgOk(y, t) && t.n + M >= x.got + 2;
    if Ordered(x.e, t.msg).1 { NextIsNext(t.n, x.got); }
    forall i | 0 <= i < |y1.out|
      ensures y1.out[i] == y.out[i + 1] && MsgOk(y1, y1.out[i]) && y1.out[i].n + M >= t.n + 2 && t.k <= y1.out[i].k
    {
      assert MsgOk(y, y.out[i + 1]);
    }
  }

  /** The first half of a delivery: taking the number. */
  lemma TakeKeeps(x: Side, y: Side, t: Tagged)
    requires WindowOk(x) && FlowOk(x, y) && FlowOk(y, x) && HandedOk(y, x) && MsgOk(y, t)
    requires Ordered(x.e, t.msg).1 ==> t.n == x.got + 1
    requires forall i :: 0 <= i < |y.out| ==> y.out[i].n + M >= t.n + 2
    ensures var x1 := Take(x, t.msg); WindowOk(x1) && FlowOk(x1, y) && FlowOk(y, x1) && HandedOk(y, x1)
  {
    var x1 := Take(x, t.msg);
    assert x1.e.peerSeq == x1.got % M;
    assert forall i :: 0 <= i < |x.out| ==> MsgOk(x, x.out[i]) ==> MsgOk(x1, x.out[i]);
  }

  /** The second half: the ack number drops exactly the items it acknowledges. */
  lemma {:induction false} AckedKeeps(x: Side, y: Side, t: Tagged, now: int, posted: bool)
    requires WindowOk(x) && FlowOk(x, y) && FlowOk(y, x)
    requires t.msg.ack == t.k % M && x.acked <= t.k <= y.got && forall i :: 0 <= i < |y.out| ==> t.k <= y.out[i].k
    ensures Ahead(x.e, t.msg.ack) == t.k - x.acked
    ensures var c := Acked(x.e, t.msg.ack, now);
      var x4 := Post(x.(e := c.0, acked := t.k), c.1, posted);
      WindowOk(x4) && FlowOk(x4, y) && FlowOk(y, x4)
  {
    UnwrapIs(x, t.k);
    var c := Acked(x.e, t.msg.ack, now);
    var x3 := x.(e := c.0, acked := t.k);
    WindowMoves(x, y, t, now);
    if t.k > x.acked {
      var rest := x.e.unacked[t.k - x.acked..];
      forall j | 0 <= j < |c.1| ensures Fresh(x3, Tag(c.1[j], x3)) {
        RepostsAreFresh(x3, rest, now, x.e.timedout, j);
      }
    }
    PostKeeps(x3, y, c.1, posted);
  }

  lemma WindowMoves(x: Side, y: Side, t: Tagged, now: int)
    requires WindowOk(x) && FlowOk(x, y) && FlowOk(y, x)
    requires Ahead(x.e, t.msg.ack) == t.k - x.acked
    requires t.msg.ack == t.k % M && x.acked <= t.k <= y.got && forall i :: 0 <= i < |y.out| ==> t.k <= y.out[i].k
    ensures var x3 := x.(e := Acked(x.e, t.msg.ack, now).0, acked := t.k);
      WindowOk(x3) && FlowOk(x3, y) && FlowOk(y, x3)
      && (t.k > x.acked ==> forall i :: 0 <= i < |x3.e.unacked| ==> x3.e.unacked[i].payload == x.e.unacked[t.k - x.acked..][i].payload)
  {
    hide MsgOk;
    var x3 := x.(e := Acked(x.e, t.msg.ack, now).0, acked := t.k);
    forall i | 0 <= i < |x.out| ensures MsgOk(x3, x.out[i]) { SameItems(x, x3, x.out[i]); }
  }

  lemma UnwrapIs(x: Side, k: nat)
    requires WindowOk(x) && x.acked <= k <= |x.items|
    ensures Ahead(x.e, k % M) == k - x.acked
  {
    var d := k - x.acked;
    var base: nat := x.e.peerAck;
    assert k % M == (base + d) % M;
  }

  lemma DeliverKeeps(x: Side, y: Side, now: int, posted: bool)
    requires Inv(Net(x, y)) && y.out != []
    ensures var p := Do(x, y, Deliver(now, posted)); Inv(Net(p.0, p.1))
  {
    hide WindowOk, FlowOk, Fresh, Acked, Ordered, Ahead;
    var t, y1 := y.out[0], y.(out := y.out[1..]);
    PopKeeps(x, y);
    TakeKeeps(x, y1, t);
    var x1, ms := Take(x, t.msg), Ordered(x.e, t.msg).2;
    AnswerIsAck(x, t.msg);
    AnswerIsFresh(x1, y1, ms);
    PostKeeps(x1, y1, ms, posted);
    AckedKeeps(Post(x1, ms, posted), y1, t, now, posted);
  }

  lemma AnswerIsAck(x: Side, m: Msg)
    ensures var ms := Ordered(x.e, m).2; ms == [] || ms == [AckMsg(Take(x, m).e)]
  {}

  lemma AnswerIsFresh(x: Side, y: Side, ms: seq<Msg>)
    requires WindowOk(x) && FlowOk(y, x) && (ms == [] || ms == [AckMsg(x.e)])
    ensures forall i :: 0 <= i < |ms| ==> Fresh(x, Tag(ms[i], x))
  {
    AckIsFresh(x);
  }

  lemma RepostKeeps(x: Side, y: Side, now: int, posted: bool)
    requires Inv(Net(x, y)) && CanDo(x, y, Repost(now, posted))
    ensures var p := Do(x, y, Repost(now, posted)); Inv(Net(p.0, p.1))
  {
    var f := Fired(x.e, now);
    var x1 := x.(e := f.0);
    TagIsFresh(x1, f.1[0], 0);
    PostKeeps(x1, y, f.1, posted);
  }

  lemma AckTimerKeeps(x: Side, y: Side, posted: bool)
    requires Inv(Net(x, y)) && CanDo(x, y, Ack(posted))
    ensures var p := Do(x, y, Ack(posted)); Inv(Net(p.0, p.1))
  {
    hide WindowOk, FlowOk, Fresh;
    var x1 := x.(e := AckFired(x.e, posted));
    TimerFree(x, y, x1.e);
    SeenIs(x1, y);
    AckIsFresh(x1);
    PostKeeps(x1, y, [AckMsg(x.e)], posted);
  }

  lemma LoseKeeps(x: Side, y: Side, i: nat)
    requires Inv(Net(x, y)) && i < |x.out|
    ensures var p := Do(x, y, Lose(i)); Inv(Net(p.0, p.1))
  {
    hide FlowOk;
    LoseKeepsFlow(x, y, i);
  }

  lemma LoseKeepsFlow(x: Side, y: Side, i: nat)
    requires FlowOk(x, y) && FlowOk(y, x) && i < |x.out|
    ensures var x1 := x.(out := x.out[..i] + x.out[i + 1..]); FlowOk(x1, y) && FlowOk(y, x1)
  {
    var x1 := x.(out := x.out[..i] + x.out[i + 1..]);
    hide MsgOk;
    forall j | 0 <= j < |x1.out| ensures MsgOk(x1, x1.out[j]) {
      assert x1.out[j] == x.out[if j < i then j else j + 1];
      SameItems(x, x1, x1.out[j]);
    }
    assert forall j :: 0 <= j < |x1.out| ==> x1.out[j] == x.out[if j < i then j else j + 1];
  }

  lemma SameItems(x: Side, x1: Side, t: Tagged)
    requires MsgOk(x, t) && x.items == x1.items
    ensures MsgOk(x1, t)
  {}

  lemma DoKeeps(x: Side, y: Side, a: Act)
    requires Inv(Net(x, y)) && CanDo(x, y, a)
    ensures var p := Do(x, y, a); Inv(Net(p.0, p.1))
  {
    match a
    case Send(b, now, posted) => SendKeeps(x, y, b, now, posted);
    case Deliver(now, posted) => DeliverKeeps(x, y, now, posted);
    case Repost(now, posted) => RepostKeeps(x, y, now, posted);
    case Ack(posted) => AckTimerKeeps(x, y, posted);
    case Lose(i) => LoseKeeps(x, y, i);
  }

  lemma {:induction false} RunKeeps(acts: seq<(bool, Act)>)
    requires Run(acts)
    ensures Inv(Reach(acts))
  {
    if acts != [] {
      var s, a := Reach(acts[..|acts| - 1]), acts[|acts| - 1];
      RunKeeps(acts[..|acts| - 1]);
      if a.0 { DoKeeps(s.l, s.r, a.1); } else { DoKeeps(s.r, s.l, a.1); }
    }
  }

  // --- theorems --------------------------------------------------------------------------------

  /** In every run, what either user gets is a subsequence of what the other one sent: the positions
      are strictly increasing, so nothing is reordered or repeated. */
  lemma {:induction false} DeliveryInOrder(acts: seq<(bool, Act)>)
    requires Run(acts)
    ensures var s := Reach(acts);
      && Subsequence(s.l, s.r) && Subsequence(s.r, s.l)
  {
    RunKeeps(acts);
  }

  /** In every run the window is exact, and every message in flight with a payload, retransmissions by
      ack or timer included, has its item's original sequence number and payload. */
  lemma {:induction false} WindowExact(acts: seq<(bool, Act)>)
    requires Run(acts)
    ensures var s := Reach(acts);
      && WindowOk(s.l) && WindowOk(s.r)
      && (forall i :: 0 <= i < |s.l.out| ==> MsgOk(s.l, s.l.out[i]))
      && (forall i :: 0 <= i < |s.r.out| ==> MsgOk(s.r, s.r.out[i]))
  {
    RunKeeps(acts);
  }

  // --- when nothing is lost --------------------------------------------------------------------

  /** The action takes a number without a payload: an ack overtook the item it stands for. */
  ghost predicate Skip(s: Net, side: bool, a: (bool, Act))
    requires Enabled(s, a.0, a.1)
  {
    a.0 == side && a.1.Deliver?
    && var m := (if side then s.r else s.l).out[0].msg;
       m.payload.None? && Ordered((if side then s.l else s.r).e, m).1
  }

  ghost function Skips(acts: seq<(bool, Act)>, side: bool): nat
    requires Run(acts)
  {
    if acts == [] then 0
    else
      var front := acts[..|acts| - 1];
      Skips(front, side) + if Skip(Reach(front), side, acts[|acts| - 1]) then 1 else 0
  }

  lemma DoCounts(x: Side, y: Side, a: Act)
    requires CanDo(x, y, a)
    ensures var p := Do(x, y, a);
      && p.1.got == y.got && p.1.at == y.at && p.1.items == y.items && (!a.Send? ==> p.0.items == x.items)
      && (if a.Deliver? && Ordered(x.e, y.out[0].msg).1
          then p.0.got == x.got + 1 && |p.0.at| == |x.at| + (if y.out[0].msg.payload.Some? then 1 else 0)
               && (y.out[0].msg.payload.None? ==> p.0.user == x.user)
          else p.0.got == x.got && p.0.at == x.at)
  {
    hide Acked, Ahead, Sent, Fired, TagAll;
  }

  lemma {:induction false} SkipsCount(acts: seq<(bool, Act)>)
    requires Run(acts)
    ensures |Reach(acts).l.at| + Skips(acts, true) == Reach(acts).l.got
    ensures |Reach(acts).r.at| + Skips(acts, false) == Reach(acts).r.got
  {
    hide Do, Ordered;
    if acts != [] {
      var s, a := Reach(acts[..|acts| - 1]), acts[|acts| - 1];
      SkipsCount(acts[..|acts| - 1]);
      if a.0 { DoCounts(s.l, s.r, a.1); } else { DoCounts(s.r, s.l, a.1); }
    }
  }

  /** The user has got everything taken so far, and nothing was lost, if and only if no bare ack ever
      arrived with the number that was due. */
  lemma {:induction false} LosslessIff(acts: seq<(bool, Act)>)
    requires Run(acts)
    ensures var s := Reach(acts);
      && s.r.got <= |s.l.items| && s.l.got <= |s.r.items|
      && (s.r.user == s.l.items[..s.r.got] <==> Skips(acts, false) == 0)
      && (s.l.user == s.r.items[..s.l.got] <==> Skips(acts, true) == 0)
  {
    RunKeeps(acts);
    SkipsCount(acts);
    var s := Reach(acts);
    DenseIsAll(s.l, s.r);
    DenseIsAll(s.r, s.l);
  }

  lemma DenseIsAll(x: Side, y: Side)
    requires HandedOk(x, y) && y.got <= |x.items| && |y.at| <= y.got
    ensures y.user == x.items[..y.got] <==> |y.at| == y.got
  {
    if |y.at| == y.got {
      forall i | 0 <= i < |y.at| ensures y.at[i] == i { Dense(y.at, y.got, i); }
    }
  }

  lemma {:induction false} Dense(at: seq<nat>, n: nat, i: nat)
    requires |at| == n && i < n
    requires (forall k :: 0 <= k < n ==> at[k] < n) && (forall j, k :: 0 <= j < k < n ==> at[j] < at[k])
    ensures at[i] == i
  {
    AtLeastIndex(at, i);
    FromTop(at, n, i);
  }

  lemma {:induction false} AtLeastIndex(at: seq<nat>, i: nat)
    requires i < |at| && forall j, k :: 0 <= j < k < |at| ==> at[j] < at[k]
    ensures at[i] >= i
  {
    if i > 0 { AtLeastIndex(at, i - 1); }
  }

  lemma {:induction false} FromTop(at: seq<nat>, n: nat, i: nat)
    requires |at| == n && i < n
    requires (forall k :: 0 <= k < n ==> at[k] < n) && (forall j, k :: 0 <= j < k < n ==> at[j] < at[k])
    ensures at[i] <= i
    decreases n - i
  {
    if i < n - 1 { FromTop(at, n, i + 1); }
  }

  lemma RunStep(acts: seq<(bool, Act)>, left: bool, a: Act)
    requires Run(acts) && Enabled(Reach(acts), left, a)
    ensures Run(acts + [(left, a)]) && Reach(acts + [(left, a)]) == Step(Reach(acts), left, a)
  {
    assert (acts + [(left, a)])[..|acts|] == acts;
  }

  lemma SentAndLost(b: Payload) returns (acts: seq<(bool, Act)>)
    ensures Run(acts)
    ensures Reach(acts) == Net(NewSide().(e := Sent(NewEndpoint(), b, 0, true).0, items := [b]), NewSide())
  {
    assert Run([]) && Reach([]) == Net(NewSide(), NewSide());
    hide Run, Reach, Acked, Ahead, Ordered;
    RunStep([], true, Send(b, 0, true));
    var a1 := [] + [(true, Send(b, 0, true))];
    RunStep(a1, true, Lose(0));
    acts := a1 + [(true, Lose(0))];
  }

  /** The peer sends something meanwhile, so an ack is due. */
  lemma AnswerAfterLoss(b: Payload, c: Payload) returns (acts: seq<(bool, Act)>)
    ensures Run(acts)
    ensures var s := Reach(acts);
      && s.l.out == [] && s.l.items == [b] && s.l.e.seqNo == 1 && s.l.e.ackTimer.Armed?
      && s.r.items == [c] && s.r.user == [] && s.r.got == 0 && s.r.e.peerSeq == 0
  {
    var a := SentAndLost(b);
    hide Run, Reach, Reposts, Retimed;
    RunStep(a, false, Send(c, 0, true));
    var a1 := a + [(false, Send(c, 0, true))];
    RunStep(a1, true, Deliver(0, true));
    acts := a1 + [(true, Deliver(0, true))];
  }

  lemma AckAfterLoss(b: Payload, c: Payload) returns (acts: seq<(bool, Act)>)
    ensures Run(acts)
    ensures var s := Reach(acts);
      && |s.l.out| == 1 && s.l.out[0].msg.seqNo == 1 && s.l.out[0].msg.payload == None
      && s.l.items == [b] && s.r.items == [c] && s.r.user == [] && s.r.got == 0 && s.r.e.peerSeq == 0
  {
    var a := AnswerAfterLoss(b, c);
    hide Run, Reach, Acked, Ahead, Ordered, Sent, Fired;
    RunStep(a, true, Ack(true));
    acts := a + [(true, Ack(true))];
  }

  /** It can happen: an item is sent and lost, then the ack of an item of the peer arrives, and the lost item is
      taken as received without ever reaching the user. */
  lemma {:induction false} ItemCanBeLost(b: Payload, c: Payload)
    ensures exists acts :: Run(acts) && Reach(acts).l.items == [b] && Reach(acts).r.items == [c] && Reach(acts).r.got == 1 && Reach(acts).r.user == []
  {
    var a := AckAfterLoss(b, c);
    hide Run, Reach, Do;
    RunStep(a, false, Deliver(0, true));
    DoCounts(Reach(a).r, Reach(a).l, Deliver(0, true));
    assert Run(a + [(false, Deliver(0, true))]);
  }
}
