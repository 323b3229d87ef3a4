/** When a stream loses items: never on channels that lose nothing, if no side sends while its peer is silent. */
module StreamLoss {
  import opened Votes
  import opened Streams
  import opened StreamNet

  /** The channel loses nothing and nothing is sent while the repost timer has fired without an answer. */
  ghost predicate Careful(x: Side, a: Act) {
    match a
    case Lose(_) => false
    case Send(_, _, _) => !x.e.timedout
    case _ => true
  }

  ghost predicate CarefulRun(acts: seq<(bool, Act)>)
    requires Run(acts)
  {
    acts == [] ||
    (var front, a := acts[..|acts| - 1], acts[|acts| - 1];
     CarefulRun(front) && Careful(if a.0 then Reach(front).l else Reach(front).r, a.1))
  }

  /** Item n is among the first j messages of a channel. */
  ghost predicate Carries(out: seq<Tagged>, n: nat, j: nat)
    requires j <= |out|
  {
    exists i :: 0 <= i < j && out[i].msg.payload.Some? && out[i].n == n
  }

  /** All items after `got` up to n are among the first j messages. */
  ghost predicate CarriesAll(out: seq<Tagged>, got: nat, n: nat, j: nat)
    requires j <= |out|
  {
    forall k :: got < k <= n ==> Carries(out, k, j)
  }

  /** Every item of x that y has not taken is on its way, and arrives before any message with a number as high. */
  ghost predicate Covered(x: Side, y: Side) {
    && CarriesAll(x.out, y.got, |x.items|, |x.out|)
    && forall j :: 0 <= j < |x.out| ==> CarriesAll(x.out, y.got, x.out[j].n, j + 1)
  }

  lemma CarriesMore(out: seq<Tagged>, got: nat, n: nat, j: nat, out': seq<Tagged>, n': nat, j': nat)
    requires j <= |out| && j <= j' <= |out'| && |out| <= |out'| && out'[..|out|] == out && n' <= n && CarriesAll(out, got, n, j)
    ensures CarriesAll(out', got, n', j')
  {
    forall k | got < k <= n' ensures Carries(out', k, j') {
      assert Carries(out, k, j);
      var i :| 0 <= i < j && out[i].msg.payload.Some? && out[i].n == k;
      assert out'[i] == out[i];
    }
  }

  lemma PostCovered(x: Side, y: Side, ts: seq<Tagged>)
    requires Covered(x, y) && forall i :: 0 <= i < |ts| ==> ts[i].n <= |x.items|
    ensures Covered(x.(out := x.out + ts), y)
  {
    hide CarriesAll;
    var out := x.out + ts;
    assert out[..|x.out|] == x.out;
    CarriesMore(x.out, y.got, |x.items|, |x.out|, out, |x.items|, |out|);
    forall j | 0 <= j < |out| ensures CarriesAll(out, y.got, out[j].n, j + 1) {
      if j < |x.out| {
        assert out[j] == x.out[j];
        CarriesMore(x.out, y.got, x.out[j].n, j + 1, out, out[j].n, j + 1);
      } else {
        assert out[j] == ts[j - |x.out|];
        CarriesMore(x.out, y.got, |x.items|, |x.out|, out, out[j].n, j + 1);
      }
    }
  }

  /** The new item goes out at once. */
  lemma SendCovered(x: Side, y: Side, b: Payload, t: Tagged)
    requires Covered(x, y) && y.got <= |x.items| && t.msg.payload.Some? && t.n == |x.items| + 1
    ensures Covered(x.(items := x.items + [b], out := x.out + [t]), y)
  {
    var out := x.out + [t];
    assert out[..|x.out|] == x.out && out[|x.out|] == t;
    CarriesMore(x.out, y.got, |x.items|, |x.out|, out, |x.items|, |out|);
    assert CarriesAll(out, y.got, |x.items| + 1, |out|) by {
      forall k | y.got < k <= |x.items| + 1 ensures Carries(out, k, |out|) {}
    }
    forall j | 0 <= j < |x.out| ensures CarriesAll(out, y.got, out[j].n, j + 1) {
      assert out[j] == x.out[j];
      CarriesMore(x.out, y.got, x.out[j].n, j + 1, out, out[j].n, j + 1);
    }
  }

  /** The oldest message of a covered channel never skips an item, and what is behind it stays covered. */
  lemma TakeCovered(x: Side, y: Side, got: nat)
    requires Covered(y, x) && y.out != []
    requires got == if y.out[0].n == x.got + 1 then x.got + 1 else x.got
    ensures y.out[0].n <= x.got + 1 && (y.out[0].n == x.got + 1 ==> y.out[0].msg.payload.Some?)
    ensures Covered(y.(out := y.out[1..]), x.(got := got))
  {
    var rest := y.out[1..];
    assert CarriesAll(y.out, x.got, y.out[0].n, 1);
    if y.out[0].n > x.got { assert Carries(y.out, x.got + 1, 1); }
    CarriesLess(y.out, x.got, got, |y.items|, |y.out|);
    forall j | 0 <= j < |rest| ensures CarriesAll(rest, got, rest[j].n, j + 1) {
      assert rest[j] == y.out[j + 1];
      CarriesLess(y.out, x.got, got, y.out[j + 1].n, j + 2);
    }
  }

  lemma CarriesLess(out: seq<Tagged>, got: nat, got': nat, n: nat, j: nat)
    requires 0 < j <= |out| && CarriesAll(out, got, n, j) && got <= got' && out[0].n <= got'
    ensures CarriesAll(out[1..], got', n, j - 1)
  {
    var rest, m := out[1..], j - 1;
    forall k | got' < k <= n ensures Carries(rest, k, m) {
      assert Carries(out, k, j);
      var i :| 0 <= i < j && out[i].msg.payload.Some? && out[i].n == k;
      assert rest[i - 1] == out[i];
    }
  }

  /** What an action other than a loss adds to the own channel. */
  lemma DoAppends(x: Side, y: Side, a: Act)
    requires CanDo(x, y, a) && !a.Lose?
    ensures var p := Do(x, y, a).0; |x.out| <= |p.out| && p.out[..|x.out|] == x.out
  {
    hide Acked, Ahead, Ordered, Sent, Fired, TagAll;
  }

  lemma CoveredDo(x: Side, y: Side, a: Act)
    requires Inv(Net(x, y)) && CanDo(x, y, a) && Careful(x, a) && Covered(x, y) && Covered(y, x)
    ensures var p := Do(x, y, a); Covered(p.0, p.1) && Covered(p.1, p.0)
    ensures a.Deliver? && Ordered(x.e, y.out[0].msg).1 ==> y.out[0].msg.payload.Some?
  {
    DoKeeps(x, y, a);
    DoCounts(x, y, a);
    if a.Send? {
      CoveredSend(x, y, a.b, a.now, a.posted);
    } else {
      CoveredPost(x, y, a);
      if a.Deliver? { CoveredTake(x, y, a.now, a.posted); }
    }
  }

  lemma CoveredSend(x: Side, y: Side, b: Payload, now: int, posted: bool)
    requires Inv(Net(x, y)) && !x.e.timedout && Covered(x, y) && Covered(y, x)
    ensures var p := Do(x, y, Send(b, now, posted)); Covered(p.0, p.1) && Covered(p.1, p.0)
  {
    hide WindowOk, MsgOk, Fresh, Covered, CarriesAll;
    var s := Sent(x.e, b, now, posted);
    if s.1 {
      var x1 := x.(e := s.0, items := x.items + [b]);
      ItemsGrow(x, y, b, now, posted);
      NewestIsFresh(x, b, now, posted);
      var t := Tag(s.2[0], x1);
      SendCovered(x, y, b, t);
      SameCover(x.(items := x.items + [b], out := x.out + [t]), Do(x, y, Send(b, now, posted)).0, y, y);
      SameCover(y, y, x, Do(x, y, Send(b, now, posted)).0);
    } else {
      SameCover(x, Do(x, y, Send(b, now, posted)).0, y, y);
      SameCover(y, y, x, Do(x, y, Send(b, now, posted)).0);
    }
  }

  lemma SameCover(x: Side, x': Side, y: Side, y': Side)
    requires Covered(x, y) && x.items == x'.items && x.out == x'.out && y.got == y'.got
    ensures Covered(x', y')
  {}

  lemma CoveredPost(x: Side, y: Side, a: Act)
    requires Inv(Net(x, y)) && CanDo(x, y, a) && !a.Lose? && !a.Send? && Covered(x, y) && Covered(y, x)
    requires Inv(Net(Do(x, y, a).0, Do(x, y, a).1)) && Do(x, y, a).1.got == y.got
    ensures Covered(Do(x, y, a).0, Do(x, y, a).1)
    ensures !a.Deliver? ==> Covered(Do(x, y, a).1, Do(x, y, a).0)
  {
    hide Do, Covered, Inv, CanDo;
    DoAppends(x, y, a);
    DoCounts(x, y, a);
    var p := Do(x, y, a);
    var ts := p.0.out[|x.out|..];
    assert p.0.out == x.out + ts;
    forall i | 0 <= i < |ts| ensures ts[i].n <= |x.items| { NumberWithin(p.0, p.1, |x.out| + i); }
    PostCovered(x, y, ts);
    SameCover(x.(out := x.out + ts), p.0, y, p.1);
    if !a.Deliver? {
      StillBehind(x, y, a);
      SameCover(y, p.1, x, p.0);
    }
  }

  lemma NumberWithin(x: Side, y: Side, i: nat)
    requires Inv(Net(x, y)) && i < |x.out|
    ensures x.out[i].n <= |x.items|
  {}

  lemma StillBehind(x: Side, y: Side, a: Act)
    requires CanDo(x, y, a) && !a.Deliver?
    ensures Do(x, y, a).1 == y && Do(x, y, a).0.got == x.got
  {
    hide Acked, Ahead, Ordered, Sent, Fired, TagAll;
  }

  lemma CoveredTake(x: Side, y: Side, now: int, posted: bool)
    requires Inv(Net(x, y)) && y.out != [] && Covered(y, x)
    ensures var p := Do(x, y, Deliver(now, posted)); Covered(p.1, p.0)
    ensures Ordered(x.e, y.out[0].msg).1 ==> y.out[0].msg.payload.Some?
  {
    hide Covered, WindowOk, HandedOk, MsgOk, FlowOk;
    PopKeeps(x, y);
    NextAccepted(x, y);
    DoCounts(x, y, Deliver(now, posted));
    var got := if y.out[0].n == x.got + 1 then x.got + 1 else x.got;
    TakeCovered(x, y, got);
    var p := Do(x, y, Deliver(now, posted));
    SameCover(y.(out := y.out[1..]), p.1, x.(got := got), p.0);
  }

  lemma NextAccepted(x: Side, y: Side)
    requires FlowOk(y, x) && y.out != []
    ensures y.out[0].n == x.got + 1 ==> Ordered(x.e, y.out[0].msg).1
  {
    IncIs(x.got);
  }

  lemma {:induction false} CarefulKeeps(acts: seq<(bool, Act)>)
    requires Run(acts) && CarefulRun(acts)
    ensures Covered(Reach(acts).l, Reach(acts).r) && Covered(Reach(acts).r, Reach(acts).l)
    ensures Skips(acts, true) == 0 && Skips(acts, false) == 0
  {
    if acts != [] {
      hide Covered, Inv, Do, Ordered;
      var front, a := acts[..|acts| - 1], acts[|acts| - 1];
      CarefulKeeps(front);
      RunKeeps(front);
      var s := Reach(front);
      Flip(s);
      if a.0 { CoveredDo(s.l, s.r, a.1); } else { CoveredDo(s.r, s.l, a.1); }
    } else {
      assert Covered(NewSide(), NewSide());
    }
  }

  lemma Flip(s: Net)
    requires Inv(s)
    ensures Inv(Net(s.l, s.r)) && Inv(Net(s.r, s.l))
  {}

  /** Over channels that lose nothing, and as long as no side sends while it waits for an answer in vain, each user gets
      every item taken, in order: no item is lost. */
  lemma {:induction false} CarefulIsLossless(acts: seq<(bool, Act)>)
    requires Run(acts) && CarefulRun(acts)
    ensures var s := Reach(acts);
      && s.r.got <= |s.l.items| && s.l.got <= |s.r.items|
      && s.r.user == s.l.items[..s.r.got] && s.l.user == s.r.items[..s.l.got]
  {
    CarefulKeeps(acts);
    LosslessIff(acts);
  }

  // Both conditions are needed: `StreamNet.ItemCanBeLost` breaks the first, the run below the second.

  /** Nothing is lost, and every post gets out. */
  ghost predicate NoLoss(acts: seq<(bool, Act)>) { forall i :: 0 <= i < |acts| ==> !acts[i].1.Lose? && acts[i].1.posted }

  /** After a silent timeout an item is accepted for sending without being posted. */
  lemma Queued(b: Payload, c: Payload) returns (acts: seq<(bool, Act)>)
    ensures Run(acts) && NoLoss(acts) && Reach(acts).r == NewSide()
    ensures var l := Reach(acts).l;
      && l.items == [b, c] && l.e.seqNo == 2 && l.e.peerAck == 0 && l.e.peerSeq == 0 && l.e.ackTimer.Off?
      && |l.out| == 2 && l.out[0].msg == l.out[1].msg == Msg(1, 0, Some(b))
  {
    assert Run([]) && Reach([]) == Net(NewSide(), NewSide());
    hide Run, Reach, Acked, Ahead, Ordered;
    RunStep([], true, Send(b, 0, true));
    var a1 := [] + [(true, Send(b, 0, true))];
    RunStep(a1, true, Repost(0, true));
    var a2 := a1 + [(true, Repost(0, true))];
    RunStep(a2, true, Send(c, 0, true));
    acts := a2 + [(true, Send(c, 0, true))];
  }

  /** The peer sends something, and the ack of that carries the number of the item that waits. */
  lemma QueuedBehindAck(b: Payload, c: Payload, d: Payload) returns (acts: seq<(bool, Act)>)
    ensures Run(acts) && NoLoss(acts) && Reach(acts).r.got == 0 && Reach(acts).r.user == []
    ensures var l := Reach(acts).l;
      && l.items == [b, c] && |l.out| == 3 && l.out[0].msg == l.out[1].msg == Msg(1, 0, Some(b)) && l.out[2].msg == Msg(2, 1, None)
  {
    var a := Queued(b, c);
    hide Run, Reach, Reposts, Retimed;
    RunStep(a, false, Send(d, 0, true));
    var a1 := a + [(false, Send(d, 0, true))];
    RunStep(a1, true, Deliver(0, true));
    var a2 := a1 + [(true, Deliver(0, true))];
    RunStep(a2, true, Ack(true));
    acts := a2 + [(true, Ack(true))];
  }

  /** The right side takes the oldest message of the left one. */
  lemma Takes(acts: seq<(bool, Act)>) returns (more: seq<(bool, Act)>)
    requires Run(acts) && NoLoss(acts) && Reach(acts).l.out != []
    ensures Run(more) && NoLoss(more)
    ensures var s, t := Reach(acts), Reach(more);
      var m, next := s.l.out[0].msg, s.l.out[0].msg.seqNo == (s.r.got + 1) % M;
      && t.l == s.l.(out := s.l.out[1..]) && t.r.got == s.r.got + (if next then 1 else 0)
      && t.r.user == s.r.user + if next && m.payload.Some? then [m.payload.value] else []
  {
    hide Acked, Ahead, Run, Reach;
    var s := Reach(acts);
    RunStep(acts, false, Deliver(0, true));
    more := acts + [(false, Deliver(0, true))];
    RunKeeps(acts);
    SeenIs(s.r, s.l);
    IncIs(s.r.got);
    DoCounts(s.r, s.l, Deliver(0, true));
  }

  /** An item is lost although the channels lose nothing and every post gets out: the first one arrives, twice, and the second one is taken as
      received when the ack with its number arrives. */
  lemma {:induction false} LostWithoutLoss(b: Payload, c: Payload, d: Payload) returns (acts: seq<(bool, Act)>)
    ensures Run(acts) && NoLoss(acts) && Reach(acts).l.items == [b, c] && Reach(acts).r.got == 2 && Reach(acts).r.user == [b]
  {
    hide Run, Reach, NoLoss;
    acts := QueuedBehindAck(b, c, d);
    acts := Takes(acts);
    acts := Takes(acts);
    acts := Takes(acts);
  }
}
