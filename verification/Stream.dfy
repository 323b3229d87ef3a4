/** Sequenced streams (network/stream.go): one endpoint, as values and as the object that updates them.

    Sequence numbers are 16 bits wide and wrap. A timer that is armed fires whenever the environment likes. A post
    that fails, other than the first post of a new item, is a lost message, and does not cancel the ack timer. */
module Streams {
  import opened Votes

  type Payload = nat
  type Seq16 = n: nat | n < 0x1_0000

  const M: nat := 0x1_0000
  const PEER_ACK_TIMEOUT: int := 1000

  function Inc(n: Seq16): Seq16 { (n + 1) % M }

  datatype Msg = Msg(seqNo: Seq16, ack: Seq16, payload: Option<Payload>)

  datatype SendItem = SendItem(payload: Payload, t: int)

  /** The timer of the delayed ack. One that has fired in vain stays set, and fires no more. */
  datatype AckTimer = Off | Armed | Spent

  /** `timer` is what the repost timer has captured: sequence number and payload. */
  datatype Endpoint = Endpoint(
    seqNo: Seq16, peerAck: Seq16, timedout: bool, timer: Option<(Seq16, Payload)>,
    unacked: seq<SendItem>, peerSeq: Seq16, ackTimer: AckTimer)

  function NewEndpoint(): Endpoint { Endpoint(0, 0, false, None, [], 0, Off) }

  /** Messages were posted; if one of them got out, the delayed ack is not needed any more. */
  function Posted(e: Endpoint, ms: seq<Msg>, posted: bool): Endpoint {
    if posted && ms != [] then e.(ackTimer := Off) else e
  }

  function ArmedFor(peerAck: Seq16, unacked: seq<SendItem>): Option<(Seq16, Payload)> {
    if unacked == [] then None else Some((Inc(peerAck), unacked[0].payload))
  }

  function AckMsg(e: Endpoint): Msg { Msg(e.seqNo, e.peerSeq, None) }

  /** Whether the ack number, unwrapped, lies in the window after peerAck; if so by how much. */
  function Ahead(e: Endpoint, ack: Seq16): nat {
    var a := if ack < e.peerAck then ack + M else ack;
    if e.peerAck < a <= e.peerAck + |e.unacked| then a - e.peerAck else 0
  }

  lemma AheadIs(e: Endpoint, ack: Seq16)
    ensures var d := (ack - e.peerAck) % M; Ahead(e, ack) == if 0 < d <= |e.unacked| then d else 0
  {
  }

  predicate Due(it: SendItem, now: int, timedout: bool) { now >= it.t || timedout }

  /** Retransmissions of the items due, the first of them numbered `first`. */
  function Reposts(items: seq<SendItem>, peerAck: Seq16, peerSeq: Seq16, now: int, timedout: bool): seq<Msg> {
    if items == [] then []
    else
      var i := |items| - 1;
      Reposts(items[..i], peerAck, peerSeq, now, timedout)
      + if Due(items[i], now, timedout) then [Msg((peerAck + i + 1) % M, peerSeq, Some(items[i].payload))] else []
  }

  function Retimed(items: seq<SendItem>, now: int, timedout: bool): (r: seq<SendItem>)
    ensures |r| == |items|
    ensures forall i :: 0 <= i < |items| ==> r[i].payload == items[i].payload
  {
    seq(|items|, i requires 0 <= i < |items| =>
      if Due(items[i], now, timedout) then items[i].(t := now + PEER_ACK_TIMEOUT) else items[i])
  }

  /** Which of the first n items are late, or were already being reposted. */
  ghost function Late(items: seq<SendItem>, now: int, timedout: bool, n: nat): set<nat>
    requires n <= |items|
  {
    set i: nat | i < n && (now >= items[i].t || timedout)
  }

  lemma LateMore(items: seq<SendItem>, now: int, timedout: bool, n: nat)
    requires n < |items|
    ensures |Late(items, now, timedout, n + 1)| ==
      |Late(items, now, timedout, n)| + if now >= items[n].t || timedout then 1 else 0
  {
    var a, b := Late(items, now, timedout, n), Late(items, now, timedout, n + 1);
    assert b == if now >= items[n].t || timedout then a + {n} else a;
  }

  lemma LateFront(items: seq<SendItem>, now: int, timedout: bool, n: nat, k: nat)
    requires k <= n <= |items|
    ensures Late(items[..n], now, timedout, k) == Late(items, now, timedout, k) && Late(items, now, timedout, 0) == {}
  {
  }

  /** These are the late items and no others, each once and in order, with the numbers after peerAck. */
  ghost predicate Retransmits(ms: seq<Msg>, items: seq<SendItem>, peerAck: Seq16, peerSeq: Seq16, now: int, timedout: bool) {
    && |ms| == |Late(items, now, timedout, |items|)|
    && forall i: nat :: i < |items| && (now >= items[i].t || timedout) ==>
         var place := |Late(items, now, timedout, i)|;
         place < |ms| && ms[place] == Msg((peerAck + i + 1) % M, peerSeq, Some(items[i].payload))
  }

  lemma {:induction false} RepostsAre(items: seq<SendItem>, peerAck: Seq16, peerSeq: Seq16, now: int, timedout: bool)
    ensures Retransmits(Reposts(items, peerAck, peerSeq, now, timedout), items, peerAck, peerSeq, now, timedout)
  {
    hide Late;
    LateFront(items, now, timedout, 0, 0);
    if items != [] {
      var n := |items| - 1;
      var front := items[..n];
      RepostsAre(front, peerAck, peerSeq, now, timedout);
      forall k: nat | k <= n ensures Late(front, now, timedout, k) == Late(items, now, timedout, k) {
        LateFront(items, now, timedout, n, k);
      }
      LateMore(items, now, timedout, n);
    }
  }

  /** Sending: refused if the window is full; while timed out, new items wait. */
  function Sent(e: Endpoint, b: Payload, now: int, posted: bool): (r: (Endpoint, bool, seq<Msg>)) {
    if Inc(e.seqNo) == e.peerAck || (!e.timedout && !posted) then (e, false, [])
    else
      var items := e.unacked + [SendItem(b, now + PEER_ACK_TIMEOUT)];
      (e.(seqNo := Inc(e.seqNo), unacked := items, timer := if e.timer.None? then ArmedFor(e.peerAck, items) else e.timer,
          ackTimer := if e.timedout then e.ackTimer else Off),
       true,
       if e.timedout then [] else [Msg(Inc(e.seqNo), e.peerSeq, Some(b))])
  }

  /** Receiving the sequence number of a message: accepted if it is the next one, which calls for an ack later;
      otherwise a payload is answered by an ack. */
  function Ordered(e: Endpoint, m: Msg): (r: (Endpoint, bool, seq<Msg>)) {
    if m.seqNo == Inc(e.peerSeq) then (e.(peerSeq := Inc(e.peerSeq), ackTimer := if e.ackTimer.Off? then Armed else e.ackTimer), true, [])
    else (e, false, if m.payload.Some? then [AckMsg(e)] else [])
  }

  /** Receiving the ack number of a message: drops what it acknowledges, retransmits what is due. */
  function Acked(e: Endpoint, ack: Seq16, now: int): (r: (Endpoint, seq<Msg>)) {
    var d := Ahead(e, ack);
    if d == 0 then (e, [])
    else
      var rest := e.unacked[d..];
      (e.(peerAck := ack, timedout := false, unacked := Retimed(rest, now, e.timedout),
          timer := ArmedFor(ack, rest)),
       Reposts(rest, ack, e.peerSeq, now, e.timedout))
  }

  /** An ack number 1 to |unacked| past the last one, around the circle, drops the items up to it and ends the timeout; of
      the others the late ones, all of them after a timeout, are retransmitted and get a new deadline. Any other ack
      number changes nothing. */
  lemma {:induction false} AckMoves(e: Endpoint, ack: Seq16, now: int)
    ensures var d, r := (ack - e.peerAck) % M, Acked(e, ack, now);
      if 0 < d <= |e.unacked| then
        var rest := e.unacked[d..];
        && Retransmits(r.1, rest, ack, e.peerSeq, now, e.timedout) && |r.0.unacked| == |rest|
        && (forall i :: 0 <= i < |rest| ==>
              r.0.unacked[i] == SendItem(rest[i].payload, if now >= rest[i].t || e.timedout then now + PEER_ACK_TIMEOUT else rest[i].t))
        && r.0.timer == (if rest == [] then None else Some(((ack + 1) % M, rest[0].payload)))
        && r.0 == e.(peerAck := ack, timedout := false, unacked := r.0.unacked, timer := r.0.timer)
      else r == (e, [])
  {
    hide Reposts, Retransmits, Ahead;
    AheadIs(e, ack);
    var d := Ahead(e, ack);
    if d > 0 { RepostsAre(e.unacked[d..], ack, e.peerSeq, now, e.timedout); }
  }

  lemma AckedPosted(e: Endpoint, ms: seq<Msg>, posted: bool, ack: Seq16, now: int)
    ensures Acked(Posted(e, ms, posted), ack, now) == (Posted(Acked(e, ack, now).0, ms, posted), Acked(e, ack, now).1)
  {}

  /** `posted` says whether any of the messages posted got out. */
  function Received(e: Endpoint, m: Msg, now: int, posted: bool): (r: (Endpoint, bool, seq<Msg>)) {
    var o := Ordered(e, m);
    var a := Acked(o.0, m.ack, now);
    (Posted(a.0, o.2 + a.1, posted), o.1, o.2 + a.1)
  }

  /** The repost timer fires: the captured message goes out again. */
  function Fired(e: Endpoint, now: int): (r: (Endpoint, seq<Msg>))
    requires e.timer.Some? && e.unacked != []
  {
    var items := e.unacked[0 := e.unacked[0].(t := now + PEER_ACK_TIMEOUT)];
    (e.(timedout := true, unacked := items, timer := ArmedFor(e.peerAck, items)),
     [Msg(e.timer.value.0, e.peerSeq, Some(e.timer.value.1))])
  }

  /** The ack timer fires. */
  function AckFired(e: Endpoint, posted: bool): Endpoint { e.(ackTimer := if posted then Off else Spent) }

  /** The timer is armed exactly while something is unacknowledged. */
  predicate TimerOk(e: Endpoint) { e.timer == ArmedFor(e.peerAck, e.unacked) }

  class Stream {
    var seqNo: Seq16
    var peerAck: Seq16
    var timedout: bool
    var repostTimer: Option<(Seq16, Payload)>
    var unackedItems: seq<SendItem>
    var peerSeq: Seq16
    var ackPostTimer: AckTimer
    var outbox: seq<Msg>

    function Value(): Endpoint
      reads this
    {
      Endpoint(seqNo, peerAck, timedout, repostTimer, unackedItems, peerSeq, ackPostTimer)
    }

    constructor ()
      ensures Value() == NewEndpoint() && outbox == []
    {
      seqNo, peerAck, timedout, repostTimer, unackedItems, peerSeq, ackPostTimer, outbox := 0, 0, false, None, [], 0, Off, [];
    }

    method PostMessage(m: Msg, posted: bool)
      modifies this`outbox, this`ackPostTimer
      ensures outbox == old(outbox) + [m] && ackPostTimer == if posted then Off else old(ackPostTimer)
    {
      outbox := outbox + [m];
      if posted { ackPostTimer := Off; }
    }

    method PostAnother(m: Msg) returns (posted: bool)
      modifies this`outbox, this`ackPostTimer
      ensures outbox == old(outbox) + [m] && ackPostTimer == if posted then Off else old(ackPostTimer)
    {
      posted := *;
      PostMessage(m, posted);
    }

    method UpdateRepostTimer()
      modifies this`repostTimer
      ensures repostTimer == ArmedFor(peerAck, unackedItems)
    {
      if |unackedItems| == 0 {
        repostTimer := None;
        return;
      }
      repostTimer := Some(((peerAck + 1) % M, unackedItems[0].payload));
    }

    method Send(b: Payload, now: int, posted: bool) returns (ok: bool)
      modifies this
      ensures var r := Sent(old(Value()), b, now, posted);
        Value() == r.0 && ok == r.1 && outbox == old(outbox) + r.2
      ensures ok <==> (old(seqNo) + 1) % M != old(peerAck) && (old(timedout) || posted)
      ensures (peerAck, timedout, peerSeq) == old((peerAck, timedout, peerSeq)) && (!ok ==> Value() == old(Value()) && outbox == old(outbox))
      ensures ok ==> seqNo == (old(seqNo) + 1) % M && unackedItems == old(unackedItems) + [SendItem(b, now + PEER_ACK_TIMEOUT)]
      ensures ok ==> outbox == old(outbox) + if timedout then [] else [Msg(seqNo, peerSeq, Some(b))]
      ensures ok ==> ackPostTimer == (if timedout then old(ackPostTimer) else Off)
      ensures ok ==> repostTimer == if old(repostTimer).Some? then old(repostTimer) else Some(((peerAck + 1) % M, unackedItems[0].payload))
    {
      var nextSeq: Seq16 := (seqNo + 1) % M;
      if nextSeq == peerAck { return false; }
      if !timedout {
        if !posted { return false; }
        PostMessage(Msg(nextSeq, peerSeq, Some(b)), true);
      }
      seqNo := nextSeq;
      unackedItems := unackedItems + [SendItem(b, now + PEER_ACK_TIMEOUT)];
      if repostTimer.None? { UpdateRepostTimer(); }
      return true;
    }

    method Receive(m: Msg, now: int) returns (accepted: bool, posted: bool)
      modifies this
      ensures var r := Received(old(Value()), m, now, posted);
        Value() == r.0 && accepted == r.1 && outbox == old(outbox) + r.2
    {
      hide Acked, Ordered;
      ghost var o := Ordered(Value(), m);
      var answered;
      accepted, answered := ReceiveSeq(m);
      AckedPosted(o.0, o.2, answered, m.ack, now);
      posted := ReceiveAck(m.ack, now);
      posted := posted || answered;
    }

    method ReceiveSeq(m: Msg) returns (accepted: bool, posted: bool)
      modifies this`peerSeq, this`outbox, this`ackPostTimer
      ensures var r := Ordered(old(Value()), m);
        Value() == Posted(r.0, r.2, posted) && accepted == r.1 && outbox == old(outbox) + r.2 && (posted ==> r.2 != [])
      ensures accepted <==> m.seqNo == (old(peerSeq) + 1) % M
      ensures peerSeq == if accepted then m.seqNo else old(peerSeq)
      ensures outbox == old(outbox) + if !accepted && m.payload.Some? then [Msg(seqNo, peerSeq, None)] else []
      ensures accepted ==> !posted && ackPostTimer == (if old(ackPostTimer).Off? then Armed else old(ackPostTimer))
      ensures !accepted ==> ackPostTimer == (if posted then Off else old(ackPostTimer)) && (posted ==> m.payload.Some?)
    {
      posted := false;
      if m.seqNo == (peerSeq + 1) % M {
        peerSeq := (peerSeq + 1) % M;
        if ackPostTimer.Off? { ackPostTimer := Armed; }
        return true, false;
      }
      if m.payload.Some? { posted := PostAnother(Msg(seqNo, peerSeq, None)); }
      return false, posted;
    }

    method ReceiveAck(ack16: Seq16, now: int) returns (posted: bool)
      modifies this`peerAck, this`unackedItems, this`timedout, this`repostTimer, this`outbox, this`ackPostTimer
      ensures var r := Acked(old(Value()), ack16, now);
        Value() == Posted(r.0, r.1, posted) && outbox == old(outbox) + r.1 && (posted ==> r.1 != [])
      ensures peerAck == if 0 < (ack16 - old(peerAck)) % M <= |old(unackedItems)| then ack16 else old(peerAck)
    {
      hide Reposts, Retransmits, Retimed;
      AheadIs(Value(), ack16);
      // unwrap, as sequence and ack numbers can wrap
      posted := false;
      var base: nat := peerAck;
      var last: nat := base + |unackedItems|;
      var ack: nat := ack16;
      if ack < base { ack := ack + 0x1_0000; }
      if base < ack <= last {
        var rest := unackedItems[ack - base..];
        peerAck := ack16;
        var items;
        items, posted := RepostDue(rest, now);
        unackedItems := items;
        timedout := false;
        UpdateRepostTimer();
      }
    }

    /** Retransmits the items due and sets their new deadline. */
    method RepostDue(rest: seq<SendItem>, now: int) returns (items: seq<SendItem>, posted: bool)
      modifies this`outbox, this`ackPostTimer
      ensures items == Retimed(rest, now, timedout)
      ensures forall i :: 0 <= i < |rest| ==>
        items[i] == SendItem(rest[i].payload, if now >= rest[i].t || timedout then now + PEER_ACK_TIMEOUT else rest[i].t)
      ensures |outbox| >= |old(outbox)| && outbox[..|old(outbox)|] == old(outbox)
      ensures Retransmits(outbox[|old(outbox)|..], rest, peerAck, peerSeq, now, timedout)
      ensures outbox == old(outbox) + Reposts(rest, peerAck, peerSeq, now, timedout)
      ensures ackPostTimer == (if posted then Off else old(ackPostTimer))
      ensures posted ==> Reposts(rest, peerAck, peerSeq, now, timedout) != []
    {
      items, posted := rest, false;
      for i := 0 to |rest|
        invariant |items| == |rest| && items[i..] == rest[i..]
        invariant items[..i] == Retimed(rest[..i], now, timedout)
        invariant outbox == old(outbox) + Reposts(rest[..i], peerAck, peerSeq, now, timedout)
        invariant ackPostTimer == (if posted then Off else old(ackPostTimer))
        invariant posted ==> Reposts(rest[..i], peerAck, peerSeq, now, timedout) != []
      {
        assert rest[..i + 1][..i] == rest[..i];
        assert items[i] == rest[i];
        if now >= items[i].t || timedout {
          var ok := PostAnother(Msg((peerAck + i + 1) % M, peerSeq, Some(items[i].payload)));
          posted := posted || ok;
          items := items[i := items[i].(t := now + PEER_ACK_TIMEOUT)];
        }
      }
      assert rest[..|rest|] == rest && items[..|items|] == items;
      RepostsAre(rest, peerAck, peerSeq, now, timedout);
    }

    method OnRepostTimer(now: int) returns (posted: bool)
      requires repostTimer.Some? && unackedItems != []
      modifies this
      ensures var r := Fired(old(Value()), now);
        Value() == Posted(r.0, r.1, posted) && outbox == old(outbox) + r.1
      ensures timedout && outbox == old(outbox) + [Msg(old(repostTimer).value.0, peerSeq, Some(old(repostTimer).value.1))]
      ensures unackedItems == old(unackedItems)[0 := SendItem(old(unackedItems)[0].payload, now + PEER_ACK_TIMEOUT)]
      ensures repostTimer == Some(((peerAck + 1) % M, unackedItems[0].payload))
      ensures (seqNo, peerAck, peerSeq) == old((seqNo, peerAck, peerSeq)) && ackPostTimer == (if posted then Off else old(ackPostTimer))
    {
      timedout := true;
      posted := PostAnother(Msg(repostTimer.value.0, peerSeq, Some(repostTimer.value.1)));
      unackedItems := unackedItems[0 := unackedItems[0].(t := now + PEER_ACK_TIMEOUT)];
      UpdateRepostTimer();
    }

    method OnAckTimer() returns (posted: bool)
      requires ackPostTimer.Armed?
      modifies this`outbox, this`ackPostTimer
      ensures Value() == AckFired(old(Value()), posted) && outbox == old(outbox) + [AckMsg(old(Value()))]
      ensures outbox == old(outbox) + [Msg(seqNo, peerSeq, None)] && ackPostTimer == if posted then Off else Spent
    {
      posted := PostAnother(Msg(seqNo, peerSeq, None));
      if !posted { ackPostTimer := Spent; }
    }
  }
}
