/** Execution handles shared by several waiters (block/transition.go).

    Callbacks only queue work, so what a waiter sees is the list of the reports it was called with. */
module Transitions {
  import opened Votes

  /** The error of a report; none means success. */
  type Outcome = Option<nat>

  datatype Report = Validated(result: Outcome) | Executed(result: Outcome)

  /** No more reports come after a failed validation or an execution. */
  predicate Last(r: Report) { r.Executed? || r.result.Some? }

  predicate Final(log: seq<Report>) { log != [] && Last(log[|log| - 1]) }

  /** Only the last report is final. */
  predicate WellFormed(log: seq<Report>) { forall i :: 0 <= i < |log| - 1 ==> !Last(log[i]) }

  /** What a handle that joins late is told: the last validation, then the execution. */
  function Summary(log: seq<Report>): seq<Report> {
    if log == [] then []
    else if log[|log| - 1].Validated? then [log[|log| - 1]]
    else Summary(log[..|log| - 1]) + [log[|log| - 1]]
  }

  predicate OneValidation(log: seq<Report>) {
    forall i, j :: 0 <= i < j < |log| ==> !(log[i].Validated? && log[j].Validated?)
  }

  /** With at most one validation, as the transition promises, the summary is the whole log. */
  lemma {:induction false} SummaryIsAll(log: seq<Report>)
    requires WellFormed(log) && OneValidation(log)
    ensures Summary(log) == log
  {
    if log != [] {
      var front := log[..|log| - 1];
      if log[|log| - 1].Executed? {
        SummaryIsAll(front);
        assert log == front + [log[|log| - 1]];
      } else {
        assert front != [] ==> front[0].Executed? && Last(log[0]);
      }
    }
  }

  /** What a waiter who joined after n reports has been told. */
  function View(log: seq<Report>, n: nat): seq<Report>
    requires n <= |log|
  {
    Summary(log[..n]) + log[n..]
  }

  lemma ViewGrows(log: seq<Report>, n: nat, r: Report)
    requires n <= |log|
    ensures View(log + [r], n) == View(log, n) + [r]
  {
    assert (log + [r])[..n] == log[..n] && (log + [r])[n..] == log[n..] + [r];
  }

  lemma ViewNow(log: seq<Report>)
    ensures View(log, |log|) == Summary(log)
  {
    assert log[..|log|] == log;
  }

  /** Transparency: whenever it joined, a waiter has been told exactly what was reported. */
  lemma ViewIsLog(log: seq<Report>, n: nat)
    requires n <= |log| && WellFormed(log) && OneValidation(log)
    ensures View(log, n) == log
  {
    SummaryIsAll(log[..n]);
    assert log == log[..n] + log[n..];
  }

  function LastValidation(log: seq<Report>): Option<Outcome> {
    if log == [] then None
    else if log[|log| - 1].Validated? then Some(log[|log| - 1].result)
    else LastValidation(log[..|log| - 1])
  }

  function LastExecution(log: seq<Report>): Option<Outcome> {
    if log == [] then None
    else if log[|log| - 1].Executed? then Some(log[|log| - 1].result)
    else LastExecution(log[..|log| - 1])
  }

  /** The two remembered results are all a late joiner needs. */
  lemma {:induction false} SummaryFromResults(log: seq<Report>)
    requires WellFormed(log)
    ensures Summary(log) ==
      (if LastValidation(log).Some? then [Validated(LastValidation(log).value)] else [])
      + (if LastExecution(log).Some? then [Executed(LastExecution(log).value)] else [])
    ensures Final(log) <==> LastExecution(log).Some? || (LastValidation(log).Some? && LastValidation(log).value.Some?)
    ensures LastExecution(log).Some? && LastValidation(log).Some? ==> LastValidation(log).value.None?
  {
    if log != [] {
      var front := log[..|log| - 1];
      SummaryFromResults(front);
      if front != [] { assert !Last(log[|front| - 1]); }
    }
  }

  /** One more report. */
  lemma LogGrows(log: seq<Report>, r: Report)
    requires WellFormed(log) && !Final(log)
    ensures WellFormed(log + [r]) && (Final(log + [r]) <==> Last(r))
    ensures LastValidation(log + [r]) == if r.Validated? then Some(r.result) else LastValidation(log)
    ensures LastExecution(log + [r]) == if r.Executed? then Some(r.result) else LastExecution(log)
  {
    assert (log + [r])[..|log|] == log;
  }

  class Transition {
    var ti: TransitionImpl?   // null once disposed
    var cb: bool              // a callback is set and may still be called
    var seen: seq<Report>
    ghost var joined: nat     // reports made before it joined
    ghost const wants: bool   // created with a callback

    constructor (ti: TransitionImpl, cb: bool, ghost joined: nat)
      ensures this.ti == ti && this.cb == cb && wants == cb && seen == [] && this.joined == joined
    {
      this.ti, this.cb, wants, seen, this.joined := ti, cb, cb, [], joined;
    }

    method OnValidate(err: Outcome)
      modifies this`cb, this`seen
      ensures seen == if old(cb) then old(seen) + [Validated(err)] else old(seen)
      ensures cb == (old(cb) && err.None?)
    {
      var call := cb;
      if err.Some? { cb := false; }
      if call { seen := seen + [Validated(err)]; }
    }

    method OnExecute(err: Outcome)
      modifies this`cb, this`seen
      ensures seen == if old(cb) then old(seen) + [Executed(err)] else old(seen)
      ensures !cb
    {
      var call := cb;
      cb := false;
      if call { seen := seen + [Executed(err)]; }
    }
  }

  predicate NoRepeats(cbs: seq<Transition>) { forall i, j :: 0 <= i < j < |cbs| ==> cbs[i] != cbs[j] }

  function Elems(cbs: seq<Transition>): set<Transition> { set t | t in cbs }

  lemma ElemsOne(cbs: seq<Transition>, tr: Transition)
    requires NoRepeats(cbs)
    ensures cbs == [tr] <==> Elems(cbs) == {tr}
  {
    if |cbs| > 1 { assert cbs[0] in Elems(cbs) && cbs[1] in Elems(cbs); }
    if Elems(cbs) == {tr} { assert tr in cbs; }
  }

  lemma OneFewer(s: set<Transition>, t: Transition)
    requires t in s
    ensures |s - {t}| == |s| - 1 && (|s| == 1 <==> s - {t} == {}) && (s == {t} <==> s - {t} == {})
  {
  }

  lemma EmptyElems()
    ensures Elems([]) == {}
  {
  }

  lemma ElemsAdd(cbs: seq<Transition>, tr: Transition)
    requires NoRepeats(cbs) && tr !in Elems(cbs)
    ensures NoRepeats(cbs + [tr]) && Elems(cbs + [tr]) == Elems(cbs) + {tr}
  {
  }

  /** Overwriting an entry with the last one and dropping that takes just this entry out. */
  lemma ElemsDrop(cbs: seq<Transition>, i: nat)
    requires NoRepeats(cbs) && i < |cbs|
    ensures var cut := cbs[i := cbs[|cbs| - 1]][..|cbs| - 1];
      NoRepeats(cut) && Elems(cut) == Elems(cbs) - {cbs[i]}
  {
    var last := |cbs| - 1;
    var cut := cbs[i := cbs[last]][..last];
    forall t | t in cbs && t != cbs[i] ensures t in cut {
      var k :| 0 <= k < |cbs| && cbs[k] == t;
      assert cut[if k == last then i else k] == t;
    }
  }

  class TransitionImpl {
    var cbs: seq<Transition>  // empty iff not running
    var valErr: Option<Outcome>
    var exeErr: Option<Outcome>
    var nRef: int
    var canceled: nat         // how often the canceler ran
    var live: bool            // the service's transition is still held
    ghost var log: seq<Report>
    ghost var handles: set<Transition>

    /** A handle has been told what it should, and will be called for the next report, if any. */
    ghost predicate HandleOk(t: Transition)
      reads this`log, t
    {
      HasSeen(t, log) && t.cb == (t.wants && !Final(log))
    }

    ghost predicate Valid()
      reads this, handles
    {
      && nRef == |handles| && live == (handles != {})
      && (forall t :: t in handles ==> HandleOk(t))
      && NoRepeats(cbs)
      && (if Final(log) then cbs == [] else handles == Elems(cbs))
      && WellFormed(log) && valErr == LastValidation(log) && exeErr == LastExecution(log)
    }

    predicate Running()
      reads this`cbs
    {
      cbs != []
    }

    /** A transition to be executed, with its first waiter. */
    constructor Execute(cb: bool)
      ensures Valid() && log == [] && |handles| == 1 && canceled == 0 && Running()
      ensures fresh(handles)
    {
      nRef, valErr, exeErr, canceled, live, log := 1, None, None, 0, true, [];
      cbs, handles := [], {};
      new;
      var t := new Transition(this, cb, 0);
      cbs := [t];
      handles := {t};
    }

    /** The executed state the node starts from. */
    constructor Initial()
      ensures Valid() && log == [Validated(None), Executed(None)] && |handles| == 1 && canceled == 0 && !Running()
      ensures fresh(handles)
    {
      nRef, valErr, exeErr, canceled, live := 1, Some(None), Some(None), 0, true;
      log := [Validated(None), Executed(None)];
      cbs, handles := [], {};
      new;
      assert log[..1] == [Validated(None)];
      var t := new Transition(this, false, 2);
      handles := {t};
    }

    /** Transparency: each waiter has been told exactly what was reported, in order, once, whenever it joined,
        and is called for the next report if and only if there may be one. */
    lemma Transparent(t: Transition)
      requires Valid() && t in handles && t.wants && OneValidation(log)
      ensures t.seen == log && (t.cb <==> !Final(log)) && (Running() ==> t.cb && t in cbs)
    {
      ViewIsLog(log, t.joined);
    }

    /** A handle, told at once what is known already. */
    method NewHandle(cb: bool) returns (tr: Transition)
      requires WellFormed(log) && valErr == LastValidation(log) && exeErr == LastExecution(log)
      ensures fresh(tr) && HandleOk(tr) && tr.wants == cb
    {
      hide Summary, View, WellFormed, Final, LastValidation, LastExecution;
      SummaryFromResults(log);
      ViewNow(log);
      tr := new Transition(this, cb, |log|);
      if valErr.Some? { tr.OnValidate(valErr.value); }
      if exeErr.Some? { tr.OnExecute(exeErr.value); }
    }

    /** One more handle. */
    method NewTransition(cb: bool) returns (tr: Transition)
      requires Valid()
      requires handles != {} // somebody has a handle to get another one from
      modifies this`nRef, this`cbs, this`handles
      ensures Valid() && fresh(tr) && handles == old(handles) + {tr} && tr.wants == cb && log == old(log)
      ensures Running() <==> old(Running())
    {
      hide View, WellFormed, Final, LastValidation, LastExecution, NoRepeats, Elems;
      assert Running() <==> !Final(log) by { EmptyElems(); }
      tr := NewHandle(cb);
      nRef := nRef + 1;
      if Running() {
        ElemsAdd(cbs, tr);
        cbs := cbs + [tr];
      }
      handles := handles + {tr};
    }

    method OnValidate(err: Outcome)
      requires Valid()
      modifies this`valErr, this`cbs, this`log, handles`cb, handles`seen
      ensures Valid() && handles == old(handles)
      ensures log == if old(Running()) then old(log) + [Validated(err)] else old(log)
    {
      hide View, Summary, WellFormed, Final, LastValidation, LastExecution;
      if !Running() { return; }
      assert forall k :: 0 <= k < |cbs| ==> cbs[k] in handles && HandleOk(cbs[k]);
      valErr := Some(err);
      var waiting := cbs;
      if err.Some? { cbs := []; }
      LogGrows(log, Validated(err));
      Broadcast(waiting, Validated(err), log);
      log := log + [Validated(err)];
    }

    method OnExecute(err: Outcome)
      requires Valid()
      modifies this`exeErr, this`cbs, this`log, handles`cb, handles`seen
      ensures Valid() && handles == old(handles) && !Running()
      ensures log == if old(Running()) then old(log) + [Executed(err)] else old(log)
    {
      hide View, Summary, WellFormed, Final, LastValidation, LastExecution;
      if !Running() { return; }
      assert forall k :: 0 <= k < |cbs| ==> cbs[k] in handles && HandleOk(cbs[k]);
      exeErr := Some(err);
      var waiting := cbs;
      cbs := [];
      LogGrows(log, Executed(err));
      Broadcast(waiting, Executed(err), log);
      log := log + [Executed(err)];
    }

    /** Calls every waiter with the report. */
    method Broadcast(waiting: seq<Transition>, r: Report, ghost was: seq<Report>)
      requires forall i, j :: 0 <= i < j < |waiting| ==> waiting[i] != waiting[j]
      requires forall k :: 0 <= k < |waiting| ==> HasSeen(waiting[k], was) && waiting[k].cb == waiting[k].wants
      modifies (set t | t in waiting)`cb, (set t | t in waiting)`seen
      ensures forall k :: 0 <= k < |waiting| ==> HasSeen(waiting[k], was + [r]) && waiting[k].cb == (waiting[k].wants && !Last(r))
    {
      hide View;
      for i := 0 to |waiting|
        invariant forall k :: 0 <= k < i ==> HasSeen(waiting[k], was + [r]) && waiting[k].cb == (waiting[k].wants && !Last(r))
        invariant forall k :: i <= k < |waiting| ==> HasSeen(waiting[k], was) && waiting[k].cb == waiting[k].wants
      {
        ViewGrows(was, waiting[i].joined, r);
        if r.Validated? {
          waiting[i].OnValidate(r.result);
        } else {
          waiting[i].OnExecute(r.result);
        }
      }
    }

    ghost predicate HasSeen(t: Transition, log: seq<Report>)
      reads t`ti, t`joined, t`seen
    {
      t.ti == this && t.joined <= |log| && t.seen == if t.wants then View(log, t.joined) else []
    }

    /** Takes a waiter out; the canceler runs when the last one leaves. */
    method Cancel(tr: Transition) returns (res: bool)
      requires NoRepeats(cbs)
      modifies this`cbs, this`canceled
      ensures res <==> tr in old(cbs)
      ensures NoRepeats(cbs) && Elems(cbs) == Elems(old(cbs)) - {tr}
      ensures old(cbs) == [] ==> cbs == []
      ensures canceled == old(canceled) + if Elems(old(cbs)) == {tr} then 1 else 0
    {
      if !Running() { return false; }
      ElemsOne(cbs, tr);
      for i := 0 to |cbs|
        invariant cbs == old(cbs) && canceled == old(canceled)
        invariant forall k :: 0 <= k < i ==> cbs[k] != tr
      {
        if cbs[i] == tr {
          ElemsDrop(cbs, i);
          var last := |cbs| - 1;
          cbs := cbs[i := cbs[last]][..last];
          if |cbs| == 0 { canceled := canceled + 1; }
          return true;
        }
      }
      return false;
    }

    /** Gives a handle back. A running transition is canceled if this was the last one. */
    method Dispose(tr: Transition)
      requires Valid() && (tr.ti == this ==> tr in handles) && (tr.ti != this ==> tr.ti == null)
      modifies this`cbs, this`nRef, this`live, this`handles, this`canceled, tr`ti, tr`cb
      ensures Valid() && log == old(log) && tr.ti == null && tr.seen == old(tr.seen)
      ensures handles == old(handles) - {tr}
      ensures canceled == old(canceled) + if old(Running()) && old(handles) == {tr} then 1 else 0
      ensures old(tr.ti) == this ==> !tr.cb
    {
      if tr.ti == null {
        assert tr !in handles;
      } else {
        Release(tr);
      }
    }

    method Release(tr: Transition)
      requires Valid() && tr in handles
      modifies this`cbs, this`nRef, this`live, this`handles, this`canceled, tr`ti, tr`cb
      ensures Valid() && tr.ti == null && !tr.cb && handles == old(handles) - {tr}
      ensures canceled == old(canceled) + if old(Running()) && old(handles) == {tr} then 1 else 0
    {
      hide View, WellFormed, Final, LastValidation, LastExecution, NoRepeats, Elems, HasSeen;
      EmptyElems();
      OneFewer(handles, tr);
      ghost var rest := handles - {tr};
      var _ := Cancel(tr);
      tr.cb := false;
      tr.ti := null;
      nRef := nRef - 1;
      if nRef == 0 { live := false; }
      handles := rest;
    }
  }
}
