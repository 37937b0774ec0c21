/** What init and release mean for everything after them. */
module SystemLifecycle {
  import opened Basics
  import opened Occurrences
  import opened Protocol
  import opened PendingOps
  import T = Tracker
  import A = Adapter
  import opened UrilSystem
  import opened SystemInvariant
  import opened SystemCarried
  import opened SystemSafety
  import opened SystemGuarantees

  predicate NoInit(ls: seq<Label>) {
    forall l | l in ls :: !l.Init?
  }

  predicate NoInitOrRelease(ls: seq<Label>) {
    forall l | l in ls :: !l.Init? && !l.Release?
  }

  /** A call that is refused before it gets an id. */
  ghost predicate AllRefused(s: Sys) {
    forall t: nat, hndl: nat, call: Call :: BeginStep(s, t, hndl, call) == s
  }

  // ---- release ----

  lemma CallbacksStay(vendor: A.Completer, s: Sys, l: Label, s': Sys)
    requires s' == Step(vendor, s, l) && !l.Init? && !l.Release?
    ensures s'.client.indCb == s.client.indCb && s'.client.defaultCb == s.client.defaultCb
    ensures s'.client.initialized == s.client.initialized && s'.client.handle == s.client.handle
    ensures s'.handles == s.handles
    ensures s.client.indCb.None? ==> s'.indCalls == s.indCalls
  {
    if OfThread(l) {
      ThreadStepKeepsCallbacks(vendor, s, l, s');
    } else if OfService(l) {
      ServiceStaysOut(vendor, s, l, s');
      ServiceMakesNoCalls(vendor, s, l, s');
    } else {
      ReceiveKeepsCallbacks(s, l.k, s');
    }
  }

  lemma ThreadStepKeepsCallbacks(vendor: A.Completer, s: Sys, l: Label, s': Sys)
    requires s' == Step(vendor, s, l) && OfThread(l)
    ensures s'.client.indCb == s.client.indCb && s'.client.defaultCb == s.client.defaultCb
    ensures s'.client.initialized == s.client.initialized && s'.client.handle == s.client.handle
    ensures s'.handles == s.handles && s'.indCalls == s.indCalls
  {}

  lemma ServiceMakesNoCalls(vendor: A.Completer, s: Sys, l: Label, s': Sys)
    requires s' == Step(vendor, s, l) && OfService(l)
    ensures s'.indCalls == s.indCalls
  {}

  lemma ReceiveKeepsCallbacks(s: Sys, k: nat, s': Sys)
    requires s' == ReceiveStep(s, k)
    ensures s'.client.indCb == s.client.indCb && s'.client.defaultCb == s.client.defaultCb
    ensures s'.client.initialized == s.client.initialized && s'.client.handle == s.client.handle
    ensures s'.handles == s.handles
    ensures s.client.indCb.None? ==> s'.indCalls == s.indCalls
  {}

  lemma {:induction false} StaysShut(vendor: A.Completer, s: Sys, ls: seq<Label>)
    requires !s.client.initialized && NoInit(ls)
    ensures !Run(vendor, s, ls).client.initialized
    ensures s.client.indCb.None? ==> Run(vendor, s, ls).client.indCb.None? && Run(vendor, s, ls).indCalls == s.indCalls
    decreases |ls|
  {
    if ls != [] {
      var s' := Step(vendor, s, ls[0]);
      if ls[0].Release? {
        assert s' == s;
      } else {
        assert ls[0] in ls;
        CallbacksStay(vendor, s, ls[0], s');
      }
      StaysShut(vendor, s', ls[1..]);
    }
  }

  /** After a release, and until the next init: every call is refused, whoever makes it and with whatever
      handle, and another release does nothing. If there was a context to release, no indication is called
      back either; a failed init before it would have left a callback. */
  lemma ReleaseShuts(vendor: A.Completer, s: Sys, ls: seq<Label>, end: Sys)
    requires NoInit(ls) && end == Run(vendor, Step(vendor, s, Release), ls)
    ensures AllRefused(end)
    ensures s.client.initialized ==> end.indCalls == s.indCalls
    ensures ReleaseStep(end) == end
  {
    var s' := Step(vendor, s, Release);
    StaysShut(vendor, s', ls);
  }

  /** The release itself leaves the table, the counters and everything on its way alone. */
  lemma ReleaseLeavesTable(s: Sys)
    ensures var s' := ReleaseStep(s);
            && s'.client.slots == s.client.slots && s'.client.lastId == s.client.lastId
            && s'.client.lastHandle == s.client.lastHandle && s'.client.handle == s.client.handle
            && s' == s.(client := s'.client)
  {}

  // ---- init ----

  /** What a successful init opens. */
  lemma InitOpens(s: Sys, indCb: Option<Callback>, defaultCb: Option<Callback>, s': Sys, t: nat, call: Call)
    requires AllIdle(s.threads) && s.client.lastHandle + 1 < UINT32
    requires s' == InitStep(s, indCb, defaultCb, true) && t < |s.threads|
    ensures s'.client.initialized && s'.client.indCb == indCb && s'.client.defaultCb == defaultCb
    ensures s'.client.handle == s.client.lastHandle + 1 && s'.handles == s.handles + [s'.client.handle]
    ensures |s'.client.slots| == 16
    ensures forall i: nat | i < 16 :: !s'.client.slots[i].busy && s'.client.slots[i].uniqueId == 0
    ensures s'.client.lastId == s.client.lastId && s'.conn == s.conn + 1
    ensures BeginStep(s', t, s'.client.handle, call).threads[t].HasId?
  {}

  /** A failed init shuts, until the next one. */
  lemma FailedInitShuts(vendor: A.Completer, s: Sys, indCb: Option<Callback>, defaultCb: Option<Callback>,
                        ls: seq<Label>, end: Sys)
    requires AllIdle(s.threads) && NoInit(ls)
    requires end == Run(vendor, InitStep(s, indCb, defaultCb, false), ls)
    ensures AllRefused(end)
  {
    StaysShut(vendor, InitStep(s, indCb, defaultCb, false), ls);
  }

  lemma {:induction false} ContextStays(vendor: A.Completer, s: Sys, ls: seq<Label>)
    requires NoInitOrRelease(ls)
    ensures var end := Run(vendor, s, ls);
            && end.client.indCb == s.client.indCb && end.client.defaultCb == s.client.defaultCb
            && end.client.initialized == s.client.initialized && end.client.handle == s.client.handle
            && end.handles == s.handles
    decreases |ls|
  {
    if ls != [] {
      assert ls[0] in ls;
      CallbacksStay(vendor, s, ls[0], Step(vendor, s, ls[0]));
      ContextStays(vendor, Step(vendor, s, ls[0]), ls[1..]);
    }
  }

  /** Until the next init or release, every indication that is received calls the init's callback, and an idle
      thread's call with the init's handle is accepted. */
  lemma OpenContextServes(vendor: A.Completer, s: Sys, indCb: Option<Callback>, defaultCb: Option<Callback>,
                          begun: Sys, ls: seq<Label>, end: Sys, k: nat, t: nat, call: Call)
    requires AllIdle(s.threads) && s.client.lastHandle + 1 < UINT32 && NoInitOrRelease(ls)
    requires begun == InitStep(s, indCb, defaultCb, true) && end == Run(vendor, begun, ls)
    ensures k < |end.resps| && end.resps[k].1.isIndication ==>
              ReceiveStep(end, k).indCalls == end.indCalls + if indCb.Some? then [indCb.value] else []
    ensures t < |end.threads| && end.threads[t].Idle? ==>
              && BeginStep(end, t, s.client.lastHandle + 1, call).threads[t].HasId?
              && BeginStep(end, t, s.client.lastHandle + 1, call).issued == end.issued + 1
    ensures end.client.defaultCb == defaultCb
  {
    ContextStays(vendor, begun, ls);
    OpenNow(end, indCb, s.client.lastHandle + 1, k, t, call);
  }

  lemma OpenNow(s: Sys, indCb: Option<Callback>, hndl: nat, k: nat, t: nat, call: Call)
    requires s.client.initialized && s.client.indCb == indCb && s.client.handle == hndl
    ensures k < |s.resps| && s.resps[k].1.isIndication ==>
              ReceiveStep(s, k).indCalls == s.indCalls + if indCb.Some? then [indCb.value] else []
    ensures t < |s.threads| && s.threads[t].Idle? ==>
              BeginStep(s, t, hndl, call).threads[t].HasId? && BeginStep(s, t, hndl, call).issued == s.issued + 1
  {}
}
