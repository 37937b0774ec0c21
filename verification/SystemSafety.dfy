/** What holds in every state the machine can reach, and over every run. */
module SystemSafety {
  import opened Basics
  import opened Occurrences
  import opened Protocol
  import opened PendingOps
  import T = Tracker
  import A = Adapter
  import opened UrilSystem
  import opened SystemInvariant
  import opened SystemCarried

  // ---- every step, every run ----

  ghost predicate AllCarried(s: Sys) {
    Carried(s) && Genuine(s) && Pipeline(s)
  }

  /** What a step from s must give. A genuine one is no stray response. */
  ghost predicate Keeps(s: Sys, t: Sys, genuine: bool) {
    Inv(t) && Carried(t) && (genuine && AllCarried(s) ==> AllCarried(t))
  }

  lemma ClientKeeps(s: Sys, t: Sys)
    requires Inv(s) && Carried(s) && Inv(t)
    requires ServiceSame(s, t) && s.fired == t.fired && NewAsksOnly(s.asked, t.asked)
    ensures Keeps(s, t, true)
  {
    ClientStepCarries(s, t);
  }

  lemma ServiceKeeps(s: Sys, t: Sys, genuine: bool)
    requires Inv(s) && ServiceStep(s, t) && Carried(t) && (genuine && AllCarried(s) ==> AllCarried(t))
    ensures Keeps(s, t, genuine)
  {
    ServiceStepKeeps(s, t);
  }

  lemma BeginOk(s: Sys, t: nat, hndl: nat, call: Call, s': Sys)
    requires Inv(s) && Carried(s) && s' == BeginStep(s, t, hndl, call) && s'.issued < UINT32
    ensures Keeps(s, s', true)
  {
    BeginKeeps(s, t, hndl, call);
    NewIdIsNotAsked(s, t, hndl, call);
    ClientKeeps(s, s');
  }

  lemma AcquireOk(s: Sys, t: nat, s': Sys)
    requires Inv(s) && Carried(s) && s' == AcquireStep(s, t)
    ensures Keeps(s, s', true)
  {
    if t < |s.threads| && s.threads[t].HasId? {
      var i := FirstFree(s.client.slots);
      if i.None? {
        RefusedKeeps(s, t);
      } else {
        TakeKeeps(s, t, i.value);
      }
    }
    ClientKeeps(s, s');
  }

  lemma WriteOk(s: Sys, t: nat, s': Sys)
    requires Inv(s) && Carried(s) && s' == WriteStep(s, t)
    ensures Keeps(s, s', true)
  {
    WriteKeeps(s, t);
    ClientKeeps(s, s');
  }

  lemma SendOk(s: Sys, t: nat, ok: bool, s': Sys)
    requires Inv(s) && Carried(s) && s' == SendStep(s, t, ok)
    ensures Keeps(s, s', true)
  {
    SendKeeps(s, t, ok);
    SendCarries(s, t, ok);
    SamePipeline(s, s');
  }

  lemma KeepsFrom(s: Sys, t: Sys)
    requires Inv(t) && Carried(t) && (Genuine(s) ==> Genuine(t)) && (Pipeline(s) ==> Pipeline(t))
    ensures Keeps(s, t, true)
  {}

  lemma ReceivePipes(s: Sys, k: nat, s': Sys)
    requires s' == ReceiveStep(s, k)
    ensures Pipeline(s) ==> Pipeline(s')
  {
    SamePipeline(s, s');
  }

  lemma ReceiveOk(s: Sys, k: nat, s': Sys)
    requires Inv(s) && Carried(s) && s' == ReceiveStep(s, k)
    ensures Keeps(s, s', true)
  {
    ReceiveKeeps(s, k);
    ReceiveCarries(s, k);
    ReceivePipes(s, k, s');
    KeepsFrom(s, s');
  }

  lemma InitCarries(s: Sys, indCb: Option<Callback>, defaultCb: Option<Callback>, connected: bool, s': Sys)
    requires Carried(s) && s' == InitStep(s, indCb, defaultCb, connected)
    ensures Carried(s') && (Genuine(s) ==> Genuine(s')) && (Pipeline(s) ==> Pipeline(s'))
  {
    ClientStepCarries(s, s');
  }

  lemma InitOk(s: Sys, indCb: Option<Callback>, defaultCb: Option<Callback>, connected: bool, s': Sys)
    requires Inv(s) && Carried(s) && s' == InitStep(s, indCb, defaultCb, connected)
    ensures Keeps(s, s', true)
  {
    InitKeeps(s, indCb, defaultCb, connected);
    InitCarries(s, indCb, defaultCb, connected, s');
    KeepsFrom(s, s');
  }

  lemma ReleaseOk(s: Sys, s': Sys)
    requires Inv(s) && Carried(s) && s' == ReleaseStep(s)
    ensures Keeps(s, s', true)
  {
    ReleaseKeeps(s);
    ClientKeeps(s, s');
  }

  lemma TrackOk(s: Sys, k: nat, s': Sys)
    requires Inv(s) && Carried(s) && s' == TrackStep(s, k)
    ensures Keeps(s, s', true)
  {
    TrackIsService(s, k);
    TrackCarries(s, k);
    if Pipeline(s) {
      TrackPipes(s, k);
    }
    ServiceKeeps(s, s', true);
  }

  lemma DispatchOk(s: Sys, k: nat, s': Sys)
    requires Inv(s) && Carried(s) && s' == DispatchStep(s, k)
    ensures Keeps(s, s', true)
  {
    DispatchKeeps(s, k);
    ServiceKeeps(s, s', true);
  }

  lemma VendorDoneOk(vendor: A.Completer, s: Sys, k: nat, e: A.RilErrno, data: A.VendorData, ok: bool, s': Sys)
    requires A.Serving(vendor) && Inv(s) && Carried(s) && s' == VendorDoneStep(vendor, s, k, e, data, ok)
    ensures Keeps(s, s', true)
  {
    VendorDoneCarries(vendor, s, k, e, data, ok);
    ServiceKeeps(s, s', true);
  }

  lemma RadioDoneOk(s: Sys, k: nat, state: A.RadioState, ok: bool, s': Sys)
    requires Inv(s) && Carried(s) && s' == RadioDoneStep(s, k, state, ok)
    ensures Keeps(s, s', true)
  {
    RadioDoneCarries(s, k, state, ok);
    ServiceKeeps(s, s', true);
  }

  lemma StrayOk(s: Sys, msg: Msg, ok: bool, s': Sys)
    requires Inv(s) && Carried(s) && s' == StrayStep(s, msg, ok)
    ensures Keeps(s, s', false)
  {
    if s.up && !msg.isIndication {
      RespondIsService(s, msg, ok);
      RespondCarries(s, msg, ok);
      ServiceKeeps(s, s', false);
    }
  }

  lemma IntrudeOk(s: Sys, id: nat, fails: bool, s': Sys)
    requires Inv(s) && Carried(s) && s' == IntrudeStep(s, id, fails)
    ensures Keeps(s, s', false)
  {
    IntrudeIsService(s, id, fails);
    IntrudeCarries(s, id, fails);
    ServiceKeeps(s, s', false);
  }

  lemma IndicateOk(s: Sys, conns: seq<Conn>, msg: Msg, s': Sys)
    requires Inv(s) && Carried(s) && s' == IndicateStep(s, conns, msg)
    ensures Keeps(s, s', true)
  {
    IndicateIsService(s, conns, msg);
    IndicateCarries(s, conns, msg);
    ServiceKeeps(s, s', true);
  }

  predicate OfThread(l: Label) {
    l.Begin? || l.Acquire? || l.Write? || l.Send?
  }

  predicate OfService(l: Label) {
    l.Track? || l.Dispatch? || l.VendorDone? || l.RadioDone? || l.Stray? || l.Intrude? || l.Indicate?
  }

  lemma ThreadLabelKeeps(vendor: A.Completer, s: Sys, l: Label, s': Sys)
    requires Inv(s) && Carried(s) && s' == Step(vendor, s, l) && s'.issued < UINT32 && OfThread(l)
    ensures Keeps(s, s', true)
  {
    match l {
      case Begin(t, hndl, call) => BeginOk(s, t, hndl, call, s');
      case Acquire(t) => AcquireOk(s, t, s');
      case Write(t) => WriteOk(s, t, s');
      case Send(t, ok) => SendOk(s, t, ok, s');
    }
  }

  lemma ServiceLabelKeeps(vendor: A.Completer, s: Sys, l: Label, s': Sys)
    requires A.Serving(vendor) && Inv(s) && Carried(s) && s' == Step(vendor, s, l) && OfService(l)
    ensures Keeps(s, s', !FromOthers(l))
  {
    if l.Track? {
      TrackOk(s, l.k, s');
    } else if l.Dispatch? {
      DispatchOk(s, l.k, s');
    } else if l.VendorDone? {
      VendorDoneOk(vendor, s, l.k, l.e, l.data, l.ok, s');
    } else if l.RadioDone? {
      RadioDoneOk(s, l.k, l.state, l.ok, s');
    } else if l.Stray? {
      StrayOk(s, l.msg, l.ok, s');
    } else if l.Intrude? {
      IntrudeOk(s, l.id, l.fails, s');
    } else {
      IndicateOk(s, l.conns, l.msg, s');
    }
  }

  lemma {:induction false} RunIssues(vendor: A.Completer, s: Sys, ls: seq<Label>)
    ensures s.issued <= Run(vendor, s, ls).issued
    decreases |ls|
  {
    if ls != [] {
      RunIssues(vendor, Step(vendor, s, ls[0]), ls[1..]);
    }
  }

  lemma {:induction false} RunSplits(vendor: A.Completer, s: Sys, ls: seq<Label>, more: seq<Label>)
    ensures Run(vendor, s, ls + more) == Run(vendor, Run(vendor, s, ls), more)
    decreases |ls|
  {
    if ls == [] {
      assert ls + more == more;
    } else {
      assert (ls + more)[1..] == ls[1..] + more;
      RunSplits(vendor, Step(vendor, s, ls[0]), ls[1..], more);
    }
  }

  lemma StepKeeps(vendor: A.Completer, s: Sys, l: Label, s': Sys)
    requires A.Serving(vendor) && Inv(s) && Carried(s) && s' == Step(vendor, s, l) && s'.issued < UINT32
    ensures Keeps(s, s', !FromOthers(l))
  {
    if OfThread(l) {
      ThreadLabelKeeps(vendor, s, l, s');
    } else if l.Receive? {
      ReceiveOk(s, l.k, s');
    } else if l.Init? {
      InitOk(s, l.indCb, l.defaultCb, l.connected, s');
    } else if l.Release? {
      ReleaseOk(s, s');
    } else {
      ServiceLabelKeeps(vendor, s, l, s');
    }
  }

  // ---- inits only between calls ----

  /** A thread that has set its slot set it in the present context. */
  ghost predicate AllCurrent(s: Sys) {
    forall t: nat | t < |s.threads| && s.threads[t].Filled? :: Current(s, s.threads[t].id)
  }

  /** No call was brought through an init. */
  ghost predicate Untouched(s: Sys) {
    s.kept == {} && AllCurrent(s)
  }

  lemma WriteStaysCurrent(s: Sys, t: nat, s': Sys)
    requires Threads(s) && AllCurrent(s) && s' == WriteStep(s, t)
    ensures AllCurrent(s')
  {
    if t < |s.threads| {
      assert PcFits(s, s.threads[t]);
    }
  }

  lemma ThreadStepStaysCurrent(vendor: A.Completer, s: Sys, l: Label, s': Sys)
    requires Threads(s) && AllCurrent(s) && s' == Step(vendor, s, l) && OfThread(l)
    ensures AllCurrent(s') && s'.kept == s.kept
  {
    if l.Write? {
      WriteStaysCurrent(s, l.t, s');
    }
  }

  /** The client's side of a step of the service. */
  predicate ClientLeftAlone(s: Sys, t: Sys) {
    s.client == t.client && s.threads == t.threads && s.base == t.base && s.kept == t.kept && s.handles == t.handles
  }

  lemma RespondStaysOut(s: Sys, msg: Msg, ok: bool)
    ensures ClientLeftAlone(s, Respond(s, msg, ok))
  {}

  lemma CompletedStaysOut(s: Sys, k: nat, r: A.Completion, ok: bool)
    requires k < |s.live|
    ensures ClientLeftAlone(s, Completed(s, k, r, ok))
  {}

  lemma DispatchedStaysOut(s: Sys, k: nat, d: A.Started)
    requires k < |s.dispatching|
    ensures ClientLeftAlone(s, Dispatched(s, k, d))
  {}

  lemma ServiceStaysOut(vendor: A.Completer, s: Sys, l: Label, s': Sys)
    requires s' == Step(vendor, s, l) && OfService(l)
    ensures ClientLeftAlone(s, s')
  {
    if l.Dispatch? && l.k < |s.dispatching| {
      DispatchedStaysOut(s, l.k, StartedFor(s.dispatching[l.k]));
    } else if l.VendorDone? && l.k < |s.live| {
      CompletedStaysOut(s, l.k, vendor(s.live[l.k], l.e, l.data), l.ok);
    } else if l.Stray? {
      RespondStaysOut(s, l.msg, l.ok);
    }
  }

  lemma InitStaysCurrent(s: Sys, indCb: Option<Callback>, defaultCb: Option<Callback>, connected: bool, s': Sys)
    requires AllCurrent(s) && s' == InitStep(s, indCb, defaultCb, connected)
    ensures AllCurrent(s') && (s'.kept == s.kept || s'.kept == {})
  {}

  lemma StepStaysCurrent(vendor: A.Completer, s: Sys, l: Label, s': Sys)
    requires Threads(s) && AllCurrent(s) && s' == Step(vendor, s, l)
    ensures AllCurrent(s') && (s'.kept == s.kept || s'.kept == {})
  {
    if OfThread(l) {
      ThreadStepStaysCurrent(vendor, s, l, s');
    } else if OfService(l) {
      ServiceStaysOut(vendor, s, l, s');
    } else if l.Init? {
      InitStaysCurrent(s, l.indCb, l.defaultCb, l.connected, s');
    }
  }

  predicate NoStray(ls: seq<Label>) {
    forall l | l in ls :: !FromOthers(l)
  }

  lemma {:induction false} RunKeeps(vendor: A.Completer, s: Sys, ls: seq<Label>)
    requires A.Serving(vendor) && Inv(s) && Carried(s) && Run(vendor, s, ls).issued < UINT32
    ensures Inv(Run(vendor, s, ls)) && Carried(Run(vendor, s, ls))
    ensures AllCarried(s) && NoStray(ls) ==> AllCarried(Run(vendor, s, ls))
    ensures AllCurrent(s) ==> AllCurrent(Run(vendor, s, ls))
    ensures Untouched(s) ==> Untouched(Run(vendor, s, ls))
    decreases |ls|
  {
    if ls != [] {
      RunIssues(vendor, Step(vendor, s, ls[0]), ls[1..]);
      StepKeeps(vendor, s, ls[0], Step(vendor, s, ls[0]));
      if AllCurrent(s) {
        StepStaysCurrent(vendor, s, ls[0], Step(vendor, s, ls[0]));
      }
      RunKeeps(vendor, Step(vendor, s, ls[0]), ls[1..]);
    }
  }

  lemma StartCarries(threads: nat)
    ensures AllCarried(Start(threads))
  {
    assert forall u: nat :: Inside(Start(threads), u) == 0;
  }

  lemma StartIsUntouched(threads: nat)
    ensures Untouched(Start(threads))
  {}

  lemma KeptFrom(vendor: A.Completer, start: Sys, ls: seq<Label>, s: Sys)
    requires A.Serving(vendor) && Inv(start) && AllCarried(start) && Untouched(start)
    requires s == Run(vendor, start, ls) && s.issued < UINT32
    ensures Inv(s) && Carried(s) && Untouched(s) && (NoStray(ls) ==> AllCarried(s))
  {
    RunKeeps(vendor, start, ls);
  }

  lemma ReachedKeeps(vendor: A.Completer, threads: nat, ls: seq<Label>, s: Sys)
    requires A.Serving(vendor) && s == Reached(vendor, threads, ls) && s.issued < UINT32
    ensures Inv(s) && Carried(s)
    ensures NoStray(ls) ==> AllCarried(s)
    ensures Untouched(s)
  {
    StartHolds(threads);
    StartCarries(threads);
    StartIsUntouched(threads);
    KeptFrom(vendor, Start(threads), ls, s);
  }
}
