/** Indications do not interfere: taking them out of a run changes nothing else. */
module SystemIndications {
  import opened Basics
  import opened Protocol
  import opened PendingOps
  import T = Tracker
  import A = Adapter
  import opened UrilSystem
  import opened SystemInvariant
  import opened SystemCarried
  import opened SystemSafety

  function Responses(xs: seq<Envelope>): seq<Envelope> {
    if xs == [] then []
    else (if xs[0].1.isIndication then [] else [xs[0]]) + Responses(xs[1..])
  }

  lemma {:induction false} ResponsesConcat(xs: seq<Envelope>, ys: seq<Envelope>)
    ensures Responses(xs + ys) == Responses(xs) + Responses(ys)
  {
    if xs == [] {
      assert xs + ys == ys;
    } else {
      assert (xs + ys)[1..] == xs[1..] + ys;
      ResponsesConcat(xs[1..], ys);
    }
  }

  lemma {:induction false} OnlyIndications(xs: seq<Envelope>)
    requires forall e | e in xs :: e.1.isIndication
    ensures Responses(xs) == []
  {
    if xs != [] {
      OnlyIndications(xs[1..]);
    }
  }

  /** The place of the k-th message among the responses. */
  function Place(xs: seq<Envelope>, k: nat): nat
    requires k < |xs|
  {
    |Responses(xs[..k])|
  }

  lemma ResponsesAround(before: seq<Envelope>, x: Envelope, after: seq<Envelope>)
    ensures Responses(before + ([x] + after)) == Responses(before) + (Responses([x]) + Responses(after))
    ensures Responses(before + after) == Responses(before) + Responses(after)
  {
    ResponsesConcat(before, [x] + after);
    ResponsesConcat([x], after);
    ResponsesConcat(before, after);
  }

  lemma Around(xs: seq<Envelope>, k: nat)
    requires k < |xs|
    ensures xs == xs[..k] + ([xs[k]] + xs[k + 1..]) && Without(xs, k) == xs[..k] + xs[k + 1..]
  {}

  lemma TakenOut<X>(before: seq<X>, x: X, after: seq<X>)
    ensures var all := before + ([x] + after); all[|before|] == x && Without(all, |before|) == before + after
  {}

  lemma WithoutIndication(xs: seq<Envelope>, k: nat)
    requires k < |xs| && xs[k].1.isIndication
    ensures Responses(Without(xs, k)) == Responses(xs)
  {
    Around(xs, k);
    ResponsesAround(xs[..k], xs[k], xs[k + 1..]);
    assert Responses([xs[k]]) == [];
  }

  lemma WithoutResponse(xs: seq<Envelope>, k: nat)
    requires k < |xs| && !xs[k].1.isIndication
    ensures Place(xs, k) < |Responses(xs)| && Responses(xs)[Place(xs, k)] == xs[k]
    ensures Responses(Without(xs, k)) == Without(Responses(xs), Place(xs, k))
  {
    var before, after := Responses(xs[..k]), Responses(xs[k + 1..]);
    Around(xs, k);
    ResponsesAround(xs[..k], xs[k], xs[k + 1..]);
    assert Responses([xs[k]]) == [xs[k]];
    TakenOut(before, xs[k], after);
  }

  /** All but the indications in the channel and the indication callbacks made. */
  function Core(s: Sys): Sys {
    s.(resps := Responses(s.resps), indCalls := [])
  }

  /** What is left of a step when indications are taken out. */
  function Erased(s: Sys, l: Label): seq<Label> {
    if l.Indicate? then []
    else if l.Receive? then
      if l.k >= |s.resps| || s.resps[l.k].1.isIndication then [] else [Receive(Place(s.resps, l.k))]
    else [l]
  }

  function Erase(vendor: A.Completer, s: Sys, ls: seq<Label>): seq<Label>
    decreases |ls|
  {
    if ls == [] then [] else Erased(s, ls[0]) + Erase(vendor, Step(vendor, s, ls[0]), ls[1..])
  }

  lemma RespondCore(s: Sys, msg: Msg, ok: bool)
    requires !msg.isIndication
    ensures Core(Respond(s, msg, ok)) == Respond(Core(s), msg, ok)
  {
    var c := T.Recipient(s.pending, msg.uniqueId);
    if c.Some? && c.value != FOREIGN {
      ResponsesConcat(s.resps, [(c.value, msg)]);
      assert Responses([(c.value, msg)]) == [(c.value, msg)];
    }
  }

  lemma ReceiveIndicationCore(s: Sys, k: nat)
    requires k < |s.resps| && s.resps[k].1.isIndication
    ensures Core(ReceiveStep(s, k)) == Core(s)
  {
    WithoutIndication(s.resps, k);
  }

  lemma ReceiveResponseCore(s: Sys, k: nat)
    requires k < |s.resps| && !s.resps[k].1.isIndication
    ensures Core(ReceiveStep(s, k)) == ReceiveStep(Core(s), Place(s.resps, k))
  {
    WithoutResponse(s.resps, k);
  }

  lemma IndicateCore(s: Sys, conns: seq<Conn>, msg: Msg)
    ensures Core(IndicateStep(s, conns, msg)) == Core(s)
  {
    if s.up && msg.isIndication {
      ResponsesConcat(s.resps, T.Copies(conns, msg));
      assert forall e | e in T.Copies(conns, msg) :: e.1 == msg;
      OnlyIndications(T.Copies(conns, msg));
    }
  }

  lemma CompletedCore(s: Sys, k: nat, r: A.Completion, ok: bool)
    requires k < |s.live| && (r.Emitted? ==> !r.msg.isIndication)
    ensures Core(Completed(s, k, r, ok)) == Completed(Core(s), k, r, ok)
  {
    if r.Emitted? {
      RespondCore(s.(live := Without(s.live, k)), r.msg, ok);
    }
  }

  lemma VendorDoneCore(vendor: A.Completer, s: Sys, k: nat, e: A.RilErrno, data: A.VendorData, ok: bool)
    requires A.Serving(vendor) && Carried(s)
    ensures Core(VendorDoneStep(vendor, s, k, e, data, ok)) == VendorDoneStep(vendor, Core(s), k, e, data, ok)
  {
    if s.up && k < |s.live| {
      assert ServesAsk(s.asked, s.live[k]);
      CompletedCore(s, k, vendor(s.live[k], e, data), ok);
    }
  }

  lemma RadioDoneCore(s: Sys, k: nat, state: A.RadioState, ok: bool)
    ensures Core(RadioDoneStep(s, k, state, ok)) == RadioDoneStep(Core(s), k, state, ok)
  {
    if s.up && k < |s.radio| && A.UrilRadioMode(state).Some? {
      RespondCore(s.(radio := Without(s.radio, k)), RadioReply(s.radio[k], A.UrilRadioMode(state).value), ok);
    }
  }

  lemma BeginCore(s: Sys, t: nat, hndl: nat, call: Call)
    ensures Core(BeginStep(s, t, hndl, call)) == BeginStep(Core(s), t, hndl, call)
  {}

  lemma TakeCore(s: Sys, t: nat, i: nat)
    requires t < |s.threads| && s.threads[t].HasId? && i < |s.client.slots|
    ensures Core(TakeStep(s, t, i)) == TakeStep(Core(s), t, i)
  {}

  lemma RefusedCore(s: Sys, t: nat)
    requires t < |s.threads| && s.threads[t].HasId?
    ensures Core(RefusedStep(s, t)) == RefusedStep(Core(s), t)
  {}

  lemma AcquireCore(s: Sys, t: nat)
    ensures Core(AcquireStep(s, t)) == AcquireStep(Core(s), t)
  {
    if t < |s.threads| && s.threads[t].HasId? {
      var i := FirstFree(s.client.slots);
      if i.Some? {
        TakeCore(s, t, i.value);
      } else {
        RefusedCore(s, t);
      }
    }
  }

  lemma WriteCore(s: Sys, t: nat)
    ensures Core(WriteStep(s, t)) == WriteStep(Core(s), t)
  {}

  lemma SendCore(s: Sys, t: nat, ok: bool)
    ensures Core(SendStep(s, t, ok)) == SendStep(Core(s), t, ok)
  {}

  lemma InitCore(s: Sys, indCb: Option<Callback>, defaultCb: Option<Callback>, connected: bool)
    ensures Core(InitStep(s, indCb, defaultCb, connected)) == InitStep(Core(s), indCb, defaultCb, connected)
  {}

  lemma TrackCore(s: Sys, k: nat)
    ensures Core(TrackStep(s, k)) == TrackStep(Core(s), k)
  {}

  lemma DispatchedCore(s: Sys, k: nat, d: A.Started)
    requires k < |s.dispatching|
    ensures Core(Dispatched(s, k, d)) == Dispatched(Core(s), k, d)
  {}

  lemma DispatchCore(s: Sys, k: nat)
    ensures Core(DispatchStep(s, k)) == DispatchStep(Core(s), k)
  {
    if s.up && k < |s.dispatching| {
      DispatchedCore(s, k, StartedFor(s.dispatching[k]));
    }
  }

  lemma ThreadCore(vendor: A.Completer, s: Sys, l: Label)
    requires OfThread(l)
    ensures Core(Step(vendor, s, l)) == Step(vendor, Core(s), l)
  {
    if l.Begin? {
      BeginCore(s, l.t, l.hndl, l.call);
    } else if l.Acquire? {
      AcquireCore(s, l.t);
    } else if l.Write? {
      WriteCore(s, l.t);
    } else {
      SendCore(s, l.t, l.ok);
    }
  }

  lemma ServiceCore(vendor: A.Completer, s: Sys, l: Label)
    requires A.Serving(vendor) && Carried(s) && OfService(l) && !l.Indicate?
    ensures Core(Step(vendor, s, l)) == Step(vendor, Core(s), l)
  {
    if l.Track? {
      TrackCore(s, l.k);
    } else if l.Dispatch? {
      DispatchCore(s, l.k);
    } else if l.VendorDone? {
      VendorDoneCore(vendor, s, l.k, l.e, l.data, l.ok);
    } else if l.RadioDone? {
      RadioDoneCore(s, l.k, l.state, l.ok);
    } else if l.Stray? && !l.msg.isIndication {
      RespondCore(s, l.msg, l.ok);
    }
  }

  lemma StepCore(vendor: A.Completer, s: Sys, l: Label)
    requires A.Serving(vendor) && Carried(s)
    ensures Core(Step(vendor, s, l)) == Run(vendor, Core(s), Erased(s, l))
  {
    if l.Indicate? {
      IndicateCore(s, l.conns, l.msg);
    } else if l.Receive? {
      if l.k < |s.resps| && s.resps[l.k].1.isIndication {
        ReceiveIndicationCore(s, l.k);
      } else if l.k < |s.resps| {
        ReceiveResponseCore(s, l.k);
        RunOne(vendor, Core(s), Receive(Place(s.resps, l.k)));
      }
    } else {
      RunOne(vendor, Core(s), l);
      if OfService(l) {
        ServiceCore(vendor, s, l);
      } else if OfThread(l) {
        ThreadCore(vendor, s, l);
      } else if l.Init? {
        InitCore(s, l.indCb, l.defaultCb, l.connected);
      }
    }
  }

  lemma RunOne(vendor: A.Completer, s: Sys, l: Label)
    ensures Run(vendor, s, [l]) == Step(vendor, s, l)
  {
    assert [l][1..] == [];
  }

  lemma {:induction false} RunCore(vendor: A.Completer, s: Sys, ls: seq<Label>)
    requires A.Serving(vendor) && Inv(s) && Carried(s) && Run(vendor, s, ls).issued < UINT32
    ensures Core(Run(vendor, s, ls)) == Run(vendor, Core(s), Erase(vendor, s, ls))
    decreases |ls|
  {
    if ls != [] {
      var s' := Step(vendor, s, ls[0]);
      RunIssues(vendor, s', ls[1..]);
      StepKeeps(vendor, s, ls[0], s');
      StepCore(vendor, s, ls[0]);
      RunCore(vendor, s', ls[1..]);
      RunSplits(vendor, Core(s), Erased(s, ls[0]), Erase(vendor, s', ls[1..]));
    }
  }

  lemma {:induction false} ErasedRunHasNoIndications(vendor: A.Completer, s: Sys, ls: seq<Label>)
    ensures forall l | l in Erase(vendor, s, ls) :: !l.Indicate?
    decreases |ls|
  {
    if ls != [] {
      ErasedRunHasNoIndications(vendor, Step(vendor, s, ls[0]), ls[1..]);
    }
  }

  /** A run and the same run without its indications end with the same client, tracker, adapter and
      fired response callbacks. */
  lemma IndicationsDoNotInterfere(vendor: A.Completer, threads: nat, ls: seq<Label>, s: Sys, quiet: Sys)
    requires A.Serving(vendor) && s == Reached(vendor, threads, ls) && s.issued < UINT32
    requires quiet == Reached(vendor, threads, Erase(vendor, Start(threads), ls))
    ensures forall l | l in Erase(vendor, Start(threads), ls) :: !l.Indicate?
    ensures quiet.client == s.client && quiet.threads == s.threads
    ensures quiet.pending == s.pending && quiet.dispatching == s.dispatching && quiet.rejected == s.rejected
    ensures quiet.live == s.live && quiet.radio == s.radio
    ensures quiet.resps == Responses(s.resps) && quiet.fired == s.fired && quiet.answered == s.answered
  {
    StartHolds(threads);
    StartCarries(threads);
    RunCore(vendor, Start(threads), ls);
    ErasedRunHasNoIndications(vendor, Start(threads), ls);
  }
}
