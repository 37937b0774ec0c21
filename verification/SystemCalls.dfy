/** An uninterrupted call in the machine is one uril_client_execute_command_async. */
module SystemCalls {
  import opened Basics
  import opened Protocol
  import opened PendingOps
  import A = Adapter
  import opened UrilSystem

  function CallLabels(t: nat, hndl: nat, call: Call, ok: bool): seq<Label> {
    [Begin(t, hndl, call), Acquire(t), Write(t), Write(t), Write(t), Send(t, ok)]
  }

  lemma {:induction false} RunCons(vendor: A.Completer, s: Sys, l: Label, ls: seq<Label>)
    ensures Run(vendor, s, [l] + ls) == Run(vendor, Step(vendor, s, l), ls)
  {
    assert ([l] + ls)[1..] == ls;
  }

  /** The steps of a call, one after the other, with nothing in between. */
  function CallSteps(s: Sys, t: nat, hndl: nat, call: Call, ok: bool): Sys {
    SendStep(WriteStep(WriteStep(WriteStep(AcquireStep(BeginStep(s, t, hndl, call), t), t), t), t), t, ok)
  }

  lemma CallRuns(vendor: A.Completer, s: Sys, t: nat, hndl: nat, call: Call, ok: bool)
    ensures Run(vendor, s, CallLabels(t, hndl, call, ok)) == CallSteps(s, t, hndl, call, ok)
  {
    var s1 := Step(vendor, s, Begin(t, hndl, call));
    var s2 := Step(vendor, s1, Acquire(t));
    var s3 := Step(vendor, s2, Write(t));
    var s4 := Step(vendor, s3, Write(t));
    var s5 := Step(vendor, s4, Write(t));
    RunCons(vendor, s, Begin(t, hndl, call), [Acquire(t), Write(t), Write(t), Write(t), Send(t, ok)]);
    RunCons(vendor, s1, Acquire(t), [Write(t), Write(t), Write(t), Send(t, ok)]);
    RunCons(vendor, s2, Write(t), [Write(t), Write(t), Send(t, ok)]);
    RunCons(vendor, s3, Write(t), [Write(t), Send(t, ok)]);
    RunCons(vendor, s4, Write(t), [Send(t, ok)]);
    RunCons(vendor, s5, Send(t, ok), []);
  }

  /** The three writes together. */
  lemma Fills(s: Sys, t: nat, i: nat, call: Call, id: nat)
    requires t < |s.threads| && s.threads[t] == Filling(call, id, i, 0) && i < |s.client.slots|
    ensures WriteStep(WriteStep(WriteStep(s, t), t), t)
         == s.(client := s.client.(slots := FillSlot(s.client.slots, i, id, EffectiveCb(s.client, call.cb), call.data)),
               threads := s.threads[t := Filled(call, id, i)])
  {}

  predicate AtId(s: Sys, t: nat, call: Call, id: nat) {
    t < |s.threads| && s.threads[t] == HasId(call, id)
  }

  /** The rest of a call that gets slot i. */
  lemma WithSlot(s: Sys, t: nat, call: Call, id: nat, i: nat, ok: bool, a: Sys, s': Sys)
    requires AtId(s, t, call, id) && i < |s.client.slots| && a == TakeStep(s, t, i)
    requires s' == SendStep(WriteStep(WriteStep(WriteStep(a, t), t), t), t, ok)
    ensures s'.client == s.client.(slots := FillSlot(SetBusy(s.client.slots, i, true), i, id,
                                                     EffectiveCb(s.client, call.cb), call.data))
    ensures s'.threads == s.threads[t := Idle]
    ensures s'.reqs == s.reqs + if ok then [(s.conn, Msg(false, id, call.simId, call.msgId, call.body))] else []
  {
    Fills(a, t, i, call, id);
  }

  lemma IdleStays(s: Sys, t: nat, ok: bool)
    requires t < |s.threads| && s.threads[t].Idle?
    ensures SendStep(WriteStep(WriteStep(WriteStep(AcquireStep(s, t), t), t), t), t, ok) == s
  {}

  lemma WithoutSlot(s: Sys, t: nat, call: Call, id: nat, ok: bool, a: Sys, s': Sys)
    requires AtId(s, t, call, id) && a == RefusedStep(s, t)
    requires s' == SendStep(WriteStep(WriteStep(WriteStep(a, t), t), t), t, ok)
    ensures s'.client == s.client && s'.threads == s.threads[t := Idle] && s'.reqs == s.reqs
  {}

  lemma AfterId(s: Sys, t: nat, call: Call, id: nat, ok: bool, s': Sys)
    requires AtId(s, t, call, id) && s' == SendStep(WriteStep(WriteStep(WriteStep(AcquireStep(s, t), t), t), t), t, ok)
    ensures var i := FirstFree(s.client.slots);
            && s'.threads == s.threads[t := Idle]
            && s'.client == (if i.None? then s.client
                             else s.client.(slots := FillSlot(SetBusy(s.client.slots, i.value, true), i.value, id,
                                                              EffectiveCb(s.client, call.cb), call.data)))
            && s'.reqs == s.reqs + if ok && i.Some? then [(s.conn, Msg(false, id, call.simId, call.msgId, call.body))]
                                   else []
  {
    var i := FirstFree(s.client.slots);
    if i.Some? {
      WithSlot(s, t, call, id, i.value, ok, AcquireStep(s, t), s');
    } else {
      WithoutSlot(s, t, call, id, ok, AcquireStep(s, t), s');
    }
  }

  /** Without interference the machine does to the client, and sends, what the specification of the
      whole call says, and the thread is idle again. */
  lemma UninterruptedCall(vendor: A.Completer, s: Sys, t: nat, hndl: nat, call: Call, ok: bool, r: Executed, s': Sys)
    requires t < |s.threads| && s.threads[t].Idle?
    requires r == Execute(s.client, hndl, call.simId, call.msgId, Some(call.body), call.cb, call.data, ok, ALL_LOCK)
    requires s' == Run(vendor, s, CallLabels(t, hndl, call, ok))
    ensures s'.client == r.client && s'.threads == s.threads
    ensures s'.reqs == s.reqs + if r.sent.Some? then [(s.conn, r.sent.value)] else []
  {
    CallRuns(vendor, s, t, hndl, call, ok);
    var s1 := BeginStep(s, t, hndl, call);
    if Accepts(s.client, hndl, true) {
      AfterId(s1, t, call, NextId(s.client), ok, s');
      assert s.threads[t := HasId(call, NextId(s.client))][t := Idle] == s.threads;
    } else {
      IdleStays(s, t, ok);
    }
  }
}
