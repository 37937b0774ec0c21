/** Re-init safety with calls under way: exactly which of them bring a request from before the init back. */
module SystemReinit {
  import opened Basics
  import opened Occurrences
  import opened Protocol
  import opened PendingOps
  import T = Tracker
  import A = Adapter
  import opened UrilSystem
  import opened SystemInvariant
  import opened SystemCarried
  import opened SystemSafety
  import opened SystemGuarantees
  import opened SystemAnswers
  import opened SystemCalls
  import opened SystemRaces

  /** Nothing that follows fires a callback for an id from before. */
  ghost predicate SafeAfter(vendor: A.Completer, s: Sys) {
    forall more: seq<Label>, u: nat | Run(vendor, s, more).issued < UINT32 && u <= s.base ::
      Occ(Run(vendor, s, more).fired, FiredId, u) == Occ(s.fired, FiredId, u)
  }

  /** A thread outside a call, or with nothing to do but to send, or whose request has no callback to call. */
  predicate Harmless(pc: Pc, default: Option<Callback>) {
    pc.Idle? || pc.Filled? || (pc.HasId? && pc.call.cb.None? && default.None?)
  }

  predicate AllHarmless(threads: seq<Pc>, default: Option<Callback>) {
    forall t :: 0 <= t < |threads| ==> Harmless(threads[t], default)
  }

  // ---- harmless threads ----

  lemma NoCallbackNoFire(s: Sys, u: nat)
    requires Fired(s) && u in s.asked && s.asked[u].call.cb.None? && s.asked[u].default.None?
    ensures Occ(s.fired, FiredId, u) == 0
  {
    forall k: nat | k < |s.fired| ensures s.fired[k].uniqueId != u {
      assert FireFits(s.fired[k], s.asked);
    }
    OccNone(s.fired, FiredId, u);
  }

  lemma KeptHasNoCallback(s: Sys, defaultCb: Option<Callback>, indCb: Option<Callback>, u: nat, s': Sys)
    requires Threads(s) && AllHarmless(s.threads, defaultCb) && s' == RacingInit(s, indCb, defaultCb, true)
    requires u in s'.kept
    ensures u in s'.asked && s'.asked[u].call.cb.None? && s'.asked[u].default.None?
  {
    var t: nat :| t < |s.threads| && s.threads[t].HasId? && s.threads[t].id == u;
    assert PcFits(s, s.threads[t]) && Harmless(s.threads[t], defaultCb);
    assert u in UnderWay(s.threads);
  }

  lemma HarmlessIsSafe(vendor: A.Completer, s: Sys, indCb: Option<Callback>, defaultCb: Option<Callback>, s': Sys)
    requires A.Serving(vendor) && Inv(s) && Carried(s) && AllHarmless(s.threads, defaultCb)
    requires s' == RacingInit(s, indCb, defaultCb, true)
    ensures SafeAfter(vendor, s')
  {
    forall t | 0 <= t < |s.threads| ensures !s.threads[t].Filling? {
      assert Harmless(s.threads[t], defaultCb);
    }
    RacingKeeps(s, indCb, defaultCb, true, s');
    forall more: seq<Label>, u: nat | Run(vendor, s', more).issued < UINT32 && u <= s'.base
      ensures Occ(Run(vendor, s', more).fired, FiredId, u) == Occ(s'.fired, FiredId, u)
    {
      if u in s'.kept {
        KeptHasNoCallback(s, defaultCb, indCb, u, s');
        RunKeeps(vendor, s', more);
        RunKeepsAsks(vendor, s', more);
        NoCallbackNoFire(s', u);
        NoCallbackNoFire(Run(vendor, s', more), u);
      } else {
        LateResponsesNeverFire(vendor, s', more, u);
      }
    }
  }

  // ---- harmful threads ----

  function StrayMsg(id: nat): Msg {
    Msg(false, id, 0, 0, Body.Plain)
  }

  /** The request is sent and tracked, and a response to it arrives. */
  function Tail(s: Sys, t: nat, id: nat): seq<Label> {
    [Send(t, true), Track(|s.reqs|), Stray(StrayMsg(id), true), Receive(|s.resps|)]
  }

  lemma RunFour(vendor: A.Completer, s: Sys, a: Label, b: Label, c: Label, d: Label)
    ensures Run(vendor, s, [a, b, c, d])
         == Step(vendor, Step(vendor, Step(vendor, Step(vendor, s, a), b), c), d)
  {
    RunCons(vendor, s, a, [b, c, d]);
    RunThree(vendor, Step(vendor, s, a), b, c, d);
    assert [a] + [b, c, d] == [a, b, c, d];
  }

  lemma StrayComes(s: Sys, id: nat, c: Conn)
    requires s.up && id in s.pending && s.pending[id] == c != FOREIGN
    ensures var s' := StrayStep(s, StrayMsg(id), true);
            s'.resps == s.resps + [(c, StrayMsg(id))] && s'.client == s.client && s'.fired == s.fired
  {}

  /** The response is received. */
  lemma StrayFires(s: Sys, id: nat, c: Conn, rest: seq<Envelope>, i: nat)
    requires s.resps == rest + [(c, StrayMsg(id))]
    requires FirstWithId(s.client.slots, id) == Some(i) && s.client.slots[i].asyncCb.Some?
    ensures Occ(ReceiveStep(s, |rest|).fired, FiredId, id) == Occ(s.fired, FiredId, id) + 1
    ensures ReceiveStep(s, |rest|).issued == s.issued
  {
    var f := FiredBy(s.client, StrayMsg(id));
    assert s.resps[|rest|].1 == StrayMsg(id) && f.Some?;
    OccConcat(s.fired, Fires(f), FiredId, id);
  }

  /** The request is sent and tracked. */
  lemma SentIsTracked(s: Sys, t: nat, id: nat, s': Sys)
    requires t < |s.threads| && s.threads[t].Filled? && s.threads[t].id == id && s.up
    requires s' == TrackStep(SendStep(s, t, true), |s.reqs|)
    ensures s'.up && id in s'.pending && s'.pending[id] == s.conn
    ensures s'.client == s.client && s'.resps == s.resps && s'.fired == s.fired && s'.issued == s.issued
  {}

  lemma TailFires(vendor: A.Completer, s: Sys, t: nat, id: nat, i: nat, s': Sys)
    requires t < |s.threads| && s.threads[t].Filled? && s.threads[t].id == id && s.up
    requires FirstWithId(s.client.slots, id) == Some(i) && s.client.slots[i].asyncCb.Some?
    requires s' == Run(vendor, s, Tail(s, t, id))
    ensures Occ(s'.fired, FiredId, id) == Occ(s.fired, FiredId, id) + 1 && s'.issued == s.issued
  {
    var ls := Tail(s, t, id);
    RunFour(vendor, s, ls[0], ls[1], ls[2], ls[3]);
    var s2 := TrackStep(SendStep(s, t, true), |s.reqs|);
    SentIsTracked(s, t, id, s2);
    StrayComes(s2, id, s.conn);
    StrayFires(StrayStep(s2, StrayMsg(id), true), id, s.conn, s.resps, i);
  }

  lemma {:induction false} NothingFires(vendor: A.Completer, s: Sys, ls: seq<Label>)
    requires forall l | l in ls :: OfThread(l)
    ensures Run(vendor, s, ls).fired == s.fired
    decreases |ls|
  {
    if ls != [] {
      assert OfThread(ls[0]) && Step(vendor, s, ls[0]).fired == s.fired;
      NothingFires(vendor, Step(vendor, s, ls[0]), ls[1..]);
    }
  }

  /** A run of threads ends where the thread has set a slot with a callback: then the id fires again. */
  lemma ReadyToFire(vendor: A.Completer, s: Sys, ls: seq<Label>, t: nat, id: nat, i: nat, s1: Sys)
    requires (forall l | l in ls :: OfThread(l)) && s1 == Run(vendor, s, ls)
    requires t < |s1.threads| && s1.threads[t].Filled? && s1.threads[t].id == id <= s.base && s.up
    requires FirstWithId(s1.client.slots, id) == Some(i) && s1.client.slots[i].asyncCb.Some?
    requires s1.issued < UINT32
    ensures !SafeAfter(vendor, s)
  {
    ThreadsStayOutside(vendor, s, ls);
    NothingFires(vendor, s, ls);
    var more := ls + Tail(s1, t, id);
    RunSplits(vendor, s, ls, Tail(s1, t, id));
    TailFires(vendor, s1, t, id, i, Run(vendor, s, more));
    assert Occ(Run(vendor, s, more).fired, FiredId, id) != Occ(s.fired, FiredId, id);
  }

  // A thread that has only its id.

  function GetAndSet(t: nat): seq<Label> {
    [Acquire(t), Write(t), Write(t), Write(t)]
  }

  lemma IdOnlySets(vendor: A.Completer, s: Sys, t: nat, call: Call, id: nat, s1: Sys)
    requires AtId(s, t, call, id) && s.client.slots == EmptySlots() && id >= 1
    requires s1 == Run(vendor, s, GetAndSet(t))
    ensures t < |s1.threads| && s1.threads[t] == Filled(call, id, 0) && s1.issued == s.issued
    ensures FirstWithId(s1.client.slots, id) == Some(0)
    ensures s1.client.slots[0].asyncCb == EffectiveCb(s.client, call.cb)
  {
    RunFour(vendor, s, Acquire(t), Write(t), Write(t), Write(t));
    NextIsFree(s.client.slots, 0);
    Fills(TakeStep(s, t, 0), t, 0, call, id);
    LookupFindsSlot(s1.client.slots, 0);
  }

  lemma IdOnlyFires(vendor: A.Completer, s: Sys, t: nat, call: Call, id: nat)
    requires AtId(s, t, call, id) && s.client.slots == EmptySlots() && 1 <= id <= s.base && s.up
    requires EffectiveCb(s.client, call.cb).Some? && s.issued < UINT32
    ensures !SafeAfter(vendor, s)
  {
    var s1 := Run(vendor, s, GetAndSet(t));
    IdOnlySets(vendor, s, t, call, id, s1);
    ReadyToFire(vendor, s, GetAndSet(t), t, id, 0, s1);
  }

  // A thread that is filling a slot.

  predicate Fills2(s: Sys, t: nat, call: Call, id: nat, j: nat) {
    t < |s.threads| && s.threads[t] == Filling(call, id, j, 2)
  }

  /** It gets to its last write. */
  lemma GoesToLastWrite(vendor: A.Completer, s: Sys, t: nat) returns (ls: seq<Label>)
    requires t < |s.threads| && s.threads[t].Filling? && s.threads[t].written <= 2
    requires s.threads[t].slot < |s.client.slots| && TakenUpTo(s.client.slots, 0)
    ensures forall l | l in ls :: OfThread(l)
    ensures var s', pc := Run(vendor, s, ls), s.threads[t];
            && Fills2(s', t, pc.call, pc.id, pc.slot) && s'.threads == s.threads[t := s'.threads[t]]
            && TakenUpTo(s'.client.slots, 0) && |s'.client.slots| == |s.client.slots|
            && s'.client.initialized == s.client.initialized && s'.issued == s.issued
    decreases 2 - s.threads[t].written
  {
    ls := [];
    if s.threads[t].written < 2 {
      var s' := WriteStep(s, t);
      var rest := GoesToLastWrite(vendor, s', t);
      RunCons(vendor, s, Write(t), rest);
      ls := [Write(t)] + rest;
    }
  }

  function FillsToo(s: Sys, r: nat): seq<Label> {
    [Begin(r, s.client.handle, SOME_CALL), Acquire(r), Write(r), Write(r), Write(r)]
  }

  /** Another thread takes the same slot and sets it, callback and all. */
  lemma CallerSetsSlot(vendor: A.Completer, s: Sys, r: nat, j: nat, s': Sys)
    requires r < |s.threads| && s.threads[r].Idle? && s.client.initialized
    requires TakenUpTo(s.client.slots, j) && CallbacksUpTo(s.client.slots, j) && j < |s.client.slots|
    requires s' == Run(vendor, s, FillsToo(s, r))
    ensures |s'.threads| == |s.threads| && forall t: nat | t < |s.threads| && t != r :: s'.threads[t] == s.threads[t]
    ensures |s'.client.slots| == |s.client.slots| && CallbacksUpTo(s'.client.slots, j + 1)
    ensures s'.issued <= s.issued + 1
  {
    var ls := FillsToo(s, r);
    RunCons(vendor, s, ls[0], [Acquire(r), Write(r), Write(r), Write(r)]);
    assert [ls[0]] + [Acquire(r), Write(r), Write(r), Write(r)] == ls;
    var s1 := BeginStep(s, r, s.client.handle, SOME_CALL);
    RunFour(vendor, s1, Acquire(r), Write(r), Write(r), Write(r));
    NextIsFree(s1.client.slots, j);
    Fills(TakeStep(s1, r, j), r, j, SOME_CALL, NextId(s.client));
  }

  /** The last write puts the old id into that slot. */
  lemma LastWriteSets(s: Sys, t: nat, call: Call, id: nat, j: nat, s': Sys)
    requires Fills2(s, t, call, id, j) && j < |s.client.slots| && CallbacksUpTo(s.client.slots, j + 1)
    requires s' == WriteStep(s, t)
    ensures t < |s'.threads| && s'.threads[t] == Filled(call, id, j) && s'.issued == s.issued
    ensures var i := FirstWithId(s'.client.slots, id); i.Some? && s'.client.slots[i.value].asyncCb.Some?
  {
    assert s'.client.slots[j].uniqueId == id;
  }

  lemma FillerFires(vendor: A.Completer, s: Sys, t: nat, r: nat)
    requires t < |s.threads| && s.threads[t].Filling? && s.threads[t].written <= 2
    requires s.threads[t].slot < |s.client.slots| == URIL_MAX_PENDING_OPS && TakenUpTo(s.client.slots, 0)
    requires r < |s.threads| && s.threads[r].Idle? && s.client.initialized && s.up
    requires s.threads[t].id <= s.base && s.issued + URIL_MAX_PENDING_OPS + 1 < UINT32
    ensures !SafeAfter(vendor, s)
  {
    var call, id, j := s.threads[t].call, s.threads[t].id, s.threads[t].slot;
    var a := GoesToLastWrite(vendor, s, t);
    var s1 := Run(vendor, s, a);
    var b := CallersFill(vendor, s1, r, SOME_CALL, 0, j);
    var s2 := Run(vendor, s1, b);
    var s3 := Run(vendor, s2, FillsToo(s2, r));
    CallerSetsSlot(vendor, s2, r, j, s3);
    var s4 := WriteStep(s3, t);
    LastWriteSets(s3, t, call, id, j, s4);
    FillerRun(vendor, s, a, b, FillsToo(s2, r), t, s4);
    ReadyToFire(vendor, s, a + (b + (FillsToo(s2, r) + [Write(t)])), t, id,
                FirstWithId(s4.client.slots, id).value, s4);
  }

  lemma FillerRun(vendor: A.Completer, s: Sys, a: seq<Label>, b: seq<Label>, c: seq<Label>, t: nat, s': Sys)
    requires s' == WriteStep(Run(vendor, Run(vendor, Run(vendor, s, a), b), c), t)
    ensures s' == Run(vendor, s, a + (b + (c + [Write(t)])))
  {
    var s1 := Run(vendor, s, a);
    var s2 := Run(vendor, s1, b);
    RunSplits(vendor, s, a, b + (c + [Write(t)]));
    RunSplits(vendor, s1, b, c + [Write(t)]);
    RunSplits(vendor, s2, c, [Write(t)]);
    RunCons(vendor, Run(vendor, s2, c), Write(t), []);
    assert [Write(t)] + [] == [Write(t)];
  }

  // ---- the condition ----

  lemma HarmfulFires(vendor: A.Completer, s: Sys, t: nat, r: nat, indCb: Option<Callback>,
                     defaultCb: Option<Callback>, s': Sys)
    requires Inv(s) && s.up && t < |s.threads| && !Harmless(s.threads[t], defaultCb)
    requires r < |s.threads| && s.threads[r].Idle? && s.issued + URIL_MAX_PENDING_OPS + 1 < UINT32
    requires s' == RacingInit(s, indCb, defaultCb, true)
    ensures !SafeAfter(vendor, s')
  {
    HeldOnce(s, t);
    assert PcFits(s, s.threads[t]);
    if s.threads[t].HasId? {
      IdOnlyFires(vendor, s', t, s.threads[t].call, s.threads[t].id);
    } else {
      FillerFires(vendor, s', t, r);
    }
  }

  /** An init at any time: nothing that follows fires a callback for a request from before it, exactly if
      every thread is outside a call, or has nothing to do but to send, or has only an id and neither its
      call nor the init gives a callback. */
  lemma ReinitSafetyIff(vendor: A.Completer, threads: nat, ls: seq<Label>, s: Sys, r: nat,
                        indCb: Option<Callback>, defaultCb: Option<Callback>)
    requires A.Serving(vendor) && s == Reached(vendor, threads, ls) && s.up
    requires r < |s.threads| && s.threads[r].Idle? && s.issued + URIL_MAX_PENDING_OPS + 1 < UINT32
    ensures SafeAfter(vendor, RacingInit(s, indCb, defaultCb, true)) <==> AllHarmless(s.threads, defaultCb)
  {
    ReachedKeeps(vendor, threads, ls, s);
    var s' := RacingInit(s, indCb, defaultCb, true);
    if AllHarmless(s.threads, defaultCb) {
      HarmlessIsSafe(vendor, s, indCb, defaultCb, s');
    } else {
      var t: nat :| t < |s.threads| && !Harmless(s.threads[t], defaultCb);
      HarmfulFires(vendor, s, t, r, indCb, defaultCb, s');
    }
  }
}
