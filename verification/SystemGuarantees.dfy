/** The guarantees of the whole system, for every reachable state and every run. */
module SystemGuarantees {
  import opened Basics
  import opened Occurrences
  import opened Protocol
  import opened PendingOps
  import T = Tracker
  import A = Adapter
  import opened UrilSystem
  import opened SystemInvariant
  import opened SystemCarried
  import opened SystemSafety

  /** At most one callback per request, with the request's own client data, and its own callback or else
      the default one; stray and repeated responses included. */
  lemma AtMostOnce(vendor: A.Completer, threads: nat, ls: seq<Label>, s: Sys)
    requires A.Serving(vendor) && s == Reached(vendor, threads, ls) && s.issued < UINT32
    ensures forall u: nat :: Occ(s.fired, FiredId, u) <= 1
    ensures forall f | f in s.fired ::
      && f.uniqueId in s.asked && f.clientData == s.asked[f.uniqueId].call.data
      && Some(f.cb) == (if s.asked[f.uniqueId].call.cb.Some? then s.asked[f.uniqueId].call.cb
                        else s.asked[f.uniqueId].default)
  {
    ReachedKeeps(vendor, threads, ls, s);
    forall u: nat ensures Occ(s.fired, FiredId, u) <= 1 {
      assert Early(s, u) + Open(s, u) + Closed(s, u) == Issued(s, u);
    }
    forall f | f in s.fired ensures FireFits(f, s.asked) {}
  }

  /** Without strays, the callback is also told the request's own SIM and message id. */
  lemma CallbacksAnswerTheirRequest(vendor: A.Completer, threads: nat, ls: seq<Label>, s: Sys)
    requires A.Serving(vendor) && s == Reached(vendor, threads, ls) && s.issued < UINT32 && NoStray(ls)
    ensures forall f | f in s.fired ::
      && f.uniqueId in s.asked && f.simId == s.asked[f.uniqueId].call.simId
      && f.msgId == s.asked[f.uniqueId].call.msgId
  {
    ReachedKeeps(vendor, threads, ls, s);
  }

  /** Each response is in the channel of the connection its request was sent on. */
  lemma ResponsesUseTheirConnection(vendor: A.Completer, threads: nat, ls: seq<Label>, s: Sys)
    requires A.Serving(vendor) && s == Reached(vendor, threads, ls) && s.issued < UINT32
    ensures forall e | e in s.resps && !e.1.isIndication :: SentBy(s.asked, e.1.uniqueId, e.0)
  {
    ReachedKeeps(vendor, threads, ls, s);
  }

  /** Where a request can be, from the setting of its slot to the arrival of its response. */
  function Places(s: Sys, u: nat): seq<nat> {
    [Occ(s.threads, FilledId, u), Occ(s.failed, Id, u), Occ(s.reqs, RequestId, u),
     Occ(s.dispatching, MsgId, u), Occ(s.rejected, Id, u), Occ(s.live, CtxId, u), Occ(s.radio, MsgId, u),
     Occ(s.resps, ResponseId, u), Occ(s.lost, Id, u)]
  }

  /** Once, in one place. */
  ghost predicate InOnePlace(s: Sys, u: nat) {
    exists k: nat :: k < 9 && Places(s, u)[k] == 1 && forall j: nat | j < 9 && j != k :: Places(s, u)[j] == 0
  }

  ghost predicate Nowhere(s: Sys, u: nat) {
    forall j: nat | j < 9 :: Places(s, u)[j] == 0
  }

  function Total(s: Sys, u: nat): nat {
    var n := Places(s, u);
    n[0] + n[1] + n[2] + n[3] + n[4] + n[5] + n[6] + n[7] + n[8]
  }

  lemma OneOrNowhere(s: Sys, u: nat)
    ensures Total(s, u) == 1 <==> InOnePlace(s, u)
    ensures Total(s, u) == 0 <==> Nowhere(s, u)
  {
    var n := Places(s, u);
    if Total(s, u) == 1 {
      var k: nat := if n[0] == 1 then 0 else if n[1] == 1 then 1 else if n[2] == 1 then 2 else if n[3] == 1 then 3
                    else if n[4] == 1 then 4 else if n[5] == 1 then 5 else if n[6] == 1 then 6
                    else if n[7] == 1 then 7 else 8;
      assert n[k] == 1 && forall j: nat | j < 9 && j != k :: n[j] == 0;
    }
  }

  lemma OpenIsTotal(s: Sys, u: nat)
    requires Ledger(s) && Pipeline(s)
    ensures Open(s, u) == Total(s, u) <= 1
  {
    assert Inside(s, u) == if Tracks(s, u) then 1 else 0;
    assert Early(s, u) + Open(s, u) + Closed(s, u) == Issued(s, u);
  }

  /** Conservation: a busy slot whose id is set belongs to a request in exactly one place, and every
      request in some place since the last init has exactly one slot, which is busy. */
  lemma Conservation(vendor: A.Completer, threads: nat, ls: seq<Label>, s: Sys)
    requires A.Serving(vendor) && s == Reached(vendor, threads, ls) && s.issued < UINT32 && NoStray(ls)
    ensures forall i: nat | Owned(s, i) ::
      s.client.slots[i].uniqueId > s.base && InOnePlace(s, s.client.slots[i].uniqueId)
    ensures forall u: nat | u > s.base && !Nowhere(s, u) ::
      InOnePlace(s, u) && exists i: nat :: OwnedFor(s, i, u) && forall j: nat | OwnedFor(s, j, u) :: j == i
    ensures forall u: nat :: Nowhere(s, u) || InOnePlace(s, u)
  {
    ReachedKeeps(vendor, threads, ls, s);
    forall u: nat ensures Nowhere(s, u) || InOnePlace(s, u) {
      OpenIsTotal(s, u);
      OneOrNowhere(s, u);
    }
    forall i: nat | Owned(s, i)
      ensures s.client.slots[i].uniqueId > s.base && InOnePlace(s, s.client.slots[i].uniqueId)
    {
      OpenIsTotal(s, s.client.slots[i].uniqueId);
      OneOrNowhere(s, s.client.slots[i].uniqueId);
      OccAt(s.client.slots, i, SlotId);
    }
    forall u: nat | u > s.base && !Nowhere(s, u)
      ensures exists i: nat :: OwnedFor(s, i, u) && forall j: nat | OwnedFor(s, j, u) :: j == i
    {
      OpenIsTotal(s, u);
      OneOrNowhere(s, u);
      var i := OnlySlot(s, u);
    }
  }

  predicate OwnedFor(s: Sys, i: nat, u: nat) {
    Owned(s, i) && s.client.slots[i].uniqueId == u
  }

  lemma OnlySlot(s: Sys, u: nat) returns (i: nat)
    requires Counted(s) && Current(s, u) && u >= 1 && Open(s, u) >= 1
    ensures OwnedFor(s, i, u) && forall j: nat | OwnedFor(s, j, u) :: j == i
  {
    i := OccFind(s.client.slots, SlotId, u);
    assert Owned(s, i);
    forall j: nat | OwnedFor(s, j, u) ensures j == i {
      OccUnique(s.client.slots, i, j, SlotId);
    }
  }

  /** Whatever the interleaving: a slot has one thread at a time, a set id one slot, and the lookup of
      a request on its way finds its own slot, although other slots may still hold old ids. */
  lemma SlotOwnership(vendor: A.Completer, threads: nat, ls: seq<Label>, s: Sys)
    requires A.Serving(vendor) && s == Reached(vendor, threads, ls) && s.issued < UINT32
    ensures forall t: nat, r: nat | t < r < |s.threads| && SlotOf(s.threads[t]) >= 0 ::
      SlotOf(s.threads[t]) != SlotOf(s.threads[r])
    ensures forall i: nat, j: nat | i < j < |s.client.slots| && s.client.slots[i].uniqueId != 0 ::
      s.client.slots[i].uniqueId != s.client.slots[j].uniqueId
    ensures forall i: nat | Owned(s, i) :: FirstWithId(s.client.slots, s.client.slots[i].uniqueId) == Some(i)
    ensures forall t: nat | t < |s.threads| && s.threads[t].Filled? ::
      FirstWithId(s.client.slots, s.threads[t].id) == Some(s.threads[t].slot)
  {
    ReachedKeeps(vendor, threads, ls, s);
    forall t: nat, r: nat | t < r < |s.threads| && SlotOf(s.threads[t]) >= 0
      ensures SlotOf(s.threads[t]) != SlotOf(s.threads[r])
    {
      OneThreadPerSlot(s, t, r);
    }
    forall i: nat, j: nat | i < j < |s.client.slots| && s.client.slots[i].uniqueId != 0
      ensures s.client.slots[i].uniqueId != s.client.slots[j].uniqueId
    {
      OneSlotPerId(s, i, j);
    }
    forall i: nat | i < |s.client.slots| && s.client.slots[i].uniqueId != 0
      ensures FirstWithId(s.client.slots, s.client.slots[i].uniqueId) == Some(i)
    {
      LookupFindsSlot(s.client.slots, i);
    }
    forall t: nat | t < |s.threads| && s.threads[t].Filled?
      ensures FirstWithId(s.client.slots, s.threads[t].id) == Some(s.threads[t].slot)
    {
      assert PcFits(s, s.threads[t]);
    }
  }

  lemma OneThreadPerSlot(s: Sys, t: nat, r: nat)
    requires Holders(s) && Threads(s) && AllCurrent(s) && t < r < |s.threads| && SlotOf(s.threads[t]) >= 0
    ensures SlotOf(s.threads[t]) != SlotOf(s.threads[r])
  {
    assert PcFits(s, s.threads[t]);
    if SlotOf(s.threads[t]) == SlotOf(s.threads[r]) {
      OccTwice(s.threads, t, r, HeldIn(s));
    }
  }

  lemma OneSlotPerId(s: Sys, i: nat, j: nat)
    requires Ids(s) && i < j < |s.client.slots| && s.client.slots[i].uniqueId != 0
    ensures s.client.slots[i].uniqueId != s.client.slots[j].uniqueId
  {
    if s.client.slots[i].uniqueId == s.client.slots[j].uniqueId {
      OccTwice(s.client.slots, i, j, SlotId);
    }
  }

  /** A call is refused for lack of a slot exactly when 16 slots acquired since the last init are unanswered. */
  lemma Capacity(vendor: A.Completer, threads: nat, ls: seq<Label>, s: Sys, t: nat)
    requires A.Serving(vendor) && s == Reached(vendor, threads, ls) && s.issued < UINT32
    requires t < |s.threads| && s.threads[t].HasId?
    ensures s.freed <= s.acquired <= s.freed + 16
    ensures AcquireStep(s, t).threads[t].Idle? <==> s.acquired == s.freed + 16
  {
    ReachedKeeps(vendor, threads, ls, s);
    FullTable(s.client.slots);
  }

  /** The slot's callback, if any, is told the current handle and what the response says. */
  predicate CalledBack(s: Sys, s': Sys, slot: Slot, msg: Msg) {
    if slot.asyncCb.None? then s'.fired == s.fired
    else
      && |s'.fired| == |s.fired| + 1 && s'.fired[..|s.fired|] == s.fired
      && var f := s'.fired[|s.fired|];
      && Some(f.cb) == slot.asyncCb && f.clientData == slot.clientData && f.handle == s.client.handle
      && f.uniqueId == msg.uniqueId && f.simId == msg.simId && f.msgId == msg.msgId && f.body == msg.body
  }

  /** A response to a request made since the last init frees one busy slot, and calls back exactly when
      that slot has a callback; any other response changes neither the client nor what was fired. */
  lemma ResponseFreesItsSlot(vendor: A.Completer, threads: nat, ls: seq<Label>, s: Sys, k: nat)
    requires A.Serving(vendor) && s == Reached(vendor, threads, ls) && s.issued < UINT32
    requires k < |s.resps| && !s.resps[k].1.isIndication
    ensures var msg, s' := s.resps[k].1, ReceiveStep(s, k);
            if msg.uniqueId > s.base then
              exists i: nat ::
                && OwnedFor(s, i, msg.uniqueId)
                && s'.client.slots == SetBusy(s.client.slots, i, false)
                && BusyCount(s.client.slots) == BusyCount(s'.client.slots) + 1
                && CalledBack(s, s', s.client.slots[i], msg)
            else s'.client == s.client && s'.fired == s.fired && s'.freed == s.freed
  {
    ReachedKeeps(vendor, threads, ls, s);
    var id := s.resps[k].1.uniqueId;
    LookupFindsOwner(s, k, id);
    ReceiveFrees(s, k, id, ReceiveStep(s, k));
    if id > s.base {
      var i := FirstWithId(s.client.slots, id).value;
      ReceiveCallsBack(s, k, i);
      assert OwnedFor(s, i, id);
    }
  }

  lemma ReceiveCallsBack(s: Sys, k: nat, i: nat)
    requires k < |s.resps| && !s.resps[k].1.isIndication
    requires FirstWithId(s.client.slots, s.resps[k].1.uniqueId) == Some(i)
    ensures CalledBack(s, ReceiveStep(s, k), s.client.slots[i], s.resps[k].1)
  {}

  /** A refused request stays tracked; it is not answered, and its slot stays busy until the next init. */
  lemma RejectedIsStuck(vendor: A.Completer, threads: nat, ls: seq<Label>, s: Sys, u: nat)
    requires A.Serving(vendor) && s == Reached(vendor, threads, ls) && s.issued < UINT32 && NoStray(ls)
    requires u in s.rejected
    ensures HasFate(s.asked, u, Refuses)
    ensures Tracks(s, u) && Closed(s, u) == 0 && Occ(s.fired, FiredId, u) == 0
    ensures u > s.base ==> exists i: nat :: OwnedFor(s, i, u)
  {
    ReachedKeeps(vendor, threads, ls, s);
    var k :| 0 <= k < |s.rejected| && s.rejected[k] == u;
    OccAt(s.rejected, k, Id);
    OpenIsTotal(s, u);
    assert Inside(s, u) == if Tracks(s, u) then 1 else 0;
    assert Early(s, u) + Open(s, u) + Closed(s, u) == Issued(s, u);
    if u > s.base {
      var i := OnlySlot(s, u);
    }
  }

  // ---- across inits ----

  /** The handles given out are 1, 2, 3, ..., and an initialized context has the last of them. */
  ghost predicate HandlesInOrder(s: Sys) {
    && s.client.lastHandle == |s.handles|
    && (forall i: nat | i < |s.handles| :: s.handles[i] == i + 1)
    && (s.client.initialized ==> s.handles != [] && s.client.handle == |s.handles|)
  }

  /** What only init, release and receive touch. */
  predicate Quiet(s: Sys, t: Sys) {
    && t.fired == s.fired && t.base == s.base && t.kept == s.kept && t.handles == s.handles
    && t.client.lastHandle == s.client.lastHandle && t.client.handle == s.client.handle
    && t.client.initialized == s.client.initialized && t.client.defaultCb == s.client.defaultCb
  }

  lemma ThreadStepIsQuiet(vendor: A.Completer, s: Sys, l: Label, s': Sys)
    requires s' == Step(vendor, s, l) && OfThread(l)
    ensures Quiet(s, s')
  {}

  lemma ServiceStepIsQuiet(vendor: A.Completer, s: Sys, l: Label, s': Sys)
    requires s' == Step(vendor, s, l) && OfService(l)
    ensures Quiet(s, s')
  {
    ServiceStaysOut(vendor, s, l, s');
  }

  lemma InitOrdersHandles(s: Sys, indCb: Option<Callback>, defaultCb: Option<Callback>, connected: bool, s': Sys)
    requires s' == InitStep(s, indCb, defaultCb, connected)
    ensures |s.handles| <= |s'.handles|
    ensures HandlesInOrder(s) && |s'.handles| < UINT32 ==> HandlesInOrder(s')
  {}

  lemma ReceiveOrdersHandles(s: Sys, k: nat, s': Sys)
    requires s' == ReceiveStep(s, k)
    ensures |s.handles| <= |s'.handles| && (HandlesInOrder(s) ==> HandlesInOrder(s'))
  {}

  lemma StepOrdersHandles(vendor: A.Completer, s: Sys, l: Label, s': Sys)
    requires s' == Step(vendor, s, l)
    ensures |s.handles| <= |s'.handles|
    ensures HandlesInOrder(s) && |s'.handles| < UINT32 ==> HandlesInOrder(s')
  {
    if OfThread(l) {
      ThreadStepIsQuiet(vendor, s, l, s');
    } else if OfService(l) {
      ServiceStepIsQuiet(vendor, s, l, s');
    } else if l.Receive? {
      ReceiveOrdersHandles(s, l.k, s');
    } else if l.Init? {
      InitOrdersHandles(s, l.indCb, l.defaultCb, l.connected, s');
    }
  }

  lemma {:induction false} RunOrdersHandles(vendor: A.Completer, s: Sys, ls: seq<Label>)
    ensures |s.handles| <= |Run(vendor, s, ls).handles|
    ensures HandlesInOrder(s) && |Run(vendor, s, ls).handles| < UINT32 ==> HandlesInOrder(Run(vendor, s, ls))
    decreases |ls|
  {
    if ls != [] {
      StepOrdersHandles(vendor, s, ls[0], Step(vendor, s, ls[0]));
      RunOrdersHandles(vendor, Step(vendor, s, ls[0]), ls[1..]);
    }
  }

  /** Handles strictly increase, and a call with any but the last one changes nothing; one with the last one is
      taken up while the context is initialized. */
  lemma StaleHandleIsRefused(vendor: A.Completer, threads: nat, ls: seq<Label>, s: Sys, t: nat, hndl: nat, call: Call)
    requires s == Reached(vendor, threads, ls) && |s.handles| < UINT32
    ensures forall i: nat, j: nat | i < j < |s.handles| :: s.handles[i] < s.handles[j]
    ensures s.handles == [] || hndl != s.handles[|s.handles| - 1] ==> BeginStep(s, t, hndl, call) == s
    ensures s.handles != [] && hndl == s.handles[|s.handles| - 1] && s.client.initialized
            && t < |s.threads| && s.threads[t].Idle? ==>
              BeginStep(s, t, hndl, call).threads[t].HasId? && BeginStep(s, t, hndl, call).issued == s.issued + 1
  {
    RunOrdersHandles(vendor, Start(threads), ls);
  }

  /** The id is no longer in use by the client. */
  lemma ReceiveForgets(s: Sys, k: nat, s': Sys, u: nat)
    requires Inv(s) && s' == ReceiveStep(s, k) && u <= s.base && u !in s.kept
    ensures u <= s'.base && u !in s'.kept && Occ(s'.fired, FiredId, u) == Occ(s.fired, FiredId, u)
  {
    if k < |s.resps| && !s.resps[k].1.isIndication {
      var msg := s.resps[k].1;
      LookupFindsOwner(s, k, msg.uniqueId);
      OccConcat(s.fired, Fires(FiredBy(s.client, msg)), FiredId, u);
    }
  }

  lemma InitForgets(s: Sys, indCb: Option<Callback>, defaultCb: Option<Callback>, connected: bool, s': Sys)
    requires Shape(s) && s' == InitStep(s, indCb, defaultCb, connected)
    ensures s.base <= s'.base && (s'.kept == s.kept || s'.kept == {}) && s'.fired == s.fired
  {}

  lemma StepForgets(vendor: A.Completer, s: Sys, l: Label, s': Sys, u: nat)
    requires Inv(s) && s' == Step(vendor, s, l) && u <= s.base && u !in s.kept
    ensures u <= s'.base && u !in s'.kept && Occ(s'.fired, FiredId, u) == Occ(s.fired, FiredId, u)
  {
    if OfThread(l) {
      ThreadStepIsQuiet(vendor, s, l, s');
    } else if OfService(l) {
      ServiceStepIsQuiet(vendor, s, l, s');
    } else if l.Receive? {
      ReceiveForgets(s, l.k, s', u);
    } else if l.Init? {
      InitForgets(s, l.indCb, l.defaultCb, l.connected, s');
    }
  }

  /** After an init, whatever happens, no callback fires for a request made before it. */
  lemma {:induction false} LateResponsesNeverFire(vendor: A.Completer, s: Sys, ls: seq<Label>, u: nat)
    requires A.Serving(vendor) && Inv(s) && Carried(s) && u <= s.base && u !in s.kept
    requires Run(vendor, s, ls).issued < UINT32
    ensures Occ(Run(vendor, s, ls).fired, FiredId, u) == Occ(s.fired, FiredId, u)
    decreases |ls|
  {
    if ls != [] {
      var s' := Step(vendor, s, ls[0]);
      RunIssues(vendor, s', ls[1..]);
      StepForgets(vendor, s, ls[0], s', u);
      StepKeeps(vendor, s, ls[0], s');
      LateResponsesNeverFire(vendor, s', ls[1..], u);
    }
  }

  /** Re-init safety over whole runs: when an init is made, every request issued before it has fired as
      often as it ever will. */
  lemma ReinitSafety(vendor: A.Completer, threads: nat, before: seq<Label>, after: seq<Label>,
                     indCb: Option<Callback>, defaultCb: Option<Callback>, connected: bool,
                     s: Sys, s': Sys, end: Sys, u: nat)
    requires A.Serving(vendor) && s == Reached(vendor, threads, before) && AllIdle(s.threads) && u <= s.issued
    requires s' == InitStep(s, indCb, defaultCb, connected) && end == Run(vendor, s', after)
    requires end.issued < UINT32
    ensures Occ(end.fired, FiredId, u) == Occ(s.fired, FiredId, u)
  {
    RunIssues(vendor, s', after);
    assert s'.base == s.issued == s'.issued && s'.fired == s.fired;
    ReachedKeeps(vendor, threads, before, s);
    InitOk(s, indCb, defaultCb, connected, s');
    LateResponsesNeverFire(vendor, s', after, u);
  }
}
