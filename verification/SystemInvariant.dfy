/** What every step of the machine keeps. All of it is said by counting where an id occurs. */
module SystemInvariant {
  import opened Basics
  import opened Occurrences
  import opened Protocol
  import opened PendingOps
  import T = Tracker
  import opened UrilSystem

  function UnfilledId(pc: Pc): int { if pc.HasId? || pc.Filling? then pc.id else -1 }
  function FilledId(pc: Pc): int { if pc.Filled? then pc.id else -1 }
  function FillingSlot(pc: Pc): int { if pc.Filling? then pc.slot else -1 }
  function SlotOf(pc: Pc): int { if pc.Filling? || pc.Filled? then pc.slot else -1 }

  /** Ids that belong to the client's present context. */
  predicate IsCurrent(base: nat, kept: set<nat>, u: nat) {
    u > base || u in kept
  }

  predicate Current(s: Sys, u: nat) {
    IsCurrent(s.base, s.kept, u)
  }

  /** The slot that a thread holds in the present context. */
  function Held(base: nat, kept: set<nat>): Pc -> int {
    (pc: Pc) => if pc.Filling? || (pc.Filled? && IsCurrent(base, kept, pc.id)) then pc.slot else -1
  }

  function HeldIn(s: Sys): Pc -> int {
    Held(s.base, s.kept)
  }

  function SlotId(slot: Slot): int { slot.uniqueId }
  function RequestId(e: (OwnConn, Msg)): int { e.1.uniqueId }
  function ResponseId(e: Envelope): int { if e.1.isIndication then -1 else e.1.uniqueId }
  function Id(u: nat): int { u }
  function FiredId(f: Fire): int { f.uniqueId }

  /** Ids whose slot is not set yet, or that never got one. */
  function Early(s: Sys, u: nat): nat {
    Occ(s.threads, UnfilledId, u) + Occ(s.wasted, Id, u)
  }

  /** Ids on their way: set but unsent, failed to send, in a channel, tracked, or answered into the void. */
  function Open(s: Sys, u: nat): nat {
    Occ(s.threads, FilledId, u) + Occ(s.failed, Id, u) + Occ(s.reqs, RequestId, u)
    + (if Tracks(s, u) then 1 else 0) + Occ(s.resps, ResponseId, u) + Occ(s.lost, Id, u)
  }

  /** Ids whose response the client got. */
  function Closed(s: Sys, u: nat): nat {
    Occ(s.answered, Id, u)
  }

  function Issued(s: Sys, u: nat): nat {
    if 1 <= u <= s.issued then 1 else 0
  }

  /** Slot i belongs to a request that is on its way. */
  predicate Owned(s: Sys, i: nat) {
    i < |s.client.slots| && s.client.slots[i].busy && Occ(s.threads, FillingSlot, i) == 0
  }

  ghost predicate Shape(s: Sys) {
    |s.client.slots| == URIL_MAX_PENDING_OPS && s.client.lastId == s.issued < UINT32 && s.base <= s.issued
  }

  /** Every id issued is in one place, and no other id is anywhere. */
  ghost predicate Ledger(s: Sys) {
    forall u: nat :: Early(s, u) + Open(s, u) + Closed(s, u) == Issued(s, u)
  }

  ghost predicate Ids(s: Sys) {
    forall u: nat | u >= 1 && Occ(s.client.slots, SlotId, u) >= 1 ::
      Occ(s.client.slots, SlotId, u) == 1 && Current(s, u) && Open(s, u) + Closed(s, u) == 1
  }

  ghost predicate Holders(s: Sys) {
    forall i: nat | i < |s.client.slots| :: Occ(s.threads, HeldIn(s), i) <= BusyKey(s.client.slots[i])
  }

  predicate Resolves(a: Ask, cb: Option<Callback>) {
    cb == a.call.cb || (a.call.cb.None? && cb == a.default)
  }

  predicate PcFits(s: Sys, pc: Pc) {
    pc.Idle? ||
    (&& pc.id in s.asked && s.asked[pc.id].call == pc.call && s.asked[pc.id].conn == s.conn
     && (pc.HasId? || pc.Filling? ==>
           Current(s, pc.id) && Resolves(s.asked[pc.id], EffectiveCb(s.client, pc.call.cb)))
     && (pc.Filling? ==>
           && pc.slot < |s.client.slots| && pc.written <= 2
           && (pc.written >= 1 ==> Resolves(s.asked[pc.id], s.client.slots[pc.slot].asyncCb))
           && (pc.written >= 2 ==> s.client.slots[pc.slot].clientData == pc.call.data))
     && (pc.Filled? && Current(s, pc.id) ==>
           pc.slot < |s.client.slots| && s.client.slots[pc.slot].uniqueId == pc.id))
  }

  ghost predicate Threads(s: Sys) {
    forall t: nat | t < |s.threads| :: PcFits(s, s.threads[t])
  }

  /** A slot belongs to a request on its way exactly when the request of its id is on its way. */
  ghost predicate Tenants(s: Sys) {
    forall i: nat | i < |s.client.slots| ::
      Owned(s, i) <==> s.client.slots[i].uniqueId != 0 && Open(s, s.client.slots[i].uniqueId) >= 1
  }

  /** Every request on its way since the last init has a slot. */
  ghost predicate Homes(s: Sys) {
    forall u: nat | Current(s, u) && Open(s, u) >= 1 :: Occ(s.client.slots, SlotId, u) >= 1
  }

  ghost predicate Asks(s: Sys) {
    forall u: nat :: u in s.asked <==> Issued(s, u) == 1
  }

  ghost predicate Contents(s: Sys) {
    forall i: nat | Owned(s, i) :: SlotHolds(s.client.slots[i], s.asked)
  }

  predicate SlotHolds(slot: Slot, asked: map<nat, Ask>) {
    && slot.uniqueId in asked && slot.clientData == asked[slot.uniqueId].call.data
    && Resolves(asked[slot.uniqueId], slot.asyncCb)
  }

  predicate FireFits(f: Fire, asked: map<nat, Ask>) {
    && f.uniqueId in asked && f.clientData == asked[f.uniqueId].call.data
    && Resolves(asked[f.uniqueId], Some(f.cb))
  }

  ghost predicate Fired(s: Sys) {
    && (forall k: nat | k < |s.fired| :: FireFits(s.fired[k], s.asked))
    && (forall u: nat :: Occ(s.fired, FiredId, u) <= Closed(s, u))
  }

  ghost predicate Count(s: Sys) {
    s.acquired == s.freed + BusyCount(s.client.slots)
  }

  ghost predicate Counted(s: Sys) {
    Shape(s) && Ledger(s) && Ids(s) && Holders(s) && Tenants(s) && Homes(s) && Count(s)
  }

  ghost predicate Recorded(s: Sys) {
    Threads(s) && Asks(s) && Contents(s) && Fired(s)
  }

  ghost predicate Inv(s: Sys) {
    Counted(s) && Recorded(s)
  }

  // ---- steps of the service ----

  predicate ClientSame(s: Sys, t: Sys) {
    && s.client == t.client && s.threads == t.threads && s.conn == t.conn
    && s.wasted == t.wasted && s.failed == t.failed && s.answered == t.answered
    && s.issued == t.issued && s.base == t.base && s.kept == t.kept && s.acquired == t.acquired && s.freed == t.freed
    && s.asked == t.asked && s.fired == t.fired
  }

  ghost predicate ServiceStep(s: Sys, t: Sys) {
    ClientSame(s, t) && forall u: nat :: Open(t, u) == Open(s, u)
  }

  lemma ServiceStepKeeps(s: Sys, t: Sys)
    requires Inv(s) && ServiceStep(s, t)
    ensures Inv(t)
  {
    ServiceStepCounts(s, t);
    ServiceStepRecords(s, t);
  }

  lemma ServiceStepRecords(s: Sys, t: Sys)
    requires Inv(s) && ClientSame(s, t)
    ensures Recorded(t)
  {
    forall i: nat ensures Owned(t, i) == Owned(s, i) {}
    forall i: nat | i < |t.threads| ensures PcFits(t, t.threads[i]) {
      assert PcFits(s, s.threads[i]);
    }
    forall u: nat ensures Occ(t.fired, FiredId, u) <= Closed(t, u) {
      assert Occ(s.fired, FiredId, u) <= Closed(s, u);
    }
  }

  lemma ServiceStepCounts(s: Sys, t: Sys)
    requires Counted(s) && ServiceStep(s, t)
    ensures Counted(t)
  {
    forall u: nat ensures Early(t, u) + Open(t, u) + Closed(t, u) == Issued(t, u) {
      assert Early(s, u) + Open(s, u) + Closed(s, u) == Issued(s, u);
    }
    forall i: nat ensures Owned(t, i) == Owned(s, i) {}
  }

  lemma TrackIsService(s: Sys, k: nat)
    requires Ledger(s)
    ensures ServiceStep(s, TrackStep(s, k))
  {
    if s.up && k < |s.reqs| {
      var id := s.reqs[k].1.uniqueId;
      OccAt(s.reqs, k, RequestId);
      assert Early(s, id) + Open(s, id) + Closed(s, id) == Issued(s, id);
      assert !Tracks(s, id);
      forall u: nat ensures Open(TrackStep(s, k), u) == Open(s, u) {
        OccWithout(s.reqs, k, RequestId, u);
      }
    }
  }

  lemma RespondIsService(s: Sys, msg: Msg, ok: bool)
    requires !msg.isIndication
    ensures ServiceStep(s, Respond(s, msg, ok))
  {
    forall u: nat | msg.uniqueId in s.pending ensures Open(Respond(s, msg, ok), u) == Open(s, u) {
      OccAppend(s.resps, (s.pending[msg.uniqueId], msg), ResponseId, u);
      OccAppend(s.lost, msg.uniqueId, Id, u);
    }
  }

  lemma IntrudeIsService(s: Sys, id: nat, fails: bool)
    ensures ServiceStep(s, IntrudeStep(s, id, fails))
  {
    forall u: nat ensures Open(IntrudeStep(s, id, fails), u) == Open(s, u) {
      OccAppend(s.lost, id, Id, u);
    }
  }

  lemma {:induction false} IndicationsDoNotCount(conns: seq<Conn>, msg: Msg, u: nat)
    requires msg.isIndication
    ensures Occ(T.Copies(conns, msg), ResponseId, u) == 0
  {
    OccNone(T.Copies(conns, msg), ResponseId, u);
  }

  lemma IndicateIsService(s: Sys, conns: seq<Conn>, msg: Msg)
    ensures ServiceStep(s, IndicateStep(s, conns, msg))
  {
    if s.up && msg.isIndication {
      forall u: nat ensures Open(IndicateStep(s, conns, msg), u) == Open(s, u) {
        OccConcat(s.resps, T.Copies(conns, msg), ResponseId, u);
        IndicationsDoNotCount(conns, msg, u);
      }
    }
  }

  // ---- steps of the client ----

  lemma Moves(threads: seq<Pc>, t: nat, pc: Pc, key: Pc -> int)
    requires t < |threads|
    ensures forall u: nat ::
      Occ(threads[t := pc], key, u) + (if key(threads[t]) == u then 1 else 0)
      == Occ(threads, key, u) + if key(pc) == u then 1 else 0
  {
    forall u: nat ensures
      Occ(threads[t := pc], key, u) + (if key(threads[t]) == u then 1 else 0)
      == Occ(threads, key, u) + if key(pc) == u then 1 else 0
    {
      OccUpdate(threads, t, pc, key, u);
    }
  }

  lemma AllMoves(threads: seq<Pc>, t: nat, pc: Pc, after: seq<Pc>, held: Pc -> int)
    requires t < |threads| && after == threads[t := pc]
    ensures forall u: nat :: Occ(after, UnfilledId, u) + (if UnfilledId(threads[t]) == u then 1 else 0)
                          == Occ(threads, UnfilledId, u) + if UnfilledId(pc) == u then 1 else 0
    ensures forall u: nat :: Occ(after, FilledId, u) + (if FilledId(threads[t]) == u then 1 else 0)
                          == Occ(threads, FilledId, u) + if FilledId(pc) == u then 1 else 0
    ensures forall u: nat :: Occ(after, FillingSlot, u) + (if FillingSlot(threads[t]) == u then 1 else 0)
                          == Occ(threads, FillingSlot, u) + if FillingSlot(pc) == u then 1 else 0
    ensures forall u: nat :: Occ(after, held, u) + (if held(threads[t]) == u then 1 else 0)
                          == Occ(threads, held, u) + if held(pc) == u then 1 else 0
  {
    Moves(threads, t, pc, UnfilledId);
    Moves(threads, t, pc, FilledId);
    Moves(threads, t, pc, FillingSlot);
    Moves(threads, t, pc, held);
  }

  /** Nothing moves between places, and no slot changes its id or its tenant. */
  ghost predicate SamePlaces(s: Sys, t: Sys) {
    && s.issued == t.issued && s.base == t.base && s.kept == t.kept && s.client.lastId == t.client.lastId
    && (forall u: nat :: Early(t, u) == Early(s, u) && Open(t, u) == Open(s, u) && Closed(t, u) == Closed(s, u))
    && SameTenants(s, t)
  }

  ghost predicate SameTenants(s: Sys, t: Sys) {
    && |t.client.slots| == |s.client.slots|
    && (forall i: nat | i < |s.client.slots| ::
          t.client.slots[i].uniqueId == s.client.slots[i].uniqueId && Owned(t, i) == Owned(s, i))
    && (forall u: nat :: Occ(t.client.slots, SlotId, u) == Occ(s.client.slots, SlotId, u))
  }

  lemma CountsFrom(s: Sys, t: Sys)
    requires Counted(s) && SamePlaces(s, t) && Holders(t) && Count(t)
    ensures Counted(t)
  {
    forall u: nat ensures Early(t, u) + Open(t, u) + Closed(t, u) == Issued(t, u) {
      assert Early(s, u) + Open(s, u) + Closed(s, u) == Issued(s, u);
    }
    forall i: nat | i < |t.client.slots|
      ensures Owned(t, i) <==> t.client.slots[i].uniqueId != 0 && Open(t, t.client.slots[i].uniqueId) >= 1
    {
      assert Owned(s, i) <==> s.client.slots[i].uniqueId != 0 && Open(s, s.client.slots[i].uniqueId) >= 1;
    }
  }

  /** The records of s are those of t, and owned slots of t were owned, and the same, in s. */
  ghost predicate RecordsGrow(s: Sys, t: Sys) {
    && s.fired == t.fired && s.answered == t.answered
    && (forall u | u in s.asked :: u in t.asked && t.asked[u] == s.asked[u])
    && |t.client.slots| == |s.client.slots|
    && (forall i: nat | Owned(t, i) :: Owned(s, i) && t.client.slots[i] == s.client.slots[i])
  }

  lemma RecordsFrom(s: Sys, t: Sys)
    requires Recorded(s) && RecordsGrow(s, t) && Asks(t) && Threads(t)
    ensures Recorded(t)
  {
    forall i: nat | Owned(t, i) ensures SlotHolds(t.client.slots[i], t.asked) {
      assert SlotHolds(s.client.slots[i], s.asked);
    }
    forall k: nat | k < |t.fired| ensures FireFits(t.fired[k], t.asked) {
      assert FireFits(s.fired[k], s.asked);
    }
    forall u: nat ensures Occ(t.fired, FiredId, u) <= Closed(t, u) {
      assert Occ(s.fired, FiredId, u) <= Closed(s, u);
    }
  }

  /** A thread that is not the one taking the step. */
  lemma PcStays(s: Sys, t: Sys, pc: Pc)
    requires PcFits(s, pc)
    requires s.base == t.base && s.kept == t.kept && s.conn == t.conn && |t.client.slots| == |s.client.slots|
    requires t.client.defaultCb == s.client.defaultCb || t.client.defaultCb.None?
    requires forall u | u in s.asked :: u in t.asked && t.asked[u] == s.asked[u]
    requires HeldIn(s)(pc) >= 0 && pc.slot < |s.client.slots| ==>
               SameFields(s.client.slots[pc.slot], t.client.slots[pc.slot])
    ensures PcFits(t, pc)
  {}

  predicate SameFields(x: Slot, y: Slot) {
    x.uniqueId == y.uniqueId && x.clientData == y.clientData && x.asyncCb == y.asyncCb
  }

  ghost predicate IdIsMade(s: Sys, t: Sys, id: nat) {
    && t.issued == id == s.issued + 1 == t.client.lastId && s.base == t.base && s.kept == t.kept
    && t.client.slots == s.client.slots
    && (forall u: nat :: Early(t, u) == Early(s, u) + if u == id then 1 else 0)
    && (forall u: nat :: Open(t, u) == Open(s, u) && Closed(t, u) == Closed(s, u))
    && (forall i: nat :: Owned(t, i) == Owned(s, i) && Occ(t.threads, HeldIn(t), i) == Occ(s.threads, HeldIn(s), i))
    && s.acquired == t.acquired && s.freed == t.freed
  }

  lemma BeginMakes(s: Sys, t: nat, hndl: nat, call: Call, s': Sys)
    requires Shape(s) && s' == BeginStep(s, t, hndl, call) && s' != s && s'.issued < UINT32
    ensures IdIsMade(s, s', s.issued + 1)
  {
    AllMoves(s.threads, t, HasId(call, s.issued + 1), s'.threads, HeldIn(s));
  }

  lemma MadeCounts(s: Sys, t: Sys)
    requires Counted(s) && IdIsMade(s, t, s.issued + 1) && t.issued < UINT32
    ensures Counted(t)
  {
    forall u: nat ensures Early(t, u) + Open(t, u) + Closed(t, u) == Issued(t, u) {
      assert Early(s, u) + Open(s, u) + Closed(s, u) == Issued(s, u);
    }
  }

  lemma BeginRecords(s: Sys, t: nat, hndl: nat, call: Call)
    requires Inv(s) && BeginStep(s, t, hndl, call).issued < UINT32
    ensures Recorded(BeginStep(s, t, hndl, call))
  {
    var s' := BeginStep(s, t, hndl, call);
    if s' != s {
      var id := s.issued + 1;
      AllMoves(s.threads, t, HasId(call, id), s'.threads, HeldIn(s));
      assert Issued(s, id) == 0;
      forall i: nat ensures Owned(s', i) == Owned(s, i) {}
      forall i: nat | i < |s'.threads| ensures PcFits(s', s'.threads[i]) {
        if i != t {
          PcStays(s, s', s.threads[i]);
        }
      }
      RecordsFrom(s, s');
    }
  }

  lemma BeginKeeps(s: Sys, t: nat, hndl: nat, call: Call)
    requires Inv(s) && BeginStep(s, t, hndl, call).issued < UINT32
    ensures Inv(BeginStep(s, t, hndl, call))
  {
    var s' := BeginStep(s, t, hndl, call);
    if s' != s {
      BeginMakes(s, t, hndl, call, s');
      MadeCounts(s, s');
      BeginRecords(s, t, hndl, call);
    }
  }

  lemma SlotUpdates(slots: seq<Slot>, i: nat, slot: Slot, after: seq<Slot>)
    requires i < |slots| && after == slots[i := slot]
    ensures BusyCount(after) + BusyKey(slots[i]) == BusyCount(slots) + BusyKey(slot)
    ensures forall u: nat :: Occ(after, SlotId, u) + (if slots[i].uniqueId == u then 1 else 0)
                          == Occ(slots, SlotId, u) + if slot.uniqueId == u then 1 else 0
  {
    OccUpdate(slots, i, slot, BusyKey, 1);
    forall u: nat ensures Occ(after, SlotId, u) + (if slots[i].uniqueId == u then 1 else 0)
                          == Occ(slots, SlotId, u) + if slot.uniqueId == u then 1 else 0
    {
      OccUpdate(slots, i, slot, SlotId, u);
    }
  }

  lemma RefusedKeeps(s: Sys, t: nat)
    requires Inv(s) && t < |s.threads| && s.threads[t].HasId?
    ensures Inv(RefusedStep(s, t))
  {
    var s' := RefusedStep(s, t);
    AllMoves(s.threads, t, Idle, s'.threads, HeldIn(s));
    forall u: nat ensures Early(s', u) == Early(s, u) && Open(s', u) == Open(s, u) {
      OccAppend(s.wasted, s.threads[t].id, Id, u);
    }
    CountsFrom(s, s');
    forall i: nat | i < |s'.threads| ensures PcFits(s', s'.threads[i]) {
      if i != t {
        PcStays(s, s', s.threads[i]);
      }
    }
    RecordsFrom(s, s');
  }

  lemma TakeMoves(s: Sys, t: nat, i: nat)
    requires t < |s.threads| && s.threads[t].HasId? && i < |s.client.slots|
    requires !s.client.slots[i].busy && Holders(s)
    ensures SamePlaces(s, TakeStep(s, t, i)) && Holders(TakeStep(s, t, i))
    ensures BusyCount(TakeStep(s, t, i).client.slots) == BusyCount(s.client.slots) + 1
  {
    var s' := TakeStep(s, t, i);
    AllMoves(s.threads, t, s'.threads[t], s'.threads, HeldIn(s));
    SlotUpdates(s.client.slots, i, s'.client.slots[i], s'.client.slots);
    assert Occ(s.threads, HeldIn(s), i) == 0;
  }

  lemma TakeThreads(s: Sys, t: nat, i: nat)
    requires Threads(s) && t < |s.threads| && s.threads[t].HasId? && i < |s.client.slots|
    ensures Threads(TakeStep(s, t, i))
  {
    var s' := TakeStep(s, t, i);
    forall k: nat | k < |s'.threads| ensures PcFits(s', s'.threads[k]) {
      assert PcFits(s, s.threads[k]);
      if k != t {
        PcStays(s, s', s.threads[k]);
      }
    }
  }

  lemma TakeKeeps(s: Sys, t: nat, i: nat)
    requires Inv(s) && t < |s.threads| && s.threads[t].HasId?
    requires i < |s.client.slots| && !s.client.slots[i].busy
    ensures Inv(TakeStep(s, t, i))
  {
    TakeMoves(s, t, i);
    TakeThreads(s, t, i);
    CountsFrom(s, TakeStep(s, t, i));
    RecordsFrom(s, TakeStep(s, t, i));
  }

  lemma {:induction false} FillingIsHolding(threads: seq<Pc>, base: nat, kept: set<nat>, i: nat)
    ensures Occ(threads, FillingSlot, i) <= Occ(threads, Held(base, kept), i)
  {
    if threads != [] {
      FillingIsHolding(threads[1..], base, kept, i);
    }
  }

  /** A thread that is filling a slot has it for itself, and the slot is no one's yet. */
  lemma FillerIsAlone(s: Sys, t: nat, i: nat)
    requires Holders(s) && t < |s.threads| && s.threads[t].Filling? && s.threads[t].slot == i < |s.client.slots|
    ensures s.client.slots[i].busy && Occ(s.threads, FillingSlot, i) == 1 && !Owned(s, i)
    ensures forall k: nat | k < |s.threads| && k != t :: HeldIn(s)(s.threads[k]) != i
  {
    OccAt(s.threads, t, HeldIn(s));
    OccAt(s.threads, t, FillingSlot);
    FillingIsHolding(s.threads, s.base, s.kept, i);
    forall k: nat | k < |s.threads| && k != t ensures HeldIn(s)(s.threads[k]) != i {
      if HeldIn(s)(s.threads[k]) == i {
        OccUnique(s.threads, t, k, HeldIn(s));
      }
    }
  }

  predicate AtWrite(s: Sys, t: nat, last: bool) {
    && t < |s.threads| && s.threads[t].Filling? && s.threads[t].slot < |s.client.slots|
    && (last <==> s.threads[t].written == 2) && s.threads[t].written <= 2
  }

  lemma FieldPlaces(s: Sys, t: nat, s': Sys)
    requires Holders(s) && AtWrite(s, t, false) && s' == WriteStep(s, t)
    ensures SamePlaces(s, s') && Holders(s') && BusyCount(s'.client.slots) == BusyCount(s.client.slots)
  {
    AllMoves(s.threads, t, s'.threads[t], s'.threads, HeldIn(s));
    var i := s.threads[t].slot;
    SlotUpdates(s.client.slots, i, s'.client.slots[i], s'.client.slots);
  }

  lemma FieldThreads(s: Sys, t: nat, s': Sys)
    requires Holders(s) && Threads(s) && AtWrite(s, t, false) && s' == WriteStep(s, t)
    ensures Threads(s')
  {
    FillerIsAlone(s, t, s.threads[t].slot);
    forall k: nat | k < |s'.threads| ensures PcFits(s', s'.threads[k]) {
      assert PcFits(s, s.threads[k]);
      if k != t {
        PcStays(s, s', s.threads[k]);
      }
    }
  }

  lemma FieldKeeps(s: Sys, t: nat, s': Sys)
    requires Inv(s) && AtWrite(s, t, false) && s' == WriteStep(s, t)
    ensures Inv(s')
  {
    FieldPlaces(s, t, s');
    FieldThreads(s, t, s');
    CountsFrom(s, s');
    FillerIsAlone(s, t, s.threads[t].slot);
    RecordsFrom(s, s');
  }

  /** The last write brings the id into the slot, and the request on its way. */
  ghost predicate IdEnters(s: Sys, t: Sys, i: nat, id: nat)
    requires i < |s.client.slots| == |t.client.slots|
  {
    var old_ := s.client.slots[i].uniqueId;
    && (forall u: nat :: Early(s, u) == Early(t, u) + if u == id then 1 else 0)
    && (forall u: nat :: Open(t, u) == Open(s, u) + if u == id then 1 else 0)
    && (forall u: nat :: Closed(t, u) == Closed(s, u))
    && (forall u: nat :: Occ(t.client.slots, SlotId, u) + (if old_ == u then 1 else 0)
                      == Occ(s.client.slots, SlotId, u) + if id == u then 1 else 0)
    && (forall k: nat | k < |s.client.slots| && k != i ::
          t.client.slots[k] == s.client.slots[k] && Owned(t, k) == Owned(s, k))
    && t.client.slots[i].uniqueId == id && Owned(t, i)
    && t.issued == s.issued && t.base == s.base && t.kept == s.kept && t.client.lastId == s.client.lastId
  }

  lemma IdWriteEnters(s: Sys, t: nat, s': Sys)
    requires Holders(s) && AtWrite(s, t, true) && s' == WriteStep(s, t)
    ensures |s.client.slots| == |s'.client.slots| && IdEnters(s, s', s.threads[t].slot, s.threads[t].id)
    ensures Holders(s') && BusyCount(s'.client.slots) == BusyCount(s.client.slots)
  {
    var i := s.threads[t].slot;
    FillerIsAlone(s, t, i);
    AllMoves(s.threads, t, s'.threads[t], s'.threads, HeldIn(s));
    SlotUpdates(s.client.slots, i, s'.client.slots[i], s'.client.slots);
  }

  lemma EnteredIsNew(s: Sys, t: nat)
    requires Ledger(s) && Ids(s) && Asks(s) && t < |s.threads| && PcFits(s, s.threads[t]) && s.threads[t].Filling?
    ensures var id := s.threads[t].id;
            && id >= 1 && Current(s, id) && Early(s, id) == 1 && Open(s, id) == 0 && Closed(s, id) == 0
            && Occ(s.client.slots, SlotId, id) == 0
  {
    var id := s.threads[t].id;
    OccAt(s.threads, t, UnfilledId);
    assert Early(s, id) + Open(s, id) + Closed(s, id) == Issued(s, id);
  }

  lemma EnterTenants(s: Sys, t: Sys, i: nat, id: nat)
    requires Tenants(s) && i < |s.client.slots| == |t.client.slots| && IdEnters(s, t, i, id)
    requires id >= 1 && Current(s, id) && Open(s, id) == 0 && Occ(s.client.slots, SlotId, id) == 0
    ensures Tenants(t)
  {
    forall k: nat | k < |t.client.slots|
      ensures Owned(t, k) <==> t.client.slots[k].uniqueId != 0 && Open(t, t.client.slots[k].uniqueId) >= 1
    {
      var v := t.client.slots[k].uniqueId;
      if k != i {
        OccAt(s.client.slots, k, SlotId);
        assert v != id && Open(t, v) == Open(s, v);
        assert Owned(s, k) <==> v != 0 && Open(s, v) >= 1;
      } else {
        assert Open(t, id) == 1;
      }
    }
  }

  lemma EnterHomes(s: Sys, t: Sys, i: nat, id: nat)
    requires Tenants(s) && Homes(s) && Ids(s) && i < |s.client.slots| == |t.client.slots| && IdEnters(s, t, i, id)
    requires id >= 1 && Current(s, id) && Open(s, id) == 0 && Occ(s.client.slots, SlotId, id) == 0 && !Owned(s, i)
    requires Closed(s, id) == 0 && Open(s, 0) == 0
    ensures Homes(t) && Ids(t)
  {
    var v := s.client.slots[i].uniqueId;
    OccAt(s.client.slots, i, SlotId);
    assert v != id && (v == 0 || Open(s, v) == 0);
    forall u: nat | Current(t, u) && Open(t, u) >= 1 ensures Occ(t.client.slots, SlotId, u) >= 1 {
      assert u == id || Open(s, u) >= 1;
    }
    forall u: nat | u >= 1 && Occ(t.client.slots, SlotId, u) >= 1
      ensures Occ(t.client.slots, SlotId, u) == 1 && Current(t, u) && Open(t, u) + Closed(t, u) == 1
    {
      assert u == id || Occ(s.client.slots, SlotId, u) >= 1;
    }
  }

  lemma EnterCounts(s: Sys, t: Sys, i: nat, id: nat)
    requires Counted(s) && i < |s.client.slots| == |t.client.slots| && IdEnters(s, t, i, id)
    requires id >= 1 && Current(s, id) && Open(s, id) == 0 && Closed(s, id) == 0 && Occ(s.client.slots, SlotId, id) == 0
    requires !Owned(s, i) && Holders(t) && Count(t)
    ensures Counted(t)
  {
    forall u: nat ensures Early(t, u) + Open(t, u) + Closed(t, u) == Issued(t, u) {
      assert Early(s, u) + Open(s, u) + Closed(s, u) == Issued(s, u);
    }
    assert Early(s, 0) + Open(s, 0) + Closed(s, 0) == Issued(s, 0);
    EnterTenants(s, t, i, id);
    EnterHomes(s, t, i, id);
  }

  lemma IdWriteRecords(s: Sys, t: nat, s': Sys)
    requires Inv(s) && AtWrite(s, t, true) && s' == WriteStep(s, t)
    requires IdEnters(s, s', s.threads[t].slot, s.threads[t].id)
    ensures Recorded(s')
  {
    var i := s.threads[t].slot;
    FillerIsAlone(s, t, i);
    assert PcFits(s, s.threads[t]);
    forall k: nat | k < |s'.threads| ensures PcFits(s', s'.threads[k]) {
      if k != t {
        PcStays(s, s', s.threads[k]);
      }
    }
    forall k: nat | Owned(s', k) ensures SlotHolds(s'.client.slots[k], s'.asked) {
      if k != i {
        assert SlotHolds(s.client.slots[k], s.asked);
      }
    }
    forall u: nat ensures Occ(s'.fired, FiredId, u) <= Closed(s', u) {
      assert Occ(s.fired, FiredId, u) <= Closed(s, u);
    }
  }

  lemma IdWriteKeeps(s: Sys, t: nat, s': Sys)
    requires Inv(s) && AtWrite(s, t, true) && s' == WriteStep(s, t)
    ensures Inv(s')
  {
    var i, id := s.threads[t].slot, s.threads[t].id;
    EnteredIsNew(s, t);
    FillerIsAlone(s, t, i);
    IdWriteEnters(s, t, s');
    EnterCounts(s, s', i, id);
    IdWriteRecords(s, t, s');
  }

  lemma WriteKeeps(s: Sys, t: nat)
    requires Inv(s)
    ensures Inv(WriteStep(s, t))
  {
    if t < |s.threads| && s.threads[t].Filling? {
      assert PcFits(s, s.threads[t]);
      if s.threads[t].written == 2 {
        IdWriteKeeps(s, t, WriteStep(s, t));
      } else {
        FieldKeeps(s, t, WriteStep(s, t));
      }
    }
  }

  lemma SendPlaces(s: Sys, t: nat, ok: bool, s': Sys)
    requires Holders(s) && t < |s.threads| && s.threads[t].Filled? && s' == SendStep(s, t, ok)
    ensures SamePlaces(s, s') && Holders(s')
  {
    AllMoves(s.threads, t, Idle, s'.threads, HeldIn(s));
    forall u: nat ensures Open(s', u) == Open(s, u) {
      OccAppend(s.failed, s.threads[t].id, Id, u);
      OccAppend(s.reqs, (s.conn, UrilSystem.RequestOf(s.threads[t])), RequestId, u);
    }
  }

  lemma SendKeeps(s: Sys, t: nat, ok: bool)
    requires Inv(s)
    ensures Inv(SendStep(s, t, ok))
  {
    var s' := SendStep(s, t, ok);
    if t < |s.threads| && s.threads[t].Filled? {
      SendPlaces(s, t, ok, s');
      CountsFrom(s, s');
      forall k: nat | k < |s'.threads| ensures PcFits(s', s'.threads[k]) {
        if k != t {
          PcStays(s, s', s.threads[k]);
        }
      }
      RecordsFrom(s, s');
    }
  }

  lemma IndicationIsService(s: Sys, k: nat)
    requires k < |s.resps| && s.resps[k].1.isIndication
    ensures ServiceStep(s, ReceiveStep(s, k))
  {
    forall u: nat ensures Open(ReceiveStep(s, k), u) == Open(s, u) {
      OccWithout(s.resps, k, ResponseId, u);
    }
  }

  /** A response leaves the channel for good. */
  ghost predicate IdLeaves(s: Sys, t: Sys, id: nat) {
    && s.issued == t.issued && s.base == t.base && s.kept == t.kept && t.client.lastId == s.client.lastId
    && (forall u: nat :: Early(t, u) == Early(s, u))
    && (forall u: nat :: Open(s, u) == Open(t, u) + if u == id then 1 else 0)
    && (forall u: nat :: Closed(t, u) == Closed(s, u) + if u == id then 1 else 0)
    && t.threads == s.threads && |t.client.slots| == |s.client.slots|
    && (forall i: nat | i < |s.client.slots| :: SameFields(s.client.slots[i], t.client.slots[i]))
    && (forall u: nat :: Occ(t.client.slots, SlotId, u) == Occ(s.client.slots, SlotId, u))
  }

  lemma LeavingWasOpen(s: Sys, k: nat, id: nat)
    requires Ledger(s) && k < |s.resps| && !s.resps[k].1.isIndication && s.resps[k].1.uniqueId == id
    ensures Occ(s.resps, ResponseId, id) == 1 && Open(s, id) == 1 && Closed(s, id) == 0 && Early(s, id) == 0
    ensures Issued(s, id) == 1 && Occ(s.threads, FilledId, id) == 0
  {
    OccAt(s.resps, k, ResponseId);
    assert Early(s, id) + Open(s, id) + Closed(s, id) == Issued(s, id);
  }

  lemma ReceiveMoves(s: Sys, k: nat, id: nat, s': Sys)
    requires k < |s.resps| && !s.resps[k].1.isIndication && s.resps[k].1.uniqueId == id
    requires s' == ReceiveStep(s, k)
    ensures IdLeaves(s, s', id)
  {
    forall u: nat ensures Open(s, u) == Open(s', u) + (if u == id then 1 else 0)
                       && Closed(s', u) == Closed(s, u) + if u == id then 1 else 0
    {
      OccWithout(s.resps, k, ResponseId, u);
      OccAppend(s.answered, id, Id, u);
    }
    var i := FirstWithId(s.client.slots, id);
    if i.Some? {
      SlotUpdates(s.client.slots, i.value, s'.client.slots[i.value], s'.client.slots);
    }
  }

  /** The slot a response finds: the owner's, if the request was made since the last init; else none. */
  lemma LookupFindsOwner(s: Sys, k: nat, id: nat)
    requires Inv(s) && k < |s.resps| && !s.resps[k].1.isIndication && s.resps[k].1.uniqueId == id
    ensures var r := FirstWithId(s.client.slots, id);
            && (r.Some? <==> Current(s, id))
            && (r.Some? ==> Owned(s, r.value) && s.client.slots[r.value].uniqueId == id
                            && Occ(s.threads, HeldIn(s), r.value) == 0)
  {
    LeavingWasOpen(s, k, id);
    var r := FirstWithId(s.client.slots, id);
    if r.Some? {
      OccAt(s.client.slots, r.value, SlotId);
      assert Current(s, id);
      if Occ(s.threads, HeldIn(s), r.value) >= 1 {
        var t := OccFind(s.threads, HeldIn(s), r.value);
        assert PcFits(s, s.threads[t]);
        if s.threads[t].Filled? {
          OccAt(s.threads, t, FilledId);
        } else {
          OccAt(s.threads, t, FillingSlot);
        }
        assert false;
      }
    } else if Current(s, id) {
      var i := OccFind(s.client.slots, SlotId, id);
    }
  }

  /** The slot that the response found, if any, is freed. */
  ghost predicate FreedAt(s: Sys, t: Sys, id: nat) {
    forall i: nat | i < |s.client.slots| ::
      Owned(t, i) <==> Owned(s, i) && !(Current(s, id) && s.client.slots[i].uniqueId == id)
  }

  lemma LeaveCounts(s: Sys, t: Sys, id: nat)
    requires Counted(s) && IdLeaves(s, t, id) && FreedAt(s, t, id) && Holders(t) && Count(t)
    requires Open(s, id) == 1
    ensures Counted(t)
  {
    forall u: nat ensures Early(t, u) + Open(t, u) + Closed(t, u) == Issued(t, u) {
      assert Early(s, u) + Open(s, u) + Closed(s, u) == Issued(s, u);
    }
    forall i: nat | i < |t.client.slots|
      ensures Owned(t, i) <==> t.client.slots[i].uniqueId != 0 && Open(t, t.client.slots[i].uniqueId) >= 1
    {
      var v := s.client.slots[i].uniqueId;
      assert SameFields(s.client.slots[i], t.client.slots[i]);
      OccAt(s.client.slots, i, SlotId);
      assert Open(s, v) == Open(t, v) + if v == id then 1 else 0;
      assert Owned(s, i) <==> v != 0 && Open(s, v) >= 1;
    }
  }

  lemma ReceiveFrees(s: Sys, k: nat, id: nat, s': Sys)
    requires Inv(s) && k < |s.resps| && !s.resps[k].1.isIndication && s.resps[k].1.uniqueId == id
    requires s' == ReceiveStep(s, k)
    ensures FreedAt(s, s', id) && Holders(s') && Count(s')
    ensures BusyCount(s.client.slots) == BusyCount(s'.client.slots) + if Current(s, id) then 1 else 0
  {
    LookupFindsOwner(s, k, id);
    var r := FirstWithId(s.client.slots, id);
    if r.Some? {
      SlotUpdates(s.client.slots, r.value, s'.client.slots[r.value], s'.client.slots);
      forall i: nat | i < |s.client.slots| && s.client.slots[i].uniqueId == id ensures i == r.value {
        OccAt(s.client.slots, i, SlotId);
        OccUnique(s.client.slots, i, r.value, SlotId);
      }
    }
  }

  lemma ReceiveThreads(s: Sys, k: nat, id: nat, s': Sys)
    requires Threads(s) && IdLeaves(s, s', id) && s' == ReceiveStep(s, k)
    ensures Threads(s')
  {
    forall t: nat | t < |s'.threads| ensures PcFits(s', s'.threads[t]) {
      PcStays(s, s', s.threads[t]);
    }
  }

  lemma ReceiveFires(s: Sys, k: nat, id: nat, s': Sys)
    requires Inv(s) && k < |s.resps| && !s.resps[k].1.isIndication && s.resps[k].1.uniqueId == id
    requires s' == ReceiveStep(s, k)
    ensures Fired(s')
  {
    LookupFindsOwner(s, k, id);
    var fire := FiredBy(s.client, s.resps[k].1);
    if fire.Some? {
      assert SlotHolds(s.client.slots[FirstWithId(s.client.slots, id).value], s.asked);
      assert FireFits(fire.value, s.asked);
    }
    forall u: nat ensures Occ(s'.fired, FiredId, u) <= Closed(s', u) {
      assert Occ(s.fired, FiredId, u) <= Closed(s, u);
      OccAppend(s.answered, id, Id, u);
      OccConcat(s.fired, Fires(fire), FiredId, u);
    }
  }

  lemma ReceiveContents(s: Sys, id: nat, s': Sys)
    requires Contents(s) && IdLeaves(s, s', id) && FreedAt(s, s', id) && s'.asked == s.asked
    ensures Contents(s')
  {
    forall i: nat | Owned(s', i) ensures SlotHolds(s'.client.slots[i], s'.asked) {
      assert SlotHolds(s.client.slots[i], s.asked);
      assert SameFields(s.client.slots[i], s'.client.slots[i]);
    }
  }

  lemma ResponseKeeps(s: Sys, k: nat, id: nat)
    requires Inv(s) && k < |s.resps| && !s.resps[k].1.isIndication && s.resps[k].1.uniqueId == id
    ensures Inv(ReceiveStep(s, k))
  {
    var s' := ReceiveStep(s, k);
    LeavingWasOpen(s, k, id);
    ReceiveMoves(s, k, id, s');
    ReceiveFrees(s, k, id, s');
    LeaveCounts(s, s', id);
    ReceiveThreads(s, k, id, s');
    ReceiveFires(s, k, id, s');
    ReceiveContents(s, id, s');
  }

  lemma ReceiveKeeps(s: Sys, k: nat)
    requires Inv(s)
    ensures Inv(ReceiveStep(s, k))
  {
    if k < |s.resps| {
      if s.resps[k].1.isIndication {
        IndicationIsService(s, k);
        ServiceStepKeeps(s, ReceiveStep(s, k));
      } else {
        ResponseKeeps(s, k, s.resps[k].1.uniqueId);
      }
    }
  }

  lemma InitCounts(s: Sys, indCb: Option<Callback>, defaultCb: Option<Callback>, connected: bool, s': Sys)
    requires Counted(s) && AllIdle(s.threads) && s' == InitStep(s, indCb, defaultCb, connected)
    ensures Counted(s')
  {
    forall u: nat ensures Early(s', u) + Open(s', u) + Closed(s', u) == Issued(s', u) {
      assert Early(s, u) + Open(s, u) + Closed(s, u) == Issued(s, u);
      assert Early(s', u) == Early(s, u) && Open(s', u) == Open(s, u);
    }
    forall u: nat | u >= 1 ensures Occ(s'.client.slots, SlotId, u) == 0 {
      OccNone(s'.client.slots, SlotId, u);
    }
    forall i: nat ensures Occ(s'.threads, HeldIn(s'), i) == 0 {
      OccNone(s'.threads, HeldIn(s'), i);
    }
    OccNone(s'.client.slots, BusyKey, 1);
  }

  lemma InitRecords(s: Sys, indCb: Option<Callback>, defaultCb: Option<Callback>, connected: bool, s': Sys)
    requires Recorded(s) && AllIdle(s.threads) && s' == InitStep(s, indCb, defaultCb, connected)
    ensures Recorded(s')
  {
    forall u: nat ensures Issued(s', u) == Issued(s, u) {}
    forall i: nat ensures !Owned(s', i) {}
    forall u: nat ensures Occ(s'.fired, FiredId, u) <= Closed(s', u) {
      assert Occ(s.fired, FiredId, u) <= Closed(s, u);
    }
  }

  lemma InitKeeps(s: Sys, indCb: Option<Callback>, defaultCb: Option<Callback>, connected: bool)
    requires Inv(s)
    ensures Inv(InitStep(s, indCb, defaultCb, connected))
  {
    var s' := InitStep(s, indCb, defaultCb, connected);
    if AllIdle(s.threads) {
      InitCounts(s, indCb, defaultCb, connected, s');
      InitRecords(s, indCb, defaultCb, connected, s');
    }
  }

  lemma ReleaseKeeps(s: Sys)
    requires Inv(s)
    ensures Inv(ReleaseStep(s))
  {
    var s' := ReleaseStep(s);
    CountsFrom(s, s');
    forall t: nat | t < |s'.threads| ensures PcFits(s', s'.threads[t]) {
      PcStays(s, s', s.threads[t]);
    }
    RecordsFrom(s, s');
  }

  lemma StartCounts(threads: nat, s: Sys)
    requires s == Start(threads)
    ensures Counted(s)
  {
    forall u: nat ensures Early(s, u) == 0 && Open(s, u) == 0 {
      OccNone(s.threads, UnfilledId, u);
      OccNone(s.threads, FilledId, u);
    }
    forall u: nat | u >= 1 ensures Occ(s.client.slots, SlotId, u) == 0 {
      OccNone(s.client.slots, SlotId, u);
    }
    forall i: nat ensures Occ(s.threads, HeldIn(s), i) == 0 {
      OccNone(s.threads, HeldIn(s), i);
    }
    OccNone(s.client.slots, BusyKey, 1);
  }

  lemma StartHolds(threads: nat)
    ensures Inv(Start(threads))
  {
    var s := Start(threads);
    StartCounts(threads, s);
    forall i: nat ensures !Owned(s, i) {}
  }
}
