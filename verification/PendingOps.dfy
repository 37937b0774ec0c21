/** The client library's context: the table of pending operations and its counters. */
module PendingOps {
  import opened Basics
  import opened Occurrences
  import opened Protocol

  const URIL_MAX_PENDING_OPS: nat := 16
  const URIL_CONNECT_ATTEMPTS_COUNT: nat := 20

  datatype Slot = Slot(busy: bool, uniqueId: nat, clientData: ClientData, asyncCb: Option<Callback>)

  /** The value of the library's static state. */
  datatype Client = Client(
    handle: nat, initialized: bool,
    indCb: Option<Callback>, defaultCb: Option<Callback>,
    slots: seq<Slot>,
    lastHandle: nat, lastId: nat)

  /** One invocation of a response callback. uniqueId is the id of the response that caused it. */
  datatype Fire = Fire(handle: nat, uniqueId: nat, simId: nat, msgId: nat, body: Body,
                       cb: Callback, clientData: ClientData)

  const ZERO_SLOT := Slot(false, 0, 0, None)

  function EmptySlots(): seq<Slot> {
    seq(URIL_MAX_PENDING_OPS, _ => ZERO_SLOT)
  }

  function FirstFree(slots: seq<Slot>): Option<nat> {
    FirstIndex(slots, (s: Slot) => !s.busy)
  }

  /** Which slot a response is matched with. busy is not looked at. */
  function FirstWithId(slots: seq<Slot>, uniqueId: nat): Option<nat> {
    FirstIndex(slots, (s: Slot) => s.uniqueId == uniqueId)
  }

  function SetBusy(slots: seq<Slot>, i: nat, busy: bool): seq<Slot>
    requires i < |slots|
  {
    slots[i := slots[i].(busy := busy)]
  }

  function FillSlot(slots: seq<Slot>, i: nat, uniqueId: nat, cb: Option<Callback>, data: ClientData): seq<Slot>
    requires i < |slots|
  {
    slots[i := Slot(slots[i].busy, uniqueId, data, cb)]
  }

  function BusyKey(s: Slot): int {
    if s.busy then 1 else 0
  }

  function BusyCount(slots: seq<Slot>): nat {
    Occ(slots, BusyKey, 1)
  }

  function NextId(c: Client): nat {
    (c.lastId + 1) % UINT32
  }

  predicate Accepts(c: Client, hndl: nat, reqGiven: bool) {
    c.initialized && hndl == c.handle && reqGiven
  }

  function EffectiveCb(c: Client, cb: Option<Callback>): Option<Callback> {
    if cb.Some? then cb else c.defaultCb
  }

  function ResetContext(c: Client): Client {
    c.(handle := 0, initialized := false, indCb := None, defaultCb := None, slots := EmptySlots())
  }

  /** uril_client_init once its arguments are known to be usable. */
  function Initialized(c: Client, indCb: Option<Callback>, defaultCb: Option<Callback>, connected: bool): Client {
    var fresh_ := ResetContext(c).(indCb := indCb, defaultCb := defaultCb);
    if !connected then fresh_
    else
      var h := (c.lastHandle + 1) % UINT32;
      fresh_.(initialized := true, lastHandle := h, handle := h)
  }

  function Released(c: Client): Client {
    if c.initialized then c.(indCb := None, defaultCb := None, initialized := false) else c
  }

  /** What a response does to the table: the matched slot is freed, busy or not. */
  function AfterResponse(c: Client, msg: Msg): Client {
    match FirstWithId(c.slots, msg.uniqueId)
    case None => c
    case Some(i) => c.(slots := SetBusy(c.slots, i, false))
  }

  function FiredBy(c: Client, msg: Msg): Option<Fire> {
    match FirstWithId(c.slots, msg.uniqueId)
    case None => None
    case Some(i) =>
      match c.slots[i].asyncCb
      case None => None
      case Some(cb) =>
        Some(Fire(c.handle, msg.uniqueId, msg.simId, msg.msgId, msg.body, cb, c.slots[i].clientData))
  }

  /** The table refuses a request exactly when every slot counts as busy. */
  lemma {:induction false} FullTable(slots: seq<Slot>)
    ensures BusyCount(slots) <= |slots|
    ensures FirstFree(slots).None? <==> BusyCount(slots) == |slots|
  {
    if slots != [] {
      FullTable(slots[1..]);
      assert slots == [slots[0]] + slots[1..];
      if FirstFree(slots).None? {
        assert forall i :: 0 <= i < |slots[1..]| ==> slots[1..][i] == slots[i + 1];
      } else {
        var k := FirstFree(slots).value;
        assert k > 0 ==> slots[1..][k - 1] == slots[k];
      }
    }
  }

  /** Lookup returns a given slot exactly when no earlier slot holds the same id. */
  lemma LookupFindsSlot(slots: seq<Slot>, i: nat)
    requires i < |slots|
    ensures FirstWithId(slots, slots[i].uniqueId) == Some(i)
       <==> forall j :: 0 <= j < i ==> slots[j].uniqueId != slots[i].uniqueId
  {
    if forall j :: 0 <= j < i ==> slots[j].uniqueId != slots[i].uniqueId {
      FirstIndexIs(slots, (s: Slot) => s.uniqueId == slots[i].uniqueId, i);
      assert FirstWithId(slots, slots[i].uniqueId) == Some(i);
    }
  }

  /** On its own the table fires a callback again for a repeated response: busy is never tested. */
  lemma RepeatedResponseFiresAgain(c: Client, msg: Msg)
    requires FiredBy(c, msg).Some?
    ensures FiredBy(AfterResponse(c, msg), msg) == FiredBy(c, msg)
  {
    var i := FirstWithId(c.slots, msg.uniqueId).value;
    LookupFindsSlot(c.slots, i);
    LookupFindsSlot(AfterResponse(c, msg).slots, i);
  }

  /** Whether the mutex operations on the way succeed. */
  datatype Locks = Locks(idLock: bool, cmdLock: bool, cmdUnlock: bool)

  const ALL_LOCK := Locks(true, true, true)

  datatype Executed = Executed(client: Client, ok: bool, sent: Option<Msg>)

  /** uril_client_execute_command_async without interference. A slot whose mutex cannot be unlocked again
      stays busy, with the id it had. */
  function Execute(c: Client, hndl: nat, simId: nat, msgId: nat, req: Option<Body>,
                   cb: Option<Callback>, data: ClientData, sendOk: bool, locks: Locks): Executed
  {
    if !Accepts(c, hndl, req.Some?) || !locks.idLock then Executed(c, false, None)
    else
      var c' := c.(lastId := NextId(c));
      var i := FirstFree(c'.slots);
      if !locks.cmdLock || i.None? then Executed(c', false, None)
      else if !locks.cmdUnlock then Executed(c'.(slots := SetBusy(c'.slots, i.value, true)), false, None)
      else
        var slots := FillSlot(SetBusy(c'.slots, i.value, true), i.value, c'.lastId, EffectiveCb(c', cb), data);
        Executed(c'.(slots := slots), sendOk,
                 if sendOk then Some(Msg(false, c'.lastId, simId, msgId, req.value)) else None)
  }

  /** The call passes the checks and gets an id. */
  predicate GetsId(c: Client, hndl: nat, reqGiven: bool, locks: Locks) {
    c.initialized && hndl == c.handle && reqGiven && locks.idLock
  }

  /** What the failures of a call leave behind: nothing, an id that is burnt, or a slot that is busy for good. */
  lemma FailuresLeave(c: Client, hndl: nat, simId: nat, msgId: nat, req: Option<Body>, cb: Option<Callback>,
                      data: ClientData, sendOk: bool, locks: Locks, r: Executed)
    requires r == Execute(c, hndl, simId, msgId, req, cb, data, sendOk, locks)
    ensures !GetsId(c, hndl, req.Some?, locks) ==> r == Executed(c, false, None)
    ensures GetsId(c, hndl, req.Some?, locks) ==> r.client.lastId == (c.lastId + 1) % UINT32
    ensures r.sent.Some? ==>
              && r.ok && sendOk && locks == Locks(true, true, true)
              && r.sent.value == Msg(false, r.client.lastId, simId, msgId, req.value)
    ensures !locks.cmdLock || BusyCount(c.slots) == |c.slots| ==> r.client.slots == c.slots && !r.ok
    ensures GetsId(c, hndl, req.Some?, locks) && locks.cmdLock && BusyCount(c.slots) < |c.slots| ==>
              && BusyCount(r.client.slots) == BusyCount(c.slots) + 1
              && (r.ok <==> locks.cmdUnlock && sendOk)
              && (!locks.cmdUnlock ==> SameIds(c.slots, r.client.slots, r.client.lastId))
  {
    FullTable(c.slots);
    var i := FirstFree(c.slots);
    if i.Some? {
      var busy := SetBusy(c.slots, i.value, true);
      OccUpdate(c.slots, i.value, busy[i.value], BusyKey, 1);
      OccUpdate(c.slots, i.value, busy[i.value], IdKey, r.client.lastId);
      OccUpdate(busy, i.value, Slot(true, NextId(c), data, EffectiveCb(c, cb)), BusyKey, 1);
    }
  }

  predicate SameIds(x: seq<Slot>, y: seq<Slot>, id: nat) {
    Occ(x, IdKey, id) == Occ(y, IdKey, id)
  }

  function IdKey(s: Slot): int {
    s.uniqueId
  }

  /** The library's static state, updated in place. */
  class UrilClient {
    var sUniqueHandle: nat
    var sUniqueMsgId: nat
    var handle: nat
    var initialized: bool
    var indCb: Option<Callback>
    var defaultAsyncCb: Option<Callback>
    const pendingOps: array<Slot>

    ghost predicate Valid()
      reads this, pendingOps
    {
      pendingOps.Length == URIL_MAX_PENDING_OPS && sUniqueHandle < UINT32 && sUniqueMsgId < UINT32
    }

    ghost function View(): Client
      reads this, pendingOps
    {
      Client(handle, initialized, indCb, defaultAsyncCb, pendingOps[..], sUniqueHandle, sUniqueMsgId)
    }

    constructor ()
      ensures Valid() && fresh(pendingOps)
      ensures View() == Client(0, false, None, None, EmptySlots(), 0, 0)
    {
      sUniqueHandle, sUniqueMsgId, handle, initialized := 0, 0, 0, false;
      indCb, defaultAsyncCb := None, None;
      pendingOps := new Slot[URIL_MAX_PENDING_OPS](_ => ZERO_SLOT);
    }

    method AcquireFreeOpSlot() returns (ret: Option<nat>)
      requires Valid()
      modifies pendingOps
      ensures ret == FirstFree(old(pendingOps[..]))
      ensures pendingOps[..] ==
              if ret.Some? then SetBusy(old(pendingOps[..]), ret.value, true) else old(pendingOps[..])
    {
      ret := None;
      var i := 0;
      while i < pendingOps.Length && ret.None?
        invariant 0 <= i <= pendingOps.Length
        invariant ret.None? ==> pendingOps[..] == old(pendingOps[..]) && forall k :: 0 <= k < i ==> pendingOps[k].busy
        invariant ret.Some? ==> ret.value < pendingOps.Length && !old(pendingOps[..])[ret.value].busy
        invariant ret.Some? ==> forall k :: 0 <= k < ret.value ==> old(pendingOps[..])[k].busy
        invariant ret.Some? ==> pendingOps[..] == SetBusy(old(pendingOps[..]), ret.value, true)
      {
        if !pendingOps[i].busy {
          ret := Some(i);
          pendingOps[i] := pendingOps[i].(busy := true);
        }
        i := i + 1;
      }
    }

    method LookupPendingOp(uniqueId: nat) returns (ret: Option<nat>)
      requires Valid()
      ensures ret == FirstWithId(pendingOps[..], uniqueId)
    {
      ret := None;
      var i := 0;
      while i < pendingOps.Length && ret.None?
        invariant 0 <= i <= pendingOps.Length
        invariant ret.None? ==> forall k :: 0 <= k < i ==> pendingOps[k].uniqueId != uniqueId
        invariant ret.Some? ==> ret.value < pendingOps.Length && pendingOps[ret.value].uniqueId == uniqueId
        invariant ret.Some? ==> forall k :: 0 <= k < ret.value ==> pendingOps[k].uniqueId != uniqueId
      {
        if pendingOps[i].uniqueId == uniqueId {
          ret := Some(i);
        }
        i := i + 1;
      }
    }

    /** Success is 0; an unmatched response, one whose slot has no callback, and a failing mutex give -1.
        A failing unlock comes after the slot is freed, and loses the callback. */
    method HandleReceiveRsp(rsp: Msg, lockOk: bool, unlockOk: bool) returns (ret: int, call: Option<Fire>)
      requires Valid()
      modifies pendingOps
      ensures Valid() && View() == if lockOk then AfterResponse(old(View()), rsp) else old(View())
      ensures call == if lockOk && unlockOk then FiredBy(old(View()), rsp) else None
      ensures ret == if call.Some? then 0 else -1
    {
      ret, call := -1, None;
      var clientData := 0;
      var asyncRespCb: Option<Callback> := None;
      if !lockOk {
        return;
      }
      var op := LookupPendingOp(rsp.uniqueId);
      if op.Some? {
        pendingOps[op.value] := pendingOps[op.value].(busy := false);
        asyncRespCb := pendingOps[op.value].asyncCb;
        clientData := pendingOps[op.value].clientData;
      }
      if !unlockOk {
        return;
      }
      if asyncRespCb.Some? {
        call := Some(Fire(handle, rsp.uniqueId, rsp.simId, rsp.msgId, rsp.body, asyncRespCb.value, clientData));
        ret := 0;
      }
    }

    /** An indication never touches the table, and is always reported as -1. */
    method HandleReceiveInd(ind: Msg) returns (ret: int, call: Option<(Callback, nat, nat, nat)>)
      ensures ret == -1
      ensures call.Some? <==> indCb.Some?
      ensures call.Some? ==> call.value == (indCb.value, handle, ind.simId, ind.msgId)
    {
      ret := -1;
      call := if indCb.Some? then Some((indCb.value, handle, ind.simId, ind.msgId)) else None;
    }

    /** attempts[k] is the outcome of the k-th connection attempt. Without the init mutex the context is left
        initialized, with handle 0. */
    method Init(hndlGiven: bool, connectorAvailable: bool, indCb: Option<Callback>,
                defaultCb: Option<Callback>, attempts: seq<bool>, lockOk: bool)
      returns (ok: bool, hndl: nat)
      requires Valid() && |attempts| == URIL_CONNECT_ATTEMPTS_COUNT
      modifies this, pendingOps
      ensures Valid()
      ensures ok <==> hndlGiven && connectorAvailable && true in attempts && lockOk
      ensures !hndlGiven || !connectorAvailable ==> View() == old(View())
      ensures hndlGiven && connectorAvailable ==>
                View() == var c := Initialized(old(View()), indCb, defaultCb, ok);
                          c.(initialized := true in attempts)
      ensures ok ==> hndl == handle
    {
      ok, hndl := false, 0;
      if !hndlGiven || !connectorAvailable {
        return;
      }
      handle, initialized := 0, false;
      var i := 0;
      while i < pendingOps.Length
        invariant 0 <= i <= pendingOps.Length
        invariant forall k :: 0 <= k < i ==> pendingOps[k] == ZERO_SLOT
        modifies pendingOps
      {
        pendingOps[i] := ZERO_SLOT;
        i := i + 1;
      }
      assert pendingOps[..] == EmptySlots();
      this.indCb := indCb;
      this.defaultAsyncCb := defaultCb;
      var attemptsCount := 0;
      var connected := false;
      while attemptsCount < URIL_CONNECT_ATTEMPTS_COUNT && !connected
        invariant attemptsCount <= URIL_CONNECT_ATTEMPTS_COUNT
        invariant connected <==> true in attempts[..attemptsCount]
      {
        connected := attempts[attemptsCount];
        attemptsCount := attemptsCount + 1;
      }
      assert attempts == attempts[..attemptsCount] + attempts[attemptsCount..];
      if !connected {
        return;
      }
      initialized := true;
      if !lockOk {
        return;
      }
      sUniqueHandle := (sUniqueHandle + 1) % UINT32;
      handle := sUniqueHandle;
      hndl := handle;
      ok := true;
    }

    /** sendOk is the outcome of the connector's send, if it comes to that. */
    method ExecuteCommandAsync(hndl: nat, simId: nat, msgId: nat, req: Option<Body>,
                               cb: Option<Callback>, data: ClientData, sendOk: bool, locks: Locks)
      returns (ok: bool, sent: Option<Msg>)
      requires Valid()
      modifies this`sUniqueMsgId, pendingOps
      ensures Valid()
      ensures Executed(View(), ok, sent) == Execute(old(View()), hndl, simId, msgId, req, cb, data, sendOk, locks)
    {
      ok, sent := false, None;
      if !initialized || hndl != handle || req.None? {
        return;
      }
      if !locks.idLock {
        return;
      }
      sUniqueMsgId := (sUniqueMsgId + 1) % UINT32;
      var msg := Msg(false, sUniqueMsgId, simId, msgId, req.value);
      if !locks.cmdLock {
        return;
      }
      var op := AcquireFreeOpSlot();
      if !locks.cmdUnlock || op.None? {
        return;
      }
      if cb.Some? {
        pendingOps[op.value] := pendingOps[op.value].(asyncCb := cb);
      } else {
        pendingOps[op.value] := pendingOps[op.value].(asyncCb := defaultAsyncCb);
      }
      pendingOps[op.value] := pendingOps[op.value].(clientData := data);
      pendingOps[op.value] := pendingOps[op.value].(uniqueId := msg.uniqueId);
      ok := sendOk;
      sent := if sendOk then Some(msg) else None;
    }

    /** The handle argument is not compared with the current one. */
    method Release(hndl: nat) returns (ok: bool)
      requires Valid()
      modifies this`indCb, this`defaultAsyncCb, this`initialized
      ensures Valid() && View() == Released(old(View()))
      ensures ok <==> old(initialized)
      ensures !initialized && (ok ==> indCb.None? && defaultAsyncCb.None?)
      ensures pendingOps[..] == old(pendingOps[..]) && handle == old(handle)
      ensures sUniqueHandle == old(sUniqueHandle) && sUniqueMsgId == old(sUniqueMsgId)
    {
      ok := false;
      if initialized {
        indCb, defaultAsyncCb := None, None;
        initialized := false;
        ok := true;
      }
    }
  }
}
