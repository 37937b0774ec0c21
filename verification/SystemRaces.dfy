/** An init while calls are under way, which the machine itself excludes. */
module SystemRaces {
  import opened Basics
  import opened Occurrences
  import opened Protocol
  import opened PendingOps
  import A = Adapter
  import opened UrilSystem
  import opened SystemInvariant
  import opened SystemCarried
  import opened SystemSafety
  import opened SystemGuarantees
  import opened SystemCalls

  predicate NoneHolds(threads: seq<Pc>) {
    forall t :: 0 <= t < |threads| ==> SlotOf(threads[t]) < 0
  }

  predicate NoneFills(threads: seq<Pc>) {
    forall t :: 0 <= t < |threads| ==> !threads[t].Filling?
  }

  function WithOnlyIds(threads: seq<Pc>): set<nat> {
    set t: nat | t < |threads| && threads[t].HasId? :: threads[t].id
  }

  function UnderWay(threads: seq<Pc>): set<nat> {
    set t: nat | t < |threads| && !threads[t].Idle? :: threads[t].id
  }

  /** Calls under way go on with the new connection and the new default callback. */
  function Renewed(asked: map<nat, Ask>, ids: set<nat>, conn: OwnConn, default: Option<Callback>): map<nat, Ask> {
    map u | u in asked :: if u in ids then Ask(asked[u].call, conn, default) else asked[u]
  }

  /** uril_client_init at any time. What it does to client and connection is the reset; the history keeps
      track of the calls under way. */
  function RacingInit(s: Sys, indCb: Option<Callback>, defaultCb: Option<Callback>, connected: bool): Sys {
    var s' := Reset(s, indCb, defaultCb, connected);
    s'.(kept := WithOnlyIds(s.threads), asked := Renewed(s.asked, UnderWay(s.threads), s'.conn, defaultCb))
  }

  // ---- what an init keeps while no thread is filling a slot ----

  lemma HeldOnce(s: Sys, t: nat)
    requires Ledger(s) && t < |s.threads| && !s.threads[t].Idle?
    ensures var u := s.threads[t].id;
            && 1 <= u <= s.issued && Closed(s, u) == 0
            && (s.threads[t].Filled? ==> Open(s, u) == 1 && Early(s, u) == 0)
            && (!s.threads[t].Filled? ==> Open(s, u) == 0)
            && Occ(s.reqs, RequestId, u) == 0 && Occ(s.resps, ResponseId, u) == 0 && !Tracks(s, u)
  {
    var u := s.threads[t].id;
    assert Early(s, u) + Open(s, u) + Closed(s, u) == Issued(s, u);
    if s.threads[t].Filled? {
      OccAt(s.threads, t, FilledId);
    } else {
      OccAt(s.threads, t, UnfilledId);
    }
  }

  lemma OnlyIdsAreEarly(s: Sys, u: nat)
    requires Ledger(s) && u in WithOnlyIds(s.threads)
    ensures Early(s, u) == 1 && Open(s, u) == 0 && 1 <= u <= s.issued
  {
    var t: nat :| t < |s.threads| && s.threads[t].HasId? && s.threads[t].id == u;
    HeldOnce(s, t);
    OccAt(s.threads, t, UnfilledId);
    assert Early(s, u) + Open(s, u) + Closed(s, u) == Issued(s, u);
  }

  lemma NobodyHolds(s: Sys, s': Sys)
    requires Ledger(s) && NoneFills(s.threads) && s'.threads == s.threads
    requires s'.base == s.issued && s'.kept == WithOnlyIds(s.threads)
    ensures forall i: nat :: Occ(s'.threads, HeldIn(s'), i) == 0
  {
    forall t: nat | t < |s.threads| ensures HeldIn(s')(s.threads[t]) == -1 {
      if s.threads[t].Filled? {
        HeldOnce(s, t);
        if s.threads[t].id in s'.kept {
          OnlyIdsAreEarly(s, s.threads[t].id);
        }
      }
    }
    forall i: nat ensures Occ(s'.threads, HeldIn(s'), i) == 0 {
      OccNone(s'.threads, HeldIn(s'), i);
    }
  }

  lemma RacingLedger(s: Sys, s': Sys)
    requires Ledger(s) && s'.threads == s.threads && s'.wasted == s.wasted && s'.failed == s.failed
    requires s'.reqs == s.reqs && s'.pending == s.pending && s'.resps == s.resps && s'.lost == s.lost
    requires s'.answered == s.answered && s'.issued == s.issued
    requires s'.base == s.issued && s'.kept == WithOnlyIds(s.threads)
    ensures Ledger(s') && forall u: nat | Current(s', u) :: Open(s', u) == 0
  {
    forall u: nat ensures Early(s', u) + Open(s', u) + Closed(s', u) == Issued(s', u) {
      assert Early(s, u) + Open(s, u) + Closed(s, u) == Issued(s, u);
      assert Early(s', u) == Early(s, u) && Open(s', u) == Open(s, u);
    }
    forall u: nat | Current(s', u) ensures Open(s', u) == 0 {
      assert Early(s', u) + Open(s', u) + Closed(s', u) == Issued(s', u);
      if u in s'.kept {
        OnlyIdsAreEarly(s, u);
        assert Open(s', u) == Open(s, u);
      }
    }
  }

  lemma EmptyTableCounts(s: Sys)
    requires s.client.slots == EmptySlots() && Ledger(s) && s.client.lastId == s.issued < UINT32 && s.base <= s.issued
    requires forall i: nat :: Occ(s.threads, HeldIn(s), i) == 0
    requires forall u: nat | Current(s, u) :: Open(s, u) == 0
    requires s.acquired == s.freed
    ensures Counted(s)
  {
    forall u: nat | u >= 1 ensures Occ(s.client.slots, SlotId, u) == 0 {
      OccNone(s.client.slots, SlotId, u);
    }
    OccNone(s.client.slots, BusyKey, 1);
  }

  lemma RacingCounts(s: Sys, indCb: Option<Callback>, defaultCb: Option<Callback>, connected: bool, s': Sys)
    requires Counted(s) && NoneFills(s.threads) && s' == RacingInit(s, indCb, defaultCb, connected)
    ensures Counted(s')
  {
    NobodyHolds(s, s');
    RacingLedger(s, s');
    EmptyTableCounts(s');
  }

  lemma PcGoesOn(s: Sys, t: nat, indCb: Option<Callback>, defaultCb: Option<Callback>, connected: bool, s': Sys)
    requires Ledger(s) && Threads(s) && NoneFills(s.threads) && t < |s.threads|
    requires s' == RacingInit(s, indCb, defaultCb, connected)
    ensures PcFits(s', s.threads[t])
  {
    assert PcFits(s, s.threads[t]);
    if s.threads[t].Filled? {
      HeldOnce(s, t);
      if s.threads[t].id in s'.kept {
        OnlyIdsAreEarly(s, s.threads[t].id);
      }
    }
  }

  lemma FireGoesOn(s: Sys, k: nat, asked: map<nat, Ask>, conn: OwnConn, default: Option<Callback>)
    requires Ledger(s) && Fired(s) && k < |s.fired| && asked == Renewed(s.asked, UnderWay(s.threads), conn, default)
    ensures FireFits(s.fired[k], asked)
  {
    var u := s.fired[k].uniqueId;
    OccAt(s.fired, k, FiredId);
    assert FireFits(s.fired[k], s.asked) && Closed(s, u) >= 1;
    if u in UnderWay(s.threads) {
      var t: nat :| t < |s.threads| && !s.threads[t].Idle? && s.threads[t].id == u;
      HeldOnce(s, t);
    }
  }

  lemma RacingRecords(s: Sys, indCb: Option<Callback>, defaultCb: Option<Callback>, connected: bool, s': Sys)
    requires Ledger(s) && Recorded(s) && NoneFills(s.threads) && s' == RacingInit(s, indCb, defaultCb, connected)
    ensures Recorded(s')
  {
    forall t: nat | t < |s'.threads| ensures PcFits(s', s'.threads[t]) {
      PcGoesOn(s, t, indCb, defaultCb, connected, s');
    }
    forall i: nat ensures !Owned(s', i) {}
    forall u: nat ensures u in s'.asked <==> Issued(s', u) == 1 {
      assert u in s.asked <==> Issued(s, u) == 1;
    }
    forall k: nat | k < |s'.fired| ensures FireFits(s'.fired[k], s'.asked) {
      FireGoesOn(s, k, s'.asked, s'.conn, defaultCb);
    }
    forall u: nat ensures Occ(s'.fired, FiredId, u) <= Closed(s', u) {
      assert Occ(s.fired, FiredId, u) <= Closed(s, u);
    }
  }

  lemma SenderStays(s: Sys, asked: map<nat, Ask>, conn: OwnConn, default: Option<Callback>, u: nat, c: Conn)
    requires Ledger(s) && asked == Renewed(s.asked, UnderWay(s.threads), conn, default) && SentBy(s.asked, u, c)
    requires Occ(s.reqs, RequestId, u) >= 1 || Occ(s.resps, ResponseId, u) >= 1 || Tracks(s, u)
    ensures SentBy(asked, u, c)
  {
    if u in UnderWay(s.threads) {
      var t: nat :| t < |s.threads| && !s.threads[t].Idle? && s.threads[t].id == u;
      HeldOnce(s, t);
    }
  }

  lemma RacingCarries(s: Sys, indCb: Option<Callback>, defaultCb: Option<Callback>, connected: bool, s': Sys)
    requires Ledger(s) && Carried(s) && s' == RacingInit(s, indCb, defaultCb, connected)
    ensures Carried(s')
  {
    forall e | e in s.reqs ensures Fits(s'.asked, e.1) && SentBy(s'.asked, e.1.uniqueId, e.0) {
      var k :| 0 <= k < |s.reqs| && s.reqs[k] == e;
      OccAt(s.reqs, k, RequestId);
      SenderStays(s, s'.asked, s'.conn, defaultCb, e.1.uniqueId, e.0);
    }
    forall u | u in s.pending && s.pending[u] != FOREIGN ensures SentBy(s'.asked, u, s.pending[u]) {
      SenderStays(s, s'.asked, s'.conn, defaultCb, u, s.pending[u]);
    }
    forall e | e in s.resps && !e.1.isIndication ensures SentBy(s'.asked, e.1.uniqueId, e.0) {
      var k :| 0 <= k < |s.resps| && s.resps[k] == e;
      OccAt(s.resps, k, ResponseId);
      SenderStays(s, s'.asked, s'.conn, defaultCb, e.1.uniqueId, e.0);
    }
  }

  lemma RacingKeeps(s: Sys, indCb: Option<Callback>, defaultCb: Option<Callback>, connected: bool, s': Sys)
    requires Inv(s) && Carried(s) && NoneFills(s.threads) && s' == RacingInit(s, indCb, defaultCb, connected)
    ensures Inv(s') && Carried(s')
  {
    RacingCounts(s, indCb, defaultCb, connected, s');
    RacingRecords(s, indCb, defaultCb, connected, s');
    RacingCarries(s, indCb, defaultCb, connected, s');
  }

  /** The first i slots are taken, the others free. */
  ghost predicate TakenUpTo(slots: seq<Slot>, i: nat) {
    i <= |slots| && forall k :: 0 <= k < |slots| ==> slots[k].busy == (k < i)
  }

  lemma NextIsFree(slots: seq<Slot>, i: nat)
    requires TakenUpTo(slots, i) && i < |slots|
    ensures FirstFree(slots) == Some(i)
  {
    FirstIndexIs(slots, (slot: Slot) => !slot.busy, i);
  }

  lemma NextIsTaken(slots: seq<Slot>, i: nat, id: nat, cb: Option<Callback>, data: ClientData)
    requires TakenUpTo(slots, i) && i < |slots|
    ensures TakenUpTo(FillSlot(SetBusy(slots, i, true), i, id, cb, data), i + 1)
  {}

  predicate Share(s: Sys, t: nat, r: nat) {
    && t < |s.threads| && r < |s.threads| && t != r
    && SlotOf(s.threads[t]) == SlotOf(s.threads[r]) >= 0
  }

  lemma TakesNext(vendor: A.Completer, s: Sys, r: nat, call: Call, i: nat, ls: seq<Label>)
    requires r < |s.threads| && s.threads[r].Idle? && s.client.initialized
    requires TakenUpTo(s.client.slots, i) && i < |s.client.slots|
    requires ls == [Begin(r, s.client.handle, call), Acquire(r)]
    ensures var s' := Run(vendor, s, ls);
            && |s'.threads| == |s.threads| && SlotOf(s'.threads[r]) == i && s'.issued == s.issued + 1
            && forall t: nat | t < |s.threads| && t != r :: s'.threads[t] == s.threads[t]
  {
    NextIsFree(s.client.slots, i);
    RunCons(vendor, s, ls[0], [ls[1]]);
    RunCons(vendor, Step(vendor, s, ls[0]), ls[1], []);
    assert ls == [ls[0]] + [ls[1]] && [ls[1]] + [] == [ls[1]];
  }

  /** The first i slots have callbacks. */
  predicate CallbacksUpTo(slots: seq<Slot>, i: nat) {
    i <= |slots| && forall k :: 0 <= k < i ==> slots[k].asyncCb.Some?
  }

  lemma CallTakesNext(vendor: A.Completer, s: Sys, r: nat, call: Call, i: nat, s': Sys)
    requires r < |s.threads| && s.threads[r].Idle? && s.client.initialized && call.cb.Some?
    requires TakenUpTo(s.client.slots, i) && CallbacksUpTo(s.client.slots, i) && i < |s.client.slots|
    requires s' == Run(vendor, s, CallLabels(r, s.client.handle, call, true))
    ensures s'.threads == s.threads && s'.client.initialized && |s'.client.slots| == |s.client.slots|
    ensures TakenUpTo(s'.client.slots, i + 1) && CallbacksUpTo(s'.client.slots, i + 1)
    ensures forall k :: i < k < |s.client.slots| ==> s'.client.slots[k] == s.client.slots[k]
    ensures s'.issued <= s.issued + 1
  {
    NextIsFree(s.client.slots, i);
    var r1 := Execute(s.client, s.client.handle, call.simId, call.msgId, Some(call.body), call.cb, call.data, true,
                      ALL_LOCK);
    UninterruptedCall(vendor, s, r, s.client.handle, call, true, r1, s');
    NextIsTaken(s.client.slots, i, NextId(s.client), EffectiveCb(s.client, call.cb), call.data);
    OneBeginIssuesOne(vendor, s, CallLabels(r, s.client.handle, call, true)[1..], r, call);
  }

  lemma {:induction false} IssuesNone(vendor: A.Completer, s: Sys, ls: seq<Label>)
    requires forall l | l in ls :: !l.Begin?
    ensures Run(vendor, s, ls).issued == s.issued
    decreases |ls|
  {
    if ls != [] {
      IssuesNone(vendor, Step(vendor, s, ls[0]), ls[1..]);
    }
  }

  lemma OneBeginIssuesOne(vendor: A.Completer, s: Sys, rest: seq<Label>, r: nat, call: Call)
    requires forall l | l in rest :: !l.Begin?
    ensures Run(vendor, s, [Begin(r, s.client.handle, call)] + rest).issued <= s.issued + 1
  {
    RunCons(vendor, s, Begin(r, s.client.handle, call), rest);
    IssuesNone(vendor, Step(vendor, s, Begin(r, s.client.handle, call)), rest);
  }

  /** Calls of thread r take the slots from i to j, one after the other. */
  lemma {:induction false} CallersFill(vendor: A.Completer, s: Sys, r: nat, call: Call, i: nat, j: nat)
    returns (ls: seq<Label>)
    requires r < |s.threads| && s.threads[r].Idle? && s.client.initialized && call.cb.Some?
    requires TakenUpTo(s.client.slots, i) && CallbacksUpTo(s.client.slots, i) && i <= j < |s.client.slots|
    ensures (forall l | l in ls :: OfThread(l))
    ensures var s' := Run(vendor, s, ls);
            && s'.threads == s.threads && s'.client.initialized && |s'.client.slots| == |s.client.slots|
            && TakenUpTo(s'.client.slots, j) && CallbacksUpTo(s'.client.slots, j)
            && s'.client.slots[j] == s.client.slots[j] && s'.issued <= s.issued + (j - i)
    decreases j - i
  {
    ls := [];
    if i < j {
      var first := CallLabels(r, s.client.handle, call, true);
      var s' := Run(vendor, s, first);
      CallTakesNext(vendor, s, r, call, i, s');
      var rest := CallersFill(vendor, s', r, call, i + 1, j);
      RunSplits(vendor, s, first, rest);
      ls := first + rest;
    }
  }

  // ---- slots ----

  ghost predicate CanShare(vendor: A.Completer, s: Sys) {
    exists more: seq<Label>, t: nat, r: nat ::
      Run(vendor, s, more).issued < UINT32 && Share(Run(vendor, s, more), t, r)
  }

  const SOME_CALL := Call(0, 0, Body.Plain, Some(1), 0)

  /** Another thread comes to hold the slot. */
  lemma HolderMeetsCaller(vendor: A.Completer, s: Sys, t: nat, r: nat, j: nat)
    requires t < |s.threads| && r < |s.threads| && t != r && SlotOf(s.threads[t]) == j
    requires s.threads[r].Idle? && s.client.initialized && TakenUpTo(s.client.slots, 0)
    requires j < |s.client.slots| == URIL_MAX_PENDING_OPS && s.issued + URIL_MAX_PENDING_OPS + 1 < UINT32
    ensures CanShare(vendor, s)
  {
    var ls := CallersFill(vendor, s, r, SOME_CALL, 0, j);
    var s' := Run(vendor, s, ls);
    var last := [Begin(r, s'.client.handle, SOME_CALL), Acquire(r)];
    TakesNext(vendor, s', r, SOME_CALL, j, last);
    RunSplits(vendor, s, ls, last);
    assert Share(Run(vendor, s, ls + last), t, r);
  }

  lemma NeverShared(vendor: A.Completer, s: Sys, more: seq<Label>, t: nat, r: nat)
    requires A.Serving(vendor) && Inv(s) && Carried(s) && AllCurrent(s) && Run(vendor, s, more).issued < UINT32
    ensures !Share(Run(vendor, s, more), t, r)
  {
    RunKeeps(vendor, s, more);
    var end := Run(vendor, s, more);
    if Share(end, t, r) {
      if t < r {
        OneThreadPerSlot(end, t, r);
      } else {
        OneThreadPerSlot(end, r, t);
      }
    }
  }

  /** An init at any time: two threads can come to share a slot afterwards exactly if some thread held one
      when it was made. Threads that have only an id do no harm to the slots. */
  lemma SharingIff(vendor: A.Completer, threads: nat, ls: seq<Label>, s: Sys, r: nat,
                   indCb: Option<Callback>, defaultCb: Option<Callback>)
    requires A.Serving(vendor) && s == Reached(vendor, threads, ls)
    requires r < |s.threads| && s.threads[r].Idle? && s.issued + URIL_MAX_PENDING_OPS + 1 < UINT32
    ensures CanShare(vendor, RacingInit(s, indCb, defaultCb, true)) <==> !NoneHolds(s.threads)
  {
    ReachedKeeps(vendor, threads, ls, s);
    var s' := RacingInit(s, indCb, defaultCb, true);
    if NoneHolds(s.threads) {
      NothingIsShared(vendor, s, indCb, defaultCb, s');
    } else {
      var t: nat :| t < |s.threads| && SlotOf(s.threads[t]) >= 0;
      assert PcFits(s, s.threads[t]);
      HolderMeetsCaller(vendor, s', t, r, SlotOf(s.threads[t]));
    }
  }

  lemma NothingIsShared(vendor: A.Completer, s: Sys, indCb: Option<Callback>, defaultCb: Option<Callback>, s': Sys)
    requires A.Serving(vendor) && Inv(s) && Carried(s) && NoneHolds(s.threads)
    requires s' == RacingInit(s, indCb, defaultCb, true)
    ensures !CanShare(vendor, s')
  {
    forall t | 0 <= t < |s.threads| ensures !s.threads[t].Filling? && !s.threads[t].Filled? {
      assert SlotOf(s.threads[t]) < 0;
    }
    RacingKeeps(s, indCb, defaultCb, true, s');
    forall more: seq<Label>, t: nat, r: nat | Run(vendor, s', more).issued < UINT32
      ensures !Share(Run(vendor, s', more), t, r)
    {
      NeverShared(vendor, s', more, t, r);
    }
  }

  /** Such a state is reached from the start by three steps. */
  lemma RacingStateIsReached(vendor: A.Completer, call: Call, s: Sys)
    requires s == Reached(vendor, 2, [Init(None, None, true), Begin(0, 1, call), Acquire(0)])
    ensures s.issued == 1 && |s.threads| == 2 && SlotOf(s.threads[0]) == 0 && s.threads[1].Idle?
  {
    var s1 := InitStep(Start(2), None, None, true);
    RunCons(vendor, Start(2), Init(None, None, true), [Begin(0, 1, call), Acquire(0)]);
    assert [Init(None, None, true)] + [Begin(0, 1, call), Acquire(0)]
        == [Init(None, None, true), Begin(0, 1, call), Acquire(0)];
    assert TakenUpTo(s1.client.slots, 0) && s1.client.handle == 1;
    TakesNext(vendor, s1, 0, call, 0, [Begin(0, 1, call), Acquire(0)]);
  }

  /** And by two of them a state with a thread that has only its id. */
  lemma IdStateIsReached(vendor: A.Completer, call: Call, s: Sys)
    requires s == Reached(vendor, 2, [Init(None, None, true), Begin(0, 1, call)])
    ensures s.issued == 1 && AtId(s, 0, call, 1) && |s.threads| == 2 && s.threads[1].Idle? && s.up
  {
    var s1 := InitStep(Start(2), None, None, true);
    RunCons(vendor, Start(2), Init(None, None, true), [Begin(0, 1, call)]);
    RunCons(vendor, s1, Begin(0, 1, call), []);
    assert [Init(None, None, true)] + [Begin(0, 1, call)] == [Init(None, None, true), Begin(0, 1, call)];
    assert [Begin(0, 1, call)] + [] == [Begin(0, 1, call)];
  }
}
