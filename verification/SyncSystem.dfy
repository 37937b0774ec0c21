/** Synchronous calls inside the whole system: the machine, and for every synchronous call the two-thread
    protocol that its asynchronous part and its callback drive. */
module SyncSystem {
  import opened Basics
  import opened Occurrences
  import opened Protocol
  import opened PendingOps
  import T = Tracker
  import A = Adapter
  import opened UrilSystem
  import opened SystemInvariant
  import opened SystemCarried
  import opened SystemSafety
  import opened SystemGuarantees
  import S = SyncCall

  // The address of async_cb, which no other function has.
  const ASYNC_CB: Callback := 0

  /** The bytes of a payload. */
  type Wire = Body -> seq<Byte>

  type Sync = s: S.Sync | |s.resp| == |s.before| witness S.Begun([])

  /** via is the connection whose receiving thread runs the callback. */
  datatype SyncRecord = SyncRecord(call: Call, sync: Sync, via: Option<Conn>)

  /** Synchronous calls by the address of their parameters. A record never dies, so that no two calls have
      the same address. */
  type Records = map<ClientData, SyncRecord>

  datatype Joint = Joint(sys: Sys, calls: Records)

  datatype Move =
    | Machine(l: Label)
    | SyncBegin(t: nat, hndl: nat, simId: nat, msgId: nat, body: Body, params: ClientData, resp: seq<Byte>)
    | SyncMove(params: ClientData, m: S.Move)

  /** One move of the call with these parameters, if there is one. */
  function Moved(calls: Records, params: ClientData, m: S.Move): Records {
    if params in calls then calls[params := calls[params].(sync := S.Step(calls[params].sync, m))] else calls
  }

  /** What a step of the machine makes the synchronous calls do: the asynchronous part returns, or the
      callback is called. */
  function Driven(wire: Wire, s: Sys, calls: Records, l: Label): Records {
    if l.Acquire? && l.t < |s.threads| && s.threads[l.t].HasId? && FirstFree(s.client.slots).None? then
      Moved(calls, s.threads[l.t].call.data, S.AsyncReturns(false))
    else if l.Send? && l.t < |s.threads| && s.threads[l.t].Filled? then
      Moved(calls, s.threads[l.t].call.data, S.AsyncReturns(l.ok))
    else if l.Receive? && l.k < |s.resps| && !s.resps[l.k].1.isIndication then
      Called(wire, calls, FiredBy(s.client, s.resps[l.k].1), s.resps[l.k].0)
    else calls
  }

  function Called(wire: Wire, calls: Records, f: Option<Fire>, c: Conn): Records {
    if f.Some? && f.value.cb == ASYNC_CB then CallOn(calls, f.value.clientData, wire(f.value.body), c) else calls
  }

  /** The callback of the call with these parameters is called on the receiving thread of connection c. */
  function CallOn(calls: Records, params: ClientData, payload: seq<Byte>, c: Conn): Records {
    if params !in calls then calls
    else
      var r := calls[params];
      calls[params := SyncRecord(r.call, S.Step(r.sync, S.Called(payload)),
                                 if r.sync.caller.NotCalled? then Some(c) else r.via)]
  }

  predicate Running(sync: Sync) {
    !sync.caller.NotCalled? && !sync.caller.Finished?
  }

  /** Each connection has one receiving thread, and callbacks run on it. */
  predicate ReceiverFree(calls: Records, c: Conn) {
    forall d | d in calls :: calls[d].via == Some(c) ==> !Running(calls[d].sync)
  }

  /** Users of the asynchronous interface pass neither async_cb nor parameters of a synchronous call. */
  predicate OfOthers(calls: Records, l: Label) {
    && (l.Begin? ==> l.call.cb != Some(ASYNC_CB) && l.call.data !in calls)
    && (l.Init? ==> l.defaultCb != Some(ASYNC_CB))
  }

  ghost predicate NewAddress(j: Joint, params: ClientData) {
    params !in j.calls && forall u | u in j.sys.asked :: j.sys.asked[u].call.data != params
  }

  function SyncRequest(m: Move): Call
    requires m.SyncBegin?
  {
    Call(m.simId, m.msgId, m.body, Some(ASYNC_CB), m.params)
  }

  predicate CanReceive(j: Joint, l: Label) {
    l.Receive? && l.k < |j.sys.resps| ==> ReceiverFree(j.calls, j.sys.resps[l.k].0)
  }

  ghost function Step(vendor: A.Completer, wire: Wire, j: Joint, m: Move): Joint {
    match m
    case Machine(l) =>
      if OfOthers(j.calls, l) && CanReceive(j, l) then
        Joint(UrilSystem.Step(vendor, j.sys, l), Driven(wire, j.sys, j.calls, l))
      else j
    case SyncBegin(t, hndl, _, _, _, params, resp) =>
      if t < |j.sys.threads| && j.sys.threads[t].Idle? && NewAddress(j, params) then
        var record := SyncRecord(SyncRequest(m), S.Begun(resp), None);
        var started := Joint(BeginStep(j.sys, t, hndl, SyncRequest(m)), j.calls[params := record]);
        if Accepts(j.sys.client, hndl, true) then started
        else started.(calls := Moved(started.calls, params, S.AsyncReturns(false)))
      else j
    case SyncMove(params, move) =>
      if move.AsyncReturns? || move.Called? then j else j.(calls := Moved(j.calls, params, move))
  }

  ghost function Run(vendor: A.Completer, wire: Wire, j: Joint, ms: seq<Move>): Joint
    decreases |ms|
  {
    if ms == [] then j else Run(vendor, wire, Step(vendor, wire, j, ms[0]), ms[1..])
  }

  ghost function Reached(vendor: A.Completer, wire: Wire, threads: nat, ms: seq<Move>): Joint {
    Run(vendor, wire, Joint(Start(threads), map[]), ms)
  }

  predicate Genuinely(ms: seq<Move>) {
    forall m | m in ms :: !(m.Machine? && FromOthers(m.l))
  }

  // ---- what joins the two ----

  /** Which requests are those of synchronous calls. */
  ghost predicate AsksMatch(asked: map<nat, Ask>, calls: Records) {
    && (forall u | u in asked :: asked[u].call.cb == Some(ASYNC_CB) <==> asked[u].call.data in calls)
    && (forall u | u in asked && asked[u].call.data in calls :: asked[u].call == calls[asked[u].call.data].call)
    && (forall u | u in asked :: asked[u].default != Some(ASYNC_CB))
    && (forall u, v | u in asked && v in asked && asked[u].call.data == asked[v].call.data
                      && asked[u].call.data in calls :: u == v)
  }

  /** The callback of a call has been called exactly if it fired, and then with the bytes of that response. */
  ghost predicate CallMatches(wire: Wire, params: ClientData, sync: Sync, fired: seq<Fire>) {
    && S.Inv(sync)
    && (sync.caller.NotCalled? ==> forall f | f in fired :: f.clientData != params)
    && (!sync.caller.NotCalled? ==> exists f :: f in fired && f.clientData == params)
    && (forall f | f in fired && f.clientData == params :: sync.payload == wire(f.body))
  }

  ghost predicate Linked(wire: Wire, j: Joint) {
    && AsksMatch(j.sys.asked, j.calls) && j.sys.client.defaultCb != Some(ASYNC_CB)
    && (forall d | d in j.calls :: CallMatches(wire, d, j.calls[d].sync, j.sys.fired))
  }

  predicate NotCalling(m: S.Move) {
    !m.Called?
  }

  lemma MoveMatches(wire: Wire, d: ClientData, sync: Sync, m: S.Move, fired: seq<Fire>)
    requires CallMatches(wire, d, sync, fired) && NotCalling(m)
    ensures CallMatches(wire, d, S.Step(sync, m), fired)
  {
    S.StepKeeps(sync, m);
    OnlyCalledCalls(sync, m);
  }

  lemma OnlyCalledCalls(sync: Sync, m: S.Move)
    requires NotCalling(m)
    ensures S.Step(sync, m).caller.NotCalled? <==> sync.caller.NotCalled?
    ensures S.Step(sync, m).payload == sync.payload
  {}

  ghost predicate AllMatch(wire: Wire, calls: Records, fired: seq<Fire>) {
    forall d | d in calls :: CallMatches(wire, d, calls[d].sync, fired)
  }

  lemma MovedMatches(wire: Wire, calls: Records, d: ClientData, m: S.Move, fired: seq<Fire>)
    requires AllMatch(wire, calls, fired) && NotCalling(m)
    ensures AllMatch(wire, Moved(calls, d, m), fired)
  {
    if d in calls {
      MoveMatches(wire, d, calls[d].sync, m, fired);
    }
  }

  lemma MovedKeepsAsks(asked: map<nat, Ask>, calls: Records, d: ClientData, m: S.Move)
    requires AsksMatch(asked, calls)
    ensures AsksMatch(asked, Moved(calls, d, m))
  {}

  lemma CallOnKeepsAsks(asked: map<nat, Ask>, calls: Records, d: ClientData, payload: seq<Byte>, c: Conn)
    requires AsksMatch(asked, calls)
    ensures AsksMatch(asked, CallOn(calls, d, payload, c))
  {}

  // ---- the callback is called ----

  /** No earlier callback had these parameters. */
  lemma FirstFire(s: Sys, s': Sys, calls: Records, f: Fire, g: Fire)
    requires Inv(s) && Inv(s') && s'.asked == s.asked && s'.fired == s.fired + [f] && AsksMatch(s.asked, calls)
    requires f.clientData in calls && g in s.fired
    ensures g.clientData != f.clientData
  {
    assert FireFits(s'.fired[|s.fired|], s'.asked);
    var k :| 0 <= k < |s.fired| && s.fired[k] == g;
    assert FireFits(s.fired[k], s.asked);
    assert Early(s', f.uniqueId) + Open(s', f.uniqueId) + Closed(s', f.uniqueId) == Issued(s', f.uniqueId);
    assert Occ(s'.fired, FiredId, f.uniqueId) <= Closed(s', f.uniqueId);
    if g.clientData == f.clientData {
      assert g.uniqueId == f.uniqueId;
      assert s'.fired[k] == g && s'.fired[|s.fired|] == f;
      OccTwice(s'.fired, k, |s.fired|, FiredId);
    }
  }

  /** A fired callback is async_cb exactly if the client data are the parameters of a synchronous call. */
  lemma AsyncCbIff(s': Sys, calls: Records, f: Fire)
    requires Recorded(s') && AsksMatch(s'.asked, calls) && f in s'.fired
    ensures f.cb == ASYNC_CB <==> f.clientData in calls
  {
    assert FireFits(f, s'.asked);
  }

  lemma CalledMatches(wire: Wire, d: ClientData, sync: Sync, f: Fire, fired: seq<Fire>)
    requires CallMatches(wire, d, sync, fired) && f.clientData == d
    requires forall g | g in fired :: g.clientData != d
    ensures CallMatches(wire, d, S.Step(sync, S.Called(wire(f.body))), fired + [f])
  {
    S.StepKeeps(sync, S.Called(wire(f.body)));
    assert f in fired + [f];
  }

  lemma OthersStillMatch(wire: Wire, d: ClientData, sync: Sync, f: Fire, fired: seq<Fire>)
    requires CallMatches(wire, d, sync, fired) && f.clientData != d
    ensures CallMatches(wire, d, sync, fired + [f])
  {
    if !sync.caller.NotCalled? {
      var g :| g in fired && g.clientData == d;
      assert g in fired + [f];
    }
  }

  lemma FireMatches(wire: Wire, s: Sys, s': Sys, calls: Records, f: Fire, c: Conn)
    requires Inv(s) && Inv(s') && s'.asked == s.asked && s'.fired == s.fired + [f]
    requires AsksMatch(s.asked, calls) && AllMatch(wire, calls, s.fired)
    ensures AllMatch(wire, Called(wire, calls, Some(f), c), s'.fired)
  {
    assert s'.fired[|s.fired|] == f;
    AsyncCbIff(s', calls, f);
    if f.clientData in calls {
      forall g | g in s.fired ensures g.clientData != f.clientData {
        FirstFire(s, s', calls, f, g);
      }
    }
    FiredMatches(wire, calls, f, s.fired, c);
  }

  lemma FiredMatches(wire: Wire, calls: Records, f: Fire, fired: seq<Fire>, c: Conn)
    requires AllMatch(wire, calls, fired) && (f.cb == ASYNC_CB <==> f.clientData in calls)
    requires f.clientData in calls ==> forall g | g in fired :: g.clientData != f.clientData
    ensures AllMatch(wire, Called(wire, calls, Some(f), c), fired + [f])
  {
    if f.clientData in calls {
      CalledMatches(wire, f.clientData, calls[f.clientData].sync, f, fired);
    }
    forall d | d in calls && d != f.clientData ensures CallMatches(wire, d, calls[d].sync, fired + [f]) {
      OthersStillMatch(wire, d, calls[d].sync, f, fired);
    }
  }

  // ---- what drives a call ----

  /** When the request is sent, or could not be, or got no slot, the asynchronous part returns accordingly. */
  lemma AsyncPartReturns(wire: Wire, s: Sys, calls: Records, t: nat, ok: bool)
    requires t < |s.threads| && !s.threads[t].Idle? && s.threads[t].call.data in calls
    requires calls[s.threads[t].call.data].sync.waiter.InAsync?
    ensures var d := s.threads[t].call.data;
            && (s.threads[t].Filled? ==>
                  Driven(wire, s, calls, Send(t, ok))[d].sync.waiter
                  == if ok then S.Locking else S.Returned(false, S.NotSent))
            && (s.threads[t].HasId? && BusyCount(s.client.slots) == |s.client.slots| ==>
                  Driven(wire, s, calls, Acquire(t))[d].sync.waiter == S.Returned(false, S.NotSent))
            && (s.threads[t].HasId? && BusyCount(s.client.slots) < |s.client.slots| ==>
                  Driven(wire, s, calls, Acquire(t)) == calls)
  {
    FullTable(s.client.slots);
  }

  /** The response to its request starts the callback, with the response's bytes. */
  lemma FireStartsCallback(wire: Wire, s: Sys, calls: Records, k: nat, f: Fire)
    requires k < |s.resps| && !s.resps[k].1.isIndication && FiredBy(s.client, s.resps[k].1) == Some(f)
    requires f.cb == ASYNC_CB && f.clientData in calls && calls[f.clientData].sync.caller.NotCalled?
    ensures var r := Driven(wire, s, calls, Receive(k))[f.clientData];
            && r.sync.caller == S.Copying(0) && r.sync.payload == wire(s.resps[k].1.body)
            && r.via == Some(s.resps[k].0) && r.call == calls[f.clientData].call
            && r.sync.waiter == calls[f.clientData].sync.waiter
  {}

  // ---- every step ----

  ghost predicate Sound(wire: Wire, j: Joint) {
    Inv(j.sys) && Carried(j.sys) && Linked(wire, j)
  }

  lemma ReceiveLogs(s: Sys, k: nat, s': Sys)
    requires k < |s.resps| && s' == ReceiveStep(s, k)
    ensures s'.asked == s.asked
    ensures s'.fired == s.fired + if s.resps[k].1.isIndication then [] else Fires(FiredBy(s.client, s.resps[k].1))
  {}

  lemma ReceiveMatches(wire: Wire, s: Sys, s': Sys, calls: Records, msg: Msg, c: Conn)
    requires Inv(s) && Inv(s') && AsksMatch(s.asked, calls) && AllMatch(wire, calls, s.fired)
    requires s'.asked == s.asked && s'.fired == s.fired + Fires(FiredBy(s.client, msg))
    ensures AllMatch(wire, Called(wire, calls, FiredBy(s.client, msg), c), s'.fired)
  {
    var f := FiredBy(s.client, msg);
    if f.Some? {
      FireMatches(wire, s, s', calls, f.value, c);
    }
  }

  lemma DrivenMatches(wire: Wire, s: Sys, calls: Records, l: Label)
    requires AllMatch(wire, calls, s.fired) && !l.Receive?
    ensures AllMatch(wire, Driven(wire, s, calls, l), s.fired)
  {
    if l.Acquire? && l.t < |s.threads| && s.threads[l.t].HasId? {
      MovedMatches(wire, calls, s.threads[l.t].call.data, S.AsyncReturns(false), s.fired);
    } else if l.Send? && l.t < |s.threads| && s.threads[l.t].Filled? {
      MovedMatches(wire, calls, s.threads[l.t].call.data, S.AsyncReturns(l.ok), s.fired);
    }
  }

  lemma DrivenKeepsAsks(wire: Wire, s: Sys, calls: Records, l: Label, asked: map<nat, Ask>)
    requires AsksMatch(asked, calls)
    ensures AsksMatch(asked, Driven(wire, s, calls, l))
  {
    forall d: ClientData, m: S.Move ensures AsksMatch(asked, Moved(calls, d, m)) {
      MovedKeepsAsks(asked, calls, d, m);
    }
    forall d: ClientData, payload: seq<Byte>, c: Conn ensures AsksMatch(asked, CallOn(calls, d, payload, c)) {
      CallOnKeepsAsks(asked, calls, d, payload, c);
    }
  }

  lemma NewAskMatches(asked: map<nat, Ask>, calls: Records, id: nat, ask: Ask)
    requires AsksMatch(asked, calls) && id !in asked && ask.default != Some(ASYNC_CB)
    requires ask.call.cb == Some(ASYNC_CB) <==> ask.call.data in calls
    requires ask.call.data in calls ==> ask.call == calls[ask.call.data].call
    requires ask.call.data in calls ==> forall u | u in asked :: asked[u].call.data != ask.call.data
    ensures AsksMatch(asked[id := ask], calls)
  {}

  lemma BeginAsks(s: Sys, t: nat, hndl: nat, call: Call, s': Sys)
    requires Asks(s) && Shape(s) && s' == BeginStep(s, t, hndl, call) && s'.issued < UINT32
    ensures s'.asked == s.asked
         || (s.issued + 1 !in s.asked && s'.asked == s.asked[s.issued + 1 := Ask(call, s.conn, s.client.defaultCb)])
    ensures s'.client.defaultCb == s.client.defaultCb && s'.fired == s.fired
    ensures t < |s.threads| && s.threads[t].Idle? && !Accepts(s.client, hndl, true) ==> s' == s
  {
    assert Issued(s, s.issued + 1) == 0;
  }

  lemma DefaultStaysOther(vendor: A.Completer, s: Sys, l: Label, s': Sys)
    requires s' == UrilSystem.Step(vendor, s, l) && s.client.defaultCb != Some(ASYNC_CB)
    requires l.Init? ==> l.defaultCb != Some(ASYNC_CB)
    ensures s'.client.defaultCb != Some(ASYNC_CB)
  {
    if OfThread(l) {
      ThreadStepIsQuiet(vendor, s, l, s');
    } else if OfService(l) {
      ServiceStepIsQuiet(vendor, s, l, s');
    }
  }

  lemma AsksStayMatched(vendor: A.Completer, s: Sys, l: Label, s': Sys, calls: Records)
    requires Asks(s) && Shape(s) && s' == UrilSystem.Step(vendor, s, l) && s'.issued < UINT32
    requires AsksMatch(s.asked, calls) && s.client.defaultCb != Some(ASYNC_CB) && OfOthers(calls, l)
    ensures AsksMatch(s'.asked, calls)
  {
    if l.Begin? {
      BeginAsks(s, l.t, l.hndl, l.call, s');
      if s'.asked != s.asked {
        NewAskMatches(s.asked, calls, s.issued + 1, Ask(l.call, s.conn, s.client.defaultCb));
      }
    }
  }

  lemma MachineKeeps(vendor: A.Completer, wire: Wire, j: Joint, l: Label, s': Sys)
    requires A.Serving(vendor) && Sound(wire, j) && OfOthers(j.calls, l)
    requires s' == UrilSystem.Step(vendor, j.sys, l) && s'.issued < UINT32
    ensures Sound(wire, Joint(s', Driven(wire, j.sys, j.calls, l))) && Keeps(j.sys, s', !FromOthers(l))
  {
    StepKeeps(vendor, j.sys, l, s');
    AsksStayMatched(vendor, j.sys, l, s', j.calls);
    DrivenKeepsAsks(wire, j.sys, j.calls, l, s'.asked);
    DefaultStaysOther(vendor, j.sys, l, s');
    if l.Receive? {
      if l.k < |j.sys.resps| {
        ReceiveLogs(j.sys, l.k, s');
        if !j.sys.resps[l.k].1.isIndication {
          ReceiveMatches(wire, j.sys, s', j.calls, j.sys.resps[l.k].1, j.sys.resps[l.k].0);
        }
      }
    } else {
      DrivenMatches(wire, j.sys, j.calls, l);
    }
  }

  lemma BegunMatches(wire: Wire, s: Sys, params: ClientData, resp: seq<Byte>, calls: Records)
    requires Recorded(s) && AsksMatch(s.asked, calls)
    requires forall u | u in s.asked :: s.asked[u].call.data != params
    ensures CallMatches(wire, params, S.Begun(resp), s.fired)
  {
    forall f | f in s.fired ensures f.clientData != params {
      assert FireFits(f, s.asked);
    }
  }

  /** The asks and the records after a synchronous call has begun. */
  lemma SyncBeginAsks(wire: Wire, j: Joint, m: Move, record: SyncRecord, s': Sys)
    requires m.SyncBegin? && NewAddress(j, m.params) && Asks(j.sys) && Shape(j.sys)
    requires AsksMatch(j.sys.asked, j.calls) && j.sys.client.defaultCb != Some(ASYNC_CB)
    requires s' == BeginStep(j.sys, m.t, m.hndl, SyncRequest(m)) && s'.issued < UINT32
    requires record.call == SyncRequest(m)
    ensures AsksMatch(s'.asked, j.calls[m.params := record])
    ensures s'.client.defaultCb != Some(ASYNC_CB) && s'.fired == j.sys.fired
  {
    BeginAsks(j.sys, m.t, m.hndl, SyncRequest(m), s');
    assert AsksMatch(j.sys.asked, j.calls[m.params := record]);
    if s'.asked != j.sys.asked {
      NewAskMatches(j.sys.asked, j.calls[m.params := record], j.sys.issued + 1,
                    Ask(SyncRequest(m), j.sys.conn, j.sys.client.defaultCb));
    }
  }

  lemma SyncBeginMatches(wire: Wire, j: Joint, m: Move, record: SyncRecord)
    requires m.SyncBegin? && NewAddress(j, m.params) && Recorded(j.sys) && AsksMatch(j.sys.asked, j.calls)
    requires AllMatch(wire, j.calls, j.sys.fired) && record.sync == S.Begun(m.resp)
    ensures AllMatch(wire, j.calls[m.params := record], j.sys.fired)
  {
    BegunMatches(wire, j.sys, m.params, m.resp, j.calls);
  }

  lemma SyncBeginKeeps(wire: Wire, j: Joint, m: Move, record: SyncRecord, s': Sys)
    requires Sound(wire, j) && m.SyncBegin? && NewAddress(j, m.params)
    requires s' == BeginStep(j.sys, m.t, m.hndl, SyncRequest(m)) && s'.issued < UINT32
    requires record == SyncRecord(SyncRequest(m), S.Begun(m.resp), None)
    ensures Sound(wire, Joint(s', j.calls[m.params := record])) && Keeps(j.sys, s', true)
  {
    BeginOk(j.sys, m.t, m.hndl, SyncRequest(m), s');
    SyncBeginAsks(wire, j, m, record, s');
    SyncBeginMatches(wire, j, m, record);
  }

  lemma CallsMoveKeeps(wire: Wire, j: Joint, params: ClientData, m: S.Move)
    requires Sound(wire, j) && NotCalling(m)
    ensures Sound(wire, j.(calls := Moved(j.calls, params, m)))
  {
    MovedMatches(wire, j.calls, params, m, j.sys.fired);
    MovedKeepsAsks(j.sys.asked, j.calls, params, m);
  }

  lemma JointStepKeeps(vendor: A.Completer, wire: Wire, j: Joint, m: Move)
    requires A.Serving(vendor) && Sound(wire, j) && Step(vendor, wire, j, m).sys.issued < UINT32
    ensures Sound(wire, Step(vendor, wire, j, m))
    ensures AllCarried(j.sys) && Genuinely([m]) ==> AllCarried(Step(vendor, wire, j, m).sys)
  {
    assert m in [m];
    match m {
      case Machine(l) =>
        if OfOthers(j.calls, l) && CanReceive(j, l) {
          MachineKeeps(vendor, wire, j, l, UrilSystem.Step(vendor, j.sys, l));
        }
      case SyncBegin(t, hndl, _, _, _, params, resp) =>
        if t < |j.sys.threads| && j.sys.threads[t].Idle? && NewAddress(j, params) {
          var record := SyncRecord(SyncRequest(m), S.Begun(resp), None);
          var started := Joint(BeginStep(j.sys, t, hndl, SyncRequest(m)), j.calls[params := record]);
          SyncBeginKeeps(wire, j, m, record, started.sys);
          CallsMoveKeeps(wire, started, params, S.AsyncReturns(false));
        }
      case SyncMove(params, move) => CallsMoveKeeps(wire, j, params, if move.Called? then S.WaiterMoves else move);
    }
  }

  lemma JointIssues(vendor: A.Completer, wire: Wire, j: Joint, m: Move)
    ensures j.sys.issued <= Step(vendor, wire, j, m).sys.issued
  {}

  lemma {:induction false} JointRunIssues(vendor: A.Completer, wire: Wire, j: Joint, ms: seq<Move>)
    ensures j.sys.issued <= Run(vendor, wire, j, ms).sys.issued
    decreases |ms|
  {
    if ms != [] {
      JointIssues(vendor, wire, j, ms[0]);
      JointRunIssues(vendor, wire, Step(vendor, wire, j, ms[0]), ms[1..]);
    }
  }

  lemma {:induction false} JointRunKeeps(vendor: A.Completer, wire: Wire, j: Joint, ms: seq<Move>)
    requires A.Serving(vendor) && Sound(wire, j) && Run(vendor, wire, j, ms).sys.issued < UINT32
    ensures Sound(wire, Run(vendor, wire, j, ms))
    ensures AllCarried(j.sys) && Genuinely(ms) ==> AllCarried(Run(vendor, wire, j, ms).sys)
    decreases |ms|
  {
    if ms != [] {
      var j' := Step(vendor, wire, j, ms[0]);
      JointRunIssues(vendor, wire, j', ms[1..]);
      JointStepKeeps(vendor, wire, j, ms[0]);
      JointRunKeeps(vendor, wire, j', ms[1..]);
    }
  }

  lemma ReachedIsSound(vendor: A.Completer, wire: Wire, threads: nat, ms: seq<Move>, j: Joint)
    requires A.Serving(vendor) && j == Reached(vendor, wire, threads, ms) && j.sys.issued < UINT32
    ensures Sound(wire, j) && (Genuinely(ms) ==> AllCarried(j.sys))
  {
    StartHolds(threads);
    StartCarries(threads);
    JointRunKeeps(vendor, wire, Joint(Start(threads), map[]), ms);
  }

  /** The bytes that a call which returned 0 has in its buffer. */
  predicate Holds(sync: Sync, payload: seq<Byte>) {
    var n := Min(|sync.before|, |payload|);
    sync.resp[..n] == payload[..n] && sync.resp[n..] == sync.before[n..]
  }

  lemma SuccessHolds(wire: Wire, params: ClientData, sync: Sync, fired: seq<Fire>) returns (f: Fire)
    requires CallMatches(wire, params, sync, fired) && sync.waiter.Returned? && sync.waiter.ok
    ensures f in fired && f.clientData == params && Holds(sync, wire(f.body))
  {
    f :| f in fired && f.clientData == params;
  }

  /** When a synchronous call returns 0, exactly one response to its own request was handed over, and the
      buffer holds the bytes of that response as far as both reach. */
  lemma SyncSuccessIsOwnResponse(vendor: A.Completer, wire: Wire, threads: nat, ms: seq<Move>, j: Joint,
                                 params: ClientData) returns (f: Fire)
    requires A.Serving(vendor) && j == Reached(vendor, wire, threads, ms) && j.sys.issued < UINT32
    requires params in j.calls && j.calls[params].sync.waiter.Returned? && j.calls[params].sync.waiter.ok
    ensures f in j.sys.fired && f.cb == ASYNC_CB && Occ(j.sys.fired, FiredId, f.uniqueId) == 1
    ensures f.uniqueId in j.sys.asked && j.sys.asked[f.uniqueId].call == j.calls[params].call
    ensures forall u | u in j.sys.asked && j.sys.asked[u].call.data == params :: u == f.uniqueId
    ensures Genuinely(ms) ==> f.simId == j.calls[params].call.simId && f.msgId == j.calls[params].call.msgId
    ensures Holds(j.calls[params].sync, wire(f.body))
  {
    ReachedIsSound(vendor, wire, threads, ms, j);
    f := SuccessHolds(wire, params, j.calls[params].sync, j.sys.fired);
    AsyncCbIff(j.sys, j.calls, f);
    FiredOnce(j.sys, f);
  }

  lemma FiredOnce(s: Sys, f: Fire)
    requires Inv(s) && f in s.fired
    ensures Occ(s.fired, FiredId, f.uniqueId) == 1 && FireFits(f, s.asked)
  {
    var k :| 0 <= k < |s.fired| && s.fired[k] == f;
    OccAt(s.fired, k, FiredId);
    assert Early(s, f.uniqueId) + Open(s, f.uniqueId) + Closed(s, f.uniqueId) == Issued(s, f.uniqueId);
  }

  // ---- a callback that comes too late ----

  /** The call timed out, and its callback, on the thread of connection c, has not got the mutex. */
  ghost predicate Stuck(j: Joint, params: ClientData, c: Conn) {
    && params in j.calls && j.calls[params].via == Some(c)
    && S.Inv(j.calls[params].sync) && j.calls[params].sync.waiter == S.Returned(false, S.TimedOut)
    && Running(j.calls[params].sync) && !j.calls[params].sync.caller.AtSignal?
  }

  /** What came from connection c and is not received yet. */
  function OnConn(xs: seq<Envelope>, c: Conn): seq<Envelope> {
    if xs == [] then [] else IfFrom(xs[0], c) + OnConn(xs[1..], c)
  }

  function IfFrom(e: Envelope, c: Conn): seq<Envelope> {
    if e.0 == c then [e] else []
  }

  lemma {:induction false} OnConnConcat(xs: seq<Envelope>, ys: seq<Envelope>, c: Conn)
    ensures OnConn(xs + ys, c) == OnConn(xs, c) + OnConn(ys, c)
  {
    if xs == [] {
      assert xs + ys == ys;
    } else {
      assert (xs + ys)[1..] == xs[1..] + ys;
      OnConnConcat(xs[1..], ys, c);
      T.Reassociate(IfFrom(xs[0], c), OnConn(xs[1..], c), OnConn(ys, c));
    }
  }

  lemma OnConnNone(x: Envelope, after: seq<Envelope>, c: Conn)
    requires x.0 != c
    ensures OnConn([x], c) + OnConn(after, c) == OnConn(after, c)
  {
    assert OnConn([x], c) == [];
  }

  lemma OthersTaken(before: seq<Envelope>, x: Envelope, after: seq<Envelope>, c: Conn)
    requires x.0 != c
    ensures OnConn(before + ([x] + after), c) == OnConn(before + after, c)
  {
    OnConnConcat(before, [x] + after, c);
    OnConnConcat([x], after, c);
    OnConnConcat(before, after, c);
    OnConnNone(x, after, c);
  }

  lemma ReceiveLeavesConn(s: Sys, k: nat, c: Conn)
    requires k < |s.resps| && s.resps[k].0 != c
    ensures OnConn(ReceiveStep(s, k).resps, c) == OnConn(s.resps, c)
  {
    OthersTaken(s.resps[..k], s.resps[k], s.resps[k + 1..], c);
    assert s.resps == s.resps[..k] + ([s.resps[k]] + s.resps[k + 1..]);
  }

  predicate Grows(xs: seq<Envelope>, ys: seq<Envelope>) {
    |xs| <= |ys| && ys[..|xs|] == xs
  }

  /** A step that receives nothing only adds to the channel. */
  lemma ChannelGrows(vendor: A.Completer, s: Sys, l: Label, s': Sys)
    requires s' == UrilSystem.Step(vendor, s, l) && !l.Receive?
    ensures Grows(s.resps, s'.resps)
  {
    if l.Dispatch? && l.k < |s.dispatching| {
      DispatchedLeavesChannel(s, l.k, StartedFor(s.dispatching[l.k]));
    } else if l.VendorDone? && l.k < |s.live| {
      CompletedGrows(s, l.k, vendor(s.live[l.k], l.e, l.data), l.ok);
    } else if l.Stray? {
      RespondGrows(s, l.msg, l.ok);
    } else if OfThread(l) {
      ThreadLeavesChannel(vendor, s, l, s');
    }
  }

  lemma RespondGrows(s: Sys, msg: Msg, ok: bool)
    ensures Grows(s.resps, Respond(s, msg, ok).resps)
  {}

  lemma CompletedGrows(s: Sys, k: nat, r: A.Completion, ok: bool)
    requires k < |s.live|
    ensures Grows(s.resps, Completed(s, k, r, ok).resps)
  {}

  lemma DispatchedLeavesChannel(s: Sys, k: nat, d: A.Started)
    requires k < |s.dispatching|
    ensures Dispatched(s, k, d).resps == s.resps
  {}

  lemma ThreadLeavesChannel(vendor: A.Completer, s: Sys, l: Label, s': Sys)
    requires s' == UrilSystem.Step(vendor, s, l) && OfThread(l)
    ensures s'.resps == s.resps
  {}

  lemma GrownOnConn(xs: seq<Envelope>, ys: seq<Envelope>, c: Conn)
    requires Grows(xs, ys)
    ensures Grows(OnConn(xs, c), OnConn(ys, c))
  {
    assert ys == xs + ys[|xs|..];
    OnConnConcat(xs, ys[|xs|..], c);
  }

  lemma StuckMove(sync: Sync, m: S.Move)
    requires S.Inv(sync) && sync.waiter == S.Returned(false, S.TimedOut)
    requires Running(sync) && !sync.caller.AtSignal?
    ensures var t := S.Step(sync, m);
            S.Inv(t) && t.waiter == sync.waiter && Running(t) && !t.caller.AtSignal?
  {
    S.StepKeeps(sync, m);
  }

  lemma StuckMoved(d: ClientData, m: S.Move, params: ClientData, j: Joint, c: Conn, s': Sys)
    requires Stuck(j, params, c)
    ensures Stuck(Joint(s', Moved(j.calls, d, m)), params, c)
  {
    if d == params {
      StuckMove(j.calls[params].sync, m);
    }
  }

  lemma StuckCalled(d: ClientData, payload: seq<Byte>, b: Conn, params: ClientData, j: Joint, c: Conn, s': Sys)
    requires Stuck(j, params, c)
    ensures Stuck(Joint(s', CallOn(j.calls, d, payload, b)), params, c)
  {
    if d == params {
      StuckMove(j.calls[params].sync, S.Called(payload));
    }
  }

  lemma StuckDriven(wire: Wire, j: Joint, l: Label, params: ClientData, c: Conn, s': Sys)
    requires Stuck(j, params, c)
    ensures Stuck(Joint(s', Driven(wire, j.sys, j.calls, l)), params, c)
  {
    forall d: ClientData, m: S.Move ensures Stuck(Joint(s', Moved(j.calls, d, m)), params, c) {
      StuckMoved(d, m, params, j, c, s');
    }
    forall d: ClientData, payload: seq<Byte>, b: Conn
      ensures Stuck(Joint(s', CallOn(j.calls, d, payload, b)), params, c)
    {
      StuckCalled(d, payload, b, params, j, c, s');
    }
  }

  lemma StuckMachine(vendor: A.Completer, wire: Wire, j: Joint, l: Label, params: ClientData, c: Conn)
    requires Stuck(j, params, c)
    ensures var j' := Step(vendor, wire, j, Machine(l));
            Stuck(j', params, c) && Grows(OnConn(j.sys.resps, c), OnConn(j'.sys.resps, c))
  {
    var s' := UrilSystem.Step(vendor, j.sys, l);
    StuckDriven(wire, j, l, params, c, s');
    if !l.Receive? {
      ChannelGrows(vendor, j.sys, l, s');
      GrownOnConn(j.sys.resps, s'.resps, c);
    } else if l.k < |j.sys.resps| && CanReceive(j, l) {
      ReceiveLeavesConn(j.sys, l.k, c);
    }
  }

  lemma StuckStep(vendor: A.Completer, wire: Wire, j: Joint, m: Move, params: ClientData, c: Conn)
    requires Stuck(j, params, c)
    ensures var j' := Step(vendor, wire, j, m);
            Stuck(j', params, c) && Grows(OnConn(j.sys.resps, c), OnConn(j'.sys.resps, c))
  {
    match m {
      case Machine(l) => StuckMachine(vendor, wire, j, l, params, c);
      case SyncBegin(t, hndl, _, _, _, d, _) =>
        if d != params {
          var begun := BeginStep(j.sys, t, hndl, SyncRequest(m));
          assert begun.resps == j.sys.resps;
        }
      case SyncMove(d, move) => StuckMoved(d, move, params, j, c, j.sys);
    }
  }

  /** After that nothing that comes from the connection is received any more, no response and no indication:
      what is in the channel stays there, and everything else lines up behind it. */
  lemma {:induction false} LateCallbackStopsReceiving(vendor: A.Completer, wire: Wire, j: Joint, ms: seq<Move>,
                                                      params: ClientData, c: Conn)
    requires Stuck(j, params, c)
    ensures Stuck(Run(vendor, wire, j, ms), params, c)
    ensures Grows(OnConn(j.sys.resps, c), OnConn(Run(vendor, wire, j, ms).sys.resps, c))
    decreases |ms|
  {
    if ms != [] {
      StuckStep(vendor, wire, j, ms[0], params, c);
      LateCallbackStopsReceiving(vendor, wire, Step(vendor, wire, j, ms[0]), ms[1..], params, c);
    }
  }

  /** A response that arrives after its call timed out gets its receiving thread there. */
  lemma LateResponseIsStuck(wire: Wire, j: Joint, k: nat, params: ClientData, f: Fire, j': Joint)
    requires k < |j.sys.resps| && !j.sys.resps[k].1.isIndication
    requires FiredBy(j.sys.client, j.sys.resps[k].1) == Some(f)
    requires f.cb == ASYNC_CB && f.clientData == params && params in j.calls
    requires S.Inv(j.calls[params].sync) && j.calls[params].sync.caller.NotCalled?
    requires j.calls[params].sync.waiter == S.Returned(false, S.TimedOut)
    requires j' == Joint(ReceiveStep(j.sys, k), Driven(wire, j.sys, j.calls, Receive(k)))
    ensures Stuck(j', params, j.sys.resps[k].0)
  {
    S.StepKeeps(j.calls[params].sync, S.Called(wire(f.body)));
  }
}
