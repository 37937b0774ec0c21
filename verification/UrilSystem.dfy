/** One client process, its channels, the tracker and the adapter, as one machine of small steps.
    A step that its state does not allow changes nothing. */
module UrilSystem {
  import opened Basics
  import opened Occurrences
  import opened Protocol
  import opened PendingOps
  import T = Tracker
  import Composite
  import A = Adapter

  type Conn = T.Conn
  type Envelope = (Conn, Msg)

  // The connections of all other clients count as one.
  const FOREIGN: Conn := 0
  type OwnConn = c: Conn | c != FOREIGN witness 1

  datatype Call = Call(simId: nat, msgId: nat, body: Body, cb: Option<Callback>, data: ClientData)

  /** Where a thread is inside uril_client_execute_command_async. While it is Filling, the first
      `written` of the three fields (callback, client data, id) of its slot are set. */
  datatype Pc =
    | Idle
    | HasId(call: Call, id: nat)
    | Filling(call: Call, id: nat, slot: nat, written: nat)
    | Filled(call: Call, id: nat, slot: nat)

  /** What was asked under an id: the call, the connection in use and the default callback of that time. */
  datatype Ask = Ask(call: Call, conn: OwnConn, default: Option<Callback>)

  datatype Sys = Sys(
    // the client process
    client: Client, threads: seq<Pc>, conn: OwnConn,
    // the channels between client and service
    reqs: seq<(OwnConn, Msg)>, resps: seq<Envelope>,
    // the service; it stops for good when an assertion fails
    up: bool, pending: map<nat, Conn>, dispatching: seq<Msg>, rejected: seq<nat>, live: seq<A.Ctx>, radio: seq<Msg>,
    // what happened to ids that are nowhere else
    wasted: seq<nat>, failed: seq<nat>, lost: seq<nat>, answered: seq<nat>,
    // history; issued counts ids, base is its value at the last init, the two counts start there;
    // kept are older ids that calls under way brought through an init
    issued: nat, base: nat, kept: set<nat>, acquired: nat, freed: nat,
    asked: map<nat, Ask>, fired: seq<Fire>, indCalls: seq<Callback>, handles: seq<nat>)

  function Start(threads: nat): Sys {
    Sys(Client(0, false, None, None, EmptySlots(), 0, 0), seq(threads, _ => Idle), 1,
        [], [], true, map[], [], [], [], [], [], [], [], [], 0, 0, {}, 0, 0, map[], [], [], [])
  }

  datatype Label =
    | Begin(t: nat, hndl: nat, call: Call)
    | Acquire(t: nat)
    | Write(t: nat)
    | Send(t: nat, ok: bool)
    | Track(k: nat)
    | Dispatch(k: nat)
    | VendorDone(k: nat, e: A.RilErrno, data: A.VendorData, ok: bool)
    | RadioDone(k: nat, state: A.RadioState, ok: bool)
    | Stray(msg: Msg, ok: bool)
    | Intrude(id: nat, fails: bool)
    | Indicate(conns: seq<Conn>, msg: Msg)
    | Receive(k: nat)
    | Init(indCb: Option<Callback>, defaultCb: Option<Callback>, connected: bool)
    | Release

  // ---- the client ----

  /** The checks of a call, and its id. */
  function BeginStep(s: Sys, t: nat, hndl: nat, call: Call): Sys {
    if t < |s.threads| && s.threads[t].Idle? && Accepts(s.client, hndl, true) then
      var c := s.client.(lastId := NextId(s.client));
      s.(client := c, threads := s.threads[t := HasId(call, c.lastId)], issued := s.issued + 1,
         asked := s.asked[c.lastId := Ask(call, s.conn, s.client.defaultCb)])
    else s
  }

  /** A thread whose id got no slot gives up. */
  function RefusedStep(s: Sys, t: nat): Sys
    requires t < |s.threads| && s.threads[t].HasId?
  {
    s.(threads := s.threads[t := Idle], wasted := s.wasted + [s.threads[t].id])
  }

  function TakeStep(s: Sys, t: nat, i: nat): Sys
    requires t < |s.threads| && s.threads[t].HasId? && i < |s.client.slots|
  {
    s.(client := s.client.(slots := SetBusy(s.client.slots, i, true)),
       threads := s.threads[t := Filling(s.threads[t].call, s.threads[t].id, i, 0)], acquired := s.acquired + 1)
  }

  /** acquire_free_op_slot, under the command mutex. */
  function AcquireStep(s: Sys, t: nat): Sys {
    if t < |s.threads| && s.threads[t].HasId? then
      match FirstFree(s.client.slots)
      case None => RefusedStep(s, t)
      case Some(i) => TakeStep(s, t, i)
    else s
  }

  function Written(slot: Slot, pc: Pc, cb: Option<Callback>): Slot
    requires pc.Filling?
  {
    if pc.written == 0 then slot.(asyncCb := cb)
    else if pc.written == 1 then slot.(clientData := pc.call.data)
    else slot.(uniqueId := pc.id)
  }

  /** The next of the three unprotected writes to the slot. */
  function WriteStep(s: Sys, t: nat): Sys {
    if t < |s.threads| && s.threads[t].Filling? && s.threads[t].slot < |s.client.slots| then
      var pc := s.threads[t];
      var slot := Written(s.client.slots[pc.slot], pc, EffectiveCb(s.client, pc.call.cb));
      s.(client := s.client.(slots := s.client.slots[pc.slot := slot]),
         threads := s.threads[t := if pc.written < 2 then pc.(written := pc.written + 1)
                                   else Filled(pc.call, pc.id, pc.slot)])
    else s
  }

  function RequestOf(pc: Pc): Msg
    requires pc.Filled?
  {
    Msg(false, pc.id, pc.call.simId, pc.call.msgId, pc.call.body)
  }

  function SendStep(s: Sys, t: nat, ok: bool): Sys {
    if t < |s.threads| && s.threads[t].Filled? then
      var pc := s.threads[t];
      var s' := s.(threads := s.threads[t := Idle]);
      if ok then s'.(reqs := s.reqs + [(s.conn, RequestOf(pc))])
      else s'.(failed := s.failed + [pc.id])
    else s
  }

  function Fires(f: Option<Fire>): seq<Fire> {
    if f.Some? then [f.value] else []
  }

  /** connector_on_receive. Messages may overtake each other. */
  function ReceiveStep(s: Sys, k: nat): Sys {
    if k < |s.resps| then
      var msg := s.resps[k].1;
      var s' := s.(resps := Without(s.resps, k));
      if msg.isIndication then
        s'.(indCalls := s.indCalls + if s.client.indCb.Some? then [s.client.indCb.value] else [])
      else
        s'.(client := AfterResponse(s.client, msg), fired := s.fired + Fires(FiredBy(s.client, msg)),
            answered := s.answered + [msg.uniqueId],
            freed := s.freed + if FirstWithId(s.client.slots, msg.uniqueId).Some? then 1 else 0)
    else s
  }

  predicate AllIdle(threads: seq<Pc>) {
    forall t :: 0 <= t < |threads| ==> threads[t].Idle?
  }

  /** uril_client_init. A new connection replaces the old one. */
  function Reset(s: Sys, indCb: Option<Callback>, defaultCb: Option<Callback>, connected: bool): Sys {
    var c := Initialized(s.client, indCb, defaultCb, connected);
    s.(client := c, conn := s.conn + 1, base := s.issued, kept := {}, acquired := 0, freed := 0,
       handles := s.handles + if connected then [c.handle] else [])
  }

  /** The machine initialises only while no call is under way. */
  function InitStep(s: Sys, indCb: Option<Callback>, defaultCb: Option<Callback>, connected: bool): Sys {
    if AllIdle(s.threads) then Reset(s, indCb, defaultCb, connected) else s
  }

  function ReleaseStep(s: Sys): Sys {
    s.(client := Released(s.client))
  }

  // ---- the service ----

  function TrackStep(s: Sys, k: nat): (s': Sys)
    ensures s'.asked == s.asked && s'.issued == s.issued && s'.fired == s.fired
  {
    if s.up && k < |s.reqs| then
      var (c, msg) := s.reqs[k];
      s.(reqs := Without(s.reqs, k), pending := T.Tracked(s.pending, msg.uniqueId, c),
         dispatching := s.dispatching + [msg])
    else s
  }

  /** The operations the composite runs for a message. */
  function OpsFor(msg: Msg): seq<Composite.AdapterOp> {
    Composite.Dispatch(Composite.V1_PROCESSORS, msg.msgId,
      (op: Composite.AdapterOp) => !A.Start(op, msg.body, msg.uniqueId, msg.simId).Refused?).1
  }

  function StartedFor(msg: Msg): A.Started {
    var ops := OpsFor(msg);
    if ops == [] then A.Refused else A.Start(ops[0], msg.body, msg.uniqueId, msg.simId)
  }

  function Dispatched(s: Sys, k: nat, d: A.Started): (s': Sys)
    requires k < |s.dispatching|
    ensures s'.asked == s.asked && s'.issued == s.issued && s'.fired == s.fired
  {
    var t := s.(dispatching := Without(s.dispatching, k));
    match d
    case Failed => s.(up := false)
    case Refused => t.(rejected := s.rejected + [s.dispatching[k].uniqueId])
    case Token(ctx, _) => t.(live := s.live + [ctx])
    case Radio => t.(radio := s.radio + [s.dispatching[k]])
  }

  function DispatchStep(s: Sys, k: nat): (s': Sys)
    ensures s'.asked == s.asked && s'.issued == s.issued && s'.fired == s.fired
  {
    if s.up && k < |s.dispatching| then Dispatched(s, k, StartedFor(s.dispatching[k])) else s
  }

  /** The tracker gets a response; ok tells whether it could be sent to the connection. */
  function Respond(s: Sys, msg: Msg, ok: bool): (s': Sys)
    ensures s'.asked == s.asked && s'.issued == s.issued && s'.fired == s.fired
  {
    match T.Recipient(s.pending, msg.uniqueId)
    case None => s
    case Some(c) =>
      var t := s.(pending := T.Answered(s.pending, msg.uniqueId));
      if c == FOREIGN then t
      else if ok then t.(resps := s.resps + [(c, msg)])
      else t.(lost := s.lost + [msg.uniqueId])
  }

  function Completed(s: Sys, k: nat, r: A.Completion, ok: bool): (s': Sys)
    requires k < |s.live|
    ensures s'.asked == s.asked && s'.issued == s.issued && s'.fired == s.fired
  {
    match r
    case Aborted => s.(up := false)
    case Waiting(ctx) => s.(live := s.live[k := ctx])
    case Emitted(msg) => Respond(s.(live := Without(s.live, k)), msg, ok)
  }

  function VendorDoneStep(vendor: A.Completer, s: Sys, k: nat, e: A.RilErrno, data: A.VendorData, ok: bool): (s': Sys)
    ensures s'.asked == s.asked && s'.issued == s.issued && s'.fired == s.fired
  {
    if s.up && k < |s.live| then Completed(s, k, vendor(s.live[k], e, data), ok) else s
  }

  function RadioReply(msg: Msg, mode: nat): Msg {
    Msg(false, msg.uniqueId, msg.simId, A.GET_RADIO_MODE_RESP, Reply(ResultCode(true, 0), RadioMode(mode)))
  }

  /** The detached thread of getRadioMode. An unlisted radio state fails an assertion. */
  function RadioDoneStep(s: Sys, k: nat, state: A.RadioState, ok: bool): (s': Sys)
    ensures s'.asked == s.asked && s'.issued == s.issued && s'.fired == s.fired
  {
    if s.up && k < |s.radio| then
      var mode := A.UrilRadioMode(state);
      if mode.None? then s.(up := false)
      else Respond(s.(radio := Without(s.radio, k)), RadioReply(s.radio[k], mode.value), ok)
    else s
  }

  /** A response no request called for: a repeated completion, or another client's id. */
  function StrayStep(s: Sys, msg: Msg, ok: bool): (s': Sys)
    ensures s'.asked == s.asked && s'.issued == s.issued && s'.fired == s.fired
  {
    if s.up && !msg.isIndication then Respond(s, msg, ok) else s
  }

  /** The tracker has this client's request under the id. */
  predicate Tracks(s: Sys, u: nat) {
    u in s.pending && s.pending[u] != FOREIGN
  }

  /** Another client's request with an id of its own, which takes over an entry on the same id. If an
      assertion fails on it, the service stops for all. */
  function IntrudeStep(s: Sys, id: nat, fails: bool): (s': Sys)
    ensures s'.asked == s.asked && s'.issued == s.issued && s'.fired == s.fired
  {
    if s.up then
      s.(pending := T.Tracked(s.pending, id, FOREIGN), up := !fails,
         lost := if Tracks(s, id) then s.lost + [id] else s.lost)
    else s
  }

  function IndicateStep(s: Sys, conns: seq<Conn>, msg: Msg): (s': Sys)
    ensures s'.asked == s.asked && s'.issued == s.issued && s'.fired == s.fired
  {
    if s.up && msg.isIndication then s.(resps := s.resps + T.Copies(conns, msg)) else s
  }

  /** What other clients, or a faulty vendor, may do. */
  predicate FromOthers(l: Label) {
    l.Stray? || l.Intrude?
  }

  /** vendor says how the adapter takes a completion. */
  function Step(vendor: A.Completer, s: Sys, l: Label): (s': Sys)
    ensures s.issued <= s'.issued
    ensures !l.Begin? ==> s'.asked == s.asked && s'.issued == s.issued
    ensures !l.Receive? ==> s'.fired == s.fired
  {
    match l
    case Begin(t, hndl, call) => BeginStep(s, t, hndl, call)
    case Acquire(t) => AcquireStep(s, t)
    case Write(t) => WriteStep(s, t)
    case Send(t, ok) => SendStep(s, t, ok)
    case Track(k) => TrackStep(s, k)
    case Dispatch(k) => DispatchStep(s, k)
    case VendorDone(k, e, data, ok) => VendorDoneStep(vendor, s, k, e, data, ok)
    case RadioDone(k, state, ok) => RadioDoneStep(s, k, state, ok)
    case Stray(msg, ok) => StrayStep(s, msg, ok)
    case Intrude(id, fails) => IntrudeStep(s, id, fails)
    case Indicate(conns, msg) => IndicateStep(s, conns, msg)
    case Receive(k) => ReceiveStep(s, k)
    case Init(indCb, defaultCb, connected) => InitStep(s, indCb, defaultCb, connected)
    case Release => ReleaseStep(s)
  }

  function Run(vendor: A.Completer, s: Sys, ls: seq<Label>): Sys
    decreases |ls|
  {
    if ls == [] then s else Run(vendor, Step(vendor, s, ls[0]), ls[1..])
  }

  /** The state a run from the start of the client process reaches. */
  function Reached(vendor: A.Completer, threads: nat, ls: seq<Label>): Sys
  {
    Run(vendor, Start(threads), ls)
  }
}
