/** What travels through channels, tracker and adapter still says what the client asked. */
module SystemCarried {
  import opened Basics
  import opened Occurrences
  import opened Protocol
  import opened PendingOps
  import T = Tracker
  import C = Composite
  import A = Adapter
  import opened UrilSystem
  import opened SystemInvariant

  predicate Fits(asked: map<nat, Ask>, msg: Msg) {
    && !msg.isIndication && msg.uniqueId in asked
    && msg.simId == asked[msg.uniqueId].call.simId && msg.msgId == asked[msg.uniqueId].call.msgId
    && msg.body == asked[msg.uniqueId].call.body
  }

  /** The message ids that some operation answers. 0x0507 and 0x0600 are claimed, but always refused. */
  const ANSWERED_IDS: set<nat> :=
    {0x0101, 0x0102, 0x0500, 0x0501, 0x0502, 0x0503, 0x0504, 0x0505, 0x0506, 0x0601, 0x0602, 0x0603, 0x0604}

  datatype Fate = Refuses | Stops | Starts

  /** Every enumeration value that the operation translates is one it lists. */
  predicate AllListed(msgId: nat, f: Fields) {
    && (msgId == 0x0500 ==> 0 <= f.preferredMode <= 12)
    && (msgId == 0x0102 ==> f.radioMode == 1 || f.radioMode == 2)
    && (msgId == 0x0601 ==> 0 <= f.bearer <= 21)
    && (msgId == 0x0601 || msgId == 0x0604 ==> 0 <= f.authType <= 3 && 0 <= f.pdpType <= 4)
  }

  /** What a client can find out before it calls: whether the service refuses the request, stops on it, or
      starts to serve it. A network selection must be automatic (0) or manual (1). */
  function FateOf(msgId: nat, body: Body): Fate {
    var f := FieldsOf(body);
    if msgId !in ANSWERED_IDS || (msgId == 0x0505 && f.selectionType != 0 && f.selectionType != 1) then Refuses
    else if AllListed(msgId, f) then Starts
    else Stops
  }

  predicate HasFate(asked: map<nat, Ask>, u: nat, fate: Fate) {
    u in asked && FateOf(asked[u].call.msgId, asked[u].call.body) == fate
  }

  predicate CanAnswer(asked: map<nat, Ask>, u: nat) {
    HasFate(asked, u, Starts)
  }

  predicate ServesAsk(asked: map<nat, Ask>, ctx: A.Ctx) {
    && ctx.uniqueId in asked && ctx.simId == asked[ctx.uniqueId].call.simId
    && A.Serves(ctx, asked[ctx.uniqueId].call.msgId) && CanAnswer(asked, ctx.uniqueId)
  }

  /** Under the id of a request, a response of its kind. */
  predicate AnswersAsk(asked: map<nat, Ask>, msg: Msg) {
    && msg.uniqueId in asked
    && A.Answers(msg, msg.uniqueId, asked[msg.uniqueId].call.simId, asked[msg.uniqueId].call.msgId)
    && CanAnswer(asked, msg.uniqueId)
  }

  predicate SentBy(asked: map<nat, Ask>, u: nat, c: Conn) {
    u in asked && asked[u].conn == c
  }

  ghost predicate Carried(s: Sys) {
    && (forall e | e in s.reqs :: Fits(s.asked, e.1) && SentBy(s.asked, e.1.uniqueId, e.0))
    && (forall u | u in s.pending && s.pending[u] != FOREIGN :: SentBy(s.asked, u, s.pending[u]))
    && (forall m | m in s.dispatching :: Fits(s.asked, m))
    && (forall u | u in s.rejected :: HasFate(s.asked, u, Refuses))
    && (forall ctx | ctx in s.live :: ServesAsk(s.asked, ctx))
    && (forall m | m in s.radio :: Fits(s.asked, m) && m.msgId == A.GET_RADIO_MODE_RESP)
    && (forall e | e in s.resps && !e.1.isIndication :: SentBy(s.asked, e.1.uniqueId, e.0))
  }

  /** Every response was called for. */
  ghost predicate Genuine(s: Sys) {
    && (forall e | e in s.resps && !e.1.isIndication :: AnswersAsk(s.asked, e.1))
    && (forall u | u in s.lost || u in s.answered :: CanAnswer(s.asked, u))
    && (forall f | f in s.fired ::
          f.uniqueId in s.asked && f.simId == s.asked[f.uniqueId].call.simId
          && f.msgId == s.asked[f.uniqueId].call.msgId)
  }

  function MsgId(m: Msg): int { m.uniqueId }
  function CtxId(ctx: A.Ctx): int { ctx.uniqueId }

  /** The places between tracking a request and answering it. */
  function Inside(s: Sys, u: nat): nat {
    Occ(s.dispatching, MsgId, u) + Occ(s.rejected, Id, u) + Occ(s.live, CtxId, u) + Occ(s.radio, MsgId, u)
  }

  ghost predicate Pipeline(s: Sys) {
    forall u: nat :: Inside(s, u) == if Tracks(s, u) then 1 else 0
  }

  lemma WithoutIsPart<X>(xs: seq<X>, k: nat)
    requires k < |xs|
    ensures forall x | x in Without(xs, k) :: x in xs
  {}

  predicate NewAsksOnly(old_: map<nat, Ask>, asked: map<nat, Ask>) {
    forall u | u in old_ :: u in asked && asked[u] == old_[u]
  }

  /** All that a step of the client leaves alone, if it is not a send or a receive. */
  predicate ServiceSame(s: Sys, t: Sys) {
    && s.reqs == t.reqs && s.resps == t.resps && s.pending == t.pending && s.dispatching == t.dispatching
    && s.rejected == t.rejected && s.live == t.live && s.radio == t.radio
    && s.lost == t.lost && s.answered == t.answered
  }

  lemma ClientStepCarries(s: Sys, t: Sys)
    requires ServiceSame(s, t) && NewAsksOnly(s.asked, t.asked)
    ensures Carried(s) ==> Carried(t)
    ensures Genuine(s) && s.fired == t.fired ==> Genuine(t)
    ensures Pipeline(s) ==> Pipeline(t)
  {
    SamePipeline(s, t);
  }

  lemma NewIdIsNotAsked(s: Sys, t: nat, hndl: nat, call: Call)
    requires Asks(s) && Shape(s) && BeginStep(s, t, hndl, call).issued < UINT32
    ensures NewAsksOnly(s.asked, BeginStep(s, t, hndl, call).asked)
  {
    assert Issued(s, s.issued + 1) == 0;
  }

  lemma SendCarries(s: Sys, t: nat, ok: bool)
    requires Threads(s) && Carried(s)
    ensures Carried(SendStep(s, t, ok))
    ensures Genuine(s) ==> Genuine(SendStep(s, t, ok))
  {
    if t < |s.threads| && s.threads[t].Filled? {
      assert PcFits(s, s.threads[t]);
    }
  }

  lemma ReceiveCarries(s: Sys, k: nat)
    requires Carried(s)
    ensures Carried(ReceiveStep(s, k))
    ensures Genuine(s) ==> Genuine(ReceiveStep(s, k))
  {
    if k < |s.resps| {
      WithoutIsPart(s.resps, k);
    }
  }

  lemma SamePipeline(s: Sys, t: Sys)
    requires s.pending == t.pending && s.dispatching == t.dispatching
    requires s.rejected == t.rejected && s.live == t.live && s.radio == t.radio
    ensures Pipeline(s) ==> Pipeline(t)
  {
    assert forall u: nat :: Inside(t, u) == Inside(s, u);
  }

  lemma TrackCarries(s: Sys, k: nat)
    requires Carried(s)
    ensures Carried(TrackStep(s, k))
    ensures Genuine(s) ==> Genuine(TrackStep(s, k))
  {
    if s.up && k < |s.reqs| {
      WithoutIsPart(s.reqs, k);
      assert s.reqs[k] in s.reqs;
    }
  }

  lemma TrackPipes(s: Sys, k: nat)
    requires Ledger(s) && Pipeline(s)
    ensures Pipeline(TrackStep(s, k))
  {
    var s' := TrackStep(s, k);
    if s.up && k < |s.reqs| {
      var id := s.reqs[k].1.uniqueId;
      OccAt(s.reqs, k, RequestId);
      assert Early(s, id) + Open(s, id) + Closed(s, id) == Issued(s, id);
      forall u: nat ensures Inside(s', u) == if Tracks(s', u) then 1 else 0 {
        OccAppend(s.dispatching, s.reqs[k].1, MsgId, u);
        assert Inside(s, u) == if Tracks(s, u) then 1 else 0;
      }
    }
  }

  /** Dispatch takes the processor that claims the message id, and starts what it names. */
  lemma StartedForServes(msg: Msg)
    ensures |OpsFor(msg)| <= 1
    ensures var d := StartedFor(msg);
            && (d.Token? ==> A.Serves(d.ctx, msg.msgId) && d.ctx.uniqueId == msg.uniqueId && d.ctx.simId == msg.simId)
            && (d.Radio? ==> msg.msgId == A.GET_RADIO_MODE_RESP)
  {
    var outcome := (op: C.AdapterOp) => !A.Start(op, msg.body, msg.uniqueId, msg.simId).Refused?;
    if C.Claims(C.V1_PROCESSORS, msg.msgId) == 0 {
      C.UnclaimedHasNoEffect(C.V1_PROCESSORS, msg.msgId, outcome);
    } else {
      var i := C.ClaimedBySome(C.V1_PROCESSORS, msg.msgId);
      C.V1ProcessorsAreDisjoint();
      C.DisjointClaims(C.V1_PROCESSORS, msg.msgId);
      C.SoleClaimDecides(C.V1_PROCESSORS, i, msg.msgId, outcome);
      var op := C.V1_PROCESSORS[i][msg.msgId];
      A.RoutesByRequestId(i, msg.msgId);
      A.StartedServes(op, msg.body, msg.uniqueId, msg.simId);
    }
  }

  /** What becomes of a message at dispatch. */
  lemma DispatchFate(msg: Msg)
    ensures var d, fate := StartedFor(msg), FateOf(msg.msgId, msg.body);
            && (d.Refused? <==> fate == Refuses) && (d.Failed? <==> fate == Stops)
            && (d.Token? || d.Radio? <==> fate == Starts)
  {
    var outcome := (op: C.AdapterOp) => !A.Start(op, msg.body, msg.uniqueId, msg.simId).Refused?;
    if C.Claims(C.V1_PROCESSORS, msg.msgId) == 0 {
      C.UnclaimedHasNoEffect(C.V1_PROCESSORS, msg.msgId, outcome);
      AnsweredIsClaimed(msg.msgId);
    } else {
      var i := C.ClaimedBySome(C.V1_PROCESSORS, msg.msgId);
      C.V1ProcessorsAreDisjoint();
      C.DisjointClaims(C.V1_PROCESSORS, msg.msgId);
      C.SoleClaimDecides(C.V1_PROCESSORS, i, msg.msgId, outcome);
      A.RoutesByRequestId(i, msg.msgId);
      OperationFate(C.V1_PROCESSORS[i][msg.msgId], msg);
    }
  }

  lemma AnsweredIsClaimed(msgId: nat)
    requires C.Claims(C.V1_PROCESSORS, msgId) == 0
    ensures msgId !in ANSWERED_IDS
  {
    assert C.V1_PROCESSORS[0] == C.NETWORK_V1;
    assert C.V1_PROCESSORS[1..][0] == C.RADIO_V1;
    assert C.V1_PROCESSORS[1..][1..][0] == C.DATA_V1;
    assert C.Claims(C.V1_PROCESSORS[1..], msgId) == 0 && C.Claims(C.V1_PROCESSORS[1..][1..], msgId) == 0;
  }

  lemma OperationFate(op: C.AdapterOp, msg: Msg)
    requires A.RequestId(op) == msg.msgId
    ensures var d, fate := A.Start(op, msg.body, msg.uniqueId, msg.simId), FateOf(msg.msgId, msg.body);
            && (d.Refused? <==> fate == Refuses) && (d.Failed? <==> fate == Stops)
            && (d.Token? || d.Radio? <==> fate == Starts)
  {}

  lemma DispatchMoves(s: Sys, k: nat, d: A.Started, u: nat)
    requires k < |s.dispatching| && (d.Token? ==> d.ctx.uniqueId == s.dispatching[k].uniqueId)
    ensures Inside(Dispatched(s, k, d), u) == Inside(s, u)
  {
    var msg := s.dispatching[k];
    OccWithout(s.dispatching, k, MsgId, u);
    OccAppend(s.rejected, msg.uniqueId, Id, u);
    OccAppend(s.radio, msg, MsgId, u);
    if d.Token? {
      OccAppend(s.live, d.ctx, CtxId, u);
    }
  }

  lemma DispatchCarries(s: Sys, k: nat, d: A.Started)
    requires Carried(s) && k < |s.dispatching|
    requires d.Token? ==> ServesAsk(s.asked, d.ctx)
    requires d.Radio? ==> s.dispatching[k].msgId == A.GET_RADIO_MODE_RESP
    requires d.Refused? ==> HasFate(s.asked, s.dispatching[k].uniqueId, Refuses)
    ensures Carried(Dispatched(s, k, d))
    ensures Genuine(s) ==> Genuine(Dispatched(s, k, d))
  {
    WithoutIsPart(s.dispatching, k);
    assert s.dispatching[k] in s.dispatching;
  }

  lemma DispatchKeeps(s: Sys, k: nat)
    requires Carried(s)
    ensures var s' := DispatchStep(s, k);
            && Carried(s') && ServiceStep(s, s') && (Genuine(s) ==> Genuine(s')) && (Pipeline(s) ==> Pipeline(s'))
  {
    if s.up && k < |s.dispatching| {
      var msg := s.dispatching[k];
      var d := StartedFor(msg);
      assert Fits(s.asked, msg);
      StartedForServes(msg);
      DispatchFate(msg);
      DispatchedKeeps(s, k, d);
    }
  }

  lemma DispatchedKeeps(s: Sys, k: nat, d: A.Started)
    requires Carried(s) && k < |s.dispatching|
    requires d.Token? ==> ServesAsk(s.asked, d.ctx) && d.ctx.uniqueId == s.dispatching[k].uniqueId
    requires d.Radio? ==> s.dispatching[k].msgId == A.GET_RADIO_MODE_RESP
    requires d.Refused? ==> HasFate(s.asked, s.dispatching[k].uniqueId, Refuses)
    ensures var s' := Dispatched(s, k, d);
            && Carried(s') && ServiceStep(s, s') && (Genuine(s) ==> Genuine(s')) && (Pipeline(s) ==> Pipeline(s'))
  {
    var s' := Dispatched(s, k, d);
    DispatchCarries(s, k, d);
    forall u: nat ensures Inside(s', u) == Inside(s, u) && Open(s', u) == Open(s, u) {
      DispatchMoves(s, k, d, u);
    }
  }

  lemma RespondCarries(s: Sys, msg: Msg, ok: bool)
    requires Carried(s) && !msg.isIndication
    ensures Carried(Respond(s, msg, ok))
    ensures Genuine(s) && AnswersAsk(s.asked, msg) ==> Genuine(Respond(s, msg, ok))
    ensures forall u: nat :: Inside(Respond(s, msg, ok), u) == Inside(s, u)
  {}

  /** A token or a radio query was taken out of s, giving t, and leads to this response. */
  lemma RespondPipes(s: Sys, t: Sys, msg: Msg, ok: bool)
    requires Pipeline(s) && t.pending == s.pending
    requires forall u: nat :: Inside(s, u) == Inside(t, u) + if u == msg.uniqueId then 1 else 0
    ensures Pipeline(Respond(t, msg, ok))
  {
    var s' := Respond(t, msg, ok);
    forall u: nat ensures Inside(s', u) == if Tracks(s', u) then 1 else 0 {
      assert Inside(s, u) == if Tracks(s, u) then 1 else 0;
      assert Inside(s', u) == Inside(t, u);
    }
  }

  lemma VendorDoneCarries(vendor: A.Completer, s: Sys, k: nat, e: A.RilErrno, data: A.VendorData, ok: bool)
    requires A.Serving(vendor) && Carried(s)
    ensures var s' := VendorDoneStep(vendor, s, k, e, data, ok);
            && Carried(s') && ServiceStep(s, s') && (Genuine(s) ==> Genuine(s')) && (Pipeline(s) ==> Pipeline(s'))
  {
    if s.up && k < |s.live| {
      var ctx := s.live[k];
      assert ServesAsk(s.asked, ctx);
      CompletedCarries(s, k, vendor(ctx, e, data), ok);
    }
  }

  lemma CompletedCarries(s: Sys, k: nat, r: A.Completion, ok: bool)
    requires Carried(s) && k < |s.live| && ServesAsk(s.asked, s.live[k])
    requires A.Advances(s.live[k], s.asked[s.live[k].uniqueId].call.msgId, r)
    ensures var s' := Completed(s, k, r, ok);
            && Carried(s') && ServiceStep(s, s') && (Genuine(s) ==> Genuine(s')) && (Pipeline(s) ==> Pipeline(s'))
  {
    match r {
      case Aborted => AbortCarries(s);
      case Waiting(next) => WaitingCarries(s, k, next);
      case Emitted(msg) => EmittedCarries(s, k, msg, ok);
    }
  }

  lemma WaitingCarries(s: Sys, k: nat, ctx: A.Ctx)
    requires Carried(s) && k < |s.live| && ServesAsk(s.asked, ctx) && ctx.uniqueId == s.live[k].uniqueId
    ensures var s' := s.(live := s.live[k := ctx]);
            && Carried(s') && ServiceStep(s, s') && (Genuine(s) ==> Genuine(s')) && (Pipeline(s) ==> Pipeline(s'))
  {
    var s' := s.(live := s.live[k := ctx]);
    forall u: nat ensures Open(s', u) == Open(s, u) && Inside(s', u) == Inside(s, u) {
      OccUpdate(s.live, k, ctx, CtxId, u);
    }
  }

  lemma EmittedCarries(s: Sys, k: nat, msg: Msg, ok: bool)
    requires Carried(s) && k < |s.live| && AnswersAsk(s.asked, msg) && msg.uniqueId == s.live[k].uniqueId
    ensures var s' := Respond(s.(live := Without(s.live, k)), msg, ok);
            && Carried(s') && ServiceStep(s, s') && (Genuine(s) ==> Genuine(s')) && (Pipeline(s) ==> Pipeline(s'))
  {
    var t := s.(live := Without(s.live, k));
    WithoutIsPart(s.live, k);
    RespondIsService(t, msg, ok);
    RespondCarries(t, msg, ok);
    forall u: nat ensures Open(t, u) == Open(s, u)
                       && Inside(s, u) == Inside(t, u) + if u == msg.uniqueId then 1 else 0
    {
      OccWithout(s.live, k, CtxId, u);
    }
    if Pipeline(s) {
      RespondPipes(s, t, msg, ok);
    }
  }

  lemma AbortCarries(s: Sys)
    ensures var s' := s.(up := false);
            && (Carried(s) ==> Carried(s')) && ServiceStep(s, s')
            && (Genuine(s) ==> Genuine(s')) && (Pipeline(s) ==> Pipeline(s'))
  {
    var s' := s.(up := false);
    assert forall u: nat :: Open(s', u) == Open(s, u) && Inside(s', u) == Inside(s, u);
  }

  lemma RadioAnsweredCarries(s: Sys, k: nat, msg: Msg, ok: bool)
    requires Carried(s) && k < |s.radio| && AnswersAsk(s.asked, msg) && msg.uniqueId == s.radio[k].uniqueId
    ensures var s' := Respond(s.(radio := Without(s.radio, k)), msg, ok);
            && Carried(s') && ServiceStep(s, s') && (Genuine(s) ==> Genuine(s')) && (Pipeline(s) ==> Pipeline(s'))
  {
    var t := s.(radio := Without(s.radio, k));
    WithoutIsPart(s.radio, k);
    RespondIsService(t, msg, ok);
    RespondCarries(t, msg, ok);
    forall u: nat ensures Open(t, u) == Open(s, u)
                       && Inside(s, u) == Inside(t, u) + if u == msg.uniqueId then 1 else 0
    {
      OccWithout(s.radio, k, MsgId, u);
    }
    if Pipeline(s) {
      RespondPipes(s, t, msg, ok);
    }
  }

  lemma RadioDoneCarries(s: Sys, k: nat, state: A.RadioState, ok: bool)
    requires Carried(s)
    ensures var s' := RadioDoneStep(s, k, state, ok);
            && Carried(s') && ServiceStep(s, s') && (Genuine(s) ==> Genuine(s')) && (Pipeline(s) ==> Pipeline(s'))
  {
    if s.up && k < |s.radio| && A.UrilRadioMode(state).None? {
      AbortCarries(s);
    } else if s.up && k < |s.radio| {
      assert s.radio[k] in s.radio;
      RadioAnsweredCarries(s, k, RadioReply(s.radio[k], A.UrilRadioMode(state).value), ok);
    }
  }

  lemma IntrudeCarries(s: Sys, id: nat, fails: bool)
    requires Carried(s)
    ensures Carried(IntrudeStep(s, id, fails))
  {}

  lemma IndicateCarries(s: Sys, conns: seq<Conn>, msg: Msg)
    ensures var s' := IndicateStep(s, conns, msg);
            && (Carried(s) ==> Carried(s')) && (Genuine(s) ==> Genuine(s')) && (Pipeline(s) ==> Pipeline(s'))
  {
    SamePipeline(s, IndicateStep(s, conns, msg));
    assert forall e | e in T.Copies(conns, msg) :: e.1 == msg;
  }
}
