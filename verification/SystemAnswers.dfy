/** Which requests the service answers: a condition the client can check before it calls. */
module SystemAnswers {
  import opened Basics
  import opened Occurrences
  import opened Protocol
  import opened PendingOps
  import T = Tracker
  import opened Registration
  import A = Adapter
  import opened UrilSystem
  import opened SystemInvariant
  import opened SystemCarried
  import opened SystemSafety
  import opened SystemGuarantees
  import opened SystemCalls

  lemma StepKeepsAsks(vendor: A.Completer, s: Sys, l: Label, s': Sys)
    requires Asks(s) && Shape(s) && s' == Step(vendor, s, l) && s'.issued < UINT32
    ensures NewAsksOnly(s.asked, s'.asked)
  {
    if l.Begin? {
      NewIdIsNotAsked(s, l.t, l.hndl, l.call);
    }
  }

  lemma {:induction false} RunKeepsAsks(vendor: A.Completer, s: Sys, ls: seq<Label>)
    requires A.Serving(vendor) && Inv(s) && Carried(s) && Run(vendor, s, ls).issued < UINT32
    ensures NewAsksOnly(s.asked, Run(vendor, s, ls).asked)
    decreases |ls|
  {
    if ls != [] {
      var s' := Step(vendor, s, ls[0]);
      RunIssues(vendor, s', ls[1..]);
      StepKeepsAsks(vendor, s, ls[0], s');
      StepKeeps(vendor, s, ls[0], s');
      RunKeepsAsks(vendor, s', ls[1..]);
    }
  }

  lemma NotInside(s: Sys, u: nat)
    requires Carried(s) && !CanAnswer(s.asked, u)
    ensures Occ(s.live, CtxId, u) == 0 && Occ(s.radio, MsgId, u) == 0
  {
    forall k: nat | k < |s.live| ensures s.live[k].uniqueId != u {
      assert ServesAsk(s.asked, s.live[k]);
    }
    forall k: nat | k < |s.radio| ensures s.radio[k].uniqueId != u {
      assert Fits(s.asked, s.radio[k]);
    }
    OccNone(s.live, CtxId, u);
    OccNone(s.radio, MsgId, u);
  }

  lemma NotAnswered(s: Sys, u: nat)
    requires Genuine(s) && Fired(s) && !CanAnswer(s.asked, u)
    ensures Occ(s.resps, ResponseId, u) == 0 && Occ(s.lost, Id, u) == 0
    ensures Closed(s, u) == 0 && Occ(s.fired, FiredId, u) == 0
  {
    forall k: nat | k < |s.resps| ensures ResponseId(s.resps[k]) != u {
      assert s.resps[k].1.isIndication || AnswersAsk(s.asked, s.resps[k].1);
    }
    OccNone(s.resps, ResponseId, u);
    OccNone(s.lost, Id, u);
    OccNone(s.answered, Id, u);
    assert Occ(s.fired, FiredId, u) <= Closed(s, u);
  }

  /** Such a request is started, responded to and called back at no time. */
  lemma UnanswerableIsNeverAnswered(vendor: A.Completer, threads: nat, ls: seq<Label>, s: Sys, u: nat)
    requires A.Serving(vendor) && s == Reached(vendor, threads, ls) && s.issued < UINT32 && NoStray(ls)
    requires !CanAnswer(s.asked, u)
    ensures Occ(s.live, CtxId, u) == 0 && Occ(s.radio, MsgId, u) == 0
    ensures Occ(s.resps, ResponseId, u) == 0 && Occ(s.lost, Id, u) == 0
    ensures Closed(s, u) == 0 && Occ(s.fired, FiredId, u) == 0
  {
    ReachedKeeps(vendor, threads, ls, s);
    NotInside(s, u);
    NotAnswered(s, u);
  }

  /** Dispatch refuses, stops the service or starts to serve, by the fate of the request alone. */
  lemma DispatchSplits(vendor: A.Completer, threads: nat, ls: seq<Label>, s: Sys, k: nat)
    requires A.Serving(vendor) && s == Reached(vendor, threads, ls) && s.issued < UINT32 && NoStray(ls)
    requires s.up && k < |s.dispatching|
    ensures var u, s' := s.dispatching[k].uniqueId, DispatchStep(s, k);
            && u in s.asked
            && (u in s'.rejected <==> HasFate(s.asked, u, Refuses))
            && (!s'.up <==> HasFate(s.asked, u, Stops))
            && (|s'.live| + |s'.radio| == |s.live| + |s.radio| + 1 <==> HasFate(s.asked, u, Starts))
  {
    ReachedKeeps(vendor, threads, ls, s);
    var msg := s.dispatching[k];
    assert Fits(s.asked, msg);
    DispatchFate(msg);
    NotYetRejected(s, k);
  }

  lemma NotYetRejected(s: Sys, k: nat)
    requires Pipeline(s) && k < |s.dispatching|
    ensures s.dispatching[k].uniqueId !in s.rejected
  {
    var u := s.dispatching[k].uniqueId;
    OccAt(s.dispatching, k, MsgId);
    assert Inside(s, u) == if Tracks(s, u) then 1 else 0;
    if u in s.rejected {
      var i :| 0 <= i < |s.rejected| && s.rejected[i] == u;
      OccAt(s.rejected, i, Id);
    }
  }

  // ---- a refused request, from the start ----

  function RefusedRun(call: Call): seq<Label> {
    [Init(None, None, true)] + (CallLabels(0, 1, call, true) + [Track(0), Dispatch(0)])
  }

  function AfterInit(): Sys {
    InitStep(Start(1), None, None, true)
  }

  lemma TrackThenDispatch(vendor: A.Completer, s: Sys)
    ensures Run(vendor, s, [Track(0), Dispatch(0)]) == DispatchStep(TrackStep(s, 0), 0)
  {
    RunCons(vendor, s, Track(0), [Dispatch(0)]);
    RunOneLabel(vendor, TrackStep(s, 0), Dispatch(0));
    assert [Track(0)] + [Dispatch(0)] == [Track(0), Dispatch(0)];
  }

  lemma RunOneLabel(vendor: A.Completer, s: Sys, l: Label)
    ensures Run(vendor, s, [l]) == Step(vendor, s, l)
  {
    RunCons(vendor, s, l, []);
    assert [l] + [] == [l];
  }

  lemma RefusedRunSplits(vendor: A.Completer, call: Call, called: Sys)
    requires called == Run(vendor, AfterInit(), CallLabels(0, 1, call, true))
    ensures Reached(vendor, 1, RefusedRun(call)) == DispatchStep(TrackStep(called, 0), 0)
  {
    var labels := CallLabels(0, 1, call, true);
    var last := [Track(0), Dispatch(0)];
    RunCons(vendor, Start(1), Init(None, None, true), labels + last);
    RunSplits(vendor, AfterInit(), labels, last);
    TrackThenDispatch(vendor, called);
  }

  predicate SameInside(s: Sys, t: Sys) {
    t.up == s.up && t.pending == s.pending && t.dispatching == s.dispatching && t.rejected == s.rejected
  }

  lemma ThreadStepStaysOutside(vendor: A.Completer, s: Sys, l: Label)
    requires OfThread(l)
    ensures SameInside(s, Step(vendor, s, l))
  {}

  lemma {:induction false} ThreadsStayOutside(vendor: A.Completer, s: Sys, ls: seq<Label>)
    requires forall l | l in ls :: OfThread(l)
    ensures SameInside(s, Run(vendor, s, ls))
    decreases |ls|
  {
    if ls != [] {
      ThreadStepStaysOutside(vendor, s, ls[0]);
      ThreadsStayOutside(vendor, Step(vendor, s, ls[0]), ls[1..]);
    }
  }

  lemma FirstCallSends(c: Client, call: Call)
    requires c == AfterInit().client
    ensures Execute(c, 1, call.simId, call.msgId, Some(call.body), call.cb, call.data, true, ALL_LOCK).sent
         == Some(Msg(false, 1, call.simId, call.msgId, call.body))
  {
    FirstIndexIs(c.slots, (slot: Slot) => !slot.busy, 0);
    assert FirstFree(c.slots) == Some(0);
  }

  lemma FirstCallIsSent(vendor: A.Completer, call: Call, s: Sys)
    requires s == Run(vendor, AfterInit(), CallLabels(0, 1, call, true))
    ensures s.reqs == [(2, Msg(false, 1, call.simId, call.msgId, call.body))]
    ensures SameInside(AfterInit(), s)
  {
    var s0 := AfterInit();
    var r := Execute(s0.client, 1, call.simId, call.msgId, Some(call.body), call.cb, call.data, true, ALL_LOCK);
    FirstCallSends(s0.client, call);
    UninterruptedCall(vendor, s0, 0, 1, call, true, r, s);
    ThreadsStayOutside(vendor, s0, CallLabels(0, 1, call, true));
  }

  /** Every request of such a fate meets it: a run of nine steps ends with it refused, and its id tracked,
      or with the service stopped. */
  lemma FatesAreMet(vendor: A.Completer, call: Call, s: Sys)
    requires FateOf(call.msgId, call.body) != Starts && s == Reached(vendor, 1, RefusedRun(call))
    ensures NoStray(RefusedRun(call)) && Tracks(s, 1)
    ensures FateOf(call.msgId, call.body) == Refuses ==> s.up && s.rejected == [1]
    ensures FateOf(call.msgId, call.body) == Stops ==> !s.up
  {
    var called := Run(vendor, AfterInit(), CallLabels(0, 1, call, true));
    RefusedRunSplits(vendor, call, called);
    FirstCallIsSent(vendor, call, called);
    var msg := Msg(false, 1, call.simId, call.msgId, call.body);
    DispatchFate(msg);
    FirstRequestMeetsFate(called, msg, StartedFor(msg));
  }

  lemma FirstRequestMeetsFate(s: Sys, msg: Msg, d: A.Started)
    requires s.reqs == [(2, msg)] && s.up && s.pending == map[] && s.dispatching == [] && s.rejected == []
    requires d == StartedFor(msg) && (d.Refused? || d.Failed?)
    ensures var s' := DispatchStep(TrackStep(s, 0), 0);
            && Tracks(s', msg.uniqueId) && s'.up == d.Refused?
            && (d.Refused? ==> s'.rejected == [msg.uniqueId])
  {
    var t := TrackStep(s, 0);
    assert t.dispatching == [msg];
  }

  // ---- a stopped service ----

  /** Responses that are in the channel may still be received, but there are no others. */
  function Answers(s: Sys, u: nat): nat {
    Occ(s.resps, ResponseId, u) + Closed(s, u)
  }

  lemma StoppedStep(vendor: A.Completer, s: Sys, l: Label, s': Sys, u: nat)
    requires !s.up && s' == Step(vendor, s, l)
    ensures !s'.up && Answers(s', u) == Answers(s, u)
  {
    if l.Receive? && l.k < |s.resps| {
      OccWithout(s.resps, l.k, ResponseId, u);
      OccAppend(s.answered, s.resps[l.k].1.uniqueId, Id, u);
    }
  }

  /** A stopped service answers nobody any more, whatever was in flight. */
  lemma {:induction false} StoppedAnswersNoMore(vendor: A.Completer, s: Sys, ls: seq<Label>, u: nat)
    requires !s.up
    ensures !Run(vendor, s, ls).up && Answers(Run(vendor, s, ls), u) == Answers(s, u)
    decreases |ls|
  {
    if ls != [] {
      StoppedStep(vendor, s, ls[0], Step(vendor, s, ls[0]), u);
      StoppedAnswersNoMore(vendor, Step(vendor, s, ls[0]), ls[1..], u);
    }
  }

  // ---- an answerable request can be answered ----

  /** The adapter answers this context at once when the vendor reports an error. */
  ghost predicate ErrorAnswers(vendor: A.Completer, ctx: A.Ctx) {
    var r := vendor(ctx, A.GenericFailure, A.NoData);
    r.Emitted? && !r.msg.isIndication && r.msg.uniqueId == ctx.uniqueId
  }

  lemma ErrorCompletes(p: Platform, ctx: A.Ctx, msgId: nat)
    requires p.layout.Valid() && A.Serves(ctx, msgId)
    ensures A.Complete(p, ctx, A.GenericFailure, A.NoData).Emitted?
  {}

  lemma AdapterAnswersErrors(p: Platform, ctx: A.Ctx, msgId: nat)
    requires p.layout.Valid() && A.Serves(ctx, msgId)
    ensures ErrorAnswers(A.CompleterOf(p), ctx)
  {
    ErrorCompletes(p, ctx, msgId);
    A.CompletionServes(p, ctx, msgId, A.GenericFailure, A.NoData, A.Complete(p, ctx, A.GenericFailure, A.NoData));
  }

  /** Some continuation without strays brings the client the answer. */
  ghost predicate CanGetAnswer(vendor: A.Completer, s: Sys, u: nat) {
    exists more: seq<Label> ::
      NoStray(more) && Run(vendor, s, more).issued < UINT32 && Closed(Run(vendor, s, more), u) >= 1
  }

  lemma RunThree(vendor: A.Completer, s: Sys, a: Label, b: Label, c: Label)
    ensures Run(vendor, s, [a, b, c]) == Step(vendor, Step(vendor, Step(vendor, s, a), b), c)
  {
    RunCons(vendor, s, a, [b, c]);
    RunCons(vendor, Step(vendor, s, a), b, [c]);
    RunCons(vendor, Step(vendor, Step(vendor, s, a), b), c, []);
    assert [a] + [b, c] == [a, b, c] && [b] + [c] == [b, c] && [c] + [] == [c];
  }

  /** The last response in the channel is received. */
  lemma LastResponseArrives(s: Sys, c: Conn, msg: Msg, rest: seq<Envelope>)
    requires s.resps == rest + [(c, msg)] && !msg.isIndication
    ensures Closed(ReceiveStep(s, |rest|), msg.uniqueId) >= 1
    ensures ReceiveStep(s, |rest|).issued == s.issued
  {
    OccAppend(s.answered, msg.uniqueId, Id, msg.uniqueId);
  }

  lemma TrackedWhileDispatched(s: Sys, k: nat)
    requires Pipeline(s) && k < |s.dispatching|
    ensures Tracks(s, s.dispatching[k].uniqueId)
  {
    OccAt(s.dispatching, k, MsgId);
    assert Inside(s, s.dispatching[k].uniqueId) >= 1;
  }

  /** Dispatch, a failing vendor call, and the receipt of the response. */
  lemma TokenGetsAnswer(vendor: A.Completer, s: Sys, k: nat, ctx: A.Ctx, text: Option<string>, s1: Sys, s2: Sys)
    requires s.up && k < |s.dispatching| && Tracks(s, s.dispatching[k].uniqueId)
    requires ErrorAnswers(vendor, ctx) && ctx.uniqueId == s.dispatching[k].uniqueId
    requires s1 == Dispatched(s, k, A.Token(ctx, text))
    requires s2 == VendorDoneStep(vendor, s1, |s.live|, A.GenericFailure, A.NoData, true)
    ensures Closed(ReceiveStep(s2, |s.resps|), ctx.uniqueId) >= 1
    ensures ReceiveStep(s2, |s.resps|).issued == s.issued
  {
    assert s1.live[|s.live|] == ctx;
    LastResponseArrives(s2, s.pending[ctx.uniqueId], vendor(ctx, A.GenericFailure, A.NoData).msg, s.resps);
  }

  lemma RadioGetsAnswer(s: Sys, k: nat, s1: Sys, s2: Sys)
    requires s.up && k < |s.dispatching| && Tracks(s, s.dispatching[k].uniqueId)
    requires s1 == Dispatched(s, k, A.Radio) && s2 == RadioDoneStep(s1, |s.radio|, A.RadioOff, true)
    ensures Closed(ReceiveStep(s2, |s.resps|), s.dispatching[k].uniqueId) >= 1
    ensures ReceiveStep(s2, |s.resps|).issued == s.issued
  {
    var msg := s.dispatching[k];
    assert s1.radio[|s.radio|] == msg;
    LastResponseArrives(s2, s.pending[msg.uniqueId], RadioReply(msg, 1), s.resps);
  }

  lemma TokenCanGetAnswer(vendor: A.Completer, s: Sys, k: nat, ctx: A.Ctx, text: Option<string>)
    requires s.issued < UINT32 && s.up && k < |s.dispatching| && Tracks(s, s.dispatching[k].uniqueId)
    requires StartedFor(s.dispatching[k]) == A.Token(ctx, text) && ErrorAnswers(vendor, ctx)
    ensures CanGetAnswer(vendor, s, s.dispatching[k].uniqueId)
  {
    StartedForServes(s.dispatching[k]);
    var s1 := Dispatched(s, k, A.Token(ctx, text));
    var s2 := VendorDoneStep(vendor, s1, |s.live|, A.GenericFailure, A.NoData, true);
    TokenGetsAnswer(vendor, s, k, ctx, text, s1, s2);
    ThenAnswered(vendor, s, s.dispatching[k].uniqueId, k, VendorDone(|s.live|, A.GenericFailure, A.NoData, true),
                 |s.resps|, s2);
  }

  lemma RadioCanGetAnswer(vendor: A.Completer, s: Sys, k: nat)
    requires s.issued < UINT32 && s.up && k < |s.dispatching|
    requires Tracks(s, s.dispatching[k].uniqueId) && StartedFor(s.dispatching[k]) == A.Radio
    ensures CanGetAnswer(vendor, s, s.dispatching[k].uniqueId)
  {
    var s1 := Dispatched(s, k, A.Radio);
    var s2 := RadioDoneStep(s1, |s.radio|, A.RadioOff, true);
    RadioGetsAnswer(s, k, s1, s2);
    ThenAnswered(vendor, s, s.dispatching[k].uniqueId, k, RadioDone(|s.radio|, A.RadioOff, true), |s.resps|, s2);
  }

  lemma AnswerableGetsAnswer(p: Platform, s: Sys, k: nat)
    requires p.layout.Valid() && Pipeline(s) && s.issued < UINT32 && s.up && k < |s.dispatching|
    requires FateOf(s.dispatching[k].msgId, s.dispatching[k].body) == Starts
    ensures CanGetAnswer(A.CompleterOf(p), s, s.dispatching[k].uniqueId)
  {
    DispatchFate(s.dispatching[k]);
    TrackedWhileDispatched(s, k);
    match StartedFor(s.dispatching[k]) {
      case Token(ctx, text) =>
        StartedForServes(s.dispatching[k]);
        AdapterAnswersErrors(p, ctx, s.dispatching[k].msgId);
        TokenCanGetAnswer(A.CompleterOf(p), s, k, ctx, text);
      case Radio => RadioCanGetAnswer(A.CompleterOf(p), s, k);
    }
  }

  /** A dispatch, a step that brings the response, and its receipt. */
  lemma ThenAnswered(vendor: A.Completer, s: Sys, u: nat, k: nat, l: Label, n: nat, s2: Sys)
    requires s2 == Step(vendor, DispatchStep(s, k), l) && !FromOthers(l)
    requires ReceiveStep(s2, n).issued < UINT32 && Closed(ReceiveStep(s2, n), u) >= 1
    ensures CanGetAnswer(vendor, s, u)
  {
    RunThree(vendor, s, Dispatch(k), l, Receive(n));
    var more := [Dispatch(k), l, Receive(n)];
    assert NoStray(more) && Closed(Run(vendor, s, more), u) >= 1;
  }

  lemma UnanswerableGetsNone(vendor: A.Completer, threads: nat, ls: seq<Label>, s: Sys, u: nat)
    requires A.Serving(vendor) && s == Reached(vendor, threads, ls) && s.issued < UINT32 && NoStray(ls)
    requires u in s.asked && !CanAnswer(s.asked, u)
    ensures !CanGetAnswer(vendor, s, u)
  {
    ReachedKeeps(vendor, threads, ls, s);
    forall more: seq<Label> | NoStray(more) && Run(vendor, s, more).issued < UINT32
      ensures Closed(Run(vendor, s, more), u) == 0
    {
      var end := Run(vendor, s, more);
      RunSplits(vendor, Start(threads), ls, more);
      RunKeepsAsks(vendor, s, more);
      UnanswerableIsNeverAnswered(vendor, threads, ls + more, end, u);
    }
  }

  /** Not every request is answered. A request that reached a running service can be answered exactly if it
      is answerable; otherwise its slot is lost until the next init. */
  lemma AnsweredIffAnswerable(p: Platform, threads: nat, ls: seq<Label>, s: Sys, k: nat)
    requires p.layout.Valid() && s == Reached(A.CompleterOf(p), threads, ls) && s.issued < UINT32 && NoStray(ls)
    requires s.up && k < |s.dispatching|
    ensures CanGetAnswer(A.CompleterOf(p), s, s.dispatching[k].uniqueId)
       <==> CanAnswer(s.asked, s.dispatching[k].uniqueId)
  {
    A.AdapterServes(p);
    ReachedKeeps(A.CompleterOf(p), threads, ls, s);
    assert Fits(s.asked, s.dispatching[k]);
    if CanAnswer(s.asked, s.dispatching[k].uniqueId) {
      AnswerableGetsAnswer(p, s, k);
    } else {
      UnanswerableGetsNone(A.CompleterOf(p), threads, ls, s, s.dispatching[k].uniqueId);
    }
  }

  /** The answer to a radio mode query; a state that is not listed stops the service. */
  lemma RadioAnswerSays(s: Sys, k: nat, state: A.RadioState, s': Sys)
    requires s.up && k < |s.radio| && Tracks(s, s.radio[k].uniqueId) && s' == RadioDoneStep(s, k, state, true)
    ensures var said := (mode: nat) =>
              s.resps + [(s.pending[s.radio[k].uniqueId],
                          Msg(false, s.radio[k].uniqueId, s.radio[k].simId, 0x0101,
                              Reply(ResultCode(true, 0), RadioMode(mode))))];
            && (state == A.RadioOff ==> s'.resps == said(1))
            && (state == A.RadioOn ==> s'.resps == said(2))
            && (state == A.RadioUnavailable ==> s'.resps == said(3))
            && (s'.up <==> !state.OtherState?)
  {}

  /** An indication goes to every connection of the list, once for each time it is there. */
  lemma IndicationIsBroadcast(s: Sys, conns: seq<Conn>, msg: Msg, s': Sys, c: Conn)
    requires s.up && msg.isIndication && s' == IndicateStep(s, conns, msg)
    ensures |s'.resps| == |s.resps| + |conns| && s'.resps[..|s.resps|] == s.resps
    ensures T.SentTo(s'.resps[|s.resps|..], c, msg) == T.TimesIn(conns, c)
  {
    T.EachGetsOneCopy(conns, msg, c);
    assert s'.resps[|s.resps|..] == T.Copies(conns, msg);
  }

  /** Another client's request on the same id diverts the response to this client's. */
  lemma IntruderDivertsResponse(s: Sys, msg: Msg, ok: bool, s': Sys)
    requires s.up && Tracks(s, msg.uniqueId) && !msg.isIndication
    requires s' == Respond(IntrudeStep(s, msg.uniqueId, false), msg, ok)
    ensures s'.resps == s.resps && !Tracks(s', msg.uniqueId) && s'.lost == s.lost + [msg.uniqueId]
    ensures Respond(s, msg, true).resps == s.resps + [(s.pending[msg.uniqueId], msg)]
  {}

  /** What dispatch starts is what the adapter works on. */
  lemma StartedIsLive(s: Sys, k: nat, s': Sys)
    requires s.up && k < |s.dispatching| && s' == DispatchStep(s, k)
    ensures var msg := s.dispatching[k]; var d := StartedFor(msg);
            && (d.Token? ==> s'.live == s.live + [d.ctx] && s'.radio == s.radio)
            && (d.Radio? ==> s'.radio == s.radio + [msg] && s'.live == s.live)
            && (d.Refused? ==> s'.live == s.live && s'.radio == s.radio)
            && (!d.Failed? ==> s'.dispatching == Without(s.dispatching, k))
  {}

  /** A completion stops the service, moves its context on, or brings its response to the connection. */
  lemma CompletionTakesEffect(vendor: A.Completer, s: Sys, k: nat, e: A.RilErrno, data: A.VendorData, s': Sys)
    requires s.up && k < |s.live| && s' == VendorDoneStep(vendor, s, k, e, data, true)
    ensures var r := vendor(s.live[k], e, data);
            && (s'.up <==> !r.Aborted?)
            && (r.Waiting? ==> s'.live == s.live[k := r.ctx] && s'.resps == s.resps)
            && (r.Emitted? ==> s'.live == Without(s.live, k))
            && (r.Emitted? && Tracks(s, r.msg.uniqueId) ==>
                  s'.resps == s.resps + [(s.pending[r.msg.uniqueId], r.msg)] && r.msg.uniqueId !in s'.pending)
  {}
}
