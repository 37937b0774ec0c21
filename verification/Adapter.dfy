/** The modem adapter: one request context per vendor call, or per chain of vendor calls. */
module Adapter {
  import opened Basics
  import opened Protocol
  import opened Composite
  import opened Scan
  import opened CallConversion
  import opened Registration
  import DataCall
  import Signal

  datatype RilRequest =
    | SetPreferredNetworkType | GetPreferredNetworkType
    | VoiceRegistrationState | DataRegistrationState | Operator
    | QueryAvailableNetworks | ScreenState
    | SetNetworkSelectionAutomatic | SetNetworkSelectionManual
    | SignalStrength | RadioPower
    | RilSetupDataCall | RilDeactivateDataCall | DataCallList | SetInitialAttachApn
    | OtherRequest(code: int)

  datatype RilErrno =
    | Success | RadioNotAvailable | GenericFailure | PasswordIncorrect | SimPin2 | SimPuk2 | RequestNotSupported
    | Cancelled | OpNotAllowedDuringVoiceCall | OpNotAllowedBeforeRegToNw | SmsSendFailRetry | SimAbsent
    | SubscriptionNotAvailable | ModeNotSupported | FdnCheckFailure | IllegalSimOrMe | MissingResource
    | NoSuchElement | DialModifiedToUssd | DialModifiedToSs | DialModifiedToDial | UssdModifiedToDial
    | UssdModifiedToSs | UssdModifiedToUssd | SsModifiedToDial | SsModifiedToUssd | SubscriptionNotSupported
    | SsModifiedToSs | OtherErrno(code: int)

  function UrilError(e: RilErrno): nat {
    match e
    case Success => 0
    case RadioNotAvailable => 1
    case PasswordIncorrect => 3
    case SimPin2 => 4
    case SimPuk2 => 5
    case RequestNotSupported => 6
    case Cancelled => 7
    case OpNotAllowedDuringVoiceCall => 8
    case OpNotAllowedBeforeRegToNw => 9
    case SmsSendFailRetry => 10
    case SimAbsent => 11
    case SubscriptionNotAvailable => 12
    case ModeNotSupported => 13
    case FdnCheckFailure => 14
    case IllegalSimOrMe => 15
    case MissingResource => 16
    case NoSuchElement => 17
    case DialModifiedToUssd => 18
    case DialModifiedToSs => 19
    case DialModifiedToDial => 20
    case UssdModifiedToDial => 21
    case UssdModifiedToSs => 22
    case UssdModifiedToUssd => 23
    case SsModifiedToDial => 24
    case SsModifiedToUssd => 25
    case SubscriptionNotSupported => 26
    case SsModifiedToSs => 27
    case _ => 2
  }

  function ResultOf(e: RilErrno): ResultCode {
    ResultCode(e.Success?, UrilError(e))
  }

  datatype VendorData = NoData | Texts(strings: Strings) | Raw(bytes: seq<Byte>) | Number(n: int)
                      | Signals(signal: Signal.VendorSignal)

  function TextsOf(data: VendorData): Strings {
    if data.Texts? then data.strings else []
  }

  function BytesOf(data: VendorData): seq<Byte> {
    if data.Raw? then data.bytes else []
  }

  function NumberOf(data: VendorData): int {
    if data.Number? then data.n else 0
  }

  function SignalIn(data: VendorData): Signal.VendorSignal {
    if data.Signals? then data.signal else Signal.NO_SIGNAL
  }

  /** The value of a request context. */
  datatype Ctx = Ctx(rilReqId: RilRequest, uniqueId: nat, simId: nat, rsp: Option<Msg>, isCompleted: bool)

  function NewCtx(rilReqId: RilRequest, uniqueId: nat, simId: nat): Ctx {
    Ctx(rilReqId, uniqueId, simId, None, false)
  }

  // Message ids. A response carries the id of its request.
  function ResponseId(r: RilRequest): Option<nat> {
    match r
    case SetPreferredNetworkType => Some(0x0500)
    case GetPreferredNetworkType => Some(0x0501)
    case VoiceRegistrationState | DataRegistrationState | Operator => Some(0x0502)
    case QueryAvailableNetworks => Some(0x0503)
    case ScreenState => Some(0x0504)
    case SetNetworkSelectionAutomatic | SetNetworkSelectionManual => Some(0x0505)
    case SignalStrength => Some(0x0506)
    case RadioPower => Some(0x0102)
    case RilSetupDataCall => Some(0x0601)
    case RilDeactivateDataCall => Some(0x0602)
    case DataCallList => Some(0x0603)
    case SetInitialAttachApn => Some(0x0604)
    case OtherRequest(_) => None
  }

  const GET_RADIO_MODE_RESP: nat := 0x0101

  datatype RadioState = RadioOff | RadioUnavailable | RadioOn | OtherState(code: int)

  /** None is the failed assertion of the default branch. */
  function UrilRadioMode(state: RadioState): Option<nat> {
    match state
    case RadioOff => Some(1)
    case RadioOn => Some(2)
    case RadioUnavailable => Some(3)
    case OtherState(_) => None
  }

  /** What an adapter operation does with a request. Failed is a failed assertion of the translation. */
  datatype Started = Refused | Failed | Token(ctx: Ctx, text: Option<string>) | Radio

  function Vendor(r: RilRequest, uniqueId: nat, simId: nat): Started {
    Token(NewCtx(r, uniqueId, simId), None)
  }

  // The enumeration values that the translations of requests list.

  predicate PreferenceListed(mode: int) {
    0 <= mode <= 12
  }

  predicate RadioModeListed(mode: int) {
    mode == 1 || mode == 2
  }

  predicate CallListed(f: Fields) {
    0 <= f.bearer <= 0x15 && AttachListed(f)
  }

  predicate AttachListed(f: Fields) {
    0 <= f.authType <= 3 && 0 <= f.pdpType <= 4
  }

  function VendorIf(listed: bool, r: RilRequest, uniqueId: nat, simId: nat): Started {
    if listed then Vendor(r, uniqueId, simId) else Failed
  }

  function Start(op: AdapterOp, body: Body, uniqueId: nat, simId: nat): Started {
    var f := FieldsOf(body);
    match op
    case SetNetworkPreference =>
      VendorIf(PreferenceListed(f.preferredMode), SetPreferredNetworkType, uniqueId, simId)
    case GetNetworkPreference => Vendor(GetPreferredNetworkType, uniqueId, simId)
    case GetNetworkRegistrationStatus => Vendor(VoiceRegistrationState, uniqueId, simId)
    case ScanNetwork => Vendor(QueryAvailableNetworks, uniqueId, simId)
    case SetScreenState => Vendor(ScreenState, uniqueId, simId)
    case SelectNetwork =>
      if f.selectionType == 0 then Vendor(SetNetworkSelectionAutomatic, uniqueId, simId)
      else if f.selectionType == 1 then
        Token(NewCtx(SetNetworkSelectionManual, uniqueId, simId), Some(SelectionText(f.mcc, f.mnc)))
      else Refused
    case GetSignalStrength => Vendor(SignalStrength, uniqueId, simId)
    case GetCellAccess => Refused
    case SetRadioMode => VendorIf(RadioModeListed(f.radioMode), RadioPower, uniqueId, simId)
    case GetRadioMode => Radio
    case SetDataProfiles => Refused
    case SetupDataCall => VendorIf(CallListed(f), RilSetupDataCall, uniqueId, simId)
    case DeactivateDataCall => Vendor(RilDeactivateDataCall, uniqueId, simId)
    case GetDataCallList => Vendor(DataCallList, uniqueId, simId)
    case SetInitialAttachParams => VendorIf(AttachListed(f), SetInitialAttachApn, uniqueId, simId)
  }

  function EmptyRsp(ctx: Ctx): Msg {
    Msg(false, ctx.uniqueId, ctx.simId, 0, Plain)
  }

  function RspOf(ctx: Ctx): Msg {
    if ctx.rsp.Some? then ctx.rsp.value else EmptyRsp(ctx)
  }

  function StatusIn(rsp: Msg): RegStatus {
    if rsp.body.Reply? && rsp.body.detail.Registration? then rsp.body.detail.reg else ZERO_STATUS
  }

  function WithReply(rsp: Msg, r: RilRequest, e: RilErrno, detail: Detail): Msg
    requires ResponseId(r).Some?
  {
    rsp.(msgId := ResponseId(r).value, body := Reply(ResultOf(e), detail))
  }

  /** A handler's effect on the context, or the failure of one of its assertions. */
  datatype Handled = HandlerAborted | Unhandled | Done(ctx: Ctx)

  function Finish(ctx: Ctx, e: RilErrno, detail: Detail): Handled
    requires ResponseId(ctx.rilReqId).Some?
  {
    Done(ctx.(rsp := Some(WithReply(RspOf(ctx), ctx.rilReqId, e, detail)), isCompleted := true))
  }

  function Chain(ctx: Ctx, next: RilRequest, st: Option<RegStatus>): Handled
    requires ResponseId(ctx.rilReqId).Some?
  {
    if st.None? then HandlerAborted
    else
      Done(ctx.(rsp := Some(WithReply(RspOf(ctx), ctx.rilReqId, Success, Registration(st.value))),
                isCompleted := false, rilReqId := next))
  }

  /** The payload behind a success; None is a failed assertion. */
  function DetailOf(p: Platform, r: RilRequest, data: VendorData): Option<Detail>
    requires p.layout.Valid()
  {
    match r
    case QueryAvailableNetworks => Some(Networks(ScanEntries(TextsOf(data))))
    case DataCallList => Mapped(Listed(p, BytesOf(data)), (calls: seq<DataCall.CallInfo>) => DataCalls(calls))
    case RilSetupDataCall => Mapped(SetUp(p, BytesOf(data)), (call: DataCall.CallInfo) => OneDataCall(call))
    case GetPreferredNetworkType => Mapped(p.preference(NumberOf(data)), (mode: nat) => Preference(mode))
    case SignalStrength =>
      Mapped(Signal.SignalOf(SignalIn(data)), (block: Signal.SignalBlock) => SignalReport(block))
    case _ => Some(NoDetail)
  }

  function Mapped<X, Y>(x: Option<X>, f: X -> Y): Option<Y> {
    if x.None? then None else Some(f(x.value))
  }

  function FinishWith(ctx: Ctx, e: RilErrno, detail: Option<Detail>): Handled
    requires ResponseId(ctx.rilReqId).Some?
  {
    if detail.None? then HandlerAborted else Finish(ctx, e, detail.value)
  }

  function Handle(p: Platform, ctx: Ctx, e: RilErrno, data: VendorData): Handled
    requires p.layout.Valid()
  {
    var st := StatusIn(RspOf(ctx));
    match ctx.rilReqId
    case VoiceRegistrationState =>
      if e.Success? then Chain(ctx, DataRegistrationState, AfterVoice(p, st, TextsOf(data)))
      else Finish(ctx, e, Registration(st))
    case DataRegistrationState =>
      if e.Success? then Chain(ctx, Operator, AfterData(p, st, TextsOf(data)))
      else Finish(ctx, e, Registration(st))
    case Operator =>
      Finish(ctx, e, Registration(if e.Success? then AfterOperator(st, TextsOf(data)) else st))
    case OtherRequest(_) => Unhandled
    case _ => FinishWith(ctx, e, if e.Success? then DetailOf(p, ctx.rilReqId, data) else Some(NoDetail))
  }

  /** What a vendor completion leads to. Waiting: the context lives on, for the next completion. */
  datatype Completion = Aborted | Waiting(ctx: Ctx) | Emitted(msg: Msg)

  function Completed(ctx: Ctx, h: Handled): Completion {
    match h
    case HandlerAborted => Aborted
    case Unhandled => Waiting(ctx)
    case Done(c) => if c.isCompleted && c.rsp.Some? then Emitted(c.rsp.value) else Waiting(c)
  }

  function Complete(p: Platform, ctx: Ctx, e: RilErrno, data: VendorData): Completion
    requires p.layout.Valid()
  {
    var ctx' := ctx.(rsp := Some(RspOf(ctx)));
    Completed(ctx', Handle(p, ctx', e, data))
  }

  /** How many completions a context is still waiting for, at most. */
  function Rank(r: RilRequest): nat {
    match r
    case VoiceRegistrationState => 3
    case DataRegistrationState => 2
    case _ => 1
  }

  /** A context made for a request with this message id. */
  predicate Serves(ctx: Ctx, msgId: nat) {
    && ResponseId(ctx.rilReqId) == Some(msgId)
    && !ctx.isCompleted
    && (ctx.rsp.Some? ==> !ctx.rsp.value.isIndication && ctx.rsp.value.uniqueId == ctx.uniqueId
                          && ctx.rsp.value.simId == ctx.simId)
  }

  predicate Answers(rsp: Msg, uniqueId: nat, simId: nat, msgId: nat) {
    !rsp.isIndication && rsp.uniqueId == uniqueId && rsp.simId == simId && rsp.msgId == msgId
  }

  /** The message id behind an adapter operation. */
  function RequestId(op: AdapterOp): nat {
    match op
    case SetNetworkPreference => 0x0500
    case GetNetworkPreference => 0x0501
    case GetNetworkRegistrationStatus => 0x0502
    case ScanNetwork => 0x0503
    case SetScreenState => 0x0504
    case SelectNetwork => 0x0505
    case GetSignalStrength => 0x0506
    case GetCellAccess => 0x0507
    case GetRadioMode => 0x0101
    case SetRadioMode => 0x0102
    case SetDataProfiles => 0x0600
    case SetupDataCall => 0x0601
    case DeactivateDataCall => 0x0602
    case GetDataCallList => 0x0603
    case SetInitialAttachParams => 0x0604
  }

  lemma RoutesByRequestId(i: nat, msgId: nat)
    requires i < |V1_PROCESSORS| && msgId in V1_PROCESSORS[i]
    ensures RequestId(V1_PROCESSORS[i][msgId]) == msgId
  {
    assert V1_PROCESSORS[i] == NETWORK_V1 || V1_PROCESSORS[i] == RADIO_V1 || V1_PROCESSORS[i] == DATA_V1;
  }

  /** Whatever an operation starts is one the completion switch knows, and will answer under the request's id. */
  lemma StartedServes(op: AdapterOp, body: Body, uniqueId: nat, simId: nat)
    ensures var s := Start(op, body, uniqueId, simId);
            && (s.Token? ==> Serves(s.ctx, RequestId(op)) && s.ctx.uniqueId == uniqueId && s.ctx.simId == simId)
            && (s.Radio? ==> RequestId(op) == GET_RADIO_MODE_RESP)
  {}

  /** What a completion may leave of a context that serves msgId: nearer to its answer, or answered. */
  predicate Advances(ctx: Ctx, msgId: nat, r: Completion) {
    && (r.Waiting? ==> Serves(r.ctx, msgId) && Rank(r.ctx.rilReqId) < Rank(ctx.rilReqId)
                       && r.ctx.uniqueId == ctx.uniqueId && r.ctx.simId == ctx.simId)
    && (r.Emitted? ==> Answers(r.msg, ctx.uniqueId, ctx.simId, msgId))
  }

  lemma FinishAdvances(ctx: Ctx, msgId: nat, e: RilErrno, detail: Detail)
    requires Serves(ctx, msgId) && ctx.rsp.Some?
    ensures Advances(ctx, msgId, Completed(ctx, Finish(ctx, e, detail)))
  {}

  lemma ChainAdvances(ctx: Ctx, msgId: nat, next: RilRequest, st: Option<RegStatus>)
    requires Serves(ctx, msgId) && ctx.rsp.Some?
    requires ResponseId(next) == Some(msgId) && Rank(next) < Rank(ctx.rilReqId)
    ensures Advances(ctx, msgId, Completed(ctx, Chain(ctx, next, st)))
  {}

  /** The default branch is never taken for a served request. */
  lemma HandledIsFinishOrChain(p: Platform, ctx: Ctx, msgId: nat, e: RilErrno, data: VendorData, h: Handled)
    requires p.layout.Valid() && Serves(ctx, msgId) && ctx.rsp.Some? && h == Handle(p, ctx, e, data)
    ensures !h.Unhandled? && Advances(ctx, msgId, Completed(ctx, h))
  {
    var st := StatusIn(RspOf(ctx));
    match ctx.rilReqId {
      case VoiceRegistrationState =>
        FinishAdvances(ctx, msgId, e, Registration(st));
        ChainAdvances(ctx, msgId, DataRegistrationState, AfterVoice(p, st, TextsOf(data)));
      case DataRegistrationState =>
        FinishAdvances(ctx, msgId, e, Registration(st));
        ChainAdvances(ctx, msgId, Operator, AfterData(p, st, TextsOf(data)));
      case Operator =>
        FinishAdvances(ctx, msgId, e, Registration(if e.Success? then AfterOperator(st, TextsOf(data)) else st));
      case _ =>
        var detail := if e.Success? then DetailOf(p, ctx.rilReqId, data) else Some(NoDetail);
        if detail.Some? {
          FinishAdvances(ctx, msgId, e, detail.value);
        }
    }
  }

  /** A completion brings a served request nearer to its answer, or answers it. */
  lemma CompletionServes(p: Platform, ctx: Ctx, msgId: nat, e: RilErrno, data: VendorData, r: Completion)
    requires p.layout.Valid() && Serves(ctx, msgId) && r == Complete(p, ctx, e, data)
    ensures Advances(ctx, msgId, r)
  {
    var ctx' := ctx.(rsp := Some(RspOf(ctx)));
    HandledIsFinishOrChain(p, ctx', msgId, e, data, Handle(p, ctx', e, data));
  }

  /** The completion of a vendor call, as the rest of the system sees it. */
  type Completer = (Ctx, RilErrno, VendorData) -> Completion

  function CompleterOf(p: Platform): Completer
    requires p.layout.Valid()
  {
    (ctx: Ctx, e: RilErrno, data: VendorData) => Complete(p, ctx, e, data)
  }

  ghost predicate Serving(vendor: Completer) {
    forall ctx: Ctx, msgId: nat, e: RilErrno, data: VendorData ::
      Serves(ctx, msgId) ==> Advances(ctx, msgId, vendor(ctx, e, data))
  }

  /** On every platform. */
  lemma AdapterServes(p: Platform)
    requires p.layout.Valid()
    ensures Serving(CompleterOf(p))
  {
    forall ctx: Ctx, msgId: nat, e: RilErrno, data: VendorData | Serves(ctx, msgId)
      ensures Advances(ctx, msgId, CompleterOf(p)(ctx, e, data))
    {
      CompletionServes(p, ctx, msgId, e, data, Complete(p, ctx, e, data));
    }
  }

  class RilRequestContext {
    var rilReqId: RilRequest
    const uniqueId: nat
    const simId: nat
    var rsp: Option<Msg>
    var isCompleted: bool
    // The message id of the request the context was made for.
    ghost const requestId: nat

    constructor (rilReqId: RilRequest, uniqueId: nat, simId: nat, ghost requestId: nat)
      ensures View() == NewCtx(rilReqId, uniqueId, simId) && this.requestId == requestId
    {
      this.rilReqId, this.uniqueId, this.simId := rilReqId, uniqueId, simId;
      rsp, isCompleted := None, false;
      this.requestId := requestId;
    }

    ghost function View(): Ctx
      reads this
    {
      Ctx(rilReqId, uniqueId, simId, rsp, isCompleted)
    }

    /** Results: the handler's own, and whether one of its assertions failed. */
    method HandleVoiceRegState(p: Platform, e: RilErrno, data: VendorData) returns (ret: bool, aborted: bool)
      requires p.layout.Valid() && rsp.Some? && rilReqId.VoiceRegistrationState?
      modifies this
      ensures HandledBy(Handle(p, old(View()), e, data), ret, aborted)
    {
      ret, aborted := true, false;
      var st := StatusIn(rsp.value);
      if e.Success? {
        var after := AfterVoice(p, st, TextsOf(data));
        if after.None? {
          aborted := true;
          return;
        }
        rsp := Some(WithReply(rsp.value, VoiceRegistrationState, e, Registration(after.value)));
        isCompleted := false;
        rilReqId := DataRegistrationState;
      } else {
        rsp := Some(WithReply(rsp.value, VoiceRegistrationState, e, Registration(st)));
        isCompleted := true;
      }
    }

    method HandleDataRegState(p: Platform, e: RilErrno, data: VendorData) returns (ret: bool, aborted: bool)
      requires p.layout.Valid() && rsp.Some? && rilReqId.DataRegistrationState?
      modifies this
      ensures HandledBy(Handle(p, old(View()), e, data), ret, aborted)
    {
      ret, aborted := true, false;
      var st := StatusIn(rsp.value);
      if e.Success? {
        var after := AfterData(p, st, TextsOf(data));
        if after.None? {
          aborted := true;
          return;
        }
        rsp := Some(WithReply(rsp.value, DataRegistrationState, e, Registration(after.value)));
        isCompleted := false;
        rilReqId := Operator;
      } else {
        rsp := Some(WithReply(rsp.value, DataRegistrationState, e, Registration(st)));
        isCompleted := true;
      }
    }

    method HandleOperator(p: Platform, e: RilErrno, data: VendorData) returns (ret: bool, aborted: bool)
      requires p.layout.Valid() && rsp.Some? && rilReqId.Operator?
      modifies this
      ensures HandledBy(Handle(p, old(View()), e, data), ret, aborted)
    {
      ret, aborted := true, false;
      var st := StatusIn(rsp.value);
      if e.Success? {
        st := AfterOperator(st, TextsOf(data));
      }
      rsp := Some(WithReply(rsp.value, Operator, e, Registration(st)));
      isCompleted := true;
    }

    method HandleAvailableNetworks(p: Platform, e: RilErrno, data: VendorData) returns (ret: bool, aborted: bool)
      requires p.layout.Valid() && rsp.Some? && rilReqId.QueryAvailableNetworks?
      modifies this
      ensures HandledBy(Handle(p, old(View()), e, data), ret, aborted)
    {
      ret, aborted := true, false;
      var detail := NoDetail;
      if e.Success? {
        var zero := ScanEntry(OperatorName("", "", "", ""), NoStatus);
        var entries := new ScanEntry[URIL_NW_SCAN_MAX_ENTRY_COUNT](_ => zero);
        var numFilled := FillEntries(TextsOf(data), entries);
        detail := Networks(entries[..numFilled]);
      }
      rsp := Some(WithReply(rsp.value, QueryAvailableNetworks, e, detail));
      isCompleted := true;
    }

    method HandleDataCallList(p: Platform, e: RilErrno, data: VendorData) returns (ret: bool, aborted: bool)
      requires p.layout.Valid() && rsp.Some? && rilReqId.DataCallList?
      modifies this
      ensures HandledBy(Handle(p, old(View()), e, data), ret, aborted)
    {
      ret, aborted := true, false;
      var detail := NoDetail;
      if e.Success? {
        var calls, failed := CallConversion.GetDataCallList(p, BytesOf(data));
        if failed {
          aborted := true;
          return;
        }
        detail := DataCalls(calls);
      }
      rsp := Some(WithReply(rsp.value, DataCallList, e, detail));
      isCompleted := true;
    }

    method HandleSetupDataCall(p: Platform, e: RilErrno, data: VendorData) returns (ret: bool, aborted: bool)
      requires p.layout.Valid() && rsp.Some? && rilReqId.RilSetupDataCall?
      modifies this
      ensures HandledBy(Handle(p, old(View()), e, data), ret, aborted)
    {
      ret, aborted := true, false;
      var detail := NoDetail;
      if e.Success? {
        var call := GetSetUp(p, BytesOf(data));
        if call.None? {
          aborted := true;
          return;
        }
        detail := OneDataCall(call.value);
      }
      rsp := Some(WithReply(rsp.value, RilSetupDataCall, e, detail));
      isCompleted := true;
    }

    method HandleGetNetworkPref(p: Platform, e: RilErrno, data: VendorData) returns (ret: bool, aborted: bool)
      requires p.layout.Valid() && rsp.Some? && rilReqId.GetPreferredNetworkType?
      modifies this
      ensures HandledBy(Handle(p, old(View()), e, data), ret, aborted)
    {
      ret, aborted := true, false;
      var detail := NoDetail;
      if e.Success? {
        var mode := p.preference(NumberOf(data));
        if mode.None? {
          aborted := true;
          return;
        }
        detail := Preference(mode.value);
      }
      rsp := Some(WithReply(rsp.value, GetPreferredNetworkType, e, detail));
      isCompleted := true;
    }

    method HandleGetSignalStrength(p: Platform, e: RilErrno, data: VendorData) returns (ret: bool, aborted: bool)
      requires p.layout.Valid() && rsp.Some? && rilReqId.SignalStrength?
      modifies this
      ensures HandledBy(Handle(p, old(View()), e, data), ret, aborted)
    {
      ret, aborted := true, false;
      var detail := NoDetail;
      if e.Success? {
        var block := Signal.SignalOf(SignalIn(data));
        if block.None? {
          aborted := true;
          return;
        }
        detail := SignalReport(block.value);
      }
      rsp := Some(WithReply(rsp.value, SignalStrength, e, detail));
      isCompleted := true;
    }

    /** The handlers that only translate the result. */
    method HandleResultOnly(e: RilErrno) returns (ret: bool)
      requires rsp.Some? && ResponseId(rilReqId).Some?
      modifies this
      ensures ret && Done(View()) == Finish(old(View()), e, NoDetail)
    {
      rsp := Some(WithReply(rsp.value, rilReqId, e, NoDetail));
      isCompleted := true;
      ret := true;
    }

    /** The switch over the request; without a handler the context is left alone. */
    method HandleCompletion(p: Platform, e: RilErrno, data: VendorData) returns (ret: bool, aborted: bool)
      requires p.layout.Valid() && rsp.Some?
      modifies this
      ensures HandledBy(Handle(p, old(View()), e, data), ret, aborted)
      ensures !aborted && !ret ==> View() == old(View())
    {
      ret, aborted := false, false;
      match rilReqId {
        case VoiceRegistrationState => ret, aborted := HandleVoiceRegState(p, e, data);
        case DataRegistrationState => ret, aborted := HandleDataRegState(p, e, data);
        case Operator => ret, aborted := HandleOperator(p, e, data);
        case OtherRequest(_) =>
        case _ => ret, aborted := HandleSingle(p, e, data);
      }
    }

    /** The requests that are done with one completion. */
    method HandleSingle(p: Platform, e: RilErrno, data: VendorData) returns (ret: bool, aborted: bool)
      requires p.layout.Valid() && rsp.Some? && Rank(rilReqId) == 1
      requires !rilReqId.Operator? && !rilReqId.OtherRequest?
      modifies this
      ensures HandledBy(Handle(p, old(View()), e, data), ret, aborted) && (ret || aborted)
    {
      ret, aborted := false, false;
      if rilReqId.QueryAvailableNetworks? {
        ret, aborted := HandleAvailableNetworks(p, e, data);
      } else if rilReqId.DataCallList? {
        ret, aborted := HandleDataCallList(p, e, data);
      } else if rilReqId.RilSetupDataCall? {
        ret, aborted := HandleSetupDataCall(p, e, data);
      } else if rilReqId.GetPreferredNetworkType? {
        ret, aborted := HandleGetNetworkPref(p, e, data);
      } else if rilReqId.SignalStrength? {
        ret, aborted := HandleGetSignalStrength(p, e, data);
      } else {
        ret := HandleResultOnly(e);
      }
    }

    /** A completion, with the response made on the first one. */
    method TakeCompletion(p: Platform, e: RilErrno, data: VendorData) returns (ret: bool, aborted: bool)
      requires p.layout.Valid() && Serves(View(), requestId)
      modifies this
      ensures var r := old(Complete(p, View(), e, data));
              && Advances(old(View()), requestId, r)
              && (aborted <==> r.Aborted?)
              && (r.Waiting? ==> ret && !isCompleted && View() == r.ctx)
              && (r.Emitted? ==> ret && isCompleted && rsp == Some(r.msg))
    {
      ghost var before := View();
      CompletionServes(p, before, requestId, e, data, Complete(p, before, e, data));
      if rsp == None {
        rsp := Some(Msg(false, uniqueId, simId, 0, Plain));
      }
      assert View() == before.(rsp := Some(RspOf(before)));
      ret, aborted := HandleCompletion(p, e, data);
    }

    ghost predicate HandledBy(h: Handled, ret: bool, aborted: bool)
      reads this
    {
      && (aborted <==> h.HandlerAborted?)
      && (!aborted ==> h == if ret then Done(View()) else Unhandled)
    }
  }

  class AndroidRilAdapter {
    // What the response processor was given, in order.
    var responses: seq<Msg>
    var tokensMade: nat
    ghost var live: set<RilRequestContext>
    ghost var answered: seq<RilRequestContext>

    ghost predicate Valid()
      reads this, live
    {
      && (forall c :: c in live ==> Serves(c.View(), c.requestId))
      && |answered| == |responses|
      && (forall i :: 0 <= i < |answered| ==>
            && answered[i] !in live
            && Answers(responses[i], answered[i].uniqueId, answered[i].simId, answered[i].requestId))
      && (forall i, j :: 0 <= i < j < |answered| ==> answered[i] != answered[j])
      && tokensMade == |live| + |responses|
    }

    constructor ()
      ensures Valid() && live == {} && responses == [] && tokensMade == 0
    {
      responses, tokensMade, live, answered := [], 0, {}, [];
    }

    /** An adapter operation, up to the vendor call. */
    method StartOperation(op: AdapterOp, body: Body, uniqueId: nat, simId: nat)
      returns (accepted: bool, aborted: bool, token: RilRequestContext?)
      requires Valid()
      modifies this`tokensMade, this`live
      ensures Valid() && responses == old(responses)
      ensures aborted <==> Start(op, body, uniqueId, simId).Failed?
      ensures accepted <==> Start(op, body, uniqueId, simId).Token? || Start(op, body, uniqueId, simId).Radio?
      ensures token != null <==> Start(op, body, uniqueId, simId).Token?
      ensures live == old(live) + if token == null then {} else {token}
      ensures token != null ==>
                && fresh(token) && token.View() == Start(op, body, uniqueId, simId).ctx
                && token.requestId == RequestId(op)
      ensures tokensMade == old(tokensMade) + if token == null then 0 else 1
    {
      token, aborted := null, false;
      match Start(op, body, uniqueId, simId) {
        case Refused => accepted := false;
        case Failed =>
          accepted := false;
          aborted := true;
        case Radio => accepted := true;
        case Token(ctx, _) =>
          accepted := true;
          StartedServes(op, body, uniqueId, simId);
          token := MakeTokenForMessage(ctx.rilReqId, uniqueId, simId, RequestId(op));
      }
    }

    method MakeTokenForMessage(rilReqId: RilRequest, uniqueId: nat, simId: nat, ghost requestId: nat)
      returns (token: RilRequestContext)
      requires Valid() && ResponseId(rilReqId) == Some(requestId)
      modifies this`tokensMade, this`live
      ensures Valid() && fresh(token) && responses == old(responses)
      ensures token.View() == NewCtx(rilReqId, uniqueId, simId) && token.requestId == requestId
      ensures live == old(live) + {token} && tokensMade == old(tokensMade) + 1
    {
      token := new RilRequestContext(rilReqId, uniqueId, simId, requestId);
      live := live + {token};
      tokensMade := tokensMade + 1;
    }

    /** The vendor's completion of a call. sendOk is the response processor's result. */
    method HandleRilResponse(p: Platform, ctx: RilRequestContext?, e: RilErrno, data: VendorData, sendOk: bool)
      returns (ret: bool, aborted: bool)
      requires Valid() && p.layout.Valid() && (ctx != null ==> ctx in live)
      modifies this, ctx
      ensures ctx == null ==> !ret && !aborted && Valid() && live == old(live) && responses == old(responses)
      ensures ctx != null ==>
                var r := old(Complete(p, ctx.View(), e, data));
                && (aborted <==> r.Aborted?)
                && (!aborted ==> Valid() && tokensMade == old(tokensMade))
                && (r.Waiting? ==> ret && live == old(live) && responses == old(responses) && ctx.View() == r.ctx)
                && (r.Emitted? ==> ret == sendOk && live == old(live) - {ctx} && responses == old(responses) + [r.msg])
    {
      ret, aborted := false, false;
      if ctx == null {
        return;
      }
      ret, aborted := ctx.TakeCompletion(p, e, data);
      if aborted {
        return;
      }
      if ret && ctx.isCompleted {
        responses := responses + [ctx.rsp.value];
        answered := answered + [ctx];
        live := live - {ctx};
        ret := sendOk;
      }
    }
  }
}
