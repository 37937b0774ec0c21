/** What the adapter answers to a vendor completion, by request and by literal values. */
module AdapterReplies {
  import opened Basics
  import opened Protocol
  import opened Scan
  import opened CallList
  import opened CallConversion
  import opened Registration
  import opened Adapter
  import opened Signal

  predicate Single(r: RilRequest) {
    ResponseId(r).Some? && !r.VoiceRegistrationState? && !r.DataRegistrationState? && !r.Operator?
  }

  lemma SingleReply(p: Platform, r: RilRequest, uniqueId: nat, simId: nat, e: RilErrno, data: VendorData,
                    c: Completion)
    requires p.layout.Valid() && Single(r) && c == Complete(p, NewCtx(r, uniqueId, simId), e, data)
    ensures !e.Success? ==>
              c == Emitted(Msg(false, uniqueId, simId, ResponseId(r).value,
                               Reply(ResultCode(false, UrilError(e)), NoDetail)))
    ensures e.Success? && DetailOf(p, r, data).None? ==> c.Aborted?
    ensures e.Success? && DetailOf(p, r, data).Some? ==>
              c == Emitted(Msg(false, uniqueId, simId, ResponseId(r).value,
                               Reply(ResultCode(true, 0), DetailOf(p, r, data).value)))
  {}

  function Success0(uniqueId: nat, simId: nat, msgId: nat, detail: Detail): Completion {
    Emitted(Msg(false, uniqueId, simId, msgId, Reply(ResultCode(true, 0), detail)))
  }

  // ---- signal strength ----

  predicate Gw(v: VendorSignal) {
    v.gwStrength != 99 || v.gwErrorRate != 99
  }

  predicate LteIn(v: VendorSignal) {
    && (v.extent.UpToV6? || v.extent.UpToV10?)
    && (v.lteStrength != 99 || v.lteRsrp != 0x7fff_ffff || v.lteRsrq != 0x7fff_ffff || v.lteRssnr != 0x7fff_ffff)
  }

  predicate TdIn(v: VendorSignal) {
    v.extent.UpToV10? && v.rscp != 0x7fff_ffff
  }

  predicate Int8(x: int) {
    -128 <= x < 128
  }

  /** The first block that the vendor reports, with the vendor's values as far as a byte reaches. */
  predicate BlockSays(v: VendorSignal, b: SignalBlock) {
    && (b.GsmBlock? <==> Gw(v))
    && (b.LteBlock? <==> !Gw(v) && LteIn(v))
    && (b.TdscdmaBlock? <==> !Gw(v) && !LteIn(v) && TdIn(v))
    && (b.GsmBlock? && Int8(v.gwStrength) ==> b.rssi == v.gwStrength)
    && (b.LteBlock? && Int8(v.lteStrength) ==> b.rssi == v.lteStrength)
    && (b.LteBlock? && Int8(v.lteRsrq) ==> b.rsrq == v.lteRsrq)
    && (b.LteBlock? && Int8(v.lteRsrp) ==> b.rsrp == v.lteRsrp)
    && (b.LteBlock? && Int8(v.lteRssnr) ==> b.snr == v.lteRssnr)
    && (b.TdscdmaBlock? && Int8(v.rscp) ==> b.rscp == v.rscp)
  }

  lemma SignalSays(v: VendorSignal)
    ensures SignalOf(v).None? <==> v.extent.TooShort?
    ensures SignalOf(v).Some? ==> BlockSays(v, SignalOf(v).value)
  {}

  /** The answer to a signal strength request; it aborts exactly if the record is shorter than version 5. */
  lemma SignalReply(p: Platform, uniqueId: nat, simId: nat, v: VendorSignal, c: Completion)
    requires p.layout.Valid()
    requires c == Complete(p, NewCtx(RilRequest.SignalStrength, uniqueId, simId), Success, Signals(v))
    ensures c.Aborted? <==> v.extent.TooShort?
    ensures !v.extent.TooShort? ==>
              exists b :: BlockSays(v, b) && c == Success0(uniqueId, simId, 0x0506, SignalReport(b))
  {
    SingleReply(p, RilRequest.SignalStrength, uniqueId, simId, Success, Signals(v), c);
    SignalSays(v);
    if !v.extent.TooShort? {
      assert BlockSays(v, SignalOf(v).value);
    }
  }

  // ---- the others ----

  lemma ScanReply(p: Platform, uniqueId: nat, simId: nat, strings: Strings, c: Completion)
    requires p.layout.Valid()
    requires c == Complete(p, NewCtx(QueryAvailableNetworks, uniqueId, simId), Success, Texts(strings))
    ensures c == Success0(uniqueId, simId, 0x0503, Networks(ScanEntries(strings)))
  {
    SingleReply(p, QueryAvailableNetworks, uniqueId, simId, Success, Texts(strings), c);
  }

  lemma CallListReply(p: Platform, uniqueId: nat, simId: nat, bytes: seq<Byte>, c: Completion)
    requires p.layout.Valid() && c == Complete(p, NewCtx(DataCallList, uniqueId, simId), Success, Raw(bytes))
    ensures Listed(p, bytes).None? ==> c.Aborted?
    ensures Listed(p, bytes).Some? ==> c == Success0(uniqueId, simId, 0x0603, DataCalls(Listed(p, bytes).value))
  {
    SingleReply(p, DataCallList, uniqueId, simId, Success, Raw(bytes), c);
  }

  /** The record of a call that was set up: at least version 6 and at most version 11, over zeros. */
  lemma SetUpIs(p: Platform, bytes: seq<Byte>, small: nat, full: nat)
    requires p.layout.Valid() && small == p.layout.k * p.layout.w && full == (p.layout.k + 2) * p.layout.w
    ensures !(small <= |bytes| <= full) ==> SetUp(p, bytes).None?
    ensures small <= |bytes| <= full ==> SetUp(p, bytes) == InfoFrom(p, bytes + seq(full - |bytes|, _ => 0))
  {
    assert small == p.layout.Size(V6) && full == p.layout.Size(V11);
    if small <= |bytes| <= full {
      assert Padded(bytes, full) == bytes + seq(full - |bytes|, _ => 0);
    }
  }

  lemma SetUpReply(p: Platform, uniqueId: nat, simId: nat, bytes: seq<Byte>, c: Completion)
    requires p.layout.Valid() && c == Complete(p, NewCtx(RilSetupDataCall, uniqueId, simId), Success, Raw(bytes))
    ensures SetUp(p, bytes).None? ==> c.Aborted?
    ensures SetUp(p, bytes).Some? ==> c == Success0(uniqueId, simId, 0x0601, OneDataCall(SetUp(p, bytes).value))
  {
    SingleReply(p, RilSetupDataCall, uniqueId, simId, Success, Raw(bytes), c);
  }

  lemma PreferenceReply(p: Platform, uniqueId: nat, simId: nat, n: int, c: Completion)
    requires p.layout.Valid() && c == Complete(p, NewCtx(GetPreferredNetworkType, uniqueId, simId), Success, Number(n))
    ensures p.preference(n).None? ==> c.Aborted?
    ensures p.preference(n).Some? ==> c == Success0(uniqueId, simId, 0x0501, Preference(p.preference(n).value))
  {
    SingleReply(p, GetPreferredNetworkType, uniqueId, simId, Success, Number(n), c);
  }

  /** The vendor's error behind a reported one: the table backwards. */
  function ErrnoOf(error: nat): Option<RilErrno> {
    match error
    case 0 => Some(Success)
    case 1 => Some(RadioNotAvailable)
    case 2 => Some(GenericFailure)
    case 3 => Some(PasswordIncorrect)
    case 4 => Some(SimPin2)
    case 5 => Some(SimPuk2)
    case 6 => Some(RequestNotSupported)
    case 7 => Some(Cancelled)
    case 8 => Some(OpNotAllowedDuringVoiceCall)
    case 9 => Some(OpNotAllowedBeforeRegToNw)
    case 10 => Some(SmsSendFailRetry)
    case 11 => Some(SimAbsent)
    case 12 => Some(SubscriptionNotAvailable)
    case 13 => Some(ModeNotSupported)
    case 14 => Some(FdnCheckFailure)
    case 15 => Some(IllegalSimOrMe)
    case 16 => Some(MissingResource)
    case 17 => Some(NoSuchElement)
    case 18 => Some(DialModifiedToUssd)
    case 19 => Some(DialModifiedToSs)
    case 20 => Some(DialModifiedToDial)
    case 21 => Some(UssdModifiedToDial)
    case 22 => Some(UssdModifiedToSs)
    case 23 => Some(UssdModifiedToUssd)
    case 24 => Some(SsModifiedToDial)
    case 25 => Some(SsModifiedToUssd)
    case 26 => Some(SubscriptionNotSupported)
    case 27 => Some(SsModifiedToSs)
    case _ => None
  }

  /** Every listed error can be told from its report; all others are reported as a generic failure. */
  lemma ErrorRoundTrip(e: RilErrno)
    ensures ErrnoOf(UrilError(e)) == Some(if e.OtherErrno? then GenericFailure else e)
  {}
}
