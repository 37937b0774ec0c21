/** What the service starts for a request, told by the request's message id alone. */
module RequestStarts {
  import opened Basics
  import opened Protocol
  import C = Composite
  import opened Registration
  import opened Adapter
  import opened RegistrationChain
  import opened UrilSystem

  /** One vendor request, without text, under the ids of the message. */
  predicate Asks(d: Started, r: RilRequest, msg: Msg) {
    d == Token(Ctx(r, msg.uniqueId, msg.simId, None, false), None)
  }

  lemma StartsAs(msg: Msg, i: nat)
    requires i < |C.V1_PROCESSORS| && msg.msgId in C.V1_PROCESSORS[i]
    ensures StartedFor(msg) == Adapter.Start(C.V1_PROCESSORS[i][msg.msgId], msg.body, msg.uniqueId, msg.simId)
  {
    var outcome := (op: C.AdapterOp) => !Adapter.Start(op, msg.body, msg.uniqueId, msg.simId).Refused?;
    C.V1ProcessorsAreDisjoint();
    C.DisjointClaims(C.V1_PROCESSORS, msg.msgId);
    C.ClaimsWithout(C.V1_PROCESSORS, i, msg.msgId);
    C.SoleClaimDecides(C.V1_PROCESSORS, i, msg.msgId, outcome);
  }

  lemma NetworkRequestStarts(msg: Msg, d: Started, f: Fields)
    requires d == StartedFor(msg) && f == FieldsOf(msg.body)
    ensures msg.msgId == 0x0500 && 0 <= f.preferredMode <= 12 ==> Asks(d, SetPreferredNetworkType, msg)
    ensures msg.msgId == 0x0501 ==> Asks(d, GetPreferredNetworkType, msg)
    ensures msg.msgId == 0x0502 ==> Asks(d, VoiceRegistrationState, msg)
    ensures msg.msgId == 0x0503 ==> Asks(d, QueryAvailableNetworks, msg)
    ensures msg.msgId == 0x0504 ==> Asks(d, ScreenState, msg)
    ensures msg.msgId == 0x0505 && f.selectionType == 0 ==> Asks(d, SetNetworkSelectionAutomatic, msg)
    ensures msg.msgId == 0x0505 && f.selectionType == 1 ==>
              d.Token? && d.text.Some? && Asks(d.(text := None), SetNetworkSelectionManual, msg)
    ensures msg.msgId == 0x0505 && f.selectionType == 1 && |f.mcc| <= 3 && |f.mnc| <= 3 ==>
              d.text == Some(f.mcc + f.mnc)
    ensures msg.msgId == 0x0506 ==> Asks(d, SignalStrength, msg)
  {
    if 0x0500 <= msg.msgId <= 0x0507 {
      assert C.V1_PROCESSORS[0] == C.NETWORK_V1 && msg.msgId in C.NETWORK_V1;
      StartsAs(msg, 0);
      if |f.mcc| <= 3 && |f.mnc| <= 3 {
        assert (f.mcc + f.mnc)[..|f.mcc + f.mnc|] == f.mcc + f.mnc;
      }
    }
  }

  lemma OtherRequestStarts(msg: Msg, d: Started, f: Fields)
    requires d == StartedFor(msg) && f == FieldsOf(msg.body)
    ensures msg.msgId == 0x0101 ==> d == Radio
    ensures msg.msgId == 0x0102 && (f.radioMode == 1 || f.radioMode == 2) ==> Asks(d, RadioPower, msg)
    ensures msg.msgId == 0x0601 && 0 <= f.bearer <= 21 && 0 <= f.authType <= 3 && 0 <= f.pdpType <= 4 ==>
              Asks(d, RilSetupDataCall, msg)
    ensures msg.msgId == 0x0602 ==> Asks(d, RilDeactivateDataCall, msg)
    ensures msg.msgId == 0x0603 ==> Asks(d, DataCallList, msg)
    ensures msg.msgId == 0x0604 && 0 <= f.authType <= 3 && 0 <= f.pdpType <= 4 ==> Asks(d, SetInitialAttachApn, msg)
  {
    if msg.msgId == 0x0101 || msg.msgId == 0x0102 {
      assert C.V1_PROCESSORS[1] == C.RADIO_V1 && msg.msgId in C.RADIO_V1;
      StartsAs(msg, 1);
    } else if 0x0600 <= msg.msgId <= 0x0604 {
      assert C.V1_PROCESSORS[2] == C.DATA_V1 && msg.msgId in C.DATA_V1;
      StartsAs(msg, 2);
    }
  }

  /** A stage was answered with a success that could be read. */
  predicate Readable(p: Platform, a: VendorAnswer) {
    a.e.Success? && !RegOf(p, TextsIn(a)).RegAborted?
  }

  /** The operator's answer on top of what came before. */
  predicate EndsIn(st: RegStatus, before: Option<RegStatus>, last: VendorAnswer) {
    before.Some? && st == if last.e.Success? then AfterOperator(before.value, TextsIn(last)) else before.value
  }

  lemma OutcomeStatus(p: Platform, uniqueId: nat, simId: nat, answers: seq<VendorAnswer>, r: Outcome)
    requires |answers| >= 3 && r == ChainOutcome(p, uniqueId, simId, answers) && r.Answered?
    ensures r.used == 2 ==> AfterVoice(p, ZERO_STATUS, TextsIn(answers[0])) == Some(StatusIn(r.msg))
    ensures r.used == 3 ==>
              var voice := AfterVoice(p, ZERO_STATUS, TextsIn(answers[0]));
              voice.Some? && EndsIn(StatusIn(r.msg), AfterData(p, voice.value, TextsIn(answers[1])), answers[2])
  {
    if r.used >= 2 {
      StagesWereRead(p, answers, r.used - 1);
    }
  }

  /** From dispatch to answer: a registration query asks for voice, data and operator, in this order, and its
      answer is made of theirs. */
  lemma RegistrationQueryAnswers(p: Platform, msg: Msg, answers: seq<VendorAnswer>) returns (d: Started, r: Outcome)
    requires p.layout.Valid() && msg.msgId == 0x0502 && |answers| >= 3
    ensures d == StartedFor(msg) && d.Token? && r == RegistrationChain.Run(p, d.ctx, answers)
    ensures r.ChainAborted? <==>
              Unreadable(p, answers[0]) || (answers[0].e.Success? && Unreadable(p, answers[1]))
    ensures (r.Answered? && r.used == 3) <==> Readable(p, answers[0]) && Readable(p, answers[1])
    ensures r.Answered? ==>
              && 1 <= r.used <= 3
              && Answers(r.msg, msg.uniqueId, msg.simId, 0x0502) && r.msg.body.Reply?
              && (r.msg.body.response.success <==> forall i :: 0 <= i < 3 ==> answers[i].e.Success?)
              && r.msg.body.response.error == UrilError(answers[r.used - 1].e)
              && (forall i :: 0 <= i < r.used - 1 ==> answers[i].e.Success?)
    ensures r.Answered? && r.used == 1 ==> StatusIn(r.msg) == ZERO_STATUS
    ensures r.Answered? && r.used == 2 ==> AfterVoice(p, ZERO_STATUS, TextsIn(answers[0])) == Some(StatusIn(r.msg))
    ensures r.Answered? && r.used == 3 ==>
              var voice := AfterVoice(p, ZERO_STATUS, TextsIn(answers[0]));
              voice.Some? && EndsIn(StatusIn(r.msg), AfterData(p, voice.value, TextsIn(answers[1])), answers[2])
    ensures r.Answered? && r.used >= 2 ==>
              HoldsReg(StatusIn(r.msg).voiceFollows, StatusIn(r.msg).voice, RegOf(p, TextsIn(answers[0])))
    ensures r.Answered? && r.used == 3 ==>
              HoldsReg(StatusIn(r.msg).dataFollows, StatusIn(r.msg).data, RegOf(p, TextsIn(answers[1])))
  {
    d := StartedFor(msg);
    NetworkRequestStarts(msg, d, FieldsOf(msg.body));
    r := RegistrationChain.Run(p, d.ctx, answers);
    assert d.ctx == NewCtx(VoiceRegistrationState, msg.uniqueId, msg.simId);
    ChainResult(p, msg.uniqueId, msg.simId, answers, r);
    if r.Answered? {
      ChainKeepsData(p, msg.uniqueId, msg.simId, answers, r);
      ChainRuns(p, msg.uniqueId, msg.simId, answers);
      OutcomeStatus(p, msg.uniqueId, msg.simId, answers, r);
    }
  }
}
