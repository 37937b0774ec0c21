/** The registration query: a chain of three vendor calls behind one request. */
module RegistrationChain {
  import opened Basics
  import opened Protocol
  import opened Registration
  import opened Adapter

  datatype VendorAnswer = VendorAnswer(e: RilErrno, data: VendorData)

  /** used counts the completions a context took until its answer. */
  datatype Outcome = ChainAborted | StillWaiting(ctx: Ctx) | Answered(msg: Msg, used: nat)

  /** One completion more than r took. */
  function Later(r: Outcome): Outcome {
    if r.Answered? then Answered(r.msg, r.used + 1) else r
  }

  function Run(p: Platform, ctx: Ctx, answers: seq<VendorAnswer>): (r: Outcome)
    requires p.layout.Valid()
    ensures r.Answered? ==> 1 <= r.used <= |answers|
    decreases |answers|
  {
    if answers == [] then StillWaiting(ctx)
    else
      var done := Complete(p, ctx, answers[0].e, answers[0].data);
      if done.Waiting? then Later(Run(p, done.ctx, answers[1..])) else Settled(done)
  }

  /** A completion that leaves nothing to wait for. */
  function Settled(done: Completion): Outcome
    requires !done.Waiting?
  {
    if done.Aborted? then ChainAborted else Answered(done.msg, 1)
  }

  /** What a completion and the answers after it amount to. */
  function Continued(p: Platform, done: Completion, more: seq<VendorAnswer>): Outcome
    requires p.layout.Valid()
  {
    if done.Waiting? then Later(Run(p, done.ctx, more)) else Settled(done)
  }

  /** Any served context gets its only answer within as many completions as its rank. */
  lemma {:induction false} AnswerComes(p: Platform, ctx: Ctx, msgId: nat, answers: seq<VendorAnswer>)
    requires p.layout.Valid() && Serves(ctx, msgId) && |answers| >= Rank(ctx.rilReqId)
    ensures var r := Run(p, ctx, answers);
            && !r.StillWaiting?
            && (r.Answered? ==> 1 <= r.used <= Rank(ctx.rilReqId)
                                && Answers(r.msg, ctx.uniqueId, ctx.simId, msgId))
    decreases |answers|
  {
    var a := answers[0];
    var done := Complete(p, ctx, a.e, a.data);
    CompletionServes(p, ctx, msgId, a.e, a.data, done);
    if done.Waiting? {
      AnswerComes(p, done.ctx, msgId, answers[1..]);
    }
  }

  /** The stage that fails first decides; the third one decides when none of the others failed. */
  function Deciding(answers: seq<VendorAnswer>): nat
    requires |answers| >= 3
  {
    if !answers[0].e.Success? then 0 else if !answers[1].e.Success? then 1 else 2
  }

  function TextsIn(a: VendorAnswer): seq<Option<string>> {
    TextsOf(a.data)
  }

  /** The registration status that the first k stages leave behind. */
  function StatusAfter(p: Platform, answers: seq<VendorAnswer>, k: nat): Option<RegStatus>
    requires k <= 2 && k <= |answers|
  {
    if k == 0 then Some(ZERO_STATUS)
    else
      var before := StatusAfter(p, answers, k - 1);
      if before.None? then None
      else if k == 1 then AfterVoice(p, before.value, TextsIn(answers[0]))
      else AfterData(p, before.value, TextsIn(answers[1]))
  }

  function FinalStatus(p: Platform, answers: seq<VendorAnswer>): Option<RegStatus>
    requires |answers| >= 3
  {
    var d := Deciding(answers);
    var st := StatusAfter(p, answers, d);
    if st.Some? && d == 2 && answers[2].e.Success? then Some(AfterOperator(st.value, TextsIn(answers[2]))) else st
  }

  function StageMsg(uniqueId: nat, simId: nat, e: RilErrno, st: RegStatus): Msg {
    Msg(false, uniqueId, simId, 0x0502, Reply(ResultOf(e), Registration(st)))
  }

  function StageCtx(r: RilRequest, uniqueId: nat, simId: nat, st: RegStatus): Ctx {
    Ctx(r, uniqueId, simId, Some(StageMsg(uniqueId, simId, Success, st)), false)
  }

  function StageResult(next: RilRequest, uniqueId: nat, simId: nat, e: RilErrno,
                       before: RegStatus, after: Option<RegStatus>): Completion
  {
    if !e.Success? then Emitted(StageMsg(uniqueId, simId, e, before))
    else if after.None? then Aborted
    else Waiting(StageCtx(next, uniqueId, simId, after.value))
  }

  lemma VoiceStage(p: Platform, uniqueId: nat, simId: nat, a: VendorAnswer)
    requires p.layout.Valid()
    ensures Complete(p, NewCtx(VoiceRegistrationState, uniqueId, simId), a.e, a.data)
         == StageResult(DataRegistrationState, uniqueId, simId, a.e, ZERO_STATUS,
                        AfterVoice(p, ZERO_STATUS, TextsIn(a)))
  {}

  lemma DataStage(p: Platform, uniqueId: nat, simId: nat, st: RegStatus, a: VendorAnswer)
    requires p.layout.Valid()
    ensures Complete(p, StageCtx(DataRegistrationState, uniqueId, simId, st), a.e, a.data)
         == StageResult(Operator, uniqueId, simId, a.e, st, AfterData(p, st, TextsIn(a)))
  {}

  lemma OperatorStage(p: Platform, uniqueId: nat, simId: nat, st: RegStatus, a: VendorAnswer)
    requires p.layout.Valid()
    ensures Complete(p, StageCtx(Operator, uniqueId, simId, st), a.e, a.data)
         == Emitted(StageMsg(uniqueId, simId, a.e, if a.e.Success? then AfterOperator(st, TextsIn(a)) else st))
  {}

  lemma FirstCompletion(p: Platform, ctx: Ctx, a: VendorAnswer, more: seq<VendorAnswer>, done: Completion)
    requires p.layout.Valid() && done == Complete(p, ctx, a.e, a.data)
    ensures Run(p, ctx, [a] + more) == Continued(p, done, more)
  {
    assert ([a] + more)[1..] == more;
  }

  /** The answer of a whole chain, from the stage that decides. */
  function ChainOutcome(p: Platform, uniqueId: nat, simId: nat, answers: seq<VendorAnswer>): Outcome
    requires |answers| >= 3
  {
    var d, st := Deciding(answers), FinalStatus(p, answers);
    if st.None? then ChainAborted else Answered(StageMsg(uniqueId, simId, answers[d].e, st.value), d + 1)
  }

  lemma OperatorPart(p: Platform, uniqueId: nat, simId: nat, st: RegStatus, a: VendorAnswer, more: seq<VendorAnswer>)
    requires p.layout.Valid()
    ensures Run(p, StageCtx(Operator, uniqueId, simId, st), [a] + more)
         == Answered(StageMsg(uniqueId, simId, a.e, if a.e.Success? then AfterOperator(st, TextsIn(a)) else st), 1)
  {
    OperatorStage(p, uniqueId, simId, st, a);
    FirstCompletion(p, StageCtx(Operator, uniqueId, simId, st), a, more,
                    Complete(p, StageCtx(Operator, uniqueId, simId, st), a.e, a.data));
  }

  lemma DataPart(p: Platform, uniqueId: nat, simId: nat, st: RegStatus, a: VendorAnswer, more: seq<VendorAnswer>)
    requires p.layout.Valid()
    ensures Run(p, StageCtx(DataRegistrationState, uniqueId, simId, st), [a] + more) ==
            Continued(p, StageResult(Operator, uniqueId, simId, a.e, st, AfterData(p, st, TextsIn(a))), more)
  {
    var ctx := StageCtx(DataRegistrationState, uniqueId, simId, st);
    DataStage(p, uniqueId, simId, st, a);
    FirstCompletion(p, ctx, a, more, Complete(p, ctx, a.e, a.data));
  }

  lemma ChainRuns(p: Platform, uniqueId: nat, simId: nat, answers: seq<VendorAnswer>)
    requires p.layout.Valid() && |answers| >= 3
    ensures Run(p, NewCtx(VoiceRegistrationState, uniqueId, simId), answers)
         == ChainOutcome(p, uniqueId, simId, answers)
  {
    var ctx := NewCtx(VoiceRegistrationState, uniqueId, simId);
    var a0, a1, a2, more := answers[0], answers[1], answers[2], answers[3..];
    assert answers == [a0] + ([a1] + ([a2] + more));
    VoiceStage(p, uniqueId, simId, a0);
    FirstCompletion(p, ctx, a0, [a1] + ([a2] + more), Complete(p, ctx, a0.e, a0.data));
    var voice := StatusAfter(p, answers, 1);
    assert StatusAfter(p, answers, 0) == Some(ZERO_STATUS);
    assert voice == AfterVoice(p, ZERO_STATUS, TextsIn(a0));
    if a0.e.Success? && voice.Some? {
      DataPart(p, uniqueId, simId, voice.value, a1, [a2] + more);
      var data := StatusAfter(p, answers, 2);
      assert data == AfterData(p, voice.value, TextsIn(a1));
      if a1.e.Success? && data.Some? {
        OperatorPart(p, uniqueId, simId, data.value, a2, more);
      }
    }
  }

  /** The assertions of a stage fail on this answer. */
  predicate Unreadable(p: Platform, a: VendorAnswer) {
    a.e.Success? && RegOf(p, TextsIn(a)).RegAborted?
  }

  /** One answer, after one to three completions; it reports success exactly when all three stages
      succeeded, and otherwise the error of the first stage that failed. There is no answer exactly when
      an assertion fails on the first answer, or on the second after a success of the first. */
  lemma ChainResult(p: Platform, uniqueId: nat, simId: nat, answers: seq<VendorAnswer>, r: Outcome)
    requires p.layout.Valid() && |answers| >= 3
    requires r == Run(p, NewCtx(VoiceRegistrationState, uniqueId, simId), answers)
    ensures !r.StillWaiting?
    ensures r.ChainAborted? <==>
              Unreadable(p, answers[0]) || (answers[0].e.Success? && Unreadable(p, answers[1]))
    ensures r.Answered? ==>
              && 1 <= r.used <= 3
              && Answers(r.msg, uniqueId, simId, 0x0502) && r.msg.body.Reply?
              && (r.msg.body.response.success <==> forall i :: 0 <= i < 3 ==> answers[i].e.Success?)
              && r.msg.body.response.error == UrilError(answers[r.used - 1].e)
              && (forall i :: 0 <= i < r.used - 1 ==> answers[i].e.Success?)
              && (r.used < 3 ==> !answers[r.used - 1].e.Success?)
  {
    ChainRuns(p, uniqueId, simId, answers);
    OutcomeResult(p, uniqueId, simId, answers, r);
  }

  lemma OutcomeResult(p: Platform, uniqueId: nat, simId: nat, answers: seq<VendorAnswer>, r: Outcome)
    requires |answers| >= 3 && r == ChainOutcome(p, uniqueId, simId, answers)
    ensures !r.StillWaiting?
    ensures r.ChainAborted? <==>
              Unreadable(p, answers[0]) || (answers[0].e.Success? && Unreadable(p, answers[1]))
    ensures r.Answered? ==>
              && 1 <= r.used <= 3
              && Answers(r.msg, uniqueId, simId, 0x0502) && r.msg.body.Reply?
              && (r.msg.body.response.success <==> forall i :: 0 <= i < 3 ==> answers[i].e.Success?)
              && r.msg.body.response.error == UrilError(answers[r.used - 1].e)
              && (forall i :: 0 <= i < r.used - 1 ==> answers[i].e.Success?)
              && (r.used < 3 ==> !answers[r.used - 1].e.Success?)
  {
    assert StatusAfter(p, answers, 0) == Some(ZERO_STATUS);
    var voice := StatusAfter(p, answers, 1);
    assert voice == AfterVoice(p, ZERO_STATUS, TextsIn(answers[0]));
    if voice.Some? {
      assert StatusAfter(p, answers, 2) == AfterData(p, voice.value, TextsIn(answers[1]));
    }
  }

  /** What an earlier stage wrote is still there in the answer, up to one cell's operator number. The voice and
      the data block have what their own stages were told. */
  lemma ChainKeepsData(p: Platform, uniqueId: nat, simId: nat, answers: seq<VendorAnswer>, r: Outcome)
    requires p.layout.Valid() && |answers| >= 3
    requires r == Run(p, NewCtx(VoiceRegistrationState, uniqueId, simId), answers) && r.Answered?
    ensures r.used == 1 ==> StatusIn(r.msg) == ZERO_STATUS
    ensures r.used >= 2 ==>
              var voice := AfterVoice(p, ZERO_STATUS, TextsIn(answers[0]));
              voice.Some? && KeepsVoice(voice.value, StatusIn(r.msg))
    ensures r.used == 3 ==>
              var data := StatusAfter(p, answers, 2);
              data.Some? && WithoutPlmn(StatusIn(r.msg)) == WithoutPlmn(data.value)
              && PlmnChanges(data.value, StatusIn(r.msg)) <= 1
    ensures r.used >= 2 ==>
              HoldsReg(StatusIn(r.msg).voiceFollows, StatusIn(r.msg).voice, RegOf(p, TextsIn(answers[0])))
    ensures r.used == 3 ==>
              HoldsReg(StatusIn(r.msg).dataFollows, StatusIn(r.msg).data, RegOf(p, TextsIn(answers[1])))
  {
    ChainRuns(p, uniqueId, simId, answers);
    OutcomeKeepsData(p, uniqueId, simId, answers, r);
  }

  /** The block has what the vendor reported, and follows exactly if that could be read. */
  predicate HoldsReg(follows: bool, info: RegInfo, reg: NwReg) {
    (follows <==> reg.Reg?) && (follows ==> info == reg.info)
  }

  /** t still has what the voice stage left in s. */
  predicate KeepsVoice(s: RegStatus, t: RegStatus) {
    && t.voice == s.voice && t.voiceFollows == s.voiceFollows
    && WithoutPlmn(t).gsm == WithoutPlmn(s).gsm
    && WithoutPlmn(t).wcdma == WithoutPlmn(s).wcdma
    && WithoutPlmn(t).tdscdma == WithoutPlmn(s).tdscdma
  }

  lemma StagesWereRead(p: Platform, answers: seq<VendorAnswer>, k: nat)
    requires 1 <= k <= 2 && k <= |answers| && StatusAfter(p, answers, k).Some?
    ensures StatusAfter(p, answers, 1) == AfterVoice(p, ZERO_STATUS, TextsIn(answers[0]))
    ensures StatusAfter(p, answers, 1).Some?
  {
    assert StatusAfter(p, answers, 0) == Some(ZERO_STATUS);
  }

  lemma OutcomeKeepsData(p: Platform, uniqueId: nat, simId: nat, answers: seq<VendorAnswer>, r: Outcome)
    requires |answers| >= 3 && r == ChainOutcome(p, uniqueId, simId, answers) && r.Answered?
    ensures r.used == 1 ==> StatusIn(r.msg) == ZERO_STATUS
    ensures r.used >= 2 ==>
              var voice := StatusAfter(p, answers, 1);
              voice.Some? && KeepsVoice(voice.value, StatusIn(r.msg))
    ensures r.used == 3 ==>
              var data := StatusAfter(p, answers, 2);
              data.Some? && WithoutPlmn(StatusIn(r.msg)) == WithoutPlmn(data.value)
              && PlmnChanges(data.value, StatusIn(r.msg)) <= 1
    ensures r.used >= 2 ==>
              HoldsReg(StatusIn(r.msg).voiceFollows, StatusIn(r.msg).voice, RegOf(p, TextsIn(answers[0])))
    ensures r.used == 3 ==>
              HoldsReg(StatusIn(r.msg).dataFollows, StatusIn(r.msg).data, RegOf(p, TextsIn(answers[1])))
  {
    if r.used >= 2 {
      StagesWereRead(p, answers, r.used - 1);
      VoiceWritesItsOwn(p, ZERO_STATUS, TextsIn(answers[0]));
    }
    if r.used == 3 {
      var voice, data := StatusAfter(p, answers, 1).value, StatusAfter(p, answers, 2).value;
      DataWritesItsOwn(p, voice, TextsIn(answers[1]));
      OperatorWritesOnePlmn(data, TextsIn(answers[2]));
      KeepsVoiceThrough(voice, data, StatusIn(r.msg));
    }
  }

  lemma KeepsVoiceThrough(voice: RegStatus, data: RegStatus, st: RegStatus)
    requires data.voice == voice.voice && data.voiceFollows == voice.voiceFollows
    requires data.gsm == voice.gsm && data.wcdma == voice.wcdma && data.tdscdma == voice.tdscdma
    requires WithoutPlmn(st) == WithoutPlmn(data)
    ensures KeepsVoice(voice, st)
  {
    assert st.voice == WithoutPlmn(st).voice && st.voiceFollows == WithoutPlmn(st).voiceFollows;
  }
}
