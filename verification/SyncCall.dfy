/** uril_client_execute_command_sync: the calling thread waits, with a limit, for the thread that runs
    its callback. Both share the parameters, a mutex and a condition variable. */
module SyncCall {
  import opened Basics
  import opened Protocol

  datatype Wake = NotSlept | Signalled | TimedOut | Spurious | NotSent | NoLock

  /** The calling thread. how tells why it stopped waiting, or that it never did. NotSent stands for a failed
      set-up of mutex and condition, too. */
  datatype Waiter =
    | InAsync
    | Locking
    | Checking
    | Asleep
    | Waking(how: Wake)
    | Rechecking(how: Wake)
    | Unlocking(ok: bool, how: Wake)
    | Returned(ok: bool, how: Wake)

  /** async_cb on the receiving thread. */
  datatype Caller =
    | NotCalled
    | Copying(done: nat)
    | AtSuccess
    | AtLock
    | AtCondition
    | AtUnlock
    | AtSignal
    | Finished

  datatype Owner = Free | ByWaiter | ByCallback

  /** before is what the response buffer held when the call was made; payload is what the callback was
      called with, once it was. */
  datatype Sync = Sync(waiter: Waiter, caller: Caller, owner: Owner, condition: bool, success: bool,
                       resp: seq<Byte>, before: seq<Byte>, payload: seq<Byte>)

  function Begun(resp: seq<Byte>): Sync {
    Sync(InAsync, NotCalled, Free, false, false, resp, resp, [])
  }

  /** How many bytes the callback copies. */
  function Wanted(s: Sync): nat {
    Min(|s.before|, |s.payload|)
  }

  datatype Move =
    | AsyncReturns(ok: bool)
    | LockFails
    | WaiterMoves
    | WakesLate
    | WakesForNothing
    | Called(payload: seq<Byte>)
    | CallbackMoves

  function WaiterStep(s: Sync): Sync {
    match s.waiter
    case Locking => if s.owner.Free? then s.(waiter := Checking, owner := ByWaiter) else s
    case Checking =>
      if s.condition then s.(waiter := Unlocking(true, NotSlept)) else s.(waiter := Asleep, owner := Free)
    case Waking(how) => if s.owner.Free? then s.(waiter := Rechecking(how), owner := ByWaiter) else s
    // The mutex is not unlocked on the way out after a timeout.
    case Rechecking(how) =>
      s.(waiter := if how.TimedOut? then Returned(false, how) else Unlocking(s.condition, how))
    case Unlocking(ok, how) => s.(waiter := Returned(ok, how), owner := Free)
    case _ => s
  }

  function CallbackStep(s: Sync): Sync
    requires |s.resp| == |s.before|
  {
    match s.caller
    case NotCalled => s
    case Copying(k) =>
      if k < Wanted(s) then s.(caller := Copying(k + 1), resp := s.resp[k := s.payload[k]])
      else s.(caller := AtSuccess)
    case AtSuccess => s.(caller := AtLock, success := true)
    case AtLock => if s.owner.Free? then s.(caller := AtCondition, owner := ByCallback) else s
    case AtCondition => s.(caller := AtUnlock, condition := true)
    case AtUnlock => s.(caller := AtSignal, owner := Free)
    case AtSignal => s.(caller := Finished, waiter := if s.waiter.Asleep? then Waking(Signalled) else s.waiter)
    case Finished => s
  }

  function Step(s: Sync, m: Move): (s': Sync)
    requires |s.resp| == |s.before|
    ensures |s'.resp| == |s'.before| && s'.before == s.before
    ensures !s.caller.NotCalled? ==> !s'.caller.NotCalled? && s'.payload == s.payload
  {
    match m
    case AsyncReturns(ok) =>
      if !s.waiter.InAsync? then s else s.(waiter := if ok then Locking else Returned(false, NotSent))
    case LockFails => if s.waiter.Locking? then s.(waiter := Returned(false, NoLock)) else s
    case WaiterMoves => WaiterStep(s)
    case WakesLate => if s.waiter.Asleep? then s.(waiter := Waking(TimedOut)) else s
    case WakesForNothing => if s.waiter.Asleep? then s.(waiter := Waking(Spurious)) else s
    case Called(payload) => if s.caller.NotCalled? then s.(caller := Copying(0), payload := payload) else s
    case CallbackMoves => CallbackStep(s)
  }

  function Run(s: Sync, ms: seq<Move>): (s': Sync)
    requires |s.resp| == |s.before|
    ensures |s'.resp| == |s'.before| && s'.before == s.before
    ensures !s.caller.NotCalled? ==> !s'.caller.NotCalled? && s'.payload == s.payload
    decreases |ms|
  {
    if ms == [] then s else Run(Step(s, ms[0]), ms[1..])
  }

  function CopiedSoFar(s: Sync): nat {
    match s.caller
    case NotCalled => 0
    case Copying(k) => k
    case _ => Wanted(s)
  }

  ghost predicate Inv(s: Sync) {
    && |s.resp| == |s.before| && CopiedSoFar(s) <= Wanted(s)
    && (forall j | 0 <= j < |s.resp| :: s.resp[j] == if j < CopiedSoFar(s) then s.payload[j] else s.before[j])
    && (s.waiter.Checking? || s.waiter.Rechecking? || s.waiter.Unlocking? ==> s.owner.ByWaiter?)
    && (s.owner.ByWaiter? ==> s.waiter.Checking? || s.waiter.Rechecking? || s.waiter.Unlocking?
                              || s.waiter == Returned(false, TimedOut))
    && (s.waiter == Returned(false, TimedOut) ==> s.owner.ByWaiter?)
    && (s.owner.ByCallback? <==> s.caller.AtCondition? || s.caller.AtUnlock?)
    && (s.condition <==> s.caller.AtUnlock? || s.caller.AtSignal? || s.caller.Finished?)
    && (s.success <==> !(s.caller.NotCalled? || s.caller.Copying? || s.caller.AtSuccess?))
    && (s.waiter.Asleep? ==> !s.caller.Finished?)
    && Reasons(s)
  }

  /** What the waiter's outcome, or the reason it woke, says about the callback. */
  predicate Reasons(s: Sync) {
    match s.waiter
    case Waking(how) => Woken(how) && (how.Signalled? ==> s.condition)
    case Rechecking(how) => Woken(how) && (how.Signalled? ==> s.condition)
    case Unlocking(ok, how) => if ok then s.condition && CanSucceed(how) else how.Spurious?
    case Returned(ok, how) => if ok then s.condition && CanSucceed(how) else how.Spurious? || !CanSucceed(how)
    case _ => true
  }

  predicate Woken(how: Wake) {
    how.Signalled? || how.TimedOut? || how.Spurious?
  }

  predicate CanSucceed(how: Wake) {
    how.NotSlept? || how.Signalled? || how.Spurious?
  }

  lemma StepKeeps(s: Sync, m: Move)
    requires Inv(s)
    ensures Inv(Step(s, m))
  {}

  lemma {:induction false} RunKeeps(s: Sync, ms: seq<Move>)
    requires Inv(s)
    ensures Inv(Run(s, ms))
    decreases |ms|
  {
    if ms != [] {
      StepKeeps(s, ms[0]);
      RunKeeps(Step(s, ms[0]), ms[1..]);
    }
  }

  /** No lost wake-up: the waiter never sleeps when the condition is set and the signal already sent. */
  lemma NoLostWakeUp(resp: seq<Byte>, ms: seq<Move>, s: Sync)
    requires s == Run(Begun(resp), ms)
    ensures s.waiter.Asleep? && s.condition ==> s.caller.AtUnlock? || s.caller.AtSignal?
    ensures s.caller.Finished? ==> s.condition && !s.waiter.Asleep?
  {
    RunKeeps(Begun(resp), ms);
  }

  lemma {:induction false} PayloadIsFirstCall(s: Sync, ms: seq<Move>)
    requires |s.resp| == |s.before| && s.caller.NotCalled?
    ensures var r := Run(s, ms); !r.caller.NotCalled? ==> Called(r.payload) in ms
    decreases |ms|
  {
    if ms != [] && !ms[0].Called? {
      PayloadIsFirstCall(Step(s, ms[0]), ms[1..]);
    }
  }

  /** Sound success: after a return of 0 the callback was called, the buffer holds the payload as far as
      both reach, and its rest is untouched. */
  lemma SuccessHasTheResponse(resp: seq<Byte>, ms: seq<Move>, s: Sync)
    requires s == Run(Begun(resp), ms) && s.waiter.Returned? && s.waiter.ok
    ensures |s.resp| == |resp| && s.success
    ensures Called(s.payload) in ms
    ensures var n := Min(|resp|, |s.payload|); s.resp[..n] == s.payload[..n] && s.resp[n..] == resp[n..]
  {
    RunKeeps(Begun(resp), ms);
    PayloadIsFirstCall(Begun(resp), ms);
  }

  /** Why the waiter stopped waiting, as soon as that is settled. */
  function HowOf(w: Waiter): Option<Wake> {
    match w
    case Waking(how) => Some(how)
    case Rechecking(how) => Some(how)
    case Unlocking(_, how) => Some(how)
    case Returned(_, how) => Some(how)
    case _ => None
  }

  /** The move finds the waiter where it can act on it. */
  predicate Acts(s: Sync, m: Move) {
    match m
    case AsyncReturns(_) => s.waiter.InAsync?
    case LockFails => s.waiter.Locking?
    case WakesLate => s.waiter.Asleep?
    case WakesForNothing => s.waiter.Asleep?
    case _ => false
  }

  /** Somewhere in the run the move acts. */
  predicate Strikes(s: Sync, ms: seq<Move>, m: Move)
    requires |s.resp| == |s.before|
    decreases |ms|
  {
    ms != [] && ((ms[0] == m && Acts(s, m)) || Strikes(Step(s, ms[0]), ms[1..], m))
  }

  /** After a spurious wake-up the waiter looks again, and the condition is set. */
  predicate SeesCondition(s: Sync, ms: seq<Move>)
    requires |s.resp| == |s.before|
    decreases |ms|
  {
    && ms != []
    && ((ms[0].WaiterMoves? && s.waiter == Rechecking(Spurious) && s.condition)
        || SeesCondition(Step(s, ms[0]), ms[1..]))
  }

  /** The reason that a move gives when it acts. */
  function ReasonOf(m: Move): Option<Wake> {
    match m
    case WakesLate => Some(TimedOut)
    case WakesForNothing => Some(Spurious)
    case AsyncReturns(ok) => if ok then None else Some(NotSent)
    case LockFails => Some(NoLock)
    case _ => None
  }

  lemma {:induction false} HowIsSettled(s: Sync, ms: seq<Move>, m: Move)
    requires Inv(s) && HowOf(s.waiter).Some? && ReasonOf(m).Some?
    ensures HowOf(Run(s, ms).waiter) == HowOf(s.waiter) && !Strikes(s, ms, m)
    decreases |ms|
  {
    if ms != [] {
      StepKeeps(s, ms[0]);
      HowIsSettled(Step(s, ms[0]), ms[1..], m);
    }
  }

  lemma ReasonActs(s: Sync, l: Move, m: Move)
    requires Inv(s) && HowOf(s.waiter).None? && ReasonOf(m).Some?
    ensures HowOf(Step(s, l).waiter) == ReasonOf(m) <==> l == m && Acts(s, m)
  {}

  /** A reason is given exactly if its move acts somewhere in the run. */
  lemma {:induction false} HowIsWhatStruck(s: Sync, ms: seq<Move>, m: Move)
    requires Inv(s) && HowOf(s.waiter).None? && ReasonOf(m).Some?
    ensures HowOf(Run(s, ms).waiter) == ReasonOf(m) <==> Strikes(s, ms, m)
    decreases |ms|
  {
    if ms != [] {
      var s' := Step(s, ms[0]);
      StepKeeps(s, ms[0]);
      ReasonActs(s, ms[0], m);
      if HowOf(s'.waiter).Some? {
        HowIsSettled(s', ms[1..], m);
      } else {
        HowIsWhatStruck(s', ms[1..], m);
      }
    }
  }

  /** The waiter is past its last look at the condition, and found it set. */
  predicate SawIt(w: Waiter) {
    (w.Unlocking? || w.Returned?) && w.ok
  }

  predicate PastLooking(w: Waiter) {
    w.Unlocking? || w.Returned?
  }

  lemma {:induction false} LookIsSettled(s: Sync, ms: seq<Move>)
    requires |s.resp| == |s.before| && PastLooking(s.waiter)
    ensures SawIt(Run(s, ms).waiter) == SawIt(s.waiter) && PastLooking(Run(s, ms).waiter) && !SeesCondition(s, ms)
    decreases |ms|
  {
    if ms != [] {
      LookIsSettled(Step(s, ms[0]), ms[1..]);
    }
  }

  lemma {:induction false} SpuriousLook(s: Sync, ms: seq<Move>)
    requires Inv(s) && !PastLooking(s.waiter)
    requires Run(s, ms).waiter.Returned? && Run(s, ms).waiter.how.Spurious?
    ensures Run(s, ms).waiter.ok <==> SeesCondition(s, ms)
    decreases |ms|
  {
    var s' := Step(s, ms[0]);
    StepKeeps(s, ms[0]);
    if PastLooking(s'.waiter) {
      LookIsSettled(s', ms[1..]);
      HowIsSettled(s', ms[1..], WakesLate);
    } else {
      SpuriousLook(s', ms[1..]);
    }
  }

  /** The outcome by the reason the waiting ended. */
  lemma OutcomeByReason(resp: seq<Byte>, ms: seq<Move>, s: Sync)
    requires s == Run(Begun(resp), ms) && s.waiter.Returned?
    ensures !CanSucceed(s.waiter.how) ==> !s.waiter.ok
    ensures s.waiter.how.NotSlept? || s.waiter.how.Signalled? ==> s.waiter.ok
    ensures s.waiter.how.Spurious? ==> (s.waiter.ok <==> SeesCondition(Begun(resp), ms))
  {
    RunKeeps(Begun(resp), ms);
    if s.waiter.how.Spurious? {
      SpuriousLook(Begun(resp), ms);
    }
  }

  /** The call returns 0 exactly when the request was sent, the lock taken, the time limit did not
      strike, and the condition was set at the second look, if a spurious wake-up caused one. */
  lemma ReturnsZeroExactlyWhen(resp: seq<Byte>, ms: seq<Move>, s: Sync)
    requires s == Run(Begun(resp), ms) && s.waiter.Returned?
    ensures s.waiter.ok <==>
              && !Strikes(Begun(resp), ms, AsyncReturns(false))
              && !Strikes(Begun(resp), ms, LockFails)
              && !Strikes(Begun(resp), ms, WakesLate)
              && (Strikes(Begun(resp), ms, WakesForNothing) ==> SeesCondition(Begun(resp), ms))
  {
    OutcomeByReason(resp, ms, s);
    HowIsWhatStruck(Begun(resp), ms, AsyncReturns(false));
    HowIsWhatStruck(Begun(resp), ms, LockFails);
    HowIsWhatStruck(Begun(resp), ms, WakesLate);
    HowIsWhatStruck(Begun(resp), ms, WakesForNothing);
  }

  /** Steps the waiter still has to take. */
  function Ahead(w: Waiter): nat {
    match w
    case Locking | Waking(_) => 3
    case Checking | Rechecking(_) => 2
    case Unlocking(_, _) => 1
    case _ => 0
  }

  lemma {:induction false} WaiterGetsOut(s: Sync, n: nat)
    requires Inv(s) && s.caller.Finished? && !s.waiter.InAsync? && n >= Ahead(s.waiter)
    ensures Run(s, seq(n, _ => WaiterMoves)).waiter.Returned?
    ensures s.waiter.Locking? ==> Run(s, seq(n, _ => WaiterMoves)).waiter == Returned(true, NotSlept)
    ensures s.waiter.Checking? ==> Run(s, seq(n, _ => WaiterMoves)).waiter == Returned(true, NotSlept)
    ensures s.waiter.Unlocking? ==> Run(s, seq(n, _ => WaiterMoves)).waiter == Returned(s.waiter.ok, s.waiter.how)
    ensures s.waiter.Returned? ==> Run(s, seq(n, _ => WaiterMoves)).waiter == s.waiter
    decreases n
  {
    if n > 0 {
      assert seq(n, _ => WaiterMoves)[1..] == seq(n - 1, _ => WaiterMoves);
      StepKeeps(s, WaiterMoves);
      WaiterGetsOut(Step(s, WaiterMoves), n - 1);
    }
  }

  /** Once the callback has finished, the waiter is never stuck: three steps of its own take it out. */
  lemma AnsweredCallReturns(resp: seq<Byte>, ms: seq<Move>, s: Sync)
    requires s == Run(Begun(resp), ms) && s.caller.Finished? && !s.waiter.InAsync?
    ensures Run(s, [WaiterMoves, WaiterMoves, WaiterMoves]).waiter.Returned?
  {
    RunKeeps(Begun(resp), ms);
    WaiterGetsOut(s, 3);
    assert seq(3, _ => WaiterMoves) == [WaiterMoves, WaiterMoves, WaiterMoves];
  }

  /** A waiter that times out leaves with the mutex: a callback that has not got it by then never finishes. */
  lemma {:induction false} LateCallbackIsStuck(s: Sync, ms: seq<Move>)
    requires Inv(s) && s.waiter == Returned(false, TimedOut)
    requires !s.caller.AtSignal? && !s.caller.Finished?
    ensures !Run(s, ms).caller.Finished? && !Run(s, ms).condition
    decreases |ms|
  {
    if ms != [] {
      StepKeeps(s, ms[0]);
      LateCallbackIsStuck(Step(s, ms[0]), ms[1..]);
    }
  }

  ghost predicate CallbackCanFinish(s: Sync)
    requires |s.resp| == |s.before|
  {
    exists ms: seq<Move> :: Run(s, ms).caller.Finished?
  }

  lemma OneMore(s: Sync)
    requires |s.resp| == |s.before| && (s.caller.AtSignal? || s.caller.Finished?)
    ensures CallbackCanFinish(s)
  {
    var ms := [CallbackMoves];
    assert ms[1..] == [];
    var s' := Step(s, ms[0]);
    assert Run(s', []) == s' && s'.caller.Finished?;
    assert Run(s, ms) == Run(s', ms[1..]);
  }

  /** After a timeout the callback can still finish exactly if it was past the mutex. */
  lemma FinishesAfterTimeoutIff(s: Sync)
    requires Inv(s) && s.waiter == Returned(false, TimedOut)
    ensures CallbackCanFinish(s) <==> s.caller.AtSignal? || s.caller.Finished?
  {
    if s.caller.AtSignal? || s.caller.Finished? {
      OneMore(s);
    } else {
      forall ms: seq<Move> ensures !Run(s, ms).caller.Finished? {
        LateCallbackIsStuck(s, ms);
      }
    }
  }

  lemma {:induction false} RunSplits(s: Sync, ms: seq<Move>, more: seq<Move>)
    requires |s.resp| == |s.before|
    ensures Run(s, ms + more) == Run(Run(s, ms), more)
    decreases |ms|
  {
    if ms == [] {
      assert ms + more == more;
    } else {
      assert (ms + more)[1..] == ms[1..] + more;
      RunSplits(Step(s, ms[0]), ms[1..], more);
    }
  }

  lemma {:induction false} CopyEnds(s: Sync, k: nat, n: nat)
    requires Inv(s) && s.caller == Copying(k) && n == Wanted(s) + 1 - k
    ensures var t := Run(s, seq(n, _ => CallbackMoves));
            Inv(t) && t.waiter == s.waiter && t.owner == s.owner && t.caller.AtSuccess?
    decreases n
  {
    var s' := Step(s, CallbackMoves);
    StepKeeps(s, CallbackMoves);
    assert seq(n, _ => CallbackMoves)[1..] == seq(n - 1, _ => CallbackMoves);
    if k < Wanted(s) {
      CopyEnds(s', k + 1, n - 1);
    }
  }

  lemma CallbackGetsToSignal(s: Sync)
    requires Inv(s) && s.waiter.Asleep? && s.caller.AtSuccess? && s.owner.Free?
    ensures var t := Run(s, [CallbackMoves, CallbackMoves, CallbackMoves, CallbackMoves]);
            Inv(t) && t.waiter.Asleep? && t.caller.AtSignal? && t.owner.Free?
  {
    RunKeeps(s, [CallbackMoves, CallbackMoves, CallbackMoves, CallbackMoves]);
  }

  lemma WakesTooLate(s: Sync)
    requires Inv(s) && s.waiter.Asleep? && s.caller.AtSignal? && s.owner.Free?
    ensures var t := Run(s, [WakesLate, WaiterMoves, WaiterMoves]);
            Inv(t) && t.waiter == Returned(false, TimedOut) && t.caller.AtSignal?
  {
    RunKeeps(s, [WakesLate, WaiterMoves, WaiterMoves]);
  }

  lemma StrikesInTime(s: Sync)
    requires Inv(s) && s.waiter.Asleep? && s.caller.AtSuccess? && s.owner.Free?
    ensures var t := Run(s, [CallbackMoves, CallbackMoves, CallbackMoves, CallbackMoves]
                            + [WakesLate, WaiterMoves, WaiterMoves]);
            Inv(t) && t.waiter == Returned(false, TimedOut) && t.caller.AtSignal?
  {
    CallbackGetsToSignal(s);
    RunSplits(s, [CallbackMoves, CallbackMoves, CallbackMoves, CallbackMoves], [WakesLate, WaiterMoves, WaiterMoves]);
    WakesTooLate(Run(s, [CallbackMoves, CallbackMoves, CallbackMoves, CallbackMoves]));
  }

  lemma FallsAsleep(resp: seq<Byte>, payload: seq<Byte>)
    ensures var s := Run(Begun(resp), [AsyncReturns(true), WaiterMoves, WaiterMoves, Called(payload)]);
            Inv(s) && s.waiter.Asleep? && s.caller == Copying(0) && s.owner.Free? && s.payload == payload
  {
    var ms := [AsyncReturns(true), WaiterMoves, WaiterMoves, Called(payload)];
    RunKeeps(Begun(resp), ms);
    RunSplits(Begun(resp), [AsyncReturns(true), WaiterMoves, WaiterMoves], [Called(payload)]);
    assert ms == [AsyncReturns(true), WaiterMoves, WaiterMoves] + [Called(payload)];
    var asleep := Run(Begun(resp), [AsyncReturns(true), WaiterMoves, WaiterMoves]);
    assert asleep.waiter.Asleep? && asleep.caller.NotCalled? && asleep.owner.Free?;
    assert Run(asleep, [Called(payload)]) == Step(asleep, Called(payload));
  }

  /** A complete answer does not give 0: for every buffer and payload the time limit can strike when the
      whole response is already in the buffer and the condition is set. */
  lemma TimeoutCanHideTheResponse(resp: seq<Byte>, payload: seq<Byte>) returns (ms: seq<Move>)
    ensures var s, n := Run(Begun(resp), ms), Min(|resp|, |payload|);
            && s.waiter == Returned(false, TimedOut) && s.condition
            && s.payload == payload && s.resp[..n] == payload[..n]
  {
    var start := Begun(resp);
    var first := [AsyncReturns(true), WaiterMoves, WaiterMoves, Called(payload)];
    var s1 := Run(start, first);
    FallsAsleep(resp, payload);
    var copy := seq(Wanted(s1) + 1, _ => CallbackMoves);
    CopyEnds(s1, 0, Wanted(s1) + 1);
    var s2 := Run(s1, copy);
    var last := [CallbackMoves, CallbackMoves, CallbackMoves, CallbackMoves] + [WakesLate, WaiterMoves, WaiterMoves];
    StrikesInTime(s2);
    RunSplits(s1, copy, last);
    RunSplits(start, first, copy + last);
    ms := first + (copy + last);
  }
}
