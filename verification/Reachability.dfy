/** The invariant holds in every reachable state. */
module Reachability {
  import opened TaskTypes
  import opened SubStates
  import opened Protocol
  import opened Invariants
  import opened PassKept
  import opened ThreadKept
  import opened ThreadsKept
  import opened Moves

  /** What the invariant says about one thread. */
  lemma ThreadFacts(s: State, t: Tid)
    requires ProtocolInv(s) && IsThread(s, t)
    ensures s.pass == NoPass <==> s.multiplexMutex == None
    ensures s.threads[t] == Inside <==> Holder(s) == Some(t)
    ensures EntryOk(s.threads[t], s.history.life, Doomed(s))
    ensures InFirstRun(s.threads[t]) ==>
      s.history.runCalled && !s.history.booted && s.history.life <= 1 && (IsBoot(s.threads[t]) <==> s.history.life == 1)
    ensures !s.history.runCalled ==> s.history.life == 0 && !s.history.booted
    ensures RunnersOk(s.threads, s.history)
  {
  }

  /** What the invariant says about the end of a pass. */
  lemma LeaveFacts(s: State, t: Tid)
    requires ProtocolInv(s) && InPass(s, t)
    ensures Holder(s) == Some(t) && s.history.booted
    ensures EntryOk(AfterState(s.pass.frame.after), s.history.life, Doomed(s))
  {
  }

  /** What the invariant says about the state that the pass runs. */
  lemma PassFacts(s: State)
    requires ProtocolInv(s) && s.pass.Pass?
    ensures s.targetHandler != Immediate
    ensures s.pass.phase == Running(Preparing) ==> s.pass.frame.state == Finish || s.pass.frame.state == Callback
  {
  }

  lemma CallKept(s: State, t: Tid, a: Action)
    requires ProtocolInv(s) && CanCall(s, t, a)
    ensures ProtocolInv(DoCall(s, t, a))
  {
    hide PassInv, ThreadInv, RunnersOk;
    ThreadFacts(s, t);
    if a.CallMainloop? {
      QuietKept(s, t, DoCall(s, t, a).threads[t], s.engineLists, DoCall(s, t, a).loopers, s.engineMutexes);
      MainloopKept(s, t, a.engine);
    } else {
      OtherCallKept(s, t, a);
      OutsideKept(s, DoCall(s, t, a), t, DoCall(s, t, a).threads[t]);
    }
  }

  lemma OtherCallKept(s: State, t: Tid, a: Action)
    requires PassInv(s) && CanCall(s, t, a) && !a.CallMainloop?
    ensures PassInv(DoCall(s, t, a))
  {
    hide PassInv;
    match a
    case CallRun(h) => FirstRunKept(s, t, h);
    case CallMultiplex(h) => QuietKept(s, t, Entering(NormalRun, h, Return), s.engineLists, s.loopers, s.engineMutexes);
    case CallSignal(c) => SignalKept(s, t, c);
    case CallAbort => QuietKept(s, t, WantAbort, s.engineLists, s.loopers, s.engineMutexes);
    case SetPredicate(b) =>
      if b {
        PredicateTrueKept(s, t);
      } else {
        PredicateFalseKept(s, t);
      }
  }

  lemma ThreadStepKept(s: State, t: Tid, a: Action)
    requires ProtocolInv(s) && CanThread(s, t, a)
    ensures ProtocolInv(ThreadStep(s, t, a))
  {
    hide PassInv, ThreadInv, RunnersOk;
    match a
    case ReadState => RunStepKept(s, t, a);
    case ResetOutside => RunStepKept(s, t, a);
    case Enter => EnterKept(s, t);
    case AbortSection => AbortStepKept(s, t, a);
    case JoinRun => AbortStepKept(s, t, a);
    case PaySignal(c) =>
      ThreadFacts(s, t);
      SignalKept(s, t, c);
      OutsideKept(s, SignalStep(s, t, c), t, SignalStep(s, t, c).threads[t]);
    case TestActive => ElementStepKept(s, t, a);
    case TakeEngine => ElementStepKept(s, t, a);
    case LeaveEngine => ElementStepKept(s, t, a);
  }

  /** The steps of mainloop. */
  lemma ElementStepKept(s: State, t: Tid, a: Action)
    requires ProtocolInv(s) && CanThread(s, t, a) && (a.TestActive? || a.TakeEngine? || a.LeaveEngine?)
    ensures ProtocolInv(ThreadStep(s, t, a))
  {
    hide PassInv, ThreadInv;
    var s' := ThreadStep(s, t, a);
    QuietKept(s, t, s'.threads[t], s'.engineLists, s'.loopers, s'.engineMutexes);
    match a
    case TestActive => TestKept(s, t);
    case TakeEngine => TakeEngineKept(s, t);
    case LeaveEngine => LeaveEngineKept(s, t);
  }

  lemma RunStepKept(s: State, t: Tid, a: Action)
    requires ProtocolInv(s) && CanThread(s, t, a) && (a.ReadState? || a.ResetOutside?)
    ensures ProtocolInv(ThreadStep(s, t, a))
  {
    hide PassInv, ThreadInv, RunnersOk;
    ThreadFacts(s, t);
    if a.ReadState? {
      QuietKept(s, t, WantReset, s.engineLists, s.loopers, s.engineMutexes);
    } else {
      ResetOutsideKept(s, t);
    }
    OutsideKept(s, ThreadStep(s, t, a), t, ThreadStep(s, t, a).threads[t]);
  }

  lemma AbortStepKept(s: State, t: Tid, a: Action)
    requires ProtocolInv(s) && CanThread(s, t, a) && (a.AbortSection? || a.JoinRun?)
    ensures ProtocolInv(ThreadStep(s, t, a))
  {
    hide PassInv, ThreadInv, RunnersOk;
    ThreadFacts(s, t);
    if a.AbortSection? {
      AbortKept(s, t);
    } else {
      JoinKept(s, t);
    }
    OutsideKept(s, ThreadStep(s, t, a), t, ThreadStep(s, t, a).threads[t]);
  }

  lemma EnterKept(s: State, t: Tid)
    requires ProtocolInv(s) && CanThread(s, t, Enter)
    ensures ProtocolInv(EnterStep(s, t))
  {
    if TurnedAway(s, s.threads[t].event, s.threads[t].handler) {
      TurnedAwayKept(s, t);
    } else {
      LetInKept(s, t);
    }
  }

  lemma TurnedAwayKept(s: State, t: Tid)
    requires ProtocolInv(s) && CanThread(s, t, Enter) && TurnedAway(s, s.threads[t].event, s.threads[t].handler)
    ensures ProtocolInv(EnterStep(s, t))
  {
    hide PassInv, ThreadInv, RunnersOk;
    ThreadFacts(s, t);
    TurnAwayKept(s, t);
    OutsideKept(s, EnterStep(s, t), t, AfterState(s.threads[t].after));
  }

  lemma LetInKept(s: State, t: Tid)
    requires ProtocolInv(s) && CanThread(s, t, Enter) && !TurnedAway(s, s.threads[t].event, s.threads[t].handler)
    ensures ProtocolInv(EnterStep(s, t))
  {
    hide PassInv, ThreadInv, RunnersOk;
    ThreadFacts(s, t);
    AdmitKept(s, t);
    AdmittedKept(s, t);
  }

  lemma UserKept(s: State, t: Tid, c: UserCall)
    requires PassInv(s) && CanPass(s, t, User(c)) && s.targetHandler != Immediate
    ensures PassInv(UserStep(s, c))
  {
    hide PassInv;
    match c
    case SetState(n) => SetStateKept(s, t, n);
    case CallWait(conditions) => WaitKept(s, t, conditions);
    case CallWaitUntil =>
      if !s.holds {
        LeaveUserKept(s, t, WantInstall);
      }
    case CallFinish => FinishKept(s, t);
    case Yield => YieldKept(s, t, s.targetHandler);
    case YieldTo(h) => YieldKept(s, t, h);
    case Target(h) => TargetKept(s, t, h);
    case SelfSignal(condition) => SelfSignalKept(s, t, condition);
    case SelfAbort => LeaveUserKept(s, t, WantSelfAbort);
    case Rerun(d) => RerunKept(s, t, d);
    case Kill => KillKept(s, t);
    case ReturnFromImpl => LeaveUserKept(s, t, Returning);
  }

  lemma RunKept(s: State, t: Tid)
    requires PassInv(s) && InPhase(s, t, TestingAbort) && s.pass.frame.state != Killed
    ensures PassInv(TestAbortStep(s, t))
  {
    hide PassInv;
    match LateState(s.pass.frame.state, s.sub.aborted)
    case Reset => RunResetKept(s, t);
    case Initialize => CallInitializeKept(s, t);
    case Multiplex =>
      if s.pass.frame.waiting {
        RunWaitingKept(s, t);
      } else {
        CallMultiplexKept(s, t);
      }
    case Abort => CallAbortKept(s, t);
    case Finish => RunLateKept(s, t);
    case Callback => RunLateKept(s, t);
  }

  lemma CheckStepKept(s: State, t: Tid)
    requires ProtocolInv(s) && InPhase(s, t, Checking)
    ensures ProtocolInv(CheckStep(s, t))
  {
    hide PassInv, ThreadInv, RunnersOk;
    LeaveFacts(s, t);
    CheckKept(s, t);
    if s.sub.needRun {
      InPassKept(s, CheckStep(s, t));
    } else {
      LeavePassKept(s, CheckStep(s, t), t);
    }
  }

  lemma CloseStepKept(s: State, t: Tid)
    requires ProtocolInv(s) && InPass(s, t) && s.pass.phase.Closing?
    ensures ProtocolInv(CloseStep(s, t))
  {
    hide PassInv, ThreadInv, RunnersOk;
    LeaveFacts(s, t);
    CloseKept(s, t);
    if KeepLooping(s) {
      InPassKept(s, CloseStep(s, t));
    } else {
      LeavePassKept(s, CloseStep(s, t), t);
    }
  }

  lemma LeakStepKept(s: State, t: Tid)
    requires ProtocolInv(s) && InPhase(s, t, TestingAbort) && s.pass.frame.state == Killed
    ensures ProtocolInv(LeakStep(s, t))
  {
    hide PassInv, ThreadInv, RunnersOk;
    LeaveFacts(s, t);
    LeakKept(s, t);
    LeavePassKept(s, LeakStep(s, t), t);
  }

  lemma UserStepKept(s: State, t: Tid, c: UserCall)
    requires ProtocolInv(s) && CanPass(s, t, User(c))
    ensures ProtocolInv(UserStep(s, c))
  {
    hide PassInv, ThreadInv, UserStep;
    PassFacts(s);
    UserKept(s, t, c);
    UserFrame(s, c);
    InPassKept(s, UserStep(s, c));
  }

  /** What no call of user code changes. */
  lemma UserFrame(s: State, c: UserCall)
    requires s.pass.Pass? && s.pass.phase == Running(InUser)
    ensures var s' := UserStep(s, c);
      && s'.threads == s.threads && s'.multiplexMutex == s.multiplexMutex && s'.loopers == s.loopers
      && s'.engineLists == s.engineLists && s'.mux == s.mux && s'.history == s.history
      && s'.pass.Pass? && s'.pass.phase != Leaked && s'.pass.frame == s.pass.frame
      && (Doomed(s) ==> Doomed(s'))
  {
  }

  lemma TestAbortKept(s: State, t: Tid)
    requires ProtocolInv(s) && InPhase(s, t, TestingAbort)
    ensures ProtocolInv(TestAbortStep(s, t))
  {
    hide PassInv, ThreadInv, TestAbortStep;
    if s.pass.frame.state == Killed {
      LeakStepKept(s, t);
      assert TestAbortStep(s, t) == LeakStep(s, t) by {
        KilledLeaks(s, t);
      }
    } else {
      RunKept(s, t);
      RunFrame(s, t);
      InPassKept(s, TestAbortStep(s, t));
    }
  }

  lemma TopStepKept(s: State, t: Tid, a: Action)
    requires ProtocolInv(s) && CanPass(s, t, a) && (a.Begin? || a.LockRun? || a.Prepare?)
    ensures ProtocolInv(PassStep(s, t, a))
  {
    hide PassInv, ThreadInv;
    PassFacts(s);
    InPassKept(s, PassStep(s, t, a));
    match a
    case Begin => BeginKept(s, t);
    case LockRun => LockRunKept(s, t);
    case Prepare =>
      if s.pass.frame.state == Finish {
        CallFinishKept(s, t);
      } else {
        CallCallbackKept(s, t);
      }
  }

  lemma PassStepKept(s: State, t: Tid, a: Action)
    requires ProtocolInv(s) && CanPass(s, t, a)
    ensures ProtocolInv(PassStep(s, t, a))
  {
    hide PassInv, ThreadInv;
    if a.Check? {
      CheckStepKept(s, t);
    } else if a.Close? {
      CloseStepKept(s, t);
    } else if a.User? {
      UserStepKept(s, t, a.call);
    } else if a.TestAbort? {
      TestAbortKept(s, t);
    } else if a.Begin? || a.LockRun? || a.Prepare? {
      TopStepKept(s, t, a);
    } else if OfWaitCondition(a) {
      ConditionStepKept(s, t, a);
    } else {
      InnerStepKept(s, t, a);
    }
  }

  /** The other steps change the sub-state or the locks only. */
  lemma InnerStepKept(s: State, t: Tid, a: Action)
    requires ProtocolInv(s) && CanPass(s, t, a)
    requires a.AbortSelf? || a.ReadStateInside? || a.ResetInside? || a.UnlockRun? || a.LockState? || a.Decide?
             || a.LockEngine?
    ensures ProtocolInv(PassStep(s, t, a))
  {
    hide PassInv, ThreadInv;
    LeaveFacts(s, t);
    InPassKept(s, PassStep(s, t, a));
    match a
    case AbortSelf => AbortSelfKept(s, t);
    case ReadStateInside => ReadStateKept(s, t);
    case ResetInside => ResetKept(s, t);
    case UnlockRun => UnlockRunKept(s, t);
    case LockState => LockStateKept(s, t);
    case Decide => DecideKept(s, t);
    case LockEngine => LockEngineKept(s, t, s.engineMutexes[AddsTo(s).value := t]);
  }

  /** The steps of wait_until, and of a pass that tests the wait condition. */
  lemma ConditionStepKept(s: State, t: Tid, a: Action)
    requires ProtocolInv(s) && CanPass(s, t, a)
    requires OfWaitCondition(a)
    ensures ProtocolInv(PassStep(s, t, a))
  {
    hide PassInv, ThreadInv, SubStates.Wait;
    LeaveFacts(s, t);
    WaitFacts(s.sub, s.watched);
    InPassKept(s, PassStep(s, t, a));
    match a
    case Install => InstallKept(s, t);
    case UntilWaitSection => UntilWaitKept(s, t);
    case Evaluate => EvaluateKept(s, t);
    case WaitAgainSection => WaitAgainKept(s, t);
    case WakeUp => WakeUpKept(s, t);
  }

  lemma WaitFacts(s: SubState, c: Mask)
    ensures Wait(s, c).aborted == s.aborted && Wait(s, c).finished == s.finished
  {
  }

  lemma StepKept(s: State, t: Tid, a: Action)
    requires Inv(s) && Can(s, t, a)
    ensures Inv(Step(s, t, a))
  {
    hide ProtocolInv, EngineLocks;
    LocksKept(s, t, a);
    if CanCall(s, t, a) {
      CallKept(s, t, a);
    } else if CanThread(s, t, a) {
      ThreadStepKept(s, t, a);
    } else {
      PassStepKept(s, t, a);
    }
  }

  lemma InitInv(s: State)
    requires Init(s)
    ensures Inv(s)
  {
  }

  lemma {:induction false} RunInv(run: seq<State>, i: nat)
    requires IsRun(run) && i < |run|
    ensures Inv(run[i])
  {
    hide ProtocolInv, EngineLocks;
    if i == 0 {
      InitInv(run[0]);
    } else {
      RunInv(run, i - 1);
      assert Next(run[i - 1], run[i]);
      var t, a :| Can(run[i - 1], t, a) && run[i] == Step(run[i - 1], t, a);
      StepKept(run[i - 1], t, a);
    }
  }

  lemma ExtendRun(run: seq<State>, t: Tid, a: Action)
    requires IsRun(run) && Can(run[|run| - 1], t, a)
    ensures IsRun(run + [Step(run[|run| - 1], t, a)])
  {
    hide Can, Step, Init;
    var s' := Step(run[|run| - 1], t, a);
    var run' := run + [s'];
    forall i | 0 < i < |run'| ensures Next(run'[i - 1], run'[i]) {
      if i < |run| {
        assert run'[i - 1] == run[i - 1] && run'[i] == run[i];
      }
    }
  }

  /** A step from a reachable state leads to a reachable state. */
  lemma ReachableStep(s: State, t: Tid, a: Action)
    requires Reachable(s) && Can(s, t, a)
    ensures Reachable(Step(s, t, a))
  {
    hide Can, Step, Init, Next;
    var run :| IsRun(run) && run[|run| - 1] == s;
    ExtendRun(run, t, a);
    var run' := run + [Step(s, t, a)];
    assert IsRun(run') && run'[|run'| - 1] == Step(s, t, a);
  }

  lemma ReachableInv(s: State)
    requires Reachable(s)
    ensures Inv(s)
  {
    hide ProtocolInv, EngineLocks;
    var run :| IsRun(run) && run[|run| - 1] == s;
    RunInv(run, |run| - 1);
  }
}
