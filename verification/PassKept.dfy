/** Each step of the pass keeps the invariant of the pass. */
module PassKept {
  import opened TaskTypes
  import opened SubStates
  import opened Protocol
  import opened Lifecycle
  import opened Invariants

  /** What the step of one thread means for the threads that are waited for. */
  lemma Moved(threads: seq<ThreadState>, t: Tid, ts: ThreadState)
    requires t < |threads|
    ensures PendingWake(threads[t := ts]) <== IsWake(ts) || (PendingWake(threads) && !IsWake(threads[t]))
    ensures PendingWake(threads[t := ts]) ==> IsWake(ts) || PendingWake(threads)
    ensures PendingBoot(threads[t := ts]) <== IsBoot(ts) || (PendingBoot(threads) && !IsBoot(threads[t]))
    ensures Owed(threads[t := ts]) <== ts == OwesSignal || (Owed(threads) && threads[t] != OwesSignal)
  {
    var threads' := threads[t := ts];
    assert threads'[t] == ts;
    if PendingWake(threads) && !IsWake(threads[t]) {
      var u :| 0 <= u < |threads| && IsWake(threads[u]);
      assert threads'[u] == threads[u];
    }
    if PendingWake(threads') && !IsWake(ts) {
      var u :| 0 <= u < |threads'| && IsWake(threads'[u]);
      assert threads'[u] == threads[u];
    }
    if PendingBoot(threads) && !IsBoot(threads[t]) {
      var u :| 0 <= u < |threads| && IsBoot(threads[u]);
      assert threads'[u] == threads[u];
    }
    if Owed(threads) && threads[t] != OwesSignal {
      var u :| 0 <= u < |threads| && threads[u] == OwesSignal;
      assert threads'[u] == threads[u];
    }
  }

  lemma BeginKept(s: State, t: Tid)
    requires PassInv(s) && InPhase(s, t, Beginning)
    ensures PassInv(BeginStep(s, t))
  {
  }

  lemma LockRunKept(s: State, t: Tid)
    requires PassInv(s) && InPhase(s, t, WantRun) && s.runMutex.None?
    ensures PassInv(Continue(s, TestingAbort).(runMutex := Some(t)))
  {
  }

  lemma RunResetKept(s: State, t: Tid)
    requires PassInv(s) && InPhase(s, t, TestingAbort)
    requires s.pass.frame.state == Reset || (s.pass.frame.state == Initialize && s.sub.aborted)
    ensures PassInv(RunState(s, Reset, Returning))
  {
  }

  lemma CallInitializeKept(s: State, t: Tid)
    requires PassInv(s) && InPhase(s, t, TestingAbort) && s.pass.frame.state == Initialize && !s.sub.aborted
    ensures PassInv(Logged(RunState(s, Initialize, InUser), InitializeImpl))
  {
  }

  lemma CallMultiplexKept(s: State, t: Tid)
    requires PassInv(s) && InPhase(s, t, TestingAbort) && s.pass.frame.state == Multiplex && !s.sub.aborted
    requires !s.pass.frame.waiting
    ensures PassInv(Logged(RunState(s, Multiplex, InUser), MultiplexImpl(s.pass.frame.runState)))
  {
  }

  lemma RunWaitingKept(s: State, t: Tid)
    requires PassInv(s) && InPhase(s, t, TestingAbort) && s.pass.frame.state == Multiplex && !s.sub.aborted
    requires s.pass.frame.waiting
    ensures PassInv(RunState(s, Multiplex, WantEvaluate))
  {
  }

  lemma CallAbortKept(s: State, t: Tid)
    requires PassInv(s) && InPhase(s, t, TestingAbort)
    requires s.pass.frame.state == Abort || (s.pass.frame.state == Multiplex && s.sub.aborted)
    ensures PassInv(Logged(RunState(s, Abort, InUser), AbortImpl))
  {
  }

  lemma RunLateKept(s: State, t: Tid)
    requires PassInv(s) && InPhase(s, t, TestingAbort) && s.pass.frame.state in {Finish, Callback}
    ensures PassInv(RunState(s, s.pass.frame.state, Preparing))
  {
  }

  lemma LeakKept(s: State, t: Tid)
    requires PassInv(s) && InPhase(s, t, TestingAbort) && s.pass.frame.state == Killed
    ensures PassInv(LeakStep(s, t))
  {
    Moved(s.threads, t, AfterState(s.pass.frame.after));
  }

  lemma CallFinishKept(s: State, t: Tid)
    requires PassInv(s) && InPhase(s, t, Running(Preparing)) && s.pass.frame.state == Finish
    ensures PassInv(Logged(Continue(s.(sub := s.sub.(reset := false)), Running(InUser)), FinishImpl))
  {
  }

  lemma CallCallbackKept(s: State, t: Tid)
    requires PassInv(s) && InPhase(s, t, Running(Preparing)) && s.pass.frame.state == Callback
    ensures PassInv(Logged(Continue(s, Running(InUser)), CallbackCall(!s.sub.aborted)))
  {
  }

  lemma WaitKept(s: State, t: Tid, c: Mask)
    requires PassInv(s) && InPhase(s, t, Running(InUser)) && s.pass.frame.state == Multiplex && c <= OR_CONDITIONS
    ensures PassInv(Continue(s.(sub := Wait(s.sub, c)), Running(Returning)))
  {
  }

  lemma YieldKept(s: State, t: Tid, target: Handler)
    requires PassInv(s) && InPhase(s, t, Running(InUser)) && s.pass.frame.state == Multiplex
    requires target != Immediate && (target != Idle || s.defaultHandler != Immediate)
    ensures PassInv(s.(targetHandler := target, yielding := true))
  {
  }

  lemma TargetKept(s: State, t: Tid, target: Handler)
    requires PassInv(s) && InPhase(s, t, Running(InUser)) && Legal(s, Target(target))
    ensures PassInv(s.(targetHandler := target))
  {
  }

  lemma FinishKept(s: State, t: Tid)
    requires PassInv(s) && InPhase(s, t, Running(InUser)) && s.pass.frame.state == Multiplex
    ensures PassInv(Continue(s.(sub := FinishSub(s.sub)), Running(Returning)))
  {
  }

  lemma SelfSignalKept(s: State, t: Tid, c: Mask)
    requires PassInv(s) && InPhase(s, t, Running(InUser))
    ensures PassInv(s.(sub := Signal(s.sub, c)))
  {
  }

  lemma SetStateKept(s: State, t: Tid, n: nat)
    requires PassInv(s) && InPhase(s, t, Running(InUser))
    ensures PassInv(s.(sub := s.sub.(runState := n)))
  {
  }

  lemma RerunKept(s: State, t: Tid, d: Option<Handler>)
    requires PassInv(s) && InPhase(s, t, Running(InUser)) && Legal(s, Rerun(d))
    ensures PassInv(Continue(if d.Some? then s.(defaultHandler := d.value) else s, Running(WantReadState)))
  {
  }

  lemma KillKept(s: State, t: Tid)
    requires PassInv(s) && InPhase(s, t, Running(InUser)) && s.pass.frame.state == Callback
    ensures PassInv(s.(sub := s.sub.(reset := false)))
  {
  }

  lemma LeaveUserKept(s: State, t: Tid, p: RunPhase)
    requires PassInv(s) && InPhase(s, t, Running(InUser))
    requires p == WantSelfAbort || p == Returning || (p == WantInstall && s.pass.frame.state == Multiplex && !s.holds)
    ensures PassInv(Continue(s, Running(p)))
  {
  }

  lemma AbortSelfKept(s: State, t: Tid)
    requires PassInv(s) && InPhase(s, t, Running(WantSelfAbort))
    ensures PassInv(Continue(AbortFlags(s), Running(InUser)))
  {
  }
  lemma ReadStateKept(s: State, t: Tid)
    requires PassInv(s) && InPhase(s, t, Running(WantReadState))
    ensures PassInv(Continue(s, Running(Resetting)))
  {
  }
  lemma ResetKept(s: State, t: Tid)
    requires PassInv(s) && InPhase(s, t, Running(Resetting))
    ensures PassInv(ResetInsideStep(s))
  {
  }
  lemma InstallKept(s: State, t: Tid)
    requires PassInv(s) && InPhase(s, t, Running(WantInstall))
    ensures PassInv(Continue(s.(mux := s.mux.(waitCondition := true)), Running(UntilWait)))
  {
  }
  lemma UntilWaitKept(s: State, t: Tid)
    requires PassInv(s) && InPhase(s, t, Running(UntilWait))
    ensures PassInv(Continue(s.(sub := Wait(s.sub, s.watched)), Running(Returning)))
  {
  }
  lemma EvaluateKept(s: State, t: Tid)
    requires PassInv(s) && InPhase(s, t, Running(WantEvaluate))
    ensures PassInv(EvaluateStep(s, t))
  {
  }
  lemma WaitAgainKept(s: State, t: Tid)
    requires PassInv(s) && InPhase(s, t, Running(WaitAgain))
    ensures PassInv(Continue(s.(sub := Wait(s.sub, s.watched), stateMutex := None), Running(Returning)))
  {
  }
  lemma WakeUpKept(s: State, t: Tid)
    requires PassInv(s) && InPhase(s, t, Running(Waking))
    ensures PassInv(Continue(s.(sub := s.sub.(idle := {}), stateMutex := None), Running(Returning)))
  {
  }
  lemma UnlockRunKept(s: State, t: Tid)
    requires PassInv(s) && InPhase(s, t, Running(Returning))
    ensures PassInv(Continue(s, WantState).(runMutex := None))
  {
  }
  lemma LockStateKept(s: State, t: Tid)
    requires PassInv(s) && InPhase(s, t, WantState) && s.stateMutex.None?
    ensures PassInv(Continue(s, Deciding).(stateMutex := Some(t)))
  {
  }
  lemma DecideKept(s: State, t: Tid)
    requires PassInv(s) && InPhase(s, t, Deciding)
    ensures PassInv(DecideStep(s, t))
  {
    var f := s.pass.frame;
    if f.event == NormalRun && f.state in {Reset, Initialize} {
      DecideEarlyKept(s, t);
    } else if f.event == NormalRun && f.state == Multiplex {
      DecideMultiplexKept(s, t);
    } else if f.event == NormalRun && f.state in {Abort, Finish} {
      DecideLateKept(s, t);
    } else if f.event == NormalRun {
      DecideCallbackKept(s, t);
    } else {
      DecideEventKept(s, t);
    }
  }

  lemma DecideEarlyKept(s: State, t: Tid)
    requires PassInv(s) && InPhase(s, t, Deciding)
    requires s.pass.frame.event == NormalRun && s.pass.frame.state in {Reset, Initialize}
    ensures PassInv(DecideStep(s, t))
  {
  }

  lemma DecideMultiplexKept(s: State, t: Tid)
    requires PassInv(s) && InPhase(s, t, Deciding)
    requires s.pass.frame.event == NormalRun && s.pass.frame.state == Multiplex
    ensures PassInv(DecideStep(s, t))
  {
  }

  lemma DecideLateKept(s: State, t: Tid)
    requires PassInv(s) && InPhase(s, t, Deciding)
    requires s.pass.frame.event == NormalRun && s.pass.frame.state in {Abort, Finish}
    ensures PassInv(DecideStep(s, t))
  {
  }

  lemma DecideCallbackKept(s: State, t: Tid)
    requires PassInv(s) && InPhase(s, t, Deciding)
    requires s.pass.frame.event == NormalRun && s.pass.frame.state == Callback
    ensures PassInv(DecideStep(s, t))
  {
  }

  lemma DecideEventKept(s: State, t: Tid)
    requires PassInv(s) && InPhase(s, t, Deciding) && s.pass.frame.event != NormalRun
    ensures PassInv(DecideStep(s, t))
  {
  }

  lemma CheckKept(s: State, t: Tid)
    requires PassInv(s) && InPhase(s, t, Checking)
    ensures PassInv(CheckStep(s, t))
  {
    if s.sub.needRun {
      CheckPassed(s, t);
    } else {
      CheckFailed(s, t);
    }
  }

  lemma CheckPassed(s: State, t: Tid)
    requires PassInv(s) && InPhase(s, t, Checking) && s.sub.needRun
    ensures PassInv(CheckStep(s, t))
  {
  }

  lemma CheckFailed(s: State, t: Tid)
    requires PassInv(s) && InPhase(s, t, Checking) && !s.sub.needRun
    ensures PassInv(CheckStep(s, t))
  {
    Moved(s.threads, t, AfterState(s.pass.frame.after));
  }

  lemma CloseKept(s: State, t: Tid)
    requires PassInv(s) && InPass(s, t) && s.pass.phase.Closing?
    ensures PassInv(CloseStep(s, t))
  {
    if KeepLooping(s) {
      LoopKept(s, t);
    } else {
      LeaveKept(s, t);
    }
  }

  lemma LoopKept(s: State, t: Tid)
    requires PassInv(s) && InPass(s, t) && s.pass.phase.Closing? && KeepLooping(s)
    ensures PassInv(CloseStep(s, t))
  {
  }

  lemma LeaveKept(s: State, t: Tid)
    requires PassInv(s) && InPass(s, t) && s.pass.phase.Closing? && !KeepLooping(s)
    ensures PassInv(CloseStep(s, t))
  {
    Moved(s.threads, t, AfterState(s.pass.frame.after));
  }

  lemma LockEngineKept(s: State, t: Tid, mutexes: map<EngineId, Tid>)
    requires PassInv(s) && InPass(s, t)
    ensures PassInv(s.(engineMutexes := mutexes))
  {
  }
}
