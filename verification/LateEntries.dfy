/** Calls of multiplex() for a wake-up that was used up already: the task has left bs_multiplex since. */
module LateEntries {
  import opened TaskTypes
  import opened SubStates
  import opened Protocol
  import opened Invariants
  import opened Reachability
  import opened Moves
  import opened TaskTheorems
  import opened RunTheorems

  // ---- How need_run comes to be set ----

  predicate IsSignal(a: Action) {
    a.CallSignal? || a.PaySignal? || (a.User? && a.call.SelfSignal?)
  }

  function ConditionsOf(a: Action): Mask
    requires IsSignal(a)
  {
    match a
    case CallSignal(c) => c
    case PaySignal(c) => c
    case User(SelfSignal(c)) => c
  }

  /** Is need_run set after a step that finds it clear? */
  predicate Requests(s: State, a: Action) {
    IsAbort(a) || Resets(a) || (IsSignal(a) && Wakes(s.sub, ConditionsOf(a)))
  }

  /** need_run gets set by abort(), by reset(), and by a signal that wakes up the task, and by nothing else. */
  lemma WhatSetsNeedRun(s: State, t: Tid, a: Action)
    requires Can(s, t, a) && !s.sub.needRun
    ensures Step(s, t, a).sub.needRun <==> Requests(s, a)
  {
    hide SubStates.SignalMasks, Wakes;
    if CanCall(s, t, a) {
      CallRequests(s, t, a);
    } else if CanThread(s, t, a) {
      ThreadRequests(s, t, a);
    } else {
      PassRequests(s, t, a);
    }
  }

  lemma SignalRequests(s: SubState, c: Mask)
    ensures Signal(s, c).needRun <==> s.needRun || Wakes(s, c)
  {
  }

  lemma CallRequests(s: State, t: Tid, a: Action)
    requires CanCall(s, t, a) && !s.sub.needRun
    ensures DoCall(s, t, a).sub.needRun <==> Requests(s, a)
  {
    if a.CallSignal? {
      SignalRequests(s.sub, a.condition);
    }
    hide SubStates.Signal, Wakes;
  }

  lemma ThreadRequests(s: State, t: Tid, a: Action)
    requires CanThread(s, t, a) && !s.sub.needRun
    ensures ThreadStep(s, t, a).sub.needRun <==> Requests(s, a)
  {
    if a.PaySignal? {
      SignalRequests(s.sub, a.condition);
    }
    hide SubStates.Signal, Wakes;
  }

  lemma PassRequests(s: State, t: Tid, a: Action)
    requires CanPass(s, t, a) && !s.sub.needRun
    ensures PassStep(s, t, a).sub.needRun <==> Requests(s, a)
  {
    hide PassStep, CanPass, Requests;
    if a.TestAbort? {
      TestAbortRequests(s, t);
    } else if a.User? {
      UserRequests(s, t, a.call);
    } else if OfWaitCondition(a) {
      ConditionRequests(s, t, a);
    } else if IsLocking(a) {
      LockingRequests(s, t, a);
    } else if a.AbortSelf? || a.ResetInside? {
      FlagsRequest(s, t, a);
    } else {
      OthersRequestNothing(s, t, a);
    }
  }

  lemma LockingRequests(s: State, t: Tid, a: Action)
    requires CanPass(s, t, a) && IsLocking(a)
    ensures PassStep(s, t, a).sub.needRun == s.sub.needRun && !Requests(s, a)
  {
    LockingOnly(s, t, a);
    hide PassStep, CanPass;
  }

  lemma FlagsRequest(s: State, t: Tid, a: Action)
    requires CanPass(s, t, a) && (a.AbortSelf? || a.ResetInside?)
    ensures PassStep(s, t, a).sub.needRun && Requests(s, a)
  {
  }

  lemma OthersRequestNothing(s: State, t: Tid, a: Action)
    requires CanPass(s, t, a) && !s.sub.needRun && !a.TestAbort? && !a.User? && !OfWaitCondition(a) && !IsLocking(a)
    requires !a.AbortSelf? && !a.ResetInside?
    ensures !PassStep(s, t, a).sub.needRun && !Requests(s, a)
  {
    if a.Close? {
      CloseRequestsNothing(s, t);
    } else if a.Check? {
      assert CheckStep(s, t).sub == s.sub;
    } else if a.Decide? {
      assert DecideStep(s, t).sub == s.sub;
    }
  }

  lemma CloseRequestsNothing(s: State, t: Tid)
    requires InPass(s, t) && s.pass.phase.Closing? && !s.sub.needRun
    ensures !CloseStep(s, t).sub.needRun
  {
  }

  lemma TestAbortRequests(s: State, t: Tid)
    requires CanPass(s, t, TestAbort)
    ensures PassStep(s, t, TestAbort).sub == s.sub && !Requests(s, TestAbort)
  {
    if s.pass.frame.state == Killed {
      KilledLeaks(s, t);
    } else {
      RunFrame(s, t);
      hide TestAbortStep;
    }
  }

  lemma UserRequests(s: State, t: Tid, c: UserCall)
    requires CanPass(s, t, User(c)) && !s.sub.needRun
    ensures PassStep(s, t, User(c)).sub.needRun <==> Requests(s, User(c))
  {
    if c.SelfSignal? {
      SignalRequests(s.sub, c.condition);
    }
    hide SubStates.Signal, Wakes;
  }

  lemma ConditionRequests(s: State, t: Tid, a: Action)
    requires CanPass(s, t, a) && OfWaitCondition(a) && !s.sub.needRun
    ensures !PassStep(s, t, a).sub.needRun && !Requests(s, a)
  {
  }

  /** Outside bs_multiplex only abort() and reset() set need_run, as long as no insert_abort of an earlier life was
      let in. */
  lemma WhatSetsNeedRunLate(s: State, t: Tid, a: Action)
    requires Reachable(s) && Can(s, t, a) && s.mux.baseState != Multiplex && !s.sub.needRun && !s.history.stale
    ensures Step(s, t, a).sub.needRun <==> IsAbort(a) || Resets(a)
  {
    hide Reachable, Can, Step;
    assert s.sub.idle == {} by {
      ReachableInv(s);
    }
    WhatSetsNeedRun(s, t, a);
  }

  // ---- A late schedule_run of a task that was not killed ----

  /** The pass is a schedule_run, and the task has left bs_multiplex. */
  predicate IsLate(s: State) {
    && s.pass.Pass? && s.pass.phase != Leaked && s.pass.frame.event == ScheduleRun
    && s.mux.baseState != Multiplex && s.mux.baseState != Killed
  }

  /** Then the task is in a handler already, and that is where it goes. */
  predicate LateOk(s: State) {
    IsLate(s) ==>
      && s.mux.currentHandler != Idle && s.mux.currentHandler != Immediate
      && (s.targetHandler == Idle || s.targetHandler == s.mux.currentHandler)
  }

  lemma LateKept(s: State, t: Tid, a: Action)
    requires Inv(s) && LateOk(s) && Can(s, t, a)
    ensures LateOk(Step(s, t, a))
  {
    hide Inv;
    if CanCall(s, t, a) {
      CallAside(s, t, a);
      hide DoCall, CanCall;
    } else if CanThread(s, t, a) {
      if a.Enter? {
        LateEnters(s, t);
      } else {
        LateAside(s, t, a);
      }
    } else {
      LatePassKept(s, t, a);
    }
  }

  lemma LateAside(s: State, t: Tid, a: Action)
    requires CanThread(s, t, a) && !a.Enter? && LateOk(s)
    ensures LateOk(ThreadStep(s, t, a))
  {
    if !a.TakeEngine? && !a.LeaveEngine? {
      SamePass(s, t, a);
      hide ThreadStep;
    }
  }

  lemma SamePass(s: State, t: Tid, a: Action)
    requires CanThread(s, t, a) && !a.Enter?
    ensures var s' := ThreadStep(s, t, a);
      s'.pass == s.pass && s'.mux == s.mux && s'.targetHandler == s.targetHandler
  {
  }

  /** Outside bs_multiplex a task that nobody runs is in a handler. */
  lemma LateEnters(s: State, t: Tid)
    requires Inv(s) && CanThread(s, t, Enter) && LateOk(s)
    ensures LateOk(EnterStep(s, t))
  {
    assert s.threads[t].event == ScheduleRun ==> IsWake(s.threads[t]);
    assert s.threads[t].event == ScheduleRun ==> s.history.booted;
  }

  lemma LatePassKept(s: State, t: Tid, a: Action)
    requires Inv(s) && CanPass(s, t, a) && LateOk(s)
    ensures LateOk(PassStep(s, t, a))
  {
    if s.pass.frame.event == ScheduleRun {
      LateSteps(s, t, a);
    } else {
      EventStays(s, t, a);
      hide PassStep;
    }
  }

  lemma EventStays(s: State, t: Tid, a: Action)
    requires Inv(s) && CanPass(s, t, a) && s.pass.frame.event != ScheduleRun
    ensures PassStep(s, t, a).pass.Pass? ==> PassStep(s, t, a).pass.frame.event != ScheduleRun
  {
    hide Inv;
    if a.TestAbort? && s.pass.frame.state == Killed {
      KilledLeaks(s, t);
    } else if a.TestAbort? {
      hide LeakStep;
    } else if OfWaitCondition(a) {
      ConditionEvent(s, t, a);
    } else if a.User? {
      UserEvent(s, a.call);
    } else if IsLocking(a) {
      LockingOnly(s, t, a);
      hide PassStep;
    }
  }

  lemma ConditionEvent(s: State, t: Tid, a: Action)
    requires CanPass(s, t, a) && OfWaitCondition(a)
    ensures PassStep(s, t, a).pass.Pass? && PassStep(s, t, a).pass.frame == s.pass.frame
  {
    hide SubStates.Wait;
  }

  lemma UserEvent(s: State, c: UserCall)
    requires s.pass.Pass?
    ensures UserStep(s, c).pass.Pass? && UserStep(s, c).pass.frame == s.pass.frame
  {
  }

  /** The steps of a schedule_run: it runs nothing itself, and its decision leaves the base state alone. */
  lemma LateSteps(s: State, t: Tid, a: Action)
    requires Inv(s) && CanPass(s, t, a) && s.pass.frame.event == ScheduleRun && LateOk(s)
    ensures LateOk(PassStep(s, t, a))
  {
  }

  lemma {:induction false} RunLateOk(run: seq<State>, i: nat)
    requires IsRun(run) && i < |run|
    ensures Inv(run[i]) && LateOk(run[i])
  {
    hide Can, Step, Inv, LateOk, Reachable;
    RunInv(run, i);
    if i == 0 {
      assert LateOk(run[0]) by {
        InitLateOk(run[0]);
      }
    } else {
      RunLateOk(run, i - 1);
      var t, a := StepOfRun(run, i - 1);
      LateKept(run[i - 1], t, a);
    }
  }

  lemma InitLateOk(s: State)
    requires Init(s)
    ensures LateOk(s)
  {
  }

  lemma ReachableLateOk(s: State)
    requires Reachable(s)
    ensures Inv(s) && LateOk(s)
  {
    hide Inv, LateOk;
    var run :| IsRun(run) && run[|run| - 1] == s;
    RunLateOk(run, |run| - 1);
  }

  /** A schedule_run that is let in when the task has left bs_multiplex, and was not killed, does no harm: none of its
      steps calls user code, changes the base state, the handler or the list of an engine, or anything in the sub-state
      but need_run, which begin_loop clears; and a handler has the task, which stays there. */
  lemma LateScheduleRun(s: State, t: Tid, a: Action)
    requires Reachable(s) && IsLate(s) && CanPass(s, t, a)
    ensures DoesNoHarm(s, a, PassStep(s, t, a)) && Queued(s)
  {
    ReachableLateOk(s);
    if a.Close? {
      LateCloses(s, t);
    } else if a.Decide? {
      LateDecides(s, t);
    } else {
      assert a.Check? || a.Begin? || a.LockState?;
      hide Inv;
      LateBegins(s, t, a);
    }
  }

  predicate DoesNoHarm(s: State, a: Action, s': State)
    requires s.pass.Pass?
  {
    && s'.mux == s.mux && s'.engineLists == s.engineLists && s'.history.calls == s.history.calls
    && s'.sub == (if a.Begin? then BeginLoop(s.sub) else s.sub)
    && (a.Close? ==> s'.pass == NoPass && s'.engineMutexes == s.engineMutexes)
  }

  lemma LateCloses(s: State, t: Tid)
    requires Inv(s) && LateOk(s) && IsLate(s) && CanPass(s, t, Close)
    ensures DoesNoHarm(s, Close, CloseStep(s, t))
  {
    assert s.pass.phase.needNewRun && !s.yielding;
    hide Inv;
    assert NextHandler(s) == s.mux.currentHandler;
  }

  lemma LateDecides(s: State, t: Tid)
    requires IsLate(s) && CanPass(s, t, Decide)
    ensures DoesNoHarm(s, Decide, DecideStep(s, t))
  {
  }

  lemma LateBegins(s: State, t: Tid, a: Action)
    requires CanPass(s, t, a) && (a.Check? || a.Begin? || a.LockState?)
    ensures DoesNoHarm(s, a, PassStep(s, t, a))
  {
  }

  // ---- A late multiplex() of a killed task ----

  /** A pass that runs a killed task: it stands between the test of need_run and the return from bs_killed. */
  predicate RunsKilled(s: State, t: Tid) {
    && s.mux.baseState == Killed && s.multiplexMutex == Some(t) && s.pass.Pass?
    && match s.pass.phase
       case Beginning => s.pass.frame.event != NormalRun
       case WantState => s.pass.frame.event != NormalRun
       case Deciding => s.pass.frame.event != NormalRun
       case Closing(needNewRun, _) => needNewRun && s.pass.frame.event != NormalRun
       case WantRun => true
       case TestingAbort => true
       case Leaked => true
       case _ => false
  }

  /** Where the task will run next: immediately, in the thread that runs it. */
  predicate RunsAtOnce(s: State) {
    && s.targetHandler == Idle && s.defaultHandler == Immediate && !s.yielding
    && s.mux.currentHandler == (if s.pass.Pass? && s.pass.frame.event == NormalRun then Immediate else Idle)
  }

  predicate GoesOnKilled(s: State, t: Tid) {
    RunsKilled(s, t) && (s.pass.phase == Leaked || RunsAtOnce(s))
  }

  lemma RunsKilledKept(s: State, t: Tid, u: Tid, a: Action)
    requires Inv(s) && Can(s, u, a) && GoesOnKilled(s, t)
    ensures GoesOnKilled(Step(s, u, a), t)
  {
    assert CanPass(s, u, a) ==> u == t;
    hide CanThread, ThreadStep, PassStep, CanPass, CanCall, DoCall;
    if CanCall(s, u, a) {
      CallAside(s, u, a);
      assert s.history.runCalled;
    } else if CanThread(s, u, a) {
      OutsideGoesOn(s, t, u, a);
    } else {
      KilledPassGoesOn(s, u, a);
    }
  }

  lemma OutsideGoesOn(s: State, t: Tid, u: Tid, a: Action)
    requires CanThread(s, u, a) && GoesOnKilled(s, t)
    ensures GoesOnKilled(ThreadStep(s, u, a), t)
  {
    if !a.TakeEngine? && !a.LeaveEngine? {
      ThreadAside(s, u, a);
      hide ThreadStep;
    }
  }

  lemma KilledPassGoesOn(s: State, t: Tid, a: Action)
    requires Inv(s) && CanPass(s, t, a) && GoesOnKilled(s, t)
    ensures GoesOnKilled(PassStep(s, t, a), t)
  {
    if a.TestAbort? {
      KilledPassLeaks(s, t);
    } else if a.Decide? {
      KilledPassDecides(s, t);
    } else if a.Close? {
      KilledPassCloses(s, t);
    } else {
      hide Inv;
      KilledPassLocks(s, t, a);
    }
  }

  lemma KilledPassLeaks(s: State, t: Tid)
    requires Inv(s) && CanPass(s, t, TestAbort) && GoesOnKilled(s, t)
    ensures GoesOnKilled(TestAbortStep(s, t), t)
  {
    assert s.pass.frame.state == Killed;
    KilledLeaks(s, t);
    hide Inv, TestAbortStep;
  }

  lemma KilledPassDecides(s: State, t: Tid)
    requires CanPass(s, t, Decide) && GoesOnKilled(s, t)
    ensures GoesOnKilled(DecideStep(s, t), t)
  {
  }

  lemma KilledPassCloses(s: State, t: Tid)
    requires CanPass(s, t, Close) && GoesOnKilled(s, t)
    ensures GoesOnKilled(CloseStep(s, t), t)
  {
    assert KeepLooping(s);
  }

  lemma KilledPassLocks(s: State, t: Tid, a: Action)
    requires CanPass(s, t, a) && GoesOnKilled(s, t) && !a.TestAbort? && !a.Decide? && !a.Close?
    ensures GoesOnKilled(PassStep(s, t, a), t)
  {
    if a.Begin? {
      KilledPassBegins(s, t);
    } else {
      assert a.LockRun? || a.LockState?;
    }
  }

  lemma KilledPassBegins(s: State, t: Tid)
    requires InPhase(s, t, Beginning) && GoesOnKilled(s, t)
    ensures GoesOnKilled(BeginStep(s, t), t)
  {
  }

  /** A schedule_run that is let in for a killed task, whose handler is immediate, never unlocks mMultiplexMutex if
      need_run is set, and unlocks it at once if need_run is not set. */
  lemma NeverUnlocked(run: seq<State>, i: nat, j: nat, t: Tid)
    requires IsRun(run) && i < j < |run| && InPhase(run[i], t, Checking) && run[i].mux.baseState == Killed
    requires RunsAtOnce(run[i]) && run[i + 1] == CheckStep(run[i], t)
    ensures run[i].sub.needRun ==> run[j].multiplexMutex == Some(t)
    ensures !run[i].sub.needRun ==> run[i + 1].multiplexMutex == None
  {
    if run[i].sub.needRun {
      RunInv(run, i);
      RunsKilledOn(run, i + 1, j, t);
    }
  }

  lemma {:induction false} RunsKilledOn(run: seq<State>, i: nat, j: nat, t: Tid)
    requires IsRun(run) && i <= j < |run| && GoesOnKilled(run[i], t)
    ensures GoesOnKilled(run[j], t)
    decreases j
  {
    hide Can, Step, Inv, Reachable, GoesOnKilled;
    if i < j {
      RunsKilledOn(run, i, j - 1, t);
      var u, a := StepOfRun(run, j - 1);
      RunsKilledKept(run[j - 1], t, u, a);
    }
  }

  /** A killed task that was handed over to an engine or to the thread pool. */
  predicate IsHandedOver(s: State) {
    s.mux.baseState == Killed && s.mux.currentHandler != Idle && s.mux.currentHandler != Immediate
  }

  lemma KilledOrHandedOver(s: State, t: Tid, u: Tid, a: Action)
    requires Inv(s) && Can(s, u, a) && RunsKilled(s, t)
    ensures var s' := Step(s, u, a); RunsKilled(s', t) || IsHandedOver(s')
  {
    assert CanPass(s, u, a) ==> u == t;
    hide CanThread, ThreadStep, PassStep, CanPass, CanCall, DoCall;
    if CanCall(s, u, a) {
      CallAside(s, u, a);
    } else if CanThread(s, u, a) {
      OutsideRunsKilled(s, t, u, a);
    } else {
      PassRunsKilled(s, u, a);
    }
  }

  lemma OutsideRunsKilled(s: State, t: Tid, u: Tid, a: Action)
    requires CanThread(s, u, a) && RunsKilled(s, t)
    ensures RunsKilled(ThreadStep(s, u, a), t)
  {
    if !a.TakeEngine? && !a.LeaveEngine? {
      ThreadAside(s, u, a);
      hide ThreadStep;
    }
  }

  lemma PassRunsKilled(s: State, t: Tid, a: Action)
    requires Inv(s) && CanPass(s, t, a) && RunsKilled(s, t)
    ensures RunsKilled(PassStep(s, t, a), t) || IsHandedOver(PassStep(s, t, a))
  {
    if a.TestAbort? {
      TestAbortRunsKilled(s, t);
    } else if a.Decide? {
      hide Inv;
      DecideRunsKilled(s, t);
    } else if a.Close? {
      CloseRunsKilled(s, t);
    } else {
      hide Inv;
      LocksRunKilled(s, t, a);
    }
  }

  lemma TestAbortRunsKilled(s: State, t: Tid)
    requires Inv(s) && CanPass(s, t, TestAbort) && RunsKilled(s, t)
    ensures RunsKilled(TestAbortStep(s, t), t)
  {
    assert s.pass.frame.state == Killed;
    KilledLeaks(s, t);
    hide Inv, TestAbortStep;
  }

  lemma DecideRunsKilled(s: State, t: Tid)
    requires CanPass(s, t, Decide) && RunsKilled(s, t)
    ensures RunsKilled(DecideStep(s, t), t)
  {
  }

  lemma CloseRunsKilled(s: State, t: Tid)
    requires Inv(s) && CanPass(s, t, Close) && RunsKilled(s, t)
    ensures RunsKilled(CloseStep(s, t), t) || IsHandedOver(CloseStep(s, t))
  {
    assert s.defaultHandler != Idle && !s.yielding;
    hide Inv;
    if !KeepLooping(s) {
      assert NextHandler(s) != Immediate && NextHandler(s) != Idle;
    }
  }

  lemma LocksRunKilled(s: State, t: Tid, a: Action)
    requires CanPass(s, t, a) && RunsKilled(s, t) && !a.TestAbort? && !a.Decide? && !a.Close?
    ensures RunsKilled(PassStep(s, t, a), t)
  {
    if a.Begin? {
      assert RunsKilled(BeginStep(s, t), t);
    } else {
      assert IsLocking(a);
    }
  }

  /** A pass that runs a killed task holds mMultiplexMutex for ever, or hands the task over to an engine or to the
      thread pool. */
  lemma {:induction false} LockedOrHandedOver(run: seq<State>, i: nat, j: nat, t: Tid)
    requires IsRun(run) && i <= j < |run| && RunsKilled(run[i], t)
    ensures RunsKilled(run[j], t) || exists k :: i < k <= j && IsHandedOver(run[k])
    decreases j
  {
    hide Can, Step, Inv, Reachable, RunsKilled, IsHandedOver;
    if i < j {
      LockedOrHandedOver(run, i, j - 1, t);
      if RunsKilled(run[j - 1], t) {
        var u, a := StepOfRun(run, j - 1);
        KilledOrHandedOver(run[j - 1], t, u, a);
      }
    }
  }

  /** A pass of normal_run that was let in for a killed task. */
  predicate RunsKilledInHandler(s: State, t: Tid) {
    && s.mux.baseState == Killed && s.multiplexMutex == Some(t) && s.pass.Pass?
    && match s.pass.phase
       case Beginning => s.pass.frame.event == NormalRun
       case WantRun => true
       case TestingAbort => true
       case Leaked => true
       case _ => false
  }

  lemma InHandlerKept(s: State, t: Tid, u: Tid, a: Action)
    requires Inv(s) && Can(s, u, a) && RunsKilledInHandler(s, t)
    ensures RunsKilledInHandler(Step(s, u, a), t)
  {
    assert CanPass(s, u, a) ==> u == t;
    hide CanThread, ThreadStep, PassStep, CanPass, CanCall, DoCall;
    if CanCall(s, u, a) {
      CallAside(s, u, a);
    } else if CanThread(s, u, a) {
      OutsideInHandler(s, t, u, a);
    } else {
      PassInHandler(s, u, a);
    }
  }

  lemma OutsideInHandler(s: State, t: Tid, u: Tid, a: Action)
    requires CanThread(s, u, a) && RunsKilledInHandler(s, t)
    ensures RunsKilledInHandler(ThreadStep(s, u, a), t)
  {
    if !a.TakeEngine? && !a.LeaveEngine? {
      ThreadAside(s, u, a);
      hide ThreadStep;
    }
  }

  lemma PassInHandler(s: State, t: Tid, a: Action)
    requires Inv(s) && CanPass(s, t, a) && RunsKilledInHandler(s, t)
    ensures RunsKilledInHandler(PassStep(s, t, a), t)
  {
    if a.TestAbort? {
      TestAbortInHandler(s, t);
    } else {
      hide Inv;
      LocksInHandler(s, t, a);
    }
  }

  lemma TestAbortInHandler(s: State, t: Tid)
    requires Inv(s) && CanPass(s, t, TestAbort) && RunsKilledInHandler(s, t)
    ensures RunsKilledInHandler(TestAbortStep(s, t), t)
  {
    assert s.pass.frame.state == Killed;
    KilledLeaks(s, t);
    hide Inv, TestAbortStep;
  }

  lemma LocksInHandler(s: State, t: Tid, a: Action)
    requires CanPass(s, t, a) && RunsKilledInHandler(s, t) && !a.TestAbort?
    ensures RunsKilledInHandler(PassStep(s, t, a), t)
  {
    if a.Begin? {
      assert RunsKilledInHandler(BeginStep(s, t), t);
    } else {
      assert IsLocking(a);
    }
  }

  /** And when the handler then runs the task, the pass never unlocks mMultiplexMutex: the next multiplex(normal_run)
      that is let in for a killed task leaks it. */
  lemma {:induction false} NextNormalRunLeaks(run: seq<State>, i: nat, j: nat, t: Tid)
    requires IsRun(run) && i < j < |run| && CanThread(run[i], t, Enter) && run[i + 1] == EnterStep(run[i], t)
    requires run[i].mux.baseState == Killed && run[i].threads[t].event == NormalRun
    requires !TurnedAway(run[i], NormalRun, run[i].threads[t].handler)
    ensures run[j].multiplexMutex == Some(t) && RunsKilledInHandler(run[j], t)
    decreases j
  {
    hide Can, Step, Inv, Reachable;
    if i + 1 < j {
      NextNormalRunLeaks(run, i, j - 1, t);
      var u, a := StepOfRun(run, j - 1);
      hide RunsKilledInHandler;
      InHandlerKept(run[j - 1], t, u, a);
      InHandlerHolds(run[j], t);
    }
  }

  lemma InHandlerHolds(s: State, t: Tid)
    requires RunsKilledInHandler(s, t)
    ensures s.multiplexMutex == Some(t)
  {
  }
}
