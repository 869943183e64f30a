/** Properties of whole runs of a task: what cannot happen between two states of a run. */
module RunTheorems {
  import opened TaskTypes
  import opened SubStates
  import opened Protocol
  import opened Lifecycle
  import opened Invariants
  import opened Reachability
  import opened Moves
  import opened TaskTheorems

  lemma RunReachable(run: seq<State>, i: nat)
    requires IsRun(run) && i < |run|
    ensures Reachable(run[i])
  {
    hide Next, Init;
    var run' := run[..i + 1];
    assert IsRun(run') && run'[|run'| - 1] == run[i];
  }

  // ---- Which step calls user code ----

  /** The function that a step calls, if any. */
  function CallOf(s: State, a: Action): Option<Call> {
    if !s.pass.Pass? then None
    else match a
      case TestAbort =>
        var state := LateState(s.pass.frame.state, s.sub.aborted);
        if state != Killed && StartOf(state, s.pass.frame.waiting) == InUser then
          Some(ImplOf(state, s.pass.frame.runState))
        else None
      case Prepare => Some(if s.pass.frame.state == Finish then FinishImpl else CallbackCall(!s.sub.aborted))
      case _ => None
  }

  /** The calls and the progress of a step that calls c, or none. */
  predicate Grows(h: History, h': History, c: Option<Call>) {
    if c.Some? then h'.calls == h.calls + [c.value] && h'.progress == Advance(h.progress, c.value)
    else h'.calls == h.calls && h'.progress == h.progress
  }

  lemma CallsGrow(s: State, t: Tid, a: Action)
    requires Can(s, t, a)
    ensures Grows(s.history, Step(s, t, a).history, CallOf(s, a))
  {
    if CanCall(s, t, a) {
      CallGrows(s, t, a);
    } else if CanThread(s, t, a) {
      ThreadGrows(s, t, a);
    } else {
      PassGrows(s, t, a);
    }
  }

  lemma CallGrows(s: State, t: Tid, a: Action)
    requires CanCall(s, t, a)
    ensures Grows(s.history, DoCall(s, t, a).history, None)
  {
  }

  lemma ThreadGrows(s: State, t: Tid, a: Action)
    requires CanThread(s, t, a)
    ensures Grows(s.history, ThreadStep(s, t, a).history, None)
  {
  }

  lemma PassGrows(s: State, t: Tid, a: Action)
    requires CanPass(s, t, a)
    ensures Grows(s.history, PassStep(s, t, a).history, CallOf(s, a))
  {
    if a.TestAbort? {
      TestAbortGrows(s, t);
    } else if a.User? {
      assert UserStep(s, a.call).history == s.history;
    } else if a.Close? {
      assert CloseStep(s, t).history == s.history;
    } else if OfWaitCondition(a) {
      ConditionGrows(s, t, a);
    } else if IsLocking(a) {
      LockingOnly(s, t, a);
      hide PassStep, CanPass;
    }
  }

  lemma ConditionGrows(s: State, t: Tid, a: Action)
    requires CanPass(s, t, a) && OfWaitCondition(a)
    ensures PassStep(s, t, a).history == s.history && CallOf(s, a) == None
  {
    hide SubStates.Wait;
  }

  lemma TestAbortGrows(s: State, t: Tid)
    requires InPhase(s, t, TestingAbort)
    ensures Grows(s.history, TestAbortStep(s, t).history, CallOf(s, TestAbort))
  {
    if s.pass.frame.state == Killed {
      KilledLeaks(s, t);
    } else {
      RunGrows(s, t);
    }
  }

  lemma RunGrows(s: State, t: Tid)
    requires InPhase(s, t, TestingAbort) && s.pass.frame.state != Killed
    ensures Grows(s.history, TestAbortStep(s, t).history, CallOf(s, TestAbort))
  {
    var state := LateState(s.pass.frame.state, s.sub.aborted);
    var at := StartOf(state, s.pass.frame.waiting);
    assert state != Killed && RunState(s, state, at).history == s.history;
    hide LeakStep, StartOf, ImplOf, LateState, RunState;
  }

  // ---- Which step changes what ----

  predicate Resets(a: Action) {
    a.ResetInside? || a.ResetOutside?
  }

  predicate IsAbort(a: Action) {
    a.AbortSection? || a.AbortSelf?
  }

  predicate IsWait(a: Action) {
    (a.User? && a.call.CallWait?) || a.UntilWaitSection? || a.WaitAgainSection?
  }

  predicate Effect(s: State, a: Action, s': State) {
    && s'.history.life == (if Resets(a) then s.history.life + 1 else s.history.life)
    && (s.history.barrier && !Resets(a) ==> s'.history.barrier)
    && (s.sub.aborted ==> (!s'.sub.aborted <==> (IsAbort(a) && s.sub.finished) || Resets(a)))
    && (s.sub.idle == {} && !IsWait(a) ==> s'.sub.idle == {})
    && (s.mux.waitCondition && !s'.mux.waitCondition ==> a.Evaluate? && s.holds)
    && (s'.mux.baseState != s.mux.baseState ==> a.Decide?)
  }

  lemma StepEffect(s: State, t: Tid, a: Action)
    requires Can(s, t, a)
    ensures Effect(s, a, Step(s, t, a))
  {
    if CanCall(s, t, a) {
      CallEffect(s, t, a);
    } else if CanThread(s, t, a) {
      ThreadEffect(s, t, a);
    } else {
      PassEffect(s, t, a);
    }
  }

  lemma CallEffect(s: State, t: Tid, a: Action)
    requires CanCall(s, t, a)
    ensures Effect(s, a, DoCall(s, t, a))
  {
  }

  lemma ThreadEffect(s: State, t: Tid, a: Action)
    requires CanThread(s, t, a)
    ensures Effect(s, a, ThreadStep(s, t, a))
  {
    if a.Enter? {
      EnterEffect(s, t);
    }
  }

  lemma EnterEffect(s: State, t: Tid)
    requires CanThread(s, t, Enter)
    ensures Effect(s, Enter, EnterStep(s, t))
  {
  }

  lemma PassEffect(s: State, t: Tid, a: Action)
    requires CanPass(s, t, a)
    ensures Effect(s, a, PassStep(s, t, a))
  {
    if a.TestAbort? {
      TestAbortEffect(s, t);
    } else if a.User? {
      UserEffect(s, a.call);
    } else if a.Close? {
      CloseEffect(s, t);
    } else if OfWaitCondition(a) {
      ConditionEffect(s, t, a);
    } else if IsLocking(a) {
      LockingOnly(s, t, a);
      hide PassStep, CanPass;
    } else {
      FlagsEffect(s, t, a);
    }
  }

  lemma FlagsEffect(s: State, t: Tid, a: Action)
    requires CanPass(s, t, a)
    requires a.Check? || a.Begin? || a.Prepare? || a.Decide? || a.AbortSelf? || a.ResetInside?
    ensures Effect(s, a, PassStep(s, t, a))
  {
    if a.Decide? {
      DecideEffect(s, t);
    } else if a.Check? {
      CheckEffect(s, t);
    }
  }

  lemma DecideEffect(s: State, t: Tid)
    requires CanPass(s, t, Decide)
    ensures Effect(s, Decide, DecideStep(s, t))
  {
    hide Decision;
  }

  lemma CheckEffect(s: State, t: Tid)
    requires CanPass(s, t, Check)
    ensures Effect(s, Check, CheckStep(s, t))
  {
  }

  lemma ConditionEffect(s: State, t: Tid, a: Action)
    requires CanPass(s, t, a) && OfWaitCondition(a)
    ensures Effect(s, a, PassStep(s, t, a))
  {
    WaitFacts(s.sub, s.watched);
    hide SubStates.Wait;
  }

  lemma TestAbortEffect(s: State, t: Tid)
    requires InPhase(s, t, TestingAbort)
    ensures Effect(s, TestAbort, TestAbortStep(s, t))
  {
  }

  lemma UserEffect(s: State, c: UserCall)
    requires s.pass.Pass?
    ensures Effect(s, User(c), UserStep(s, c))
  {
  }

  lemma CloseEffect(s: State, t: Tid)
    requires InPass(s, t) && s.pass.phase.Closing?
    ensures Effect(s, Close, CloseStep(s, t))
  {
  }

  lemma {:induction false} ProgressIsReplay(run: seq<State>, i: nat)
    requires IsRun(run) && i < |run|
    ensures run[i].history.progress == Replay(run[i].history.calls)
  {
    hide Can, Step;
    if i == 0 {
    } else {
      ProgressIsReplay(run, i - 1);
      assert Next(run[i - 1], run[i]);
      var t, a :| Can(run[i - 1], t, a) && run[i] == Step(run[i - 1], t, a);
      CallsGrow(run[i - 1], t, a);
      if CallOf(run[i - 1], a).Some? {
        ReplayOneMore(run[i - 1].history.calls, CallOf(run[i - 1], a).value);
      }
    }
  }

  /** Whatever the interleaving, the calls consist of whole lives in the right order and of a last,
      unfinished one, which has not begun when the task is in bs_reset or was killed. */
  lemma LifecycleOrder(s: State) returns (lives: seq<seq<Call>>, last: seq<Call>)
    requires Reachable(s)
    ensures InLives(s.history.calls, lives, last, s.history.progress)
    ensures s.mux.baseState == Reset || s.mux.baseState == Killed ==> last == []
  {
    var run :| IsRun(run) && run[|run| - 1] == s;
    ProgressIsReplay(run, |run| - 1);
    assert s.history.progress != Wrong && (s.mux.baseState in {Reset, Killed} ==> s.history.progress == Fresh) by {
      ReachableInv(s);
    }
    lives, last := LivesOf(s.history.calls);
  }

  // ---- abort() is a barrier ----

  predicate EntersTask(c: Call) {
    c.InitializeImpl? || c.MultiplexImpl?
  }

  /** Some thread is inside initialize_impl or multiplex_impl. */
  predicate InsideTask(s: State) {
    s.pass.Pass? && s.pass.phase.Running? && s.pass.frame.state in {Initialize, Multiplex}
  }

  lemma BarrierHolds(s: State, t: Tid, a: Action)
    requires Inv(s) && Can(s, t, a) && s.history.barrier
    ensures CallOf(s, a).Some? ==> !EntersTask(CallOf(s, a).value)
  {
  }

  /** The step that leads from one state of a run to the next. */
  lemma StepOfRun(run: seq<State>, i: nat) returns (t: Tid, a: Action)
    requires IsRun(run) && i + 1 < |run|
    ensures Can(run[i], t, a) && run[i + 1] == Step(run[i], t, a)
    ensures Inv(run[i]) && Reachable(run[i])
    ensures Effect(run[i], a, run[i + 1]) && Grows(run[i].history, run[i + 1].history, CallOf(run[i], a))
  {
    hide Can, Step, Inv, Reachable, Effect, Grows;
    RunInv(run, i);
    RunReachable(run, i);
    assert Next(run[i], run[i + 1]);
    t, a :| Can(run[i], t, a) && run[i + 1] == Step(run[i], t, a);
    StepEffect(run[i], t, a);
    CallsGrow(run[i], t, a);
  }

  lemma {:induction false} LifeGrows(run: seq<State>, i: nat, j: nat)
    requires IsRun(run) && i <= j < |run|
    ensures run[i].history.life <= run[j].history.life
    ensures run[i].history.calls <= run[j].history.calls
    decreases j
  {
    hide Can, Step, Inv, Reachable;
    if i < j {
      LifeGrows(run, i, j - 1);
      var t, a := StepOfRun(run, j - 1);
    }
  }

  lemma BarrierIsOutside(s: State)
    requires Inv(s) && s.history.barrier
    ensures !InsideTask(s)
  {
  }

  /** Once abort() has returned to a thread that does not run the task, no thread is inside initialize_impl
      or multiplex_impl, and none enters them, until the next reset(). */
  lemma {:induction false} AbortIsBarrier(run: seq<State>, i: nat, j: nat)
    requires IsRun(run) && i <= j < |run|
    requires run[i].history.barrier && run[j].history.life == run[i].history.life
    ensures run[j].history.barrier && !InsideTask(run[j])
    ensures run[i].history.calls <= run[j].history.calls
    ensures forall k | |run[i].history.calls| <= k < |run[j].history.calls| :: !EntersTask(run[j].history.calls[k])
    decreases j
  {
    hide Can, Step, Reachable, Inv;
    if i < j {
      LifeGrows(run, i, j - 1);
      LifeGrows(run, j - 1, j);
      AbortIsBarrier(run, i, j - 1);
      var t, a := StepOfRun(run, j - 1);
      BarrierHolds(run[j - 1], t, a);
    }
    RunInv(run, j);
    BarrierIsOutside(run[j]);
  }

  /** The life in which a thread that is still inside abort() called it. */
  function AbortOf(s: State, t: Tid): Option<nat> {
    if t >= |s.threads| then None
    else if s.threads[t] == Inside then
      if s.pass.Pass? && s.pass.frame.after.Join? then Some(s.pass.frame.after.life) else None
    else JoinLife(s.threads[t])
  }

  lemma AbortGoesOn(s: State, u: Tid, a: Action, t: Tid)
    requires Inv(s) && Can(s, u, a) && AbortOf(s, t).Some? && !(u == t && a.JoinRun?)
    ensures AbortOf(Step(s, u, a), t) == AbortOf(s, t)
  {
    hide Inv, AbortOf, CanCall, CanThread, CanPass, DoCall, ThreadStep, PassStep;
    InsideHolds(s, t);
    if CanCall(s, u, a) {
      AbortGoesOnCall(s, u, a, t);
    } else if CanThread(s, u, a) {
      AbortGoesOnOutside(s, u, a, t);
    } else {
      AbortGoesOnInside(s, u, a, t);
    }
  }

  lemma InsideHolds(s: State, t: Tid)
    requires Inv(s) && AbortOf(s, t).Some?
    ensures IsThread(s, t) && (s.threads[t] == Inside ==> Holder(s) == Some(t))
  {
    ThreadFacts(s, t);
  }

  lemma AbortGoesOnCall(s: State, u: Tid, a: Action, t: Tid)
    requires CanCall(s, u, a) && AbortOf(s, t).Some?
    ensures AbortOf(DoCall(s, u, a), t) == AbortOf(s, t)
  {
    assert DoCall(s, u, a).threads[t] == s.threads[t] && DoCall(s, u, a).pass == s.pass;
  }

  lemma AbortGoesOnOutside(s: State, u: Tid, a: Action, t: Tid)
    requires CanThread(s, u, a) && AbortOf(s, t).Some? && !(u == t && a.JoinRun?)
    requires s.threads[t] == Inside ==> Holder(s) == Some(t)
    ensures AbortOf(ThreadStep(s, u, a), t) == AbortOf(s, t)
  {
    if a.Enter? {
      AbortGoesOnAtEntry(s, u, t);
    } else {
      assert ThreadStep(s, u, a).pass == s.pass;
    }
  }

  lemma AbortGoesOnAtEntry(s: State, u: Tid, t: Tid)
    requires CanThread(s, u, Enter) && AbortOf(s, t).Some?
    requires s.threads[t] == Inside ==> Holder(s) == Some(t)
    ensures AbortOf(EnterStep(s, u), t) == AbortOf(s, t)
  {
  }

  lemma AbortGoesOnInside(s: State, u: Tid, a: Action, t: Tid)
    requires CanPass(s, u, a) && AbortOf(s, t).Some?
    requires s.threads[t] == Inside ==> Holder(s) == Some(t)
    ensures AbortOf(PassStep(s, u, a), t) == AbortOf(s, t)
  {
    assert InPass(s, u);
    hide CanPass, PassStep;
    PassMoves(s, u, a);
  }

  /** A thread that called abort() when the task was started, and returned from it in the same life, returned behind
      the barrier. */
  lemma {:induction false} AbortReturnsBehindBarrier(run: seq<State>, i: nat, j: nat, t: Tid)
    requires IsRun(run) && i < j < |run| && IsThread(run[i], t) && run[i].threads[t] == WantAbort
    requires run[i].history.life > 0 && run[j].history.life == run[i].history.life
    requires run[i + 1] == AbortStep(run[i], t)
    ensures AbortOf(run[j], t) == Some(run[i].history.life) || run[j].history.barrier
    ensures At(run[j], t, Outside) ==> run[j].history.barrier
    decreases j
  {
    hide Can, Step, Inv, Reachable;
    if i + 1 < j {
      LifeGrows(run, i, j - 1);
      LifeGrows(run, j - 1, j);
      AbortReturnsBehindBarrier(run, i, j - 1, t);
      var u, a := StepOfRun(run, j - 1);
      if !run[j - 1].history.barrier {
        if u == t && a.JoinRun? {
          JoinRaises(run[j - 1], t);
        } else {
          AbortGoesOn(run[j - 1], u, a, t);
        }
      }
    }
  }

  lemma JoinRaises(s: State, t: Tid)
    requires Can(s, t, JoinRun) && AbortOf(s, t) == Some(s.history.life) && s.history.life > 0
    ensures Step(s, t, JoinRun).history.barrier
  {
  }

  // ---- A wake-up leads to a full run ----

  /** No pass that runs multiplex_impl, or tests the wait condition, is before the end of that, where it can go idle. */
  predicate CannotWait(s: State) {
    s.pass.Pass? && s.pass.phase.Running? && s.pass.phase.at != Returning ==>
      && s.pass.frame.state != Multiplex
      && s.pass.phase.at !in {WantInstall, UntilWait, WantEvaluate, WaitAgain}
  }

  /** A pass passes its test for a late abort: it starts to run the task. */
  predicate StartsRun(s: State, s': State) {
    s.pass.Pass? && s.pass.phase == TestingAbort && s'.pass != s.pass
  }

  lemma WakeUpFindsCalmTask(s: State)
    requires Inv(s) && s.sub.idle != {}
    ensures CannotWait(s)
  {
  }

  lemma CannotWaitKept(s: State, t: Tid, a: Action)
    requires Can(s, t, a) && CannotWait(s) && !a.TestAbort?
    ensures CannotWait(Step(s, t, a)) && !IsWait(a)
  {
    if CanCall(s, t, a) {
      assert DoCall(s, t, a).pass == s.pass;
    } else if CanThread(s, t, a) {
      ThreadCannotWait(s, t, a);
    } else {
      PassCannotWait(s, t, a);
    }
  }

  lemma ThreadCannotWait(s: State, t: Tid, a: Action)
    requires CanThread(s, t, a) && CannotWait(s)
    ensures CannotWait(ThreadStep(s, t, a))
  {
    if !a.Enter? {
      assert ThreadStep(s, t, a).pass == s.pass;
    }
  }

  lemma PassCannotWait(s: State, t: Tid, a: Action)
    requires CanPass(s, t, a) && CannotWait(s) && !a.TestAbort?
    ensures CannotWait(PassStep(s, t, a)) && !IsWait(a)
  {
    if a.User? {
      UserCannotWait(s, t, a.call);
    } else if a.Close? {
      assert CloseStep(s, t).pass == NoPass || CloseStep(s, t).pass.phase == WantRun;
    }
  }

  lemma UserCannotWait(s: State, t: Tid, c: UserCall)
    requires CanPass(s, t, User(c)) && CannotWait(s)
    ensures CannotWait(UserStep(s, c)) && !c.CallWait?
  {
  }

  /** A waiting task that is woken up is started at least once before it can go idle again. */
  lemma FullRunAfterWakeUp(run: seq<State>, i: nat, j: nat)
    requires IsRun(run) && i + 1 < j < |run|
    requires run[i].sub.idle != {} && run[i + 1].sub.idle == {} && run[j].sub.idle != {}
    ensures exists k :: i <= k < j && StartsRun(run[k], run[k + 1])
  {
    hide Inv;
    RunInv(run, i);
    WakeUpFindsCalmTask(run[i]);
    if forall k | i <= k < j :: !StartsRun(run[k], run[k + 1]) {
      StaysAwake(run, i, j);
    }
  }

  lemma {:induction false} StaysAwake(run: seq<State>, i: nat, j: nat)
    requires IsRun(run) && i + 1 <= j < |run| && CannotWait(run[i]) && run[i + 1].sub.idle == {}
    requires forall k | i <= k < j :: !StartsRun(run[k], run[k + 1])
    ensures CannotWait(run[j]) && run[j].sub.idle == {}
    decreases j
  {
    hide Can, Step, Inv, Reachable;
    if i + 1 < j {
      StaysAwake(run, i, j - 1);
    }
    var t, a := StepOfRun(run, j - 1);
    if a.TestAbort? {
      TestAbortMoves(run[j - 1], t);
    } else {
      CannotWaitKept(run[j - 1], t, a);
    }
  }

  lemma TestAbortMoves(s: State, t: Tid)
    requires Can(s, t, TestAbort)
    ensures StartsRun(s, Step(s, t, TestAbort))
  {
  }

  // ---- A killed task stays dead ----

  lemma DeadStep(s: State, t: Tid, a: Action)
    requires Inv(s) && Can(s, t, a) && s.mux.baseState == Killed
    ensures CallOf(s, a) == None && Step(s, t, a).mux.baseState == Killed
  {
    if a.Decide? {
      assert s.pass.frame.event != NormalRun;
    } else {
      StepEffect(s, t, a);
    }
  }

  lemma {:induction false} KilledIsFinal(run: seq<State>, i: nat, j: nat)
    requires IsRun(run) && i <= j < |run| && run[i].mux.baseState == Killed
    ensures run[j].mux.baseState == Killed && run[j].history.calls == run[i].history.calls
    decreases j
  {
    hide Can, Step, Inv, Reachable;
    if i < j {
      KilledIsFinal(run, i, j - 1);
      var t, a := StepOfRun(run, j - 1);
      DeadStep(run[j - 1], t, a);
    }
  }

  // ---- wait_until ----

  lemma WaitingStep(s: State, t: Tid, a: Action)
    requires Inv(s) && Can(s, t, a) && s.mux.waitCondition
    ensures CallOf(s, a).Some? ==> !CallOf(s, a).value.MultiplexImpl?
  {
  }

  /** A pass evaluates the wait condition, and finds it true. */
  ghost predicate FindsTrue(s: State, s': State) {
    s.holds && exists t :: CanPass(s, t, Evaluate) && s' == PassStep(s, t, Evaluate)
  }

  predicate HasMultiplexImpl(calls: seq<Call>) {
    exists k :: 0 <= k < |calls| && calls[k].MultiplexImpl?
  }

  /** After wait_until installed its condition, multiplex_impl is not called again before the condition was evaluated
      and found true. */
  lemma WaitUntilWaits(run: seq<State>, i: nat, j: nat)
    requires IsRun(run) && i <= j < |run| && run[i].mux.waitCondition
    ensures run[i].history.calls <= run[j].history.calls
    ensures !run[j].mux.waitCondition || HasMultiplexImpl(run[j].history.calls[|run[i].history.calls|..]) ==>
      exists k :: i <= k < j && FindsTrue(run[k], run[k + 1])
  {
    hide FindsTrue;
    LifeGrows(run, i, j);
    if forall k | i <= k < j :: !FindsTrue(run[k], run[k + 1]) {
      StillWaits(run, i, j);
    }
  }

  lemma EvaluatesTrue(s: State, t: Tid, a: Action)
    requires Can(s, t, a) && a.Evaluate? && s.holds
    ensures FindsTrue(s, Step(s, t, a))
  {
    assert !CanCall(s, t, a) && !CanThread(s, t, a);
    hide PassStep;
  }

  lemma {:induction false} StillWaits(run: seq<State>, i: nat, j: nat)
    requires IsRun(run) && i <= j < |run| && run[i].mux.waitCondition
    requires forall k | i <= k < j :: !FindsTrue(run[k], run[k + 1])
    ensures run[j].mux.waitCondition && run[i].history.calls <= run[j].history.calls
    ensures !HasMultiplexImpl(run[j].history.calls[|run[i].history.calls|..])
    decreases j
  {
    hide Can, Step, Inv, Reachable, FindsTrue;
    if i < j {
      StillWaits(run, i, j - 1);
      var t, a := StepOfRun(run, j - 1);
      var s := run[j - 1];
      if a.Evaluate? && s.holds {
        EvaluatesTrue(s, t, a);
      }
      WaitingStep(s, t, a);
      var n := |run[i].history.calls|;
      assert run[j].history.calls[n..] == s.history.calls[n..]
        + if CallOf(s, a).Some? then [CallOf(s, a).value] else [];
    }
  }

  /** The wait condition is not lost: a task that is idle in wait_until while its predicate holds will get a signal,
      provided that whoever makes the predicate true signals one of its conditions. */
  lemma WaitUntilLosesNothing(s: State)
    requires Reachable(s) && s.mux.waitCondition && s.sub.idle != {} && s.holds
    ensures exists u :: 0 <= u < |s.threads| && s.threads[u] == OwesSignal
  {
    ReachableInv(s);
  }

  /** And each such signal wakes up the task. */
  lemma OwedSignalWakesUp(s: State, t: Tid, c: Mask)
    requires Reachable(s) && s.mux.waitCondition && s.sub.idle != {} && CanThread(s, t, PaySignal(c))
    ensures var s' := ThreadStep(s, t, PaySignal(c));
      s'.sub.idle == {} && s'.sub.needRun && s'.threads[t] == Entering(ScheduleRun, Idle, Return)
  {
    ReachableInv(s);
    assert s.sub.idle == s.watched;
    var b :| b in c && b in s.watched;
    assert b in (c - (s.sub.skipWait + (c - s.sub.idle))) * OR_CONDITIONS;
  }

  // ---- The flags of an abort ----

  /** When a step withdraws an abort that was not yet served: abort() after finish(), and of course reset(). */
  lemma AbortWithdrawn(s: State, t: Tid, a: Action)
    requires Can(s, t, a) && s.sub.aborted
    ensures !Step(s, t, a).sub.aborted <==> (IsAbort(a) && s.sub.finished) || Resets(a)
  {
    StepEffect(s, t, a);
  }

  /** With its flag up, an abort takes effect at the next decision of a pass that ran the task or inserts the abort. */
  lemma AbortTakesEffect(s: State, t: Tid)
    requires Reachable(s) && CanPass(s, t, Decide) && s.sub.aborted
    requires s.mux.baseState in {Reset, Initialize, Multiplex} && s.pass.frame.event in {NormalRun, InsertAbort}
    ensures var base := DecideStep(s, t).mux.baseState;
      base == Killed || base == Abort || (base == Finish && s.history.progress == Aborted)
  {
    ReachableInv(s);
  }

  /** When the argument of the callback says whether abort_impl was called in this life. If finish_impl called run(), it
      does exactly if abort() was called after that or not, like abort_impl. Otherwise it does, except after a call of
      abort_impl, in two cases: finish() was called before, and abort() after the end; or nobody asked for the abort
      (an insert_abort of an earlier life was let in), neither before the end nor after it. */
  predicate AnswersRight(e: Ending, abortImplCalled: bool) {
    if e.rerun then e.again <==> abortImplCalled
    else !(abortImplCalled && if e.again then e.finished else e.unasked)
  }

  lemma CallbackTellsTruth(s: State, t: Tid)
    requires Reachable(s) && CanPass(s, t, Prepare) && s.pass.frame.state == Callback
    ensures s.history.progress.Finished?
    ensures CallOf(s, Prepare) == Some(CallbackCall(!s.history.progress.afterAbort)) <==>
      AnswersRight(s.history.ending, s.history.progress.afterAbort)
  {
    ReachableInv(s);
  }

  // ---- An insert_abort of an earlier life ----

  predicate IsInsert(ts: ThreadState) {
    ts.Entering? && ts.event == InsertAbort
  }

  /** Some thread that called abort() is about to enter multiplex(insert_abort). */
  predicate HasStraggler(s: State) {
    exists u :: 0 <= u < |s.threads| && IsInsert(s.threads[u])
  }

  /** No insert_abort belongs to an earlier life, and none that did was let in. */
  predicate AllOfThisLife(s: State) {
    && !s.history.stale
    && forall u | 0 <= u < |s.threads| && IsInsert(s.threads[u]) :: s.threads[u].after == Join(s.history.life)
  }

  lemma StragglersKept(s: State, t: Tid, a: Action)
    requires Can(s, t, a) && AllOfThisLife(s) && (Resets(a) ==> !HasStraggler(s))
    ensures AllOfThisLife(Step(s, t, a))
  {
    if CanCall(s, t, a) {
      StragglersKeptByCall(s, t, a);
    } else if CanThread(s, t, a) {
      StragglersKeptOutside(s, t, a);
    } else {
      StragglersKeptInside(s, t, a);
    }
  }

  lemma StragglersKeptByCall(s: State, t: Tid, a: Action)
    requires CanCall(s, t, a) && AllOfThisLife(s)
    ensures AllOfThisLife(DoCall(s, t, a))
  {
  }

  lemma StragglersKeptOutside(s: State, t: Tid, a: Action)
    requires CanThread(s, t, a) && AllOfThisLife(s) && (Resets(a) ==> !HasStraggler(s))
    ensures AllOfThisLife(ThreadStep(s, t, a))
  {
    if a.Enter? {
      StragglerEnters(s, t);
    }
  }

  lemma StragglerEnters(s: State, t: Tid)
    requires CanThread(s, t, Enter) && AllOfThisLife(s)
    ensures AllOfThisLife(EnterStep(s, t))
  {
    EntryMoves(s, t);
    assert IsInsert(s.threads[t]) ==> s.threads[t].after == Join(s.history.life);
    hide EnterStep, CanThread;
  }

  lemma EntryMoves(s: State, t: Tid)
    requires CanThread(s, t, Enter)
    ensures var s' := EnterStep(s, t);
      && s'.threads == s.threads[t := s'.threads[t]] && !s'.threads[t].Entering?
      && s'.history.life == s.history.life
      && (s'.history.stale ==> s.history.stale || IsStale(s, s.threads[t].event, s.threads[t].after))
  {
  }

  lemma StragglersKeptInside(s: State, t: Tid, a: Action)
    requires CanPass(s, t, a) && AllOfThisLife(s) && (Resets(a) ==> !HasStraggler(s))
    ensures AllOfThisLife(PassStep(s, t, a))
  {
    PassMoves(s, t, a);
    SameLife(s, t, a);
    hide PassStep, CanPass;
  }

  lemma SameLife(s: State, t: Tid, a: Action)
    requires CanPass(s, t, a)
    ensures PassStep(s, t, a).history.stale ==> s.history.stale
    ensures !Resets(a) ==> PassStep(s, t, a).history.life == s.history.life
  {
    if a.TestAbort? && s.pass.frame.state == Killed {
      KilledLeaks(s, t);
    } else if a.TestAbort? {
      RunFrame(s, t);
    } else if a.User? {
      assert UserStep(s, a.call).history == s.history;
    } else if a.Close? {
      assert CloseStep(s, t).history == s.history;
    } else if OfWaitCondition(a) {
      ConditionGrows(s, t, a);
    } else if IsLocking(a) {
      LockingOnly(s, t, a);
      hide PassStep, CanPass;
    }
  }

  /** In a run in which each reset() happens while no thread stands before multiplex(insert_abort), no insert_abort of
      an earlier life is ever let in. */
  lemma {:induction false} NoStragglersNoStale(run: seq<State>, j: nat)
    requires IsRun(run) && j < |run|
    requires forall k | 0 <= k < j && run[k].history.life != run[k + 1].history.life :: !HasStraggler(run[k])
    ensures AllOfThisLife(run[j])
    decreases j
  {
    hide Can, Step, Inv, Reachable, AllOfThisLife;
    if j == 0 {
      assert AllOfThisLife(run[0]) by {
        InitHasNoStraggler(run[0]);
      }
    } else {
      NoStragglersNoStale(run, j - 1);
      var t, a := StepOfRun(run, j - 1);
      StragglersKept(run[j - 1], t, a);
    }
  }

  lemma InitHasNoStraggler(s: State)
    requires Init(s)
    ensures AllOfThisLife(s)
  {
  }

  /** So a task is never started idle in such a run. */
  lemma NeverStartedIdleWithoutStragglers(run: seq<State>, j: nat)
    requires IsRun(run) && j < |run| && IsStarted(run[j])
    requires forall k | 0 <= k < j && run[k].history.life != run[k + 1].history.life :: !HasStraggler(run[k])
    ensures run[j].sub.idle == {}
  {
    NoStragglersNoStale(run, j);
    RunReachable(run, j);
    NeverStartedIdle(run[j]);
  }

  /** And never in the first life, hence never if run() is not called again. */
  lemma NeverStartedIdleInFirstLife(s: State)
    requires Reachable(s) && s.history.life <= 1
    ensures !s.history.stale && (IsStarted(s) ==> s.sub.idle == {})
  {
    hide Inv, AllOfThisLife, HasStraggler, IsStarted, Init, Next;
    var run: seq<State> :| IsRun(run) && run[|run| - 1] == s;
    var j := |run| - 1;
    FirstLifeHasNoStraggler(run, j);
    NoStragglersNoStale(run, j);
    assert !s.history.stale by {
      LifeIsClean(s);
    }
    if IsStarted(s) {
      NeverStartedIdle(s);
    }
  }

  lemma LifeIsClean(s: State)
    requires AllOfThisLife(s)
    ensures !s.history.stale
  {
  }

  lemma FirstLifeHasNoStraggler(run: seq<State>, j: nat)
    requires IsRun(run) && j < |run| && run[j].history.life <= 1
    ensures forall k | 0 <= k < j && run[k].history.life != run[k + 1].history.life :: !HasStraggler(run[k])
  {
    hide Inv, HasStraggler, IsRun;
    forall k | 0 <= k < j && run[k].history.life != run[k + 1].history.life ensures !HasStraggler(run[k]) {
      LifeGrows(run, k, k + 1);
      LifeGrows(run, k + 1, j);
      RunInv(run, k);
      BeforeTheFirstLife(run[k]);
    }
  }

  lemma BeforeTheFirstLife(s: State)
    requires Inv(s) && s.history.life == 0
    ensures !HasStraggler(s)
  {
    assert !PendingWake(s.threads);
    if u: Tid :| u < |s.threads| && IsInsert(s.threads[u]) {
      assert IsWake(s.threads[u]);
    }
  }

  // ---- An abort is served ----

  /** A step that withdraws an abort: abort() after finish(), or reset(). */
  ghost predicate Withdraws(s: State, s': State) {
    exists t, a :: Can(s, t, a) && s' == Step(s, t, a) && ((IsAbort(a) && s.sub.finished) || Resets(a))
  }

  /** The aborted flag is up, and leads to abort_impl before finish_impl, and to the end of the task. */
  predicate WillServe(s: State) {
    && s.sub.aborted
    && match s.mux.baseState
       case Reset => false
       case Finish => if Called(s) then !s.sub.reset else s.history.progress == Aborted
       case Callback => !s.sub.reset
       case _ => true
  }

  lemma WillServeKept(s: State, t: Tid, a: Action)
    requires Inv(s) && Can(s, t, a) && WillServe(s) && !Resets(a) && !(IsAbort(a) && s.sub.finished)
    ensures WillServe(Step(s, t, a))
  {
    StepEffect(s, t, a);
    if CanCall(s, t, a) {
      CallServes(s, t, a);
    } else if CanThread(s, t, a) {
      ThreadServes(s, t, a);
    } else {
      PassServes(s, t, a);
    }
  }

  lemma CallServes(s: State, t: Tid, a: Action)
    requires CanCall(s, t, a) && WillServe(s)
    ensures WillServe(DoCall(s, t, a))
  {
  }

  lemma ThreadServes(s: State, t: Tid, a: Action)
    requires Inv(s) && CanThread(s, t, a) && WillServe(s) && !Resets(a) && !(IsAbort(a) && s.sub.finished)
    ensures WillServe(ThreadStep(s, t, a))
  {
    ThreadEffect(s, t, a);
    if a.Enter? {
      EntryServes(s, t);
    } else {
      OutsideSame(s, t, a);
    }
  }

  lemma OutsideSame(s: State, t: Tid, a: Action)
    requires CanThread(s, t, a) && !Resets(a) && !a.Enter?
    ensures var s' := ThreadStep(s, t, a);
      s'.mux == s.mux && s'.pass == s.pass && s'.sub.reset == s.sub.reset && s'.history.progress == s.history.progress
  {
  }

  lemma EntryServes(s: State, t: Tid)
    requires Inv(s) && CanThread(s, t, Enter) && WillServe(s)
    ensures WillServe(EnterStep(s, t))
  {
  }

  lemma PassServes(s: State, t: Tid, a: Action)
    requires Inv(s) && CanPass(s, t, a) && WillServe(s) && !Resets(a) && !(IsAbort(a) && s.sub.finished)
    ensures WillServe(PassStep(s, t, a))
  {
    PassEffect(s, t, a);
    PassGrows(s, t, a);
    if a.Decide? {
      DecideServes(s, t);
    } else if s.mux.baseState == Finish || s.mux.baseState == Callback {
      if a.TestAbort? {
        TestAbortServes(s, t);
      } else if a.User? {
        UserServes(s, t, a.call);
      } else {
        LateServes(s, t, a);
      }
    } else {
      hide PassStep, Inv, CanPass;
    }
  }

  lemma DecideServes(s: State, t: Tid)
    requires Inv(s) && CanPass(s, t, Decide) && WillServe(s)
    ensures WillServe(DecideStep(s, t))
  {
  }

  lemma TestAbortServes(s: State, t: Tid)
    requires Inv(s) && CanPass(s, t, TestAbort) && WillServe(s)
    requires s.mux.baseState == Finish || s.mux.baseState == Callback
    ensures WillServe(TestAbortStep(s, t))
  {
    assert s.pass.frame.state == s.mux.baseState;
    hide LeakStep, Inv;
  }

  lemma UserServes(s: State, t: Tid, c: UserCall)
    requires Inv(s) && CanPass(s, t, User(c)) && WillServe(s)
    requires s.mux.baseState == Finish || s.mux.baseState == Callback
    ensures WillServe(UserStep(s, c))
  {
    assert s.pass.frame.state == s.mux.baseState && s.pass.frame.event == NormalRun;
    hide Inv;
  }

  lemma LateServes(s: State, t: Tid, a: Action)
    requires Inv(s) && CanPass(s, t, a) && WillServe(s) && !Resets(a) && !(IsAbort(a) && s.sub.finished)
    requires s.mux.baseState == Finish || s.mux.baseState == Callback
    requires !a.Decide? && !a.TestAbort? && !a.User?
    ensures WillServe(PassStep(s, t, a))
  {
    LateDoesNotWait(s, t, a);
    if a.Close? {
      CloseServes(s, t);
    } else if IsLocking(a) {
      LockingServes(s, t, a);
    } else if a.Prepare? {
      PrepareServes(s, t);
    } else {
      hide Inv;
      BeginServes(s, t, a);
    }
  }

  lemma LateDoesNotWait(s: State, t: Tid, a: Action)
    requires Inv(s) && CanPass(s, t, a) && (s.mux.baseState == Finish || s.mux.baseState == Callback)
    ensures !OfWaitCondition(a)
  {
  }

  lemma CloseServes(s: State, t: Tid)
    requires CanPass(s, t, Close) && WillServe(s)
    requires s.mux.baseState == Finish || s.mux.baseState == Callback
    ensures WillServe(CloseStep(s, t))
  {
  }

  lemma LockingServes(s: State, t: Tid, a: Action)
    requires CanPass(s, t, a) && WillServe(s) && IsLocking(a)
    requires s.mux.baseState == Finish || s.mux.baseState == Callback
    ensures WillServe(PassStep(s, t, a))
  {
  }

  lemma PrepareServes(s: State, t: Tid)
    requires Inv(s) && CanPass(s, t, Prepare) && WillServe(s)
    ensures WillServe(PrepareStep(s, t))
  {
  }

  lemma BeginServes(s: State, t: Tid, a: Action)
    requires CanPass(s, t, a) && WillServe(s) && (a.Check? || a.Begin? || (a.AbortSelf? && !s.sub.finished))
    requires s.mux.baseState == Finish || s.mux.baseState == Callback
    ensures WillServe(PassStep(s, t, a))
  {
  }

  /** If the aborted flag is up in bs_initialize or bs_multiplex, and no abort() after finish() and no reset() follows,
      then whenever finish_impl is called abort_impl was the call before it. */
  lemma AbortIsServed(run: seq<State>, i: nat, j: nat)
    requires IsRun(run) && i <= j && j + 1 < |run|
    requires run[i].sub.aborted && run[i].mux.baseState in {Initialize, Multiplex}
    requires forall k | i <= k < j :: !Withdraws(run[k], run[k + 1])
    requires run[j + 1].history.calls == run[j].history.calls + [FinishImpl]
    ensures run[j].history.calls != [] && run[j].history.calls[|run[j].history.calls| - 1] == AbortImpl
  {
    hide Can, Step, Inv, Reachable;
    ServesOn(run, i, j);
    var t, a := StepOfRun(run, j);
    ProgressIsReplay(run, j);
    AbortedByAbortImpl(run[j].history.calls);
    assert run[j + 1].history.calls[|run[j].history.calls|] == FinishImpl;
    FinishImplAfterAbort(run[j], t, a);
  }

  lemma {:induction false} ServesOn(run: seq<State>, i: nat, j: nat)
    requires IsRun(run) && i <= j < |run| && WillServe(run[i])
    requires forall k | i <= k < j :: !Withdraws(run[k], run[k + 1])
    ensures WillServe(run[j])
    decreases j
  {
    hide Can, Step, Inv, Reachable, WillServe;
    if i < j {
      ServesOn(run, i, j - 1);
      var t, a := StepOfRun(run, j - 1);
      assert !Withdraws(run[j - 1], run[j]);
      WillServeKept(run[j - 1], t, a);
    }
  }

  lemma FinishImplAfterAbort(s: State, t: Tid, a: Action)
    requires Inv(s) && Can(s, t, a) && WillServe(s) && CallOf(s, a) == Some(FinishImpl)
    ensures s.history.progress == Aborted
  {
  }

  lemma AbortedByAbortImpl(calls: seq<Call>)
    ensures Replay(calls) == Aborted ==> calls != [] && calls[|calls| - 1] == AbortImpl
  {
  }
}
