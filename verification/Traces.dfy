/** Runs of a task together with the steps that were taken, and what can be read off from the steps alone. */
module Traces {
  import opened TaskTypes
  import opened SubStates
  import opened Protocol
  import opened Lifecycle
  import opened Moves
  import opened RunTheorems

  datatype Act = Act(thread: Tid, action: Action)

  /** Step number i is acts[i], and leads from run[i] to run[i + 1]. */
  ghost predicate IsTrace(run: seq<State>, acts: seq<Act>) {
    && |run| == |acts| + 1 && Init(run[0])
    && forall i | 0 <= i < |acts| :: IsStep(run[i], acts[i], run[i + 1])
  }

  ghost predicate IsStep(s: State, x: Act, s': State) {
    Can(s, x.thread, x.action) && s' == Step(s, x.thread, x.action)
  }

  lemma TraceIsRun(run: seq<State>, acts: seq<Act>)
    requires IsTrace(run, acts)
    ensures IsRun(run)
  {
    hide Init, Can, Step;
    forall i | 0 < i < |run| ensures Next(run[i - 1], run[i]) {
      assert IsStep(run[i - 1], acts[i - 1], run[i]);
    }
  }

  /** Every run has such a list of steps. */
  lemma {:induction false} StepsOfRun(run: seq<State>) returns (acts: seq<Act>)
    requires IsRun(run)
    ensures IsTrace(run, acts)
    decreases |run|
  {
    hide Init, Can, Step;
    var n := |run| - 1;
    if n == 0 {
      acts := [];
    } else {
      acts := StepsOfRun(run[..n]);
      assert Next(run[n - 1], run[n]);
      var t, a :| Can(run[n - 1], t, a) && run[n] == Step(run[n - 1], t, a);
      acts := acts + [Act(t, a)];
      forall i | 0 <= i < |acts| ensures IsStep(run[i], acts[i], run[i + 1]) {
        if i < n - 1 {
          assert IsStep(run[..n][i], acts[i], run[..n][i + 1]);
        }
      }
    }
  }

  // ---- What the steps ask for ----

  /** The state that the task last chose by set_state(). */
  function LastState(acts: seq<Act>): nat {
    if acts == [] then 0
    else match acts[|acts| - 1].action
      case User(SetState(n)) => n
      case _ => LastState(acts[..|acts| - 1])
  }

  /** The handler that was last passed to target() or yield(). */
  function LastTarget(acts: seq<Act>): Handler {
    if acts == [] then Idle
    else match acts[|acts| - 1].action
      case User(Target(h)) => h
      case User(YieldTo(h)) => h
      case _ => LastTarget(acts[..|acts| - 1])
  }

  /** The handler that was last passed to run(). */
  function LastDefault(acts: seq<Act>): Handler {
    if acts == [] then Idle
    else match acts[|acts| - 1].action
      case CallRun(h) => h
      case User(Rerun(Some(h))) => h
      case _ => LastDefault(acts[..|acts| - 1])
  }

  /** Was yield() called since the end of the last round? */
  predicate Yielded(acts: seq<Act>) {
    acts != [] &&
    match acts[|acts| - 1].action
    case User(Yield) => true
    case User(YieldTo(_)) => true
    case Close => false
    case _ => Yielded(acts[..|acts| - 1])
  }

  /** Was finish() called since the last call of run()? */
  predicate AskedToFinish(acts: seq<Act>) {
    acts != [] &&
    var a := acts[|acts| - 1].action;
    (a == User(CallFinish) || (!Resets(a) && AskedToFinish(acts[..|acts| - 1])))
  }

  /** Was abort() called since the last call of run(), and the last time not after finish()? */
  predicate AbortStands(acts: seq<Act>) {
    acts != [] &&
    var a := acts[|acts| - 1].action;
    var before := acts[..|acts| - 1];
    if IsAbort(a) then !AskedToFinish(before) else !Resets(a) && AbortStands(before)
  }

  /** The value of the predicate of wait_until(), as it was last set. */
  predicate PredicateHolds(acts: seq<Act>) {
    acts != [] &&
    match acts[|acts| - 1].action
    case SetPredicate(value) => value
    case _ => PredicateHolds(acts[..|acts| - 1])
  }

  /** Was wait_until() called, and its condition not found true since? */
  predicate Installed(acts: seq<Act>) {
    acts != [] &&
    var before := acts[..|acts| - 1];
    match acts[|acts| - 1].action
    case Install => true
    case Evaluate => Installed(before) && !PredicateHolds(before)
    case _ => Installed(before)
  }

  /** What these requests have made of the task. */
  predicate Agrees(s: State, acts: seq<Act>) {
    && s.sub.runState == LastState(acts)
    && s.targetHandler == LastTarget(acts) && s.defaultHandler == LastDefault(acts)
    && s.yielding == Yielded(acts) && s.holds == PredicateHolds(acts)
    && s.mux.waitCondition == Installed(acts)
    && s.sub.finished == AskedToFinish(acts) && s.sub.aborted == AbortStands(acts)
  }

  /** What one step does about the requests. */
  predicate Heeds(s: State, a: Action, s': State) {
    HeedsChoices(s, a, s') && HeedsFlags(s, a, s')
  }

  predicate HeedsChoices(s: State, a: Action, s': State) {
    && s'.sub.runState == (match a case User(SetState(n)) => n case _ => s.sub.runState)
    && s'.targetHandler == (match a case User(Target(h)) => h case User(YieldTo(h)) => h case _ => s.targetHandler)
    && s'.defaultHandler == (match a case CallRun(h) => h case User(Rerun(Some(h))) => h case _ => s.defaultHandler)
    && s'.yielding ==
       (match a case User(Yield) => true case User(YieldTo(_)) => true case Close => false case _ => s.yielding)
    && s'.holds == (match a case SetPredicate(value) => value case _ => s.holds)
    && s'.mux.waitCondition == (a.Install? || (s.mux.waitCondition && !(a.Evaluate? && s.holds)))
  }

  predicate HeedsFlags(s: State, a: Action, s': State) {
    && s'.sub.finished == (a == User(CallFinish) || (!Resets(a) && s.sub.finished))
    && s'.sub.aborted == (if IsAbort(a) then !s.sub.finished else !Resets(a) && s.sub.aborted)
    && s'.sub.reset == (Resets(a) || (a != User(Kill) && !BeginsToFinish(s, a) && s.sub.reset))
  }

  predicate BeginsToFinish(s: State, a: Action) {
    a.Prepare? && s.pass.Pass? && s.pass.frame.state == BaseState.Finish
  }

  predicate IsRequest(a: Action) {
    || a.CallRun? || a.SetPredicate? || a.User? || IsAbort(a) || Resets(a) || a.Close? || a.Prepare?
    || a.Install? || a.Evaluate?
  }

  /** Nothing is asked for, or answered. */
  predicate SameRequests(s: State, s': State) {
    && s'.sub.runState == s.sub.runState && s'.yielding == s.yielding
    && s'.holds == s.holds && s'.mux.waitCondition == s.mux.waitCondition
    && s'.targetHandler == s.targetHandler && s'.defaultHandler == s.defaultHandler
    && s'.sub.finished == s.sub.finished && s'.sub.aborted == s.sub.aborted && s'.sub.reset == s.sub.reset
  }

  lemma QuietHeeds(s: State, a: Action, s': State)
    requires SameRequests(s, s') && !IsRequest(a)
    ensures Heeds(s, a, s')
  {
    QuietHeedsFlags(s, a, s');
    hide HeedsFlags;
  }

  lemma QuietHeedsFlags(s: State, a: Action, s': State)
    requires SameRequests(s, s') && !IsRequest(a)
    ensures HeedsFlags(s, a, s')
  {
  }

  lemma StepHeeds(s: State, t: Tid, a: Action)
    requires Can(s, t, a)
    ensures Heeds(s, a, Step(s, t, a))
  {
    hide Heeds, IsRequest, SameRequests;
    if IsRequest(a) {
      RequestHeeds(s, t, a);
    } else {
      QuietStep(s, t, a);
      QuietHeeds(s, a, Step(s, t, a));
    }
  }

  lemma QuietStep(s: State, t: Tid, a: Action)
    requires Can(s, t, a) && !IsRequest(a)
    ensures SameRequests(s, Step(s, t, a))
  {
    if CanCall(s, t, a) {
      QuietCall(s, t, a);
    } else if CanThread(s, t, a) {
      QuietThread(s, t, a);
    } else {
      QuietPass(s, t, a);
    }
  }

  lemma QuietCall(s: State, t: Tid, a: Action)
    requires CanCall(s, t, a) && !a.CallRun? && !a.SetPredicate?
    ensures SameRequests(s, DoCall(s, t, a))
  {
  }

  lemma QuietThread(s: State, t: Tid, a: Action)
    requires CanThread(s, t, a) && !IsAbort(a) && !Resets(a)
    ensures SameRequests(s, ThreadStep(s, t, a))
  {
    if a.Enter? {
      QuietEntry(s, t);
    }
  }

  lemma QuietEntry(s: State, t: Tid)
    requires CanThread(s, t, Enter)
    ensures SameRequests(s, EnterStep(s, t))
  {
  }

  lemma QuietPass(s: State, t: Tid, a: Action)
    requires CanPass(s, t, a) && !IsRequest(a)
    ensures SameRequests(s, PassStep(s, t, a))
  {
    if a.TestAbort? {
      QuietTest(s, t);
    } else if OfWaitCondition(a) {
      assert !a.Install? && !a.Evaluate?;
      QuietCondition(s, t, a);
    } else if IsLocking(a) {
      QuietLocking(s, t, a);
    } else if a.Decide? {
      QuietDecision(s, t);
    }
  }

  lemma QuietTest(s: State, t: Tid)
    requires CanPass(s, t, TestAbort)
    ensures SameRequests(s, TestAbortStep(s, t))
  {
  }

  lemma QuietDecision(s: State, t: Tid)
    requires CanPass(s, t, Decide)
    ensures SameRequests(s, DecideStep(s, t))
  {
    hide Decision;
  }

  lemma QuietLocking(s: State, t: Tid, a: Action)
    requires CanPass(s, t, a) && IsLocking(a)
    ensures SameRequests(s, PassStep(s, t, a))
  {
  }

  lemma QuietCondition(s: State, t: Tid, a: Action)
    requires CanPass(s, t, a) && OfWaitCondition(a) && !a.Install? && !a.Evaluate?
    ensures SameRequests(s, PassStep(s, t, a))
  {
    WaitTouchesMasks(s.sub, s.watched);
    hide SubStates.Wait;
  }

  lemma WaitTouchesMasks(s: SubState, c: Mask)
    ensures Wait(s, c).runState == s.runState && Wait(s, c).reset == s.reset
    ensures Wait(s, c).aborted == s.aborted && Wait(s, c).finished == s.finished
  {
  }

  lemma RequestHeeds(s: State, t: Tid, a: Action)
    requires Can(s, t, a) && IsRequest(a)
    ensures Heeds(s, a, Step(s, t, a))
  {
    if a.CallRun? || a.SetPredicate? {
      RunHeeds(s, t, a);
    } else if a.User? {
      UserHeeds(s, a.call);
    } else if a.AbortSection? || a.ResetOutside? {
      ThreadHeeds(s, t, a);
    } else if a.AbortSelf? || a.ResetInside? {
      InnerHeeds(s, t, a);
    } else if a.Close? {
      CloseHeeds(s, t);
    } else if a.Prepare? {
      PrepareHeeds(s, t);
    } else {
      ConditionHeeds(s, t, a);
    }
  }

  lemma ConditionHeeds(s: State, t: Tid, a: Action)
    requires CanPass(s, t, a) && (a.Install? || a.Evaluate?)
    ensures Heeds(s, a, PassStep(s, t, a))
  {
  }

  lemma RunHeeds(s: State, t: Tid, a: Action)
    requires CanCall(s, t, a) && (a.CallRun? || a.SetPredicate?)
    ensures Heeds(s, a, DoCall(s, t, a))
  {
  }

  lemma UserHeeds(s: State, c: UserCall)
    requires s.pass.Pass?
    ensures Heeds(s, User(c), UserStep(s, c))
  {
  }

  lemma ThreadHeeds(s: State, t: Tid, a: Action)
    requires CanThread(s, t, a) && (a.AbortSection? || a.ResetOutside?)
    ensures Heeds(s, a, ThreadStep(s, t, a))
  {
  }

  lemma InnerHeeds(s: State, t: Tid, a: Action)
    requires CanPass(s, t, a) && (a.AbortSelf? || a.ResetInside?)
    ensures Heeds(s, a, PassStep(s, t, a))
  {
  }

  lemma CloseHeeds(s: State, t: Tid)
    requires CanPass(s, t, Close)
    ensures Heeds(s, Close, CloseStep(s, t))
  {
  }

  lemma PrepareHeeds(s: State, t: Tid)
    requires CanPass(s, t, Prepare)
    ensures Heeds(s, Prepare, PrepareStep(s, t))
  {
    assert InPhase(s, t, Running(Preparing));
    hide PrepareStep, CanPass;
    PrepareOnly(s, t);
  }

  lemma PrepareOnly(s: State, t: Tid)
    requires InPhase(s, t, Running(Preparing))
    ensures s.pass.Pass?
    ensures var s' := PrepareStep(s, t);
      && SameRequests(s.(sub := s.sub.(reset := s'.sub.reset)), s')
      && s'.sub.reset == (s.pass.frame.state != BaseState.Finish && s.sub.reset)
  {
    if s.pass.frame.state == BaseState.Finish {
      var s1 := Continue(s.(sub := s.sub.(reset := false)), Running(InUser));
      LogsOnly(s1, FinishImpl);
      hide Logged;
    } else {
      LogsOnly(Continue(s, Running(InUser)), CallbackCall(!s.sub.aborted));
      hide Logged;
    }
  }

  lemma LogsOnly(s: State, c: Call)
    ensures Logged(s, c).sub == s.sub && SameRequests(s, Logged(s, c))
  {
  }

  lemma {:induction false} TraceAgrees(run: seq<State>, acts: seq<Act>, i: nat)
    requires IsTrace(run, acts) && i < |run|
    ensures Agrees(run[i], acts[..i])
  {
    hide Can, Step, Agrees, Heeds;
    if i == 0 {
      AgreesAtFirst(run[0]);
    } else {
      TraceAgrees(run, acts, i - 1);
      assert IsStep(run[i - 1], acts[i - 1], run[i]);
      StepHeeds(run[i - 1], acts[i - 1].thread, acts[i - 1].action);
      assert acts[..i][..i - 1] == acts[..i - 1];
      AgreesOn(run[i - 1], acts[..i], run[i]);
    }
  }

  lemma AgreesAtFirst(s: State)
    requires Init(s)
    ensures Agrees(s, [])
  {
  }

  lemma AgreesOn(s: State, acts: seq<Act>, s': State)
    requires acts != [] && Agrees(s, acts[..|acts| - 1]) && Heeds(s, acts[|acts| - 1].action, s')
    ensures Agrees(s', acts)
  {
  }

  /** The step from s to s' calls c. */
  predicate Calls(s: State, s': State, c: Call) {
    s'.history.calls == s.history.calls + [c]
  }

  /** Step number j calls user code. */
  predicate CallsAt(run: seq<State>, j: nat)
    requires j + 1 < |run|
  {
    run[j + 1].history.calls != run[j].history.calls
  }
}
