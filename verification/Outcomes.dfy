/** What the calls of a task and of its clients lead to, over whole runs: stated over the steps that were taken. */
module Outcomes {
  import opened TaskTypes
  import opened SubStates
  import opened Protocol
  import opened Lifecycle
  import opened Invariants
  import opened Reachability
  import opened Moves
  import opened TaskTheorems
  import opened RunTheorems
  import opened LateEntries
  import opened Traces

  /** The invariant, and the step number j. */
  lemma StepOfTrace(run: seq<State>, acts: seq<Act>, j: nat)
    requires IsTrace(run, acts) && j < |acts|
    ensures Inv(run[j]) && IsStep(run[j], acts[j], run[j + 1]) && Agrees(run[j], acts[..j])
    ensures |run| == |acts| + 1
    ensures Grows(run[j].history, run[j + 1].history, CallOf(run[j], acts[j].action))
  {
    hide Inv, Can, Step, Init;
    assert IsStep(run[j], acts[j], run[j + 1]);
    TraceIsRun(run, acts);
    RunInv(run, j);
    TraceAgrees(run, acts, j);
    CallsGrow(run[j], acts[j].thread, acts[j].action);
  }

  // ---- set_state() ----

  /** multiplex_impl is always called with the state that the task chose last, also in its next life; whatever else
      happened since. */
  lemma MultiplexImplGetsLastState(run: seq<State>, acts: seq<Act>, j: nat, m: nat)
    requires IsTrace(run, acts) && j < |acts| && Calls(run[j], run[j + 1], MultiplexImpl(m))
    ensures m == LastState(acts[..j])
  {
    hide Can, Step, IsTrace, Inv;
    StepOfTrace(run, acts, j);
    var h, h', c := run[j].history, run[j + 1].history, CallOf(run[j], acts[j].action);
    assert h'.calls[|h.calls|] == MultiplexImpl(m);
    assert c == Some(MultiplexImpl(m));
    CallsWithRunState(run[j], acts[j], m);
  }

  lemma CallsWithRunState(s: State, x: Act, m: nat)
    requires Inv(s) && Can(s, x.thread, x.action) && CallOf(s, x.action) == Some(MultiplexImpl(m))
    ensures m == s.sub.runState
  {
    assert x.action == TestAbort;
  }

  /** So a set_state() that no other one follows determines the next calls, and without any they get 0. */
  lemma SetStateHolds(run: seq<State>, acts: seq<Act>, i: nat, j: nat, n: nat, m: nat)
    requires IsTrace(run, acts) && i < j < |acts| && acts[i].action == User(SetState(n))
    requires forall k | i < k < j :: !(acts[k].action.User? && acts[k].action.call.SetState?)
    requires Calls(run[j], run[j + 1], MultiplexImpl(m))
    ensures m == n
  {
    hide IsTrace;
    MultiplexImplGetsLastState(run, acts, j, m);
    LastStateIs(acts, i, j, n);
  }

  lemma {:induction false} LastStateIs(acts: seq<Act>, i: nat, j: nat, n: nat)
    requires i < j <= |acts| && acts[i].action == User(SetState(n))
    requires forall k | i < k < j :: !(acts[k].action.User? && acts[k].action.call.SetState?)
    ensures LastState(acts[..j]) == n
  {
    assert acts[..j][..j - 1] == acts[..j - 1];
    if i < j - 1 {
      LastStateIs(acts, i, j - 1, n);
    }
  }

  // ---- The handler in which the task runs ----

  /** The handlers that were passed to run(), target() or yield(). */
  function Named(acts: seq<Act>): set<Handler> {
    if acts == [] then {}
    else
      Named(acts[..|acts| - 1]) +
      match acts[|acts| - 1].action
      case CallRun(h) => {h}
      case User(Rerun(Some(h))) => {h}
      case User(Target(h)) => {h}
      case User(YieldTo(h)) => {h}
      case _ => {}
  }

  /** User code is active in this pass. */
  predicate InUserCode(s: State) {
    && s.pass.Pass? && s.pass.phase.Running?
    && s.pass.phase.at in {InUser, WantSelfAbort, WantReadState, Resetting, WantInstall, UntilWait}
  }

  /** The handler after a pass: the target, if there is one; otherwise it stays the same, unless the task had none or
      called yield() in the immediate handler. */
  function HandlerAtEnd(s: State): Handler
    requires s.pass.Pass? && s.pass.phase.Closing?
  {
    if !s.pass.phase.needNewRun then Idle
    else if s.targetHandler != Idle then s.targetHandler
    else if s.mux.currentHandler == Idle || (s.mux.currentHandler == Immediate && s.yielding) then s.defaultHandler
    else s.mux.currentHandler
  }

  predicate Places(s: State, a: Action, s': State) {
    && (a.Close? ==> s.pass.Pass? && s.pass.phase.Closing? && s'.mux.currentHandler == HandlerAtEnd(s))
    && (!a.Close? ==> s'.mux.currentHandler == s.mux.currentHandler)
    && (InUserCode(s') ==> InUserCode(s) || CallOf(s, a).Some?)
    && (a.User? ==> InUserCode(s))
    && (a.CallRun? ==> s.mux.currentHandler == Idle && !InUserCode(s))
    && (CallOf(s, a).Some? ==> !a.Close? && AboutToCall(s) && s'.pass.Pass?)
  }

  /** A pass of normal_run, in the handler that the task is in, is about to call user code. */
  predicate AboutToCall(s: State) {
    && s.pass.Pass? && s.pass.frame.event == NormalRun
    && s.pass.frame.handler == s.mux.currentHandler && s.mux.currentHandler != Idle
    && (s.targetHandler != Idle ==> s.mux.currentHandler == s.targetHandler)
    && !s.yielding && !InUserCode(s)
  }

  lemma StepPlaces(s: State, t: Tid, a: Action)
    requires Inv(s) && Can(s, t, a)
    ensures Places(s, a, Step(s, t, a))
  {
    if CanCall(s, t, a) {
      CallPlaces(s, t, a);
    } else if CanThread(s, t, a) {
      ThreadPlaces(s, t, a);
    } else {
      PassPlaces(s, t, a);
    }
  }

  lemma CallPlaces(s: State, t: Tid, a: Action)
    requires Inv(s) && CanCall(s, t, a)
    ensures Places(s, a, DoCall(s, t, a))
  {
  }

  lemma ThreadPlaces(s: State, t: Tid, a: Action)
    requires Inv(s) && CanThread(s, t, a)
    ensures Places(s, a, ThreadStep(s, t, a))
  {
    hide Inv;
    if a.Enter? {
      EnterPlaces(s, t);
    }
  }

  lemma EnterPlaces(s: State, t: Tid)
    requires CanThread(s, t, Enter)
    ensures Places(s, Enter, EnterStep(s, t))
  {
  }

  lemma PassPlaces(s: State, t: Tid, a: Action)
    requires Inv(s) && CanPass(s, t, a)
    ensures Places(s, a, PassStep(s, t, a))
  {
    if a.TestAbort? {
      TestAbortPlaces(s, t);
    } else if a.User? {
      hide Inv;
      UserPlaces(s, t, a.call);
    } else if a.Close? {
      ClosePlaces(s, t);
    } else if OfWaitCondition(a) {
      hide Inv;
      ConditionPlaces(s, t, a);
    } else if IsLocking(a) {
      hide Inv;
      LockingPlaces(s, t, a);
    } else if a.Prepare? {
      PreparePlaces(s, t);
    } else {
      hide Inv;
      InnerPlaces(s, t, a);
    }
  }

  lemma InnerPlaces(s: State, t: Tid, a: Action)
    requires CanPass(s, t, a)
    requires a.Check? || a.Begin? || a.Decide? || a.AbortSelf? || a.ResetInside?
    ensures Places(s, a, PassStep(s, t, a))
  {
    hide Decision;
  }

  lemma PreparePlaces(s: State, t: Tid)
    requires Inv(s) && CanPass(s, t, Prepare)
    ensures Places(s, Prepare, PrepareStep(s, t))
  {
    PrepareFacts(s);
    hide Inv;
  }

  lemma PrepareFacts(s: State)
    requires Inv(s) && s.pass.Pass? && (s.pass.phase == Running(Preparing) || s.pass.phase == TestingAbort)
    ensures AboutToCall(s)
  {
  }

  lemma TestAbortPlaces(s: State, t: Tid)
    requires Inv(s) && CanPass(s, t, TestAbort)
    ensures Places(s, TestAbort, TestAbortStep(s, t))
  {
    PrepareFacts(s);
    hide Inv;
    if s.pass.frame.state == Killed {
      KilledLeaks(s, t);
      hide TestAbortStep;
    } else {
      RunFrame(s, t);
      RunPlaces(s, t);
    }
  }

  lemma RunPlaces(s: State, t: Tid)
    requires CanPass(s, t, TestAbort) && s.pass.frame.state != Killed && InFrame(s, TestAbortStep(s, t))
    ensures InUserCode(TestAbortStep(s, t)) ==> CallOf(s, TestAbort).Some?
  {
    hide LeakStep;
  }

  lemma UserPlaces(s: State, t: Tid, c: UserCall)
    requires CanPass(s, t, User(c))
    ensures Places(s, User(c), UserStep(s, c))
  {
  }

  lemma ClosePlaces(s: State, t: Tid)
    requires Inv(s) && CanPass(s, t, Close)
    ensures Places(s, Close, CloseStep(s, t))
  {
    CloseFacts(s);
    hide Inv;
  }

  lemma CloseFacts(s: State)
    requires Inv(s) && s.pass.Pass? && s.pass.phase.Closing?
    ensures s.targetHandler != Immediate && s.defaultHandler != Idle
    ensures s.pass.frame.event == NormalRun ==> s.mux.currentHandler != Idle
    ensures s.pass.frame.event != NormalRun ==> s.mux.currentHandler != Immediate && !s.yielding
    ensures s.yielding ==> s.targetHandler != Idle || s.defaultHandler != Immediate
  {
  }

  lemma ConditionPlaces(s: State, t: Tid, a: Action)
    requires CanPass(s, t, a) && OfWaitCondition(a)
    ensures Places(s, a, PassStep(s, t, a))
  {
    hide SubStates.Wait;
  }

  lemma LockingPlaces(s: State, t: Tid, a: Action)
    requires CanPass(s, t, a) && IsLocking(a)
    ensures Places(s, a, PassStep(s, t, a))
  {
  }

  lemma HandlersAreNamed(acts: seq<Act>)
    ensures LastTarget(acts) == Idle || LastTarget(acts) in Named(acts)
    ensures LastDefault(acts) == Idle || LastDefault(acts) in Named(acts)
  {
  }

  lemma {:induction false} TaskIsInNamed(run: seq<State>, acts: seq<Act>, i: nat)
    requires IsTrace(run, acts) && i < |run|
    ensures run[i].mux.currentHandler == Idle || run[i].mux.currentHandler in Named(acts[..i])
  {
    hide Can, Step, Inv;
    if i > 0 {
      TaskIsInNamed(run, acts, i - 1);
      StepOfTrace(run, acts, i - 1);
      StepPlaces(run[i - 1], acts[i - 1].thread, acts[i - 1].action);
      assert acts[..i][..i - 1] == acts[..i - 1];
      HandlersAreNamed(acts[..i - 1]);
    }
  }

  /** User code runs in a handler that someone asked for, and in the target if there is one. */
  lemma RunsWhereAsked(run: seq<State>, acts: seq<Act>, j: nat, c: Call)
    requires IsTrace(run, acts) && j < |acts| && Calls(run[j], run[j + 1], c)
    ensures run[j].pass.Pass? && run[j].pass.frame.handler in Named(acts[..j])
    ensures LastTarget(acts[..j]) != Idle ==> run[j].pass.frame.handler == LastTarget(acts[..j])
  {
    hide Can, Step, Inv;
    StepOfTrace(run, acts, j);
    StepPlaces(run[j], acts[j].thread, acts[j].action);
    TaskIsInNamed(run, acts, j);
  }

  /** If run() was called with h, and nobody ever named another handler, then user code runs in h, and while nobody runs
      the task it is in h or idle. */
  lemma RunsInDefault(run: seq<State>, acts: seq<Act>, h: Handler)
    requires IsTrace(run, acts) && Named(acts) <= {h, Idle} && h != Idle
    ensures |run| == |acts| + 1
    ensures forall j | 0 <= j < |acts| && CallsAt(run, j) :: run[j].pass.Pass? && run[j].pass.frame.handler == h
    ensures forall i | 0 <= i < |run| :: run[i].mux.currentHandler == Idle || run[i].mux.currentHandler == h
    ensures forall i | 0 <= i < |run| && run[i].multiplexMutex == None :: run[i].mux.currentHandler != Immediate
  {
    hide Can, Step, Inv;
    TraceIsRun(run, acts);
    forall i | 0 <= i < |run|
      ensures run[i].mux.currentHandler == Idle || run[i].mux.currentHandler == h
      ensures run[i].multiplexMutex == None ==> run[i].mux.currentHandler != Immediate
    {
      TaskIsInNamed(run, acts, i);
      NamedGrows(acts, i);
      RunReachable(run, i);
      HandlerDiscipline(run[i]);
    }
    forall j | 0 <= j < |acts| && CallsAt(run, j)
      ensures run[j].pass.Pass? && run[j].pass.frame.handler == h
    {
      StepOfTrace(run, acts, j);
      StepPlaces(run[j], acts[j].thread, acts[j].action);
    }
  }

  lemma {:induction false} NamedGrows(acts: seq<Act>, i: nat)
    requires i <= |acts|
    ensures Named(acts[..i]) <= Named(acts)
    decreases |acts|
  {
    if i < |acts| {
      NamedGrows(acts[..|acts| - 1], i);
      assert acts[..|acts| - 1][..i] == acts[..i];
    } else {
      assert acts[..i] == acts;
    }
  }

  /** No step from i to j calls user code. */
  ghost predicate NoCalls(run: seq<State>, i: nat, j: nat)
    requires i <= j < |run|
  {
    forall k | i <= k < j :: run[k + 1].history.calls == run[k].history.calls
  }

  /** What holds from the time at which the task is idle, until user code runs. */
  predicate Rested(s: State) {
    && !InUserCode(s) && !s.yielding
    && (s.targetHandler == Idle ==> s.mux.currentHandler == Idle || s.mux.currentHandler == s.defaultHandler)
  }

  lemma IdleIsRested(s: State)
    requires Inv(s) && s.mux.currentHandler == Idle
    ensures Rested(s)
  {
  }

  lemma {:induction false} StaysRested(run: seq<State>, acts: seq<Act>, i: nat, j: nat)
    requires IsTrace(run, acts) && i <= j < |run| && run[i].mux.currentHandler == Idle && NoCalls(run, i, j)
    ensures Rested(run[j])
    decreases j
  {
    hide Can, Step, Inv;
    if i == j {
      TraceIsRun(run, acts);
      RunInv(run, j);
      IdleIsRested(run[j]);
    } else {
      StaysRested(run, acts, i, j - 1);
      StepOfTrace(run, acts, j - 1);
      StepPlaces(run[j - 1], acts[j - 1].thread, acts[j - 1].action);
      StepHeeds(run[j - 1], acts[j - 1].thread, acts[j - 1].action);
    }
  }

  /** A task without a target that was idle runs next in its default handler. */
  lemma WakesInDefault(run: seq<State>, acts: seq<Act>, i: nat, j: nat, c: Call)
    requires IsTrace(run, acts) && i <= j < |acts| && run[i].mux.currentHandler == Idle && NoCalls(run, i, j)
    requires Calls(run[j], run[j + 1], c) && LastTarget(acts[..j]) == Idle
    ensures run[j].pass.Pass? && run[j].pass.frame.handler == LastDefault(acts[..j])
  {
    hide Can, Step, Inv;
    StepOfTrace(run, acts, j);
    StepPlaces(run[j], acts[j].thread, acts[j].action);
    StaysRested(run, acts, i, j);
  }

  predicate Yields(a: Action) {
    a.User? && (a.call.Yield? || a.call.YieldTo?)
  }

  ghost predicate YieldsBetween(acts: seq<Act>, i: nat, j: nat) {
    exists k :: i < k < j && k < |acts| && Yields(acts[k].action)
  }

  ghost predicate ClosesBetween(acts: seq<Act>, i: nat, j: nat) {
    exists k :: i < k < j && k < |acts| && acts[k].action.Close?
  }

  /** What holds after user code was called in handler h; it may have called yield(), and the pass may have ended. */
  predicate InPlace(s: State, h: Handler, yielded: bool, closed: bool) {
    if !closed then
      s.mux.currentHandler == h && s.yielding == yielded
    else
      && !InUserCode(s) && !s.yielding
      && (s.targetHandler == Idle && s.mux.currentHandler != Idle ==>
            s.mux.currentHandler == if h == Immediate && yielded then s.defaultHandler else h)
  }

  lemma {:induction false} StaysInPlace(run: seq<State>, acts: seq<Act>, i: nat, j: nat, c: Call)
    requires IsTrace(run, acts) && i < j < |run| && Calls(run[i], run[i + 1], c) && NoCalls(run, i + 1, j)
    requires forall k | i < k <= j :: run[k].mux.currentHandler != Idle
    ensures InPlace(run[j], run[i].mux.currentHandler, YieldsBetween(acts, i, j), ClosesBetween(acts, i, j))
    decreases j
  {
    hide Can, Step, Inv;
    StepOfTrace(run, acts, j - 1);
    StepPlaces(run[j - 1], acts[j - 1].thread, acts[j - 1].action);
    StepHeeds(run[j - 1], acts[j - 1].thread, acts[j - 1].action);
    if i < j - 1 {
      StaysInPlace(run, acts, i, j - 1, c);
      InPlaceKept(run[j - 1], acts[j - 1].action, run[j], run[i].mux.currentHandler,
                  YieldsBetween(acts, i, j - 1), ClosesBetween(acts, i, j - 1));
    }
  }

  lemma InPlaceKept(s: State, a: Action, s': State, h: Handler, yielded: bool, closed: bool)
    requires Places(s, a, s') && Heeds(s, a, s') && InPlace(s, h, yielded, closed)
    requires CallOf(s, a) == None && s.mux.currentHandler != Idle
    ensures InPlace(s', h, yielded || Yields(a), closed || a.Close?)
  {
  }

  /** A task without a target that does not become idle stays in its handler; but from the immediate handler yield()
      leads to the default handler. */
  lemma RunsInPlace(run: seq<State>, acts: seq<Act>, i: nat, j: nat, c: Call, c': Call)
    requires IsTrace(run, acts) && i < j < |acts| && NoCalls(run, i + 1, j)
    requires Calls(run[i], run[i + 1], c) && Calls(run[j], run[j + 1], c') && LastTarget(acts[..j]) == Idle
    requires forall k | i < k <= j :: run[k].mux.currentHandler != Idle
    ensures run[i].pass.Pass? && run[j].pass.Pass?
    ensures var h := run[i].pass.frame.handler;
      run[j].pass.frame.handler == if h == Immediate && YieldsBetween(acts, i, j) then LastDefault(acts[..j]) else h
  {
    hide Can, Step, Inv;
    StepOfTrace(run, acts, i);
    StepPlaces(run[i], acts[i].thread, acts[i].action);
    StepOfTrace(run, acts, j);
    StepPlaces(run[j], acts[j].thread, acts[j].action);
    StaysInPlace(run, acts, i, j, c);
  }

  // ---- yield() ----

  /** When the end of a round is the end of the pass: the task need not run, or it called yield(), or it shall run
      elsewhere. */
  lemma RoundsEnd(run: seq<State>, acts: seq<Act>, j: nat)
    requires IsTrace(run, acts) && j < |acts| && acts[j].action == Close
    ensures run[j].pass.Pass? && run[j].pass.phase.Closing?
    ensures run[j].pass.frame.event == NormalRun ==>
      var target := LastTarget(acts[..j]);
      (run[j + 1].pass == NoPass <==>
       || !run[j].pass.phase.needNewRun || Yielded(acts[..j])
       || (target != Idle && target != run[j].pass.frame.handler))
    ensures Yielded(acts[..j]) ==> run[j + 1].pass == NoPass
  {
    hide Can, Step, Inv, IsTrace;
    StepOfTrace(run, acts, j);
    RoundEnds(run[j], acts[j].thread);
  }

  lemma RoundEnds(s: State, t: Tid)
    requires Inv(s) && Can(s, t, Close)
    ensures s.pass.Pass? && s.pass.phase.Closing?
    ensures s.pass.frame.event == NormalRun ==>
      (Step(s, t, Close).pass == NoPass <==>
       || !s.pass.phase.needNewRun || s.yielding
       || (s.targetHandler != Idle && s.targetHandler != s.pass.frame.handler))
    ensures s.yielding ==> Step(s, t, Close).pass == NoPass
  {
    assert CanPass(s, t, Close);
    assert s.pass.frame.event == NormalRun ==>
      s.pass.frame.handler == s.mux.currentHandler && s.mux.currentHandler != Idle;
    hide Inv;
  }

  /** No user code runs between a yield() and the end of that pass. */
  lemma {:induction false} YieldStops(run: seq<State>, acts: seq<Act>, i: nat, j: nat)
    requires IsTrace(run, acts) && i < j <= |acts| && |run| == |acts| + 1 && Yields(acts[i].action)
    requires forall k | i < k < j :: !acts[k].action.Close?
    ensures Yielded(acts[..j]) && NoCalls(run, i, j)
    decreases j
  {
    hide Can, Step, Inv, IsTrace, Yielded;
    StepOfTrace(run, acts, j - 1);
    assert acts[..j][..j - 1] == acts[..j - 1];
    StillYielded(acts[..j]);
    if i < j - 1 {
      YieldStops(run, acts, i, j - 1);
      StepPlaces(run[j - 1], acts[j - 1].thread, acts[j - 1].action);
    }
  }

  lemma StillYielded(acts: seq<Act>)
    requires acts != []
    ensures var a := acts[|acts| - 1].action;
      Yields(a) || (Yielded(acts[..|acts| - 1]) && !a.Close?) ==> Yielded(acts)
  {
  }

  // ---- The start of a round ----

  /** What a round runs: abort_impl or nothing instead of multiplex_impl and initialize_impl, if an abort() stands; and
      instead of multiplex_impl the test of the condition of wait_until(), until that was found true. */
  lemma RoundsStart(run: seq<State>, acts: seq<Act>, j: nat)
    requires IsTrace(run, acts) && j < |acts| && acts[j].action == TestAbort
    ensures |run| == |acts| + 1 && run[j].pass.Pass?
    ensures var s, s' := run[j], run[j + 1];
      match s.pass.frame.state
      case Multiplex =>
        if AbortStands(acts[..j]) then Calls(s, s', AbortImpl)
        else if Installed(acts[..j]) then s'.history.calls == s.history.calls && InPhase(s', acts[j].thread, EVALUATES)
        else Calls(s, s', MultiplexImpl(LastState(acts[..j])))
      case Initialize =>
        if AbortStands(acts[..j]) then s'.history.calls == s.history.calls else Calls(s, s', InitializeImpl)
      case Abort => Calls(s, s', AbortImpl)
      case _ => s'.history.calls == s.history.calls
  {
    hide Can, Step, Inv, IsTrace;
    StepOfTrace(run, acts, j);
    RoundStarts(run[j], acts[j].thread);
  }

  const EVALUATES := Running(WantEvaluate)

  lemma RoundStarts(s: State, t: Tid)
    requires Inv(s) && Can(s, t, TestAbort)
    ensures s.pass.Pass?
    ensures CallOf(s, TestAbort) ==
      match s.pass.frame.state
      case Multiplex =>
        if s.sub.aborted then Some(AbortImpl)
        else if s.mux.waitCondition then None
        else Some(MultiplexImpl(s.sub.runState))
      case Initialize => if s.sub.aborted then None else Some(InitializeImpl)
      case Abort => Some(AbortImpl)
      case _ => None
    ensures s.pass.frame.state == Multiplex && !s.sub.aborted && s.mux.waitCondition ==>
      InPhase(Step(s, t, TestAbort), t, EVALUATES)
  {
    assert CanPass(s, t, TestAbort) && Step(s, t, TestAbort) == TestAbortStep(s, t);
    assert s.pass.frame.waiting == s.mux.waitCondition && s.pass.frame.runState == s.sub.runState;
    hide Inv, Step, Can, CanPass;
  }

  // ---- The decision at the end of a round ----

  /** A call of run() that neither kill() nor a call of finish_impl followed. */
  ghost predicate Restarts(run: seq<State>, acts: seq<Act>, n: nat)
    requires n <= |acts| && |run| == |acts| + 1
  {
    n > 0 &&
    (|| Resets(acts[n - 1].action)
     || (&& acts[n - 1].action != User(Kill) && !Calls(run[n - 1], run[n], FinishImpl)
         && Restarts(run, acts, n - 1)))
  }

  lemma {:induction false} TraceRestarts(run: seq<State>, acts: seq<Act>, i: nat)
    requires IsTrace(run, acts) && i < |run|
    ensures |run| == |acts| + 1 && run[i].sub.reset == Restarts(run, acts, i)
  {
    hide Can, Step, Inv, Resets;
    if i > 0 {
      TraceRestarts(run, acts, i - 1);
      StepOfTrace(run, acts, i - 1);
      StepHeeds(run[i - 1], acts[i - 1].thread, acts[i - 1].action);
      CallIs(run[i - 1].history, run[i].history, CallOf(run[i - 1], acts[i - 1].action));
      FinishImplIsCalled(run[i - 1], acts[i - 1]);
    }
  }

  lemma FinishImplIsCalled(s: State, x: Act)
    requires Can(s, x.thread, x.action)
    ensures CallOf(s, x.action) == Some(FinishImpl) <==> BeginsToFinish(s, x.action)
  {
  }

  lemma CallIs(h: History, h': History, c: Option<Call>)
    requires Grows(h, h', c)
    ensures forall x :: h'.calls == h.calls + [x] <==> c == Some(x)
  {
    forall x ensures h'.calls == h.calls + [x] <==> c == Some(x) {
      if h'.calls == h.calls + [x] {
        assert h'.calls[|h.calls|] == x;
      }
    }
  }

  /** After the callback the task starts a new life if and only if finish_impl or the callback called run(), and kill()
      was not called after that; otherwise it is killed. */
  lemma RunsAgain(run: seq<State>, acts: seq<Act>, j: nat)
    requires IsTrace(run, acts) && j < |acts| && acts[j].action == Decide
    ensures |run| == |acts| + 1 && run[j].pass.Pass?
    ensures run[j].pass.frame.event == NormalRun && run[j].pass.frame.state == Callback ==>
      run[j + 1].mux.baseState == if Restarts(run, acts, j) then Reset else Killed
  {
    hide Can, Step, Inv, IsTrace;
    StepOfTrace(run, acts, j);
    TraceRestarts(run, acts, j);
    Decides(run[j], acts[j].thread);
  }

  /** And before that: an abort() that stands ends the task, and so does finish(), after the round in which it was
      called; otherwise multiplex_impl is called again. */
  lemma EndsWhenAsked(run: seq<State>, acts: seq<Act>, j: nat)
    requires IsTrace(run, acts) && j < |acts| && acts[j].action == Decide
    ensures |run| == |acts| + 1 && run[j].pass.Pass?
    ensures run[j].pass.frame.event == NormalRun && run[j].pass.frame.state == Multiplex ==>
      run[j + 1].mux.baseState ==
        if AbortStands(acts[..j]) then Abort else if AskedToFinish(acts[..j]) then Finish else Multiplex
    ensures run[j].pass.frame.event == NormalRun && run[j].pass.frame.state == Initialize ==>
      run[j + 1].mux.baseState == if AbortStands(acts[..j]) then Abort else Multiplex
  {
    hide Can, Step, Inv, IsTrace;
    StepOfTrace(run, acts, j);
    Decides(run[j], acts[j].thread);
  }

  lemma Decides(s: State, t: Tid)
    requires Inv(s) && Can(s, t, Decide)
    ensures s.pass.Pass?
    ensures var base := Step(s, t, Decide).mux.baseState;
      match s.pass.frame.state
      case Callback => s.pass.frame.event == NormalRun ==> base == if s.sub.reset then Reset else Killed
      case Multiplex =>
        s.pass.frame.event == NormalRun ==>
          base == if s.sub.aborted then Abort else if s.sub.finished then Finish else Multiplex
      case Initialize => s.pass.frame.event == NormalRun ==> base == if s.sub.aborted then Abort else Multiplex
      case _ => true
  {
    assert CanPass(s, t, Decide) && Step(s, t, Decide) == DecideStep(s, t);
    DecisionFacts(s);
    hide Inv, Step, Can, CanPass;
  }

  /** The pass drops the reference to the task at its end if and only if it killed the task after the callback. */
  lemma DestroyedAfterCallback(run: seq<State>, acts: seq<Act>, j: nat)
    requires IsTrace(run, acts) && j < |acts| && acts[j].action == Decide
    ensures |run| == |acts| + 1 && run[j + 1].pass.Pass? && run[j + 1].pass.phase.Closing?
    ensures run[j + 1].pass.phase.destruct <==>
      run[j].mux.baseState == Callback && run[j + 1].mux.baseState == Killed
  {
    hide Can, Step, Inv, IsTrace;
    StepOfTrace(run, acts, j);
    Destroys(run[j], acts[j].thread);
  }

  lemma Destroys(s: State, t: Tid)
    requires Inv(s) && Can(s, t, Decide)
    ensures var s' := Step(s, t, Decide);
      && s'.pass.Pass? && s'.pass.phase.Closing?
      && (s'.pass.phase.destruct <==> s.mux.baseState == Callback && s'.mux.baseState == Killed)
  {
    assert CanPass(s, t, Decide) && Step(s, t, Decide) == DecideStep(s, t);
    assert s.pass.frame.event == NormalRun ==> StateAgrees(s, s.pass.frame.state);
    hide Inv, Step, Can, CanPass;
  }

  lemma DecisionFacts(s: State)
    requires Inv(s) && s.pass.Pass? && s.pass.phase == Deciding
    ensures s.pass.frame.event == NormalRun && s.pass.frame.state == Multiplex ==> s.mux.baseState == Multiplex
  {
  }

  // ---- Calls from outside ----

  lemma OthersLeaveThread(s: State, u: Tid, a: Action, t: Tid)
    requires Can(s, u, a) && t != u
    ensures |Step(s, u, a).threads| == |s.threads| && (t < |s.threads| ==> Step(s, u, a).threads[t] == s.threads[t])
  {
    hide DoCall, ThreadStep, PassStep;
    if CanCall(s, u, a) {
      CallAside(s, u, a);
    } else if CanThread(s, u, a) {
      ThreadLeavesOthers(s, u, a);
    } else {
      PassMoves(s, u, a);
    }
  }

  lemma ThreadLeavesOthers(s: State, u: Tid, a: Action)
    requires CanThread(s, u, a)
    ensures var s' := ThreadStep(s, u, a);
      |s'.threads| == |s.threads| && forall t | 0 <= t < |s.threads| && t != u :: s'.threads[t] == s.threads[t]
  {
    if !a.TakeEngine? && !a.LeaveEngine? {
      ThreadAside(s, u, a);
      hide ThreadStep;
    }
  }

  /** Thread t takes none of the steps between i and j. */
  predicate Pauses(acts: seq<Act>, i: nat, j: nat, t: Tid)
    requires j <= |acts|
  {
    forall k | i < k < j :: acts[k].thread != t
  }

  lemma {:induction false} StaysThere(run: seq<State>, acts: seq<Act>, i: nat, j: nat, t: Tid)
    requires IsTrace(run, acts) && i < j <= |acts| && Pauses(acts, i, j, t) && t < |run[i + 1].threads|
    ensures t < |run[j].threads| && run[j].threads[t] == run[i + 1].threads[t]
    decreases j
  {
    hide Can, Step;
    if i + 1 < j {
      StaysThere(run, acts, i, j - 1, t);
      assert IsStep(run[j - 1], acts[j - 1], run[j]);
      OthersLeaveThread(run[j - 1], acts[j - 1].thread, acts[j - 1].action, t);
    }
  }

  /** A call of multiplex(normal_run, h) by a thread of the pool, or by mainloop() of the engine h. */
  predicate AsksForRun(a: Action, h: Handler) {
    a == CallMultiplex(h) || (a.CallMainloop? && h == Engine(a.engine))
  }

  /** It is let in if and only if the task is in that handler and nobody runs it. */
  lemma NormalRunIsLetIn(run: seq<State>, acts: seq<Act>, i: nat, j: nat, t: Tid, h: Handler)
    requires IsTrace(run, acts) && i < j < |acts| && acts[i].thread == t && AsksForRun(acts[i].action, h)
    requires acts[j].thread == t && Pauses(acts, i, j, t)
    ensures acts[j].action == Enter && |run| == |acts| + 1
    ensures InPass(run[j + 1], t) <==> run[j].mux.currentHandler == h && run[j].multiplexMutex == None
  {
    hide Can, Step, Inv, IsTrace;
    StepOfTrace(run, acts, i);
    StepOfTrace(run, acts, j);
    AsksToEnter(run[i], acts[i], h);
    StaysThere(run, acts, i, j, t);
    Enters(run[j], acts[j]);
  }

  lemma AsksToEnter(s: State, x: Act, h: Handler)
    requires Can(s, x.thread, x.action) && AsksForRun(x.action, h)
    ensures var s' := Step(s, x.thread, x.action);
      && x.thread < |s'.threads|
      && s'.threads[x.thread].Entering? && s'.threads[x.thread].event == NormalRun && s'.threads[x.thread].handler == h
  {
    assert CanCall(s, x.thread, x.action);
  }

  lemma Enters(s: State, x: Act)
    requires Inv(s) && Can(s, x.thread, x.action) && x.thread < |s.threads| && s.threads[x.thread].Entering?
    ensures x.action == Enter
    ensures var s', ts := Step(s, x.thread, Enter), s.threads[x.thread];
      InPass(s', x.thread) <==> !TurnedAway(s, ts.event, ts.handler)
  {
    assert CanThread(s, x.thread, x.action);
    assert s.pass == NoPass <==> s.multiplexMutex == None;
    hide Inv;
    if TurnedAway(s, s.threads[x.thread].event, s.threads[x.thread].handler) {
      assert Step(s, x.thread, Enter).threads[x.thread] != Inside;
    }
  }

  /** A signal from outside that wakes up the task leads its thread to multiplex(schedule_run), which is let in if and
      only if nobody runs the task; any other signal just returns. */
  lemma SignalIsDelivered(run: seq<State>, acts: seq<Act>, i: nat, j: nat, t: Tid, c: Mask)
    requires IsTrace(run, acts) && i < j < |acts| && acts[i] == Act(t, CallSignal(c))
    requires acts[j].thread == t && Pauses(acts, i, j, t)
    ensures |run| == |acts| + 1
    ensures Wakes(run[i].sub, c) ==>
      acts[j].action == Enter && (InPass(run[j + 1], t) <==> run[j].multiplexMutex == None)
    ensures !Wakes(run[i].sub, c) ==> t < |run[i + 1].threads| && run[i + 1].threads[t] == Outside
  {
    hide Can, Step, Inv, IsTrace, Wakes;
    StepOfTrace(run, acts, i);
    StepOfTrace(run, acts, j);
    SignalLeads(run[i], t, c);
    StaysThere(run, acts, i, j, t);
    if Wakes(run[i].sub, c) {
      Enters(run[j], acts[j]);
    }
  }

  lemma SignalLeads(s: State, t: Tid, c: Mask)
    requires Can(s, t, CallSignal(c))
    ensures var s' := Step(s, t, CallSignal(c));
      t < |s'.threads| &&
      s'.threads[t] == if Wakes(s.sub, c) then Entering(ScheduleRun, Idle, Return) else Outside
  {
    hide SubStates.Signal, Wakes;
  }

  // ---- need_run ----

  /** A step that answers the requests for a run: begin_loop, or a wait that makes the task idle. */
  predicate Answers(s: State, a: Action, s': State) {
    a.Begin? || (a.Close? && s'.pass != NoPass) || (IsWait(a) && s'.sub.idle != {})
  }

  ghost predicate IsRequested(run: seq<State>, acts: seq<Act>, n: nat)
    requires n <= |acts| && |run| == |acts| + 1
  {
    exists k :: 0 <= k < n && Requests(run[k], acts[k].action) && NotAnswered(run, acts, k, n)
  }

  predicate NotAnswered(run: seq<State>, acts: seq<Act>, k: nat, n: nat)
    requires n <= |acts| && |run| == |acts| + 1
  {
    forall l | k < l < n :: !Answers(run[l], acts[l].action, run[l + 1])
  }

  /** need_run is set exactly if abort(), run(), or a signal that woke up the task, has not been answered yet. */
  lemma {:induction false} NeedRunExactly(run: seq<State>, acts: seq<Act>, n: nat)
    requires IsTrace(run, acts) && n <= |acts|
    ensures |run| == |acts| + 1 && (run[n].sub.needRun <==> IsRequested(run, acts, n))
  {
    hide Can, Step, Inv, Requests, Answers;
    if n > 0 {
      NeedRunExactly(run, acts, n - 1);
      StepOfTrace(run, acts, n - 1);
      NeedRunMoves(run[n - 1], acts[n - 1].thread, acts[n - 1].action);
      RequestedOn(run, acts, n);
    }
  }

  lemma RequestedOn(run: seq<State>, acts: seq<Act>, n: nat)
    requires 0 < n <= |acts| && |run| == |acts| + 1
    ensures IsRequested(run, acts, n) <==>
      || Requests(run[n - 1], acts[n - 1].action)
      || (IsRequested(run, acts, n - 1) && !Answers(run[n - 1], acts[n - 1].action, run[n]))
  {
    hide Requests, Answers;
    if IsRequested(run, acts, n - 1) && !Answers(run[n - 1], acts[n - 1].action, run[n]) {
      var k :| 0 <= k < n - 1 && Requests(run[k], acts[k].action) && NotAnswered(run, acts, k, n - 1);
      assert NotAnswered(run, acts, k, n);
    }
    if Requests(run[n - 1], acts[n - 1].action) {
      assert NotAnswered(run, acts, n - 1, n);
    }
    if IsRequested(run, acts, n) && !Requests(run[n - 1], acts[n - 1].action) {
      var k :| 0 <= k < n && Requests(run[k], acts[k].action) && NotAnswered(run, acts, k, n);
      assert NotAnswered(run, acts, k, n - 1);
    }
  }

  lemma NeedRunMoves(s: State, t: Tid, a: Action)
    requires Can(s, t, a)
    ensures var s' := Step(s, t, a);
      s'.sub.needRun <==> Requests(s, a) || (s.sub.needRun && !Answers(s, a, s'))
  {
    hide Can, Step, Requests, Answers;
    if s.sub.needRun {
      NeedRunStays(s, t, a);
    } else {
      WhatSetsNeedRun(s, t, a);
    }
  }

  lemma NeedRunStays(s: State, t: Tid, a: Action)
    requires Can(s, t, a) && s.sub.needRun
    ensures Step(s, t, a).sub.needRun <==> Requests(s, a) || !Answers(s, a, Step(s, t, a))
  {
    hide SubStates.SignalMasks, DoCall, ThreadStep, PassStep;
    if CanCall(s, t, a) {
      NeedRunStaysInCall(s, t, a);
    } else if CanThread(s, t, a) {
      NeedRunStaysOutside(s, t, a);
    } else {
      NeedRunStaysInside(s, t, a);
    }
  }

  lemma NeedRunStaysInCall(s: State, t: Tid, a: Action)
    requires CanCall(s, t, a) && s.sub.needRun
    ensures DoCall(s, t, a).sub.needRun && !Answers(s, a, DoCall(s, t, a))
  {
  }

  lemma NeedRunStaysOutside(s: State, t: Tid, a: Action)
    requires CanThread(s, t, a) && s.sub.needRun
    ensures ThreadStep(s, t, a).sub.needRun && !Answers(s, a, ThreadStep(s, t, a))
  {
    if a.Enter? {
      assert EnterStep(s, t).sub == s.sub;
    }
  }

  lemma NeedRunStaysInside(s: State, t: Tid, a: Action)
    requires CanPass(s, t, a) && s.sub.needRun
    ensures PassStep(s, t, a).sub.needRun <==> !Answers(s, a, PassStep(s, t, a))
    ensures Requests(s, a) ==> !Answers(s, a, PassStep(s, t, a))
  {
    if a.TestAbort? {
      TestAbortRequests(s, t);
      hide PassStep, CanPass;
    } else if a.User? {
      NeedRunStaysInUser(s, t, a.call);
    } else if OfWaitCondition(a) {
      NeedRunStaysInCondition(s, t, a);
    } else if IsLocking(a) {
      LockingRequests(s, t, a);
      hide PassStep, CanPass;
    } else if a.Close? {
      NeedRunAtEnd(s, t);
    } else {
      NeedRunElsewhere(s, t, a);
    }
  }

  lemma NeedRunStaysInUser(s: State, t: Tid, c: UserCall)
    requires CanPass(s, t, User(c)) && s.sub.needRun
    ensures UserStep(s, c).sub.needRun <==> !Answers(s, User(c), UserStep(s, c))
    ensures Requests(s, User(c)) ==> !Answers(s, User(c), UserStep(s, c))
  {
  }

  lemma NeedRunStaysInCondition(s: State, t: Tid, a: Action)
    requires CanPass(s, t, a) && OfWaitCondition(a) && s.sub.needRun
    ensures PassStep(s, t, a).sub.needRun <==> !Answers(s, a, PassStep(s, t, a))
    ensures !Requests(s, a)
  {
    WaitAnswers(s.sub, s.watched);
    hide SubStates.Wait;
  }

  lemma WaitAnswers(s: SubState, c: Mask)
    ensures s.needRun ==> (Wait(s, c).needRun <==> Wait(s, c).idle == {})
  {
  }

  lemma NeedRunAtEnd(s: State, t: Tid)
    requires CanPass(s, t, Close) && s.sub.needRun
    ensures CloseStep(s, t).sub.needRun <==> !Answers(s, Close, CloseStep(s, t))
    ensures !Requests(s, Close)
  {
  }

  lemma NeedRunElsewhere(s: State, t: Tid, a: Action)
    requires CanPass(s, t, a) && s.sub.needRun
    requires a.Check? || a.Begin? || a.Prepare? || a.Decide? || a.AbortSelf? || a.ResetInside?
    ensures PassStep(s, t, a).sub.needRun <==> !Answers(s, a, PassStep(s, t, a))
    ensures Requests(s, a) ==> !Answers(s, a, PassStep(s, t, a))
  {
    if a.Decide? {
      assert DecideStep(s, t).sub == s.sub;
    } else if a.Check? {
      assert CheckStep(s, t).sub == s.sub;
    }
  }
}
