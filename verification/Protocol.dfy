/** One task and all the threads that use it, as a step system.

    A step is one critical section, or the taking of one lock that can block. mSubState is a leaf: nothing is acquired
    while it is held, so each of its critical sections is one step. The three other mutexes of a task are explicit:
    mState, mMultiplexMutex (taken by try_lock only) and mRunMutex; and so is the mutex of each engine. */
module Protocol {
  import opened TaskTypes
  import opened SubStates
  import opened Lifecycle

  /** The data that mState protects. */
  datatype MultiplexState = MultiplexState(baseState: BaseState, currentHandler: Handler, waitCondition: bool)

  /** What a thread does when its call of multiplex() returns: return to its caller, wait for
      mRunMutex in abort(), or ask in AIEngine::mainloop whether the task is still active. */
  datatype After = Return | Join(life: nat) | Test(engine: EngineId)

  /** The locals of the call of multiplex() that holds mMultiplexMutex. */
  datatype Frame = Frame(event: Event, handler: Handler, state: BaseState, waiting: bool, runState: nat, after: After)

  /** Where that call is. The names that start with Want stand before a lock that can block. */
  datatype Phase =
    | Checking                              // about to read need_run, for schedule_run
    | Beginning                             // about to call begin_loop
    | WantRun | TestingAbort                // the top of the loop
    | Running(at: RunPhase)                 // past the test for a late abort, holding mRunMutex
    | WantState | Deciding | Closing(needNewRun: bool, destruct: bool)
    | Leaked                                // returned from bs_killed without unlocking mMultiplexMutex

  datatype RunPhase =
    | Preparing                             // the section before finish_impl, or at the start of callback()
    | InUser                                // inside one of the *_impl functions or the callback
    | WantSelfAbort                         // abort() called by the task itself
    | WantReadState | Resetting             // run() called from finish_impl or the callback
    | WantInstall | UntilWait               // wait_until
    | WantEvaluate | WaitAgain | Waking     // a pass that tests the wait condition
    | Returning                             // about to release mRunMutex

  datatype Pass = NoPass | Pass(phase: Phase, frame: Frame)

  datatype ThreadState =
    | Outside
    | WantRead | WantReset                  // the first call of run()
    | Entering(event: Event, handler: Handler, after: After)
    | Inside                                // in the pass
    | WantAbort | WantJoin(life: nat)       // abort()
    | OwesSignal                            // made the wait condition true, and has still to call signal()
    | WantTest(engine: EngineId)            // mainloop(), after multiplex() returned
    | WantEngine(engine: EngineId, erase: bool) | InEngine(engine: EngineId, erase: bool)

  /** What happened so far; no step depends on it, except that run() is called once from outside. */
  datatype History = History(
    calls: seq<Call>,
    progress: LifeState,  // how far these calls got, see Lifecycle.Replay
    life: nat,            // the number of times that reset() was executed
    runCalled: bool,
    booted: bool,         // multiplex(initial_run) started
    barrier: bool,        // in this life, abort() returned to a thread that does not run the task
    stale: bool,          // an insert_abort of an earlier life was let in during this life
    stray: bool,          // need_run was set when the task was killed, or abort() was called after that
    ending: Ending)

  /** How this life left bs_initialize or bs_multiplex, and what happened since. */
  datatype Ending = Ending(
    finished: bool,       // finish() had been called
    unasked: bool,        // without the aborted flag
    rerun: bool,          // finish_impl called run()
    again: bool)          // abort() was called since then, or since that call of run()

  datatype State = State(
    mux: MultiplexState,
    sub: SubState,
    targetHandler: Handler,
    defaultHandler: Handler,
    yielding: bool,
    stateMutex: Option<Tid>,
    multiplexMutex: Option<Tid>,
    runMutex: Option<Tid>,
    pass: Pass,
    threads: seq<ThreadState>,
    engineLists: map<EngineId, nat>,        // how often the task occurs in the list of each engine
    engineMutexes: map<EngineId, Tid>,      // the mutexes of engines that are held
    loopers: map<EngineId, Tid>,            // the thread that runs an element of the list, if any
    watched: Mask,                          // the conditions passed to wait_until
    holds: bool,                            // the value of the predicate passed to wait_until
    history: History)

  predicate Init(s: State) {
    && s.mux == MultiplexState(Reset, Idle, false)
    && s.sub == INITIAL_SUB_STATE
    && s.targetHandler == Idle && s.defaultHandler == Idle && !s.yielding
    && s.stateMutex == s.multiplexMutex == s.runMutex == None
    && s.pass == NoPass
    && (forall t | 0 <= t < |s.threads| :: s.threads[t] == Outside)
    && s.engineLists == map[] && s.engineMutexes == map[] && s.loopers == map[]
    && s.watched != {} && s.watched <= OR_CONDITIONS && !s.holds
    && s.history == History([], Fresh, 0, false, false, false, false, false, Ending(false, false, false, false))
  }

  /** The calls that user code can make. */
  datatype UserCall =
    | SetState(state: nat)
    | CallWait(conditions: Mask)
    | CallWaitUntil
    | CallFinish
    | Yield
    | YieldTo(handler: Handler)
    | Target(handler: Handler)
    | SelfSignal(condition: Mask)
    | SelfAbort
    | Rerun(newDefault: Option<Handler>)
    | Kill
    | ReturnFromImpl

  datatype Action =
    // Calls by a thread that is outside.
    | CallRun(handler: Handler)
    | CallMultiplex(handler: Handler)
    | CallMainloop(engine: EngineId)
    | CallSignal(condition: Mask)
    | CallAbort
    | SetPredicate(value: bool)
    // The critical sections of those calls.
    | ReadState | ResetOutside | Enter | AbortSection | JoinRun | PaySignal(condition: Mask) | TestActive
    | TakeEngine | LeaveEngine
    // The steps of the pass.
    | Check | Begin | LockRun | TestAbort | Prepare | User(call: UserCall) | AbortSelf
    | ReadStateInside | ResetInside | Install | UntilWaitSection | Evaluate | WaitAgainSection | WakeUp
    | UnlockRun | LockState | Decide | LockEngine | Close

  /** The steps of wait_until, and of a pass that tests the wait condition. */
  predicate OfWaitCondition(a: Action) {
    a.Install? || a.UntilWaitSection? || a.Evaluate? || a.WaitAgainSection? || a.WakeUp?
  }

  // ---- Auxiliary functions ----

  function Count(s: State, e: EngineId): nat {
    if e in s.engineLists then s.engineLists[e] else 0
  }

  predicate IsThread(s: State, t: Tid) {
    t < |s.threads|
  }

  predicate At(s: State, t: Tid, ts: ThreadState) {
    t < |s.threads| && s.threads[t] == ts
  }

  /** Thread t holds mMultiplexMutex and is inside multiplex(). */
  predicate InPass(s: State, t: Tid) {
    s.multiplexMutex == Some(t) && At(s, t, Inside) && s.pass.Pass?
  }

  predicate InPhase(s: State, t: Tid, p: Phase) {
    InPass(s, t) && s.pass.phase == p
  }

  function Goto(s: State, t: Tid, ts: ThreadState): State
    requires IsThread(s, t)
  {
    s.(threads := s.threads[t := ts])
  }

  function Continue(s: State, p: Phase): State
    requires s.pass.Pass?
  {
    s.(pass := s.pass.(phase := p))
  }

  function AfterState(after: After): ThreadState {
    match after
    case Return => Outside
    case Join(life) => WantJoin(life)
    case Test(e) => WantTest(e)
  }

  function Logged(s: State, c: Call): State {
    s.(history := s.history.(calls := s.history.calls + [c], progress := Advance(s.history.progress, c)))
  }

  // ---- Calls from outside ----

  predicate CanCall(s: State, t: Tid, a: Action) {
    && At(s, t, Outside)
    && match a
       case CallRun(h) => !s.history.runCalled && h != Idle
       case CallMultiplex(h) => h != Idle
       case CallMainloop(e) => e !in s.loopers && Count(s, e) > 0 && e !in s.engineMutexes
       case CallSignal(c) => c != {}
       case CallAbort => true
       case SetPredicate(_) => true
       case _ => false
  }

  function SignalStep(s: State, t: Tid, c: Mask): State
    requires IsThread(s, t)
  {
    Goto(s.(sub := Signal(s.sub, c)), t, if Wakes(s.sub, c) then Entering(ScheduleRun, Idle, Return) else Outside)
  }

  function DoCall(s: State, t: Tid, a: Action): State
    requires CanCall(s, t, a)
  {
    match a
    case CallRun(h) => Goto(s.(defaultHandler := h, history := s.history.(runCalled := true)), t, WantRead)
    case CallMultiplex(h) => Goto(s, t, Entering(NormalRun, h, Return))
    case CallMainloop(e) => Goto(s.(loopers := s.loopers[e := t]), t, Entering(NormalRun, Engine(e), Test(e)))
    case CallSignal(c) => SignalStep(s, t, c)
    case CallAbort => Goto(s, t, WantAbort)
    case SetPredicate(b) => Goto(s.(holds := b), t, if b then OwesSignal else Outside)
  }

  // ---- The critical sections of those calls ----

  predicate CanThread(s: State, t: Tid, a: Action) {
    && IsThread(s, t)
    && var ts := s.threads[t];
       match a
       case ReadState => ts == WantRead && s.stateMutex.None?
       case ResetOutside => ts == WantReset
       case Enter => ts.Entering? && s.stateMutex.None?
       case AbortSection => ts == WantAbort && s.stateMutex.None?
       case JoinRun => ts.WantJoin? && s.runMutex.None?
       case PaySignal(c) => ts == OwesSignal && !(c !! s.watched)
       case TestActive => ts.WantTest? && s.stateMutex.None?
       case TakeEngine => ts.WantEngine? && ts.engine !in s.engineMutexes
       case LeaveEngine => ts.InEngine?
       case _ => false
  }

  predicate TurnedAway(s: State, event: Event, handler: Handler) {
    || (event == InsertAbort && s.mux.baseState != Multiplex)
    || (event == NormalRun && handler != s.mux.currentHandler)
    || s.multiplexMutex.Some?
  }

  function EnterStep(s: State, t: Tid): State
    requires IsThread(s, t) && s.threads[t].Entering?
  {
    var Entering(event, handler, after) := s.threads[t];
    if TurnedAway(s, event, handler) then
      Goto(s, t, AfterState(after))
    else
      var frame := Frame(event, handler, s.mux.baseState, s.mux.waitCondition, s.sub.runState, after);
      Goto(s, t, Inside).(
        stateMutex := Some(t),
        multiplexMutex := Some(t),
        pass := Pass(if event == ScheduleRun then Checking else Beginning, frame),
        history := s.history.(
          booted := s.history.booted || event == InitialRun,
          stale := s.history.stale || IsStale(s, event, after)))
  }

  /** Is this the insert_abort of an abort() that belongs to an earlier life of the task? */
  predicate IsStale(s: State, event: Event, after: After) {
    event == InsertAbort && after != Join(s.history.life)
  }

  /** The part of abort() under mState and mSubState. */
  function AbortFlags(s: State): State {
    s.(sub := AbortSub(s.sub),
       history := s.history.(
         stray := s.history.stray || s.mux.baseState == Killed,
         ending := s.history.ending.(again := true)))
  }

  function AbortStep(s: State, t: Tid): State
    requires IsThread(s, t)
  {
    var isWaiting := s.mux.baseState == Multiplex && s.sub.idle != {};
    var life := s.history.life;
    Goto(AbortFlags(s), t, if isWaiting then Entering(InsertAbort, Idle, Join(life)) else WantJoin(life))
  }

  /** The critical section of reset(). */
  function ResetFlags(s: State): State {
    s.(sub := ResetSub(s.sub),
       history := s.history.(life := s.history.life + 1, barrier := false, stale := false))
  }

  /** A thread that called abort() gets mRunMutex and releases it. */
  function JoinStep(s: State, t: Tid): State
    requires IsThread(s, t) && s.threads[t].WantJoin?
  {
    var life := s.threads[t].life;
    Goto(s.(history := s.history.(barrier := s.history.barrier || (life > 0 && life == s.history.life))), t, Outside)
  }

  /** The call of active() in AIEngine::mainloop. */
  function TestStep(s: State, t: Tid): State
    requires IsThread(s, t) && s.threads[t].WantTest?
  {
    var e := s.threads[t].engine;
    Goto(s, t, WantEngine(e, s.mux.currentHandler != Engine(e)))
  }

  function TakeEngineStep(s: State, t: Tid): State
    requires IsThread(s, t) && s.threads[t].WantEngine?
  {
    var e := s.threads[t].engine;
    Goto(s, t, InEngine(e, s.threads[t].erase)).(engineMutexes := s.engineMutexes[e := t])
  }

  /** mainloop() erases the element unless the task was active, and goes on to the next one. */
  function LeaveEngineStep(s: State, t: Tid): State
    requires IsThread(s, t) && s.threads[t].InEngine?
  {
    var e := s.threads[t].engine;
    var n := Count(s, e);
    Goto(s, t, Outside).(
      loopers := s.loopers - {e},
      engineLists := if s.threads[t].erase then s.engineLists[e := if n == 0 then 0 else n - 1] else s.engineLists,
      engineMutexes := s.engineMutexes - {e})
  }

  function ThreadStep(s: State, t: Tid, a: Action): State
    requires CanThread(s, t, a)
  {
    match a
    case ReadState => Goto(s, t, WantReset)
    case ResetOutside => Goto(ResetFlags(s), t, Entering(InitialRun, Idle, Return))
    case Enter => EnterStep(s, t)
    case AbortSection => AbortStep(s, t)
    case JoinRun => JoinStep(s, t)
    case PaySignal(c) => SignalStep(s, t, c)
    case TestActive => TestStep(s, t)
    case TakeEngine => TakeEngineStep(s, t)
    case LeaveEngine => LeaveEngineStep(s, t)
  }

  // ---- User code ----

  /** The rules for the calls of user code, by the function that runs. A yield without a target needs
      a default handler that is not immediate, and wait, wait_until and finish are the last call. */
  predicate Legal(s: State, c: UserCall)
    requires s.pass.Pass?
  {
    var state := s.pass.frame.state;
    match c
    case SetState(_) => state == Initialize || state == Multiplex
    case CallWait(conditions) => state == Multiplex && conditions <= OR_CONDITIONS
    case CallWaitUntil => state == Multiplex
    case CallFinish => state == Multiplex
    case Yield => state == Multiplex && (s.targetHandler != Idle || s.defaultHandler != Immediate)
    case YieldTo(h) => state == Multiplex && h != Idle && h != Immediate
    case Target(h) => h != Immediate && (s.yielding && h == Idle ==> s.defaultHandler != Immediate)
    case SelfSignal(condition) => condition != {}
    case SelfAbort => true
    case Rerun(d) => (state == Finish || state == Callback) && d != Some(Idle)
    case Kill => state == Callback
    case ReturnFromImpl => true
  }

  function UserStep(s: State, c: UserCall): State
    requires s.pass.Pass?
  {
    match c
    case SetState(n) => s.(sub := s.sub.(runState := n))
    case CallWait(conditions) => Continue(s.(sub := Wait(s.sub, conditions)), Running(Returning))
    case CallWaitUntil => if s.holds then s else Continue(s, Running(WantInstall))
    case CallFinish => Continue(s.(sub := FinishSub(s.sub)), Running(Returning))
    case Yield => s.(yielding := true)
    case YieldTo(h) => s.(targetHandler := h, yielding := true)
    case Target(h) => s.(targetHandler := h)
    case SelfSignal(condition) => s.(sub := Signal(s.sub, condition))
    case SelfAbort => Continue(s, Running(WantSelfAbort))
    case Rerun(d) => Continue(if d.Some? then s.(defaultHandler := d.value) else s, Running(WantReadState))
    case Kill => s.(sub := s.sub.(reset := false))
    case ReturnFromImpl => Continue(s, Running(Returning))
  }

  // ---- The steps of the pass ----

  predicate CanPass(s: State, t: Tid, a: Action) {
    && InPass(s, t)
    && match a
       case Check => s.pass.phase == Checking
       case Begin => s.pass.phase == Beginning
       case LockRun => s.pass.phase == WantRun && s.runMutex.None?
       case TestAbort => s.pass.phase == TestingAbort
       case Prepare => s.pass.phase == Running(Preparing)
       case User(c) => s.pass.phase == Running(InUser) && Legal(s, c)
       case AbortSelf => s.pass.phase == Running(WantSelfAbort) && s.stateMutex.None?
       case ReadStateInside => s.pass.phase == Running(WantReadState) && s.stateMutex.None?
       case ResetInside => s.pass.phase == Running(Resetting)
       case Install => s.pass.phase == Running(WantInstall) && s.stateMutex.None?
       case UntilWaitSection => s.pass.phase == Running(UntilWait)
       case Evaluate => s.pass.phase == Running(WantEvaluate) && s.stateMutex.None?
       case WaitAgainSection => s.pass.phase == Running(WaitAgain)
       case WakeUp => s.pass.phase == Running(Waking)
       case UnlockRun => s.pass.phase == Running(Returning)
       case LockState => s.pass.phase == WantState && s.stateMutex.None?
       case Decide => s.pass.phase == Deciding
       case LockEngine => s.pass.phase.Closing? && AddsTo(s).Some? && AddsTo(s).value !in s.engineMutexes
       case Close => s.pass.phase.Closing? && (AddsTo(s).Some? ==> HoldsEngine(s, t, AddsTo(s).value))
       case _ => false
  }

  function CheckStep(s: State, t: Tid): State
    requires InPhase(s, t, Checking)
  {
    if s.sub.needRun then
      Continue(s, Beginning)
    else
      Goto(s, t, AfterState(s.pass.frame.after)).(stateMutex := None, multiplexMutex := None, pass := NoPass)
  }

  function BeginStep(s: State, t: Tid): State
    requires InPhase(s, t, Beginning)
  {
    var f := s.pass.frame.(runState := s.sub.runState);
    s.(sub := BeginLoop(s.sub),
       stateMutex := None,
       pass := Pass(if f.event == NormalRun then WantRun else WantState, f))
  }

  /** The state that this pass runs, after the test for a late abort. */
  function LateState(state: BaseState, aborted: bool): BaseState {
    if aborted && state == Multiplex then Abort
    else if aborted && state == Initialize then Reset
    else state
  }

  /** Where the pass goes for a state other than bs_killed. */
  function StartOf(state: BaseState, waiting: bool): RunPhase {
    match state
    case Reset => Returning
    case Initialize => InUser
    case Multiplex => if waiting then WantEvaluate else InUser
    case Abort => InUser
    case _ => Preparing
  }

  /** The function that it calls, if it goes straight to user code. */
  function ImplOf(state: BaseState, runState: nat): Call {
    match state
    case Initialize => InitializeImpl
    case Multiplex => MultiplexImpl(runState)
    case _ => AbortImpl
  }

  function TestAbortStep(s: State, t: Tid): State
    requires InPhase(s, t, TestingAbort)
  {
    var f := s.pass.frame;
    var state := LateState(f.state, s.sub.aborted);
    var at := StartOf(state, f.waiting);
    if state == Killed then LeakStep(s, t)
    else if at == InUser then Logged(RunState(s, state, at), ImplOf(state, f.runState))
    else RunState(s, state, at)
  }

  function RunState(s: State, state: BaseState, at: RunPhase): State
    requires s.pass.Pass?
  {
    s.(pass := Pass(Running(at), s.pass.frame.(state := state)))
  }

  /** The return from multiplex() when the task was killed. */
  function LeakStep(s: State, t: Tid): State
    requires InPass(s, t)
  {
    Goto(Continue(s, Leaked), t, AfterState(s.pass.frame.after)).(runMutex := None)
  }

  function PrepareStep(s: State, t: Tid): State
    requires InPhase(s, t, Running(Preparing))
  {
    if s.pass.frame.state == Finish then
      Logged(Continue(s.(sub := s.sub.(reset := false)), Running(InUser)), FinishImpl)
    else
      Logged(Continue(s, Running(InUser)), CallbackCall(!s.sub.aborted))
  }

  /** The outcome of the critical section that reads the sub-state: the new base state, need_new_run and destruct. */
  function Decision(s: State): (BaseState, bool, bool)
    requires s.pass.Pass?
  {
    var base := s.mux.baseState;
    var mustRun := s.sub.needRun || s.sub.idle == {};
    match s.pass.frame.event
    case NormalRun =>
      (match s.pass.frame.state
       case Reset => if s.sub.aborted then (Killed, false, false) else (Initialize, true, false)
       case Initialize => if s.sub.aborted then (Abort, true, false) else (Multiplex, mustRun, false)
       case Multiplex =>
         if s.sub.aborted then (Abort, true, false)
         else if s.sub.finished then (Finish, true, false)
         else (base, mustRun, false)
       case Abort => (Finish, true, false)
       case Finish => (Callback, true, false)
       case Callback => if s.sub.reset then (Reset, true, false) else (Killed, false, true)
       case Killed => (base, true, false))
    case InsertAbort => (if base == Multiplex then Abort else base, true, false)
    case _ => (base, true, false)
  }

  function DecideStep(s: State, t: Tid): State
    requires InPhase(s, t, Deciding)
  {
    var (base, needNewRun, destruct) := Decision(s);
    Continue(s, Closing(needNewRun, destruct)).(
      mux := s.mux.(baseState := base),
      history := s.history.(
        stray := s.history.stray || (base == Killed && s.sub.needRun),
        ending :=
          if Ends(s.mux.baseState, base) then Ending(s.sub.finished, !s.sub.aborted, false, false)
          else s.history.ending))
  }

  /** Does this switch of the base state end the part of the life in which user code can go on? */
  predicate Ends(base: BaseState, base': BaseState) {
    (base == Initialize || base == Multiplex) && (base' == Abort || base' == Finish)
  }

  function FirstNotIdle(a: Handler, b: Handler, c: Handler): Handler {
    if a != Idle then a else if b != Idle then b else c
  }

  /** The handler in which the task should run next. */
  function NextHandler(s: State): Handler {
    FirstNotIdle(s.targetHandler, s.mux.currentHandler, s.defaultHandler)
  }

  predicate KeepLooping(s: State)
    requires s.pass.Pass? && s.pass.phase.Closing?
  {
    && s.pass.phase.needNewRun && !s.yielding
    && NextHandler(s) == (if s.pass.frame.event == NormalRun then s.mux.currentHandler else Immediate)
  }

  /** The handler of the task when the pass ends. */
  function HandlerAfter(s: State): Handler
    requires s.pass.Pass? && s.pass.phase.Closing?
  {
    if !s.pass.phase.needNewRun then Idle
    else if NextHandler(s) == Immediate then s.defaultHandler
    else NextHandler(s)
  }

  /** The engine to whose list the pass is about to add the task. */
  function AddsTo(s: State): Option<EngineId>
    requires s.pass.Pass? && s.pass.phase.Closing?
  {
    if !KeepLooping(s) && HandlerAfter(s) != s.mux.currentHandler && HandlerAfter(s).Engine? then
      Some(HandlerAfter(s).engine)
    else
      None
  }

  predicate HoldsEngine(s: State, t: Tid, e: EngineId) {
    e in s.engineMutexes && s.engineMutexes[e] == t
  }

  function CloseStep(s: State, t: Tid): State
    requires InPass(s, t) && s.pass.phase.Closing?
  {
    var f := s.pass.frame;
    if KeepLooping(s) then
      var current := if f.event == NormalRun then s.mux.currentHandler else Immediate;
      var f' := Frame(NormalRun, current, s.mux.baseState, s.mux.waitCondition, s.sub.runState, f.after);
      s.(yielding := false,
         mux := s.mux.(currentHandler := current),
         sub := BeginLoop(s.sub),
         stateMutex := None,
         pass := Pass(WantRun, f'))
    else
      var to := AddsTo(s);
      Goto(s, t, AfterState(f.after)).(
        yielding := false,
        mux := s.mux.(currentHandler := HandlerAfter(s)),
        engineLists := if to.Some? then s.engineLists[to.value := Count(s, to.value) + 1] else s.engineLists,
        engineMutexes := if to.Some? then s.engineMutexes - {to.value} else s.engineMutexes,
        stateMutex := None,
        multiplexMutex := None,
        pass := NoPass)
  }

  function ResetInsideStep(s: State): State
    requires s.pass.Pass?
  {
    var early := s.pass.frame.state == Finish;
    var s' := ResetFlags(s);
    var ending := if early then s'.history.ending.(rerun := true, again := false) else s'.history.ending;
    Continue(s', Running(InUser)).(history := s'.history.(ending := ending))
  }

  /** The wait condition is evaluated under mState, which is held for the rest of the section. */
  function EvaluateStep(s: State, t: Tid): State
    requires s.pass.Pass?
  {
    if s.holds then
      Continue(s, Running(Waking)).(stateMutex := Some(t), mux := s.mux.(waitCondition := false))
    else
      Continue(s, Running(WaitAgain)).(stateMutex := Some(t))
  }

  function PassStep(s: State, t: Tid, a: Action): State
    requires CanPass(s, t, a)
  {
    match a
    case Check => CheckStep(s, t)
    case Begin => BeginStep(s, t)
    case LockRun => Continue(s, TestingAbort).(runMutex := Some(t))
    case TestAbort => TestAbortStep(s, t)
    case Prepare => PrepareStep(s, t)
    case User(c) => UserStep(s, c)
    case AbortSelf => Continue(AbortFlags(s), Running(InUser))
    case ReadStateInside => Continue(s, Running(Resetting))
    case ResetInside => ResetInsideStep(s)
    case Install => Continue(s.(mux := s.mux.(waitCondition := true)), Running(UntilWait))
    case UntilWaitSection => Continue(s.(sub := Wait(s.sub, s.watched)), Running(Returning))
    case Evaluate => EvaluateStep(s, t)
    case WaitAgainSection => Continue(s.(sub := Wait(s.sub, s.watched), stateMutex := None), Running(Returning))
    case WakeUp => Continue(s.(sub := s.sub.(idle := {}), stateMutex := None), Running(Returning))
    case UnlockRun => Continue(s, WantState).(runMutex := None)
    case LockState => Continue(s, Deciding).(stateMutex := Some(t))
    case Decide => DecideStep(s, t)
    case LockEngine => s.(engineMutexes := s.engineMutexes[AddsTo(s).value := t])
    case Close => CloseStep(s, t)
  }

  // ---- Runs ----

  predicate Can(s: State, t: Tid, a: Action) {
    CanCall(s, t, a) || CanThread(s, t, a) || CanPass(s, t, a)
  }

  /** The state after thread t does a. */
  function Step(s: State, t: Tid, a: Action): State
    requires Can(s, t, a)
  {
    if CanCall(s, t, a) then DoCall(s, t, a)
    else if CanThread(s, t, a) then ThreadStep(s, t, a)
    else PassStep(s, t, a)
  }

  ghost predicate Next(s: State, s': State) {
    exists t, a :: Can(s, t, a) && s' == Step(s, t, a)
  }

  ghost predicate IsRun(run: seq<State>) {
    && |run| > 0 && Init(run[0])
    && forall i | 0 < i < |run| :: Next(run[i - 1], run[i])
  }

  ghost predicate Reachable(s: State) {
    exists run :: IsRun(run) && run[|run| - 1] == s
  }
}
