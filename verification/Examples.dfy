/** Runs that show what the protocol does not promise. Each ends in a state that the theorems about runs allow
    only under an exception; so the exceptions are real. */
module Examples {
  import opened TaskTypes
  import opened SubStates
  import opened Protocol
  import opened Lifecycle
  import opened Invariants
  import opened Reachability

  /** A task with the immediate handler as default, which thread t runs if any does. */
  function Made(t: Tid, mux: MultiplexState, sub: SubState, pass: Pass, threads: seq<ThreadState>, h: History): State {
    var holder := if pass == NoPass then None else Some(t);
    State(mux, sub, Idle, Immediate, false,
          if pass.Pass? && HoldsState(pass.phase) then holder else None,
          holder,
          if pass.Pass? && HoldsRun(pass.phase) then holder else None,
          pass, threads, map[], map[], map[], {0}, false, h)
  }

  function Mux(base: BaseState): MultiplexState {
    MultiplexState(base, Immediate, false)
  }

  /** A pass of normal_run in the immediate handler. */
  function Normal(p: Phase, state: BaseState): Pass {
    Pass(p, Frame(NormalRun, Immediate, state, false, 0, Return))
  }

  lemma GoCall(s: State, t: Tid, a: Action)
    requires Reachable(s) && CanCall(s, t, a)
    ensures Reachable(DoCall(s, t, a))
  {
    ReachableStep(s, t, a);
  }

  lemma GoThread(s: State, t: Tid, a: Action)
    requires Reachable(s) && CanThread(s, t, a)
    ensures Reachable(ThreadStep(s, t, a))
  {
    assert !CanCall(s, t, a);
    ReachableStep(s, t, a);
  }

  lemma GoPass(s: State, t: Tid, a: Action)
    requires Reachable(s) && CanPass(s, t, a)
    ensures Reachable(PassStep(s, t, a))
  {
    assert !CanCall(s, t, a) && !CanThread(s, t, a);
    ReachableStep(s, t, a);
  }

  lemma InitReachable(s: State)
    requires Init(s)
    ensures Reachable(s)
  {
    var run := [s];
    assert IsRun(run) && run[|run| - 1] == s;
  }

  const NO_ENDING := Ending(false, false, false, false)
  const FIRST_LIFE := History([], Fresh, 1, true, false, false, false, false, NO_ENDING)

  /** The first thread called run(), and is about to enter multiplex(). */
  lemma Booting() returns (s: State)
    ensures Reachable(s)
    ensures s == Made(0, MultiplexState(Reset, Idle, false), SubState({}, {}, 0, true, true, false, false), NoPass,
                      [Entering(InitialRun, Idle, Return), Outside, Outside], FIRST_LIFE)
  {
    hide Reachable, CanPass, PassStep;
    var h := History([], Fresh, 0, false, false, false, false, false, NO_ENDING);
    s := Made(0, MultiplexState(Reset, Idle, false), INITIAL_SUB_STATE, NoPass, [Outside, Outside, Outside], h);
    s := s.(defaultHandler := Idle);
    InitReachable(s);
    GoCall(s, 0, CallRun(Immediate));
    s := DoCall(s, 0, CallRun(Immediate));
    GoThread(s, 0, ReadState);
    s := ThreadStep(s, 0, ReadState);
    GoThread(s, 0, ResetOutside);
    s := ThreadStep(s, 0, ResetOutside);
  }

  // ---- Steps of a pass in the immediate handler ----

  predicate IsInside(threads: seq<ThreadState>, t: Tid) {
    t < |threads| && threads[t] == Inside
  }

  /** A locked step of the pass leads to s'. */
  lemma Go(s: State, t: Tid, a: Action, s': State)
    requires Reachable(s) && CanPass(s, t, a) && s' == PassStep(s, t, a)
    ensures Reachable(s')
  {
    GoPass(s, t, a);
  }

  lemma GoLockRun(t: Tid, mux: MultiplexState, sub: SubState, f: Frame, threads: seq<ThreadState>, h: History)
    requires Reachable(Made(t, mux, sub, Pass(WantRun, f), threads, h)) && IsInside(threads, t)
    ensures Reachable(Made(t, mux, sub, Pass(TestingAbort, f), threads, h))
  {
    hide Reachable, CanCall, DoCall, CanThread, ThreadStep;
    Go(Made(t, mux, sub, Pass(WantRun, f), threads, h), t, LockRun,
       Made(t, mux, sub, Pass(TestingAbort, f), threads, h));
  }

  lemma GoUnlockRun(t: Tid, mux: MultiplexState, sub: SubState, f: Frame, threads: seq<ThreadState>, h: History)
    requires Reachable(Made(t, mux, sub, Pass(Running(Returning), f), threads, h)) && IsInside(threads, t)
    ensures Reachable(Made(t, mux, sub, Pass(WantState, f), threads, h))
  {
    hide Reachable, CanCall, DoCall, CanThread, ThreadStep;
    Go(Made(t, mux, sub, Pass(Running(Returning), f), threads, h), t, UnlockRun,
       Made(t, mux, sub, Pass(WantState, f), threads, h));
  }

  lemma GoLockState(t: Tid, mux: MultiplexState, sub: SubState, f: Frame, threads: seq<ThreadState>, h: History)
    requires Reachable(Made(t, mux, sub, Pass(WantState, f), threads, h)) && IsInside(threads, t)
    ensures Reachable(Made(t, mux, sub, Pass(Deciding, f), threads, h))
  {
    hide Reachable, CanCall, DoCall, CanThread, ThreadStep;
    Go(Made(t, mux, sub, Pass(WantState, f), threads, h), t, LockState,
       Made(t, mux, sub, Pass(Deciding, f), threads, h));
  }

  function AfterDecision(h: History, base: BaseState, base': BaseState, sub: SubState): History {
    if Ends(base, base') then h.(ending := Ending(sub.finished, !sub.aborted, false, false)) else h
  }

  lemma GoDecide(t: Tid, mux: MultiplexState, sub: SubState, f: Frame, threads: seq<ThreadState>, h: History,
                 base: BaseState, needNewRun: bool, destruct: bool)
    requires Reachable(Made(t, mux, sub, Pass(Deciding, f), threads, h)) && IsInside(threads, t)
    requires Decision(Made(t, mux, sub, Pass(Deciding, f), threads, h)) == (base, needNewRun, destruct)
    requires base == Killed ==> !sub.needRun || h.stray
    ensures var h' := AfterDecision(h, mux.baseState, base, sub);
      Reachable(Made(t, mux.(baseState := base), sub, Pass(Closing(needNewRun, destruct), f), threads, h'))
  {
    hide Reachable, CanCall, DoCall, CanThread, ThreadStep;
    var h' := AfterDecision(h, mux.baseState, base, sub);
    Go(Made(t, mux, sub, Pass(Deciding, f), threads, h), t, Decide,
       Made(t, mux.(baseState := base), sub, Pass(Closing(needNewRun, destruct), f), threads, h'));
  }

  lemma GoOn(t: Tid, mux: MultiplexState, sub: SubState, f: Frame, threads: seq<ThreadState>, h: History)
    requires Reachable(Made(t, mux, sub, Pass(Closing(true, false), f), threads, h)) && IsInside(threads, t)
    requires f.after == Return && !mux.waitCondition
    requires mux.currentHandler == if f.event == NormalRun then Immediate else Idle
    requires sub.runState == 0
    ensures Reachable(Made(t, Mux(mux.baseState), BeginLoop(sub), Normal(WantRun, mux.baseState), threads, h))
  {
    hide Reachable, CanCall, DoCall, CanThread, ThreadStep;
    Go(Made(t, mux, sub, Pass(Closing(true, false), f), threads, h), t, Close,
       Made(t, Mux(mux.baseState), BeginLoop(sub), Normal(WantRun, mux.baseState), threads, h));
  }

  function Log(h: History, c: Call): History {
    h.(calls := h.calls + [c], progress := Advance(h.progress, c))
  }

  lemma GoTest(t: Tid, base: BaseState, sub: SubState, threads: seq<ThreadState>, h: History)
    requires Reachable(Made(t, Mux(base), sub, Normal(TestingAbort, base), threads, h)) && IsInside(threads, t)
    requires base != Killed && LateState(base, sub.aborted) == base
    ensures var at := StartOf(base, false);
      var h' := if at == InUser then Log(h, ImplOf(base, 0)) else h;
      Reachable(Made(t, Mux(base), sub, Normal(Running(at), base), threads, h'))
  {
    hide Reachable, CanCall, DoCall, CanThread, ThreadStep, LeakStep;
    var at := StartOf(base, false);
    var h' := if at == InUser then Log(h, ImplOf(base, 0)) else h;
    Go(Made(t, Mux(base), sub, Normal(TestingAbort, base), threads, h), t, TestAbort,
       Made(t, Mux(base), sub, Normal(Running(at), base), threads, h'));
  }

  lemma GoPrepare(t: Tid, base: BaseState, sub: SubState, threads: seq<ThreadState>, h: History)
    requires Reachable(Made(t, Mux(base), sub, Normal(Running(Preparing), base), threads, h)) && IsInside(threads, t)
    requires base in {Finish, Callback}
    ensures var sub' := if base == Finish then sub.(reset := false) else sub;
      var h' := Log(h, if base == Finish then FinishImpl else CallbackCall(!sub.aborted));
      Reachable(Made(t, Mux(base), sub', Normal(Running(InUser), base), threads, h'))
  {
    hide Reachable, CanCall, DoCall, CanThread, ThreadStep;
    Go(Made(t, Mux(base), sub, Normal(Running(Preparing), base), threads, h), t, Prepare,
       Made(t, Mux(base), if base == Finish then sub.(reset := false) else sub, Normal(Running(InUser), base), threads,
            Log(h, if base == Finish then FinishImpl else CallbackCall(!sub.aborted))));
  }

  /** From the top of the loop to the release of mRunMutex, in bs_reset. */
  lemma GoReset(t: Tid, sub: SubState, threads: seq<ThreadState>, h: History)
    requires Reachable(Made(t, Mux(Reset), sub, Normal(WantRun, Reset), threads, h)) && IsInside(threads, t)
    ensures Reachable(Made(t, Mux(Reset), sub, Normal(Running(Returning), Reset), threads, h))
  {
    hide Reachable, Made, Mux, Log;
    var f := Normal(WantRun, Reset).frame;
    GoLockRun(t, Mux(Reset), sub, f, threads, h);
    GoTest(t, Reset, sub, threads, h);
  }

  /** From the top of the loop to the function that belongs to the state. */
  lemma GoStart(t: Tid, base: BaseState, sub: SubState, threads: seq<ThreadState>, h: History)
    requires Reachable(Made(t, Mux(base), sub, Normal(WantRun, base), threads, h)) && IsInside(threads, t)
    requires base in {Initialize, Multiplex, Abort} && !(sub.aborted && base != Abort)
    ensures Reachable(Made(t, Mux(base), sub, Normal(Running(InUser), base), threads, Log(h, ImplOf(base, 0))))
  {
    hide Reachable, Made, Mux, Log;
    var f := Normal(WantRun, base).frame;
    GoLockRun(t, Mux(base), sub, f, threads, h);
    GoTest(t, base, sub, threads, h);
  }

  /** From the top of the loop to finish_impl or the callback. */
  lemma GoEnd(t: Tid, base: BaseState, sub: SubState, threads: seq<ThreadState>, h: History)
    requires Reachable(Made(t, Mux(base), sub, Normal(WantRun, base), threads, h)) && IsInside(threads, t)
    requires base in {Finish, Callback}
    ensures var sub' := if base == Finish then sub.(reset := false) else sub;
      var h' := Log(h, if base == Finish then FinishImpl else CallbackCall(!sub.aborted));
      Reachable(Made(t, Mux(base), sub', Normal(Running(InUser), base), threads, h'))
  {
    hide Reachable, Made, Mux, Log;
    var f := Normal(WantRun, base).frame;
    GoLockRun(t, Mux(base), sub, f, threads, h);
    GoTest(t, base, sub, threads, h);
    GoPrepare(t, base, sub, threads, h);
  }

  lemma GoReturn(t: Tid, base: BaseState, sub: SubState, threads: seq<ThreadState>, h: History)
    requires Reachable(Made(t, Mux(base), sub, Normal(Running(InUser), base), threads, h)) && IsInside(threads, t)
    ensures Reachable(Made(t, Mux(base), sub, Normal(Running(Returning), base), threads, h))
  {
    hide Reachable, CanCall, DoCall, CanThread, ThreadStep;
    Go(Made(t, Mux(base), sub, Normal(Running(InUser), base), threads, h), t, User(ReturnFromImpl),
       Made(t, Mux(base), sub, Normal(Running(Returning), base), threads, h));
  }

  /** The base state after a pass of normal_run that will be followed by another one. */
  predicate Switches(base: BaseState, sub: SubState, base': BaseState) {
    match base
    case Reset => base' == Initialize && !sub.aborted
    case Initialize => base' == Multiplex && !sub.aborted && sub.idle == {}
    case Multiplex =>
      if sub.aborted then base' == Abort
      else if sub.finished then base' == Finish
      else base' == Multiplex && (sub.needRun || sub.idle == {})
    case Abort => base' == Finish
    case Finish => base' == Callback
    case Callback => base' == Reset && sub.reset
    case Killed => false
  }

  /** From the release of mRunMutex to the top of the loop. */
  lemma GoRound(t: Tid, base: BaseState, sub: SubState, threads: seq<ThreadState>, h: History, base': BaseState)
    requires Reachable(Made(t, Mux(base), sub, Normal(Running(Returning), base), threads, h)) && IsInside(threads, t)
    requires Switches(base, sub, base') && sub.runState == 0
    ensures var h' := AfterDecision(h, base, base', sub);
      Reachable(Made(t, Mux(base'), BeginLoop(sub), Normal(WantRun, base'), threads, h'))
  {
    hide Reachable, CanCall, DoCall, CanThread, ThreadStep, CanPass, PassStep;
    var f := Normal(WantRun, base).frame;
    GoUnlockRun(t, Mux(base), sub, f, threads, h);
    GoLockState(t, Mux(base), sub, f, threads, h);
    GoDecide(t, Mux(base), sub, f, threads, h, base', true, false);
    GoOn(t, Mux(base'), sub, f, threads, AfterDecision(h, base, base', sub));
  }

  /** From bs_reset to the first call of multiplex_impl. */
  lemma GoBegin(t: Tid, sub: SubState, threads: seq<ThreadState>, h: History)
    requires Reachable(Made(t, Mux(Reset), sub, Normal(WantRun, Reset), threads, h)) && IsInside(threads, t)
    requires !sub.aborted && sub.idle == {} && sub.runState == 0
    ensures Reachable(Made(t, Mux(Multiplex), BeginLoop(sub), Normal(Running(InUser), Multiplex), threads,
                           Log(Log(h, InitializeImpl), MultiplexImpl(0))))
  {
    hide Reachable, Made, Log, Normal, Mux;
    var sub', h' := BeginLoop(sub), Log(h, InitializeImpl);
    GoReset(t, sub, threads, h);
    GoRound(t, Reset, sub, threads, h, Initialize);
    GoStart(t, Initialize, sub', threads, h);
    GoReturn(t, Initialize, sub', threads, h');
    GoRound(t, Initialize, sub', threads, h', Multiplex);
    GoStart(t, Multiplex, sub', threads, h');
  }

  // ---- The first life, up to the first call of multiplex_impl ----

  const AWAKE := SubState({}, {}, 0, true, false, false, false)
  const BOOTED := FIRST_LIFE.(booted := true)
  const ENTERED := Log(Log(BOOTED, InitializeImpl), MultiplexImpl(0))

  lemma Boots()
    ensures Reachable(Made(0, Mux(Reset), AWAKE, Normal(WantRun, Reset), [Inside, Outside, Outside], BOOTED))
  {
    hide Reachable, CanCall, DoCall;
    var threads := [Inside, Outside, Outside];
    var mux := MultiplexState(Reset, Idle, false);
    var f := Frame(InitialRun, Idle, Reset, false, 0, Return);
    var s := Booting();
    GoThread(s, 0, Enter);
    s := EnterStep(s, 0);
    assert s == Made(0, mux, AWAKE.(needRun := true), Pass(Beginning, f), threads, BOOTED);
    Go(s, 0, Begin, Made(0, mux, AWAKE, Pass(WantState, f), threads, BOOTED));
    GoLockState(0, mux, AWAKE, f, threads, BOOTED);
    GoDecide(0, mux, AWAKE, f, threads, BOOTED, Reset, true, false);
    GoOn(0, mux, AWAKE, f, threads, BOOTED);
  }

  lemma ReachesMultiplexImpl()
    ensures Reachable(Made(0, Mux(Multiplex), AWAKE, Normal(Running(InUser), Multiplex), THREADS, ENTERED))
  {
    hide Reachable, Made, Log;
    Boots();
    GoBegin(0, AWAKE, [Inside, Outside, Outside], BOOTED);
  }

  // ---- An abort that is withdrawn ----

  const THREADS := [Inside, Outside, Outside]

  lemma GoUser(t: Tid, base: BaseState, sub: SubState, threads: seq<ThreadState>, h: History,
               c: UserCall, sub': SubState, at: RunPhase)
    requires Reachable(Made(t, Mux(base), sub, Normal(Running(InUser), base), threads, h)) && IsInside(threads, t)
    requires c in {CallFinish, CallWait({0}), SelfAbort, Rerun(None)}
    requires Legal(Made(t, Mux(base), sub, Normal(Running(InUser), base), threads, h), c)
    requires UserStep(Made(t, Mux(base), sub, Normal(Running(InUser), base), threads, h), c)
          == Made(t, Mux(base), sub', Normal(Running(at), base), threads, h)
    ensures Reachable(Made(t, Mux(base), sub', Normal(Running(at), base), threads, h))
  {
    hide Reachable, CanCall, DoCall, CanThread, ThreadStep;
    Go(Made(t, Mux(base), sub, Normal(Running(InUser), base), threads, h), t, User(c),
       Made(t, Mux(base), sub', Normal(Running(at), base), threads, h));
  }

  const ABORTED_ONCE := ENTERED.(ending := NO_ENDING.(again := true))
  const DOOMED := AWAKE.(needRun := true, aborted := true, finished := true)
  const JOINING := [Inside, WantJoin(1), Outside]

  /** multiplex_impl calls abort() and then finish(). */
  lemma AbortsAndFinishes()
    ensures Reachable(Made(0, Mux(Multiplex), DOOMED, Normal(Running(Returning), Multiplex), THREADS, ABORTED_ONCE))
  {
    hide Reachable;
    var doomed := AWAKE.(needRun := true, aborted := true);
    ReachesMultiplexImpl();
    GoUser(0, Multiplex, AWAKE, THREADS, ENTERED, SelfAbort, AWAKE, WantSelfAbort);
    Go(Made(0, Mux(Multiplex), AWAKE, Normal(Running(WantSelfAbort), Multiplex), THREADS, ENTERED), 0, AbortSelf,
       Made(0, Mux(Multiplex), doomed, Normal(Running(InUser), Multiplex), THREADS, ABORTED_ONCE));
    GoUser(0, Multiplex, doomed, THREADS, ABORTED_ONCE, CallFinish, DOOMED, Returning);
  }

  /** Another thread calls abort(), while the pass runs a function or is about to release mRunMutex. */
  lemma OtherAborts(base: BaseState, sub: SubState, p: RunPhase, h: History) returns (s: State)
    requires Reachable(Made(0, Mux(base), sub, Normal(Running(p), base), THREADS, h)) && h.life == 1
    requires p == Returning || p == InUser
    requires sub.finished && sub.idle == {} && base != Killed
    ensures Reachable(s) && CanThread(s, 1, AbortSection) && s.sub == sub && s.mux == Mux(base) && s.history == h
    ensures Reachable(Made(0, Mux(base), sub.(aborted := false, needRun := true), Normal(Running(p), base), JOINING,
                           h.(ending := h.ending.(again := true))))
  {
    hide Reachable, CanPass, PassStep;
    GoCall(Made(0, Mux(base), sub, Normal(Running(p), base), THREADS, h), 1, CallAbort);
    s := Made(0, Mux(base), sub, Normal(Running(p), base), [Inside, WantAbort, Outside], h);
    GoThread(s, 1, AbortSection);
    assert ThreadStep(s, 1, AbortSection)
      == Made(0, Mux(base), sub.(aborted := false, needRun := true), Normal(Running(p), base), JOINING,
              h.(ending := h.ending.(again := true)));
  }

  /** When that happens before the pass ends, the abort is withdrawn: abort_impl is not called, and the callback is told
      that the task succeeded. */
  lemma WithdrawnAbort() returns (s: State, s': State)
    ensures Reachable(s) && s.sub.aborted && s.mux.baseState == Multiplex && CanThread(s, 1, AbortSection)
    ensures Reachable(s') && s'.history.life == 1 && s'.threads == JOINING
    ensures s'.history.calls == [InitializeImpl, MultiplexImpl(0), FinishImpl, CallbackCall(true)]
  {
    hide Reachable;
    AbortsAndFinishes();
    s := OtherAborts(Multiplex, DOOMED, Returning, ABORTED_ONCE);
    var sub := AWAKE.(finished := true);
    GoRound(0, Multiplex, sub.(needRun := true), JOINING, ABORTED_ONCE, Finish);
    var h := ABORTED_ONCE.(ending := Ending(true, true, false, false));
    s' := EndsWith(sub, h);
  }

  /** From the top of the loop in bs_finish to the callback. */
  lemma EndsWith(sub: SubState, h: History) returns (s: State)
    requires Reachable(Made(0, Mux(Finish), sub, Normal(WantRun, Finish), JOINING, h))
    requires sub == AWAKE.(finished := true)
    ensures Reachable(s) && s.threads == JOINING && s.history == Log(Log(h, FinishImpl), CallbackCall(true))
  {
    hide Reachable, Made, Log;
    var h' := Log(h, FinishImpl);
    GoEnd(0, Finish, sub, JOINING, h);
    GoReturn(0, Finish, sub.(reset := false), JOINING, h');
    GoRound(0, Finish, sub.(reset := false), JOINING, h', Callback);
    GoEnd(0, Callback, sub.(reset := false), JOINING, h');
    s := MadeState(sub.(reset := false), Log(h', CallbackCall(true)));
  }

  lemma MadeState(sub: SubState, h: History) returns (s: State)
    requires Reachable(Made(0, Mux(Callback), sub, Normal(Running(InUser), Callback), JOINING, h))
    ensures Reachable(s) && s.threads == JOINING && s.history == h
  {
    hide Reachable;
    s := Made(0, Mux(Callback), sub, Normal(Running(InUser), Callback), JOINING, h);
  }

  // ---- A wrong answer ----

  const SERVED := Log(ABORTED_ONCE.(ending := Ending(true, false, false, false)), AbortImpl)

  /** When it happens during abort_impl, the callback is told that the task succeeded, although abort_impl was
      called. */
  lemma WrongAnswer() returns (s: State)
    ensures Reachable(s) && s.history.life == 1
    ensures s.history.calls == [InitializeImpl, MultiplexImpl(0), AbortImpl, FinishImpl, CallbackCall(true)]
  {
    hide Reachable;
    var doomed := AWAKE.(aborted := true, finished := true);
    var sub := AWAKE.(finished := true);
    AbortsAndFinishes();
    GoRound(0, Multiplex, DOOMED, THREADS, ABORTED_ONCE, Abort);
    GoStart(0, Abort, doomed, THREADS, ABORTED_ONCE.(ending := Ending(true, false, false, false)));
    var s0 := OtherAborts(Abort, doomed, InUser, SERVED);
    var h := SERVED.(ending := SERVED.ending.(again := true));
    GoReturn(0, Abort, sub.(needRun := true), JOINING, h);
    GoRound(0, Abort, sub.(needRun := true), JOINING, h, Finish);
    s := EndsWith(sub, h);
  }

  // ---- mMultiplexMutex is never unlocked ----

  const WAITING := AWAKE.(idle := {0})
  const WOKEN := AWAKE.(needRun := true)
  const SIGNALLED := [Inside, Entering(ScheduleRun, Idle, Return), Outside]
  const TWICE := Log(ENTERED, MultiplexImpl(0))

  lemma Waits()
    ensures Reachable(Made(0, Mux(Multiplex), WAITING, Normal(Running(Returning), Multiplex), THREADS, ENTERED))
  {
    hide Reachable;
    ReachesMultiplexImpl();
    assert {0} - {} == {0};
    GoUser(0, Multiplex, AWAKE, THREADS, ENTERED, CallWait({0}), WAITING, Returning);
  }

  /** multiplex_impl calls wait(), and a signal arrives before the pass ends. */
  lemma SignalsWaiting()
    ensures Reachable(Made(0, Mux(Multiplex), WOKEN, Normal(Running(Returning), Multiplex), SIGNALLED, ENTERED))
  {
    hide Reachable, CanThread, ThreadStep, CanPass, PassStep;
    Waits();
    var s := Made(0, Mux(Multiplex), WAITING, Normal(Running(Returning), Multiplex), THREADS, ENTERED);
    GoCall(s, 1, CallSignal({0}));
    assert Signal(WAITING, {0}) == WOKEN && Wakes(WAITING, {0});
    assert DoCall(s, 1, CallSignal({0}))
        == Made(0, Mux(Multiplex), WOKEN, Normal(Running(Returning), Multiplex), SIGNALLED, ENTERED);
  }

  /** The pass runs the task again, which now calls finish(), before the thread that called signal() gets into
      multiplex(). */
  lemma LateSignal()
    ensures var pass := Normal(Running(Returning), Multiplex);
      Reachable(Made(0, Mux(Multiplex), AWAKE.(finished := true), pass, SIGNALLED, TWICE))
  {
    hide Reachable;
    SignalsWaiting();
    GoRound(0, Multiplex, WOKEN, SIGNALLED, ENTERED, Multiplex);
    GoStart(0, Multiplex, AWAKE, SIGNALLED, ENTERED);
    GoUser(0, Multiplex, AWAKE, SIGNALLED, TWICE, CallFinish, AWAKE.(finished := true), Returning);
  }

  const FINISHED := AWAKE.(finished := true, reset := false)
  const DONE := TWICE.(ending := Ending(true, true, false, false))
  const OVER := Log(Log(DONE, FinishImpl), CallbackCall(true))

  lemma FinishesFirst()
    ensures Reachable(Made(0, Mux(Callback), FINISHED, Normal(Running(Returning), Callback), SIGNALLED, OVER))
  {
    hide Reachable, Made;
    var h := Log(DONE, FinishImpl);
    LateSignal();
    GoRound(0, Multiplex, AWAKE.(finished := true), SIGNALLED, TWICE, Finish);
    GoEnd(0, Finish, AWAKE.(finished := true), SIGNALLED, DONE);
    GoReturn(0, Finish, FINISHED, SIGNALLED, h);
    GoRound(0, Finish, FINISHED, SIGNALLED, h, Callback);
    GoEnd(0, Callback, FINISHED, SIGNALLED, h);
    GoReturn(0, Callback, FINISHED, SIGNALLED, OVER);
  }

  const DEAD := MultiplexState(Killed, Idle, false)

  lemma IsKilled()
    ensures Reachable(Made(0, DEAD, FINISHED, NoPass, SIGNALLED[0 := Outside], OVER))
  {
    hide Reachable, CanCall, DoCall, CanThread, ThreadStep;
    var f := Normal(WantRun, Callback).frame;
    FinishesFirst();
    GoUnlockRun(0, Mux(Callback), FINISHED, f, SIGNALLED, OVER);
    GoLockState(0, Mux(Callback), FINISHED, f, SIGNALLED, OVER);
    GoDecide(0, Mux(Callback), FINISHED, f, SIGNALLED, OVER, Killed, false, true);
    Go(Made(0, Mux(Killed), FINISHED, Pass(Closing(false, true), f), SIGNALLED, OVER), 0, Close,
       Made(0, DEAD, FINISHED, NoPass, SIGNALLED[0 := Outside], OVER));
  }

  /** A late schedule_run: the signal woke up the task when it waited, and now the task is not in bs_multiplex. */
  lemma LateWakeUp() returns (s: State)
    ensures Reachable(s) && CanThread(s, 1, Enter) && s.threads[1] == Entering(ScheduleRun, Idle, Return)
    ensures s.mux.baseState == Killed && s.multiplexMutex == None
  {
    hide Reachable;
    IsKilled();
    s := Made(0, DEAD, FINISHED, NoPass, SIGNALLED[0 := Outside], OVER);
  }

  const ABORTED := [Outside, Entering(ScheduleRun, Idle, Return), WantJoin(1)]
  const STRAY := OVER.(stray := true, ending := OVER.ending.(again := true))
  const RESTLESS := FINISHED.(needRun := true)

  /** Another thread calls abort() for the killed task. */
  lemma AbortsTheDead()
    ensures Reachable(Made(1, DEAD, RESTLESS, NoPass, ABORTED, STRAY))
  {
    hide Reachable, CanPass, PassStep;
    IsKilled();
    GoCall(Made(0, DEAD, FINISHED, NoPass, SIGNALLED[0 := Outside], OVER), 2, CallAbort);
    var s := Made(0, DEAD, FINISHED, NoPass, [Outside, Entering(ScheduleRun, Idle, Return), WantAbort], OVER);
    GoThread(s, 2, AbortSection);
    assert ThreadStep(s, 2, AbortSection) == Made(1, DEAD, RESTLESS, NoPass, ABORTED, STRAY);
  }

  const LATE := [Outside, Inside, WantJoin(1)]

  /** Now the thread that called signal() gets in, finds need_run set, and returns with mMultiplexMutex locked. */
  lemma LeakedMutex() returns (s: State)
    ensures Reachable(s) && s.pass.Pass? && s.pass.phase == Leaked && s.multiplexMutex == Some(1)
    ensures s.threads == LATE[1 := Outside]
  {
    hide Reachable, CanCall, DoCall;
    var f := Frame(ScheduleRun, Idle, Killed, false, 0, Return);
    AbortsTheDead();
    GoThread(Made(1, DEAD, RESTLESS, NoPass, ABORTED, STRAY), 1, Enter);
    Go(Made(1, DEAD, RESTLESS, Pass(Checking, f), LATE, STRAY), 1, Check,
       Made(1, DEAD, RESTLESS, Pass(Beginning, f), LATE, STRAY));
    Go(Made(1, DEAD, RESTLESS, Pass(Beginning, f), LATE, STRAY), 1, Begin,
       Made(1, DEAD, FINISHED, Pass(WantState, f), LATE, STRAY));
    GoLockState(1, DEAD, FINISHED, f, LATE, STRAY);
    GoDecide(1, DEAD, FINISHED, f, LATE, STRAY, Killed, true, false);
    GoOn(1, DEAD, FINISHED, f, LATE, STRAY);
    GoLockRun(1, Mux(Killed), FINISHED, Normal(WantRun, Killed).frame, LATE, STRAY);
    GoPass(Made(1, Mux(Killed), FINISHED, Normal(TestingAbort, Killed), LATE, STRAY), 1, TestAbort);
    s := LeakStep(Made(1, Mux(Killed), FINISHED, Normal(TestingAbort, Killed), LATE, STRAY), 1);
  }

  // ---- An insert_abort that hits the next life ----

  const LATECOMER := [Inside, Entering(InsertAbort, Idle, Join(1)), Outside]

  /** multiplex_impl calls wait(), and another thread calls abort() before the pass ends. */
  lemma AbortsWaiting()
    ensures var pass := Normal(Running(Returning), Multiplex);
      Reachable(Made(0, Mux(Multiplex), WOKEN.(aborted := true), pass, LATECOMER, ABORTED_ONCE))
  {
    hide Reachable, CanPass, PassStep;
    var p := Normal(Running(Returning), Multiplex);
    Waits();
    GoCall(Made(0, Mux(Multiplex), WAITING, p, THREADS, ENTERED), 1, CallAbort);
    var s := Made(0, Mux(Multiplex), WAITING, p, [Inside, WantAbort, Outside], ENTERED);
    GoThread(s, 1, AbortSection);
    assert ThreadStep(s, 1, AbortSection) 
      == Made(0, Mux(Multiplex), WOKEN.(aborted := true), p, LATECOMER, ABORTED_ONCE);
  }

  const ASKED := Log(ENTERED, AbortImpl)
  const ABORTING := Log(ASKED, FinishImpl)
  const RERUN := ABORTING.(life := 2, ending := Ending(false, false, true, false))

  /** The pass sees the abort itself, and finish_impl calls run(). */
  lemma RunsAgain()
    ensures Reachable(Made(0, Mux(Finish), WOKEN, Normal(Running(InUser), Finish), LATECOMER, RERUN))
  {
    hide Reachable, CanCall, DoCall, CanThread, ThreadStep;
    var doomed := AWAKE.(aborted := true);
    AbortsWaiting();
    GoRound(0, Multiplex, WOKEN.(aborted := true), LATECOMER, ABORTED_ONCE, Abort);
    GoStart(0, Abort, doomed, LATECOMER, ENTERED);
    GoReturn(0, Abort, doomed, LATECOMER, ASKED);
    GoRound(0, Abort, doomed, LATECOMER, ASKED, Finish);
    GoEnd(0, Finish, doomed, LATECOMER, ASKED);
    var sub := doomed.(reset := false);
    GoUser(0, Finish, sub, LATECOMER, ABORTING, Rerun(None), sub, WantReadState);
    Go(Made(0, Mux(Finish), sub, Normal(Running(WantReadState), Finish), LATECOMER, ABORTING), 0, ReadStateInside,
       Made(0, Mux(Finish), sub, Normal(Running(Resetting), Finish), LATECOMER, ABORTING));
    Go(Made(0, Mux(Finish), sub, Normal(Running(Resetting), Finish), LATECOMER, ABORTING), 0, ResetInside,
       Made(0, Mux(Finish), WOKEN, Normal(Running(InUser), Finish), LATECOMER, RERUN));
  }

  const SECOND := Log(RERUN, CallbackCall(true))

  /** So the callback is told that the task succeeded, although abort_impl was called; then the next life begins. */
  lemma BeginsAgain()
    ensures Reachable(Made(0, Mux(Multiplex), AWAKE, Normal(Running(InUser), Multiplex), LATECOMER,
                           Log(Log(SECOND, InitializeImpl), MultiplexImpl(0))))
  {
    hide Reachable, Made;
    RunsAgain();
    GoReturn(0, Finish, WOKEN, LATECOMER, RERUN);
    GoRound(0, Finish, WOKEN, LATECOMER, RERUN, Callback);
    GoEnd(0, Callback, AWAKE, LATECOMER, RERUN);
    GoReturn(0, Callback, AWAKE, LATECOMER, Log(RERUN, CallbackCall(true)));
    GoRound(0, Callback, AWAKE, LATECOMER, Log(RERUN, CallbackCall(true)), Reset);
    GoBegin(0, AWAKE, LATECOMER, SECOND);
  }

  const AGAIN := Log(Log(SECOND, InitializeImpl), MultiplexImpl(0))
  const ASLEEP := MultiplexState(Multiplex, Idle, false)

  /** The next life waits, and nobody runs the task. */
  lemma WaitsAgain()
    ensures Reachable(Made(1, ASLEEP, WAITING, NoPass, LATECOMER[0 := Outside], AGAIN))
  {
    hide Reachable, CanCall, DoCall, CanThread, ThreadStep;
    var f := Normal(WantRun, Multiplex).frame;
    BeginsAgain();
    assert {0} - {} == {0};
    GoUser(0, Multiplex, AWAKE, LATECOMER, AGAIN, CallWait({0}), WAITING, Returning);
    GoUnlockRun(0, Mux(Multiplex), WAITING, f, LATECOMER, AGAIN);
    GoLockState(0, Mux(Multiplex), WAITING, f, LATECOMER, AGAIN);
    GoDecide(0, Mux(Multiplex), WAITING, f, LATECOMER, AGAIN, Multiplex, false, false);
    Go(Made(0, Mux(Multiplex), WAITING, Pass(Closing(false, false), f), LATECOMER, AGAIN), 0, Close,
       Made(1, ASLEEP, WAITING, NoPass, LATECOMER[0 := Outside], AGAIN));
  }

  /** Only now the thread that called abort() enters multiplex(insert_abort). It is let in, and calls begin_loop for an
      idle task that was not aborted in this life. */
  lemma StaleInsertAbort() returns (s: State)
    ensures Reachable(s) && s.pass.Pass? && s.pass.phase == Beginning && s.pass.frame.event == InsertAbort
    ensures s.sub.idle != {} && !s.sub.aborted && s.history.life == 2
    ensures s.history.calls == [InitializeImpl, MultiplexImpl(0), AbortImpl, FinishImpl, CallbackCall(true),
                                InitializeImpl, MultiplexImpl(0)]
  {
    hide Reachable, CanCall, CanPass, PassStep;
    WaitsAgain();
    var s0 := Made(1, ASLEEP, WAITING, NoPass, LATECOMER[0 := Outside], AGAIN);
    GoThread(s0, 1, Enter);
    s := EnterStep(s0, 1);
  }
}
