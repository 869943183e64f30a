/** Runs in which a task chooses another state, and in which it starts in an engine. */
module OutcomeExamples {
  import opened TaskTypes
  import opened SubStates
  import opened Protocol
  import opened Lifecycle
  import opened Examples

  // ---- initialize_impl calls set_state(1) ----

  const INITIALIZED := Log(BOOTED, InitializeImpl)
  const CHOSEN := AWAKE.(runState := 1)

  lemma ReachesInitializeImpl()
    ensures Reachable(Made(0, Mux(Initialize), AWAKE, Normal(Running(InUser), Initialize), THREADS, INITIALIZED))
  {
    hide Reachable, Made, Log, Normal, Mux;
    Boots();
    GoReset(0, AWAKE, THREADS, BOOTED);
    GoRound(0, Reset, AWAKE, THREADS, BOOTED, Initialize);
    GoStart(0, Initialize, AWAKE, THREADS, BOOTED);
  }

  lemma ChoosesState()
    ensures Reachable(Made(0, Mux(Initialize), CHOSEN, Normal(Running(Returning), Initialize), THREADS, INITIALIZED))
  {
    hide Reachable, CanCall, DoCall, CanThread, ThreadStep;
    ReachesInitializeImpl();
    Go(Made(0, Mux(Initialize), AWAKE, Normal(Running(InUser), Initialize), THREADS, INITIALIZED), 0, User(SetState(1)),
       Made(0, Mux(Initialize), CHOSEN, Normal(Running(InUser), Initialize), THREADS, INITIALIZED));
    GoReturn(0, Initialize, CHOSEN, THREADS, INITIALIZED);
  }

  const NEXT_ROUND := Frame(NormalRun, Immediate, Multiplex, false, 1, Return)

  lemma GoesToMultiplex()
    ensures var f := Normal(WantRun, Initialize).frame;
      Reachable(Made(0, Mux(Multiplex), CHOSEN, Pass(Closing(true, false), f), THREADS, INITIALIZED))
  {
    hide Reachable, CanCall, DoCall, CanThread, ThreadStep, CanPass, PassStep;
    var f := Normal(WantRun, Initialize).frame;
    ChoosesState();
    GoUnlockRun(0, Mux(Initialize), CHOSEN, f, THREADS, INITIALIZED);
    GoLockState(0, Mux(Initialize), CHOSEN, f, THREADS, INITIALIZED);
    GoDecide(0, Mux(Initialize), CHOSEN, f, THREADS, INITIALIZED, Multiplex, true, false);
  }

  lemma StartsNextRound()
    ensures Reachable(Made(0, Mux(Multiplex), CHOSEN, Pass(WantRun, NEXT_ROUND), THREADS, INITIALIZED))
  {
    hide Reachable, CanCall, DoCall, CanThread, ThreadStep;
    var f := Normal(WantRun, Initialize).frame;
    GoesToMultiplex();
    Go(Made(0, Mux(Multiplex), CHOSEN, Pass(Closing(true, false), f), THREADS, INITIALIZED), 0, Close,
       Made(0, Mux(Multiplex), CHOSEN, Pass(WantRun, NEXT_ROUND), THREADS, INITIALIZED));
  }

  /** multiplex_impl is called with that state. */
  lemma SecondState() returns (s: State)
    ensures Reachable(s) && s.history.calls == [InitializeImpl, MultiplexImpl(1)]
  {
    hide Reachable, CanCall, DoCall, CanThread, ThreadStep;
    StartsNextRound();
    GoLockRun(0, Mux(Multiplex), CHOSEN, NEXT_ROUND, THREADS, INITIALIZED);
    s := Made(0, Mux(Multiplex), CHOSEN, Pass(Running(InUser), NEXT_ROUND), THREADS,
              Log(INITIALIZED, MultiplexImpl(1)));
    Go(Made(0, Mux(Multiplex), CHOSEN, Pass(TestingAbort, NEXT_ROUND), THREADS, INITIALIZED), 0, TestAbort, s);
  }

  // ---- run(Engine(1)) ----

  lemma RunsForEngine() returns (s: State)
    ensures Reachable(s)
    ensures s == Made(0, MultiplexState(Reset, Idle, false), AWAKE.(needRun := true), NoPass,
                      [Entering(InitialRun, Idle, Return), Outside, Outside], FIRST_LIFE).(defaultHandler := Engine(1))
  {
    hide Reachable, CanPass, PassStep;
    var h := History([], Fresh, 0, false, false, false, false, false, NO_ENDING);
    s := Made(0, MultiplexState(Reset, Idle, false), INITIAL_SUB_STATE, NoPass, [Outside, Outside, Outside], h);
    s := s.(defaultHandler := Idle);
    InitReachable(s);
    GoCall(s, 0, CallRun(Engine(1)));
    s := DoCall(s, 0, CallRun(Engine(1)));
    GoThread(s, 0, ReadState);
    s := ThreadStep(s, 0, ReadState);
    GoThread(s, 0, ResetOutside);
    s := ThreadStep(s, 0, ResetOutside);
  }

  lemma DecidesForEngine() returns (s: State)
    ensures Reachable(s) && InPhase(s, 0, Closing(true, false)) && s.pass.frame.after == Return
    ensures s.mux == MultiplexState(Reset, Idle, false) && s.targetHandler == Idle && s.defaultHandler == Engine(1)
    ensures s.pass.frame.event == InitialRun && !s.yielding && s.engineLists == map[] && s.engineMutexes == map[]
    ensures s.history.booted && s.history.calls == []
  {
    hide Reachable, CanCall, DoCall;
    s := RunsForEngine();
    GoThread(s, 0, Enter);
    s := EnterStep(s, 0);
    hide CanThread, ThreadStep;
    GoPass(s, 0, Begin);
    s := BeginStep(s, 0);
    GoPass(s, 0, LockState);
    s := PassStep(s, 0, LockState);
    GoPass(s, 0, Decide);
    s := DecideStep(s, 0);
  }

  /** The first pass hands the task to the engine: it is in the list once, and no user code ran yet. */
  lemma StartsInEngine() returns (s: State)
    ensures Reachable(s) && s.pass == NoPass && s.history.booted && s.history.calls == []
    ensures s.mux.currentHandler == Engine(1) && Count(s, 1) == 1
  {
    hide Reachable, CanCall, DoCall, CanThread, ThreadStep;
    s := DecidesForEngine();
    assert AddsTo(s) == Some(1) && !KeepLooping(s);
    GoPass(s, 0, LockEngine);
    s := PassStep(s, 0, LockEngine);
    GoPass(s, 0, Close);
    s := CloseStep(s, 0);
  }
}
