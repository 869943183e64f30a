/** The steps of threads outside the pass keep the invariant of the pass. */
module ThreadKept {
  import opened TaskTypes
  import opened SubStates
  import opened Protocol
  import opened Invariants
  import opened PassKept

  lemma TurnAwayKept(s: State, t: Tid)
    requires PassInv(s) && IsThread(s, t) && s.threads[t].Entering? && s.stateMutex.None?
    requires TurnedAway(s, s.threads[t].event, s.threads[t].handler)
    requires s.threads[t].event == InitialRun ==> !s.history.booted
    ensures PassInv(Goto(s, t, AfterState(s.threads[t].after)))
  {
    Moved(s.threads, t, AfterState(s.threads[t].after));
  }

  lemma AdmitKept(s: State, t: Tid)
    requires PassInv(s) && IsThread(s, t) && s.threads[t].Entering? && s.stateMutex.None?
    requires !TurnedAway(s, s.threads[t].event, s.threads[t].handler)
    requires s.threads[t].event == InitialRun ==> !s.history.booted && s.history.life == 1
    requires EntryOk(s.threads[t], s.history.life, Doomed(s))
    ensures PassInv(EnterStep(s, t))
  {
    Moved(s.threads, t, Inside);
  }

  /** A signal changes the masks, and it sets need_run exactly if it wakes up the task. */
  lemma SignalFacts(s: SubState, c: Mask)
    ensures var r := Signal(s, c);
      && r.aborted == s.aborted && r.finished == s.finished && r.reset == s.reset && r.runState == s.runState
      && r.idle <= s.idle && (r.needRun <==> s.needRun || Wakes(s, c))
      && (Wakes(s, c) <==> s.idle != {} && r.idle == {})
  {
  }

  lemma SignalWaitOk(s: State, t: Tid, c: Mask)
    requires PassInv(s) && IsThread(s, t) && c != {}
    requires s.threads[t] == Outside || (s.threads[t] == OwesSignal && !(c !! s.watched))
    ensures WaitOk(SignalStep(s, t, c))
  {
    Moved(s.threads, t, if Wakes(s.sub, c) then Entering(ScheduleRun, Idle, Return) else Outside);
  }

  lemma SignalSchedules(s: State, t: Tid, c: Mask)
    requires PassInv(s) && IsThread(s, t) && c != {}
    requires s.threads[t] == Outside || (s.threads[t] == OwesSignal && !(c !! s.watched))
    ensures SubOk(SignalStep(s, t, c)) && Scheduling(SignalStep(s, t, c)) && Boot(SignalStep(s, t, c))
  {
    Moved(s.threads, t, if Wakes(s.sub, c) then Entering(ScheduleRun, Idle, Return) else Outside);
    SignalFacts(s.sub, c);
    hide SubStates.Signal, SubStates.SignalMasks, Wakes, WaitOk, FrameOk, CallsOk, EndingOk, Handlers;
  }

  lemma SignalPass(s: State, t: Tid, c: Mask)
    requires IsThread(s, t) && Locks(s) && FrameOk(s) && Handlers(s) && StaleOk(s)
    ensures var s' := SignalStep(s, t, c);
      Locks(s') && FrameOk(s') && Handlers(s') && StaleOk(s')
  {
    SignalFacts(s.sub, c);
    hide SubStates.Signal, SubStates.SignalMasks, Wakes;
  }

  lemma SignalHistory(s: State, t: Tid, c: Mask)
    requires PassInv(s) && IsThread(s, t)
    ensures var s' := SignalStep(s, t, c);
      Barrier(s') && CallsOk(s') && EndingOk(s') && KilledOk(s')
  {
    SignalFacts(s.sub, c);
    hide SubStates.Signal, SubStates.SignalMasks, Wakes, WaitOk, Handlers, FrameOk, Boot, Scheduling;
  }

  lemma SignalKept(s: State, t: Tid, c: Mask)
    requires PassInv(s) && IsThread(s, t) && c != {}
    requires s.threads[t] == Outside || (s.threads[t] == OwesSignal && !(c !! s.watched))
    ensures PassInv(SignalStep(s, t, c))
  {
    SignalPass(s, t, c);
    SignalHistory(s, t, c);
    SignalWaitOk(s, t, c);
    SignalSchedules(s, t, c);
    hide SignalStep, WaitOk, SubOk, Scheduling, Boot, Locks, FrameOk, Handlers;
    hide StaleOk, Barrier, CallsOk, EndingOk, KilledOk;
  }

  lemma AbortKept(s: State, t: Tid)
    requires PassInv(s) && IsThread(s, t) && s.threads[t] == WantAbort && s.stateMutex.None?
    ensures PassInv(AbortStep(s, t))
  {
    Moved(s.threads, t, AbortStep(s, t).threads[t]);
  }

  lemma ResetOutsideKept(s: State, t: Tid)
    requires PassInv(s) && IsThread(s, t) && s.threads[t] == WantReset
    requires RunnersOk(s.threads, s.history)
    ensures PassInv(Goto(ResetFlags(s), t, Entering(InitialRun, Idle, Return)))
  {
    Moved(s.threads, t, Entering(InitialRun, Idle, Return));
  }

  lemma BarrierKept(s: State, life: nat)
    requires PassInv(s) && s.runMutex.None? && JoinOk(life, s.history.life, Doomed(s))
    ensures PassInv(s.(history := s.history.(barrier := s.history.barrier || (life > 0 && life == s.history.life))))
  {
  }

  lemma JoinKept(s: State, t: Tid)
    requires PassInv(s) && IsThread(s, t) && s.threads[t].WantJoin? && s.runMutex.None?
    requires EntryOk(s.threads[t], s.history.life, Doomed(s))
    ensures PassInv(JoinStep(s, t))
  {
    var life := s.threads[t].life;
    BarrierKept(s, life);
    var s' := s.(history := s.history.(barrier := s.history.barrier || (life > 0 && life == s.history.life)));
    hide PassInv;
    QuietKept(s', t, Outside, s'.engineLists, s'.loopers, s'.engineMutexes);
  }

  lemma FirstRunKept(s: State, t: Tid, h: Handler)
    requires PassInv(s) && IsThread(s, t) && s.threads[t] == Outside && !s.history.runCalled && h != Idle
    ensures PassInv(Goto(s.(defaultHandler := h, history := s.history.(runCalled := true)), t, WantRead))
  {
    Moved(s.threads, t, WantRead);
  }

  lemma PredicateTrueKept(s: State, t: Tid)
    requires PassInv(s) && IsThread(s, t) && s.threads[t] == Outside
    ensures PassInv(Goto(s.(holds := true), t, OwesSignal))
  {
    Moved(s.threads, t, OwesSignal);
  }

  lemma PredicateFalseKept(s: State, t: Tid)
    requires PassInv(s) && IsThread(s, t) && s.threads[t] == Outside
    ensures PassInv(Goto(s.(holds := false), t, Outside))
  {
    assert s.threads[t := Outside] == s.threads;
  }

  /** Steps that move a thread, and change nothing else but the lists of the engines. */
  lemma QuietKept(s: State, t: Tid, ts: ThreadState, lists: map<EngineId, nat>,
                  loopers: map<EngineId, Tid>, mutexes: map<EngineId, Tid>)
    requires PassInv(s) && IsThread(s, t)
    requires !IsWake(s.threads[t]) && !IsBoot(s.threads[t]) && s.threads[t] != OwesSignal
    requires !IsWake(ts) && !IsBoot(ts)
    ensures PassInv(Goto(s, t, ts).(engineLists := lists, loopers := loopers, engineMutexes := mutexes))
  {
    ListsKept(s, lists, loopers, mutexes);
    hide PassInv;
    MoveKept(s.(engineLists := lists, loopers := loopers, engineMutexes := mutexes), t, ts);
  }

  lemma ListsKept(s: State, lists: map<EngineId, nat>, loopers: map<EngineId, Tid>, mutexes: map<EngineId, Tid>)
    requires PassInv(s)
    ensures PassInv(s.(engineLists := lists, loopers := loopers, engineMutexes := mutexes))
  {
  }

  lemma MoveKept(s: State, t: Tid, ts: ThreadState)
    requires PassInv(s) && IsThread(s, t)
    requires !IsWake(s.threads[t]) && !IsBoot(s.threads[t]) && s.threads[t] != OwesSignal
    requires !IsWake(ts) && !IsBoot(ts)
    ensures PassInv(Goto(s, t, ts))
  {
    Moved(s.threads, t, ts);
  }
}
