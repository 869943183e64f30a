/** What each step changes in the threads, and who holds the mutexes of engines. */
module Moves {
  import opened TaskTypes
  import opened Protocol
  import opened Lifecycle
  import opened Invariants

  /** A step that changes the pass, within mRunMutex, and the list of calls only. */
  predicate InFrame(s: State, s': State)
    requires s.pass.Pass?
  {
    && s'.pass.Pass? && s'.pass.phase.Running? && s'.pass.frame.after == s.pass.frame.after
    && s'.mux == s.mux && s'.sub == s.sub && s'.multiplexMutex == s.multiplexMutex
    && s'.threads == s.threads && s'.loopers == s.loopers && s'.engineLists == s.engineLists
    && s'.engineMutexes == s.engineMutexes
    && s'.history.runCalled == s.history.runCalled && s'.history.booted == s.history.booted
    && s'.history.life == s.history.life && s'.history.stale == s.history.stale
  }

  lemma RunStateFrame(s: State, state: BaseState, at: RunPhase, c: Call)
    requires s.pass.Pass?
    ensures InFrame(s, RunState(s, state, at)) && InFrame(s, Logged(RunState(s, state, at), c))
  {
  }

  /** The test for a late abort is such a step. */
  lemma RunFrame(s: State, t: Tid)
    requires InPhase(s, t, TestingAbort) && s.pass.frame.state != Killed
    ensures InFrame(s, TestAbortStep(s, t))
  {
    var state := LateState(s.pass.frame.state, s.sub.aborted);
    RunStateFrame(s, state, StartOf(state, s.pass.frame.waiting), ImplOf(state, s.pass.frame.runState));
    assert state != Killed;
    hide LeakStep, RunState, Logged, StartOf, ImplOf, LateState, InFrame;
  }

  lemma KilledLeaks(s: State, t: Tid)
    requires InPhase(s, t, TestingAbort) && s.pass.frame.state == Killed
    ensures TestAbortStep(s, t) == LeakStep(s, t)
  {
  }

  /** The steps of a pass that take or release a mutex, and do nothing else. */
  predicate IsLocking(a: Action) {
    a.LockRun? || a.UnlockRun? || a.LockState? || a.LockEngine? || a.ReadStateInside?
  }

  lemma LockingOnly(s: State, t: Tid, a: Action)
    requires CanPass(s, t, a) && IsLocking(a)
    ensures var s' := PassStep(s, t, a);
      && s'.sub == s.sub && s'.mux == s.mux && s'.history == s.history && s'.threads == s.threads
      && s'.pass.Pass? && s'.pass.frame == s.pass.frame
      && (!a.LockEngine? ==> s'.engineMutexes == s.engineMutexes)
  {
  }

  /** A step of the pass either leaves the thread inside multiplex(), or lets it leave. */
  predicate PassMoved(s: State, t: Tid, s': State)
    requires InPass(s, t)
  {
    || (s'.threads == s.threads && s'.pass.Pass? && s'.pass.frame.after == s.pass.frame.after)
    || s'.threads == s.threads[t := AfterState(s.pass.frame.after)]
  }

  lemma PassMoves(s: State, t: Tid, a: Action)
    requires CanPass(s, t, a)
    ensures PassMoved(s, t, PassStep(s, t, a))
  {
    if a.TestAbort? && s.pass.frame.state == Killed {
      KilledLeaks(s, t);
    } else if a.TestAbort? {
      RunFrame(s, t);
    } else if a.User? {
      UserMoves(s, t, a.call);
    } else if a.Close? {
      CloseMoves(s, t);
    } else if OfWaitCondition(a) {
      ConditionMoves(s, t, a);
    } else if IsLocking(a) {
      LockingOnly(s, t, a);
      hide PassStep;
    }
  }

  lemma ConditionMoves(s: State, t: Tid, a: Action)
    requires CanPass(s, t, a) && OfWaitCondition(a)
    ensures PassMoved(s, t, PassStep(s, t, a))
  {
    hide SubStates.Wait;
  }

  lemma UserMoves(s: State, t: Tid, c: UserCall)
    requires InPass(s, t)
    ensures PassMoved(s, t, UserStep(s, c))
  {
  }

  lemma CloseMoves(s: State, t: Tid)
    requires InPass(s, t) && s.pass.phase.Closing?
    ensures PassMoved(s, t, CloseStep(s, t))
  {
  }

  // ---- The mutexes of engines ----

  /** A thread moves, and the mutexes of engines and what a pass adds stay as they are. */
  lemma LocksStay(s: State, s': State, t: Tid)
    requires EngineLocks(s) && IsThread(s, t) && |s'.threads| == |s.threads| && s'.engineMutexes == s.engineMutexes
    requires forall u | 0 <= u < |s.threads| && u != t :: s'.threads[u] == s.threads[u]
    requires !s.threads[t].InEngine? && !s'.threads[t].InEngine?
    requires forall u | InPass(s, u) && s.pass.phase.Closing? ::
      InPass(s', u) && s'.pass.phase.Closing? && AddsTo(s') == AddsTo(s)
    ensures EngineLocks(s')
  {
    hide AddsTo;
  }

  /** What the invariant says about a pass that is about to end. */
  lemma ClosingFacts(s: State)
    requires ProtocolInv(s) && s.pass.Pass? && s.pass.phase.Closing?
    ensures s.stateMutex.Some? && s.stateMutex == s.multiplexMutex && s.history.runCalled
    ensures forall u | 0 <= u < |s.threads| :: s.threads[u] == Inside <==> s.multiplexMutex == Some(u)
  {
  }

  /** What a pass adds depends on the handlers, the yield flag and the pass only. */
  lemma SameAddsTo(s: State, s': State)
    requires s.pass.Pass? && s.pass.phase.Closing? && s'.pass == s.pass && s'.mux == s.mux && s'.yielding == s.yielding
    requires s'.targetHandler == s.targetHandler && s'.defaultHandler == s.defaultHandler
    ensures AddsTo(s') == AddsTo(s)
  {
  }

  lemma CallAside(s: State, t: Tid, a: Action)
    requires CanCall(s, t, a)
    ensures var s' := DoCall(s, t, a);
      && |s'.threads| == |s.threads| && (forall u | 0 <= u < |s.threads| && u != t :: s'.threads[u] == s.threads[u])
      && s'.engineMutexes == s.engineMutexes && s'.mux == s.mux && s'.yielding == s.yielding
      && s'.targetHandler == s.targetHandler && (s.history.runCalled ==> s'.defaultHandler == s.defaultHandler)
      && s'.pass == s.pass && s'.multiplexMutex == s.multiplexMutex && !s'.threads[t].InEngine?
  {
  }

  lemma CallLocks(s: State, t: Tid, a: Action)
    requires ProtocolInv(s) && EngineLocks(s) && CanCall(s, t, a)
    ensures EngineLocks(DoCall(s, t, a))
  {
    var s' := DoCall(s, t, a);
    CallAside(s, t, a);
    assert s.threads[t] == Outside;
    if s.pass.Pass? && s.pass.phase.Closing? {
      ClosingFacts(s);
      hide DoCall, CanCall;
      SameAddsTo(s, s');
    }
    hide ProtocolInv, AddsTo, EngineLocks, DoCall, CanCall;
    LocksStay(s, s', t);
  }

  /** A step of a thread outside the pass leaves the handlers and the mutexes of engines alone, and the pass unless
      there is none. */
  predicate Aside(s: State, s': State, t: Tid) {
    && |s'.threads| == |s.threads| && (forall u | 0 <= u < |s.threads| && u != t :: s'.threads[u] == s.threads[u])
    && s'.engineMutexes == s.engineMutexes && s'.mux == s.mux && s'.yielding == s.yielding
    && s'.targetHandler == s.targetHandler && s'.defaultHandler == s.defaultHandler
    && (s.multiplexMutex.Some? ==> s'.pass == s.pass && s'.multiplexMutex == s.multiplexMutex)
  }

  lemma EnterAside(s: State, t: Tid)
    requires CanThread(s, t, Enter)
    ensures Aside(s, EnterStep(s, t), t) && !EnterStep(s, t).threads[t].InEngine?
  {
  }

  lemma ThreadAside(s: State, t: Tid, a: Action)
    requires CanThread(s, t, a) && !a.TakeEngine? && !a.LeaveEngine?
    ensures Aside(s, ThreadStep(s, t, a), t) && !ThreadStep(s, t, a).threads[t].InEngine?
  {
    if a.Enter? {
      EnterAside(s, t);
    }
  }

  lemma ThreadLocks(s: State, t: Tid, a: Action)
    requires ProtocolInv(s) && EngineLocks(s) && CanThread(s, t, a) && !a.TakeEngine? && !a.LeaveEngine?
    ensures EngineLocks(ThreadStep(s, t, a))
  {
    var s' := ThreadStep(s, t, a);
    ThreadAside(s, t, a);
    assert !s.threads[t].InEngine? && s.threads[t] != Inside;
    if s.pass.Pass? && s.pass.phase.Closing? {
      ClosingFacts(s);
      hide ThreadStep, CanThread;
      SameAddsTo(s, s');
    }
    hide ProtocolInv, AddsTo, EngineLocks, ThreadStep, CanThread;
    LocksStay(s, s', t);
  }

  lemma ElementLocks(s: State, t: Tid, a: Action)
    requires EngineLocks(s) && CanThread(s, t, a) && (a.TakeEngine? || a.LeaveEngine?)
    ensures EngineLocks(ThreadStep(s, t, a))
  {
    var s' := ThreadStep(s, t, a);
    var e := s.threads[t].engine;
    if s.pass.Pass? && s.pass.phase.Closing? {
      SameAddsTo(s, s');
    }
    hide AddsTo;
    forall u | 0 <= u < |s'.threads| && s'.threads[u].InEngine? ensures HoldsEngine(s', u, s'.threads[u].engine) {
      if u != t {
        assert HoldsEngine(s, u, s.threads[u].engine);
      }
    }
  }

  lemma NotClosing(s: State, t: Tid, a: Action)
    requires CanPass(s, t, a) && !a.LockEngine? && !a.Close?
    ensures InPass(s, t) && !s.pass.phase.Closing?
  {
  }

  lemma PassLocks(s: State, t: Tid, a: Action)
    requires EngineLocks(s) && CanPass(s, t, a) && !a.LockEngine? && !a.Close?
    ensures EngineLocks(PassStep(s, t, a))
  {
    hide PassStep, AddsTo, CanPass, EngineLocks;
    NotClosing(s, t, a);
    PassMoves(s, t, a);
    SameMutexes(s, t, a);
    LocksStay(s, PassStep(s, t, a), t);
  }

  lemma SameMutexes(s: State, t: Tid, a: Action)
    requires CanPass(s, t, a) && !a.LockEngine? && !a.Close?
    ensures PassStep(s, t, a).engineMutexes == s.engineMutexes
  {
    if a.TestAbort? && s.pass.frame.state == Killed {
      KilledLeaks(s, t);
    } else if a.TestAbort? {
      RunFrame(s, t);
    } else if a.User? {
      UserMutexes(s, a.call);
    } else if OfWaitCondition(a) {
      ConditionMutexes(s, t, a);
    } else if IsLocking(a) {
      LockingOnly(s, t, a);
      hide PassStep;
    }
  }

  lemma UserMutexes(s: State, c: UserCall)
    requires s.pass.Pass?
    ensures UserStep(s, c).engineMutexes == s.engineMutexes
  {
  }

  lemma ConditionMutexes(s: State, t: Tid, a: Action)
    requires CanPass(s, t, a) && OfWaitCondition(a)
    ensures PassStep(s, t, a).engineMutexes == s.engineMutexes
  {
    hide SubStates.Wait;
  }

  lemma LockEngineLocks(s: State, t: Tid)
    requires EngineLocks(s) && CanPass(s, t, LockEngine)
    ensures EngineLocks(PassStep(s, t, LockEngine))
  {
    var s' := PassStep(s, t, LockEngine);
    SameAddsTo(s, s');
    hide AddsTo;
  }

  lemma CloseLocks(s: State, t: Tid)
    requires EngineLocks(s) && CanPass(s, t, Close)
    ensures EngineLocks(CloseStep(s, t))
  {
    var s' := CloseStep(s, t);
    CloseMoves(s, t);
    CloseMutexes(s, t);
    hide CloseStep, AddsTo, KeepLooping, CanPass;
    assert InPass(s, t) && s.pass.phase.Closing?;
    PassEnds(s, s', t);
  }

  lemma CloseMutexes(s: State, t: Tid)
    requires InPass(s, t) && s.pass.phase.Closing?
    ensures CloseStep(s, t).engineMutexes ==
      if AddsTo(s).Some? then s.engineMutexes - {AddsTo(s).value} else s.engineMutexes
  {
  }

  lemma PassEnds(s: State, s': State, t: Tid)
    requires EngineLocks(s) && InPass(s, t) && s.pass.phase.Closing? && PassMoved(s, t, s')
    requires s'.engineMutexes == if AddsTo(s).Some? then s.engineMutexes - {AddsTo(s).value} else s.engineMutexes
    requires AddsTo(s).Some? ==> HoldsEngine(s, t, AddsTo(s).value)
    ensures EngineLocks(s')
  {
    hide AddsTo;
    forall u | 0 <= u < |s'.threads| && s'.threads[u].InEngine? ensures HoldsEngine(s', u, s'.threads[u].engine) {
      assert s.threads[u].InEngine? && HoldsEngine(s, u, s.threads[u].engine);
    }
  }

  lemma LocksKept(s: State, t: Tid, a: Action)
    requires ProtocolInv(s) && EngineLocks(s) && Can(s, t, a)
    ensures EngineLocks(Step(s, t, a))
  {
    hide ProtocolInv, EngineLocks;
    if CanCall(s, t, a) {
      CallLocks(s, t, a);
    } else if CanThread(s, t, a) {
      if a.TakeEngine? || a.LeaveEngine? {
        ElementLocks(s, t, a);
      } else {
        ThreadLocks(s, t, a);
      }
    } else if a.LockEngine? {
      LockEngineLocks(s, t);
    } else if a.Close? {
      CloseLocks(s, t);
    } else {
      PassLocks(s, t, a);
    }
  }
}
