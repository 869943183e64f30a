/** What holds in every run of a task, whatever its users do and however the threads interleave. */
module TaskTheorems {
  import opened TaskTypes
  import opened Protocol
  import opened Invariants
  import opened Reachability
  import opened Moves

  // ---- No wake-up and no abort is lost ----

  /** A handler has the task: it runs in an engine whose list contains it, or in the thread pool. */
  predicate Queued(s: State) {
    match s.mux.currentHandler
    case Engine(e) => Count(s, e) > 0
    case ThreadPool(_) => true
    case _ => false
  }

  /** The thread that holds mMultiplexMutex has still to read the sub-state before it lets go, or it
      has read it and will run the task again. */
  predicate WillDecide(s: State) {
    && s.pass.Pass?
    && match s.pass.phase
       case Checking => s.sub.needRun
       case Closing(needNewRun, _) => needNewRun
       case Leaked => false
       case _ => true
  }

  ghost predicate Scheduled(s: State) {
    Queued(s) || WillDecide(s) || (s.sub.needRun && PendingWake(s.threads))
  }

  /** The life of a task that was let in is over, or the task is idle, or someone will run it. */
  lemma NeverStranded(s: State)
    requires Reachable(s) && s.history.booted
    requires s.mux.baseState != Killed && (s.mux.baseState == Multiplex ==> s.sub.idle == {})
    ensures Scheduled(s)
  {
    ReachableInv(s);
  }

  lemma NoLostWakeUp(s: State)
    requires Reachable(s) && s.mux.baseState == Multiplex && s.sub.idle == {}
    ensures Scheduled(s)
  {
    ReachableInv(s);
    NeverStranded(s);
  }

  lemma NoLostAbort(s: State)
    requires Reachable(s) && s.sub.aborted && s.history.life > 0 && s.mux.baseState in {Reset, Initialize, Multiplex}
    ensures Scheduled(s) || (!s.history.booted && s.sub.needRun && PendingBoot(s.threads))
  {
    ReachableInv(s);
  }

  /** try_lock fails only while the holder is before the critical section in which it reads the sub-state, or when a
      killed task was left with mMultiplexMutex locked. */
  lemma TryLockFailsBeforeTheDecision(s: State, t: Tid)
    requires Reachable(s) && CanThread(s, t, Enter) && s.multiplexMutex.Some?
    ensures s.pass.Pass?
    ensures if s.pass.phase.Leaked? then s.mux.baseState == Killed else
      && WillDecide(s)
      && (s.pass.phase.WantRun? || s.pass.phase.TestingAbort? || s.pass.phase.Running? || s.pass.phase.WantState?)
  {
    ReachableInv(s);
  }

  // ---- A task is not started while it is idle ----

  /** Where a task should not be idle: need_run is set, or begin_loop or multiplex_impl is about to run or runs, or an
      engine has the task and nobody runs it. */
  predicate IsStarted(s: State) {
    || s.sub.needRun
    || (s.pass.Pass? && (s.pass.phase.Beginning? || s.pass.phase.WantRun? || s.pass.phase.TestingAbort?))
    || (s.pass.Pass? && s.pass.phase == Running(InUser))
    || (s.pass.Pass? && s.pass.phase.Closing? && KeepLooping(s))
    || (s.mux.currentHandler.Engine? && s.pass == NoPass)
  }

  /** A task is not idle there, unless an insert_abort of an earlier life was let in. */
  lemma NeverStartedIdle(s: State)
    requires Reachable(s) && !s.history.stale && IsStarted(s)
    ensures s.sub.idle == {}
  {
    ReachableInv(s);
  }

  /** An insert_abort that is let in finds the task idle exactly if the task waits: no handler has it, and need_run is
      not set. Then it belongs to an abort() of an earlier life. */
  lemma InsertAbortFindsIdle(s: State, t: Tid)
    requires Reachable(s) && CanThread(s, t, Enter) && s.threads[t].event == InsertAbort
    requires !TurnedAway(s, InsertAbort, s.threads[t].handler)
    ensures s.sub.idle != {} <==> s.mux.currentHandler == Idle && !s.sub.needRun
    ensures s.sub.idle != {} ==> s.threads[t].after.Join? && s.threads[t].after.life < s.history.life
  {
    ReachableInv(s);
    assert EntryOk(s.threads[t], s.history.life, Doomed(s));
  }

  // ---- The order of the locks ----

  datatype Lock = MultiplexLock | RunLock | StateLock | EngineLock(engine: EngineId)

  function Rank(l: Lock): nat {
    match l
    case MultiplexLock => 0
    case RunLock => 1
    case StateLock => 2
    case EngineLock(_) => 3
  }

  predicate Holds(s: State, u: Tid, l: Lock) {
    Owner(s, l) == Some(u)
  }

  function Owner(s: State, l: Lock): Option<Tid> {
    match l
    case MultiplexLock => s.multiplexMutex
    case RunLock => s.runMutex
    case StateLock => s.stateMutex
    case EngineLock(e) => if e in s.engineMutexes then Some(s.engineMutexes[e]) else None
  }

  /** The lock that a thread blocks on, if it is taken. No thread ever blocks on mMultiplexMutex. */
  function Wants(s: State, u: Tid): Option<Lock>
    requires IsThread(s, u)
  {
    match s.threads[u]
    case WantRead => Some(StateLock)
    case Entering(_, _, _) => Some(StateLock)
    case WantAbort => Some(StateLock)
    case WantJoin(_) => Some(RunLock)
    case WantTest(_) => Some(StateLock)
    case WantEngine(e, _) => Some(EngineLock(e))
    case Inside => if s.pass.Pass? then PassWants(s, u) else None
    case _ => None
  }

  function PassWants(s: State, u: Tid): Option<Lock>
    requires s.pass.Pass?
  {
    match s.pass.phase
    case WantRun => Some(RunLock)
    case WantState => Some(StateLock)
    case Running(at) =>
      if at in {WantSelfAbort, WantReadState, WantInstall, WantEvaluate} then Some(StateLock) else None
    case Closing(_, _) =>
      if AddsTo(s).Some? && !HoldsEngine(s, u, AddsTo(s).value) then Some(EngineLock(AddsTo(s).value)) else None
    case _ => None
  }

  /** A thread blocks only on a lock that is higher than all locks that it holds. */
  lemma LockOrder(s: State, u: Tid, l: Lock)
    requires Reachable(s) && IsThread(s, u) && Wants(s, u).Some? && Holds(s, u, l)
    ensures Rank(l) < Rank(Wants(s, u).value)
  {
    ReachableInv(s);
    hide AddsTo;
  }

  /** What a thread that is inside some call does next. */
  function NextAction(s: State, u: Tid): Action
    requires IsThread(s, u)
  {
    match s.threads[u]
    case WantRead => ReadState
    case WantReset => ResetOutside
    case Entering(_, _, _) => Enter
    case WantAbort => AbortSection
    case WantJoin(_) => JoinRun
    case OwesSignal => PaySignal(s.watched)
    case WantTest(_) => TestActive
    case WantEngine(_, _) => TakeEngine
    case InEngine(_, _) => LeaveEngine
    case _ => if s.pass == NoPass then CallAbort else PassAction(s, u)
  }

  function PassAction(s: State, u: Tid): Action
    requires s.pass.Pass?
  {
    match s.pass.phase
    case Checking => Check
    case Beginning => Begin
    case WantRun => LockRun
    case TestingAbort => TestAbort
    case Running(at) =>
      (match at
       case Preparing => Prepare
       case InUser => User(ReturnFromImpl)
       case WantSelfAbort => AbortSelf
       case WantReadState => ReadStateInside
       case Resetting => ResetInside
       case WantInstall => Install
       case UntilWait => UntilWaitSection
       case WantEvaluate => Evaluate
       case WaitAgain => WaitAgainSection
       case Waking => WakeUp
       case Returning => UnlockRun)
    case WantState => LockState
    case Deciding => Decide
    case _ => if Closing(s) && AddsTo(s).Some? && !HoldsEngine(s, u, AddsTo(s).value) then LockEngine else Close
  }

  predicate Closing(s: State) {
    s.pass.Pass? && s.pass.phase.Closing?
  }

  /** A thread can step unless the lock that it wants is taken. */
  lemma OnlyLocksBlock(s: State, u: Tid)
    requires Reachable(s) && IsThread(s, u) && s.threads[u] != Outside
    requires Wants(s, u).Some? ==> Owner(s, Wants(s, u).value) == None
    ensures Can(s, u, NextAction(s, u))
  {
    hide Reachable, CanCall, AddsTo;
    if s.threads[u] == Inside {
      assert InPass(s, u) && s.pass.phase != Leaked by {
        ReachableInv(s);
      }
      assert CanPass(s, u, NextAction(s, u));
    } else {
      assert CanThread(s, u, NextAction(s, u)) by {
        assert s.watched != {} by {
          ReachableInv(s);
        }
        var c :| c in s.watched;
        assert c in s.watched * s.watched;
      }
    }
  }

  /** As long as some thread is inside a call, some thread inside a call can step. */
  lemma NoDeadlock(s: State, t: Tid) returns (u: Tid)
    requires Reachable(s) && IsThread(s, t) && s.threads[t] != Outside
    ensures IsThread(s, u) && s.threads[u] != Outside && Can(s, u, NextAction(s, u))
  {
    hide Can, Reachable, Wants, NextAction;
    var owner := if s.stateMutex.Some? then s.stateMutex else s.runMutex;
    u := if owner.Some? then owner.value else t;
    OwnerFacts(s);
    if Wants(s, u).Some? && Wants(s, u).value.EngineLock? && Owner(s, Wants(s, u).value).Some? {
      EngineOwnerFacts(s, Wants(s, u).value.engine);
      u := Owner(s, Wants(s, u).value).value;
    }
    NeverBlocksOnMultiplex(s, u);
    OnlyLocksBlock(s, u);
  }

  lemma NeverBlocksOnMultiplex(s: State, u: Tid)
    requires IsThread(s, u)
    ensures Wants(s, u) != Some(MultiplexLock)
  {
  }

  lemma OwnerFacts(s: State)
    requires Reachable(s)
    ensures s.stateMutex.Some? ==>
      var u := s.stateMutex.value;
      IsThread(s, u) && s.threads[u] == Inside && (Wants(s, u).Some? ==> Wants(s, u).value.EngineLock?)
    ensures s.runMutex.Some? ==>
      var u := s.runMutex.value; IsThread(s, u) && s.threads[u] == Inside && Wants(s, u) != Some(RunLock)
  {
    ReachableInv(s);
    hide AddsTo;
  }

  /** A thread that holds the mutex of an engine wants nothing. */
  lemma EngineOwnerFacts(s: State, e: EngineId)
    requires Reachable(s) && e in s.engineMutexes
    ensures var u := s.engineMutexes[e]; IsThread(s, u) && s.threads[u] != Outside && Wants(s, u) == None
  {
    ReachableInv(s);
    hide AddsTo;
  }

  // ---- Handlers ----

  /** A pass of normal_run runs in the handler that the task is in; while no pass is active that is a
      real handler; and at the start of each pass it is the target, if there is one. */
  lemma HandlerDiscipline(s: State)
    requires Reachable(s)
    ensures s.pass.Pass? && s.pass.phase != Leaked && s.pass.frame.event == NormalRun ==>
      s.pass.frame.handler == s.mux.currentHandler && s.mux.currentHandler != Idle
    ensures s.multiplexMutex == None ==> s.mux.currentHandler != Immediate
    ensures s.pass.Pass? && s.pass.phase == TestingAbort && s.targetHandler != Idle ==>
      s.pass.frame.handler == s.targetHandler
  {
    ReachableInv(s);
  }

  /** An engine keeps the task as long as the task runs in it, also while mainloop erases another element of it. */
  lemma EngineKeepsTask(s: State, e: EngineId)
    requires Reachable(s) && s.mux.currentHandler == Engine(e)
    ensures Count(s, e) >= 1
    ensures e in s.loopers && (At(s, s.loopers[e], WantEngine(e, true)) || At(s, s.loopers[e], InEngine(e, true))) ==>
      Count(s, e) >= 2
  {
    ReachableInv(s);
  }

  /** mainloop never erases an element that is not there. */
  lemma EraseFindsElement(s: State, t: Tid)
    requires Reachable(s) && CanThread(s, t, LeaveEngine)
    ensures Count(s, s.threads[t].engine) >= 1 && HoldsEngine(s, t, s.threads[t].engine)
  {
    ReachableInv(s);
    assert LoopOf(s.threads[t], InsideAfter(s)) == Some(s.threads[t].engine);
  }

  // ---- The task after it was killed ----

  /** mMultiplexMutex stays locked after a return from bs_killed only if need_run was set when the task was killed,
      or abort() was called after that, or an insert_abort of an earlier life was let in. */
  lemma WhenLeaked(s: State)
    requires Reachable(s) && s.pass.Pass? && s.pass.phase == Leaked
    ensures s.mux.baseState == Killed && (s.history.stray || s.history.stale)
  {
    ReachableInv(s);
  }

  /** That happens exactly in a pass that starts to run a killed task, and a wake-up starts such a pass exactly if it
      finds need_run set: where the code expects that it never gets. */
  lemma LeaksExactlyWhenKilled(s: State, t: Tid)
    requires Reachable(s)
    ensures CanPass(s, t, TestAbort) ==> (TestAbortStep(s, t).pass.phase == Leaked <==> s.mux.baseState == Killed)
    ensures CanPass(s, t, Check) ==> (CheckStep(s, t).pass == NoPass <==> !s.sub.needRun)
  {
    ReachableInv(s);
    if CanPass(s, t, TestAbort) {
      if s.pass.frame.state == Killed {
        KilledLeaks(s, t);
      } else {
        RunFrame(s, t);
      }
    }
  }

  /** The first call of multiplex() finds a task in bs_reset that nobody else runs. */
  lemma InitialRunIsLetIn(s: State, t: Tid)
    requires Reachable(s) && IsThread(s, t) && s.threads[t].Entering? && s.threads[t].event == InitialRun
    ensures s.mux.baseState == Reset && s.multiplexMutex == None && s.mux.currentHandler == Idle
  {
    ReachableInv(s);
  }
}
