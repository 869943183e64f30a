/** The inductive invariant of the step system. */
module Invariants {
  import opened TaskTypes
  import opened SubStates
  import opened Protocol
  import opened Lifecycle

  /** The phases in which the pass holds mState. */
  predicate HoldsState(p: Phase) {
    p.Checking? || p.Beginning? || p == Running(WaitAgain) || p == Running(Waking) || p.Deciding? || p.Closing?
  }

  predicate HoldsRun(p: Phase) {
    p.TestingAbort? || p.Running?
  }

  /** The pass has called, or is calling, the function that belongs to its state. */
  predicate Called(s: State) {
    && s.pass.Pass? && s.pass.frame.event == NormalRun
    && (|| s.pass.phase.WantState?
        || s.pass.phase.Deciding?
        || (s.pass.phase.Running? && s.pass.phase != Running(Preparing)))
  }

  predicate Doomed(s: State) {
    s.sub.aborted || s.sub.finished
  }

  /** The thread inside multiplex(), if any. */
  function Holder(s: State): Option<Tid> {
    if s.pass.Pass? && s.pass.phase != Leaked then s.multiplexMutex else None
  }

  /** The mutexes are held as the phase of the pass says. */
  predicate Locks(s: State) {
    && (s.pass == NoPass <==> s.multiplexMutex == None)
    && s.stateMutex == (if s.pass.Pass? && HoldsState(s.pass.phase) then s.multiplexMutex else None)
    && s.runMutex == (if s.pass.Pass? && HoldsRun(s.pass.phase) then s.multiplexMutex else None)
  }

  /** The state that a pass runs agrees with the base state, but for a late abort. */
  predicate StateAgrees(s: State, state: BaseState) {
    || state == s.mux.baseState
    || (state == Abort && s.mux.baseState == Multiplex)
    || (state == Reset && s.mux.baseState == Initialize)
  }

  predicate FrameOk(s: State) {
    s.pass.Pass? ==>
      var f, p := s.pass.frame, s.pass.phase;
      && (p.Leaked? ==> s.mux.baseState == Killed)
      && (!p.Leaked? && f.event == NormalRun ==> f.handler == s.mux.currentHandler && f.handler != Idle)
      && (p.Checking? ==> f.event == ScheduleRun)
      && (p.WantRun? || HoldsRun(p) ==> f.event == NormalRun)
      && (p.Checking? || p.Beginning? || p.WantRun? || p.TestingAbort? ==>
            f.state == s.mux.baseState && f.waiting == s.mux.waitCondition)
      && (p.WantRun? || p.TestingAbort? ==> f.runState == s.sub.runState)
      && (p.Running? || p.WantState? || p.Deciding? ==>
            StateAgrees(s, f.state) && (f.event == NormalRun ==> f.state != Killed))
      && (p == Running(Preparing) || p == Running(WantReadState) || p == Running(Resetting) ==>
            f.state == Finish || f.state == Callback)
      && (p == Running(InUser) || p == Running(WantSelfAbort) ==>
            f.state != Reset && (f.state == Multiplex ==> !s.mux.waitCondition))
      && (p == Running(WantInstall) ==> f.state == Multiplex && !s.mux.waitCondition)
      && (p == Running(UntilWait) || p == Running(WantEvaluate) || p == Running(WaitAgain) ==>
            f.state == Multiplex && s.mux.waitCondition)
      && (p == Running(Waking) ==> f.state == Multiplex)
      && (p.Closing? && !p.needNewRun ==> s.mux.baseState == Killed || s.mux.baseState == Multiplex)
  }

  /** The pass is about to call user code. */
  predicate BeforeUserCode(p: Phase) {
    p.WantRun? || p.TestingAbort? || p == Running(Preparing)
  }

  predicate Handlers(s: State) {
    && (s.history.runCalled ==> s.defaultHandler != Idle)
    && s.targetHandler != Immediate
    && (s.pass == NoPass || (s.pass.phase != Leaked && s.pass.frame.event != NormalRun) ==>
          s.mux.currentHandler != Immediate)
    && (s.yielding ==>
          && s.pass.Pass? && s.pass.frame.event == NormalRun
          && (s.targetHandler != Idle || s.defaultHandler != Immediate)
          && (s.pass.phase.Running? || s.pass.phase.WantState? || s.pass.phase.Deciding? || s.pass.phase.Closing?)
          && (!s.pass.phase.Closing? ==> s.pass.frame.state == Multiplex))
    && (s.targetHandler != Idle && (s.pass == NoPass || s.pass.phase.Checking? || s.pass.phase.Beginning?) ==>
          s.mux.currentHandler == s.targetHandler || s.mux.currentHandler == Idle)
    && (s.targetHandler != Idle && s.pass.Pass? && BeforeUserCode(s.pass.phase) ==>
          s.mux.currentHandler == s.targetHandler)
  }

  /** The pass stands after a call of multiplex_impl. */
  predicate AfterMultiplexImpl(s: State) {
    && s.pass.Pass? && s.pass.frame.event == NormalRun && s.pass.frame.state == Multiplex
    && (s.pass.phase == Running(Returning) || s.pass.phase.WantState? || s.pass.phase.Deciding?)
  }

  /** Where a task can be idle. */
  predicate Calm(s: State) {
    || (s.mux.currentHandler == Idle && (s.pass == NoPass || s.pass.phase.Checking?))
    || AfterMultiplexImpl(s)
    || (s.pass.Pass? && s.pass.phase.Closing? && !s.pass.phase.needNewRun)
  }

  predicate SubOk(s: State) {
    && (s.sub.idle != {} && !s.history.stale ==>
          s.mux.baseState == Multiplex && !s.sub.needRun && !Doomed(s) && Calm(s))
    && (s.pass.Pass? && s.pass.phase.Running? && s.pass.frame.state in {Multiplex, Initialize} && s.sub.aborted ==>
          s.sub.needRun)
    && (s.sub.finished ==>
          && s.mux.baseState != Reset && s.mux.baseState != Initialize
          && (s.mux.baseState == Multiplex ==> AfterMultiplexImpl(s)))
    && (s.sub.reset && (s.mux.baseState == Callback || (s.mux.baseState == Finish && Called(s))) ==>
          !s.sub.finished && !s.history.stale)
  }

  /** The pass is an insert_abort that did not change the base state yet. */
  predicate InsertsAbort(s: State) {
    && s.pass.Pass? && s.pass.frame.event == InsertAbort
    && (s.pass.phase.Beginning? || s.pass.phase.WantState? || s.pass.phase.Deciding?)
  }

  /** An insert_abort of an earlier life leads straight to the end of the life that it hits. */
  predicate StaleOk(s: State) {
    && (s.history.stale ==> s.mux.baseState in {Abort, Finish, Callback, Killed} || InsertsAbort(s))
    && (InsertsAbort(s) ==> s.mux.baseState == Multiplex && (s.history.stale || Doomed(s)))
  }

  predicate IsWake(ts: ThreadState) {
    ts.Entering? && (ts.event == ScheduleRun || ts.event == InsertAbort)
  }

  predicate IsBoot(ts: ThreadState) {
    ts.Entering? && ts.event == InitialRun
  }

  /** Some thread is about to enter multiplex(schedule_run) or multiplex(insert_abort). */
  ghost predicate PendingWake(threads: seq<ThreadState>) {
    exists u :: 0 <= u < |threads| && IsWake(threads[u])
  }

  ghost predicate PendingBoot(threads: seq<ThreadState>) {
    exists u :: 0 <= u < |threads| && IsBoot(threads[u])
  }

  /** What must hold when no handler has the task and no pass will decide: it is dead, idle, or about to be run. */
  ghost predicate Accounted(s: State) {
    || s.mux.baseState == Killed
    || (s.mux.baseState == Multiplex && (s.sub.idle != {} || (s.sub.needRun && PendingWake(s.threads))))
  }

  ghost predicate Scheduling(s: State) {
    && (s.pass == NoPass && s.mux.currentHandler == Idle && s.history.booted ==> Accounted(s))
    && (s.pass.Pass? && s.pass.phase.Checking? && s.mux.currentHandler == Idle ==>
          || s.mux.baseState == Killed
          || (s.mux.baseState == Multiplex && (s.sub.idle != {} || s.sub.needRun)))
    && (s.pass.Pass? && s.pass.phase.Closing? && !s.pass.phase.needNewRun ==> Accounted(s))
  }

  /** Before multiplex(initial_run) nothing happens to the task. */
  ghost predicate Boot(s: State) {
    && (!s.history.booted ==>
          && s.pass == NoPass && s.mux.currentHandler == Idle && s.mux.baseState == Reset && s.sub.idle == {}
          && s.history.life <= 1 && !PendingWake(s.threads)
          && (s.history.life == 1 ==> s.sub.needRun && PendingBoot(s.threads)))
    && (s.history.booted || s.history.life > 0 ==> s.history.runCalled)
    && (s.history.booted ==> s.history.life > 0)
  }

  predicate InFirstRun(ts: ThreadState) {
    ts == WantRead || ts == WantReset || IsBoot(ts)
  }

  /** At most one thread is inside the first call of run(). */
  ghost predicate RunnersOk(threads: seq<ThreadState>, h: History) {
    && (forall u, v | 0 <= u < |threads| && 0 <= v < |threads| && InFirstRun(threads[u]) && InFirstRun(threads[v]) ::
          u == v)
    && (forall u | 0 <= u < |threads| && InFirstRun(threads[u]) ::
          h.runCalled && !h.booted && (IsBoot(threads[u]) <==> h.life == 1))
  }

  ghost predicate InsideOk(threads: seq<ThreadState>, holder: Option<Tid>) {
    && (holder.Some? ==> holder.value < |threads| && threads[holder.value] == Inside)
    && (forall u | 0 <= u < |threads| && threads[u] == Inside :: holder == Some(u))
  }

  function JoinLife(ts: ThreadState): Option<nat> {
    match ts
    case WantJoin(life) => Some(life)
    case Entering(_, _, Join(life)) => Some(life)
    case _ => None
  }

  /** A thread that called abort() during this life finds the task doomed until the next reset(). */
  predicate JoinOk(life: nat, current: nat, doomed: bool) {
    life <= current && (life == current && life > 0 ==> doomed)
  }

  predicate EntryOk(ts: ThreadState, current: nat, doomed: bool) {
    && (JoinLife(ts).Some? ==> JoinOk(JoinLife(ts).value, current, doomed))
    && (ts.Entering? ==>
          (ts.event == InsertAbort <==> ts.after.Join?) && (ts.event == NormalRun ==> ts.handler != Idle))
  }

  ghost predicate EntriesOk(threads: seq<ThreadState>, current: nat, doomed: bool) {
    forall u | 0 <= u < |threads| :: EntryOk(threads[u], current, doomed)
  }

  predicate Barrier(s: State) {
    && (s.pass.Pass? && s.pass.phase != Leaked && s.pass.frame.after.Join? ==>
          JoinOk(s.pass.frame.after.life, s.history.life, Doomed(s)))
    && (s.history.barrier ==>
          && s.history.life > 0 && Doomed(s)
          && (s.pass.Pass? && s.pass.phase.Running? ==>
                s.pass.frame.state != Initialize && s.pass.frame.state != Multiplex))
  }

  /** How far the current life has come, as far as the calls tell. */
  predicate CallsOk(s: State) {
    var q := s.history.progress;
    match s.mux.baseState
    case Reset => q == Fresh
    case Initialize => q == if Called(s) && s.pass.frame.state == Initialize then Started else Fresh
    case Multiplex => q == if Called(s) && s.pass.frame.state == Abort then Aborted else Started
    case Abort => q == if Called(s) then Aborted else Started
    case Finish => if Called(s) then q.Finished? else q == Started || q == Aborted
    case Callback => if Called(s) then q == Fresh else q.Finished?
    case Killed => q == Fresh
  }

  /** The base state has left bs_initialize and bs_multiplex, and the callback is still to be called. */
  predicate Ended(s: State) {
    s.mux.baseState == Abort || s.mux.baseState == Finish || (s.mux.baseState == Callback && !Called(s))
  }

  /** What the flags are at the end of a life, and hence what the callback will be told. */
  predicate EndingOk(s: State) {
    var e, q := s.history.ending, s.history.progress;
    && (Ended(s) && !e.rerun ==>
          s.sub.finished == e.finished && s.sub.aborted == if e.again then !e.finished else !e.unasked)
    && (Ended(s) && e.rerun ==> !s.sub.finished && s.sub.aborted == e.again && q.Finished?)
    && (Ended(s) && (q == Finished(false) || (q == Started && s.mux.baseState == Finish)) ==> e.finished && e.unasked)
  }

  predicate KilledOk(s: State) {
    s.mux.baseState == Killed && !s.history.stray && !s.history.stale ==>
      && !s.sub.needRun && (s.pass == NoPass || s.pass.phase.Checking? ==> s.mux.currentHandler == Idle)
      && (s.pass.Pass? ==> s.pass.phase.Checking? || (s.pass.phase.Closing? && !s.pass.phase.needNewRun))
  }

  /** The engine whose mainloop a thread executes; `inside` is what the thread inside multiplex() does after that. */
  function LoopOf(ts: ThreadState, inside: After): Option<EngineId> {
    match ts
    case Entering(_, _, Test(e)) => Some(e)
    case WantTest(e) => Some(e)
    case WantEngine(e, _) => Some(e)
    case InEngine(e, _) => Some(e)
    case Inside => if inside.Test? then Some(inside.engine) else None
    case _ => None
  }

  function InsideAfter(s: State): After {
    if s.pass.Pass? && s.pass.phase != Leaked then s.pass.frame.after else Return
  }

  /** Every thread that executes a mainloop is the looper of its engine, and has an element to process. */
  ghost predicate LoopsOk(threads: seq<ThreadState>, inside: After,
                          loopers: map<EngineId, Tid>, lists: map<EngineId, nat>) {
    && (forall u | 0 <= u < |threads| && LoopOf(threads[u], inside).Some? ::
          var e := LoopOf(threads[u], inside).value;
          e in loopers && loopers[e] == u && e in lists && lists[e] >= 1)
    && (forall e | e in loopers :: loopers[e] < |threads| && LoopOf(threads[loopers[e]], inside) == Some(e))
  }

  predicate Erasing(threads: seq<ThreadState>, loopers: map<EngineId, Tid>, e: EngineId) {
    && e in loopers && loopers[e] < |threads|
    && (threads[loopers[e]] == WantEngine(e, true) || threads[loopers[e]] == InEngine(e, true))
  }

  /** The list of an engine has the task if the task runs in that engine, and once more if mainloop is
      about to erase an element. */
  ghost predicate ListsOk(threads: seq<ThreadState>, loopers: map<EngineId, Tid>,
                          lists: map<EngineId, nat>, current: Handler) {
    && (current.Engine? ==>
          var e := current.engine;
          e in lists && lists[e] >= if Erasing(threads, loopers, e) then 2 else 1)
  }

  /** Some thread changed the value of the predicate to true, and did not signal the task yet. */
  ghost predicate Owed(threads: seq<ThreadState>) {
    exists u :: 0 <= u < |threads| && threads[u] == OwesSignal
  }

  ghost predicate WaitOk(s: State) {
    && s.watched != {} && s.watched <= OR_CONDITIONS
    && s.sub.idle <= OR_CONDITIONS && s.sub.idle !! s.sub.skipWait
    && (&& s.pass.Pass? && s.holds
        && (|| s.pass.phase == Running(WantInstall)
            || s.pass.phase == Running(UntilWait)
            || s.pass.phase == Running(WaitAgain)) ==>
          Owed(s.threads) || !(s.sub.skipWait !! s.watched))
    && (s.mux.waitCondition && s.sub.idle != {} ==> s.sub.idle == s.watched && (s.holds ==> Owed(s.threads)))
  }

  ghost predicate PassInv(s: State) {
    && Locks(s) && FrameOk(s) && Handlers(s) && SubOk(s) && StaleOk(s) && Scheduling(s) && Boot(s)
    && Barrier(s) && CallsOk(s) && EndingOk(s) && KilledOk(s) && WaitOk(s)
  }

  ghost predicate ThreadInv(s: State) {
    && InsideOk(s.threads, Holder(s))
    && RunnersOk(s.threads, s.history)
    && EntriesOk(s.threads, s.history.life, Doomed(s))
    && LoopsOk(s.threads, InsideAfter(s), s.loopers, s.engineLists)
    && ListsOk(s.threads, s.loopers, s.engineLists, s.mux.currentHandler)
  }

  ghost predicate ProtocolInv(s: State) {
    PassInv(s) && ThreadInv(s)
  }

  /** The mutex of an engine is held by a thread in mainloop(), or by a pass that is about to add the task. */
  ghost predicate EngineLocks(s: State) {
    && (forall e | e in s.engineMutexes ::
          || At(s, s.engineMutexes[e], InEngine(e, true)) || At(s, s.engineMutexes[e], InEngine(e, false))
          || (InPass(s, s.engineMutexes[e]) && s.pass.phase.Closing? && AddsTo(s) == Some(e)))
    && (forall t | 0 <= t < |s.threads| && s.threads[t].InEngine? :: HoldsEngine(s, t, s.threads[t].engine))
  }

  ghost predicate Inv(s: State) {
    ProtocolInv(s) && EngineLocks(s)
  }
}
