/** A task as an object whose methods update its fields in place, under its locks.

    The methods are what one thread executes. Between its steps other threads take steps, and user code makes calls;
    both are read from `schedule`, which stands for any interleaving: one turn for each step of the thread, or for each
    time that it finds the mutex taken that it waits for. A call is over when it returns, or when the schedule is. The
    contracts say that the object then is where `Play` says it is. */
module StatefulTasks {
  import opened TaskTypes
  import opened SubStates
  import opened Protocol
  import opened Lifecycle
  import opened Invariants
  import opened Reachability
  import opened Moves
  import opened TaskTheorems
  import opened RunTheorems
  import opened Traces

  /** A step of some thread. */
  datatype Move = Move(thread: Tid, action: Action)

  /** What the other threads do next, and then what the user code does next, if it runs. */
  datatype Turn = Turn(others: seq<Move>, own: UserCall)

  // ---- What a call does, turn by turn ----

  function PlayMove(s: State, t: Tid, m: Move): State {
    if m.thread != t && Can(s, m.thread, m.action) then Step(s, m.thread, m.action) else s
  }

  /** The other threads take their steps, as far as they can. */
  function Others(s: State, t: Tid, moves: seq<Move>): State {
    if moves == [] then s else PlayMove(Others(s, t, moves[..|moves| - 1]), t, moves[|moves| - 1])
  }

  /** The next step of a thread: inside user code the call that this makes, otherwise what the protocol says. */
  function OwnAction(s: State, t: Tid, own: UserCall): Action
    requires IsThread(s, t)
  {
    if InPhase(s, t, Running(InUser)) then User(if Legal(s, own) then own else ReturnFromImpl)
    else NextAction(s, t)
  }

  predicate CanOwn(s: State, t: Tid, own: UserCall) {
    IsThread(s, t) && s.threads[t] != Outside && Can(s, t, OwnAction(s, t, own))
  }

  /** The thread takes its next step, if it can. */
  function PlayOwn(s: State, t: Tid, own: UserCall): State {
    if CanOwn(s, t, own) then Step(s, t, OwnAction(s, t, own)) else s
  }

  /** The state after the turns from `start` to `end`. */
  function Play(s: State, t: Tid, schedule: seq<Turn>, start: nat, end: nat): State
    requires start <= end <= |schedule|
  {
    if start == end then s
    else
      var turn := schedule[end - 1];
      PlayOwn(Others(Play(s, t, schedule, start, end - 1), t, turn.others), t, turn.own)
  }

  // ---- What a thread can rely on ----

  /** What a thread can rely on while other threads take steps. */
  ghost predicate Undisturbed(s: State, s': State, t: Tid) {
    && |s'.threads| == |s.threads|
    && (IsThread(s, t) ==> s'.threads[t] == s.threads[t])
    && (InPass(s, t) ==>
          && s'.pass == s.pass && s'.mux == s.mux
          && s'.stateMutex == s.stateMutex && s'.multiplexMutex == s.multiplexMutex && s'.runMutex == s.runMutex
          && s'.yielding == s.yielding && s'.targetHandler == s.targetHandler
          && (s.history.runCalled ==> s'.history.runCalled && s'.defaultHandler == s.defaultHandler))
    && (forall e :: HoldsEngine(s', t, e) <==> HoldsEngine(s, t, e))
  }

  lemma OtherStep(s: State, u: Tid, a: Action, t: Tid)
    requires Inv(s) && Can(s, u, a) && u != t
    ensures Undisturbed(s, Step(s, u, a), t)
  {
    hide Inv;
    if CanCall(s, u, a) {
      OtherCall(s, u, a, t);
    } else if CanThread(s, u, a) {
      OtherSection(s, u, a, t);
    } else {
      OtherPass(s, u, a, t);
    }
  }

  lemma OtherCall(s: State, u: Tid, a: Action, t: Tid)
    requires CanCall(s, u, a) && u != t
    ensures Undisturbed(s, DoCall(s, u, a), t)
  {
  }

  lemma OtherSection(s: State, u: Tid, a: Action, t: Tid)
    requires Inv(s) && CanThread(s, u, a) && u != t
    ensures Undisturbed(s, ThreadStep(s, u, a), t)
  {
    if a.LeaveEngine? {
      assert HoldsEngine(s, u, s.threads[u].engine);
    }
    hide Inv;
    if !a.LeaveEngine? && !a.TakeEngine? {
      SectionStays(s, u, a, t);
    }
  }

  lemma SectionStays(s: State, u: Tid, a: Action, t: Tid)
    requires CanThread(s, u, a) && u != t && !a.LeaveEngine? && !a.TakeEngine?
    ensures Undisturbed(s, ThreadStep(s, u, a), t)
  {
    if a.Enter? {
      EntryStays(s, u, t);
    }
  }

  lemma EntryStays(s: State, u: Tid, t: Tid)
    requires CanThread(s, u, Enter) && u != t
    ensures Undisturbed(s, EnterStep(s, u), t)
  {
  }

  lemma OtherPass(s: State, u: Tid, a: Action, t: Tid)
    requires CanPass(s, u, a) && u != t
    ensures Undisturbed(s, PassStep(s, u, a), t)
  {
    assert !InPass(s, t);
    PassMoves(s, u, a);
    PassKeepsEngines(s, u, a, t);
    hide PassStep, CanPass;
  }

  lemma PassKeepsEngines(s: State, u: Tid, a: Action, t: Tid)
    requires CanPass(s, u, a) && u != t
    ensures forall e :: HoldsEngine(PassStep(s, u, a), t, e) <==> HoldsEngine(s, t, e)
  {
    if a.Close? {
      CloseMutexes(s, u);
    } else if !a.LockEngine? {
      SameMutexes(s, u, a);
      hide PassStep;
    }
  }

  // ---- The next step ----

  lemma NoOtherStep(s: State, t: Tid, a: Action)
    requires InPass(s, t)
    ensures !CanCall(s, t, a) && !CanThread(s, t, a)
  {
  }

  /** A step of the pass other than a call of user code is the one that comes next. */
  lemma PassOwn(s: State, t: Tid, a: Action, own: UserCall)
    requires CanPass(s, t, a) && !a.User?
    ensures OwnAction(s, t, own) == a
  {
    hide AddsTo;
  }

  lemma UserOwn(s: State, t: Tid, c: UserCall, own: UserCall)
    requires InPhase(s, t, Running(InUser)) && c == if Legal(s, own) then own else ReturnFromImpl
    ensures OwnAction(s, t, own) == User(c) && CanPass(s, t, User(c))
  {
  }

  lemma ThreadOwn(s: State, t: Tid, a: Action, own: UserCall)
    requires CanThread(s, t, a) && !a.PaySignal?
    ensures OwnAction(s, t, own) == a && s.threads[t] != Outside
  {
  }

  /** A thread cannot take its next step as long as the lock that it wants is taken by another one. */
  lemma Blocked(s: State, t: Tid, l: Lock, own: UserCall)
    requires IsThread(s, t) && (s.threads[t] == Inside ==> InPass(s, t))
    requires Wants(s, t) == Some(l) && Owner(s, l).Some?
    ensures !CanOwn(s, t, own)
  {
    hide AddsTo;
  }

  /** A thread goes on to want the same lock. */
  lemma WantsStay(s: State, s': State, t: Tid)
    requires IsThread(s, t) && (s.threads[t] == Inside ==> InPass(s, t) && s.history.runCalled)
    requires Undisturbed(s, s', t) && Wants(s, t).Some?
    ensures Wants(s', t) == Wants(s, t)
  {
  }

  /** The call that a thread makes: what happened before it, with its first step, and the first turn that it takes. */
  datatype Calling = Calling(thread: Tid, before: seq<State>, start: nat)

  class StatefulTask {
    // What mState, mSubState and mMultiplexMutex protect.
    var state: MultiplexState
    var sub: SubState
    var targetHandler: Handler
    var defaultHandler: Handler
    var yielding: bool

    // The owners of the mutexes.
    var stateMutex: Option<Tid>
    var multiplexMutex: Option<Tid>
    var runMutex: Option<Tid>

    // How often the list of each engine has the task, and the owners of the mutexes of engines.
    var engineLists: map<EngineId, nat>
    var engineMutexes: map<EngineId, Tid>

    // The system that the task is part of, what happens to it, and how many turns were taken.
    var now: State
    const schedule: seq<Turn>
    var clock: nat

    // What happened so far, the call that is being made, and the user code's choice in the turn that was begun.
    ghost var run: seq<State>
    ghost var call: Calling
    ghost var begun: Option<UserCall>

    predicate Agrees(s: State)
      reads this
    {
      && s.mux == state && s.sub == sub
      && s.targetHandler == targetHandler && s.defaultHandler == defaultHandler && s.yielding == yielding
      && s.stateMutex == stateMutex && s.multiplexMutex == multiplexMutex && s.runMutex == runMutex
      && s.engineLists == engineLists && s.engineMutexes == engineMutexes
    }

    /** The run is one of the step system, and the call has done what it does in the turns that were taken. */
    ghost predicate Plays()
      reads this`now, this`run, this`clock, this`call, this`begun
    {
      && |run| > 0 && IsRun(run) && run[|run| - 1] == now
      && |call.before| > 0 && call.before <= run && call.start <= clock <= |schedule|
      && var s := call.before[|call.before| - 1];
         match begun
         case None => now == Play(s, call.thread, schedule, call.start, clock)
         case Some(own) =>
           && call.start < clock && own == schedule[clock - 1].own
           && var s := Play(s, call.thread, schedule, call.start, clock - 1);
              now == Others(s, call.thread, schedule[clock - 1].others)
    }

    /** And the fields are as they should be. */
    ghost predicate Valid()
      reads this
    {
      Plays() && Agrees(now)
    }

    /** Between two turns of thread t. */
    ghost predicate Ready(t: Tid)
      reads this
    {
      Valid() && begun == None && call.thread == t
    }

    /** In a turn of thread t, which is about to take its next step. */
    ghost predicate Stepping(t: Tid)
      reads this
    {
      Valid() && begun.Some? && call.thread == t
    }

    constructor (threads: nat, watched: Mask, schedule: seq<Turn>)
      requires watched != {} && watched <= OR_CONDITIONS
      ensures Ready(0) && Init(now) && this.schedule == schedule && clock == 0
      ensures |now.threads| == threads && now.watched == watched
    {
      this.state := MultiplexState(Reset, Idle, false);
      this.sub := INITIAL_SUB_STATE;
      this.targetHandler, this.defaultHandler, this.yielding := Idle, Idle, false;
      this.stateMutex, this.multiplexMutex, this.runMutex := None, None, None;
      this.engineLists, this.engineMutexes := map[], map[];
      var first := State(MultiplexState(Reset, Idle, false), INITIAL_SUB_STATE, Idle, Idle, false, None, None, None,
                         NoPass, seq(threads, i => Outside), map[], map[], map[], watched, false,
                         History([], Fresh, 0, false, false, false, false, false, Ending(false, false, false, false)));
      this.now := first;
      this.schedule, this.clock := schedule, 0;
      this.run := [first];
      this.call := Calling(0, [first], 0);
      this.begun := None;
    }

    /** The thread took its next step, and the fields are as they should be after it. */
    method Commit(t: Tid)
      requires Plays() && begun.Some? && call.thread == t && CanOwn(now, t, begun.value)
      requires Agrees(PlayOwn(now, t, begun.value))
      modifies this`now, this`run, this`begun
      ensures Ready(t) && now == PlayOwn(old(now), t, old(begun).value) && run == old(run) + [now]
    {
      hide CanOwn, Can, Step, IsRun;
      CanNext(now, t, begun.value);
      ExtendRun(run, t, OwnAction(now, t, begun.value));
      now := PlayOwn(now, t, schedule[clock - 1].own);
      run := run + [now];
      begun := None;
    }

    /** The thread cannot take its next step. */
    method Skip(t: Tid)
      requires Stepping(t) && !CanOwn(now, t, begun.value)
      modifies this`begun
      ensures Ready(t)
    {
      hide CanOwn, Can, Step, IsRun;
      begun := None;
    }

    /** A turn: other threads take steps. */
    method Interfere(t: Tid) returns (own: UserCall)
      requires Ready(t) && clock < |schedule|
      modifies this
      ensures Stepping(t) && begun == Some(own) && Undisturbed(old(now), now, t)
      ensures call == old(call) && old(run) <= run && clock == old(clock) + 1
    {
      hide CanOwn, Can, Step, IsRun, PlayMove, PlayOwn;
      var others := schedule[clock].others;
      own := schedule[clock].own;
      var s := now;
      for i := 0 to |others|
        invariant |run| > 0 && IsRun(run) && run[|run| - 1] == now && Agrees(now) && old(run) <= run
        invariant now == Others(s, t, others[..i]) && Undisturbed(s, now, t)
        invariant call == old(call) && clock == old(clock) && begun == None
      {
        assert others[..i + 1][..i] == others[..i];
        OtherMove(t, others[i]);
      }
      assert others[..|others|] == others;
      clock := clock + 1;
      begun := Some(own);
    }

    method OtherMove(t: Tid, m: Move)
      requires |run| > 0 && IsRun(run) && run[|run| - 1] == now && Agrees(now)
      modifies this
      ensures |run| > 0 && IsRun(run) && run[|run| - 1] == now && Agrees(now) && old(run) <= run
      ensures now == PlayMove(old(now), t, m) && Undisturbed(old(now), now, t)
      ensures call == old(call) && clock == old(clock) && begun == old(begun)
    {
      hide Can, Step, IsRun, Undisturbed, Inv;
      if m.thread != t && Can(now, m.thread, m.action) {
        RunInv(run, |run| - 1);
        OtherStep(now, m.thread, m.action, t);
        ExtendRun(run, m.thread, m.action);
        var next := Step(now, m.thread, m.action);
        Adopt(next);
        now := next;
        run := run + [next];
      } else {
        StaysUndisturbed(now, t);
      }
    }

    method Adopt(next: State)
      modifies this`state, this`sub, this`targetHandler, this`defaultHandler, this`yielding
      modifies this`stateMutex, this`multiplexMutex, this`runMutex, this`engineLists, this`engineMutexes
      ensures Agrees(next)
    {
      state, sub := next.mux, next.sub;
      targetHandler, defaultHandler, yielding := next.targetHandler, next.defaultHandler, next.yielding;
      stateMutex, multiplexMutex, runMutex := next.stateMutex, next.multiplexMutex, next.runMutex;
      engineLists, engineMutexes := next.engineLists, next.engineMutexes;
    }

    /** A turn, if there is one. */
    method NextTurn(t: Tid) returns (inTime: bool, own: UserCall)
      requires Ready(t)
      modifies this
      ensures call == old(call) && old(run) <= run && old(clock) <= clock && Undisturbed(old(now), now, t)
      ensures if inTime then Stepping(t) && begun == Some(own) && clock == old(clock) + 1
              else Ready(t) && clock == |schedule|
    {
      hide CanOwn, Can, Step, IsRun, Plays;
      inTime, own := false, ReturnFromImpl;
      assert clock <= |schedule| && Undisturbed(now, now, t) by {
        StaysUndisturbed(now, t);
        ClockInSchedule();
      }
      if clock < |schedule| {
        own := Interfere(t);
        inTime := true;
      }
    }

    lemma ClockInSchedule()
      requires Plays()
      ensures clock <= |schedule|
    {
    }

    // ---- Steps of this thread ----

    /** This thread is at a given point of multiplex(), with the given locals. */
    predicate In(t: Tid, p: Phase, f: Frame)
      reads this`now
    {
      InPass(now, t) && now.pass == Pass(p, f)
    }

    /** The fields are as they should be after the pass did a. */
    method CommitPass(t: Tid, ghost a: Action)
      requires Plays() && begun.Some? && call.thread == t
      requires CanPass(now, t, a) && !a.User? && Agrees(PassStep(now, t, a))
      modifies this`now, this`run, this`begun
      ensures Ready(t) && now == PassStep(old(now), t, a) && old(run) <= run
    {
      hide IsRun, Plays, CanPass, PassStep, CanOwn, PlayOwn;
      PlayPass(now, t, a, begun.value);
      Commit(t);
    }

    method CommitUser(t: Tid, ghost f: Frame, ghost c: UserCall)
      requires Plays() && begun.Some? && call.thread == t
      requires In(t, Running(InUser), f) && IsChosen(c) && Agrees(UserStep(now, c))
      modifies this`now, this`run, this`begun
      ensures Ready(t) && now == UserStep(old(now), c) && old(run) <= run
    {
      hide IsRun, Plays, UserStep, Legal, CanOwn, PlayOwn;
      PlayUser(now, t, c, begun.value);
      Commit(t);
    }

    /** The call that user code makes in this turn. */
    ghost predicate IsChosen(c: UserCall)
      requires now.pass.Pass?
      reads this`now, this`begun
    {
      begun.Some? && c == if Legal(now, begun.value) then begun.value else ReturnFromImpl
    }

    method CommitThread(t: Tid, ghost a: Action)
      requires Plays() && begun.Some? && call.thread == t
      requires CanThread(now, t, a) && !a.PaySignal? && Agrees(ThreadStep(now, t, a))
      modifies this`now, this`run, this`begun
      ensures Ready(t) && now == ThreadStep(old(now), t, a) && run == old(run) + [now]
    {
      hide IsRun, Plays, CanThread, ThreadStep, CanOwn, PlayOwn;
      PlayThread(now, t, a, begun.value);
      Commit(t);
    }

    /** The first step of a call, which needs no turn. */
    method CommitCall(t: Tid, a: Action)
      requires Plays() && begun == None && CanCall(now, t, a) && Agrees(DoCall(now, t, a))
      modifies this`now, this`run, this`call
      ensures Ready(t) && now == DoCall(old(now), t, a) && run == old(run) + [now] && call == Calling(t, run, clock)
    {
      hide IsRun, Others, CanCall, DoCall;
      assert Can(now, t, a) && Step(now, t, a) == DoCall(now, t, a);
      hide Can, Step;
      ExtendRun(run, t, a);
      now := DoCall(now, t, a);
      run := run + [now];
      call := Calling(t, run, clock);
    }

    // ---- Mutexes that block ----

    /** Takes turns until mState is free. */
    method AwaitState(t: Tid) returns (free: bool)
      requires Ready(t) && IsThread(now, t) && (now.threads[t] == Inside ==> InPass(now, t))
      requires Wants(now, t) == Some(StateLock)
      modifies this
      ensures call == old(call) && old(run) <= run && old(clock) <= clock && Undisturbed(old(now), now, t)
      ensures if free then Stepping(t) && stateMutex == None && old(clock) < clock else Ready(t) && clock == |schedule|
    {
      hide IsRun, Play, Others, CanOwn, PlayOwn, Wants, Plays, Undisturbed;
      free := false;
      Booted(t);
      StaysUndisturbed(now, t);
      ClockInSchedule();
      ghost var s := now;
      while !free && clock < |schedule|
        invariant call == old(call) && old(run) <= run && old(clock) <= clock <= |schedule| && Undisturbed(s, now, t)
        invariant if free then Stepping(t) && stateMutex == None && old(clock) < clock else Ready(t)
        decreases |schedule| - clock, !free
      {
        ghost var s1 := now;
        var own := Interfere(t);
        ClockInSchedule();
        UndisturbedTwice(s, s1, now, t);
        if stateMutex.None? {
          free := true;
        } else {
          WantsStay(s, now, t);
          StillInside(s, now, t);
          Blocked(now, t, StateLock, own);
          Skip(t);
        }
      }
    }

    method AwaitRun(t: Tid) returns (free: bool)
      requires Ready(t) && IsThread(now, t) && (now.threads[t] == Inside ==> InPass(now, t))
      requires Wants(now, t) == Some(RunLock)
      modifies this
      ensures call == old(call) && old(run) <= run && old(clock) <= clock && Undisturbed(old(now), now, t)
      ensures if free then Stepping(t) && runMutex == None && old(clock) < clock else Ready(t) && clock == |schedule|
    {
      hide IsRun, Play, Others, CanOwn, PlayOwn, Wants, Plays, Undisturbed;
      free := false;
      Booted(t);
      StaysUndisturbed(now, t);
      ClockInSchedule();
      ghost var s := now;
      while !free && clock < |schedule|
        invariant call == old(call) && old(run) <= run && old(clock) <= clock <= |schedule| && Undisturbed(s, now, t)
        invariant if free then Stepping(t) && runMutex == None && old(clock) < clock else Ready(t)
        decreases |schedule| - clock, !free
      {
        ghost var s1 := now;
        var own := Interfere(t);
        ClockInSchedule();
        UndisturbedTwice(s, s1, now, t);
        if runMutex.None? {
          free := true;
        } else {
          WantsStay(s, now, t);
          StillInside(s, now, t);
          Blocked(now, t, RunLock, own);
          Skip(t);
        }
      }
    }

    method AwaitEngine(t: Tid, e: EngineId) returns (free: bool)
      requires Ready(t) && IsThread(now, t) && (now.threads[t] == Inside ==> InPass(now, t))
      requires Wants(now, t) == Some(EngineLock(e))
      modifies this
      ensures call == old(call) && old(run) <= run && old(clock) <= clock && Undisturbed(old(now), now, t)
      ensures IsThread(now, t) && Wants(now, t) == Some(EngineLock(e))
      ensures if free then Stepping(t) && e !in engineMutexes && old(clock) < clock else Ready(t) && clock == |schedule|
    {
      hide IsRun, Play, Others, CanOwn, PlayOwn, Wants, Plays, Undisturbed;
      free := false;
      Booted(t);
      StaysUndisturbed(now, t);
      ClockInSchedule();
      ghost var s := now;
      while !free && clock < |schedule|
        invariant call == old(call) && old(run) <= run && old(clock) <= clock <= |schedule| && Undisturbed(s, now, t)
        invariant if free then Stepping(t) && e !in engineMutexes && old(clock) < clock else Ready(t)
        invariant IsThread(now, t) && Wants(now, t) == Some(EngineLock(e))
        decreases |schedule| - clock, !free
      {
        ghost var s1 := now;
        var own := Interfere(t);
        ClockInSchedule();
        UndisturbedTwice(s, s1, now, t);
        WantsStay(s, now, t);
        if e !in engineMutexes {
          free := true;
        } else {
          StillInside(s, now, t);
          Blocked(now, t, EngineLock(e), own);
          Skip(t);
        }
      }
    }

    /** A task that is run was started. */
    lemma Booted(t: Tid)
      requires Valid()
      ensures InPass(now, t) ==> now.history.runCalled
    {
      RunInv(run, |run| - 1);
    }

    // ---- The critical sections of mSubState ----

    method WaitSection(conditions: Mask)
      modifies this`sub
      ensures sub == SubStates.Wait(old(sub), conditions)
    {
      sub := sub.(idle := sub.idle + (conditions - sub.skipWait));
      sub := sub.(skipWait := sub.skipWait - conditions);
      var mask := if (conditions - sub.idle) * OR_CONDITIONS != {} then OR_CONDITIONS else {};
      sub := sub.(idle := sub.idle - mask);
      if sub.needRun && sub.idle != {} {
        if sub.aborted {
          sub := sub.(idle := {});
        } else {
          sub := sub.(needRun := false);
        }
      }
    }

    method WaitAndSection(conditions: Mask)
      modifies this`sub
      ensures sub == WaitAnd(old(sub), conditions)
    {
      sub := sub.(idle := sub.idle + (conditions - sub.skipWait));
      sub := sub.(skipWait := sub.skipWait - conditions);
    }

    /** Returns whether the signal woke up the task. */
    method SignalSection(condition: Mask) returns (woken: bool)
      modifies this`sub
      ensures sub == SubStates.Signal(old(sub), condition) && woken == Wakes(old(sub), condition)
    {
      var prevIdle := sub.idle;
      sub := sub.(skipWait := sub.skipWait + (condition - prevIdle));
      var mask := if (condition - sub.skipWait) * OR_CONDITIONS != {} then OR_CONDITIONS else {};
      sub := sub.(idle := sub.idle - (condition + mask));
      if prevIdle == {} || sub.idle != {} {
        return false;
      }
      sub := sub.(needRun := true);
      return true;
    }

    method AbortSection() returns (isWaiting: bool)
      modifies this`sub
      ensures sub == AbortSub(old(sub))
      ensures isWaiting == (state.baseState.Multiplex? && old(sub).idle != {})
    {
      sub := sub.(aborted := !sub.finished);
      isWaiting := state.baseState.Multiplex? && sub.idle != {};
      if sub.idle != {} {
        sub := sub.(idle := {});
      }
      sub := sub.(needRun := true);
    }

    method FinishSection()
      modifies this`sub
      ensures sub == FinishSub(old(sub))
    {
      sub := sub.(idle := {});
      sub := sub.(finished := true);
    }

    method ResetSection()
      modifies this`sub
      ensures sub == ResetSub(old(sub))
    {
      sub := sub.(aborted := false, finished := false);
      sub := sub.(reset := true);
      sub := sub.(idle := {}, skipWait := {});
      sub := sub.(needRun := true);
    }

    method BeginLoopSection() returns (runState: nat)
      modifies this`sub
      ensures sub == BeginLoop(old(sub)) && runState == old(sub).runState
    {
      sub := sub.(needRun := false);
      runState := sub.runState;
    }

    // ---- Calls of user code ----

    /** wait() */
    method Wait(t: Tid, f: Frame, conditions: Mask)
      requires Stepping(t) && In(t, Running(InUser), f)
      requires IsChosen(CallWait(conditions)) && Legal(now, CallWait(conditions))
      modifies this
      ensures Ready(t) && call == old(call) && old(run) <= run && clock == old(clock)
      ensures In(t, Running(Returning), f)
      ensures now == UserStep(old(now), CallWait(conditions)) && sub == SubStates.Wait(old(sub), conditions)
    {
      hide IsRun, Plays, SubStates.Wait;
      WaitSection(conditions);
      CommitUser(t, f, CallWait(conditions));
    }

    /** finish() */
    method Finish(t: Tid, f: Frame)
      requires Stepping(t) && In(t, Running(InUser), f) && IsChosen(CallFinish)
      modifies this
      ensures Ready(t) && call == old(call) && old(run) <= run && clock == old(clock)
      ensures In(t, Running(Returning), f)
      ensures now == UserStep(old(now), CallFinish) && sub == FinishSub(old(sub))
    {
      hide IsRun, Plays;
      FinishSection();
      CommitUser(t, f, CallFinish);
    }

    /** The calls that change a field or two, and return to the user code. */
    method SetFields(t: Tid, f: Frame, c: UserCall)
      requires Stepping(t) && In(t, Running(InUser), f) && IsChosen(c)
      requires c.SetState? || c.Yield? || c.YieldTo? || c.Target? || c.SelfSignal? || c.Kill?
      modifies this
      ensures Ready(t) && call == old(call) && old(run) <= run && clock == old(clock)
      ensures In(t, Running(InUser), f) && now == UserStep(old(now), c)
      ensures Heeds(old(now), User(c), now)
    {
      hide IsRun, Plays, Legal, SubStates.Signal, SubStates.Wakes, Heeds;
      UserHeeds(now, c);
      match c {
        case SetState(n) => sub := sub.(runState := n);
        case Yield => yielding := true;
        case YieldTo(h) => targetHandler := h; yielding := true;
        case Target(h) => targetHandler := h;
        case SelfSignal(condition) => var woken := SignalSection(condition);
        case Kill => sub := sub.(reset := false);
      }
      CommitUser(t, f, c);
    }

    /** wait_until() tests its condition. */
    method WantInstallation(t: Tid, f: Frame) returns (inside: bool)
      requires Stepping(t) && In(t, Running(InUser), f) && IsChosen(CallWaitUntil)
      modifies this
      ensures Ready(t) && call == old(call) && old(run) <= run && clock == old(clock)
      ensures In(t, Running(if inside then InUser else WantInstall), f) && inside == old(now).holds
    {
      hide IsRun, Plays, Legal;
      inside := now.holds;
      CommitUser(t, f, CallWaitUntil);
    }

    method InstallCondition(t: Tid, f: Frame)
      requires Stepping(t) && In(t, Running(WantInstall), f) && stateMutex == None
      modifies this
      ensures Ready(t) && call == old(call) && old(run) <= run && clock == old(clock)
      ensures In(t, Running(Protocol.UntilWait), f) && state == old(state).(waitCondition := true)
    {
      hide IsRun, CanCall, CanThread, Plays;
      state := state.(waitCondition := true);
      CommitPass(t, Install);
    }

    method UntilWait(t: Tid, f: Frame)
      requires Stepping(t) && In(t, Running(Protocol.UntilWait), f)
      modifies this
      ensures Ready(t) && call == old(call) && old(run) <= run && clock == old(clock)
      ensures In(t, Running(Returning), f) && sub == SubStates.Wait(old(sub), now.watched)
    {
      hide IsRun, CanCall, CanThread, Plays, SubStates.Wait;
      WaitSection(now.watched);
      CommitPass(t, UntilWaitSection);
    }

    /** wait_until(), when its condition is false. */
    method WaitUntil(t: Tid, f: Frame) returns (inTime: bool)
      requires Ready(t) && In(t, Running(WantInstall), f)
      modifies this
      ensures Ready(t) && call == old(call) && old(run) <= run && old(clock) <= clock
      ensures inTime ==> In(t, Running(Returning), f)
      ensures !inTime ==> clock == |schedule|
    {
      hide IsRun, Plays, SubStates.Wait;
      inTime := AwaitState(t);
      if inTime {
        InstallCondition(t, f);
        var own;
        inTime, own := NextTurn(t);
        if inTime {
          UntilWait(t, f);
        }
      }
    }

    method WantAbortSelf(t: Tid, f: Frame)
      requires Stepping(t) && In(t, Running(InUser), f) && IsChosen(SelfAbort)
      modifies this
      ensures Ready(t) && call == old(call) && old(run) <= run && clock == old(clock)
      ensures In(t, Running(WantSelfAbort), f)
    {
      hide IsRun, Plays;
      CommitUser(t, f, SelfAbort);
    }

    method AbortInside(t: Tid, f: Frame)
      requires Stepping(t) && In(t, Running(WantSelfAbort), f) && stateMutex == None
      modifies this
      ensures Ready(t) && call == old(call) && old(run) <= run && clock == old(clock)
      ensures In(t, Running(InUser), f) && sub == AbortSub(old(sub)) && state == old(state)
    {
      hide IsRun, CanCall, CanThread, Plays;
      var isWaiting := AbortSection();
      CommitPass(t, Protocol.AbortSelf);
    }

    /** abort(), called by the task itself. */
    method AbortSelf(t: Tid, f: Frame) returns (inTime: bool)
      requires Ready(t) && In(t, Running(WantSelfAbort), f)
      modifies this
      ensures Ready(t) && call == old(call) && old(run) <= run && old(clock) <= clock
      ensures inTime ==> In(t, Running(InUser), f)
      ensures !inTime ==> clock == |schedule|
    {
      hide IsRun, Plays, AbortSub;
      inTime := AwaitState(t);
      if inTime {
        AbortInside(t, f);
      }
    }

    method SetDefault(t: Tid, f: Frame, newDefault: Option<Handler>)
      requires Stepping(t) && In(t, Running(InUser), f) && IsChosen(Rerun(newDefault))
      modifies this
      ensures Ready(t) && call == old(call) && old(run) <= run && clock == old(clock)
      ensures In(t, Running(WantReadState), f)
      ensures defaultHandler == if newDefault.Some? then newDefault.value else old(defaultHandler)
    {
      hide IsRun, Plays, Legal;
      if newDefault.Some? {
        defaultHandler := newDefault.value;
      }
      CommitUser(t, f, Rerun(newDefault));
    }

    method ReadBaseInside(t: Tid, f: Frame)
      requires Stepping(t) && In(t, Running(WantReadState), f) && stateMutex == None
      modifies this
      ensures Ready(t) && call == old(call) && old(run) <= run && clock == old(clock)
      ensures In(t, Running(Resetting), f)
    {
      hide IsRun, CanCall, CanThread, Plays;
      CommitPass(t, ReadStateInside);
    }

    method ResetInside(t: Tid, f: Frame)
      requires Stepping(t) && In(t, Running(Resetting), f)
      modifies this
      ensures Ready(t) && call == old(call) && old(run) <= run && clock == old(clock)
      ensures In(t, Running(InUser), f) && sub == ResetSub(old(sub))
    {
      hide IsRun, CanCall, CanThread, Plays;
      ResetSection();
      CommitPass(t, Protocol.ResetInside);
    }

    /** run(), called from finish_impl or the callback. */
    method RunAgain(t: Tid, f: Frame) returns (inTime: bool)
      requires Ready(t) && In(t, Running(WantReadState), f)
      modifies this
      ensures Ready(t) && call == old(call) && old(run) <= run && old(clock) <= clock
      ensures inTime ==> In(t, Running(InUser), f)
      ensures !inTime ==> clock == |schedule|
    {
      hide IsRun, Plays, ResetSub;
      inTime := AwaitState(t);
      if inTime {
        ReadBaseInside(t, f);
        var own;
        inTime, own := NextTurn(t);
        if inTime {
          ResetInside(t, f);
        }
      }
    }

    method ReturnFrom(t: Tid, f: Frame)
      requires Stepping(t) && In(t, Running(InUser), f) && IsChosen(ReturnFromImpl)
      modifies this
      ensures Ready(t) && call == old(call) && old(run) <= run && clock == old(clock)
      ensures In(t, Running(Returning), f)
    {
      hide IsRun, Plays;
      CommitUser(t, f, ReturnFromImpl);
    }

    /** One call that the user code makes. */
    method UserCode(t: Tid, f: Frame, c: UserCall) returns (inTime: bool, inside: bool)
      requires Stepping(t) && In(t, Running(InUser), f) && IsChosen(c) && Legal(now, c)
      modifies this
      ensures Ready(t) && call == old(call) && old(run) <= run && old(clock) <= clock
      ensures inTime ==> In(t, Running(if inside then InUser else Returning), f)
      ensures !inTime ==> clock == |schedule|
    {
      hide IsRun, UserStep, Plays, IsChosen;
      inTime, inside := true, true;
      match c
      case CallWait(conditions) => Wait(t, f, conditions); inside := false;
      case CallWaitUntil =>
        inside := WantInstallation(t, f);
        if !inside {
          inTime := WaitUntil(t, f);
        }
      case CallFinish => Finish(t, f); inside := false;
      case SelfAbort => WantAbortSelf(t, f); inTime := AbortSelf(t, f);
      case Rerun(d) => SetDefault(t, f, d); inTime := RunAgain(t, f);
      case ReturnFromImpl => ReturnFrom(t, f); inside := false;
      case _ => SetFields(t, f, c);
    }

    /** One of the *_impl functions or the callback: any legal calls, until it returns. */
    method CallImpl(t: Tid, f: Frame, call': Call) returns (inTime: bool)
      requires Ready(t) && In(t, Running(InUser), f)
      requires now.history.calls != [] && now.history.calls[|now.history.calls| - 1] == call'
      modifies this
      ensures Ready(t) && call == old(call) && old(run) <= run && old(clock) <= clock
      ensures inTime ==> In(t, Running(Returning), f)
      ensures !inTime ==> clock == |schedule|
    {
      hide IsRun, UserStep, Legal, Plays;
      inTime := true;
      var inside := true;
      while inside && inTime
        invariant Ready(t) && call == old(call) && old(run) <= run && old(clock) <= clock
        invariant inTime ==> In(t, Running(if inside then InUser else Returning), f)
        invariant !inTime ==> clock == |schedule|
        decreases |schedule| - clock, inTime
      {
        ghost var turn := clock;
        ClockInSchedule();
        var c;
        inTime, c := NextTurn(t);
        if inTime {
          ReturnIsLegal(now);
          inTime, inside := UserCode(t, f, if Legal(now, c) then c else ReturnFromImpl);
          ClockInSchedule();
        }
      }
    }

    // ---- multiplex() ----

    /** The test for a late abort; returns the state to run. */
    method TestAbort(t: Tid, f: Frame) returns (state': BaseState)
      requires Stepping(t) && In(t, TestingAbort, f) && f.state != Killed
      modifies this
      ensures Ready(t) && call == old(call) && old(run) <= run && clock == old(clock)
      ensures state' != Killed && In(t, Running(StartOf(state', f.waiting)), f.(state := state'))
      ensures StartOf(state', f.waiting) == InUser ==>
        now.history.calls != [] && now.history.calls[|now.history.calls| - 1] == ImplOf(state', f.runState)
    {
      hide IsRun, CanCall, CanThread, Plays;
      var lateAbort := (f.state.Multiplex? || f.state.Initialize?) && sub.aborted;
      state' := f.state;
      if lateAbort {
        state' := if state'.Initialize? then Reset else BaseState.Abort;
      }
      CommitPass(t, Protocol.TestAbort);
    }

    /** The return from bs_killed, which leaves mMultiplexMutex locked. */
    method LeaveKilled(t: Tid, f: Frame)
      requires Stepping(t) && In(t, TestingAbort, f) && f.state == Killed
      modifies this
      ensures Ready(t) && call == old(call) && old(run) <= run && clock == old(clock)
      ensures At(now, t, AfterState(f.after)) && multiplexMutex == old(multiplexMutex) && runMutex == None
    {
      hide IsRun, CanCall, CanThread, Plays;
      runMutex := None;
      KilledLeaks(now, t);
      CommitPass(t, Protocol.TestAbort);
    }

    /** The section before finish_impl, and the read of the flag for the callback. Returns the call to make. */
    method Prepare(t: Tid, f: Frame) returns (call': Call)
      requires Stepping(t) && In(t, Running(Preparing), f) && (f.state.Finish? || f.state.Callback?)
      modifies this
      ensures Ready(t) && call == old(call) && old(run) <= run && clock == old(clock)
      ensures In(t, Running(InUser), f) && now.history.calls == old(now).history.calls + [call']
      ensures call' == if f.state.Finish? then FinishImpl else CallbackCall(!old(sub).aborted)
    {
      hide IsRun, CanCall, CanThread, Plays;
      if f.state.Finish? {
        sub := sub.(reset := false);
        call' := FinishImpl;
      } else {
        var aborted := sub.aborted;
        call' := CallbackCall(!aborted);
      }
      CommitPass(t, Protocol.Prepare);
    }

    /** A pass that tests the wait condition. */
    method Evaluate(t: Tid, f: Frame) returns (inTime: bool)
      requires Ready(t) && In(t, Running(WantEvaluate), f)
      modifies this
      ensures Ready(t) && call == old(call) && old(run) <= run && old(clock) <= clock
      ensures inTime ==> In(t, Running(Returning), f)
      ensures !inTime ==> clock == |schedule|
    {
      hide IsRun, Plays, SubStates.Wait;
      inTime := AwaitState(t);
      if inTime {
        var holds := EvaluateCondition(t, f);
        var own;
        inTime, own := NextTurn(t);
        if inTime {
          FinishEvaluation(t, f, holds);
        }
      }
    }

    method EvaluateCondition(t: Tid, f: Frame) returns (holds: bool)
      requires Stepping(t) && In(t, Running(WantEvaluate), f) && stateMutex == None
      modifies this
      ensures Ready(t) && call == old(call) && old(run) <= run && clock == old(clock)
      ensures In(t, Running(if holds then Waking else WaitAgain), f) && holds == old(now).holds
      ensures state.waitCondition == (old(state).waitCondition && !holds)
    {
      hide IsRun, CanCall, CanThread, Plays;
      stateMutex := Some(t);
      holds := now.holds;
      if holds {
        state := state.(waitCondition := false);
      }
      CommitPass(t, Protocol.Evaluate);
    }

    method FinishEvaluation(t: Tid, f: Frame, holds: bool)
      requires Stepping(t) && In(t, Running(if holds then Waking else WaitAgain), f)
      modifies this
      ensures Ready(t) && call == old(call) && old(run) <= run && clock == old(clock) && In(t, Running(Returning), f)
      ensures sub == if holds then old(sub).(idle := {}) else SubStates.Wait(old(sub), now.watched)
    {
      hide IsRun, CanCall, CanThread, Plays, SubStates.Wait;
      if holds {
        WakeTask(t, f);
      } else {
        WaitMore(t, f);
      }
    }

    method WakeTask(t: Tid, f: Frame)
      requires Stepping(t) && In(t, Running(Waking), f)
      modifies this
      ensures Ready(t) && call == old(call) && old(run) <= run && clock == old(clock)
      ensures In(t, Running(Returning), f) && sub == old(sub).(idle := {}) && now.watched == old(now).watched
    {
      hide IsRun, CanCall, CanThread, Plays;
      sub := sub.(idle := {});
      stateMutex := None;
      CommitPass(t, WakeUp);
    }

    method WaitMore(t: Tid, f: Frame)
      requires Stepping(t) && In(t, Running(WaitAgain), f)
      modifies this
      ensures Ready(t) && call == old(call) && old(run) <= run && clock == old(clock)
      ensures In(t, Running(Returning), f) && sub == SubStates.Wait(old(sub), now.watched)
    {
      hide IsRun, CanCall, CanThread, Plays, SubStates.Wait;
      WaitSection(now.watched);
      stateMutex := None;
      CommitPass(t, WaitAgainSection);
    }

    /** The switch under mRunMutex, for a state other than bs_killed. */
    method RunState(t: Tid, f: Frame) returns (inTime: bool)
      requires Ready(t) && !f.state.Killed? && In(t, Running(StartOf(f.state, f.waiting)), f)
      requires StartOf(f.state, f.waiting) == InUser ==>
        now.history.calls != [] && now.history.calls[|now.history.calls| - 1] == ImplOf(f.state, f.runState)
      modifies this
      ensures Ready(t) && call == old(call) && old(run) <= run && old(clock) <= clock
      ensures inTime ==> In(t, Running(Returning), f)
      ensures !inTime ==> clock == |schedule|
    {
      hide IsRun, Plays;
      match f.state
      case Reset => inTime := true;
      case Initialize => inTime := CallImpl(t, f, InitializeImpl);
      case Multiplex =>
        if !f.waiting {
          inTime := CallImpl(t, f, MultiplexImpl(f.runState));
        } else {
          inTime := Evaluate(t, f);
        }
      case Abort => inTime := CallImpl(t, f, AbortImpl);
      case Finish | Callback =>
        var own;
        inTime, own := NextTurn(t);
        if inTime {
          var call' := Prepare(t, f);
          inTime := CallImpl(t, f, call');
        }
    }

    /** Takes mState for the critical section that ends a round. */
    method LockState(t: Tid, f: Frame) returns (inTime: bool)
      requires Ready(t) && In(t, WantState, f)
      modifies this
      ensures Ready(t) && call == old(call) && old(run) <= run && old(clock) <= clock
      ensures inTime ==> In(t, Deciding, f) && old(clock) < clock
      ensures !inTime ==> clock == |schedule|
    {
      hide IsRun, Plays;
      inTime := AwaitState(t);
      if inTime {
        TakeState(t, f);
      }
    }

    method TakeState(t: Tid, f: Frame)
      requires Stepping(t) && In(t, WantState, f) && stateMutex == None
      modifies this
      ensures Ready(t) && call == old(call) && old(run) <= run && clock == old(clock)
      ensures In(t, Deciding, f) && stateMutex == Some(t)
    {
      hide IsRun, CanCall, CanThread, Plays;
      stateMutex := Some(t);
      CommitPass(t, Protocol.LockState);
    }

    /** Switches the base state as a function of the sub-state. */
    method Decide(t: Tid, f: Frame) returns (needNewRun: bool, destruct: bool)
      requires Stepping(t) && In(t, Deciding, f)
      modifies this
      ensures Ready(t) && call == old(call) && old(run) <= run && clock == old(clock)
      ensures In(t, Closing(needNewRun, destruct), f)
      ensures (state.baseState, needNewRun, destruct) == Decision(old(now)) && sub == old(sub)
      ensures HoldsNone(now, t)
    {
      hide IsRun, CanCall, CanThread, Plays;
      needNewRun, destruct := true, false;
      var base := state.baseState;
      if f.event.NormalRun? {
        match f.state {
          case Reset =>
            if sub.aborted {
              base := Killed;
              needNewRun := false;
            } else {
              base := Initialize;
            }
          case Initialize =>
            if sub.aborted {
              base := BaseState.Abort;
            } else {
              base := BaseState.Multiplex;
              needNewRun := sub.needRun || sub.idle == {};
            }
          case Multiplex =>
            if sub.aborted {
              base := BaseState.Abort;
            } else if sub.finished {
              base := BaseState.Finish;
            } else {
              needNewRun := sub.needRun || sub.idle == {};
            }
          case Abort => base := BaseState.Finish;
          case Finish => base := Callback;
          case Callback =>
            if sub.reset {
              base := Reset;
            } else {
              base := Killed;
              destruct := true;
              needNewRun := false;
            }
          case Killed =>
        }
      } else if f.event.InsertAbort? && base.Multiplex? {
        base := BaseState.Abort;
      }
      SetBase(t, f, base, needNewRun, destruct);
    }

    method SetBase(t: Tid, f: Frame, base: BaseState, needNewRun: bool, destruct: bool)
      requires Stepping(t) && In(t, Deciding, f) && Decision(now) == (base, needNewRun, destruct)
      modifies this
      ensures Ready(t) && call == old(call) && old(run) <= run && clock == old(clock)
      ensures In(t, Closing(needNewRun, destruct), f)
      ensures state.baseState == base && sub == old(sub) && HoldsNone(now, t)
    {
      hide IsRun, CanCall, CanThread, Plays, Decision;
      HoldsNoEngine(t);
      ghost var s := now;
      state := state.(baseState := base);
      CommitPass(t, Protocol.Decide);
      SameHolds(s, now, t);
    }

    lemma HoldsNoEngine(t: Tid)
      requires Valid() && InPass(now, t) && !now.pass.phase.Closing?
      ensures HoldsNone(now, t)
    {
      RunInv(run, |run| - 1);
    }

    /** Figures out where the task should run next, and either starts a new round or ends the pass. */
    method Close(t: Tid, f: Frame, needNewRun: bool, destruct: bool)
      returns (inTime: bool, keepLooping: bool, f': Frame)
      requires Ready(t) && In(t, Closing(needNewRun, destruct), f) && HoldsNone(now, t)
      modifies this
      ensures Ready(t) && call == old(call) && old(run) <= run && old(clock) <= clock && f'.after == f.after
      ensures inTime && keepLooping ==> In(t, WantRun, f') && f'.event == NormalRun
      ensures inTime && !keepLooping ==> At(now, t, AfterState(f.after)) && multiplexMutex == None && stateMutex == None
      ensures !inTime ==> clock == |schedule|
    {
      hide IsRun, Plays, CloseStep;
      var handler :=
        if targetHandler != Idle then targetHandler
        else if state.currentHandler != Idle then state.currentHandler
        else defaultHandler;
      var currentHandler := if f.event.NormalRun? then state.currentHandler else Immediate;
      keepLooping := needNewRun && !yielding && handler == currentHandler;
      if !keepLooping && needNewRun && handler.Immediate? {
        handler := defaultHandler;
      }
      f' := f;
      Booted(t);
      if keepLooping {
        ghost var s := now;
        var own;
        inTime, own := NextTurn(t);
        LeavingStays(s, now, t);
        if inTime {
          f' := StartRound(t, f, needNewRun, destruct, currentHandler);
        }
      } else {
        inTime := EndPass(t, f, needNewRun, destruct, handler);
      }
    }

    method StartRound(t: Tid, f: Frame, needNewRun: bool, destruct: bool, currentHandler: Handler) returns (f': Frame)
      requires Stepping(t) && In(t, Closing(needNewRun, destruct), f) && KeepLooping(now)
      requires currentHandler == if f.event.NormalRun? then state.currentHandler else Immediate
      modifies this
      ensures Ready(t) && call == old(call) && old(run) <= run && clock == old(clock)
      ensures now == CloseStep(old(now), t)
      ensures In(t, WantRun, f') && f'.event == NormalRun && f'.after == f.after
    {
      hide IsRun, CanCall, CanThread, Plays, CloseStep, KeepLooping, HandlerAfter, NextHandler, AddsTo, CanPass;
      LoopStep(now, t);
      yielding := false;
      var waiting, base := state.waitCondition, state.baseState;
      var runState := BeginLoopSection();
      if !f.event.NormalRun? {
        state := state.(currentHandler := Immediate);
      }
      stateMutex := None;
      CommitClose(t);
      f' := Frame(NormalRun, currentHandler, base, waiting, runState, f.after);
    }

    /** The pass ends, and the task goes to a given handler if it needs to run. */
    ghost predicate Leaving(t: Tid, f: Frame, needNewRun: bool, destruct: bool, handler: Handler)
      reads this
    {
      && In(t, Closing(needNewRun, destruct), f) && now.history.runCalled
      && !KeepLooping(now) && (needNewRun ==> handler == HandlerAfter(now))
    }

    /** Hands the task over to its next handler, if it needs to run, and lets go of it. */
    method EndPass(t: Tid, f: Frame, needNewRun: bool, destruct: bool, handler: Handler) returns (inTime: bool)
      requires Ready(t) && Leaving(t, f, needNewRun, destruct, handler) && HoldsNone(now, t)
      modifies this
      ensures Ready(t) && call == old(call) && old(run) <= run && old(clock) <= clock
      ensures inTime ==> At(now, t, AfterState(f.after)) && multiplexMutex == None && stateMutex == None
      ensures !inTime ==> clock == |schedule|
    {
      hide IsRun, Plays, CloseStep, KeepLooping, HandlerAfter, AddsTo;
      inTime := true;
      AddsToHandler(now, handler);
      if needNewRun && handler != state.currentHandler && handler.Engine? {
        inTime := LockEngine(t, f, needNewRun, destruct, handler);
      }
      if inTime {
        ghost var s := now;
        var own;
        inTime, own := NextTurn(t);
        LeavingStays(s, now, t);
        if inTime {
          Leave(t, f, needNewRun, destruct, handler);
        }
      }
    }

    /** AIEngine::add() takes the mutex of the engine. */
    method LockEngine(t: Tid, f: Frame, needNewRun: bool, destruct: bool, handler: Handler) returns (inTime: bool)
      requires Ready(t) && Leaving(t, f, needNewRun, destruct, handler) && HoldsNone(now, t)
      requires handler.Engine? && AddsTo(now) == Some(handler.engine)
      modifies this
      ensures Ready(t) && call == old(call) && old(run) <= run && old(clock) <= clock
      ensures inTime ==> Leaving(t, f, needNewRun, destruct, handler)
      ensures inTime ==> AddsTo(now) == Some(handler.engine) && HoldsEngine(now, t, handler.engine)
      ensures !inTime ==> clock == |schedule|
    {
      hide IsRun, Plays, KeepLooping, HandlerAfter, AddsTo;
      ghost var s := now;
      inTime := AwaitEngine(t, handler.engine);
      LeavingStays(s, now, t);
      if inTime {
        TakeEngine(t, f, needNewRun, destruct, handler);
      }
    }

    method TakeEngine(t: Tid, f: Frame, needNewRun: bool, destruct: bool, handler: Handler)
      requires Stepping(t) && Leaving(t, f, needNewRun, destruct, handler)
      requires handler.Engine? && AddsTo(now) == Some(handler.engine) && handler.engine !in engineMutexes
      modifies this
      ensures Ready(t) && call == old(call) && old(run) <= run && clock == old(clock)
      ensures Leaving(t, f, needNewRun, destruct, handler) && AddsTo(now) == Some(handler.engine)
      ensures engineMutexes == old(engineMutexes)[handler.engine := t] && HoldsEngine(now, t, handler.engine)
    {
      hide IsRun, CanCall, CanThread, Plays, KeepLooping, HandlerAfter, AddsTo;
      engineMutexes := engineMutexes[handler.engine := t];
      LockEngineOnly(now, t);
      CommitPass(t, Protocol.LockEngine);
    }

    /** The task goes to another handler, unless it is there already; an engine gets it in its list. */
    method GoTo(handler: Handler)
      modifies this`state, this`engineLists, this`engineMutexes
      ensures state == old(state).(currentHandler := handler)
      ensures var adds := handler.Engine? && handler != old(state).currentHandler;
        && engineLists == (if adds then old(engineLists)[handler.engine := old(Occurrences(handler.engine)) + 1]
                           else old(engineLists))
        && engineMutexes == (if adds then old(engineMutexes) - {handler.engine} else old(engineMutexes))
    {
      if handler != state.currentHandler {
        state := state.(currentHandler := handler);
        if handler.Engine? {
          engineLists := engineLists[handler.engine := Occurrences(handler.engine) + 1];
          engineMutexes := engineMutexes - {handler.engine};
        }
      }
    }

    /** The end of a pass: mMultiplexMutex is released first, and then mState. */
    method LetGo(handler: Handler)
      modifies this`yielding, this`state, this`engineLists, this`engineMutexes, this`multiplexMutex, this`stateMutex
      ensures !yielding && multiplexMutex == None && stateMutex == None
      ensures state == old(state).(currentHandler := handler)
      ensures var adds := handler.Engine? && handler != old(state).currentHandler;
        && engineLists == (if adds then old(engineLists)[handler.engine := old(Occurrences(handler.engine)) + 1]
                           else old(engineLists))
        && engineMutexes == (if adds then old(engineMutexes) - {handler.engine} else old(engineMutexes))
    {
      yielding := false;
      GoTo(handler);
      multiplexMutex := None;
      stateMutex := None;
    }

    /** How often the list of an engine has the task. */
    function Occurrences(e: EngineId): nat
      reads this`engineLists
    {
      if e in engineLists then engineLists[e] else 0
    }

    method CommitClose(t: Tid)
      requires Plays() && begun.Some? && call.thread == t
      requires CanPass(now, t, Protocol.Close) && Agrees(CloseStep(now, t))
      modifies this`now, this`run, this`begun
      ensures Ready(t) && now == CloseStep(old(now), t) && old(run) <= run
    {
      hide IsRun, Plays, CloseStep, CanPass;
      CommitPass(t, Protocol.Close);
    }

    method Leave(t: Tid, f: Frame, needNewRun: bool, destruct: bool, handler: Handler)
      requires Stepping(t) && Leaving(t, f, needNewRun, destruct, handler)
      requires AddsTo(now).Some? ==> HoldsEngine(now, t, AddsTo(now).value)
      modifies this
      ensures Ready(t) && call == old(call) && old(run) <= run && clock == old(clock)
      ensures now == CloseStep(old(now), t)
      ensures At(now, t, AfterState(f.after)) && multiplexMutex == None && stateMutex == None
    {
      hide IsRun, CanCall, CanThread, Plays, CloseStep, KeepLooping, HandlerAfter, AddsTo, CanPass;
      LeavingStep(now, t, handler);
      LetGo(if needNewRun then handler else Idle);
      CommitClose(t);
    }

    /** The critical section of mState that ends a round. */
    method EndRound(t: Tid, f: Frame) returns (inTime: bool, keepLooping: bool, f': Frame)
      requires Ready(t) && In(t, WantState, f)
      modifies this
      ensures Ready(t) && call == old(call) && old(run) <= run && old(clock) <= clock
      ensures f'.after == f.after
      ensures inTime ==>
        && old(clock) < clock
        && if keepLooping then In(t, WantRun, f') && f'.event == NormalRun else At(now, t, AfterState(f.after))
      ensures !inTime ==> clock == |schedule|
    {
      hide IsRun, Plays, CloseStep, Decision;
      keepLooping, f' := false, f;
      inTime := LockState(t, f);
      if inTime {
        var own;
        inTime, own := NextTurn(t);
        if inTime {
          var needNewRun, destruct := Decide(t, f);
          inTime, keepLooping, f' := Close(t, f, needNewRun, destruct);
        }
      }
    }

    /** The part of a round under mRunMutex. */
    method RunOnce(t: Tid, f: Frame) returns (inTime: bool, killed: bool, f': Frame)
      requires Ready(t) && In(t, WantRun, f) && f.event == NormalRun
      modifies this
      ensures Ready(t) && call == old(call) && old(run) <= run && old(clock) <= clock
      ensures f'.after == f.after && (inTime && !killed ==> In(t, WantState, f'))
      ensures inTime && killed ==> f.state == Killed && At(now, t, AfterState(f.after))
      ensures !inTime ==> clock == |schedule|
    {
      hide IsRun, Plays;
      f' := f;
      killed := f.state.Killed?;
      inTime := LockRun(t, f);
      if inTime {
        var own;
        inTime, own := NextTurn(t);
        if inTime {
          if killed {
            LeaveKilled(t, f);
          } else {
            inTime, f' := RunLocked(t, f);
          }
        }
      }
    }

    method LockRun(t: Tid, f: Frame) returns (inTime: bool)
      requires Ready(t) && In(t, WantRun, f)
      modifies this
      ensures Ready(t) && call == old(call) && old(run) <= run && old(clock) <= clock
      ensures inTime ==> In(t, TestingAbort, f) && runMutex == Some(t)
      ensures !inTime ==> clock == |schedule|
    {
      hide IsRun, Plays;
      inTime := AwaitRun(t);
      if inTime {
        TakeRun(t, f);
      }
    }

    method TakeRun(t: Tid, f: Frame)
      requires Stepping(t) && In(t, WantRun, f) && runMutex == None
      modifies this
      ensures Ready(t) && call == old(call) && old(run) <= run && clock == old(clock)
      ensures In(t, TestingAbort, f) && runMutex == Some(t)
    {
      hide IsRun, CanCall, CanThread, Plays;
      runMutex := Some(t);
      CommitPass(t, Protocol.LockRun);
    }

    method RunLocked(t: Tid, f: Frame) returns (inTime: bool, f': Frame)
      requires Stepping(t) && In(t, TestingAbort, f) && f.state != Killed
      modifies this
      ensures Ready(t) && call == old(call) && old(run) <= run && old(clock) <= clock
      ensures f' == f.(state := f'.state) && (inTime ==> In(t, WantState, f'))
      ensures !inTime ==> clock == |schedule|
    {
      hide IsRun, Plays, StartOf, ImplOf;
      var state' := TestAbort(t, f);
      f' := f.(state := state');
      inTime := RunState(t, f');
      if inTime {
        var own;
        inTime, own := NextTurn(t);
        if inTime {
          UnlockRun(t, f');
        }
      }
    }

    method UnlockRun(t: Tid, f: Frame)
      requires Stepping(t) && In(t, Running(Returning), f)
      modifies this
      ensures Ready(t) && call == old(call) && old(run) <= run && clock == old(clock)
      ensures In(t, WantState, f) && runMutex == None
    {
      hide IsRun, CanCall, CanThread, Plays;
      runMutex := None;
      CommitPass(t, Protocol.UnlockRun);
    }

    /** The loop of multiplex(). */
    method Loop(t: Tid, first: Frame) returns (returned: bool)
      requires Ready(t) && In(t, if first.event == NormalRun then WantRun else WantState, first)
      modifies this
      ensures Ready(t) && call == old(call) && old(run) <= run && old(clock) <= clock
      ensures returned ==> At(now, t, AfterState(first.after))
      ensures !returned ==> clock == |schedule|
    {
      hide IsRun, Plays;
      var f := first;
      var keepLooping := true;
      while keepLooping
        invariant Ready(t) && call == old(call) && old(run) <= run && old(clock) <= clock && f.after == first.after
        invariant if keepLooping then In(t, if f.event == NormalRun then WantRun else WantState, f)
                  else At(now, t, AfterState(first.after))
        decreases |schedule| - clock, keepLooping
      {
        if f.event == NormalRun {
          var inTime, killed, f' := RunOnce(t, f);
          if !inTime || killed {
            return inTime;
          }
          f := f';
        }
        var inTime;
        inTime, keepLooping, f := EndRound(t, f);
        ClockInSchedule();
        if !inTime {
          return false;
        }
      }
      return true;
    }

    /** multiplex() */
    method Multiplex(t: Tid, event: Event, handler: Handler, after: After) returns (returned: bool)
      requires Ready(t) && At(now, t, Entering(event, handler, after))
      modifies this
      ensures Ready(t) && call == old(call) && old(run) <= run && old(clock) <= clock
      ensures returned ==> At(now, t, AfterState(after))
      ensures !returned ==> clock == |schedule|
    {
      hide IsRun, Plays, TurnedAway;
      var inTime, entered, f := TryEnter(t, event, handler, after);
      if !inTime || !entered {
        return inTime;
      }
      var own;
      if event.ScheduleRun? {
        inTime, own := NextTurn(t);
        if !inTime {
          return false;
        }
        var left := Check(t, f);
        if left {
          return true;
        }
      }
      returned := BeginAndLoop(t, f);
    }

    method BeginAndLoop(t: Tid, f: Frame) returns (returned: bool)
      requires Ready(t) && In(t, Beginning, f)
      modifies this
      ensures Ready(t) && call == old(call) && old(run) <= run && old(clock) <= clock
      ensures returned ==> At(now, t, AfterState(f.after))
      ensures !returned ==> clock == |schedule|
    {
      hide IsRun, Plays;
      var own;
      returned, own := NextTurn(t);
      if returned {
        var f' := Begin(t, f);
        returned := Loop(t, f');
      }
    }

    /** Leaves if the task finished in the meantime, if it does not run in this handler, or if it is already being
        run. */
    method TryEnter(t: Tid, event: Event, handler: Handler, after: After)
      returns (inTime: bool, entered: bool, f: Frame)
      requires Ready(t) && At(now, t, Entering(event, handler, after))
      modifies this
      ensures Ready(t) && call == old(call) && old(run) <= run && old(clock) <= clock
      ensures inTime && !entered ==> At(now, t, AfterState(after))
      ensures inTime && entered ==>
        f.event == event && f.after == after && In(t, if event == ScheduleRun then Checking else Beginning, f)
      ensures !inTime ==> clock == |schedule|
    {
      hide IsRun, Plays, CanThread, ThreadStep;
      f := Frame(event, handler, Reset, false, 0, after);
      inTime := AwaitState(t);
      entered := inTime
        && !(event.InsertAbort? && !state.baseState.Multiplex?)
        && (!event.NormalRun? || handler == state.currentHandler)
        && multiplexMutex.None?;
      if entered {
        f := LetIn(t, event, handler, after);
      } else if inTime {
        TurnAway(t, event, handler, after);
      }
    }

    method TurnAway(t: Tid, event: Event, handler: Handler, after: After)
      requires Stepping(t) && At(now, t, Entering(event, handler, after)) && stateMutex == None
      requires TurnedAway(now, event, handler)
      modifies this
      ensures Ready(t) && call == old(call) && old(run) <= run && clock == old(clock)
      ensures At(now, t, AfterState(after)) && sub == old(sub) && state == old(state)
    {
      hide IsRun, CanCall, Plays;
      CommitThread(t, Enter);
    }

    /** try_lock succeeds, and the thread copies the state. */
    method LetIn(t: Tid, event: Event, handler: Handler, after: After) returns (f: Frame)
      requires Stepping(t) && At(now, t, Entering(event, handler, after)) && stateMutex == None
      requires !TurnedAway(now, event, handler)
      modifies this
      ensures Ready(t) && call == old(call) && old(run) <= run && clock == old(clock)
      ensures f.event == event && f.after == after && stateMutex == multiplexMutex == Some(t)
      ensures In(t, if event == ScheduleRun then Checking else Beginning, f)
    {
      hide IsRun, CanCall, Plays;
      stateMutex := Some(t);
      multiplexMutex := Some(t);
      var waiting, base, runState := state.waitCondition, state.baseState, sub.runState;
      CommitThread(t, Enter);
      f := Frame(event, handler, base, waiting, runState, after);
    }

    /** Leaves if another thread already honoured the request for a run. */
    method Check(t: Tid, f: Frame) returns (left: bool)
      requires Stepping(t) && In(t, Checking, f)
      modifies this
      ensures Ready(t) && call == old(call) && old(run) <= run && clock == old(clock)
      ensures left == !old(sub).needRun && sub == old(sub)
      ensures left ==> At(now, t, AfterState(f.after)) && multiplexMutex == None && stateMutex == None
      ensures !left ==> In(t, Beginning, f)
    {
      hide IsRun, CanCall, CanThread, Plays;
      left := !sub.needRun;
      if left {
        multiplexMutex := None;
        stateMutex := None;
      }
      CommitPass(t, Protocol.Check);
    }

    method Begin(t: Tid, f: Frame) returns (f': Frame)
      requires Stepping(t) && In(t, Beginning, f)
      modifies this
      ensures Ready(t) && call == old(call) && old(run) <= run && clock == old(clock)
      ensures f' == f.(runState := old(sub).runState) && stateMutex == None && sub == BeginLoop(old(sub))
      ensures In(t, if f.event == NormalRun then WantRun else WantState, f')
    {
      hide IsRun, CanCall, CanThread, Plays;
      var runState := BeginLoopSection();
      stateMutex := None;
      CommitPass(t, Protocol.Begin);
      f' := f.(runState := runState);
    }

    // ---- Calls from outside ----

    /** What a call of thread t has done, whose first step is a: the turns that were taken since. */
    ghost predicate Called(t: Tid, first: State, start: nat)
      reads this
    {
      Ready(t) && start <= clock <= |schedule| && now == Play(first, t, schedule, start, clock)
    }

    /** signal(), called by a thread that does not run the task. */
    method Signal(t: Tid, condition: Mask) returns (returned: bool, woken: bool)
      requires Valid() && begun == None && At(now, t, Outside) && condition != {}
      modifies this
      ensures woken == Wakes(old(sub), condition)
      ensures Called(t, SignalStep(old(now), t, condition), old(clock)) && old(run) <= run
      ensures if returned then At(now, t, Outside) else clock == |schedule|
    {
      hide IsRun, Plays, SubStates.Signal, Wakes;
      ghost var s := now;
      woken := SignalSection(condition);
      StartCall(t, CallSignal(condition));
      returned := true;
      if woken {
        returned := Multiplex(t, ScheduleRun, Idle, Return);
      }
      TurnsTaken(t);
    }

    /** A call in a handler: an engine or a thread pool calls multiplex(normal_run). */
    method RunInHandler(t: Tid, handler: Handler) returns (returned: bool)
      requires Valid() && begun == None && At(now, t, Outside) && handler != Idle
      modifies this
      ensures Called(t, DoCall(old(now), t, CallMultiplex(handler)), old(clock)) && old(run) <= run
      ensures if returned then At(now, t, Outside) else clock == |schedule|
    {
      hide IsRun, Plays;
      StartCall(t, CallMultiplex(handler));
      returned := Multiplex(t, NormalRun, handler, Return);
      TurnsTaken(t);
    }

    /** The first call of run(). */
    method Run(t: Tid, handler: Handler) returns (returned: bool)
      requires Valid() && begun == None && At(now, t, Outside) && handler != Idle && !now.history.runCalled
      modifies this
      ensures Called(t, DoCall(old(now), t, CallRun(handler)), old(clock)) && old(run) <= run
      ensures if returned then At(now, t, Outside) else clock == |schedule|
    {
      hide IsRun, Plays;
      defaultHandler := handler;
      StartCall(t, CallRun(handler));
      returned := ResetAndStart(t);
      TurnsTaken(t);
    }

    /** reset() */
    method ResetAndStart(t: Tid) returns (returned: bool)
      requires Ready(t) && At(now, t, WantRead)
      modifies this
      ensures Ready(t) && call == old(call) && old(run) <= run && old(clock) <= clock
      ensures returned ==> At(now, t, Outside)
      ensures !returned ==> clock == |schedule|
    {
      hide IsRun, Plays, CanThread, ThreadStep, ResetSub;
      returned := AwaitState(t);
      if returned {
        ReadBaseState(t);
        var own;
        returned, own := NextTurn(t);
        if returned {
          ResetFirst(t);
          returned := Multiplex(t, InitialRun, Idle, Return);
        }
      }
    }

    method ReadBaseState(t: Tid)
      requires Stepping(t) && At(now, t, WantRead) && stateMutex == None
      modifies this
      ensures Ready(t) && call == old(call) && old(run) <= run && clock == old(clock)
      ensures At(now, t, WantReset)
    {
      hide IsRun, CanCall, Plays;
      CommitThread(t, ReadState);
    }

    method ResetFirst(t: Tid)
      requires Stepping(t) && At(now, t, WantReset)
      modifies this
      ensures Ready(t) && call == old(call) && old(run) <= run && clock == old(clock)
      ensures At(now, t, Entering(InitialRun, Idle, Return)) && sub == ResetSub(old(sub))
    {
      hide IsRun, CanCall, Plays;
      ResetSection();
      CommitThread(t, ResetOutside);
    }

    /** abort(), called by a thread that does not run the task. When it returns in the life in which it was called, no
        thread is inside initialize_impl or multiplex_impl. */
    method Abort(t: Tid) returns (returned: bool)
      requires Valid() && begun == None && At(now, t, Outside)
      modifies this
      ensures Called(t, DoCall(old(now), t, CallAbort), old(clock)) && old(run) <= run
      ensures if returned then At(now, t, Outside) else clock == |schedule|
      ensures returned && old(now).history.life > 0 && now.history.life == old(now).history.life ==>
        now.history.barrier && !InsideTask(now)
    {
      hide IsRun, Plays, CanThread, ThreadStep, AbortStep, InsideTask;
      StartCall(t, CallAbort);
      ghost var first := |run| - 1;
      ghost var i;
      returned, i := AbortAndJoin(t);
      if returned && run[first].history.life == now.history.life && now.history.life > 0 {
        IsValidRun();
        ReturnsBehindBarrier(run, first, i, t);
      }
      TurnsTaken(t);
    }

    method AbortAndJoin(t: Tid) returns (returned: bool, ghost i: nat)
      requires Ready(t) && At(now, t, WantAbort) && |run| > 0 && run[|run| - 1] == now
      modifies this
      ensures Ready(t) && call == old(call) && old(run) <= run && old(clock) <= clock
      ensures !returned ==> clock == |schedule|
      ensures returned ==>
        && At(now, t, Outside) && |old(run)| - 1 <= i && i + 2 < |run|
        && At(run[i], t, WantAbort) && run[i + 1] == AbortStep(run[i], t)
    {
      hide IsRun, Plays, CanThread, ThreadStep, AbortStep, AbortSub;
      i := 0;
      returned := AwaitState(t);
      if returned {
        IsValidRun();
        i := |run| - 1;
        var isWaiting := AbortFirst(t);
        IsValidRun();
        if isWaiting {
          returned := Multiplex(t, InsertAbort, Idle, Join(now.history.life));
        }
        if returned {
          returned := Block(t);
        }
      }
    }

    /** Blocks until the current run finished. */
    method Block(t: Tid) returns (returned: bool)
      requires Ready(t) && IsThread(now, t) && now.threads[t].WantJoin?
      modifies this
      ensures Ready(t) && call == old(call) && old(run) <= run && old(clock) <= clock
      ensures returned ==> At(now, t, Outside) && |run| > |old(run)|
      ensures !returned ==> clock == |schedule|
    {
      hide IsRun, Plays, CanThread, ThreadStep;
      returned := AwaitRun(t);
      if returned {
        JoinRunMutex(t);
      }
    }

    lemma IsValidRun()
      requires Plays()
      ensures |run| > 0 && IsRun(run) && run[|run| - 1] == now
    {
    }

    method AbortFirst(t: Tid) returns (isWaiting: bool)
      requires Stepping(t) && At(now, t, WantAbort) && stateMutex == None
      modifies this
      ensures Ready(t) && call == old(call) && old(run) <= run && clock == old(clock)
      ensures run == old(run) + [now] && now == AbortStep(old(now), t) && sub == AbortSub(old(sub))
      ensures isWaiting == (state.baseState == BaseState.Multiplex && old(sub).idle != {})
      ensures var life := now.history.life;
        At(now, t, if isWaiting then Entering(InsertAbort, Idle, Join(life)) else WantJoin(life))
    {
      hide IsRun, CanCall, Plays;
      isWaiting := AbortSection();
      CommitThread(t, Protocol.AbortSection);
    }

    method JoinRunMutex(t: Tid)
      requires Stepping(t) && IsThread(now, t) && now.threads[t].WantJoin? && runMutex == None
      modifies this
      ensures Ready(t) && call == old(call) && old(run) <= run && clock == old(clock)
      ensures run == old(run) + [now] && At(now, t, Outside)
    {
      hide IsRun, CanCall, Plays;
      CommitThread(t, JoinRun);
    }

    /** What AIEngine::mainloop does with an element of its list: it erases the element if the task is not active
        in the engine when multiplex() returned. */
    method RunElement(t: Tid, e: EngineId) returns (returned: bool, erased: bool)
      requires Valid() && begun == None && At(now, t, Outside)
      requires e !in now.loopers && Count(now, e) > 0 && e !in engineMutexes
      modifies this
      ensures Called(t, DoCall(old(now), t, CallMainloop(e)), old(clock)) && old(run) <= run
      ensures if returned then At(now, t, Outside) else clock == |schedule|
    {
      hide IsRun, Plays;
      erased := false;
      StartCall(t, CallMainloop(e));
      returned := Multiplex(t, NormalRun, Engine(e), Test(e));
      if returned {
        returned, erased := EraseIfInactive(t, e);
      }
      TurnsTaken(t);
    }

    method EraseIfInactive(t: Tid, e: EngineId) returns (returned: bool, erased: bool)
      requires Ready(t) && At(now, t, WantTest(e))
      modifies this
      ensures Ready(t) && call == old(call) && old(run) <= run && old(clock) <= clock
      ensures returned ==> At(now, t, Outside)
      ensures !returned ==> clock == |schedule|
    {
      hide IsRun, Plays, CanThread, ThreadStep;
      erased := false;
      returned := AwaitState(t);
      if returned {
        erased := TestActive(t, e);
        returned := EndElement(t, e, erased);
      }
    }

    method EndElement(t: Tid, e: EngineId, erase: bool) returns (returned: bool)
      requires Ready(t) && At(now, t, WantEngine(e, erase))
      modifies this
      ensures Ready(t) && call == old(call) && old(run) <= run && old(clock) <= clock
      ensures returned ==> At(now, t, Outside)
      ensures !returned ==> clock == |schedule|
    {
      hide IsRun, Plays, CanThread, ThreadStep;
      returned := AwaitEngine(t, e);
      if returned {
        TakeElement(t, e, erase);
        var own;
        returned, own := NextTurn(t);
        if returned {
          LeaveEngine(t, e, erase);
        }
      }
    }

    method TestActive(t: Tid, e: EngineId) returns (erase: bool)
      requires Stepping(t) && At(now, t, WantTest(e)) && stateMutex == None
      modifies this
      ensures Ready(t) && call == old(call) && old(run) <= run && clock == old(clock)
      ensures erase == (old(state).currentHandler != Engine(e)) && At(now, t, WantEngine(e, erase))
    {
      hide IsRun, CanCall, Plays;
      erase := state.currentHandler != Engine(e);
      CommitThread(t, Protocol.TestActive);
    }

    method TakeElement(t: Tid, e: EngineId, erase: bool)
      requires Stepping(t) && At(now, t, WantEngine(e, erase)) && e !in engineMutexes
      modifies this
      ensures Ready(t) && call == old(call) && old(run) <= run && clock == old(clock)
      ensures At(now, t, InEngine(e, erase)) && engineMutexes == old(engineMutexes)[e := t]
    {
      hide IsRun, CanCall, Plays;
      engineMutexes := engineMutexes[e := t];
      CommitThread(t, Protocol.TakeEngine);
    }

    /** Erases the element, if the task was not active, and goes on to the next one. */
    method LeaveEngine(t: Tid, e: EngineId, erase: bool)
      requires Stepping(t) && At(now, t, InEngine(e, erase))
      modifies this
      ensures Ready(t) && call == old(call) && old(run) <= run && clock == old(clock)
      ensures At(now, t, Outside) && engineMutexes == old(engineMutexes) - {e}
      ensures erase ==> e in old(engineLists) && old(engineLists)[e] >= 1
      ensures erase ==> engineLists == old(engineLists)[e := old(engineLists)[e] - 1]
      ensures !erase ==> engineLists == old(engineLists)
    {
      hide IsRun, CanCall, Plays;
      ElementIsThere(t, e, erase);
      if erase {
        engineLists := engineLists[e := engineLists[e] - 1];
      }
      engineMutexes := engineMutexes - {e};
      CommitThread(t, Protocol.LeaveEngine);
    }

    lemma ElementIsThere(t: Tid, e: EngineId, erase: bool)
      requires Valid() && At(now, t, InEngine(e, erase))
      ensures e in engineLists && engineLists[e] >= 1
    {
      RunReachable(run, |run| - 1);
      assert CanThread(now, t, Protocol.LeaveEngine);
      EraseFindsElement(now, t);
    }

    method StartCall(t: Tid, a: Action)
      requires Plays() && begun == None && CanCall(now, t, a) && Agrees(DoCall(now, t, a))
      modifies this`now, this`run, this`call
      ensures Ready(t) && now == DoCall(old(now), t, a) && run == old(run) + [now] && call == Calling(t, run, clock)
      ensures |run| > 0 && run[|run| - 1] == now
    {
      hide IsRun, Plays, DoCall, CanCall;
      CommitCall(t, a);
    }

    lemma TurnsTaken(t: Tid)
      requires Ready(t)
      ensures |call.before| > 0 && Called(t, call.before[|call.before| - 1], call.start)
    {
    }
  }

  lemma CanNext(s: State, t: Tid, own: UserCall)
    requires CanOwn(s, t, own)
    ensures IsThread(s, t) && Can(s, t, OwnAction(s, t, own))
    ensures PlayOwn(s, t, own) == Step(s, t, OwnAction(s, t, own))
  {
  }

  lemma StaysUndisturbed(s: State, t: Tid)
    ensures Undisturbed(s, s, t)
  {
  }

  lemma PlayPass(s: State, t: Tid, a: Action, own: UserCall)
    requires CanPass(s, t, a) && !a.User?
    ensures CanOwn(s, t, own) && PlayOwn(s, t, own) == PassStep(s, t, a)
  {
    assert InPass(s, t);
    PassOwn(s, t, a, own);
    NoOtherStep(s, t, a);
    hide OwnAction, CanPass, PassStep, CanCall, CanThread;
  }

  lemma PlayUser(s: State, t: Tid, c: UserCall, own: UserCall)
    requires InPhase(s, t, Running(InUser)) && c == if Legal(s, own) then own else ReturnFromImpl
    ensures CanOwn(s, t, own) && PlayOwn(s, t, own) == UserStep(s, c)
  {
    UserOwn(s, t, c, own);
    NoOtherStep(s, t, User(c));
    hide OwnAction, CanPass, UserStep, CanCall, CanThread;
  }

  lemma PlayThread(s: State, t: Tid, a: Action, own: UserCall)
    requires CanThread(s, t, a) && !a.PaySignal?
    ensures CanOwn(s, t, own) && PlayOwn(s, t, own) == ThreadStep(s, t, a)
  {
    ThreadOwn(s, t, a, own);
    assert !CanCall(s, t, a);
    hide OwnAction, CanThread, ThreadStep, CanCall;
  }

  lemma UndisturbedTwice(s: State, s1: State, s2: State, t: Tid)
    requires Undisturbed(s, s1, t) && Undisturbed(s1, s2, t)
    ensures Undisturbed(s, s2, t)
  {
  }

  lemma StillInside(s: State, s': State, t: Tid)
    requires Undisturbed(s, s', t) && IsThread(s, t) && (s.threads[t] == Inside ==> InPass(s, t))
    ensures IsThread(s', t) && (s'.threads[t] == Inside ==> InPass(s', t))
  {
  }

  ghost predicate HoldsNone(s: State, t: Tid) {
    forall e :: !HoldsEngine(s, t, e)
  }

  /** Where the task goes next does not change while the pass holds mState. */
  lemma LeavingStays(s: State, s': State, t: Tid)
    requires Undisturbed(s, s', t) && InPass(s, t) && s.pass.phase.Closing? && s.history.runCalled
    ensures InPass(s', t) && s'.pass == s.pass && s'.history.runCalled && AddsTo(s') == AddsTo(s)
    ensures KeepLooping(s') == KeepLooping(s) && HandlerAfter(s') == HandlerAfter(s)
    ensures forall e :: HoldsEngine(s', t, e) <==> HoldsEngine(s, t, e)
  {
  }

  lemma SameHolds(s: State, s': State, t: Tid)
    requires HoldsNone(s, t) && s'.engineMutexes == s.engineMutexes
    ensures HoldsNone(s', t)
  {
    forall e ensures !HoldsEngine(s', t, e) {
      assert !HoldsEngine(s, t, e);
    }
  }

  lemma AddsToHandler(s: State, handler: Handler)
    requires s.pass.Pass? && s.pass.phase.Closing? && !KeepLooping(s)
    requires s.pass.phase.needNewRun ==> handler == HandlerAfter(s)
    ensures var adds := s.pass.phase.needNewRun && handler != s.mux.currentHandler && handler.Engine?;
      AddsTo(s) == if adds then Some(handler.engine) else None
  {
  }

  /** What the start of a new round does. */
  lemma LoopStep(s: State, t: Tid)
    requires InPass(s, t) && s.pass.phase.Closing? && KeepLooping(s)
    ensures CanPass(s, t, Close)
    ensures var s' := CloseStep(s, t);
      var f := s.pass.frame;
      var current := if f.event == NormalRun then s.mux.currentHandler else Immediate;
      && s'.sub == BeginLoop(s.sub) && s'.mux == s.mux.(currentHandler := current) && !s'.yielding
      && s'.targetHandler == s.targetHandler && s'.defaultHandler == s.defaultHandler
      && s'.stateMutex == None && s'.multiplexMutex == s.multiplexMutex && s'.runMutex == s.runMutex
      && s'.engineLists == s.engineLists && s'.engineMutexes == s.engineMutexes && s'.threads == s.threads
      && s'.pass == Pass(WantRun, Frame(NormalRun, current, s.mux.baseState, s.mux.waitCondition,
                                        s.sub.runState, f.after))
  {
  }

  lemma LockEngineOnly(s: State, t: Tid)
    requires InPass(s, t) && s.pass.phase.Closing? && AddsTo(s).Some? && AddsTo(s).value !in s.engineMutexes
    ensures CanPass(s, t, LockEngine)
    ensures var s' := PassStep(s, t, LockEngine);
      && s' == s.(engineMutexes := s.engineMutexes[AddsTo(s).value := t])
      && AddsTo(s') == AddsTo(s) && KeepLooping(s') == KeepLooping(s) && HandlerAfter(s') == HandlerAfter(s)
  {
  }

  /** What the end of a pass does. */
  lemma LeavingStep(s: State, t: Tid, handler: Handler)
    requires InPass(s, t) && s.pass.phase.Closing? && !KeepLooping(s)
    requires s.pass.phase.needNewRun ==> handler == HandlerAfter(s)
    requires AddsTo(s).Some? ==> HoldsEngine(s, t, AddsTo(s).value)
    ensures CanPass(s, t, Close)
    ensures var s' := CloseStep(s, t);
      var current := if s.pass.phase.needNewRun then handler else Idle;
      var adds := current.Engine? && current != s.mux.currentHandler;
      && s'.sub == s.sub && s'.mux == s.mux.(currentHandler := current) && !s'.yielding
      && s'.targetHandler == s.targetHandler && s'.defaultHandler == s.defaultHandler
      && s'.stateMutex == None && s'.multiplexMutex == None && s'.runMutex == s.runMutex
      && s'.engineLists ==
         (if adds then s.engineLists[current.engine := Count(s, current.engine) + 1] else s.engineLists)
      && s'.engineMutexes == (if adds then s.engineMutexes - {current.engine} else s.engineMutexes)
      && At(s', t, AfterState(s.pass.frame.after))
  {
  }

  /** abort() that was called at i, in the same life as at the start and at the end of the run. */
  lemma ReturnsBehindBarrier(run: seq<State>, first: nat, i: nat, t: Tid)
    requires IsRun(run) && first <= i && i + 2 < |run| && IsThread(run[i], t) && run[i].threads[t] == WantAbort
    requires run[i + 1] == AbortStep(run[i], t) && At(run[|run| - 1], t, Outside)
    requires run[first].history.life == run[|run| - 1].history.life > 0
    ensures run[|run| - 1].history.barrier && !InsideTask(run[|run| - 1])
  {
    hide IsRun, AbortStep, InsideTask, Inv;
    var j := |run| - 1;
    LifeGrows(run, first, i);
    LifeGrows(run, i, j);
    AbortReturnsBehindBarrier(run, i, j, t);
    RunInv(run, j);
    BarrierIsOutside(run[j]);
  }

  lemma ReturnIsLegal(s: State)
    requires s.pass.Pass?
    ensures Legal(s, ReturnFromImpl)
  {
  }
}
