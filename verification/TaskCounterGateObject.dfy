/** The counter gate as an object: increment() and decrement() of the tasks, wait() and wait_for() of one other thread.

    Between two steps of a thread other threads take steps, which are read from `schedule`: one turn for each step of
    the thread, or for each time that it finds the mutex taken or sleeps. A call is over when it returns, or when the
    schedule is. The contracts say that the object then is where `Play` says it is. */
module TaskCounterGateObjects {
  import opened TaskCounterGates

  datatype Thread = ByTask(t: nat) | ByWaiter

  type Turn = seq<Move>

  // ---- What a call does, turn by turn ----

  /** The next step of a thread. */
  function Own(th: Thread): Move {
    match th
    case ByTask(t) => TaskMove(t)
    case ByWaiter => WaiterMove(Go)
  }

  /** A sleeping waiter can be woken up for no reason, or because its time is over. */
  function PlayMove(s: Gate, th: Thread, m: Move): Gate {
    if m != Own(th) && Can(s, m) then Step(s, m) else s
  }

  function Others(s: Gate, th: Thread, moves: Turn): Gate {
    if moves == [] then s else PlayMove(Others(s, th, moves[..|moves| - 1]), th, moves[|moves| - 1])
  }

  function PlayOwn(s: Gate, th: Thread): Gate {
    if Can(s, Own(th)) then Step(s, Own(th)) else s
  }

  /** The state after the turns from `start` to `end`. */
  function Play(s: Gate, th: Thread, schedule: seq<Turn>, start: nat, end: nat): Gate
    requires start <= end <= |schedule|
  {
    if start == end then s
    else PlayOwn(Others(Play(s, th, schedule, start, end - 1), th, schedule[end - 1]), th)
  }

  // ---- What a thread can rely on ----

  predicate Undisturbed(s: Gate, s': Gate, th: Thread) {
    match th
    case ByTask(t) => |s'.tasks| == |s.tasks| && (t < |s.tasks| ==> s'.tasks[t] == s.tasks[t])
    case ByWaiter => s'.waiter == s.waiter || (s.waiter == Sleeping && s'.waiter.Woken?)
  }

  lemma OtherStep(s: Gate, m: Move, th: Thread)
    requires Can(s, m) && m != Own(th)
    ensures Undisturbed(s, Step(s, m), th)
  {
  }

  lemma WakesUpInTime(s: Gate, m: Move)
    requires Can(s, m) && s.waiter != Woken(true) && Step(s, m).waiter == Woken(true)
    ensures m == TIME_OUT
  {
  }

  lemma UndisturbedTwice(s: Gate, s1: Gate, s2: Gate, th: Thread)
    requires Undisturbed(s, s1, th) && Undisturbed(s1, s2, th)
    ensures Undisturbed(s, s2, th)
  {
  }

  lemma ExtendRun(run: seq<Gate>, m: Move)
    requires IsRun(run) && Can(run[|run| - 1], m)
    ensures IsRun(run + [Step(run[|run| - 1], m)])
  {
    assert Next(run[|run| - 1], Step(run[|run| - 1], m));
    Extend(run, Step(run[|run| - 1], m));
  }

  /** The call that a thread makes: what happened before it, and the first turn that it takes. */
  datatype Calling = Calling(thread: Thread, before: seq<Gate>, start: nat)

  class TaskCounterGate {
    var counter: nat

    // The system that the gate is part of, what happens to it, and how many turns were taken.
    var now: Gate
    const schedule: seq<Turn>
    var clock: nat

    // What happened so far, the call that is being made, and whether a turn was begun.
    ghost var run: seq<Gate>
    ghost var call: Calling
    ghost var begun: bool

    /** The run is one of the step system, and the call has done what it does in the turns that were taken. */
    ghost predicate Plays()
      reads this`now, this`run, this`clock, this`call, this`begun
    {
      && |run| > 0 && IsRun(run) && run[|run| - 1] == now
      && |call.before| > 0 && call.before <= run && call.start <= clock <= |schedule|
      && var s := call.before[|call.before| - 1];
         if begun then
           call.start < clock
           && now == Others(Play(s, call.thread, schedule, call.start, clock - 1), call.thread, schedule[clock - 1])
         else
           now == Play(s, call.thread, schedule, call.start, clock)
    }

    ghost predicate Valid()
      reads this
    {
      Plays() && now.counter == counter
    }

    /** Between two turns of a thread. */
    ghost predicate Ready(th: Thread)
      reads this
    {
      Valid() && !begun && call.thread == th
    }

    /** In a turn of a thread, which is about to take its next step. */
    ghost predicate Stepping(th: Thread)
      reads this
    {
      Valid() && begun && call.thread == th
    }

    predicate At(t: nat, p: Task)
      reads this`now
    {
      t < |now.tasks| && now.tasks[t] == p
    }

    /** What a call has done that began in `first`: the turns that were taken since. */
    ghost predicate Called(th: Thread, first: Gate, start: nat)
      reads this
    {
      Ready(th) && start <= clock <= |schedule| && now == Play(first, th, schedule, start, clock)
    }

    constructor (tasks: nat, schedule: seq<Turn>)
      requires tasks < NOT_WAITING_MAGIC
      ensures Ready(ByWaiter) && Init(now) && |now.tasks| == tasks && this.schedule == schedule && clock == 0
    {
      counter := NOT_WAITING_MAGIC;
      var first := Gate(NOT_WAITING_MAGIC, seq(tasks, i => NotStarted), NotCalled, false);
      now := first;
      run := [first];
      this.schedule, clock := schedule, 0;
      call, begun := Calling(ByWaiter, [first], 0), false;
    }

    /** The thread took its next step, and the counter is as it should be after it. */
    method Commit(th: Thread)
      requires Plays() && begun && call.thread == th && Can(now, Own(th)) && counter == Step(now, Own(th)).counter
      modifies this`now, this`run, this`begun
      ensures Ready(th) && now == Step(old(now), Own(th)) && run == old(run) + [now]
    {
      hide Step, Can, IsRun;
      ExtendRun(run, Own(th));
      now := Step(now, Own(th));
      run := run + [now];
      begun := false;
    }

    /** The thread cannot take its next step. */
    method Skip(th: Thread)
      requires Stepping(th) && !Can(now, Own(th))
      modifies this`begun
      ensures Ready(th)
    {
      hide Step, Can, IsRun;
      begun := false;
    }

    ghost method StartCall(th: Thread)
      requires Valid() && !begun
      modifies this`call
      ensures Ready(th) && call == Calling(th, run, clock) && |run| > 0 && run[|run| - 1] == now
    {
      call := Calling(th, run, clock);
    }

    lemma TurnsTaken(th: Thread)
      requires Ready(th)
      ensures |call.before| > 0 && Called(th, call.before[|call.before| - 1], call.start)
    {
    }

    lemma ClockInSchedule()
      requires Plays()
      ensures clock <= |schedule|
    {
    }

    /** A turn, if there is one: other threads take steps. */
    method NextTurn(th: Thread) returns (inTime: bool)
      requires Ready(th)
      modifies this
      ensures call == old(call) && old(run) <= run && Undisturbed(old(now), now, th)
      ensures if inTime then Stepping(th) && clock == old(clock) + 1
              else Ready(th) && clock == old(clock) == |schedule| && now == old(now)
      ensures old(now).waiter == Sleeping && now.waiter == Woken(true) ==> inTime && TIME_OUT in schedule[old(clock)]
    {
      hide IsRun, Step, Can, PlayMove, PlayOwn;
      inTime := clock < |schedule|;
      if inTime {
        var others := schedule[clock];
        var s := now;
        for i := 0 to |others|
          invariant |run| > 0 && IsRun(run) && run[|run| - 1] == now && now.counter == counter && old(run) <= run
          invariant now == Others(s, th, others[..i]) && Undisturbed(s, now, th)
          invariant s.waiter != Woken(true) && now.waiter == Woken(true) ==> TIME_OUT in others[..i]
          invariant call == old(call) && clock == old(clock) && !begun
        {
          assert others[..i + 1][..i] == others[..i];
          OtherMove(th, others[i]);
        }
        assert others[..|others|] == others;
        clock := clock + 1;
        begun := true;
      }
    }

    method OtherMove(th: Thread, m: Move)
      requires |run| > 0 && IsRun(run) && run[|run| - 1] == now && now.counter == counter
      modifies this
      ensures |run| > 0 && IsRun(run) && run[|run| - 1] == now && now.counter == counter && old(run) <= run
      ensures now == PlayMove(old(now), th, m) && Undisturbed(old(now), now, th)
      ensures call == old(call) && clock == old(clock) && begun == old(begun)
      ensures old(now).waiter != Woken(true) && now.waiter == Woken(true) ==> m == TIME_OUT
    {
      hide Step, Can, IsRun;
      if m != Own(th) && Can(now, m) {
        OtherStep(now, m, th);
        if now.waiter != Woken(true) && Step(now, m).waiter == Woken(true) {
          WakesUpInTime(now, m);
        }
        ExtendRun(run, m);
        now := Step(now, m);
        counter := now.counter;
        run := run + [now];
      }
    }

    // ---- increment() and decrement() ----

    /** increment(); not ok where the program throws an exception. */
    method Increment(t: nat) returns (returned: bool, ok: bool)
      requires Valid() && !begun && At(t, NotStarted)
      modifies this
      ensures Called(ByTask(t), old(now), old(clock)) && old(run) <= run
      ensures returned ==> At(t, if ok then Running else Refused)
      ensures !returned ==> clock == |schedule|
    {
      hide IsRun, Plays, MagicBit;
      StartCall(ByTask(t));
      ok := false;
      returned := NextTurn(ByTask(t));
      if returned {
        ok := MagicBit(counter);
        Commit(ByTask(t));
        if ok {
          returned := NextTurn(ByTask(t));
          if returned {
            AddOne(t);
          }
        }
      }
      TurnsTaken(ByTask(t));
    }

    method AddOne(t: nat)
      requires Stepping(ByTask(t)) && At(t, Tested)
      modifies this
      ensures Ready(ByTask(t)) && call == old(call) && old(run) <= run && clock == old(clock)
      ensures counter == (old(counter) + 1) % VALUES && At(t, Running)
    {
      hide IsRun, Plays, MagicBit;
      counter := (counter + 1) % VALUES;
      Commit(ByTask(t));
    }

    /** decrement(), with wakeup() */
    method Decrement(t: nat) returns (returned: bool)
      requires Valid() && !begun && At(t, Running)
      modifies this
      ensures Called(ByTask(t), old(now), old(clock)) && old(run) <= run
      ensures if returned then At(t, Ended) else clock == |schedule|
    {
      hide IsRun, Plays, MagicBit;
      StartCall(ByTask(t));
      returned := NextTurn(ByTask(t));
      if returned {
        var previous := SubtractOne(t);
        if previous == 1 {
          returned := WakeUp(t);
        }
      }
      TurnsTaken(ByTask(t));
    }

    method SubtractOne(t: nat) returns (previous: nat)
      requires Stepping(ByTask(t)) && At(t, Running)
      modifies this
      ensures Ready(ByTask(t)) && call == old(call) && old(run) <= run && clock == old(clock)
      ensures previous == old(counter) && counter == (old(counter) - 1) % VALUES
      ensures At(t, if previous == 1 then WantMutex else Ended)
    {
      hide IsRun, Plays, MagicBit;
      previous := counter;
      counter := (counter - 1) % VALUES;
      Commit(ByTask(t));
    }

    /** wakeup() */
    method WakeUp(t: nat) returns (returned: bool)
      requires Ready(ByTask(t)) && At(t, WantMutex)
      modifies this
      ensures Ready(ByTask(t)) && call == old(call) && old(run) <= run && old(clock) <= clock
      ensures if returned then At(t, Ended) else clock == |schedule|
    {
      hide IsRun, Plays, MagicBit;
      var locked := false;
      ClockInSchedule();
      while !locked && clock < |schedule|
        invariant Ready(ByTask(t)) && call == old(call) && old(run) <= run && old(clock) <= clock <= |schedule|
        invariant At(t, if locked then WantNotify else WantMutex)
        decreases |schedule| - clock, !locked
      {
        var inTime := NextTurn(ByTask(t));
        locked := MutexFree(now);
        if locked {
          Commit(ByTask(t));
        } else {
          Skip(ByTask(t));
        }
        ClockInSchedule();
      }
      returned := locked;
      if locked {
        returned := NextTurn(ByTask(t));
        if returned {
          Commit(ByTask(t));
        }
      }
    }

    // ---- wait() and wait_for() ----

    /** In one of these turns the time of wait_for() was over. */
    ghost predicate IsTimeOver(start: nat, end: nat) {
      exists k :: start <= k < end && k < |schedule| && TIME_OUT in schedule[k]
    }

    /** wait(); and wait_for(), in case that its time is over at some point: it returns whether the counter is zero, and
        false only if its time was over. If it returns true, no task runs, and none ever will if and only if no task is
        inside increment() then, between its test and its addition. */
    method Wait() returns (returned: bool, zero: bool)
      requires Valid() && !begun && now.waiter == NotCalled
      modifies this
      ensures Called(ByWaiter, old(now), old(clock)) && old(run) <= run
      ensures if returned then now.waiter == Returned(zero) else clock == |schedule|
      ensures returned ==> zero == (counter == 0) && (zero || IsTimeOver(old(clock), clock))
      ensures returned && zero ==> !SomeRuns(now)
      ensures returned && zero ==> ((forall s' | LeadsTo(now, s') :: !SomeRuns(s')) <==> !SomeTested(now))
    {
      hide IsRun, Plays, MagicBit, ClearMagic, SomeRuns, SomeTested, LeadsTo;
      StartCall(ByWaiter);
      returned, zero := ClearAndTest();
      while !returned && clock < |schedule|
        invariant Ready(ByWaiter) && old(run) <= run && clock <= |schedule|
        invariant call.start == old(clock) && |call.before| > 0 && call.before[|call.before| - 1] == old(now)
        invariant returned ==> now.waiter == Returned(zero) && zero == (counter == 0) && now.cleared
        invariant returned ==> zero || IsTimeOver(old(clock), clock)
        invariant old(clock) <= clock
        invariant !returned && clock < |schedule| ==> now.waiter == WantSleep
        decreases |schedule| - clock, !returned
      {
        returned, zero := SleepAndTest();
        ClockInSchedule();
      }
      if returned && zero {
        ReachedZero(run);
      }
      TurnsTaken(ByWaiter);
    }

    /** Locks the mutex, clears the magic bit, and tests the counter for the first time. */
    method ClearAndTest() returns (returned: bool, zero: bool)
      requires Ready(ByWaiter) && now.waiter == NotCalled
      modifies this
      ensures Ready(ByWaiter) && call == old(call) && old(run) <= run && old(clock) <= clock <= |schedule|
      ensures returned ==> zero && now.waiter == Returned(true) && counter == 0 && now.cleared
      ensures !returned ==> clock == |schedule| || now.waiter == WantSleep
    {
      hide IsRun, Plays, MagicBit, ClearMagic;
      zero := false;
      returned := NextTurn(ByWaiter);
      if returned {
        Commit(ByWaiter);
        returned := NextTurn(ByWaiter);
        if returned {
          ClearBit();
          returned := NextTurn(ByWaiter);
          if returned {
            returned := TestZero();
            zero := returned;
          }
        }
      }
      ClockInSchedule();
    }

    method ClearBit()
      requires Stepping(ByWaiter) && now.waiter == Clearing
      modifies this
      ensures Ready(ByWaiter) && call == old(call) && old(run) <= run && clock == old(clock)
      ensures counter == ClearMagic(old(counter)) && now.cleared && now.waiter == Testing
    {
      hide IsRun, Plays, MagicBit, ClearMagic;
      counter := ClearMagic(counter);
      Commit(ByWaiter);
    }

    method TestZero() returns (zero: bool)
      requires Stepping(ByWaiter) && now.waiter == Testing
      modifies this
      ensures Ready(ByWaiter) && call == old(call) && old(run) <= run && clock == old(clock)
      ensures zero <==> counter == 0
      ensures now.waiter == if zero then Returned(true) else WantSleep
      ensures now.cleared
    {
      hide IsRun, Plays, MagicBit, ClearMagic;
      zero := counter == 0;
      Tests();
      Commit(ByWaiter);
    }

    /** The magic bit was cleared before the first test. */
    lemma Tests()
      requires Valid() && (now.waiter == Testing || now.waiter == TestingLast)
      ensures now.cleared
    {
      RunInv(run, |run| - 1);
    }

    /** Sleeps until it is woken up, and tests the counter again. */
    method SleepAndTest() returns (returned: bool, zero: bool)
      requires Ready(ByWaiter) && now.waiter == WantSleep && clock < |schedule|
      modifies this
      ensures Ready(ByWaiter) && call == old(call) && old(run) <= run && old(clock) < clock <= |schedule|
      ensures returned ==> now.waiter == Returned(zero) && zero == (counter == 0) && now.cleared
      ensures returned ==> zero || IsTimeOver(old(clock), clock)
      ensures !returned && clock < |schedule| ==> now.waiter == WantSleep
    {
      hide IsRun, Plays, MagicBit, ClearMagic;
      returned, zero := false, false;
      var inTime := NextTurn(ByWaiter);
      Commit(ByWaiter);
      inTime := SleepTillWoken();
      ClockInSchedule();
      if inTime {
        var timedOut := now.waiter.timedOut;
        Commit(ByWaiter);
        inTime := NextTurn(ByWaiter);
        if inTime {
          if timedOut {
            zero := TestLast();
            returned := true;
          } else {
            returned := TestZero();
            zero := returned;
          }
        }
      }
      ClockInSchedule();
    }

    method SleepTillWoken() returns (woken: bool)
      requires Ready(ByWaiter) && now.waiter == Sleeping
      modifies this
      ensures call == old(call) && old(run) <= run && old(clock) <= clock
      ensures if woken then Stepping(ByWaiter) && now.waiter.Woken? else Ready(ByWaiter) && clock == |schedule|
      ensures woken && now.waiter.timedOut ==> IsTimeOver(old(clock), clock)
    {
      hide IsRun, Plays;
      woken := false;
      ClockInSchedule();
      while !woken && clock < |schedule|
        invariant call == old(call) && old(run) <= run && old(clock) <= clock <= |schedule|
        invariant if woken then Stepping(ByWaiter) && now.waiter.Woken? else Ready(ByWaiter) && now.waiter == Sleeping
        invariant woken && now.waiter.timedOut ==> IsTimeOver(old(clock), clock)
        decreases |schedule| - clock, !woken
      {
        var inTime := NextTurn(ByWaiter);
        woken := now.waiter.Woken?;
        if !woken {
          Skip(ByWaiter);
        }
        ClockInSchedule();
      }
    }

    /** The time of wait_for() is over. */
    method TestLast() returns (zero: bool)
      requires Stepping(ByWaiter) && now.waiter == TestingLast
      modifies this
      ensures Ready(ByWaiter) && call == old(call) && old(run) <= run && clock == old(clock)
      ensures (zero <==> counter == 0) && now.waiter == Returned(zero) && now.cleared
    {
      hide IsRun, Plays, MagicBit, ClearMagic;
      zero := counter == 0;
      Tests();
      Commit(ByWaiter);
    }

    lemma ReachedZero(run: seq<Gate>)
      requires Plays() && run == this.run && now.cleared && now.counter == 0
      ensures !SomeRuns(now)
      ensures (forall s' | LeadsTo(now, s') :: !SomeRuns(s')) <==> !SomeTested(now)
    {
      assert Reachable(now);
      hide IsRun, Reachable, SomeRuns, SomeTested, LeadsTo;
      ZeroIsFinal(now);
    }
  }
}
