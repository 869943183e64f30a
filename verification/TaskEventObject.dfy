/** An event as an object: register_task() and trigger().

    Between two steps of a thread other threads take steps, which are read from `schedule`: one turn for each step of
    the thread, or for each time that it finds the lock taken. A call is over when it returns, or when the schedule is.
    The contracts say that the object then is where `Play` says it is. */
module TaskEventObjects {
  import opened TaskEvents

  datatype Thread = Registering(r: Registration) | Triggering

  /** The threads that take steps in a turn. */
  type Turn = seq<Thread>

  // ---- What a call does, turn by turn ----

  predicate Can(s: Event, th: Thread) {
    match th
    case Registering(r) => CanRegister(s, r)
    case Triggering => CanTrigger(s)
  }

  function Step(s: Event, th: Thread): Event
    requires Can(s, th)
  {
    match th
    case Registering(r) => RegisterStep(s, r)
    case Triggering => TriggerStep(s)
  }

  function PlayMove(s: Event, th: Thread, m: Thread): Event {
    if m != th && Can(s, m) then Step(s, m) else s
  }

  function Others(s: Event, th: Thread, moves: Turn): Event {
    if moves == [] then s else PlayMove(Others(s, th, moves[..|moves| - 1]), th, moves[|moves| - 1])
  }

  function PlayOwn(s: Event, th: Thread): Event {
    if Can(s, th) then Step(s, th) else s
  }

  /** The state after the turns from `start` to `end`. */
  function Play(s: Event, th: Thread, schedule: seq<Turn>, start: nat, end: nat): Event
    requires start <= end <= |schedule|
  {
    if start == end then s
    else PlayOwn(Others(Play(s, th, schedule, start, end - 1), th, schedule[end - 1]), th)
  }

  // ---- What a thread can rely on ----

  predicate Undisturbed(s: Event, s': Event, th: Thread) {
    match th
    case Registering(r) =>
      && |s'.registrars| == |s.registrars|
      && (r < |s.registrars| ==> s'.registrars[r] == s.registrars[r])
    case Triggering => s'.trigger == s.trigger
  }

  lemma OtherStep(s: Event, m: Thread, th: Thread)
    requires Can(s, m) && m != th
    ensures Undisturbed(s, Step(s, m), th)
  {
  }

  lemma ExtendRun(run: seq<Event>, th: Thread)
    requires IsRun(run) && Can(run[|run| - 1], th)
    ensures IsRun(run + [Step(run[|run| - 1], th)])
  {
    var s' := Step(run[|run| - 1], th);
    assert Next(run[|run| - 1], s');
    hide Next, Init, Step;
    var run' := run + [s'];
    forall i | 0 < i < |run'| ensures Next(run'[i - 1], run'[i]) {
      if i < |run| {
        assert run'[i - 1] == run[i - 1] && run'[i] == run[i];
      }
    }
  }

  /** The call that a thread makes: what happened before it, and the first turn that it takes. */
  datatype Calling = Calling(thread: Thread, before: seq<Event>, start: nat)

  class TaskEvent {
    var triggered: bool
    var registeredTasks: seq<Registration>
    var locked: bool
    // The calls of signal() so far.
    var signals: multiset<Registration>

    // The system that the event is part of, what happens to it, and how many turns were taken.
    var now: Event
    const schedule: seq<Turn>
    var clock: nat

    // What happened so far, the call that is being made, and whether a turn was begun.
    ghost var run: seq<Event>
    ghost var call: Calling
    ghost var begun: bool

    predicate Agrees(s: Event)
      reads this
    {
      s.triggered == triggered && s.list == registeredTasks && s.locked == locked && s.signals == signals
    }

    /** The run is one of the step system, and the call has done what it does in the turns that were taken. */
    ghost predicate Plays()
      reads this`now, this`run, this`clock, this`call, this`begun
    {
      && |run| > 0 && IsRun(run) && run[|run| - 1] == now
      && |call.before| > 0 && call.before <= run && call.start <= clock <= |schedule|
      && var s := call.before[|call.before| - 1];
         if begun then
           call.start < clock
           && now == Others(Play(s, call.thread, schedule, call.start, clock - 1), call.thread, schedule[clock - 1])
         else
           now == Play(s, call.thread, schedule, call.start, clock)
    }

    ghost predicate Valid()
      reads this
    {
      Plays() && Agrees(now)
    }

    /** Between two turns of a thread. */
    ghost predicate Ready(th: Thread)
      reads this
    {
      Valid() && !begun && call.thread == th
    }

    /** In a turn of a thread, which is about to take its next step. */
    ghost predicate Stepping(th: Thread)
      reads this
    {
      Valid() && begun && call.thread == th
    }

    predicate At(r: Registration, p: Registrar)
      reads this`now
    {
      r < |now.registrars| && now.registrars[r] == p
    }

    /** What a call has done that began in `first`: the turns that were taken since. */
    ghost predicate Called(th: Thread, first: Event, start: nat)
      reads this
    {
      Ready(th) && start <= clock <= |schedule| && now == Play(first, th, schedule, start, clock)
    }

    constructor (registrars: nat, schedule: seq<Turn>)
      ensures Ready(Triggering) && Init(now) && |now.registrars| == registrars
      ensures this.schedule == schedule && clock == 0
    {
      triggered, registeredTasks, locked, signals := false, [], false, multiset{};
      var first := Event(false, [], false, seq(registrars, i => NotCalled), NotTriggered, multiset{});
      now := first;
      run := [first];
      this.schedule, clock := schedule, 0;
      call, begun := Calling(Triggering, [first], 0), false;
    }

    /** The thread took its next step, and the fields are as they should be after it. */
    method Commit(th: Thread)
      requires Plays() && begun && call.thread == th && Can(now, th) && Agrees(Step(now, th))
      modifies this`now, this`run, this`begun
      ensures Ready(th) && now == Step(old(now), th) && run == old(run) + [now]
    {
      hide Step, Can, IsRun;
      ExtendRun(run, th);
      now := Step(now, th);
      run := run + [now];
      begun := false;
    }

    /** The thread cannot take its next step. */
    method Skip(th: Thread)
      requires Stepping(th) && !Can(now, th)
      modifies this`begun
      ensures Ready(th)
    {
      hide Step, Can, IsRun;
      begun := false;
    }

    ghost method StartCall(th: Thread)
      requires Valid() && !begun
      modifies this`call
      ensures Ready(th) && call == Calling(th, run, clock) && |run| > 0 && run[|run| - 1] == now
    {
      call := Calling(th, run, clock);
    }

    lemma TurnsTaken(th: Thread)
      requires Ready(th)
      ensures |call.before| > 0 && Called(th, call.before[|call.before| - 1], call.start)
    {
    }

    lemma ClockInSchedule()
      requires Plays()
      ensures clock <= |schedule|
    {
    }

    /** A turn, if there is one: other threads take steps. */
    method NextTurn(th: Thread) returns (inTime: bool)
      requires Ready(th)
      modifies this
      ensures call == old(call) && old(run) <= run && Undisturbed(old(now), now, th)
      ensures if inTime then Stepping(th) && clock == old(clock) + 1
              else Ready(th) && clock == old(clock) == |schedule| && now == old(now)
    {
      hide IsRun, Step, Can, PlayMove, PlayOwn;
      inTime := clock < |schedule|;
      if inTime {
        var others := schedule[clock];
        var s := now;
        for i := 0 to |others|
          invariant |run| > 0 && IsRun(run) && run[|run| - 1] == now && Agrees(now) && old(run) <= run
          invariant now == Others(s, th, others[..i]) && Undisturbed(s, now, th)
          invariant call == old(call) && clock == old(clock) && !begun
        {
          assert others[..i + 1][..i] == others[..i];
          OtherMove(th, others[i]);
        }
        assert others[..|others|] == others;
        clock := clock + 1;
        begun := true;
      }
    }

    method OtherMove(th: Thread, m: Thread)
      requires |run| > 0 && IsRun(run) && run[|run| - 1] == now && Agrees(now)
      modifies this
      ensures |run| > 0 && IsRun(run) && run[|run| - 1] == now && Agrees(now) && old(run) <= run
      ensures now == PlayMove(old(now), th, m) && Undisturbed(old(now), now, th)
      ensures call == old(call) && clock == old(clock) && begun == old(begun)
    {
      hide Step, Can, IsRun;
      if m != th && Can(now, m) {
        OtherStep(now, m, th);
        ExtendRun(run, m);
        now := Step(now, m);
        triggered, registeredTasks, locked, signals := now.triggered, now.list, now.locked, now.signals;
        run := run + [now];
      }
    }

    /** Takes turns until the lock is free. */
    method AwaitLock(th: Thread) returns (free: bool)
      requires Ready(th)
      requires match th case Registering(r) => At(r, WantLock) case Triggering => now.trigger == WantTasks
      modifies this
      ensures call == old(call) && old(run) <= run && old(clock) <= clock && Undisturbed(old(now), now, th)
      ensures if free then Stepping(th) && !locked else Ready(th) && clock == |schedule|
    {
      hide IsRun, Plays;
      free := false;
      ClockInSchedule();
      while !free && clock < |schedule|
        invariant call == old(call) && old(run) <= run && old(clock) <= clock <= |schedule|
        invariant Undisturbed(old(now), now, th)
        invariant if free then Stepping(th) && !locked else Ready(th)
        decreases |schedule| - clock, !free
      {
        var inTime := NextTurn(th);
        free := !locked;
        if !free {
          Skip(th);
        }
        ClockInSchedule();
      }
    }

    // ---- register_task() ----

    method RegisterTask(r: Registration) returns (returned: bool)
      requires Valid() && !begun && At(r, NotCalled)
      modifies this
      ensures Called(Registering(r), old(now), old(clock)) && old(run) <= run
      ensures if returned then At(r, Returned) else clock == |schedule|
    {
      hide IsRun, Plays;
      StartCall(Registering(r));
      returned := NextTurn(Registering(r));
      if returned {
        var wasTriggered := triggered;
        Commit(Registering(r));
        if wasTriggered {
          returned := SignalTasks(r, [r]);
        } else {
          returned := AddTask(r);
        }
      }
      TurnsTaken(Registering(r));
    }

    /** Adds the registration, and takes them all if the event was triggered in the meantime. */
    method AddTask(r: Registration) returns (returned: bool)
      requires Ready(Registering(r)) && At(r, WantLock)
      modifies this
      ensures Ready(Registering(r)) && call == old(call) && old(run) <= run && old(clock) <= clock
      ensures if returned then At(r, Returned) else clock == |schedule|
    {
      hide IsRun, Plays;
      returned := AwaitLock(Registering(r));
      if returned {
        Append(r);
        returned := NextTurn(Registering(r));
        if returned {
          var needTrigger, waitingTasks := TakeIfTriggered(r);
          if needTrigger {
            returned := SignalTasks(r, waitingTasks);
          }
        }
      }
    }

    method Append(r: Registration)
      requires Stepping(Registering(r)) && At(r, WantLock) && !locked
      modifies this
      ensures Ready(Registering(r)) && call == old(call) && old(run) <= run && clock == old(clock)
      ensures locked && registeredTasks == old(registeredTasks) + [r] && At(r, Appended)
    {
      hide IsRun, Plays;
      locked := true;
      registeredTasks := registeredTasks + [r];
      Commit(Registering(r));
    }

    method TakeIfTriggered(r: Registration) returns (needTrigger: bool, waitingTasks: seq<Registration>)
      requires Stepping(Registering(r)) && At(r, Appended)
      modifies this
      ensures Ready(Registering(r)) && call == old(call) && old(run) <= run && clock == old(clock)
      ensures needTrigger == old(triggered) && !locked
      ensures waitingTasks + registeredTasks == old(registeredTasks)
      ensures At(r, if needTrigger then Signalling(waitingTasks) else Returned)
      ensures needTrigger ==> registeredTasks == []
    {
      hide IsRun, Plays;
      needTrigger := triggered;
      waitingTasks := [];
      if needTrigger {
        waitingTasks := registeredTasks;
        registeredTasks := [];
      }
      locked := false;
      Commit(Registering(r));
    }

    /** The signals of a thread that registers. */
    method SignalTasks(r: Registration, waitingTasks: seq<Registration>) returns (returned: bool)
      requires Ready(Registering(r)) && At(r, Signalling(waitingTasks))
      modifies this
      ensures Ready(Registering(r)) && call == old(call) && old(run) <= run && old(clock) <= clock
      ensures if returned then At(r, Returned) else clock == |schedule|
    {
      hide IsRun, Plays;
      var i := 0;
      returned := true;
      while i < |waitingTasks| && returned
        invariant Ready(Registering(r)) && call == old(call) && old(run) <= run && old(clock) <= clock
        invariant i <= |waitingTasks| && At(r, Signalling(waitingTasks[i..]))
        invariant !returned ==> clock == |schedule|
        decreases |waitingTasks| - i, returned
      {
        returned := NextTurn(Registering(r));
        if returned {
          signals := signals + multiset{waitingTasks[i]};
          Commit(Registering(r));
          i := i + 1;
        }
      }
      if returned {
        returned := NextTurn(Registering(r));
        if returned {
          Commit(Registering(r));
        }
      }
    }

    // ---- trigger() ----

    method Trigger() returns (returned: bool)
      requires Valid() && !begun && now.trigger == NotTriggered
      modifies this
      ensures Called(Triggering, old(now), old(clock)) && old(run) <= run
      ensures if returned then now.trigger == Done else clock == |schedule|
    {
      hide IsRun, Plays;
      StartCall(Triggering);
      returned := NextTurn(Triggering);
      if returned {
        MarkTriggered();
        returned := AwaitLock(Triggering);
        if returned {
          var waitingTasks := TakeTasks();
          returned := NotifyTasks(waitingTasks);
        }
      }
      TurnsTaken(Triggering);
    }

    method MarkTriggered()
      requires Stepping(Triggering) && now.trigger == NotTriggered
      modifies this
      ensures Ready(Triggering) && call == old(call) && old(run) <= run && clock == old(clock)
      ensures triggered && now.trigger == WantTasks
    {
      hide IsRun, Plays;
      triggered := true;
      Commit(Triggering);
    }

    method TakeTasks() returns (waitingTasks: seq<Registration>)
      requires Stepping(Triggering) && now.trigger == WantTasks && !locked
      modifies this
      ensures Ready(Triggering) && call == old(call) && old(run) <= run && clock == old(clock)
      ensures waitingTasks == old(registeredTasks) && registeredTasks == [] && now.trigger == Notifying(waitingTasks)
    {
      hide IsRun, Plays;
      waitingTasks := registeredTasks;
      registeredTasks := [];
      Commit(Triggering);
    }

    /** The signals of the thread that triggers the event. */
    method NotifyTasks(waitingTasks: seq<Registration>) returns (returned: bool)
      requires Ready(Triggering) && now.trigger == Notifying(waitingTasks)
      modifies this
      ensures Ready(Triggering) && call == old(call) && old(run) <= run && old(clock) <= clock
      ensures if returned then now.trigger == Done else clock == |schedule|
    {
      hide IsRun, Plays;
      var i := 0;
      returned := true;
      while i < |waitingTasks| && returned
        invariant Ready(Triggering) && call == old(call) && old(run) <= run && old(clock) <= clock
        invariant i <= |waitingTasks| && now.trigger == Notifying(waitingTasks[i..])
        invariant !returned ==> clock == |schedule|
        decreases |waitingTasks| - i, returned
      {
        returned := NextTurn(Triggering);
        if returned {
          signals := signals + multiset{waitingTasks[i]};
          Commit(Triggering);
          i := i + 1;
        }
      }
      if returned {
        returned := NextTurn(Triggering);
        if returned {
          Commit(Triggering);
        }
      }
    }
  }
}
