/** The broker as an object: run(key, callback) with its retry loop, and multiplex_impl with its loops over the map and
    over the queues.

    Between two steps of a thread others take steps, which are read from `schedule`: one turn for each step of the
    thread, or for each time that it has to wait. A call is over when it returns, or when the schedule is. The
    contracts say that the object then is where `Play` says it is. */
module BrokerObjects {
  import opened Brokers

  datatype Party = ByCaller(c: Caller) | ByBroker

  /** What others do next, and then the key that the iteration over the map comes to, if it does. */
  datatype Turn = Turn(others: seq<Action>, key: Key)

  // ---- What a call does, turn by turn ----

  predicate IsOwn(p: Party, a: Action) {
    match p
    case ByCaller(c) => a == Action.Call(c)
    case ByBroker => a.Wait? || a.Loop? || a.Process? || a.PopCallback?
  }

  /** The next step of a caller, or of the broker task. */
  function OwnAction(s: Broker, p: Party, key: Key): Action {
    match p
    case ByCaller(c) => Action.Call(c)
    case ByBroker =>
      match s.broker
      case Ready => Loop
      case Looping(todo) => if todo == {} then Wait else Process(key)
      case Popping(_, _) => PopCallback
      case _ => Wait
  }

  function PlayMove(s: Broker, p: Party, a: Action): Broker {
    if !IsOwn(p, a) && Can(s, a) then Step(s, a) else s
  }

  function Others(s: Broker, p: Party, moves: seq<Action>): Broker {
    if moves == [] then s else PlayMove(Others(s, p, moves[..|moves| - 1]), p, moves[|moves| - 1])
  }

  function PlayOwn(s: Broker, p: Party, key: Key): Broker {
    if Can(s, OwnAction(s, p, key)) then Step(s, OwnAction(s, p, key)) else s
  }

  /** The state after the turns from `start` to `end`. */
  function Play(s: Broker, p: Party, schedule: seq<Turn>, start: nat, end: nat): Broker
    requires start <= end <= |schedule|
  {
    if start == end then s
    else
      var turn := schedule[end - 1];
      PlayOwn(Others(Play(s, p, schedule, start, end - 1), p, turn.others), p, turn.key)
  }

  // ---- What a thread can rely on ----

  /** What can be relied on while others take steps. While the broker task holds a read lock no entry is created. */
  predicate Undisturbed(s: Broker, s': Broker, p: Party) {
    match p
    case ByCaller(c) =>
      && |s'.calls| == |s.calls| && (c < |s.calls| ==> s'.calls[c] == s.calls[c])
      && (forall k | k in s.entries :: k in s'.entries && s'.entries[k].task == s.entries[k].task)
    case ByBroker =>
      && (s.broker != Idle ==> s'.broker == s.broker)
      && (s.broker.Looping? || s.broker.Popping? ==> s'.entries.Keys == s.entries.Keys)
      && (forall k | k in s.entries :: k in s'.entries && s'.entries[k].running == s.entries[k].running)
  }

  /** What never gets lost, whoever takes steps: entries, that a task was run or finished, and callbacks. */
  predicate Progress(s: Broker, s': Broker) {
    && (forall k | k in s.entries :: k in s'.entries && EntryProgress(s.entries[k], s'.entries[k], s'.invoked))
    && (forall c | c in s.invoked :: c in s'.invoked)
  }

  predicate EntryProgress(e: Entry, e': Entry, invoked: seq<Caller>) {
    && (e.running ==> e'.running) && (e.finished ==> e'.finished) && (e.running && HasFinished(e) ==> HasFinished(e'))
    && (forall c | c in e.callbacks :: c in e'.callbacks || c in invoked)
  }

  lemma ProgressTwice(s: Broker, s1: Broker, s2: Broker)
    requires Progress(s, s1) && Progress(s1, s2)
    ensures Progress(s, s2)
  {
    forall k | k in s.entries ensures k in s2.entries && EntryProgress(s.entries[k], s2.entries[k], s2.invoked) {
      assert EntryProgress(s.entries[k], s1.entries[k], s1.invoked);
      assert EntryProgress(s1.entries[k], s2.entries[k], s2.invoked);
    }
  }

  lemma NoProgress(s: Broker)
    ensures Progress(s, s)
  {
  }

  lemma StepProgress(s: Broker, a: Action)
    requires Inv(s) && Can(s, a)
    ensures Progress(s, Step(s, a))
  {
    var s' := Step(s, a);
    if a.Call? {
      CallProgress(s, a.caller);
    } else if a.Process? && a.key in s.entries {
      assert EntryOk(s, a.key);
    } else if a.PopCallback? {
      PopProgress(s);
    }
  }

  lemma CallProgress(s: Broker, c: Caller)
    requires Can(s, Action.Call(c))
    ensures Progress(s, CallStep(s, c))
  {
  }

  lemma PopProgress(s: Broker)
    requires Can(s, PopCallback)
    ensures Progress(s, PopStep(s))
  {
    var s' := PopStep(s);
    var k := s.broker.key;
    if k in s.entries && s.entries[k].callbacks != [] {
      var q := s.entries[k].callbacks;
      forall c | c in q ensures c in q[1..] || c in s'.invoked {
        assert q == [q[0]] + q[1..];
      }
    }
  }

  lemma OtherStep(s: Broker, a: Action, p: Party)
    requires Can(s, a) && !IsOwn(p, a)
    ensures Undisturbed(s, Step(s, a), p)
  {
    if a.Call? {
      OtherCall(s, a.caller, p);
    }
  }

  lemma OtherCall(s: Broker, d: Caller, p: Party)
    requires Can(s, Action.Call(d)) && p != ByCaller(d)
    ensures Undisturbed(s, CallStep(s, d), p)
  {
    if s.calls[d].phase.Converting? {
      OtherInsert(s, d, p);
    }
  }

  lemma OtherInsert(s: Broker, d: Caller, p: Party)
    requires Can(s, Action.Call(d)) && p != ByCaller(d) && s.calls[d].phase.Converting?
    ensures Undisturbed(s, CallStep(s, d), p)
  {
  }

  lemma SameMode(s: Broker, a: Action)
    requires Can(s, a)
    ensures Step(s, a).isImmediate == s.isImmediate
  {
  }

  lemma ReaderFindsNone(s: Broker, c: Caller)
    requires Inv(s) && c < |s.calls| && IsReader(s.calls[c].phase)
    ensures s.calls[c].key !in s.entries
  {
    assert CallOk(s, c);
  }

  lemma ExtendRun(run: seq<Broker>, a: Action)
    requires IsRun(run) && Can(run[|run| - 1], a)
    ensures IsRun(run + [Step(run[|run| - 1], a)])
  {
    var s' := Step(run[|run| - 1], a);
    assert Next(run[|run| - 1], s');
    hide Next, Init, Step;
    var run' := run + [s'];
    forall i | 0 < i < |run'| ensures Next(run'[i - 1], run'[i]) {
      if i < |run| {
        assert run'[i - 1] == run[i - 1] && run'[i] == run[i];
      }
    }
  }

  /** The call that a caller or the broker task makes: what happened before it, and the first turn that it takes. */
  datatype Calling = Calling(party: Party, before: seq<Broker>, start: nat)

  class TaskBroker {
    var key2task: map<Key, Entry>
    var pending: bool
    var unused: TaskId
    var runs: seq<TaskId>
    var invoked: seq<Caller>
    var answers: seq<bool>
    const isImmediate: bool

    // The system that the broker is part of, what happens to it, and how many turns were taken.
    var now: Broker
    const schedule: seq<Turn>
    var clock: nat

    // What happened so far, the call that is being made, and the choice in the turn that was begun.
    ghost var run: seq<Broker>
    ghost var call: Calling
    ghost var begun: bool

    predicate Agrees(s: Broker)
      reads this
    {
      && s.entries == key2task && s.pending == pending && s.unused == unused
      && s.runs == runs && s.invoked == invoked && s.answers == answers
      && s.isImmediate == isImmediate
    }

    /** The run is one of the step system, and the call has done what it does in the turns that were taken. */
    ghost predicate Plays()
      reads this`now, this`run, this`clock, this`call, this`begun
    {
      && |run| > 0 && IsRun(run) && run[|run| - 1] == now
      && |call.before| > 0 && call.before <= run && call.start <= clock <= |schedule|
      && var s := call.before[|call.before| - 1];
         if begun then
           call.start < clock
           && var s := Play(s, call.party, schedule, call.start, clock - 1);
              now == Others(s, call.party, schedule[clock - 1].others)
         else
           now == Play(s, call.party, schedule, call.start, clock)
    }

    ghost predicate Valid()
      reads this
    {
      Plays() && Agrees(now)
    }

    /** Between two turns. */
    ghost predicate Ready(p: Party)
      reads this
    {
      Valid() && !begun && call.party == p
    }

    /** In a turn, before the next step of the caller or the broker task. */
    ghost predicate Stepping(p: Party)
      reads this
    {
      Valid() && begun && call.party == p && clock > 0 && clock <= |schedule|
    }

    predicate At(c: Caller, p: CallPhase)
      reads this`now
    {
      c < |now.calls| && now.calls[c].phase == p
    }

    /** What a call has done that began in `first`: the turns that were taken since. */
    ghost predicate Called(p: Party, first: Broker, start: nat)
      reads this
    {
      Ready(p) && start <= clock <= |schedule| && now == Play(first, p, schedule, start, clock)
    }

    constructor (keys: seq<Key>, isImmediate: bool, schedule: seq<Turn>)
      ensures Ready(ByBroker) && Init(now) && this.isImmediate == isImmediate && this.schedule == schedule && clock == 0
      ensures |now.calls| == |keys| && forall c | 0 <= c < |keys| :: now.calls[c].key == keys[c]
    {
      key2task, pending, unused, runs, invoked, answers := map[], false, 0, [], [], [];
      this.isImmediate := isImmediate;
      var first := Broker(map[], seq(|keys|, i requires 0 <= i < |keys| => Brokers.Call.Call(keys[i], Outside)),
                          Start, false, isImmediate, 0, [], [], []);
      now := first;
      run := [first];
      this.schedule, clock := schedule, 0;
      call, begun := Calling(ByBroker, [first], 0), false;
    }

    /** The next step was taken, and the fields are as they should be after it. */
    method Commit(p: Party, a: Action)
      requires Plays() && begun && call.party == p && 0 < clock <= |schedule|
      requires Can(now, a) && a == OwnAction(now, p, schedule[clock - 1].key) && Agrees(Step(now, a))
      modifies this`now, this`run, this`begun
      ensures Ready(p) && now == Step(old(now), a) && run == old(run) + [now]
    {
      hide Step, Can, IsRun;
      ExtendRun(run, a);
      now := Step(now, a);
      run := run + [now];
      begun := false;
    }

    /** The next step cannot be taken. */
    method Skip(p: Party)
      requires Stepping(p) && !Can(now, OwnAction(now, p, schedule[clock - 1].key))
      modifies this`begun
      ensures Ready(p)
    {
      hide Step, Can, IsRun;
      begun := false;
    }

    ghost method StartCall(p: Party)
      requires Valid() && !begun
      modifies this`call
      ensures Ready(p) && call == Calling(p, run, clock) && |run| > 0 && run[|run| - 1] == now
    {
      call := Calling(p, run, clock);
    }

    lemma TurnsTaken(p: Party)
      requires Ready(p)
      ensures |call.before| > 0 && Called(p, call.before[|call.before| - 1], call.start)
    {
    }

    lemma ClockInSchedule()
      requires Plays()
      ensures clock <= |schedule|
    {
    }

    /** A turn, if there is one: others take steps. */
    method NextTurn(p: Party) returns (inTime: bool)
      requires Ready(p)
      modifies this
      ensures call == old(call) && old(run) <= run && Undisturbed(old(now), now, p) && Progress(old(now), now)
      ensures if inTime then Stepping(p) && clock == old(clock) + 1
              else Ready(p) && clock == old(clock) == |schedule| && now == old(now)
    {
      hide IsRun, Step, Can, PlayMove, PlayOwn, Progress;
      inTime := clock < |schedule|;
      NoProgress(now);
      if inTime {
        var others := schedule[clock].others;
        var s := now;
        for i := 0 to |others|
          invariant |run| > 0 && IsRun(run) && run[|run| - 1] == now && Agrees(now) && old(run) <= run
          invariant now == Others(s, p, others[..i]) && Undisturbed(s, now, p) && Progress(s, now)
          invariant call == old(call) && clock == old(clock) && !begun
        {
          assert others[..i + 1][..i] == others[..i];
          ghost var s1 := now;
          OtherMove(p, others[i]);
          ProgressTwice(s, s1, now);
        }
        assert others[..|others|] == others;
        clock := clock + 1;
        begun := true;
      }
    }

    method OtherMove(p: Party, a: Action)
      requires |run| > 0 && IsRun(run) && run[|run| - 1] == now && Agrees(now)
      modifies this
      ensures |run| > 0 && IsRun(run) && run[|run| - 1] == now && Agrees(now) && old(run) <= run
      ensures now == PlayMove(old(now), p, a) && Undisturbed(old(now), now, p) && Progress(old(now), now)
      ensures call == old(call) && clock == old(clock) && begun == old(begun)
    {
      hide Step, Can, IsRun, Inv, Progress;
      NoProgress(now);
      if !IsOwn(p, a) && Can(now, a) {
        RunInv(run, |run| - 1);
        OtherStep(now, a, p);
        StepProgress(now, a);
        ExtendRun(run, a);
        SameMode(now, a);
        now := Step(now, a);
        key2task, pending, unused, runs := now.entries, now.pending, now.unused, now.runs;
        invoked, answers := now.invoked, now.answers;
        run := run + [now];
      }
    }

    // ---- run(key, callback) ----

    method CommitCall(c: Caller)
      requires Plays() && begun && call.party == ByCaller(c) && 0 < clock <= |schedule|
      requires Can(now, Action.Call(c)) && Agrees(CallStep(now, c))
      modifies this`now, this`run, this`begun
      ensures Ready(ByCaller(c)) && now == CallStep(old(now), c) && run == old(run) + [now]
    {
      hide CallStep, Plays, IsRun;
      Commit(ByCaller(c), Action.Call(c));
    }

    /** run(key, callback): the task of the key. */
    method Run(c: Caller) returns (returned: bool, task: TaskId)
      requires Valid() && !begun && At(c, Outside)
      modifies this
      ensures Called(ByCaller(c), old(now), old(clock)) && old(run) <= run
      ensures if returned then At(c, Returned(task)) && Knows(c, task) else clock == |schedule|
    {
      hide IsRun, Plays, CallStep;
      task := 0;
      StartCall(ByCaller(c));
      returned := NextTurn(ByCaller(c));
      if returned {
        Enter(c);
        var created;
        returned, created := FindOrCreate(c);
        if returned {
          task := key2task[now.calls[c].key].task;
          returned := Finish(c, task, created);
        }
      }
      TurnsTaken(ByCaller(c));
    }

    method Enter(c: Caller)
      requires Stepping(ByCaller(c)) && At(c, Outside)
      modifies this
      ensures Ready(ByCaller(c)) && call == old(call) && old(run) <= run && clock == old(clock) && At(c, Searching)
    {
      hide IsRun, Plays;
      CommitCall(c);
    }

    /** Finds the entry of the key, or creates it; retries as long as another thread is about to do that. */
    method FindOrCreate(c: Caller) returns (inTime: bool, created: bool)
      requires Ready(ByCaller(c)) && At(c, Searching)
      modifies this
      ensures Ready(ByCaller(c)) && call == old(call) && old(run) <= run && old(clock) <= clock
      ensures if inTime then HasEntry(c, created) else clock == |schedule|
    {
      hide IsRun, Plays;
      created := false;
      inTime := true;
      var found := false;
      ClockInSchedule();
      while inTime && !found
        invariant Ready(ByCaller(c)) && call == old(call) && old(run) <= run && old(clock) <= clock <= |schedule|
        invariant if found then inTime && HasEntry(c, created) else !created && (inTime ==> At(c, Searching))
        invariant !inTime ==> clock == |schedule|
        decreases |schedule| - clock, inTime && !found
      {
        inTime, found, created := TryOnce(c);
        ClockInSchedule();
      }
    }

    /** One round: not found if a write lock could not be obtained because another thread is about to. */
    method TryOnce(c: Caller) returns (inTime: bool, found: bool, created: bool)
      requires Ready(ByCaller(c)) && At(c, Searching)
      modifies this
      ensures Ready(ByCaller(c)) && call == old(call) && old(run) <= run && old(clock) <= clock
      ensures inTime ==> old(clock) < clock
      ensures found ==> inTime && HasEntry(c, created)
      ensures !found ==> !created && (inTime ==> At(c, Searching))
      ensures !inTime ==> clock == |schedule|
    {
      hide IsRun, Plays;
      found, created := false, false;
      inTime := NextTurn(ByCaller(c));
      if inTime {
        found := Search(c);
        if !found {
          inTime := NextTurn(ByCaller(c));
          if inTime {
            var conflict := ConvertLock(c);
            if !conflict {
              inTime := Create(c);
              found, created := inTime, inTime;
            }
          }
        }
      }
    }

    /** The caller has the task of its key, and created the entry or found it. */
    predicate HasEntry(c: Caller, created: bool)
      reads this`now, this`key2task
    {
      && c < |now.calls| && now.calls[c].key in key2task
      && var task := key2task[now.calls[c].key].task;
         At(c, if created then WantSignal(task) else Found(task))
    }

    method Search(c: Caller) returns (found: bool)
      requires Stepping(ByCaller(c)) && At(c, Searching)
      modifies this
      ensures Ready(ByCaller(c)) && call == old(call) && old(run) <= run && clock == old(clock)
      ensures found == (old(now).calls[c].key in old(key2task)) && key2task == old(key2task)
      ensures if found then HasEntry(c, false) else At(c, Missing)
    {
      hide IsRun, Plays;
      found := now.calls[c].key in key2task;
      CommitCall(c);
    }

    /** Tries to convert the read lock to a write lock; in case of a conflict an exception is thrown. */
    method ConvertLock(c: Caller) returns (conflict: bool)
      requires Stepping(ByCaller(c)) && At(c, Missing)
      modifies this
      ensures Ready(ByCaller(c)) && call == old(call) && old(run) <= run && clock == old(clock)
      ensures conflict == SomeoneConverts(old(now)) && At(c, if conflict then Searching else Converting)
    {
      hide IsRun, Plays;
      conflict := SomeoneConverts(now);
      CommitCall(c);
    }

    /** Waits until it is the only reader, and creates the entry with its task and the callback. */
    method Create(c: Caller) returns (inTime: bool)
      requires Ready(ByCaller(c)) && At(c, Converting)
      modifies this
      ensures Ready(ByCaller(c)) && call == old(call) && old(run) <= run && old(clock) <= clock
      ensures if inTime then HasEntry(c, true) else clock == |schedule|
    {
      hide IsRun, Plays;
      inTime := false;
      ClockInSchedule();
      while !inTime && clock < |schedule|
        invariant Ready(ByCaller(c)) && call == old(call) && old(run) <= run && old(clock) <= clock <= |schedule|
        invariant if inTime then HasEntry(c, true) else At(c, Converting)
        decreases |schedule| - clock, !inTime
      {
        var turn := NextTurn(ByCaller(c));
        inTime := OnlyReader(now, c);
        if inTime {
          Insert(c);
        } else {
          Skip(ByCaller(c));
        }
        ClockInSchedule();
      }
    }

    method Insert(c: Caller)
      requires Stepping(ByCaller(c)) && At(c, Converting) && OnlyReader(now, c)
      modifies this
      ensures Ready(ByCaller(c)) && call == old(call) && old(run) <= run && clock == old(clock)
      ensures c < |now.calls| && now.calls[c].key == old(now).calls[c].key && now.calls[c].key !in old(key2task)
      ensures key2task == old(key2task)[now.calls[c].key := Entry(old(unused), NotRun, false, false, false, [c])]
      ensures HasEntry(c, true)
    {
      hide IsRun, Inv, Plays;
      KeyIsNew(c);
      key2task := key2task[now.calls[c].key := Entry(unused, NotRun, false, false, false, [c])];
      unused := unused + 1;
      CommitCall(c);
    }

    lemma KeyIsNew(c: Caller)
      requires Valid() && At(c, Converting)
      ensures now.calls[c].key !in key2task
    {
      RunInv(run, |run| - 1);
      ReaderFindsNone(now, c);
    }

    /** The entry of the caller's key has this task. */
    predicate Knows(c: Caller, task: TaskId)
      reads this`now, this`key2task
    {
      c < |now.calls| && now.calls[c].key in key2task && key2task[now.calls[c].key].task == task
    }

    /** The end of run(): calls the callback, or queues it, and signals the broker. */
    method Finish(c: Caller, task: TaskId, created: bool) returns (returned: bool)
      requires Ready(ByCaller(c)) && Knows(c, task) && At(c, if created then WantSignal(task) else Found(task))
      modifies this
      ensures Ready(ByCaller(c)) && call == old(call) && old(run) <= run && old(clock) <= clock
      ensures if returned then At(c, Returned(task)) && Knows(c, task) else clock == |schedule|
    {
      hide IsRun, Plays;
      returned := true;
      var called := false;
      if !created {
        returned, called := CallOrQueue(c, task);
      }
      if returned && !called {
        returned := NextTurn(ByCaller(c));
        if returned {
          SignalBroker(c, task);
        }
      }
    }

    /** Calls the callback if the task finished already and the broker is in immediate mode, and queues it otherwise. */
    method CallOrQueue(c: Caller, task: TaskId) returns (inTime: bool, called: bool)
      requires Ready(ByCaller(c)) && Knows(c, task) && At(c, Found(task))
      modifies this
      ensures Ready(ByCaller(c)) && call == old(call) && old(run) <= run && old(clock) <= clock
      ensures inTime ==> At(c, if called then Returned(task) else WantSignal(task)) && Knows(c, task)
      ensures !inTime ==> clock == |schedule|
    {
      hide IsRun, Plays;
      called := false;
      inTime := NextTurn(ByCaller(c));
      if inTime {
        called := TestFinished(c, task);
        inTime := NextTurn(ByCaller(c));
        if inTime {
          if called {
            CallBack(c, task);
          } else {
            Enqueue(c, task);
          }
        }
      }
    }

    method TestFinished(c: Caller, task: TaskId) returns (called: bool)
      requires Stepping(ByCaller(c)) && Knows(c, task) && At(c, Found(task))
      modifies this
      ensures Ready(ByCaller(c)) && call == old(call) && old(run) <= run && clock == old(clock)
      ensures Knows(c, task) && At(c, if called then CallNow(task) else WantPush(task))
      ensures called == (old(key2task)[now.calls[c].key].finished && isImmediate) && key2task == old(key2task)
    {
      hide IsRun, Plays;
      called := key2task[now.calls[c].key].finished && isImmediate;
      CommitCall(c);
    }

    method CallBack(c: Caller, task: TaskId)
      requires Stepping(ByCaller(c)) && Knows(c, task) && At(c, CallNow(task))
      modifies this
      ensures Ready(ByCaller(c)) && call == old(call) && old(run) <= run && clock == old(clock)
      ensures Knows(c, task) && At(c, Returned(task)) && invoked == old(invoked) + [c]
      ensures answers == old(answers) + [key2task[now.calls[c].key].success]
    {
      hide IsRun, Plays;
      invoked := invoked + [c];
      answers := answers + [key2task[now.calls[c].key].success];
      CommitCall(c);
    }

    method Enqueue(c: Caller, task: TaskId)
      requires Stepping(ByCaller(c)) && Knows(c, task) && At(c, WantPush(task))
      modifies this
      ensures Ready(ByCaller(c)) && call == old(call) && old(run) <= run && clock == old(clock)
      ensures Knows(c, task) && At(c, WantSignal(task))
      ensures var k := now.calls[c].key;
        && k in old(key2task)
        && key2task == old(key2task)[k := old(key2task)[k].(callbacks := old(key2task)[k].callbacks + [c])]
    {
      hide IsRun, Plays;
      var k := now.calls[c].key;
      key2task := key2task[k := key2task[k].(callbacks := key2task[k].callbacks + [c])];
      CommitCall(c);
    }

    method SignalBroker(c: Caller, task: TaskId)
      requires Stepping(ByCaller(c)) && Knows(c, task) && At(c, WantSignal(task))
      modifies this
      ensures Ready(ByCaller(c)) && call == old(call) && old(run) <= run && clock == old(clock)
      ensures Knows(c, task) && At(c, Returned(task)) && (pending || now.broker.Ready?)
    {
      hide IsRun, Plays;
      if now.broker != Idle {
        pending := true;
      }
      CommitCall(c);
    }

    // ---- multiplex_impl ----

    /** Broker_start: waits for the first signal. */
    method StartWork() returns (returned: bool)
      requires Valid() && !begun && now.broker == Start
      modifies this
      ensures Called(ByBroker, old(now), old(clock)) && old(run) <= run
      ensures if returned then (now.broker == Idle || now.broker.Ready?) && !pending else clock == |schedule|
    {
      hide IsRun, Plays;
      StartCall(ByBroker);
      returned := NextTurn(ByBroker);
      if returned {
        WaitForWork();
      }
      TurnsTaken(ByBroker);
    }

    /** wait(1), after the read lock was released. */
    method WaitForWork()
      requires Stepping(ByBroker) && (now.broker == Looping({}) || now.broker == Start)
      modifies this
      ensures Ready(ByBroker) && call == old(call) && old(run) <= run && clock == old(clock)
      ensures now.broker == (if old(pending) then BrokerPhase.Ready else Idle) && !pending && key2task == old(key2task)
      ensures invoked == old(invoked) && answers == old(answers)
    {
      hide IsRun, Plays;
      pending := false;
      Commit(ByBroker, Wait);
    }

    /** Broker_do_work: processes each entry, in any order, and waits. */
    method DoWork() returns (returned: bool)
      requires Valid() && !begun && now.broker.Ready?
      modifies this
      ensures Called(ByBroker, old(now), old(clock)) && old(run) <= run
      ensures if returned then (now.broker == Idle || now.broker.Ready?) && !pending else clock == |schedule|
      ensures returned ==> forall k | k in old(key2task) :: Processed(old(now), now, k)
    {
      hide IsRun, Plays, Progress, Processed;
      StartCall(ByBroker);
      ghost var s := now;
      var todo;
      returned, todo := BeginLoop(s);
      if returned {
        returned := ProcessAll(s, todo);
        if returned {
          returned := EndLoop(s);
        }
      }
      TurnsTaken(ByBroker);
    }

    /** Waits for its turn, and takes the read lock. */
    method BeginLoop(ghost s: Broker) returns (inTime: bool, todo: set<Key>)
      requires Ready(ByBroker) && now.broker.Ready? && now == s
      modifies this
      ensures Ready(ByBroker) && call == old(call) && old(run) <= run && old(clock) <= clock
      ensures inTime ==> now.broker == Looping(todo) && todo == key2task.Keys && Progress(s, now)
      ensures inTime ==> forall k | k in s.entries :: k in todo
      ensures !inTime ==> clock == |schedule|
    {
      hide IsRun, Plays, Progress, Processed;
      todo := {};
      inTime := NextTurn(ByBroker);
      if inTime {
        todo := LockEntries(s);
      }
    }

    /** Takes the read lock. */
    method LockEntries(ghost s: Broker) returns (todo: set<Key>)
      requires Stepping(ByBroker) && now.broker.Ready? && Progress(s, now)
      modifies this
      ensures Ready(ByBroker) && call == old(call) && old(run) <= run && clock == old(clock)
      ensures now.broker == Looping(todo) && todo == key2task.Keys && Progress(s, now)
      ensures forall k | k in s.entries :: k in todo
    {
      hide IsRun, Plays;
      todo := key2task.Keys;
      Commit(ByBroker, Loop);
    }

    /** Releases the read lock, and waits for more work. */
    method EndLoop(ghost s: Broker) returns (returned: bool)
      requires Ready(ByBroker) && now.broker == Looping({})
      requires forall k | k in s.entries :: Processed(s, now, k)
      modifies this
      ensures Ready(ByBroker) && call == old(call) && old(run) <= run && old(clock) <= clock
      ensures if returned then (now.broker == Idle || now.broker.Ready?) && !pending else clock == |schedule|
      ensures forall k | k in s.entries :: Processed(s, now, k)
    {
      hide IsRun, Plays, Progress, Processed;
      ghost var s1 := now;
      returned := NextTurn(ByBroker);
      AllStayProcessed(s, s1, now);
      if returned {
        ghost var s2 := now;
        WaitForWork();
        SameProcessed(s, s2, now);
      }
    }

    /** The loop over the entries. In which order it comes to them is not specified. */
    method ProcessAll(ghost s: Broker, all: set<Key>) returns (returned: bool)
      requires Ready(ByBroker) && now.broker == Looping(all) && all == key2task.Keys && Progress(s, now)
      requires forall k | k in s.entries :: k in all
      modifies this
      ensures Ready(ByBroker) && call == old(call) && old(run) <= run && old(clock) <= clock
      ensures if returned then now.broker == Looping({}) && forall k | k in s.entries :: Processed(s, now, k)
              else clock == |schedule|
    {
      hide IsRun, Plays, Progress, Processed;
      var todo := all;
      returned := true;
      ClockInSchedule();
      while todo != {} && returned
        invariant Ready(ByBroker) && call == old(call) && old(run) <= run && old(clock) <= clock <= |schedule|
        invariant returned ==> now.broker == Looping(todo) && todo <= key2task.Keys && Progress(s, now)
        invariant returned ==> forall k | k in s.entries && k !in todo :: Processed(s, now, k)
        invariant !returned ==> clock == |schedule|
        decreases |schedule| - clock, returned
      {
        returned, todo := ProcessNext(s, todo);
        ClockInSchedule();
      }
    }

    method ProcessNext(ghost s: Broker, todo: set<Key>) returns (inTime: bool, todo': set<Key>)
      requires Ready(ByBroker) && now.broker == Looping(todo) && todo <= key2task.Keys && todo != {} && Progress(s, now)
      requires forall k | k in s.entries && k !in todo :: Processed(s, now, k)
      modifies this
      ensures Ready(ByBroker) && call == old(call) && old(run) <= run && old(clock) <= clock
      ensures inTime ==> old(clock) < clock && now.broker == Looping(todo') && todo' <= key2task.Keys
      ensures inTime ==> Progress(s, now)
      ensures inTime ==> forall k | k in s.entries && k !in todo' :: Processed(s, now, k)
      ensures !inTime ==> clock == |schedule|
    {
      hide IsRun, Plays, Progress, Processed;
      todo' := todo;
      ghost var s1 := now;
      inTime := NextTurn(ByBroker);
      ProgressTwice(s, s1, now);
      ProcessedStay(s, s1, now, todo);
      if inTime {
        var k := schedule[clock - 1].key;
        if k in todo {
          inTime := ProcessEntry(s, k, todo);
          todo' := todo - {k};
        } else {
          Skip(ByBroker);
        }
      }
    }

    /** Starts the task of an entry, or calls its callbacks if its task finished. */
    method ProcessEntry(ghost s: Broker, k: Key, todo: set<Key>) returns (inTime: bool)
      requires Stepping(ByBroker) && now.broker == Looping(todo) && todo <= key2task.Keys && Progress(s, now)
      requires k in todo && k == schedule[clock - 1].key
      requires forall l | l in s.entries && l !in todo :: Processed(s, now, l)
      modifies this
      ensures Ready(ByBroker) && call == old(call) && old(run) <= run && old(clock) <= clock
      ensures inTime ==> now.broker == Looping(todo - {k}) && todo <= key2task.Keys && Progress(s, now)
      ensures inTime ==> forall l | l in s.entries && l !in todo - {k} :: Processed(s, now, l)
      ensures !inTime ==> clock == |schedule|
    {
      hide IsRun, Plays, Progress, Processed, HasFinished;
      ghost var s1 := now;
      StepsForward(Process(k));
      var finished := StartOrFinish(k, todo);
      ProgressTwice(s, s1, now);
      ProcessedStay(s, s1, now, todo);
      inTime := true;
      if finished {
        ghost var s2 := now;
        inTime := CallCallbacks(s2, k, todo - {k});
        ProgressTwice(s, s2, now);
        ProcessedStay(s, s2, now, todo);
        if inTime && k in s.entries {
          ServedIsProcessed(s, now, k);
        }
      } else if k in s.entries {
        RunIsProcessed(s, s1, now, k);
      }
    }

    /** A step of the broker loses nothing. */
    lemma StepsForward(a: Action)
      requires Valid() && Can(now, a)
      ensures Progress(now, Step(now, a))
    {
      RunInv(run, |run| - 1);
      StepProgress(now, a);
    }

    method StartOrFinish(k: Key, todo: set<Key>) returns (finished: bool)
      requires Stepping(ByBroker) && now.broker == Looping(todo) && todo <= key2task.Keys
      requires k in todo && k == schedule[clock - 1].key
      modifies this
      ensures Ready(ByBroker) && call == old(call) && old(run) <= run && clock == old(clock)
      ensures now == Step(old(now), Process(k)) && key2task.Keys == old(key2task).Keys && key2task[k].running
      ensures finished <==> old(key2task)[k].running && HasFinished(old(key2task)[k])
      ensures now.broker == if finished then Popping(k, todo - {k}) else Looping(todo - {k})
      ensures finished ==> key2task[k].finished && key2task[k].success == !old(key2task)[k].state.aborted
      ensures runs == if old(key2task)[k].running then old(runs) else old(runs) + [key2task[k].task]
    {
      hide IsRun, Plays;
      var e := key2task[k];
      finished := false;
      if !e.running {
        key2task := key2task[k := e.(running := true, state := Running)];
        runs := runs + [e.task];
      } else if HasFinished(e) {
        key2task := key2task[k := e.(success := !e.state.aborted, finished := true)];
        finished := true;
      }
      Commit(ByBroker, Process(k));
    }

    /** Calls all callbacks that were registered so far, and those that are added meanwhile. */
    method CallCallbacks(ghost s: Broker, k: Key, todo: set<Key>) returns (inTime: bool)
      requires Ready(ByBroker) && now.broker == Popping(k, todo) && k in key2task && todo <= key2task.Keys && s == now
      requires key2task[k].running && key2task[k].finished
      modifies this
      ensures Ready(ByBroker) && call == old(call) && old(run) <= run && old(clock) <= clock && Progress(s, now)
      ensures key2task.Keys == old(key2task).Keys && key2task[k].running && key2task[k].finished
      ensures if inTime then now.broker == Looping(todo) && key2task[k].callbacks == [] else clock == |schedule|
    {
      hide IsRun, Plays, Progress;
      inTime := true;
      var empty := false;
      NoProgress(now);
      ClockInSchedule();
      while inTime && !empty
        invariant Ready(ByBroker) && call == old(call) && old(run) <= run && old(clock) <= clock <= |schedule|
        invariant Progress(s, now) && key2task.Keys == old(key2task).Keys && key2task[k].running && key2task[k].finished
        invariant now.broker == if empty then Looping(todo) else Popping(k, todo)
        invariant empty ==> inTime && key2task[k].callbacks == []
        invariant !inTime ==> clock == |schedule|
        decreases |schedule| - clock, inTime && !empty
      {
        ghost var s1 := now;
        inTime := NextTurn(ByBroker);
        ProgressTwice(s, s1, now);
        StaysFinished(s1, now, k);
        if inTime {
          ghost var s2 := now;
          StepsForward(PopCallback);
          empty := CallFirst(k, todo);
          ProgressTwice(s, s2, now);
        }
        ClockInSchedule();
      }
    }

    /** Pops and calls the callback that was added first, if there is one. */
    method CallFirst(k: Key, todo: set<Key>) returns (empty: bool)
      requires Stepping(ByBroker) && now.broker == Popping(k, todo) && k in key2task
      modifies this
      ensures Ready(ByBroker) && call == old(call) && old(run) <= run && clock == old(clock)
      ensures now == Step(old(now), PopCallback) && key2task.Keys == old(key2task).Keys
      ensures empty == (old(key2task)[k].callbacks == [])
      ensures now.broker == if empty then Looping(todo) else Popping(k, todo)
      ensures key2task[k].running == old(key2task)[k].running && key2task[k].finished == old(key2task)[k].finished
      ensures key2task[k].callbacks == if empty then [] else old(key2task)[k].callbacks[1..]
      ensures invoked == if empty then old(invoked) else old(invoked) + [old(key2task)[k].callbacks[0]]
      ensures answers == if empty then old(answers) else old(answers) + [old(key2task)[k].success]
    {
      hide IsRun, Plays;
      empty := key2task[k].callbacks == [];
      if !empty {
        invoked := invoked + [key2task[k].callbacks[0]];
        answers := answers + [key2task[k].success];
        key2task := key2task[k := key2task[k].(callbacks := key2task[k].callbacks[1..])];
      }
      Commit(ByBroker, PopCallback);
    }
  }

  // ---- What Broker_do_work does with an entry ----

  /** The task of the entry was run; and if, at s, it had been run and had finished, the entry says so, and the
      callbacks that were queued then were called. */
  predicate Processed(s: Broker, s': Broker, k: Key)
    requires k in s.entries
  {
    && k in s'.entries && s'.entries[k].running
    && (s.entries[k].running && HasFinished(s.entries[k]) ==>
          s'.entries[k].finished && forall c | c in s.entries[k].callbacks :: c in s'.invoked)
  }

  lemma ProcessedStay(s: Broker, s1: Broker, s2: Broker, todo: set<Key>)
    requires Progress(s1, s2) && forall k | k in s.entries && k !in todo :: Processed(s, s1, k)
    ensures forall k | k in s.entries && k !in todo :: Processed(s, s2, k)
  {
    forall k | k in s.entries && k !in todo ensures Processed(s, s2, k) {
      assert Processed(s, s1, k) && EntryProgress(s1.entries[k], s2.entries[k], s2.invoked);
    }
  }

  lemma AllStayProcessed(s: Broker, s1: Broker, s2: Broker)
    requires Progress(s1, s2) && forall k | k in s.entries :: Processed(s, s1, k)
    ensures forall k | k in s.entries :: Processed(s, s2, k)
  {
    hide Progress, Processed;
    ProcessedStay(s, s1, s2, {});
  }

  lemma SameProcessed(s: Broker, s1: Broker, s2: Broker)
    requires s2.entries == s1.entries && s2.invoked == s1.invoked && forall k | k in s.entries :: Processed(s, s1, k)
    ensures forall k | k in s.entries :: Processed(s, s2, k)
  {
    forall k | k in s.entries ensures Processed(s, s2, k) {
      assert Processed(s, s1, k);
    }
  }

  lemma ServedIsProcessed(s: Broker, s': Broker, k: Key)
    requires Progress(s, s') && k in s.entries
    requires s'.entries[k].running && s'.entries[k].finished && s'.entries[k].callbacks == []
    ensures Processed(s, s', k)
  {
    assert EntryProgress(s.entries[k], s'.entries[k], s'.invoked);
  }

  lemma RunIsProcessed(s: Broker, s1: Broker, s2: Broker, k: Key)
    requires Progress(s, s1) && k in s.entries && !(s1.entries[k].running && HasFinished(s1.entries[k]))
    requires k in s2.entries && s2.entries[k].running
    ensures Processed(s, s2, k)
  {
    assert EntryProgress(s.entries[k], s1.entries[k], s1.invoked);
  }

  lemma StaysFinished(s: Broker, s': Broker, k: Key)
    requires Progress(s, s') && k in s.entries && s.entries[k].running && s.entries[k].finished
    ensures k in s'.entries && s'.entries[k].running && s'.entries[k].finished
  {
    assert EntryProgress(s.entries[k], s'.entries[k], s'.invoked);
  }
}
