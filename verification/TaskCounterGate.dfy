/** A gate that waits until all tasks that incremented its counter have decremented it again. */
module TaskCounterGates {

  /** m_counter is a 32-bit counter; one bit of it says that nobody waits. */
  const NOT_WAITING_MAGIC: nat := 0x1_0000
  const VALUES: nat := 0x1_0000_0000

  function MagicBit(counter: nat): bool {
    (counter / NOT_WAITING_MAGIC) % 2 == 1
  }

  function ClearMagic(counter: nat): nat {
    if MagicBit(counter) then counter - NOT_WAITING_MAGIC else counter
  }

  /** A task that uses the gate. */
  datatype Task =
    | NotStarted
    | Tested            // increment() found that nobody waits, and is about to add one
    | Refused           // increment() threw an exception
    | Running
    | WantMutex         // decrement() made the counter zero; wakeup() is about to lock the mutex
    | WantNotify
    | Ended

  /** The thread that calls wait() or wait_for(). */
  datatype Waiter =
    | NotCalled
    | Clearing          // holds the mutex
    | Testing           // holds the mutex
    | WantSleep         // holds the mutex; the counter was not zero
    | Sleeping
    | Woken(timedOut: bool)
    | TestingLast       // holds the mutex; wait_for() timed out
    | Returned(zero: bool)

  datatype Gate = Gate(
    counter: nat,
    tasks: seq<Task>,
    waiter: Waiter,
    cleared: bool)      // the waiter cleared the magic bit

  predicate Init(s: Gate) {
    && s.counter == NOT_WAITING_MAGIC && s.waiter == NotCalled && !s.cleared
    && |s.tasks| < NOT_WAITING_MAGIC
    && forall t | 0 <= t < |s.tasks| :: s.tasks[t] == NotStarted
  }

  predicate MutexFree(s: Gate) {
    s.waiter.NotCalled? || s.waiter.Sleeping? || s.waiter.Woken? || s.waiter.Returned?
  }

  predicate CanTask(s: Gate, t: nat) {
    && t < |s.tasks| && s.tasks[t] != Ended && s.tasks[t] != Refused
    && (s.tasks[t] == WantMutex ==> MutexFree(s))
  }

  function Goto(s: Gate, t: nat, p: Task): Gate
    requires t < |s.tasks|
  {
    s.(tasks := s.tasks[t := p])
  }

  /** A step of increment(), decrement() and wakeup(). */
  function TaskStep(s: Gate, t: nat): Gate
    requires CanTask(s, t)
  {
    match s.tasks[t]
    case NotStarted => Goto(s, t, if MagicBit(s.counter) then Tested else Refused)
    case Tested => Goto(s, t, Running).(counter := (s.counter + 1) % VALUES)
    case Running => Goto(s, t, if s.counter == 1 then WantMutex else Ended).(counter := (s.counter - 1) % VALUES)
    case WantMutex => Goto(s, t, WantNotify)
    case WantNotify => Goto(s, t, Ended).(waiter := if s.waiter == Sleeping then Woken(false) else s.waiter)
    case _ => s
  }

  /** The steps of wait() and wait_for(); `early` is a wake-up without a notify, or a timeout if `timedOut`. */
  datatype WaiterAction = Go | WakeEarly(timedOut: bool)

  predicate CanWaiter(s: Gate, a: WaiterAction) {
    match a
    case Go => !s.waiter.Sleeping? && !s.waiter.Returned?
    case WakeEarly(_) => s.waiter.Sleeping?
  }

  function WaiterStep(s: Gate, a: WaiterAction): Gate
    requires CanWaiter(s, a)
  {
    match s.waiter
    case NotCalled => s.(waiter := Clearing)
    case Clearing => s.(waiter := Testing, counter := ClearMagic(s.counter), cleared := true)
    case Testing => s.(waiter := if s.counter == 0 then Returned(true) else WantSleep)
    case WantSleep => s.(waiter := Sleeping)
    case Sleeping => s.(waiter := Woken(a.timedOut))
    case Woken(timedOut) => s.(waiter := if timedOut then TestingLast else Testing)
    case TestingLast => s.(waiter := Returned(s.counter == 0))
    case Returned(_) => s
  }

  datatype Move = TaskMove(t: nat) | WaiterMove(a: WaiterAction)

  predicate Can(s: Gate, m: Move) {
    match m
    case TaskMove(t) => CanTask(s, t)
    case WaiterMove(a) => CanWaiter(s, a)
  }

  function Step(s: Gate, m: Move): Gate
    requires Can(s, m)
  {
    match m
    case TaskMove(t) => TaskStep(s, t)
    case WaiterMove(a) => WaiterStep(s, a)
  }

  ghost predicate Next(s: Gate, s': Gate) {
    || (exists t :: CanTask(s, t) && s' == TaskStep(s, t))
    || (exists a :: CanWaiter(s, a) && s' == WaiterStep(s, a))
  }

  ghost predicate IsRun(run: seq<Gate>) {
    |run| > 0 && Init(run[0]) && forall i | 0 < i < |run| :: Next(run[i - 1], run[i])
  }

  ghost predicate Reachable(s: Gate) {
    exists run :: IsRun(run) && run[|run| - 1] == s
  }

  // ---- The invariant ----

  /** How many tasks incremented the counter, and did not decrement it yet. */
  function Count(tasks: seq<Task>): nat {
    if tasks == [] then 0
    else Count(tasks[..|tasks| - 1]) + if tasks[|tasks| - 1] == Running then 1 else 0
  }

  lemma {:induction false} CountUpdate(tasks: seq<Task>, t: nat, p: Task)
    requires t < |tasks|
    ensures Count(tasks[t := p]) + (if tasks[t] == Running then 1 else 0) ==
      Count(tasks) + if p == Running then 1 else 0
    ensures Count(tasks) <= |tasks|
    decreases |tasks|
  {
    var n := |tasks| - 1;
    if t == n {
      assert tasks[t := p][..n] == tasks[..n];
      CountBound(tasks);
    } else {
      assert tasks[t := p][..n] == tasks[..n][t := p];
      CountUpdate(tasks[..n], t, p);
    }
  }

  lemma {:induction false} CountBound(tasks: seq<Task>)
    ensures Count(tasks) <= |tasks|
    ensures (exists t :: 0 <= t < |tasks| && tasks[t] == Running) <==> Count(tasks) > 0
    decreases |tasks|
  {
    if tasks != [] {
      var n := |tasks| - 1;
      CountBound(tasks[..n]);
      if Count(tasks[..n]) > 0 {
        var t :| 0 <= t < n && tasks[..n][t] == Running;
        assert tasks[t] == Running;
      }
      if t :| 0 <= t < |tasks| && tasks[t] == Running {
        assert t < n ==> tasks[..n][t] == Running;
      }
    }
  }

  /** Some task made the counter zero, and did not lock the mutex since. */
  ghost predicate WillLock(tasks: seq<Task>) {
    exists t :: 0 <= t < |tasks| && tasks[t] == WantMutex
  }

  ghost predicate WillNotify(tasks: seq<Task>) {
    exists t :: 0 <= t < |tasks| && (tasks[t] == WantMutex || tasks[t] == WantNotify)
  }

  ghost predicate Inv(s: Gate) {
    && |s.tasks| < NOT_WAITING_MAGIC
    && CounterOk(s)
    && (s.cleared <==> !s.waiter.NotCalled? && !s.waiter.Clearing?)
    && (s.waiter == WantSleep && s.counter == 0 ==> WillLock(s.tasks))
    && (s.waiter == Sleeping && s.counter == 0 ==> WillNotify(s.tasks))
  }

  lemma {:induction false} InitInv(s: Gate)
    requires Init(s)
    ensures Inv(s)
  {
    CountBound(s.tasks);
  }

  lemma NoWrap(counter: nat)
    requires counter < 2 * NOT_WAITING_MAGIC
    ensures (counter + 1) % VALUES == counter + 1
    ensures counter > 0 ==> (counter - 1) % VALUES == counter - 1
  {
  }

  predicate CounterOk(s: Gate) {
    s.counter == Count(s.tasks) + if s.cleared then 0 else NOT_WAITING_MAGIC
  }

  lemma CounterKept(s: Gate, t: nat)
    requires Inv(s) && CanTask(s, t)
    ensures CounterOk(TaskStep(s, t))
    ensures TaskStep(s, t).counter == 0 && s.counter != 0 ==> s.tasks[t] == Running && s.counter == 1
    ensures s.counter == 0 ==> s.tasks[t] != Running
  {
    CountUpdate(s.tasks, t, TaskStep(s, t).tasks[t]);
    assert Count(s.tasks) < NOT_WAITING_MAGIC;
    hide Count, MagicBit, WillLock, WillNotify;
    NoWrap(s.counter);
    if s.tasks[t] == Running {
      assert CounterOk(TaskStep(s, t));
    } else if s.tasks[t] == Tested {
      assert CounterOk(TaskStep(s, t));
    }
  }

  /** Whoever makes the counter zero will notify, and so do the tasks that were about to. */
  lemma NotifyKept(s: Gate, t: nat)
    requires CanTask(s, t)
    ensures var tasks' := TaskStep(s, t).tasks;
      && (s.tasks[t] == Running && s.counter == 1 ==> WillLock(tasks') && WillNotify(tasks'))
      && (WillLock(s.tasks) && s.tasks[t] != WantMutex ==> WillLock(tasks'))
      && (WillNotify(s.tasks) && s.tasks[t] != WantNotify ==> WillNotify(tasks'))
  {
    hide Count;
    var tasks' := TaskStep(s, t).tasks;
    if s.tasks[t] == Running && s.counter == 1 {
      assert tasks'[t] == WantMutex;
    }
    if WillLock(s.tasks) && s.tasks[t] != WantMutex {
      var u :| 0 <= u < |s.tasks| && s.tasks[u] == WantMutex;
      assert tasks'[u] == WantMutex;
    }
    if s.tasks[t] == WantMutex {
      assert tasks'[t] == WantNotify;
    } else if WillNotify(s.tasks) && s.tasks[t] != WantNotify {
      var u :| 0 <= u < |s.tasks| && (s.tasks[u] == WantMutex || s.tasks[u] == WantNotify);
      assert tasks'[u] == WantMutex || tasks'[u] == WantNotify;
    }
  }

  lemma TaskKept(s: Gate, t: nat)
    requires Inv(s) && CanTask(s, t)
    ensures Inv(TaskStep(s, t))
  {
    CounterKept(s, t);
    NotifyKept(s, t);
    hide Count, WillLock, WillNotify;
  }

  lemma WaiterKept(s: Gate, a: WaiterAction)
    requires Inv(s) && CanWaiter(s, a)
    ensures Inv(WaiterStep(s, a))
  {
    CountBound(s.tasks);
    if s.waiter == WantSleep && WillLock(s.tasks) {
      var u :| 0 <= u < |s.tasks| && s.tasks[u] == WantMutex;
      assert WillNotify(s.tasks);
    }
  }

  lemma {:induction false} RunInv(run: seq<Gate>, i: nat)
    requires IsRun(run) && i < |run|
    ensures Inv(run[i])
  {
    hide Inv;
    if i == 0 {
      InitInv(run[0]);
    } else {
      RunInv(run, i - 1);
      var s := run[i - 1];
      assert Next(s, run[i]);
      if a :| CanWaiter(s, a) && run[i] == WaiterStep(s, a) {
        WaiterKept(s, a);
      } else {
        var t :| CanTask(s, t) && run[i] == TaskStep(s, t);
        TaskKept(s, t);
      }
    }
  }

  lemma ReachableInv(s: Gate)
    requires Reachable(s)
    ensures Inv(s)
  {
    hide Inv;
    var run :| IsRun(run) && run[|run| - 1] == s;
    RunInv(run, |run| - 1);
  }

  // ---- What the gate promises ----

  /** The last wake-up cannot be lost: while a waiter sleeps, or is about to, and the counter is zero, some task has not
      returned from decrement() yet; it will notify the waiter, and that wakes it up when it sleeps. */
  lemma NoLostNotify(s: Gate) returns (t: nat)
    requires Reachable(s) && s.counter == 0 && (s.waiter == WantSleep || s.waiter == Sleeping)
    ensures t < |s.tasks| && (s.tasks[t] == WantMutex || s.tasks[t] == WantNotify)
    ensures s.waiter == WantSleep ==> s.tasks[t] == WantMutex
    ensures s.waiter == Sleeping && s.tasks[t] == WantMutex ==>
      CanTask(s, t) && TaskStep(s, t).tasks[t] == WantNotify && TaskStep(s, t).waiter == Sleeping
    ensures s.waiter == Sleeping && s.tasks[t] == WantNotify ==> CanTask(s, t) && TaskStep(s, t).waiter == Woken(false)
  {
    ReachableInv(s);
    if s.waiter == WantSleep {
      t :| 0 <= t < |s.tasks| && s.tasks[t] == WantMutex;
    } else {
      t :| 0 <= t < |s.tasks| && (s.tasks[t] == WantMutex || s.tasks[t] == WantNotify);
    }
  }

  predicate SomeRuns(s: Gate) {
    exists t :: 0 <= t < |s.tasks| && s.tasks[t] == Running
  }

  /** Some task is inside increment(), between its test and its addition. */
  predicate SomeTested(s: Gate) {
    exists t :: 0 <= t < |s.tasks| && s.tasks[t] == Tested
  }

  /** A run leads from s to s'. */
  ghost predicate LeadsTo(s: Gate, s': Gate) {
    exists run: seq<Gate> :: IsPath(run) && run[0] == s && run[|run| - 1] == s'
  }

  ghost predicate IsPath(run: seq<Gate>) {
    |run| > 0 && forall i | 0 < i < |run| :: Next(run[i - 1], run[i])
  }

  predicate IsQuiet(s: Gate) {
    s.cleared && s.counter == 0 && !SomeTested(s)
  }

  lemma QuietKept(s: Gate, s': Gate)
    requires Inv(s) && IsQuiet(s) && Next(s, s')
    ensures Inv(s') && IsQuiet(s')
  {
    if a :| CanWaiter(s, a) && s' == WaiterStep(s, a) {
      WaiterKept(s, a);
    } else {
      var t: nat :| CanTask(s, t) && s' == TaskStep(s, t);
      TaskKept(s, t);
      CountBound(s.tasks);
      assert s.tasks[t] != Running && s.tasks[t] != Tested;
      forall u | 0 <= u < |s'.tasks| ensures s'.tasks[u] != Tested {
        assert s.tasks[u] != Tested;
      }
    }
  }

  lemma {:induction false} StaysQuiet(run: seq<Gate>, i: nat)
    requires IsPath(run) && i < |run| && Inv(run[0]) && IsQuiet(run[0])
    ensures Inv(run[i]) && IsQuiet(run[i])
  {
    hide Inv, IsQuiet, Next;
    if i > 0 {
      StaysQuiet(run, i - 1);
      assert Next(run[i - 1], run[i]);
      QuietKept(run[i - 1], run[i]);
    }
  }

  lemma QuietMeansNoneRuns(s: Gate)
    requires Inv(s) && s.cleared && s.counter == 0
    ensures !SomeRuns(s)
  {
    CountBound(s.tasks);
  }

  /** When the counter is zero after the magic bit was cleared, no task runs; and none ever will if and only if no
      task is inside increment(), between its test and its addition. */
  lemma ZeroIsFinal(s: Gate)
    requires Reachable(s) && s.cleared && s.counter == 0
    ensures !SomeRuns(s)
    ensures (forall s' | LeadsTo(s, s') :: !SomeRuns(s')) <==> !SomeTested(s)
  {
    ReachableInv(s);
    QuietMeansNoneRuns(s);
    if SomeTested(s) {
      var t :| 0 <= t < |s.tasks| && s.tasks[t] == Tested;
      var s' := TaskStep(s, t);
      assert Next(s, s') && s'.tasks[t] == Running;
      assert IsPath([s, s']) && [s, s'][0] == s && [s, s'][1] == s';
      assert LeadsTo(s, s') && SomeRuns(s');
    } else {
      forall s' | LeadsTo(s, s') ensures !SomeRuns(s') {
        var run: seq<Gate> :| IsPath(run) && run[0] == s && run[|run| - 1] == s';
        StaysQuiet(run, |run| - 1);
        QuietMeansNoneRuns(s');
      }
    }
  }

  /** So after the last test of wait() or wait_for(), which finds the counter zero, a task can run if and only if some
      task is inside increment() at the time of that test, between its own test and its addition. */
  lemma WaitIsSafe(s: Gate)
    requires Reachable(s) && (s.waiter == Testing || s.waiter == TestingLast) && s.counter == 0
    ensures WaiterStep(s, Go).waiter == Returned(true)
    ensures (exists s' :: LeadsTo(WaiterStep(s, Go), s') && SomeRuns(s')) <==> SomeTested(s)
  {
    ReachableInv(s);
    var s1 := WaiterStep(s, Go);
    NextIsReachable(s, s1);
    ZeroIsFinal(s1);
    assert SomeTested(s1) <==> SomeTested(s);
  }

  lemma NextIsReachable(s: Gate, s': Gate)
    requires Reachable(s) && CanWaiter(s, Go) && s' == WaiterStep(s, Go)
    ensures Reachable(s')
  {
    var run :| IsRun(run) && run[|run| - 1] == s;
    assert Next(s, s');
    Extend(run, s');
    assert (run + [s'])[|run + [s']| - 1] == s';
  }

  // ---- Time-outs ----

  /** Move number i leads from run[i] to run[i + 1]. */
  ghost predicate IsTrace(run: seq<Gate>, moves: seq<Move>) {
    && |run| == |moves| + 1 && Init(run[0])
    && forall i | 0 <= i < |moves| :: Can(run[i], moves[i]) && run[i + 1] == Step(run[i], moves[i])
  }

  /** Every run has such a list of moves. */
  lemma {:induction false} MovesOfRun(run: seq<Gate>) returns (moves: seq<Move>)
    requires IsRun(run)
    ensures IsTrace(run, moves)
    decreases |run|
  {
    hide Init, Can, Step, CanTask, CanWaiter, TaskStep, WaiterStep;
    var n := |run| - 1;
    if n == 0 {
      moves := [];
    } else {
      moves := MovesOfRun(run[..n]);
      var m := MoveOf(run[n - 1], run[n]);
      moves := moves + [m];
      forall i | 0 <= i < |moves| ensures Can(run[i], moves[i]) && run[i + 1] == Step(run[i], moves[i]) {
        if i < n - 1 {
          assert run[..n][i + 1] == run[i + 1] && run[..n][i] == run[i];
        }
      }
    }
  }

  lemma MoveOf(s: Gate, s': Gate) returns (m: Move)
    requires Next(s, s')
    ensures Can(s, m) && s' == Step(s, m)
  {
    if a :| CanWaiter(s, a) && s' == WaiterStep(s, a) {
      m := WaiterMove(a);
    } else {
      var t :| CanTask(s, t) && s' == TaskStep(s, t);
      m := TaskMove(t);
    }
  }

  const TIME_OUT := WaiterMove(WakeEarly(true))

  /** wait_for() returns false only if its time was over before; so wait(), which has no time limit, never does. */
  lemma {:induction false} FalseMeansTimeout(run: seq<Gate>, moves: seq<Move>, i: nat)
    requires IsTrace(run, moves) && i < |run|
    requires run[i].waiter in {Returned(false), TestingLast, Woken(true)}
    ensures exists k :: 0 <= k < i && moves[k] == TIME_OUT
  {
    var m, s := moves[i - 1], run[i - 1];
    assert Can(s, m) && run[i] == Step(s, m);
    if s.waiter in {Returned(false), TestingLast, Woken(true)} {
      FalseMeansTimeout(run, moves, i - 1);
    }
  }

  /** And the answer is what the last test found. */
  lemma AnswersTest(s: Gate, m: Move)
    requires Can(s, m) && !s.waiter.Returned? && Step(s, m).waiter.Returned?
    ensures Step(s, m).waiter == Returned(s.counter == 0) && m == WaiterMove(Go)
  {
  }

  function WaiterMoves(moves: seq<Move>): nat {
    if moves == [] then 0
    else WaiterMoves(moves[..|moves| - 1]) + if moves[|moves| - 1].WaiterMove? then 1 else 0
  }

  /** Once its time is over the waiter never sleeps again, and returns in its second step from then. */
  lemma {:induction false} ReturnsAfterTimeout(run: seq<Gate>, moves: seq<Move>, k: nat, j: nat)
    requires IsTrace(run, moves) && k < j <= |moves| && moves[k] == TIME_OUT
    ensures match WaiterMoves(moves[k + 1..j])
      case 0 => run[j].waiter == Woken(true)
      case 1 => run[j].waiter == TestingLast
      case n => n == 2 && run[j].waiter.Returned?
    decreases j
  {
    var s, m := run[j - 1], moves[j - 1];
    assert Can(s, m) && run[j] == Step(s, m);
    if k < j - 1 {
      ReturnsAfterTimeout(run, moves, k, j - 1);
      assert moves[k + 1..j][..j - k - 2] == moves[k + 1..j - 1];
    }
  }

  /** After any other wake-up it tests the counter in its second step: it returns true if that is zero, and sleeps again
      if it is not. */
  lemma {:induction false} TestsAfterWakeUp(run: seq<Gate>, moves: seq<Move>, k: nat, j: nat)
    requires IsTrace(run, moves) && k <= j < |moves| && run[k].waiter == Woken(false)
    ensures match WaiterMoves(moves[k..j])
      case 0 => run[j].waiter == Woken(false)
      case 1 =>
        && run[j].waiter == Testing
        && (moves[j].WaiterMove? ==> run[j + 1].waiter == if run[j].counter == 0 then Returned(true) else WantSleep)
      case _ => true
    decreases j
  {
    assert Can(run[j], moves[j]) && run[j + 1] == Step(run[j], moves[j]);
    if k < j {
      var s, m := run[j - 1], moves[j - 1];
      assert Can(s, m) && run[j] == Step(s, m);
      TestsAfterWakeUp(run, moves, k, j - 1);
      assert moves[k..j][..j - k - 1] == moves[k..j - 1];
    }
  }

  /** While nobody waits, and there are fewer than 0x10000 tasks, no task is refused and none calls wakeup(). */
  lemma OnlyWaitingMatters(s: Gate, t: nat)
    requires Reachable(s) && CanTask(s, t) && !s.cleared
    ensures TaskStep(s, t).tasks[t] != Refused
    ensures s.tasks[t] == Running ==> TaskStep(s, t).tasks[t] != WantMutex
  {
    ReachableInv(s);
    CountBound(s.tasks);
  }

  /** The counter never wraps around, and its low bits are the number of running tasks. */
  lemma CounterCounts(s: Gate)
    requires Reachable(s)
    ensures s.counter % NOT_WAITING_MAGIC == Count(s.tasks) && (MagicBit(s.counter) <==> !s.cleared)
  {
    ReachableInv(s);
    CountBound(s.tasks);
  }

  lemma Extend(run: seq<Gate>, s': Gate)
    requires IsRun(run) && Next(run[|run| - 1], s')
    ensures IsRun(run + [s'])
  {
    hide Next, Init;
    var run' := run + [s'];
    forall i | 0 < i < |run'| ensures Next(run'[i - 1], run'[i]) {
      if i < |run| {
        assert run'[i - 1] == run[i - 1] && run'[i] == run[i];
      }
    }
  }

  /** The race that the gate does not exclude: wait() returns between the test and the addition of increment(). */
  lemma LateIncrement() returns (s: Gate)
    ensures Reachable(s) && s.waiter == Returned(true) && s.tasks == [Running] && s.counter == 1
  {
    hide Next;
    s := Gate(NOT_WAITING_MAGIC, [NotStarted], NotCalled, false);
    var run := [s];
    s := NextTask(s, 0, Gate(NOT_WAITING_MAGIC, [Tested], NotCalled, false));
    run := Append(run, s);
    s := NextWaiter(s, Gate(NOT_WAITING_MAGIC, [Tested], Clearing, false));
    run := Append(run, s);
    s := NextWaiter(s, Gate(0, [Tested], Testing, true));
    run := Append(run, s);
    s := NextWaiter(s, Gate(0, [Tested], Returned(true), true));
    run := Append(run, s);
    s := NextTask(s, 0, Gate(1, [Running], Returned(true), true));
    run := Append(run, s);
  }

  /** A time-out: wait_for() returns false while a task runs. */
  lemma TimesOut() returns (s: Gate)
    ensures Reachable(s) && s.waiter == Returned(false) && s.tasks == [Running]
  {
    hide Next;
    s := Gate(NOT_WAITING_MAGIC, [NotStarted], NotCalled, false);
    var run := [s];
    s := NextTask(s, 0, Gate(NOT_WAITING_MAGIC, [Tested], NotCalled, false));
    run := Append(run, s);
    s := NextTask(s, 0, Gate(NOT_WAITING_MAGIC + 1, [Running], NotCalled, false));
    run := Append(run, s);
    s := NextWaiter(s, Gate(NOT_WAITING_MAGIC + 1, [Running], Clearing, false));
    run := Append(run, s);
    s := NextWaiter(s, Gate(1, [Running], Testing, true));
    run := Append(run, s);
    s := NextWaiter(s, Gate(1, [Running], WantSleep, true));
    run := Append(run, s);
    s := NextWaiter(s, Gate(1, [Running], Sleeping, true));
    run := Append(run, s);
    s := NextWakeUp(s, true, Gate(1, [Running], Woken(true), true));
    run := Append(run, s);
    s := NextWaiter(s, Gate(1, [Running], TestingLast, true));
    run := Append(run, s);
    s := NextWaiter(s, Gate(1, [Running], Returned(false), true));
    run := Append(run, s);
  }

  lemma NextWakeUp(s: Gate, timedOut: bool, next: Gate) returns (s': Gate)
    requires CanWaiter(s, WakeEarly(timedOut)) && WaiterStep(s, WakeEarly(timedOut)) == next
    ensures s' == next && Next(s, s')
  {
    s' := next;
  }

  lemma NextTask(s: Gate, t: nat, next: Gate) returns (s': Gate)
    requires CanTask(s, t) && TaskStep(s, t) == next
    ensures s' == next && Next(s, s')
  {
    s' := next;
  }

  lemma NextWaiter(s: Gate, next: Gate) returns (s': Gate)
    requires CanWaiter(s, Go) && WaiterStep(s, Go) == next
    ensures s' == next && Next(s, s')
  {
    s' := next;
  }

  lemma Append(run: seq<Gate>, s': Gate) returns (run': seq<Gate>)
    requires IsRun(run) && Next(run[|run| - 1], s')
    ensures IsRun(run') && run'[|run'| - 1] == s'
  {
    Extend(run, s');
    run' := run + [s'];
  }
}
