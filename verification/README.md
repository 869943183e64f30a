# A verified model of the task scheduler ai-statefultask

Any number of threads may signal, abort and run one `AIStatefulTask`. Four mutexes guard it: mState, mSubState,
mMultiplexMutex, which is only ever taken with try_lock, and mRunMutex. Why that works is explained in the comments of
`AIStatefulTask.cxx` and in `README.multiplex`. This project turns the explanation into invariants and proofs, together
with the concurrent helpers that are built on tasks.

## The task

* `SubStates` has the critical sections of mSubState as functions on values, `MaskMeaning` says what the masks idle and
  skip_wait mean. A mask of 32 bits is the set of its bits.
* `Protocol` is the protocol as a step system for one task, any number of threads, and any user code that keeps to the
  rules for its calls. A step is one critical section, or the taking of one mutex that can block. mSubState is a leaf:
  nothing is locked while it is held, so each of its critical sections is one step. All other mutexes are explicit, also
  those of the engines.

| step of `Protocol` | code |
|---|---|
| EnterStep, CheckStep, BeginStep | AIStatefulTask.cxx:527-606 |
| TestAbortStep, LateState, StartOf, LeakStep | AIStatefulTask.cxx:674-756 |
| PrepareStep | AIStatefulTask.cxx:740-746, 1234-1238 |
| EvaluateStep, the actions WaitAgainSection and WakeUp | AIStatefulTask.cxx:724-736 |
| Decision, DecideStep | AIStatefulTask.cxx:765-873 |
| NextHandler, KeepLooping, HandlerAfter, AddsTo, CloseStep, the action LockEngine | AIStatefulTask.cxx:881-1001, AIEngine.cxx:44-54 |
| UserStep, Legal | AIStatefulTask.cxx:1317-1331, 1369-1396, 1522-1595, 1642-1653, 1742-1805 |
| SignalStep | AIStatefulTask.cxx:1658-1703 |
| AbortStep, AbortFlags, JoinStep | AIStatefulTask.cxx:1705-1740 |
| ResetFlags, ResetInsideStep, the actions ReadState and ReadStateInside | AIStatefulTask.cxx:1333-1367 |
| TestStep, TakeEngineStep, LeaveEngineStep, the action CallMainloop | AIEngine.cxx:69-138 |

* `Lifecycle` defines the words that the calls of one life may form.
* `Invariants` is the inductive invariant; `PassKept`, `ThreadKept`, `ThreadsKept`, `Moves` and `Reachability` prove that every
  step keeps it.
* `TaskTheorems` and `RunTheorems` draw the conclusions, for every reachable state and every run; `LateEntries` says what
  a wake-up does that comes when the task has left bs_multiplex.
* `Traces` has runs together with their steps; `Outcomes`, `Conditions` and `ThreadTraces` say what the calls of a task and of
  its clients lead to in such a run, in terms of the steps that were taken.
* `Examples` has concrete runs which show that the exceptions in some theorems are real, and `OutcomeExamples` two more.
* `StatefulTasks` is the task as a class with the fields of the program. Its methods are `multiplex`, with the loop, and the
  other functions of the program. They take turns from a schedule: in each turn other threads take any steps, and then the
  thread takes its next one, unless the mutex that it wants is taken. `Play` is what the step system says that a call does
  in some turns; each contract says that the object is where `Play` leads to in the turns that the method took, and that it
  ends without having returned only when there is no turn left. So all theorems hold for the methods of the class.

## The helpers

* `TaskMutex` and `TaskMutexQueues`: the task mutex, as a step system with one access to shared memory a step, and as a class;
  `TaskMutexExamples` has two runs of it.
  The base class MpscQueue belongs to another repository; its pop() is modelled as the usual one for a queue with a stub node,
  which is what the comments in `AIStatefulTaskMutex.h` describe.
* `Engines`: the list of an engine, mainloop(), and the times mSleep and mDuration of the tasks in it.
* `ResourcePools`: the pool and its requests.
* `TaskEvents` and `TaskEventObjects`, `TaskCounterGates` and `TaskCounterGateObjects`, `Brokers` and `BrokerObjects`: step
  systems, and classes in the same shape as the one of the task. `BrokerTraces` has runs of a broker with their steps.

Memory is sequentially consistent. The rules for client code are preconditions: wait, wait_until, finish and yield are
called from multiplex_impl only, and the task returns right after wait, wait_until and finish; wait gets OR bits only; run()
is called once from outside, and then only from finish_impl and the callback; kill() is called from the callback; a yield
without a target needs a default handler that is not immediate; the same thread runs all mainloop() calls of an engine.

## Where the code differs from its documentation

* The assertion at AIStatefulTask.cxx:562, and the comment before it, say that a schedule_run always finds the task in
  bs_multiplex. It need not: the wake-up may have been used up by the thread that runs the task, and the task may have
  finished since (`Examples.LateWakeUp`). Such a late entry returns at line 568 or 595, unless need_run is set: still, from
  before, or again by abort() or reset() (`LateEntries.WhatSetsNeedRunLate`). If it is set the entry does no harm while the
  task was not killed (`LateEntries.LateScheduleRun`); once it was killed, mMultiplexMutex is never unlocked again
  (`LateEntries.NeverUnlocked`, or when the handler of the task is not immediate, from the next time on that this handler
  runs it: `LateEntries.LockedOrHandedOver`, `LateEntries.NextNormalRunLeaks`).
* A call of abort() after finish() sets aborted to false, also when an earlier abort() had set it (`AbortWithdrawn`,
  `Examples.WithdrawnAbort`).
* An insert_abort of one life can be let in during the next life, when finish_impl or the callback called run()
  (`Examples.StaleInsertAbort`); the assertion of begin_loop that the task is not idle fails then. It cannot happen in the first
  life, nor when no thread stands before that entry at the reset (`NeverStartedIdleWithoutStragglers`).
* abort() of a killed task sets need_run, and with a late signal() that leads to a return from multiplex() that leaves
  mMultiplexMutex locked (`WhenLeaked`, `Examples.LeakedMutex`).
* The callback can be told that an aborted task succeeded: when finish_impl calls run(), which resets the flags before they
  are read (the calls listed in `Examples.StaleInsertAbort`), and when abort() is called again after abort() and finish()
  (`Examples.WrongAnswer`). `CallbackTellsTruth` says exactly when.
* unlock() of a task mutex can signal a task that is not the owner yet (`TaskMutexExamples.EarlySignal`), and it can signal
  too late, through a node that was popped and deallocated since peek() returned it (`TaskMutexExamples.LateSignal`). Both
  need another client inside pop() before the signal is sent (`TaskMutex.SignalsTheFront`); exactly when the node is the
  front one is said for peek() in `TaskMutex.PeekIsExact`, and for the signal in `TaskMutex.NotifyIsExact`. Ownership is
  therefore stated through the front of the queue, and only a signal that a node got while it was the front one counts as
  a hand-off (`TaskMutex.NoLostHandOff`).
* TaskCounterGate::increment() tests and adds in two steps, and wait() can return in between (`TaskCounterGates.LateIncrement`);
  that is the only way in which a task can run after wait() returned (`TaskCounterGates.WaitIsSafe`).

## Model

| member | source | states |
|---|---|---|
| MaskMeaning.MeaningOfMasks | AIStatefulTask.cxx:1430-1444 | Starting with idle 0, after signals, wait_AND(a), signals, wait(c) and signals, in any numbers and with any masks: idle is 0 exactly if every bit of a, and at least one bit of c unless c is 0, was signalled or pending at the start; idle and skip_wait are disjoint |
| MaskMeaning.SignalsMeaning | AIStatefulTask.cxx:1658-1693 | A sequence of signals of any length acts on idle like one signal with the union of their masks, and remembers all other bits in skip_wait |
| MaskMeaning.SignalMeaning | AIStatefulTask.cxx:1664-1672 | The meaning of one signal: it satisfies its own bits, and all OR bits if it satisfies one of them |
| MaskMeaning.WaitMeaning | AIStatefulTask.cxx:1550-1560 | The meaning of wait(c): all of c becomes idle, unless a bit of c was pending; the bits of c are no longer pending |
| MaskMeaning.SignalWaitCommute | AIStatefulTask.cxx:1446-1506 | signal(m) and wait(c) give the same masks in either order if and only if no bit of c was pending before, or m has no bit of c |
| MaskMeaning.OneWakeUp | AIStatefulTask.cxx:1674-1693 | However many signals follow a wait, exactly one of them returns true if together they satisfy it, and otherwise none; need_run says which |
| MaskMeaning.DisjointKept | AIStatefulTask.cxx:1497-1520 | No operation makes a bit both idle and pending |
| MaskMeaning.BeginLoopHonours | AIStatefulTask.cxx:1094-1116 | After begin_loop need_run says exactly whether the signals since then woke up the task; what the signals do is the same as without it |
| MaskMeaning.FinishSilences | AIStatefulTask.cxx:1755-1762 | After finish() no sequence of signals wakes up the task, and no abort() sets aborted; the task stays finished |
| MaskMeaning.ResetForgets | AIStatefulTask.cxx:1350-1361 | reset() leads to the same sub-state whatever signals, waits, aborts and finishes came before, and the first wait after it goes idle for all of its bits |
| TaskTheorems.NoLostWakeUp | AIStatefulTask.cxx:567-606 | In every reachable state with bs_multiplex and idle 0, the task is queued in an engine or the thread pool, or the holder of mMultiplexMutex has still to read the sub-state or will run again, or need_run is set and a thread is about to enter multiplex(schedule_run) or multiplex(insert_abort) |
| TaskTheorems.NeverStranded | AIStatefulTask.cxx:760-1002 | The same for every base state but bs_killed, from the first multiplex(initial_run) on |
| TaskTheorems.NoLostAbort | AIStatefulTask.cxx:1705-1740 | The same for every started task with the aborted flag up that is still in bs_reset, bs_initialize or bs_multiplex |
| TaskTheorems.TryLockFailsBeforeTheDecision | AIStatefulTask.cxx:983-1001 | try_lock fails only while the holder stands before the critical section in which it reads the sub-state, or when mMultiplexMutex of a killed task was left locked |
| TaskTheorems.NeverStartedIdle | AIStatefulTask.cxx:1094-1106 | need_run implies that idle is 0, and idle is 0 at each call of begin_loop from any event or round, whenever multiplex_impl runs, and while the task is queued in an engine, unless an insert_abort of an earlier life was let in |
| RunTheorems.NeverStartedIdleInFirstLife | AIStatefulTask.cxx:1094-1106 | The same without exception for a task in its first life, hence whenever run() is not called again |
| RunTheorems.NeverStartedIdleWithoutStragglers | AIStatefulTask.cxx:1094-1106 | The same without exception for all runs in which no thread that called abort() stands before multiplex(insert_abort) at any reset() |
| RunTheorems.NoStragglersNoStale | AIStatefulTask.cxx:530-534 | In such a run no insert_abort of an earlier life is let in |
| TaskTheorems.InsertAbortFindsIdle | AIStatefulTask.cxx:530-534 | An insert_abort that is let in finds the task idle if and only if no handler has the task and need_run is not set; it then belongs to an abort() of an earlier life |
| Examples.StaleInsertAbort | AIStatefulTask.cxx:530-534 | The exception is real: a run in which the insert_abort of one life enters multiplex() in the next life, and calls begin_loop for an idle task that was not aborted |
| TaskTheorems.LockOrder | README.multiplex:72-79 | A thread blocks only on a mutex that comes after all mutexes that it holds, in the order mMultiplexMutex, mRunMutex, mState, mEngineState |
| TaskTheorems.OnlyLocksBlock | AIStatefulTask.cxx:527-568 | A thread inside a call can take its next step, unless the mutex that it wants is taken |
| TaskTheorems.NoDeadlock | README.multiplex:72-79 | While some thread is inside a call, some thread inside a call can take its next step |
| TaskTheorems.HandlerDiscipline | AIStatefulTask.cxx:536-540 | A normal_run pass runs in current_handler, which is not idle then; current_handler is not immediate while mMultiplexMutex is free; and each pass starts in the target handler while there is one |
| TaskTheorems.EngineKeepsTask | AIEngine.cxx:127-138 | While current_handler is an engine, the list of that engine has the task, and has it twice from the moment that mainloop found the task inactive until it erases the element |
| TaskTheorems.EraseFindsElement | AIEngine.cxx:127-138 | mainloop holds the mutex of the engine when it erases, and erases no element that is not there |
| TaskTheorems.WhenLeaked | AIStatefulTask.cxx:748-755 | multiplex() returns with mMultiplexMutex locked only for a killed task, and only if need_run was set when it was killed, or abort() was called after that, or an insert_abort of an earlier life was let in |
| TaskTheorems.LeaksExactlyWhenKilled | AIStatefulTask.cxx:586-597 | A pass leaks the mutex if and only if it starts to run a task in bs_killed, and a schedule_run returns at its test if and only if need_run is not set |
| Examples.LeakedMutex | AIStatefulTask.cxx:748-755 | A run that ends with mMultiplexMutex locked by a thread that left multiplex(): a late signal() meets an abort() of the killed task |
| LateEntries.NeverUnlocked | AIStatefulTask.cxx:586-597 | A schedule_run that is let in for a killed task with the immediate handler never unlocks mMultiplexMutex again if need_run is set, and unlocks it at once if it is not set |
| LateEntries.LockedOrHandedOver | AIStatefulTask.cxx:748-755 | Whatever its handler: a pass that runs a killed task holds mMultiplexMutex for ever, or hands the task over to an engine or to the thread pool |
| LateEntries.NextNormalRunLeaks | AIStatefulTask.cxx:748-755 | In the latter case the next multiplex(normal_run) that is let in for the task never unlocks mMultiplexMutex |
| LateEntries.LateScheduleRun | AIStatefulTask.cxx:561-562 | When the task has left bs_multiplex and was not killed, no step of a schedule_run that was let in calls user code or changes the base state, the handler, the masks, or the list of an engine; it clears need_run at most, ends without a second round, and the task is queued in an engine or the thread pool all the time |
| LateEntries.WhatSetsNeedRun | AIStatefulTask.cxx:1658-1740 | need_run gets set by abort(), by reset(), and by a signal that wakes up the task, and by nothing else |
| LateEntries.WhatSetsNeedRunLate | AIStatefulTask.cxx:545-562 | Outside bs_multiplex a step sets need_run if and only if it is abort() or reset(), unless an insert_abort of an earlier life was let in |
| Examples.LateWakeUp | AIStatefulTask.cxx:561-562 | A run after which multiplex(schedule_run) is about to be let in, and the task is in bs_killed |
| TaskTheorems.InitialRunIsLetIn | AIStatefulTask.cxx:561-572 | multiplex(initial_run) finds bs_reset, a free mMultiplexMutex and an idle handler |
| RunTheorems.LifecycleOrder | AIStatefulTask.cxx:704-756 | Over all interleavings the calls are a sequence of lives, each initialize_impl, multiplex_impl any number of times, abort_impl at most once, finish_impl, callback, and an unfinished life, which is empty when the task is in bs_reset or bs_killed |
| RunTheorems.ProgressIsReplay | AIStatefulTask.cxx:704-756 | The position in the life that the invariant speaks of is the one that the calls so far lead to |
| RunTheorems.KilledIsFinal | AIStatefulTask.cxx:774-856 | After bs_killed the base state never changes and no user code is called |
| RunTheorems.AbortReturnsBehindBarrier | AIStatefulTask.cxx:1733-1740 | A thread that calls abort() for a started task is still inside it or behind the barrier, and is behind it when it returned, as long as no reset() came between |
| RunTheorems.AbortIsBarrier | AIStatefulTask.cxx:674-692 | From then on until the next reset(), no thread is inside initialize_impl or multiplex_impl, and no call of them is made |
| RunTheorems.AbortWithdrawn | AIStatefulTask.cxx:1712-1724 | A step takes the aborted flag down if and only if it is abort() after finish(), or reset() |
| Examples.WithdrawnAbort | AIStatefulTask.cxx:1712-1724 | So an abort can be lost: a run with abort(), finish() and a second abort() in which abort_impl is not called and the callback is told that the task succeeded |
| RunTheorems.AbortTakesEffect | AIStatefulTask.cxx:770-873 | While the flag is up, the next decision of a pass that ran the task, or inserts the abort, leads to bs_killed, bs_abort, or to bs_finish after abort_impl was called |
| RunTheorems.AbortIsServed | AIStatefulTask.cxx:770-873 | If the flag is up in bs_initialize or bs_multiplex, and neither abort() after finish() nor reset() follows, abort_impl is the call before the next finish_impl |
| RunTheorems.CallbackTellsTruth | AIStatefulTask.cxx:1234-1260 | Exactly when the argument of the callback says whether abort_impl was called in this life: if finish_impl called run(), when abort() was called after that if and only if abort_impl was called; otherwise unless abort_impl was called and either finish() had been called before and abort() came after the end, or nobody had called abort() in this life |
| Examples.WrongAnswer | AIStatefulTask.cxx:1712-1724 | A run with abort(), finish(), abort_impl, and a second abort() during that, in which the callback is told that the task succeeded |
| RunTheorems.FullRunAfterWakeUp | AIStatefulTask.cxx:1655-1657 | A waiting task that is woken up is run at least once before it is idle again |
| RunTheorems.StepEffect | AIStatefulTask.cxx:1658-1763 | Which steps can change the life, take down the barrier or the aborted flag, make the task idle, drop the wait condition, or change the base state |
| RunTheorems.WaitUntilWaits | AIStatefulTask.cxx:714-736 | After wait_until installed its condition, neither is the condition dropped nor multiplex_impl called before a pass evaluated the condition and found it true |
| RunTheorems.WaitUntilLosesNothing | AIStatefulTask.cxx:1639-1653 | A task that is idle in wait_until while its condition is true has still a signal to get, if everyone who makes the condition true signals one of its bits after that |
| RunTheorems.OwedSignalWakesUp | AIStatefulTask.cxx:1658-1703 | And each such signal wakes it up |
| Traces.TraceAgrees | AIStatefulTask.cxx:1742-1815 | State, target, default handler, and the flags for yield, finish and abort are functions of the steps taken so far: what the calls of the task and its clients last asked for |
| Outcomes.MultiplexImplGetsLastState | AIStatefulTask.cxx:1369-1396 | In every run, multiplex_impl is called with the state that the task chose last by set_state(), or with 0 before the first one; also after wake-ups, aborts, and in later lives |
| Outcomes.SetStateHolds | AIStatefulTask.cxx:1389 | The same for two steps of a run: a set_state(n) that no other one follows, and a later call of multiplex_impl |
| OutcomeExamples.SecondState | AIStatefulTask.cxx:1389 | A run in which initialize_impl calls set_state(1), and multiplex_impl is called with 1 |
| Outcomes.RunsWhereAsked | AIStatefulTask.cxx:881-888 | User code is called in a handler that was passed to run(), target() or yield() before, and in the last target while there is one |
| Outcomes.RunsInDefault | AIStatefulTask.cxx:1197-1221 | If run(h) was called and no other handler was ever named, all user code is called in h, and the task is in h or idle all the time |
| Outcomes.WakesInDefault | AIStatefulTask.cxx:881-887 | A task without a target that was idle is next run in the handler that was last passed to run() |
| Outcomes.RunsInPlace | AIStatefulTask.cxx:881-920 | A task without a target that does not go idle is next run where it was run before; but where that was the immediate handler, and yield() was called since, in the default handler |
| OutcomeExamples.StartsInEngine | AIStatefulTask.cxx:938-961 | A run in which run(engine) was called: after the first pass the list of the engine has the task once, and no user code was called |
| Outcomes.RoundsEnd | AIStatefulTask.cxx:889-937 | The end of a round of normal_run is the end of the pass if and only if the task need not run, or yield() was called since the last end of a round, or there is a target elsewhere; and yield() always ends it |
| Outcomes.YieldStops | AIStatefulTask.cxx:1765-1805 | No user code is called between yield() and the end of that pass |
| Outcomes.RunsAgain | AIStatefulTask.cxx:837-851 | After the callback the task goes to bs_reset if and only if run() was called since finish_impl was called, and kill() was not called after that; otherwise to bs_killed |
| Outcomes.EndsWhenAsked | AIStatefulTask.cxx:780-836 | After multiplex_impl the task goes to bs_abort, bs_finish or stays, as the last calls of abort(), finish() and run() say; likewise after initialize_impl |
| Outcomes.NormalRunIsLetIn | AIStatefulTask.cxx:536-568 | A thread of the pool, or mainloop() of an engine, that calls multiplex(normal_run) is let in if and only if the task is in that handler and nobody runs it then |
| Outcomes.SignalIsDelivered | AIStatefulTask.cxx:1658-1703 | A signal from outside leads its thread to multiplex(schedule_run) if and only if it wakes up the task, and is let in there if and only if nobody runs the task |
| Outcomes.RoundsStart | AIStatefulTask.cxx:674-736 | What each round calls: multiplex_impl with the last state, unless an abort() stands, or wait_until() was called and its condition was not found true since, which is tested then; and likewise for the other states |
| Outcomes.DestroyedAfterCallback | AIStatefulTask.cxx:844-851 | The pass drops its reference to the task if and only if it killed the task after the callback |
| Outcomes.NeedRunExactly | AIStatefulTask.cxx:1094-1100 | In every run, need_run is set exactly if abort(), run() or a signal that woke up the task came, and no begin_loop and no wait that made the task idle since |
| ThreadTraces.AbortInserts | AIStatefulTask.cxx:1726-1740 | abort() calls multiplex(insert_abort) if and only if the task waited in bs_multiplex, and that is let in only in bs_multiplex; otherwise it goes on to wait for mRunMutex |
| ThreadTraces.StepsInOrder | AIStatefulTask.cxx:609-768 | The steps of each thread come in the order of the program, whatever other threads do in between: what each call of the task and of its clients does next |
| ThreadTraces.ListIsExact | AIEngine.cxx:125-138 | In every run, the list of an engine has the task as often as the task was moved to that engine, less the elements that mainloop() ended after it had seen that the task was not in that engine any more |
| Conditions.PendingExactly | AIStatefulTask.cxx:1539-1560 | In every run, a condition is pending exactly if a signal carried it when the task did not wait for it, and neither a wait for it nor reset() came since |
| Conditions.WaitsUntilSignalled | AIStatefulTask.cxx:1522-1595 | In every run, after wait(c) or wait_until(c) the task is idle for c until a signal carries a condition of c, and is not idle at all if one was pending or an abort stood; as long as no abort(), run(), finish() or end of the wait condition comes |
| Reachability.StepKept | AIStatefulTask.cxx:496-1008 | The inductive invariant (module Invariants) is kept by every step of every thread |
| Reachability.ReachableInv | AIStatefulTask.cxx:545-606 | It holds in every reachable state |
| StatefulTasks.StatefulTask.Multiplex | AIStatefulTask.cxx:496-614 | multiplex() as code: for any schedule of other threads and user code, the fields are what the step system leads to in the turns that were taken, no turn is wasted, and when it returns the thread is where its caller goes on; it ends without returning only when the schedule does |
| StatefulTasks.StatefulTask.TryEnter | AIStatefulTask.cxx:529-584 | The three ways to leave at once, or try_lock and the copies of the state, with the same promise |
| StatefulTasks.StatefulTask.Check | AIStatefulTask.cxx:586-597 | A schedule_run leaves if and only if need_run is not set, and unlocks both mutexes then |
| StatefulTasks.StatefulTask.Begin | AIStatefulTask.cxx:599-606 | begin_loop at the start, which ends the section of mState |
| StatefulTasks.StatefulTask.Loop | AIStatefulTask.cxx:609-1002 | The do-while loop, with the same promise: rounds, until a round ends without keep_looping |
| StatefulTasks.StatefulTask.RunOnce | AIStatefulTask.cxx:618-758 | One round under mRunMutex, with the same promise; it leaves the function exactly for bs_killed |
| StatefulTasks.StatefulTask.TestAbort | AIStatefulTask.cxx:674-692 | The test for a late abort and the state that is run after it |
| StatefulTasks.StatefulTask.RunState | AIStatefulTask.cxx:704-756 | The switch, with the same promise: which function is called, and with which argument |
| StatefulTasks.StatefulTask.CallImpl | AIStatefulTask.cxx:708-746 | Any user code, with the same promise: it makes the calls that the schedule has for it as far as they are legal, until it returns |
| StatefulTasks.StatefulTask.Prepare | AIStatefulTask.cxx:740-746 | reset is cleared before finish_impl; the argument of the callback is the negation of aborted |
| StatefulTasks.StatefulTask.EvaluateCondition | AIStatefulTask.cxx:726-736 | The wait condition is evaluated under mState, and dropped if and only if it is true |
| StatefulTasks.StatefulTask.FinishEvaluation | AIStatefulTask.cxx:727-732 | Then the task waits again, or idle becomes 0 |
| StatefulTasks.StatefulTask.LeaveKilled | AIStatefulTask.cxx:748-755 | The return from bs_killed unlocks mRunMutex, and leaves mMultiplexMutex as it is |
| StatefulTasks.StatefulTask.Decide | AIStatefulTask.cxx:767-873 | The new base state, need_new_run and destruct as a function of event, state and sub-state |
| StatefulTasks.StatefulTask.Close | AIStatefulTask.cxx:881-1001 | Whether to start a new round or to end the pass, and in which handler, with the same promise |
| StatefulTasks.StatefulTask.StartRound | AIStatefulTask.cxx:922-937 | A new round is the closing step of the system, with the locals that it copies |
| StatefulTasks.StatefulTask.Leave | AIStatefulTask.cxx:938-1001 | So is the end of the pass; mMultiplexMutex is free after it |
| StatefulTasks.StatefulTask.GoTo | AIStatefulTask.cxx:942-961 | The task is added to the list of an engine if and only if that engine was not its handler before, and the mutex of the engine is released |
| StatefulTasks.StatefulTask.WaitSection | AIStatefulTask.cxx:1539-1588 | The critical section of wait() in place |
| StatefulTasks.StatefulTask.WaitAndSection | AIStatefulTask.cxx:1614-1628 | The critical section of wait_AND() in place |
| StatefulTasks.StatefulTask.SignalSection | AIStatefulTask.cxx:1663-1693 | The critical section of signal() in place, and whether it woke up the task |
| StatefulTasks.StatefulTask.AbortSection | AIStatefulTask.cxx:1709-1725 | The critical section of abort() in place, and whether the task was waiting |
| StatefulTasks.StatefulTask.Wait | AIStatefulTask.cxx:1522-1595 | wait(), called by the task, is the user step of the system |
| StatefulTasks.StatefulTask.WaitUntil | AIStatefulTask.cxx:1642-1653 | wait_until() with a false condition: it installs the condition under mState, and waits, with the same promise as multiplex() |
| StatefulTasks.StatefulTask.WantInstallation | AIStatefulTask.cxx:1644 | wait_until() returns to the task at once if and only if its condition is true |
| StatefulTasks.StatefulTask.Finish | AIStatefulTask.cxx:1742-1763 | finish() |
| StatefulTasks.StatefulTask.SetFields | AIStatefulTask.cxx:1765-1805 | set_state(), yield(), target(), signal() and kill(), called by the task |
| StatefulTasks.StatefulTask.RunAgain | AIStatefulTask.cxx:1333-1361 | reset(), called from finish_impl or the callback, with the same promise |
| StatefulTasks.StatefulTask.Run | AIStatefulTask.cxx:1197-1232 | The first run(): reset() and multiplex(initial_run), turn by turn as the step system does it |
| StatefulTasks.StatefulTask.Signal | AIStatefulTask.cxx:1658-1703 | signal() from outside: the step of the signal, and if it wakes up the task multiplex(schedule_run), turn by turn as the step system does it |
| StatefulTasks.StatefulTask.RunInHandler | AIEngine.cxx:111-119 | A call of multiplex(normal_run) from a handler, turn by turn as the step system does it |
| StatefulTasks.StatefulTask.Abort | AIStatefulTask.cxx:1705-1740 | abort() from outside, turn by turn as the step system does it; when it returns in the life of a started task in which it was called, the barrier is up and no thread is inside initialize_impl or multiplex_impl |
| StatefulTasks.StatefulTask.RunElement | AIEngine.cxx:102-138 | What mainloop does with an element of its list, turn by turn as the step system does it |
| StatefulTasks.StatefulTask.LeaveEngine | AIEngine.cxx:129-138 | An element that is erased is there; it is erased if and only if the task was not active |
| TaskMutex.StepKept | AIStatefulTaskMutex.h:97-201 | The inductive invariant of the queue is kept by every access to shared memory of every client |
| TaskMutex.FirstInFirstOut | AIStatefulTaskMutex.h:97-157 | The nodes that were popped are the first ones that were exchanged with m_head, in that order, and the front node is the next one |
| TaskMutex.TrueMeansFront | AIStatefulTaskMutex.h:101-156 | push() returns True if and only if its node is the front one when it loads m_tail; the node stays in front until its own client pops it |
| TaskMutex.NoLostHandOff | AIStatefulTaskMutex.cxx:46-60 | The client of the front node owns the mutex, or push() is about to tell it so, or its node was signalled while it was the front one, or the client that unlocked last has still to find this node; a signal that came before that does not count |
| TaskMutex.PeekFindsFront | AIStatefulTaskMutex.h:168-193 | Each step of that client leads nearer to a signal of the node while it is the front one, except that it spins while the node is not linked |
| TaskMutex.OneOwner | AIStatefulTaskMutex.h:97-201 | At most one client owns the mutex |
| TaskMutex.IsFrontMeansFront | AIStatefulTaskMutex.h:197-201 | is_front() returns True if and only if the node is the front one |
| TaskMutexExamples.EarlySignal | AIStatefulTaskMutex.cxx:50-59 | A run in which unlock() signals a client whose node is not the front one: being woken up is no proof of ownership |
| TaskMutexExamples.LateSignal | AIStatefulTaskMutex.cxx:43-59 | A run after which unlock() is about to signal a client whose node was popped, and deallocated, by another unlock() since peek() returned it |
| TaskMutex.PeekIsExact | AIStatefulTaskMutex.h:168-193 | The node that peek() returns is the front one if it is the tail; behind the stub, if and only if the stub or the node itself is the tail when the link is read |
| TaskMutex.NotifyIsExact | AIStatefulTaskMutex.cxx:50-59 | When unlock() sends the signal, the node is the front one if and only if is_front() would return True for it at that moment, and it is still in the queue if and only if it was not popped since |
| TaskMutex.SignalsTheFront | AIStatefulTaskMutex.cxx:50-59 | If no other client is inside pop() from the start of peek() to the signal, the node that is signalled is the front one |
| TaskMutexQueues.Queue.Push | AIStatefulTaskMutex.h:97-157 | push() as code, turn by turn as the step system does it: True means that the client owns the mutex |
| TaskMutexQueues.Queue.Peek | AIStatefulTaskMutex.h:168-193 | peek() as code, with its spin loop, turn by turn as the step system does it |
| TaskMutexQueues.Queue.Pop | AIStatefulTaskMutex.cxx:36-38 | pop() as code, turn by turn as the step system does it: the node of its own client, or nothing after at least one turn |
| TaskMutexQueues.Queue.Lock | AIStatefulTaskMutex.h:309-329 | lock(), turn by turn as the step system does it: a handle is the front node; without one the client waits |
| TaskMutexQueues.Queue.Unlock | AIStatefulTaskMutex.cxx:32-60 | unlock(), turn by turn as the step system does it: the node of the client was popped when it returns |
| Engines.Engine.Add | AIEngine.cxx:44-54 | add() appends one element and wakes up an engine that waits |
| Engines.Engine.WakeUp | AIEngine.cxx:186-194 | wake_up() |
| Engines.Engine.Mainloop | AIEngine.cxx:67-161 | mainloop(): started on a list that is not empty it does all that Walk says, so it returns WasFalse if and only if the list is empty in its last critical section; on an empty list it returns WasFalse, or sleeps until something is added; mSleep and mDuration of each task, and whether each visit ran its task, are as Walk says |
| Engines.Engine.Walk | AIEngine.cxx:96-160 | It visits a prefix of the elements that were there or were added, each once and in order; it erases just those whose task was not active any more, so the elements of each task are conserved; it stops at the end, or at the first visit after which its time is over, and then sorts what is left; it sorts if and only if its time is over and more than two elements are left; which visits run their task, and mSleep and mDuration of every task afterwards, follow from those before and from the times of the visits |
| Engines.NothingLost | AIEngine.cxx:127-138 | A task has as many elements after mainloop() as it had or was given, minus one for each visit after which it was not active |
| Engines.SortSorts | AIEngine.cxx:147-151 | The sort by duration permutes the list, and orders it |
| Engines.RunsAtNthVisit | AIStatefulTask.h:825-834 | A task that called yield_frame(n) is not run at its first n-1 visits, and is run at the n-th, in the same call of mainloop() or in later ones |
| Engines.RunsInTime | AIStatefulTask.h:825-834 | A task that called yield_ms() is run at its first visit at which its time has come or no other task is left, and not before |
| Engines.DurationIsSpent | AIStatefulTask.h:836 | The duration by which tasks are sorted grows by the time of each visit, as long as run() is not called |
| Engines.AfterAppend | AIEngine.cxx:98-160 | What the visits of two calls of mainloop() make of a task is what those of the second make of what those of the first did |
| ResourcePools.ResourcePool.Acquire | ResourcePool.h:140-181 | Returns min(size, free + room) resources, the oldest free ones first and then new ones; they are distinct and not in use; free and outstanding resources together are those that are allocated |
| ResourcePools.ResourcePool.Release | ResourcePool.h:184-234 | Resources above the limit are freed, the others put at the end of the free list; the requests that are notified are the longest prefix whose needs sum up to at most what is available, each once and in order; that is what can be acquired, unless it does not fit into size_t or the pool is above its limit, where the exact number is given |
| ResourcePools.HandedOut | ResourcePool.h:140-181 | Conservation when resources are handed out |
| ResourcePools.HandedBack | ResourcePool.h:184-213 | Conservation when resources come back |
| ResourcePools.GreedyIsLongest | ResourcePool.h:219-228 | The greedy loop finds the longest prefix that can be served |
| ResourcePools.AllAreServed | ResourcePool.h:140-181 | When the notified tasks call acquire() for what they asked for, in order, each gets all of it; and the next one would not |
| ResourcePools.EachIsServed | ResourcePool.h:219-228 | Each notified task finds what it asked for, when those before it took theirs |
| ResourcePools.NegativeBlocks | ResourcePool.h:222-224 | A request for a negative number is never served, because of the conversion to size_t, and blocks all later ones |
| ResourcePools.AvailableIsExact | ResourcePool.h:218 | The number of available resources, in size_t, is what can be acquired if and only if the pool is not above its limit; otherwise it is less, or wraps around |
| TaskEvents.AtMostOnce | TaskEvent.h:55-95 | No registration is signalled before the event was triggered, or twice |
| TaskEvents.ExactlyOnce | TaskEvent.h:55-95 | When all calls of register_task() and trigger() returned, each registration was signalled exactly once |
| TaskEvents.NoneForgotten | TaskEvent.h:64-80 | Once trigger() took the list, a registration that was not signalled is in the hands of some thread, or will be taken by the holder of the lock |
| TaskEventObjects.TaskEvent.RegisterTask | TaskEvent.h:55-82 | register_task() as code, turn by turn as the step system does it |
| TaskEventObjects.TaskEvent.Trigger | TaskEvent.h:86-95 | trigger() as code, turn by turn as the step system does it |
| TaskCounterGates.NoLostNotify | TaskCounterGate.cxx:7-14 | While a waiter sleeps, or is about to, and the counter is 0, some task has still to lock the mutex or to notify, and its notify wakes up the sleeping waiter |
| TaskCounterGates.WaitIsSafe | TaskCounterGate.cxx:16-37 | When the last test of wait() or wait_for() finds the counter 0, it returns true; a task runs later if and only if some task is inside increment() at that moment, between its test and its addition |
| TaskCounterGates.ZeroIsFinal | TaskCounterGate.h:37-42 | Whenever the counter is 0 after the magic bit was cleared no task runs, and none ever will if and only if no task is between the test and the addition of increment() |
| TaskCounterGates.FalseMeansTimeout | TaskCounterGate.cxx:28-37 | In every run, wait_for() returns false only after its time was over; so wait(), which has no time limit, returns only true |
| TaskCounterGates.AnswersTest | TaskCounterGate.cxx:25-36 | Both return whether the counter was 0 at the last test |
| TaskCounterGates.ReturnsAfterTimeout | TaskCounterGate.cxx:36 | Once its time is over, wait_for() does not sleep again, and returns in its second step from then |
| TaskCounterGates.TestsAfterWakeUp | TaskCounterGate.cxx:25 | After any other wake-up the counter is tested in the second step: it returns true if it is 0 then, and otherwise sleeps again |
| TaskCounterGates.TimesOut | TaskCounterGate.cxx:28-37 | A run in which wait_for() returns false while a task runs |
| TaskCounterGates.LateIncrement | TaskCounterGate.h:52-62 | Such a run: a task starts to run after wait() returned |
| TaskCounterGates.CounterCounts | TaskCounterGate.h:34-42 | With fewer than 0x10000 tasks the low bits of the counter are the number of running tasks, the magic bit says that nobody waits, and the counter never wraps around |
| TaskCounterGates.OnlyWaitingMatters | TaskCounterGate.h:64-72 | While nobody waits no task is refused, and none calls wakeup() |
| TaskCounterGateObjects.TaskCounterGate.Wait | TaskCounterGate.cxx:16-37 | wait() and wait_for() as code, turn by turn as the step system does it: true means that no task runs, and that none ever will if and only if no task is between the test and the addition of increment(); it returns whether the counter is 0, and false only if its time was over in one of the turns |
| TaskCounterGateObjects.TaskCounterGate.Increment | TaskCounterGate.h:52-62 | increment() as code, turn by turn as the step system does it: it throws, or the task runs |
| TaskCounterGateObjects.TaskCounterGate.Decrement | TaskCounterGate.h:65-72 | decrement() and wakeup() as code, turn by turn as the step system does it |
| Brokers.StepKept | Broker.h:141-213 | The inductive invariant of the broker is kept by every step of callers, tasks and broker |
| Brokers.OneTaskPerKey | Broker.h:153-190 | Two callers get the same task if and only if they asked for the same key |
| Brokers.RunsEachTaskOnce | Broker.h:258-266 | The broker runs each task at most once |
| Brokers.CallbackAtMostOnce | Broker.h:268-283 | A callback is called at most once, not before its task finished, and is told whether the task was not aborted |
| BrokerTraces.CalledInOrder | Broker.h:272-281 | In every run, the callbacks of a key are called in the order in which they were queued, and those that were not called yet are in the queue of its entry, in that order |
| BrokerTraces.SleepsUnlessSignalled | Broker.h:235-287 | When the broker calls wait(1) it goes idle, unless it was signalled while it was busy since its last wait(1); then it runs again |
| Brokers.NothingLeftWhenIdle | Broker.h:232-289 | When the broker is idle and no caller is inside run(), every task was run, and for each task that ended no callback is left, and each was called exactly once |
| BrokerObjects.TaskBroker.Run | Broker.h:141-213 | run(key, callback) as code, with its retry loop, turn by turn as the step system does it: it returns the task of the entry of its key |
| BrokerObjects.TaskBroker.Insert | Broker.h:165-171 | The key is new when the write lock was obtained, and the entry is created with the callback in its queue |
| BrokerObjects.TaskBroker.DoWork | Broker.h:242-288 | Broker_do_work as code, turn by turn as the step system does it: when it returns, the task of every entry that was there was run, and where the task had finished, the entry says so and all callbacks that were queued were called |
| BrokerObjects.TaskBroker.StartOrFinish | Broker.h:253-271 | A task is run if it was not; an entry counts as finished if and only if its task was run and finished, with success unless it was aborted |
| BrokerObjects.TaskBroker.CallCallbacks | Broker.h:275-282 | The queue of the entry is empty when the loop ends, and no callback is dropped |

## Left out

- wait_AND in the step system: it is in the algebra of the masks only; unlike wait() it does not settle need_run against
  idle.
- A wait condition that outlives its life: reset() does not clear it, and the step system keeps it as the code does; the
  theorems about wait_until speak of the time while the condition is installed.
- One wait condition: all calls of wait_until of a task share one predicate and one set of conditions in the model.
- StatefulTasks.StatefulTask.Signal: a thread that left multiplex() with mMultiplexMutex locked still tries to enter, and
  is turned away, where the program notices that it owns the mutex; the outcome is the same.
- What abort() before the first run() is good for: it can happen in the model, but the theorems about aborts speak of started
  tasks. What two tasks that abort each other do.
- The thread pool, its queues and their capacity, and on which of its threads a task runs: a queue is an environment that
  calls multiplex(normal_run, handler) at any time.
- TaskTheorems.NoDeadlock: is about one task and its engines, not about deadlocks between tasks.
- TaskTheorems.LockOrder: mSubState has no place in the order, because no step of the model locks anything while it is held.
- Reference counts, force_killed() and AIEngine::flush(), logging, the debug fields and their assertions, Tracy fibers.
- Parents: the signal to the parent of a task that ended appears in the broker only, its abort nowhere.
- yield_ms and yield_frame: the value that a task gives to mSleep during a visit is an input of mainloop(), and so are the
  clock, the time that a visit takes, and whether run() was called. What happens to mSleep and mDuration of a task between two
  calls of mainloop(), in other handlers, is not modelled.
- Engines: which elements a task has is a matter of identity there; whether a task is still active is an input of mainloop(),
  and the step system says when it is.
- ResourcePool::subscribe: its scan never advances the iterator; the list of requests is taken as given. m_acquires is not
  used by the program.
- TaskMutex.OneOwner: assumes that unlock() is called by the client of the front node, after its push() returned True or its
  node was signalled. Memory of nodes is not modelled: a node is never reused for another one, and a signal through a
  deallocated node reaches the client that pushed it.
- Broker: tasks that never call finish(), termination of the broker, and the order of BrokerKey::initialize and the run of the
  task; the push of a callback to its queue is one step; run() without arguments precedes all calls of run(key, callback).
- RunningTasksTracker, AITimer, AIDelayedFunction, AIPackagedTask, DefaultMemoryPagePool, and memory allocators.
- Weak memory orderings.
- TaskEvent: the order in which the tasks of one event are signalled.
- Termination of calls that spin or block: the methods that model them end early when their schedule is used up.
