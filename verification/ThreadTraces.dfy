/** What one thread does in a run of a task: the order of its steps, and what mainloop() does with the list of an
    engine. */
module ThreadTraces {
  import opened TaskTypes
  import opened Protocol
  import opened Invariants
  import opened Moves
  import opened Traces
  import opened Outcomes

  // ---- The order of the steps ----

  /** The next step b of a thread after its step a, as the program has it: the calls of user code and of clients, and
      what they do under which mutex; the condition of wait_until() holds or not at a. */
  predicate Follows(a: Action, holds: bool, b: Action) {
    match a
    case CallRun(_) => b == ReadState
    case ReadState => b == ResetOutside
    case ResetOutside => b == Enter
    case CallAbort => b == AbortSection
    case SetPredicate(value) => value ==> b.PaySignal?
    case TestActive => b == TakeEngine
    case TakeEngine => b == LeaveEngine
    case LockRun => b == TestAbort
    case Prepare => b.User?
    case User(c) => FollowsCall(c, holds, b)
    case AbortSelf => b.User?
    case ReadStateInside => b == ResetInside
    case ResetInside => b.User?
    case Install => b == UntilWaitSection
    case UntilWaitSection => b == UnlockRun
    case Evaluate => b == if holds then WakeUp else WaitAgainSection
    case WaitAgainSection => b == UnlockRun
    case WakeUp => b == UnlockRun
    case UnlockRun => b == LockState
    case LockState => b == Decide
    case Decide => b == LockEngine || b == Close
    case _ => true
  }

  predicate FollowsCall(c: UserCall, holds: bool, b: Action) {
    match c
    case CallWait(_) => b == UnlockRun
    case CallWaitUntil => if holds then b.User? else b == Install
    case CallFinish => b == UnlockRun
    case SelfAbort => b == AbortSelf
    case Rerun(_) => b == ReadStateInside
    case ReturnFromImpl => b == UnlockRun
    case _ => b.User?
  }

  /** Where a thread is. */
  datatype Place = Away(ts: ThreadState) | Within(phase: Phase)

  function PlaceOf(s: State, t: Tid): Place
    requires IsThread(s, t)
  {
    if InPass(s, t) then Within(s.pass.phase) else Away(s.threads[t])
  }

  /** Where a thread is after its step a. */
  predicate LeadsTo(a: Action, holds: bool, p: Place) {
    match a
    case CallRun(_) => p == Away(WantRead)
    case ReadState => p == Away(WantReset)
    case ResetOutside => p == Away(Entering(InitialRun, Idle, Return))
    case CallAbort => p == Away(WantAbort)
    case SetPredicate(value) => value ==> p == Away(OwesSignal)
    case TestActive => p.Away? && p.ts.WantEngine?
    case TakeEngine => p.Away? && p.ts.InEngine?
    case LockRun => p == Within(TestingAbort)
    case Prepare => p == Within(Running(InUser))
    case User(c) => CallLeadsTo(c, holds, p)
    case AbortSelf => p == Within(Running(InUser))
    case ReadStateInside => p == Within(Running(Resetting))
    case ResetInside => p == Within(Running(InUser))
    case Install => p == Within(Running(UntilWait))
    case UntilWaitSection => p == Within(Running(Returning))
    case Evaluate => p == Within(Running(if holds then Waking else WaitAgain))
    case WaitAgainSection => p == Within(Running(Returning))
    case WakeUp => p == Within(Running(Returning))
    case UnlockRun => p == Within(WantState)
    case LockState => p == Within(Deciding)
    case Decide => p.Within? && p.phase.Closing?
    case _ => true
  }

  predicate CallLeadsTo(c: UserCall, holds: bool, p: Place) {
    match c
    case CallWait(_) => p == Within(Running(Returning))
    case CallWaitUntil => p == Within(Running(if holds then InUser else WantInstall))
    case CallFinish => p == Within(Running(Returning))
    case SelfAbort => p == Within(Running(WantSelfAbort))
    case Rerun(_) => p == Within(Running(WantReadState))
    case ReturnFromImpl => p == Within(Running(Returning))
    case _ => p == Within(Running(InUser))
  }

  lemma StepLeadsTo(s: State, t: Tid, a: Action)
    requires Can(s, t, a)
    ensures IsThread(Step(s, t, a), t) && LeadsTo(a, s.holds, PlaceOf(Step(s, t, a), t))
  {
    if CanCall(s, t, a) {
      OutsideLeadsTo(s, t, a);
    } else if CanThread(s, t, a) {
      OutsideLeadsTo(s, t, a);
    } else {
      InsideLeadsTo(s, t, a);
    }
  }

  lemma OutsideLeadsTo(s: State, t: Tid, a: Action)
    requires CanCall(s, t, a) || CanThread(s, t, a)
    ensures IsThread(Step(s, t, a), t) && LeadsTo(a, s.holds, PlaceOf(Step(s, t, a), t))
  {
  }

  lemma InsideLeadsTo(s: State, t: Tid, a: Action)
    requires CanPass(s, t, a)
    ensures IsThread(PassStep(s, t, a), t) && LeadsTo(a, s.holds, PlaceOf(PassStep(s, t, a), t))
  {
    if a.User? {
      UserLeadsTo(s, t, a.call);
    } else if OfWaitCondition(a) {
      ConditionLeadsTo(s, t, a);
    } else if IsLocking(a) {
      LockingLeadsTo(s, t, a);
    } else if a.AbortSelf? || a.ResetInside? || a.Prepare? {
      FlagsLeadTo(s, t, a);
    } else {
      OthersLeadTo(s, t, a);
    }
  }

  lemma UserLeadsTo(s: State, t: Tid, c: UserCall)
    requires CanPass(s, t, User(c))
    ensures IsThread(UserStep(s, c), t) && CallLeadsTo(c, s.holds, PlaceOf(UserStep(s, c), t))
  {
  }

  lemma ConditionLeadsTo(s: State, t: Tid, a: Action)
    requires CanPass(s, t, a) && OfWaitCondition(a)
    ensures IsThread(PassStep(s, t, a), t) && LeadsTo(a, s.holds, PlaceOf(PassStep(s, t, a), t))
  {
    hide SubStates.Wait;
  }

  lemma LockingLeadsTo(s: State, t: Tid, a: Action)
    requires CanPass(s, t, a) && IsLocking(a)
    ensures IsThread(PassStep(s, t, a), t) && LeadsTo(a, s.holds, PlaceOf(PassStep(s, t, a), t))
  {
  }

  lemma FlagsLeadTo(s: State, t: Tid, a: Action)
    requires CanPass(s, t, a) && (a.AbortSelf? || a.ResetInside? || a.Prepare?)
    ensures IsThread(PassStep(s, t, a), t) && LeadsTo(a, s.holds, PlaceOf(PassStep(s, t, a), t))
  {
  }

  lemma OthersLeadTo(s: State, t: Tid, a: Action)
    requires CanPass(s, t, a) && (a.Check? || a.Begin? || a.TestAbort? || a.Decide? || a.Close?)
    ensures IsThread(PassStep(s, t, a), t) && LeadsTo(a, s.holds, PlaceOf(PassStep(s, t, a), t))
  {
    PassMoves(s, t, a);
    if a.Decide? {
      DecideLeadsTo(s, t);
    }
    hide PassStep, CanPass;
  }

  lemma DecideLeadsTo(s: State, t: Tid)
    requires CanPass(s, t, Decide)
    ensures InPass(DecideStep(s, t), t) && DecideStep(s, t).pass.phase.Closing?
  {
    hide Decision;
  }

  lemma NextFollows(s: State, t: Tid, a: Action, holds: bool, b: Action)
    requires Can(s, t, b) && LeadsTo(a, holds, PlaceOf(s, t))
    ensures Follows(a, holds, b)
  {
    if CanPass(s, t, b) {
      NextFollowsInside(s, t, a, holds, b);
    } else {
      hide CanPass;
    }
  }

  lemma NextFollowsInside(s: State, t: Tid, a: Action, holds: bool, b: Action)
    requires CanPass(s, t, b) && LeadsTo(a, holds, PlaceOf(s, t))
    ensures Follows(a, holds, b)
  {
  }

  lemma PlaceStays(s: State, u: Tid, a: Action, t: Tid)
    requires Inv(s) && Can(s, u, a) && t != u && IsThread(s, t)
    ensures IsThread(Step(s, u, a), t) && PlaceOf(Step(s, u, a), t) == PlaceOf(s, t)
  {
    OthersLeaveThread(s, u, a, t);
    InsideMeansPass(s, t);
    if InPass(s, t) {
      OthersLeavePass(s, u, a, t);
    }
    hide Inv, Can, Step;
  }

  lemma OthersLeavePass(s: State, u: Tid, a: Action, t: Tid)
    requires Can(s, u, a) && t != u && InPass(s, t)
    ensures Step(s, u, a).pass == s.pass && Step(s, u, a).multiplexMutex == s.multiplexMutex
  {
    hide DoCall, ThreadStep, PassStep;
    if CanCall(s, u, a) {
      CallAside(s, u, a);
    } else if a.TakeEngine? || a.LeaveEngine? {
      ElementLeavesPass(s, u, a);
    } else {
      ThreadAside(s, u, a);
    }
  }

  lemma ElementLeavesPass(s: State, u: Tid, a: Action)
    requires CanThread(s, u, a) && (a.TakeEngine? || a.LeaveEngine?)
    ensures ThreadStep(s, u, a).pass == s.pass && ThreadStep(s, u, a).multiplexMutex == s.multiplexMutex
  {
  }

  lemma InsideMeansPass(s: State, t: Tid)
    requires Inv(s) && IsThread(s, t)
    ensures s.threads[t] == Inside ==> InPass(s, t)
  {
  }

  lemma {:induction false} StaysInPlace(run: seq<State>, acts: seq<Act>, i: nat, j: nat, t: Tid)
    requires IsTrace(run, acts) && i < j <= |acts| && Pauses(acts, i, j, t) && IsThread(run[i + 1], t)
    ensures IsThread(run[j], t) && PlaceOf(run[j], t) == PlaceOf(run[i + 1], t)
    decreases j
  {
    hide Can, Step, Inv, PlaceOf;
    if i + 1 < j {
      StaysInPlace(run, acts, i, j - 1, t);
      StepOfTrace(run, acts, j - 1);
      PlaceStays(run[j - 1], acts[j - 1].thread, acts[j - 1].action, t);
    }
  }

  /** Each call takes its steps in the order of the program, whatever other threads do in between. */
  lemma StepsInOrder(run: seq<State>, acts: seq<Act>, i: nat, j: nat)
    requires IsTrace(run, acts) && i < j < |acts|
    requires acts[j].thread == acts[i].thread && Pauses(acts, i, j, acts[i].thread)
    ensures Follows(acts[i].action, PredicateHolds(acts[..i]), acts[j].action)
  {
    hide Can, Step, Inv, PlaceOf, LeadsTo, Follows;
    var t := acts[i].thread;
    StepOfTrace(run, acts, i);
    StepOfTrace(run, acts, j);
    StepLeadsTo(run[i], t, acts[i].action);
    StaysInPlace(run, acts, i, j, t);
    NextFollows(run[j], t, acts[i].action, run[i].holds, acts[j].action);
  }

  /** abort() calls multiplex(insert_abort) if and only if the task waits; otherwise it just waits for mRunMutex. */
  lemma AbortInserts(run: seq<State>, acts: seq<Act>, i: nat, j: nat)
    requires IsTrace(run, acts) && i < j < |acts| && acts[i].action == AbortSection
    requires acts[j].thread == acts[i].thread && Pauses(acts, i, j, acts[i].thread)
    ensures |run| == |acts| + 1
    ensures acts[j].action ==
      if run[i].mux.baseState == Multiplex && run[i].sub.idle != {} then Enter else JoinRun
    ensures acts[j].action == Enter && InPass(run[j + 1], acts[j].thread) ==>
      run[j].mux.baseState == Multiplex && run[j + 1].pass.frame.event == InsertAbort
  {
    hide Can, Step, Inv, IsTrace;
    var t := acts[i].thread;
    StepOfTrace(run, acts, i);
    StepOfTrace(run, acts, j);
    AbortLeadsTo(run[i], t);
    StaysThere(run, acts, i, j, t);
    LeavesAbort(run[j], t, acts[j].action);
  }

  lemma AbortLeadsTo(s: State, t: Tid)
    requires Can(s, t, AbortSection)
    ensures var s' := Step(s, t, AbortSection);
      && IsThread(s', t)
      && if s.mux.baseState == Multiplex && s.sub.idle != {} then
           s'.threads[t].Entering? && s'.threads[t].event == InsertAbort
         else s'.threads[t].WantJoin?
  {
    assert CanThread(s, t, AbortSection);
  }

  lemma LeavesAbort(s: State, t: Tid, a: Action)
    requires Inv(s) && Can(s, t, a) && IsThread(s, t)
    ensures s.threads[t].WantJoin? ==> a == JoinRun
    ensures s.threads[t].Entering? && s.threads[t].event == InsertAbort ==>
      a == Enter && (InPass(Step(s, t, a), t) ==>
        s.mux.baseState == Multiplex && Step(s, t, a).pass.frame.event == InsertAbort)
  {
    if s.threads[t].Entering? {
      Enters(s, Act(t, a));
      hide Inv;
      assert Step(s, t, Enter) == EnterStep(s, t);
    } else {
      hide Inv;
    }
  }

  // ---- The list of an engine ----

  /** The engine whose mainloop() a thread called last. */
  function LastEngine(acts: seq<Act>, t: Tid): Option<EngineId> {
    if acts == [] then None
    else if acts[|acts| - 1].thread == t && acts[|acts| - 1].action.CallMainloop? then
      Some(acts[|acts| - 1].action.engine)
    else LastEngine(acts[..|acts| - 1], t)
  }

  /** When that thread last asked whether the task was active in the engine, it was not. */
  predicate SawInactive(run: seq<State>, acts: seq<Act>, n: nat, t: Tid)
    requires n <= |acts| && |run| == |acts| + 1
  {
    n > 0 &&
    if acts[n - 1] == Act(t, TestActive) then
      LastEngine(acts[..n - 1], t).Some? && run[n - 1].mux.currentHandler != Engine(LastEngine(acts[..n - 1], t).value)
    else
      SawInactive(run, acts, n - 1, t)
  }

  /** In step number k the task moves to engine e. */
  predicate MovesTo(run: seq<State>, k: nat, e: EngineId)
    requires k + 1 < |run|
  {
    run[k].mux.currentHandler != Engine(e) && run[k + 1].mux.currentHandler == Engine(e)
  }

  /** In step number k the mainloop() of e ends its work on an element after it saw that the task was not active. */
  predicate DropsFrom(run: seq<State>, acts: seq<Act>, k: nat, e: EngineId)
    requires k < |acts| && |run| == |acts| + 1
  {
    var t := acts[k].thread;
    acts[k].action == LeaveEngine && LastEngine(acts[..k], t) == Some(e) && SawInactive(run, acts, k, t)
  }

  function Balance(run: seq<State>, acts: seq<Act>, n: nat, e: EngineId): int
    requires n <= |acts| && |run| == |acts| + 1
  {
    if n == 0 then 0
    else
      Balance(run, acts, n - 1, e)
      + (if MovesTo(run, n - 1, e) then 1 else 0) - (if DropsFrom(run, acts, n - 1, e) then 1 else 0)
  }

  /** The engine whose mainloop() the thread executes. */
  function Serves(s: State, t: Tid): Option<EngineId>
    requires IsThread(s, t)
  {
    LoopOf(s.threads[t], if InPass(s, t) then s.pass.frame.after else Return)
  }

  predicate IsErasing(ts: ThreadState) {
    ts.WantEngine? || ts.InEngine?
  }

  /** What a step of a thread means for the element that it processes. */
  predicate MovesElement(s: State, t: Tid, a: Action, s': State)
    requires IsThread(s, t) && IsThread(s', t)
  {
    && (Serves(s', t).Some? ==> Serves(s', t) == if a.CallMainloop? then Some(a.engine) else Serves(s, t))
    && (IsErasing(s'.threads[t]) ==>
          if a.TestActive? then
            Serves(s, t).Some? && s'.threads[t].erase == (s.mux.currentHandler != Engine(Serves(s, t).value))
          else IsErasing(s.threads[t]) && s'.threads[t].erase == s.threads[t].erase)
  }

  lemma OwnStepMovesElement(s: State, t: Tid, a: Action)
    requires Inv(s) && Can(s, t, a)
    ensures IsThread(s, t) && IsThread(Step(s, t, a), t) && MovesElement(s, t, a, Step(s, t, a))
  {
    hide DoCall, ThreadStep, PassStep;
    if CanCall(s, t, a) {
      CallMovesElement(s, t, a);
    } else if CanThread(s, t, a) {
      InsideMeansPass(s, t);
      ThreadMovesElement(s, t, a);
    } else {
      PassMovesElement(s, t, a);
    }
  }

  lemma CallMovesElement(s: State, t: Tid, a: Action)
    requires CanCall(s, t, a)
    ensures IsThread(DoCall(s, t, a), t) && MovesElement(s, t, a, DoCall(s, t, a))
  {
  }

  lemma ThreadMovesElement(s: State, t: Tid, a: Action)
    requires CanThread(s, t, a)
    ensures IsThread(ThreadStep(s, t, a), t) && MovesElement(s, t, a, ThreadStep(s, t, a))
  {
    if a.Enter? {
      EntryMovesElement(s, t);
    }
  }

  lemma EntryMovesElement(s: State, t: Tid)
    requires CanThread(s, t, Enter)
    ensures IsThread(EnterStep(s, t), t) && MovesElement(s, t, Enter, EnterStep(s, t))
  {
  }

  lemma PassMovesElement(s: State, t: Tid, a: Action)
    requires CanPass(s, t, a)
    ensures IsThread(PassStep(s, t, a), t) && MovesElement(s, t, a, PassStep(s, t, a))
  {
    PassMoves(s, t, a);
    assert !a.CallMainloop? && !a.TestActive?;
    hide PassStep, CanPass;
  }

  lemma OthersLeaveElement(s: State, u: Tid, a: Action, t: Tid)
    requires Inv(s) && Can(s, u, a) && t != u && IsThread(s, t)
    ensures IsThread(Step(s, u, a), t) && Step(s, u, a).threads[t] == s.threads[t]
    ensures Serves(Step(s, u, a), t) == Serves(s, t)
  {
    OthersLeaveThread(s, u, a, t);
    InsideMeansPass(s, t);
    if InPass(s, t) {
      OthersLeavePass(s, u, a, t);
    }
    hide Inv, Can, Step;
  }

  /** A thread that executes mainloop() serves the engine for which it called it last, and erases what it saw
      inactive. */
  lemma {:induction false} ServesLastEngine(run: seq<State>, acts: seq<Act>, n: nat, t: Tid)
    requires IsTrace(run, acts) && n <= |acts| && IsThread(run[n], t)
    ensures |run| == |acts| + 1
    ensures Serves(run[n], t).Some? ==> Serves(run[n], t) == LastEngine(acts[..n], t)
    ensures IsErasing(run[n].threads[t]) ==> run[n].threads[t].erase == SawInactive(run, acts, n, t)
  {
    hide Can, Step, Inv, Serves, InPass;
    if n == 0 {
      ServesNothing(run[0], t);
    } else {
      var x := acts[n - 1];
      assert acts[..n][..n - 1] == acts[..n - 1];
      StepOfTrace(run, acts, n - 1);
      if x.thread == t {
        OwnStepMovesElement(run[n - 1], t, x.action);
      } else {
        SameThreads(run[n - 1], x.thread, x.action);
        OthersLeaveElement(run[n - 1], x.thread, x.action, t);
      }
      ServesLastEngine(run, acts, n - 1, t);
    }
  }

  lemma ServesNothing(s: State, t: Tid)
    requires Init(s) && IsThread(s, t)
    ensures Serves(s, t) == None && !IsErasing(s.threads[t])
  {
  }

  lemma SameThreads(s: State, u: Tid, a: Action)
    requires Can(s, u, a)
    ensures |Step(s, u, a).threads| == |s.threads|
  {
    OthersLeaveThread(s, u, a, u + 1);
  }

  /** The thread is about to erase its element from the list of e. */
  predicate Erases(s: State, t: Tid, a: Action, e: EngineId) {
    a == LeaveEngine && At(s, t, InEngine(e, true))
  }

  /** How a step changes the list of an engine. */
  predicate MovesList(s: State, t: Tid, a: Action, s': State, e: EngineId) {
    var added := if s.mux.currentHandler != Engine(e) && s'.mux.currentHandler == Engine(e) then 1 else 0;
    var erased := if Erases(s, t, a, e) then 1 else 0;
    Count(s', e) == Count(s, e) + added - erased
  }

  lemma StepMovesList(s: State, t: Tid, a: Action, e: EngineId)
    requires Inv(s) && Can(s, t, a)
    ensures MovesList(s, t, a, Step(s, t, a), e)
  {
    hide Can, Step, Inv;
    StepPlaces(s, t, a);
    if a == Close {
      CloseMovesList(s, t, e);
    } else if a == LeaveEngine {
      LeaveMovesList(s, t, e);
    } else {
      OthersMoveNoList(s, t, a);
    }
  }

  lemma CloseMovesList(s: State, t: Tid, e: EngineId)
    requires Inv(s) && Can(s, t, Close)
    ensures MovesList(s, t, Close, Step(s, t, Close), e)
  {
    hide Inv, Step, Can, CanPass, CloseStep, HandlerAtEnd, AddsTo;
    StepPlaces(s, t, Close);
    CloseIs(s, t);
    CloseFacts(s);
    CloseLists(s, t);
    AddsWhenMoving(s, e);
  }

  lemma CloseIs(s: State, t: Tid)
    requires Can(s, t, Close)
    ensures InPass(s, t) && s.pass.phase.Closing? && Step(s, t, Close) == CloseStep(s, t)
  {
    assert CanPass(s, t, Close);
    hide CloseStep;
  }

  lemma CloseLists(s: State, t: Tid)
    requires InPass(s, t) && s.pass.phase.Closing?
    ensures CloseStep(s, t).engineLists ==
      match AddsTo(s)
      case None => s.engineLists
      case Some(e) => s.engineLists[e := Count(s, e) + 1]
  {
  }

  lemma AddsWhenMoving(s: State, e: EngineId)
    requires s.pass.Pass? && s.pass.phase.Closing?
    requires s.targetHandler != Immediate && s.defaultHandler != Idle
    requires s.pass.frame.event == NormalRun ==> s.mux.currentHandler != Idle
    requires s.pass.frame.event != NormalRun ==> s.mux.currentHandler != Immediate && !s.yielding
    requires s.yielding ==> s.targetHandler != Idle || s.defaultHandler != Immediate
    ensures AddsTo(s) == Some(e) <==> s.mux.currentHandler != Engine(e) && HandlerAtEnd(s) == Engine(e)
  {
  }

  lemma LeaveMovesList(s: State, t: Tid, e: EngineId)
    requires Inv(s) && Can(s, t, LeaveEngine)
    ensures MovesList(s, t, LeaveEngine, Step(s, t, LeaveEngine), e)
  {
    assert CanThread(s, t, LeaveEngine) && Step(s, t, LeaveEngine) == LeaveEngineStep(s, t);
    assert LoopOf(s.threads[t], InsideAfter(s)) == Some(s.threads[t].engine);
    assert Count(s, s.threads[t].engine) >= 1;
    hide Inv, Step, Can, CanThread;
  }

  lemma OthersMoveNoList(s: State, t: Tid, a: Action)
    requires Can(s, t, a) && a != Close && a != LeaveEngine
    ensures Step(s, t, a).engineLists == s.engineLists
  {
    hide DoCall, ThreadStep, PassStep;
    if CanCall(s, t, a) {
      CallMovesNoList(s, t, a);
    } else if CanThread(s, t, a) {
      ThreadMovesNoList(s, t, a);
    } else {
      PassMovesNoList(s, t, a);
    }
  }

  lemma CallMovesNoList(s: State, t: Tid, a: Action)
    requires CanCall(s, t, a)
    ensures DoCall(s, t, a).engineLists == s.engineLists
  {
  }

  lemma ThreadMovesNoList(s: State, t: Tid, a: Action)
    requires CanThread(s, t, a) && a != LeaveEngine
    ensures ThreadStep(s, t, a).engineLists == s.engineLists
  {
    if a.Enter? {
      EntryMovesNoList(s, t);
    }
  }

  lemma EntryMovesNoList(s: State, t: Tid)
    requires CanThread(s, t, Enter)
    ensures EnterStep(s, t).engineLists == s.engineLists
  {
  }

  lemma PassMovesNoList(s: State, t: Tid, a: Action)
    requires CanPass(s, t, a) && a != Close
    ensures PassStep(s, t, a).engineLists == s.engineLists
  {
    if a.TestAbort? {
      if s.pass.frame.state == Killed {
        KilledLeaks(s, t);
      } else {
        RunFrame(s, t);
        hide TestAbortStep;
      }
    } else if a.User? {
      assert UserStep(s, a.call).engineLists == s.engineLists;
    } else if OfWaitCondition(a) {
      ConditionMovesNoList(s, t, a);
    } else if IsLocking(a) {
      LockingMovesNoList(s, t, a);
    } else if a.Decide? {
      DecisionMovesNoList(s, t);
    } else if a.Prepare? {
      PrepareMovesNoList(s, t);
    } else {
      FlagsMoveNoList(s, t, a);
    }
  }

  lemma ConditionMovesNoList(s: State, t: Tid, a: Action)
    requires CanPass(s, t, a) && OfWaitCondition(a)
    ensures PassStep(s, t, a).engineLists == s.engineLists
  {
    hide SubStates.Wait;
  }

  lemma LockingMovesNoList(s: State, t: Tid, a: Action)
    requires CanPass(s, t, a) && IsLocking(a)
    ensures PassStep(s, t, a).engineLists == s.engineLists
  {
  }

  lemma DecisionMovesNoList(s: State, t: Tid)
    requires CanPass(s, t, Decide)
    ensures DecideStep(s, t).engineLists == s.engineLists
  {
    hide Decision;
  }

  lemma FlagsMoveNoList(s: State, t: Tid, a: Action)
    requires CanPass(s, t, a) && (a.Check? || a.Begin? || a.AbortSelf? || a.ResetInside?)
    ensures PassStep(s, t, a).engineLists == s.engineLists
  {
  }

  lemma PrepareMovesNoList(s: State, t: Tid)
    requires CanPass(s, t, Prepare)
    ensures PrepareStep(s, t).engineLists == s.engineLists
  {
  }

  /** The list of an engine has the task as often as the task was moved to the engine, less the elements that mainloop()
      erased because it saw that the task was not active any more. */
  lemma {:induction false} ListIsExact(run: seq<State>, acts: seq<Act>, n: nat, e: EngineId)
    requires IsTrace(run, acts) && n <= |acts|
    ensures |run| == |acts| + 1 && Count(run[n], e) == Balance(run, acts, n, e)
  {
    hide Can, Step, Inv;
    if n > 0 {
      ListIsExact(run, acts, n - 1, e);
      StepOfTrace(run, acts, n - 1);
      StepMovesList(run[n - 1], acts[n - 1].thread, acts[n - 1].action, e);
      DropsWhatItErases(run, acts, n - 1, e);
    }
  }

  lemma DropsWhatItErases(run: seq<State>, acts: seq<Act>, k: nat, e: EngineId)
    requires IsTrace(run, acts) && k < |acts|
    ensures |run| == |acts| + 1
    ensures DropsFrom(run, acts, k, e) <==> Erases(run[k], acts[k].thread, acts[k].action, e)
  {
    StepOfTrace(run, acts, k);
    if acts[k].action == LeaveEngine {
      var t := acts[k].thread;
      assert CanThread(run[k], t, LeaveEngine);
      ServesLastEngine(run, acts, k, t);
      assert Serves(run[k], t) == Some(run[k].threads[t].engine);
    }
  }
}
