/** What the masks of conditions are in whole runs of a task: which signals are pending, and what ends a wait. */
module Conditions {
  import opened TaskTypes
  import opened SubStates
  import opened Protocol
  import opened Invariants
  import opened Moves
  import opened RunTheorems
  import opened LateEntries
  import opened Traces
  import opened Outcomes

  /** The conditions of a call of wait(), or of wait_until(). */
  function WaitsFor(s: State, a: Action): Mask
    requires IsWait(a)
  {
    match a
    case User(CallWait(c)) => c
    case _ => s.watched
  }

  /** The other steps after which the task does not wait. */
  predicate Stops(a: Action) {
    IsAbort(a) || Resets(a) || a == User(CallFinish) || a.WakeUp?
  }

  /** What one step does with the masks: a wait consumes the pending signals for its conditions, or else makes the task
      wait for all of them; one signal for any of them ends the wait, and for others becomes pending. */
  predicate MovesMasks(s: SubState, a: Action, watched: Mask, s': SubState) {
    if IsWait(a) then
      var c := match a case User(CallWait(c)) => c case _ => watched;
      && s'.skipWait == s.skipWait - c
      && (s.idle == {} ==> s'.idle == if c !! s.skipWait && !s.aborted then c else {})
    else if IsSignal(a) then
      && s'.skipWait == s.skipWait + (ConditionsOf(a) - s.idle)
      && s'.idle == if ConditionsOf(a) !! s.idle then s.idle else {}
    else if Stops(a) then
      s'.idle == {} && s'.skipWait == if Resets(a) then {} else s.skipWait
    else
      s'.idle == s.idle && s'.skipWait == s.skipWait
  }

  lemma StepMovesMasks(s: State, t: Tid, a: Action)
    requires Inv(s) && Can(s, t, a)
    ensures Step(s, t, a).watched == s.watched && MovesMasks(s.sub, a, s.watched, Step(s, t, a).sub)
  {
    if CanCall(s, t, a) {
      CallMovesMasks(s, t, a);
    } else if CanThread(s, t, a) {
      ThreadMovesMasks(s, t, a);
    } else {
      PassMovesMasks(s, t, a);
    }
  }

  lemma SignalMovesMasks(s: SubState, c: Mask)
    requires s.idle <= OR_CONDITIONS && s.idle !! s.skipWait
    ensures Signal(s, c).skipWait == s.skipWait + (c - s.idle)
    ensures Signal(s, c).idle == if c !! s.idle then s.idle else {}
  {
    var skipWait := s.skipWait + (c - s.idle);
    assert c - skipWait == c * s.idle;
    if !(c !! s.idle) {
      var b :| b in c && b in s.idle;
      assert b in (c - skipWait) * OR_CONDITIONS;
    }
  }

  lemma WaitMovesMasks(s: SubState, c: Mask)
    requires c <= OR_CONDITIONS && (s.aborted ==> s.needRun)
    ensures Wait(s, c).skipWait == s.skipWait - c
    ensures s.idle == {} ==> Wait(s, c).idle == if c !! s.skipWait && !s.aborted then c else {}
  {
    var idle := s.idle + (c - s.skipWait);
    if s.idle == {} {
      assert c - idle == c * s.skipWait;
      if c !! s.skipWait {
        assert c - s.skipWait == c;
      } else {
        var b :| b in c && b in s.skipWait;
        assert b in (c - idle) * OR_CONDITIONS;
      }
    }
  }

  lemma MaskFacts(s: State)
    requires Inv(s)
    ensures s.sub.idle <= OR_CONDITIONS && s.sub.idle !! s.sub.skipWait && s.watched <= OR_CONDITIONS
    ensures s.pass.Pass? && s.pass.phase.Running? && s.pass.frame.state == Multiplex && s.sub.aborted ==> s.sub.needRun
    ensures s.pass.Pass? && s.pass.phase.Running? && s.pass.phase.at in {UntilWait, WaitAgain} ==>
      s.pass.frame.state == Multiplex
  {
  }

  lemma CallMovesMasks(s: State, t: Tid, a: Action)
    requires Inv(s) && CanCall(s, t, a)
    ensures DoCall(s, t, a).watched == s.watched && MovesMasks(s.sub, a, s.watched, DoCall(s, t, a).sub)
  {
    MaskFacts(s);
    hide Inv;
    if a.CallSignal? {
      SignalMovesMasks(s.sub, a.condition);
      hide SubStates.Signal, Wakes;
    }
  }

  lemma ThreadMovesMasks(s: State, t: Tid, a: Action)
    requires Inv(s) && CanThread(s, t, a)
    ensures ThreadStep(s, t, a).watched == s.watched && MovesMasks(s.sub, a, s.watched, ThreadStep(s, t, a).sub)
  {
    MaskFacts(s);
    hide Inv;
    if a.PaySignal? {
      SignalMovesMasks(s.sub, a.condition);
      hide SubStates.Signal, Wakes;
    } else if a.Enter? {
      SameMasksAtEntry(s, t);
    } else {
      OtherThreadMovesMasks(s, t, a);
    }
  }

  lemma SameMasksAtEntry(s: State, t: Tid)
    requires CanThread(s, t, Enter)
    ensures SameMasks(s, EnterStep(s, t))
  {
  }

  lemma OtherThreadMovesMasks(s: State, t: Tid, a: Action)
    requires CanThread(s, t, a) && !a.PaySignal? && !a.Enter?
    ensures ThreadStep(s, t, a).watched == s.watched && MovesMasks(s.sub, a, s.watched, ThreadStep(s, t, a).sub)
  {
  }

  lemma PassMovesMasks(s: State, t: Tid, a: Action)
    requires Inv(s) && CanPass(s, t, a)
    ensures PassStep(s, t, a).watched == s.watched && MovesMasks(s.sub, a, s.watched, PassStep(s, t, a).sub)
  {
    MaskFacts(s);
    hide Inv;
    if a.User? {
      UserMovesMasks(s, t, a.call);
    } else if OfWaitCondition(a) {
      ConditionMovesMasks(s, t, a);
    } else if Stops(a) {
      StopMovesMasks(s, t, a);
    } else {
      QuietMasks(s, t, a);
    }
  }

  lemma StopMovesMasks(s: State, t: Tid, a: Action)
    requires CanPass(s, t, a) && (a.AbortSelf? || a.ResetInside?)
    ensures PassStep(s, t, a).watched == s.watched && MovesMasks(s.sub, a, s.watched, PassStep(s, t, a).sub)
  {
  }

  lemma UserMovesMasks(s: State, t: Tid, c: UserCall)
    requires CanPass(s, t, User(c)) && s.sub.idle <= OR_CONDITIONS && s.sub.idle !! s.sub.skipWait
    requires s.pass.frame.state == Multiplex && s.sub.aborted ==> s.sub.needRun
    ensures UserStep(s, c).watched == s.watched && MovesMasks(s.sub, User(c), s.watched, UserStep(s, c).sub)
  {
    match c
    case CallWait(conditions) =>
      WaitMovesMasks(s.sub, conditions);
      hide SubStates.Wait;
    case SelfSignal(condition) =>
      SignalMovesMasks(s.sub, condition);
      hide SubStates.Signal, Wakes;
    case _ =>
  }

  lemma ConditionMovesMasks(s: State, t: Tid, a: Action)
    requires CanPass(s, t, a) && OfWaitCondition(a) && s.watched <= OR_CONDITIONS
    requires a.UntilWaitSection? || a.WaitAgainSection? ==> s.sub.aborted ==> s.sub.needRun
    ensures PassStep(s, t, a).watched == s.watched && MovesMasks(s.sub, a, s.watched, PassStep(s, t, a).sub)
  {
    if a.UntilWaitSection? || a.WaitAgainSection? {
      WaitMovesMasks(s.sub, s.watched);
    }
    hide SubStates.Wait;
  }

  predicate SameMasks(s: State, s': State) {
    s'.sub.idle == s.sub.idle && s'.sub.skipWait == s.sub.skipWait && s'.watched == s.watched
  }

  lemma QuietMasks(s: State, t: Tid, a: Action)
    requires CanPass(s, t, a) && !a.User? && !OfWaitCondition(a) && !Stops(a)
    ensures SameMasks(s, PassStep(s, t, a))
  {
    if a.TestAbort? {
      SameMasksInTest(s, t);
    } else if a.Decide? {
      SameMasksInDecision(s, t);
    } else if a.Close? {
      SameMasksAtEnd(s, t);
    } else if IsLocking(a) {
      SameMasksInLocking(s, t, a);
    } else if a.Check? {
      SameMasksInCheck(s, t);
    } else {
      SameMasksElsewhere(s, t, a);
    }
  }

  lemma SameMasksInCheck(s: State, t: Tid)
    requires CanPass(s, t, Check)
    ensures SameMasks(s, CheckStep(s, t))
  {
  }

  lemma SameMasksElsewhere(s: State, t: Tid, a: Action)
    requires CanPass(s, t, a) && (a.Begin? || a.Prepare?)
    ensures SameMasks(s, PassStep(s, t, a))
  {
  }

  lemma SameMasksInTest(s: State, t: Tid)
    requires CanPass(s, t, TestAbort)
    ensures SameMasks(s, TestAbortStep(s, t))
  {
  }

  lemma SameMasksInDecision(s: State, t: Tid)
    requires CanPass(s, t, Decide)
    ensures SameMasks(s, DecideStep(s, t))
  {
    hide Decision;
  }

  lemma SameMasksAtEnd(s: State, t: Tid)
    requires CanPass(s, t, Close)
    ensures SameMasks(s, CloseStep(s, t))
  {
  }

  lemma SameMasksInLocking(s: State, t: Tid, a: Action)
    requires CanPass(s, t, a) && IsLocking(a)
    ensures SameMasks(s, PassStep(s, t, a))
  {
  }

  // ---- Whole runs ----

  /** Step number k is a signal that carries b, and nobody waits for b then. */
  predicate SignalsEarly(run: seq<State>, acts: seq<Act>, k: nat, b: Condition)
    requires k < |acts| && k < |run|
  {
    IsSignal(acts[k].action) && b in ConditionsOf(acts[k].action) && b !in run[k].sub.idle
  }

  /** Step number k is a wait for b, or a reset(). */
  predicate Consumes(run: seq<State>, acts: seq<Act>, k: nat, b: Condition)
    requires k < |acts| && k < |run|
  {
    Resets(acts[k].action) || (IsWait(acts[k].action) && b in WaitsFor(run[k], acts[k].action))
  }

  ghost predicate IsPending(run: seq<State>, acts: seq<Act>, i: nat, b: Condition)
    requires i <= |acts| && i <= |run|
  {
    exists k :: 0 <= k < i && SignalsEarly(run, acts, k, b) && forall l | k < l < i :: !Consumes(run, acts, l, b)
  }

  /** A condition is pending exactly if it was signalled when nobody waited for it, and neither a wait for it nor a
      reset() came since. */
  lemma {:induction false} PendingExactly(run: seq<State>, acts: seq<Act>, i: nat, b: Condition)
    requires IsTrace(run, acts) && i <= |acts|
    ensures |run| == |acts| + 1 && (b in run[i].sub.skipWait <==> IsPending(run, acts, i, b))
  {
    hide Can, Step, Inv;
    if i > 0 {
      PendingExactly(run, acts, i - 1, b);
      StepOfTrace(run, acts, i - 1);
      StepMovesMasks(run[i - 1], acts[i - 1].thread, acts[i - 1].action);
      PendingMoves(run, acts, i, b);
    }
  }

  lemma PendingMoves(run: seq<State>, acts: seq<Act>, i: nat, b: Condition)
    requires 0 < i <= |acts| && |run| == |acts| + 1
    ensures IsPending(run, acts, i, b) <==>
      SignalsEarly(run, acts, i - 1, b) || (IsPending(run, acts, i - 1, b) && !Consumes(run, acts, i - 1, b))
  {
    hide SignalsEarly, Consumes;
    if IsPending(run, acts, i - 1, b) && !Consumes(run, acts, i - 1, b) {
      var k :|
        0 <= k < i - 1 && SignalsEarly(run, acts, k, b) && forall l | k < l < i - 1 :: !Consumes(run, acts, l, b);
      assert forall l | k < l < i :: !Consumes(run, acts, l, b);
    }
  }

  /** Step number k is a signal for one of these conditions. */
  predicate Meets(acts: seq<Act>, k: nat, c: Mask)
    requires k < |acts|
  {
    IsSignal(acts[k].action) && !(ConditionsOf(acts[k].action) !! c)
  }

  /** What ends a wait: a task that called wait() or wait_until() waits until one of the conditions is signalled; unless
      one was pending already, or the task was aborted. That is so whatever else happens, except for abort(), run(),
      finish(), and the end of a wait_until() whose condition became true. */
  lemma {:induction false} WaitsUntilSignalled(run: seq<State>, acts: seq<Act>, i: nat, j: nat)
    requires IsTrace(run, acts) && i < j <= |acts| && IsWait(acts[i].action) && |run| == |acts| + 1
    requires run[i].sub.idle == {}
    requires forall k | i < k < j :: !IsWait(acts[k].action) && !Stops(acts[k].action)
    ensures var c := WaitsFor(run[i], acts[i].action);
      run[j].sub.idle ==
        if (forall b | b in c :: !IsPending(run, acts, i, b)) && !AbortStands(acts[..i])
           && (forall k | i < k < j :: !Meets(acts, k, c)) then c
        else {}
    decreases j
  {
    hide Can, Step, Inv, IsPending, AbortStands;
    var c := WaitsFor(run[i], acts[i].action);
    StepOfTrace(run, acts, j - 1);
    StepMovesMasks(run[j - 1], acts[j - 1].thread, acts[j - 1].action);
    if i == j - 1 {
      forall b: Condition ensures b in run[i].sub.skipWait <==> IsPending(run, acts, i, b) {
        PendingExactly(run, acts, i, b);
      }
    } else {
      WaitsUntilSignalled(run, acts, i, j - 1);
      assert (forall k | i < k < j :: !Meets(acts, k, c)) <==>
        (forall k | i < k < j - 1 :: !Meets(acts, k, c)) && !Meets(acts, j - 1, c);
    }
  }
}
