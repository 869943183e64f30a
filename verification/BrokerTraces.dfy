/** Runs of a broker together with the steps that were taken: the order of the callbacks, and when the broker sleeps. */
module BrokerTraces {
  import opened Brokers

  ghost predicate IsTrace(run: seq<Broker>, acts: seq<Action>) {
    && |run| == |acts| + 1 && Init(run[0])
    && forall i | 0 <= i < |acts| :: IsStep(run[i], acts[i], run[i + 1])
  }

  predicate IsStep(s: Broker, a: Action, s': Broker) {
    Can(s, a) && s' == Step(s, a)
  }

  /** Every run has such a list of steps. */
  lemma {:induction false} StepsOfRun(run: seq<Broker>) returns (acts: seq<Action>)
    requires IsRun(run)
    ensures IsTrace(run, acts)
    decreases |run|
  {
    hide Init, Can, Step;
    var n := |run| - 1;
    if n == 0 {
      acts := [];
    } else {
      acts := StepsOfRun(run[..n]);
      assert Next(run[n - 1], run[n]);
      var a :| Can(run[n - 1], a) && run[n] == Step(run[n - 1], a);
      acts := acts + [a];
      forall i | 0 <= i < |acts| ensures IsStep(run[i], acts[i], run[i + 1]) {
        if i < n - 1 {
          assert IsStep(run[..n][i], acts[i], run[..n][i + 1]);
        }
      }
    }
  }

  lemma {:induction false} TraceInv(run: seq<Broker>, acts: seq<Action>, i: nat)
    requires IsTrace(run, acts) && i < |run|
    ensures Inv(run[i]) && (i < |acts| ==> IsStep(run[i], acts[i], run[i + 1]))
  {
    hide Inv, Can, Step;
    if i == 0 {
      InitInv(run[0]);
    } else {
      TraceInv(run, acts, i - 1);
      StepKept(run[i - 1], acts[i - 1]);
    }
  }

  // ---- The order of the callbacks ----

  /** The caller whose callback this step puts on the queue of the entry with key k: the one who creates the entry, or
      one who found it. */
  function QueuedBy(s: Broker, a: Action, k: Key): seq<Caller> {
    if a.Call? && a.caller < |s.calls| && s.calls[a.caller].key == k
       && (s.calls[a.caller].phase.Converting? || s.calls[a.caller].phase.WantPush?) then [a.caller]
    else []
  }

  /** The caller whose callback the broker task calls in this step, for key k. */
  function CalledBy(s: Broker, a: Action, s': Broker, k: Key): seq<Caller> {
    if a == PopCallback && |s.invoked| < |s'.invoked| && s'.invoked[|s.invoked|] < |s.calls|
       && s.calls[s'.invoked[|s.invoked|]].key == k then [s'.invoked[|s.invoked|]]
    else []
  }

  function Queued(run: seq<Broker>, acts: seq<Action>, i: nat, k: Key): seq<Caller>
    requires i <= |acts| && |run| == |acts| + 1
  {
    if i == 0 then [] else Queued(run, acts, i - 1, k) + QueuedBy(run[i - 1], acts[i - 1], k)
  }

  function Called(run: seq<Broker>, acts: seq<Action>, i: nat, k: Key): seq<Caller>
    requires i <= |acts| && |run| == |acts| + 1
  {
    if i == 0 then [] else Called(run, acts, i - 1, k) + CalledBy(run[i - 1], acts[i - 1], run[i], k)
  }

  function CallbacksOf(s: Broker, k: Key): seq<Caller> {
    if k in s.entries then s.entries[k].callbacks else []
  }

  /** The callbacks of one key are called in the order in which they were queued, and those that were not called yet are
      still in the queue. */
  lemma {:induction false} CalledInOrder(run: seq<Broker>, acts: seq<Action>, i: nat, k: Key)
    requires IsTrace(run, acts) && i <= |acts|
    ensures Queued(run, acts, i, k) == Called(run, acts, i, k) + CallbacksOf(run[i], k)
  {
    hide Inv, Can, Step;
    if i > 0 {
      CalledInOrder(run, acts, i - 1, k);
      TraceInv(run, acts, i - 1);
      QueueMoves(run[i - 1], acts[i - 1], k);
      var front, back := CalledBy(run[i - 1], acts[i - 1], run[i], k), QueuedBy(run[i - 1], acts[i - 1], k);
      var called := Called(run, acts, i - 1, k);
      var before, after := CallbacksOf(run[i - 1], k), CallbacksOf(run[i], k);
      assert before + back == front + after;
      assert (called + before) + back == called + (before + back);
      assert called + (front + after) == (called + front) + after;
      hide QueuedBy, CalledBy, CallbacksOf;
    } else {
      NothingAtFirst(run[0], k);
      hide CallbacksOf;
    }
  }

  lemma NothingAtFirst(s: Broker, k: Key)
    requires Init(s)
    ensures CallbacksOf(s, k) == []
  {
  }

  /** A queue gets callbacks at its end, and loses them at its front. */
  lemma QueueMoves(s: Broker, a: Action, k: Key)
    requires Inv(s) && Can(s, a)
    ensures CallbacksOf(s, k) + QueuedBy(s, a, k) == CalledBy(s, a, Step(s, a), k) + CallbacksOf(Step(s, a), k)
  {
    match a
    case Call(c) => CallMoves(s, c, k);
    case PopCallback => PopMoves(s, k);
    case _ =>
      hide Inv;
      OthersMoveNothing(s, a, k);
  }

  lemma OthersMoveNothing(s: Broker, a: Action, k: Key)
    requires Can(s, a) && !a.Call? && !a.PopCallback?
    ensures CallbacksOf(Step(s, a), k) == CallbacksOf(s, k)
  {
  }

  lemma CallMoves(s: Broker, c: Caller, k: Key)
    requires Inv(s) && Can(s, Action.Call(c))
    ensures CallbacksOf(s, k) + QueuedBy(s, Action.Call(c), k) == CallbacksOf(CallStep(s, c), k)
  {
    assert CallOk(s, c);
    var p := s.calls[c].phase;
    if p.Converting? {
      assert s.calls[c].key !in s.entries;
      hide Inv, CallOk;
    } else if p.WantPush? {
      assert s.calls[c].key in s.entries;
      hide Inv, CallOk;
    } else {
      hide Inv, CallOk;
      assert CallStep(s, c).entries == s.entries by {
        OnlyPushesChange(s, c);
      }
      hide CallStep;
    }
  }

  lemma OnlyPushesChange(s: Broker, c: Caller)
    requires Can(s, Action.Call(c)) && !s.calls[c].phase.Converting? && !s.calls[c].phase.WantPush?
    ensures CallStep(s, c).entries == s.entries
  {
  }

  lemma PopMoves(s: Broker, k: Key)
    requires Inv(s) && Can(s, PopCallback)
    ensures CallbacksOf(s, k) == CalledBy(s, PopCallback, PopStep(s), k) + CallbacksOf(PopStep(s), k)
  {
    PopFacts(s);
    PopOnly(s);
    hide Inv, PopStep;
  }

  lemma PopOnly(s: Broker)
    requires Can(s, PopCallback)
    ensures var l, s' := s.broker.key, PopStep(s);
      if CallbacksOf(s, l) == [] then s'.entries == s.entries && s'.invoked == s.invoked
      else
        && s'.entries == s.entries[l := s.entries[l].(callbacks := s.entries[l].callbacks[1..])]
        && s'.invoked == s.invoked + [s.entries[l].callbacks[0]]
  {
  }

  lemma PopFacts(s: Broker)
    requires Inv(s) && s.broker.Popping?
    ensures var l := s.broker.key;
      && l in s.entries
      && (s.entries[l].callbacks != [] ==>
            s.entries[l].callbacks[0] < |s.calls| && s.calls[s.entries[l].callbacks[0]].key == l)
  {
    assert EntryOk(s, s.broker.key);
  }

  // ---- When the broker sleeps ----

  /** Someone signals the broker. */
  predicate IsSignal(s: Broker, a: Action) {
    a.TaskSignals? || (a.Call? && a.caller < |s.calls| && s.calls[a.caller].phase.WantSignal?)
  }

  /** Step number k is a signal that does not wake up the broker. */
  predicate SignalsBusyBroker(run: seq<Broker>, acts: seq<Action>, k: nat)
    requires k < |acts| && k < |run|
  {
    IsSignal(run[k], acts[k]) && run[k].broker != Idle
  }

  ghost predicate WasSignalled(run: seq<Broker>, acts: seq<Action>, j: nat)
    requires j <= |acts| && j <= |run|
  {
    exists k :: 0 <= k < j && SignalsBusyBroker(run, acts, k) && forall l | k < l < j :: acts[l] != Wait
  }

  /** When the broker waits it sleeps, unless it was signalled since its last wait while it was busy: then it runs
      again. */
  lemma SleepsUnlessSignalled(run: seq<Broker>, acts: seq<Action>, j: nat)
    requires IsTrace(run, acts) && j < |acts| && acts[j] == Wait
    ensures |run| == |acts| + 1 && run[j + 1].broker == if WasSignalled(run, acts, j) then Ready else Idle
  {
    assert IsStep(run[j], acts[j], run[j + 1]);
    PendingExactly(run, acts, j);
  }

  lemma {:induction false} PendingExactly(run: seq<Broker>, acts: seq<Action>, j: nat)
    requires IsTrace(run, acts) && j <= |acts|
    ensures |run| == |acts| + 1 && (run[j].pending <==> WasSignalled(run, acts, j))
  {
    hide Can, Step;
    if j > 0 {
      PendingExactly(run, acts, j - 1);
      assert IsStep(run[j - 1], acts[j - 1], run[j]);
      PendingMoves(run[j - 1], acts[j - 1]);
      SignalledOn(run, acts, j);
    }
  }

  lemma PendingMoves(s: Broker, a: Action)
    requires Can(s, a)
    ensures Step(s, a).pending <==> (IsSignal(s, a) && s.broker != Idle) || (s.pending && a != Wait)
    ensures s.broker == Idle && IsSignal(s, a) ==> Step(s, a).broker == Ready
  {
  }

  lemma SignalledOn(run: seq<Broker>, acts: seq<Action>, j: nat)
    requires 0 < j <= |acts| && |run| == |acts| + 1
    ensures WasSignalled(run, acts, j) <==>
      SignalsBusyBroker(run, acts, j - 1) || (WasSignalled(run, acts, j - 1) && acts[j - 1] != Wait)
  {
    hide SignalsBusyBroker;
    if WasSignalled(run, acts, j - 1) && acts[j - 1] != Wait {
      var k :| 0 <= k < j - 1 && SignalsBusyBroker(run, acts, k) && forall l | k < l < j - 1 :: acts[l] != Wait;
      assert forall l | k < l < j :: acts[l] != Wait;
    }
  }
}
