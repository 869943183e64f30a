/** What the two masks of a task mean. */
module MaskMeaning {
  import opened SubStates

  /** The sub-state after a sequence of signals. */
  function Signals(s: SubState, conditions: seq<Mask>): SubState
    decreases |conditions|
  {
    if conditions == [] then s else Signals(Signal(s, conditions[0]), conditions[1..])
  }

  /** Every condition that one of the signals carried. */
  function Union(conditions: seq<Mask>): Mask
    decreases |conditions|
  {
    if conditions == [] then {} else conditions[0] + Union(conditions[1..])
  }

  /** A call of multiplex_impl and the signals around it: signals, wait_AND(a), signals, wait(c), signals. */
  function WaitRun(s: SubState, before: seq<Mask>, a: Mask, between: seq<Mask>, c: Mask, after: seq<Mask>): SubState {
    Signals(Wait(Signals(WaitAnd(Signals(s, before), a), between), c), after)
  }

  /** No condition is both waited for and already received. */
  predicate Disjoint(s: SubState) {
    s.idle !! s.skipWait
  }

  /** Each of the operations keeps the masks disjoint. */
  lemma DisjointKept(s: SubState, m: Mask)
    requires Disjoint(s)
    ensures Disjoint(Signal(s, m)) && Disjoint(Wait(s, m)) && Disjoint(WaitAnd(s, m))
    ensures Disjoint(AbortSub(s)) && Disjoint(FinishSub(s)) && Disjoint(ResetSub(s)) && Disjoint(BeginLoop(s))
  {
  }

  /** The conditions that still block a task: those of `idle` that got no signal, where one signal
      for an OR condition satisfies all of them. */
  function Remaining(idle: Mask, signalled: Mask): Mask {
    idle - (signalled + OrGroup(idle * signalled))
  }

  lemma SignalMeaning(s: SubState, m: Mask)
    requires Disjoint(s)
    ensures Signal(s, m).idle == Remaining(s.idle, m)
    ensures Signal(s, m).skipWait == s.skipWait + (m - s.idle)
    ensures Signal(s, m).aborted == s.aborted
  {
    var skipWait := s.skipWait + (m - s.idle);
    assert m - skipWait == s.idle * m;
  }

  lemma RemainingTwice(idle: Mask, m: Mask, n: Mask)
    ensures Remaining(Remaining(idle, m), n) == Remaining(idle, m + n)
  {
    var once := Remaining(idle, m);
    if idle * m * OR_CONDITIONS == {} {
      assert once * n * OR_CONDITIONS == idle * (m + n) * OR_CONDITIONS;
    } else {
      assert once * n * OR_CONDITIONS == {};
      assert idle * (m + n) * OR_CONDITIONS != {} by {
        var c :| c in idle * m * OR_CONDITIONS;
        assert c in idle * (m + n) * OR_CONDITIONS;
      }
    }
  }

  /** A sequence of signals acts on `idle` as one signal for the union of their masks; all bits
      outside `idle` are remembered in skipWait. */
  lemma {:induction false} SignalsMeaning(s: SubState, m: seq<Mask>)
    requires Disjoint(s)
    ensures var r := Signals(s, m);
      && Disjoint(r)
      && r.idle == Remaining(s.idle, Union(m))
      && r.skipWait - s.idle == (s.skipWait + Union(m)) - s.idle
      && r.aborted == s.aborted
    decreases |m|
  {
    if m == [] {
      assert s.idle * Union(m) == {};
    } else {
      var s' := Signal(s, m[0]);
      DisjointKept(s, m[0]);
      SignalMeaning(s, m[0]);
      SignalsMeaning(s', m[1..]);
      RemainingTwice(s.idle, m[0], Union(m[1..]));
      var r := Signals(s, m);
      assert r.skipWait - s.idle == (r.skipWait - s'.idle) - s.idle;
    }
  }

  lemma WaitMeaning(s: SubState, c: Mask)
    requires Disjoint(s) && s.idle <= AND_CONDITIONS && c <= OR_CONDITIONS && !s.aborted
    ensures Wait(s, c).idle == s.idle + (if c !! s.skipWait then c else {})
    ensures Wait(s, c).skipWait == s.skipWait - c
  {
    var idle := s.idle + (c - s.skipWait);
    assert c - idle == c * s.skipWait;
    if c !! s.skipWait {
      assert c - s.skipWait == c;
    } else {
      assert (c * s.skipWait) * OR_CONDITIONS == c * s.skipWait;
    }
  }

  /** The meaning of the masks. The task runs again exactly when every AND condition was signalled,
      and one of the OR conditions if there are any; what was pending at the start counts too. */
  lemma MeaningOfMasks(s: SubState, before: seq<Mask>, a: Mask, between: seq<Mask>, c: Mask, after: seq<Mask>)
    requires s.idle == {} && !s.aborted
    requires a <= AND_CONDITIONS && c <= OR_CONDITIONS
    ensures var signalled := s.skipWait + Union(before) + Union(between) + Union(after);
            var r := WaitRun(s, before, a, between, c, after);
            && Disjoint(r)
            && (r.idle == {} <==> a <= signalled && (c == {} || !(c !! signalled)))
  {
    var s3 := Signals(WaitAnd(Signals(s, before), a), between);
    BeforeTheWait(s, before, a, between);
    AfterTheWait(s3, c, after);
    EarlyAndLate(a, c, s.skipWait + Union(before) + Union(between), Union(after), s3.skipWait);
  }

  lemma EarlyAndLate(a: Mask, c: Mask, early: Mask, late: Mask, pending: Mask)
    requires c <= OR_CONDITIONS && pending * OR_CONDITIONS == early * OR_CONDITIONS
    ensures a - early <= late <==> a <= early + late
    ensures c !! pending && c !! late <==> c !! early + late
  {
    NothingLeft(a - early, late);
    NothingLeft(a, early + late);
    assert a - early - late == a - (early + late);
    forall b | b in c ensures b in pending <==> b in early {
      assert b in pending * OR_CONDITIONS <==> b in early * OR_CONDITIONS;
    }
  }

  lemma AfterTheWait(s: SubState, c: Mask, after: seq<Mask>)
    requires Disjoint(s) && s.idle <= AND_CONDITIONS && c <= OR_CONDITIONS && !s.aborted
    ensures var r := Signals(Wait(s, c), after);
      && Disjoint(r)
      && (r.idle == {} <==> s.idle <= Union(after) && (c == {} || !(c !! s.skipWait) || !(c !! Union(after))))
  {
    DisjointKept(s, c);
    WaitMeaning(s, c);
    SignalsMeaning(Wait(s, c), after);
    RemainingIsEmpty(s.idle, if c !! s.skipWait then c else {}, Union(after));
  }

  /** The masks just before wait(c): what is left of a, and on the OR conditions all that was signalled. */
  lemma BeforeTheWait(s: SubState, before: seq<Mask>, a: Mask, between: seq<Mask>)
    requires s.idle == {} && a <= AND_CONDITIONS
    ensures var early := s.skipWait + Union(before) + Union(between);
            var r := Signals(WaitAnd(Signals(s, before), a), between);
            && Disjoint(r)
            && r.idle == a - early
            && r.skipWait * OR_CONDITIONS == early * OR_CONDITIONS
            && r.aborted == s.aborted
  {
    var s1 := Signals(s, before);
    SignalsMeaning(s, before);
    assert s1.idle == {};
    assert s1.skipWait == s.skipWait + Union(before) by {
      assert s1.skipWait - {} == s1.skipWait;
    }
    var s2 := WaitAnd(s1, a);
    assert s2.idle == a - s1.skipWait;
    DisjointKept(s1, a);
    SignalsMeaning(s2, between);
    assert s2.idle * Union(between) * OR_CONDITIONS == {};
    var r := Signals(s2, between);
    assert (r.skipWait - s2.idle) * OR_CONDITIONS == r.skipWait * OR_CONDITIONS;
  }

  lemma NothingLeft(a: Mask, m: Mask)
    ensures a - m == {} <==> a <= m
  {
    if a - m == {} {
      forall c | c in a ensures c in m {
        assert c !in a - m;
      }
    }
  }

  lemma RemainingIsEmpty(a: Mask, c: Mask, m: Mask)
    requires a <= AND_CONDITIONS && c <= OR_CONDITIONS
    ensures Remaining(a + c, m) == {} <==> a <= m && (c == {} || !(c !! m))
  {
    assert (a + c) * m * OR_CONDITIONS == c * m;
    if c !! m {
      assert Remaining(a + c, m) == (a - m) + c;
    } else {
      assert Remaining(a + c, m) == a - m;
    }
    NothingLeft(a, m);
  }

  /** signal(m) before wait(c) leaves the same masks as after it, exactly when no condition of c is
      pending or m carries no condition of c. */
  lemma SignalWaitCommute(s: SubState, c: Mask, m: Mask)
    requires Disjoint(s) && s.idle <= AND_CONDITIONS && c <= OR_CONDITIONS && !s.aborted
    ensures var p := Wait(Signal(s, m), c);
            var q := Signal(Wait(s, c), m);
            (p.idle == q.idle && p.skipWait == q.skipWait) <==> (c !! s.skipWait || c !! m)
  {
    var s1, s2 := Signal(s, m), Wait(s, c);
    DisjointKept(s, m);
    DisjointKept(s, c);
    SignalMeaning(s, m);
    WaitMeaning(s, c);
    WaitMeaning(s1, c);
    SignalMeaning(s2, m);
    assert c !! s1.skipWait <==> c !! s.skipWait && c !! m;
    if c !! s.skipWait {
      assert s2.idle * m * OR_CONDITIONS == c * m;
      if c !! m {
      } else {
        assert Remaining(s.idle + c, m) == s.idle - m;
      }
    } else {
      assert s2.idle == s.idle;
    }
  }

  /** How many of the signals wake up the task, that is, how many calls of signal() return true. */
  function WakeUps(s: SubState, conditions: seq<Mask>): nat
    decreases |conditions|
  {
    if conditions == [] then 0
    else (if Wakes(s, conditions[0]) then 1 else 0) + WakeUps(Signal(s, conditions[0]), conditions[1..])
  }

  /** However many signals arrive, and whatever they carry, an idle task is woken up exactly once if they
      satisfy what it waits for, and otherwise not at all; need_run records just that. */
  lemma {:induction false} OneWakeUp(s: SubState, m: seq<Mask>)
    requires Disjoint(s)
    ensures WakeUps(s, m) == if s.idle != {} && Remaining(s.idle, Union(m)) == {} then 1 else 0
    ensures Signals(s, m).needRun == (s.needRun || WakeUps(s, m) == 1)
    decreases |m|
  {
    if m == [] {
      assert Remaining(s.idle, Union(m)) == s.idle;
    } else {
      DisjointKept(s, m[0]);
      SignalMeaning(s, m[0]);
      OneWakeUp(Signal(s, m[0]), m[1..]);
      RemainingTwice(s.idle, m[0], Union(m[1..]));
    }
  }

  // ---- begin_loop, finish and reset ----

  lemma {:induction false} SignalsTouchMasks(s: SubState, m: seq<Mask>)
    ensures var s' := Signals(s, m);
      s' == s.(idle := s'.idle, skipWait := s'.skipWait, needRun := s'.needRun)
    decreases |m|
  {
    if m != [] {
      SignalsTouchMasks(Signal(s, m[0]), m[1..]);
    }
  }

  /** begin_loop honours all requests for a run that were made before it: after it need_run says exactly whether the
      task was woken up since, by whatever signals. It changes nothing for the signals to come. */
  lemma BeginLoopHonours(s: SubState, m: seq<Mask>)
    requires Disjoint(s)
    ensures Signals(BeginLoop(s), m).needRun <==> s.idle != {} && Remaining(s.idle, Union(m)) == {}
    ensures Signals(BeginLoop(s), m).idle == Signals(s, m).idle
    ensures WakeUps(BeginLoop(s), m) == WakeUps(s, m)
  {
    OneWakeUp(BeginLoop(s), m);
    OneWakeUp(s, m);
    SignalsMeaning(BeginLoop(s), m);
    SignalsMeaning(s, m);
  }

  /** After finish() no signal returns true, so none calls multiplex() or makes the task run; and the task stays
      finished, whatever signals and aborts follow: abort() does not set aborted any more. */
  lemma FinishSilences(s: SubState, m: seq<Mask>)
    ensures var r := Signals(FinishSub(s), m);
      && WakeUps(FinishSub(s), m) == 0 && r.idle == {} && r.needRun == s.needRun
      && r.finished && r.aborted == s.aborted && !AbortSub(r).aborted && AbortSub(r).finished
  {
    OneWakeUp(FinishSub(s), m);
    SignalsMeaning(FinishSub(s), m);
    SignalsTouchMasks(FinishSub(s), m);
    assert Remaining({}, Union(m)) == {};
  }

  /** reset() forgets all signals, waits, aborts and finishes: the next life begins in the same way whatever was
      received before, and its first wait goes idle for all of its conditions. */
  lemma ResetForgets(s: SubState, m: seq<Mask>, c: Mask)
    ensures ResetSub(Signals(s, m)) == ResetSub(s) == ResetSub(AbortSub(s))
    ensures ResetSub(FinishSub(s)) == ResetSub(s) == ResetSub(Wait(s, c))
    ensures ResetSub(s).reset && ResetSub(s).needRun
    ensures Wait(BeginLoop(ResetSub(s)), c).idle == c && Wait(BeginLoop(ResetSub(s)), c).skipWait == {}
  {
    SignalsTouchMasks(s, m);
    assert c - {} == c && c - c == {};
  }
}
