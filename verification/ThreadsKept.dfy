/** Each step keeps the invariant about the threads, and hence the whole invariant. */
module ThreadsKept {
  import opened TaskTypes
  import opened Protocol
  import opened Invariants

  lemma InsideMoved(threads: seq<ThreadState>, holder: Option<Tid>, t: Tid, ts: ThreadState, holder': Option<Tid>)
    requires InsideOk(threads, holder) && t < |threads|
    requires ts == Inside <==> holder' == Some(t)
    requires holder' == holder || (holder == None && holder' == Some(t)) || (holder == Some(t) && holder' == None)
    requires holder' == holder ==> holder != Some(t)
    ensures InsideOk(threads[t := ts], holder')
  {
  }

  lemma RunnersMoved(threads: seq<ThreadState>, h: History, t: Tid, ts: ThreadState, h': History)
    requires RunnersOk(threads, h) && t < |threads|
    requires InFirstRun(ts) ==>
      && (InFirstRun(threads[t]) || !h.runCalled)
      && h'.runCalled && !h'.booted && (IsBoot(ts) <==> h'.life == 1)
    requires (h'.runCalled == h.runCalled && h'.booted == h.booted && h'.life == h.life) || h.booted
             || InFirstRun(threads[t]) || !h.runCalled
    ensures RunnersOk(threads[t := ts], h')
  {
    var threads' := threads[t := ts];
    assert threads'[t] == ts;
    forall u | 0 <= u < |threads'| && u != t
      ensures threads'[u] == threads[u]
      ensures InFirstRun(threads[u]) ==> !(h.booted || InFirstRun(threads[t]) || !h.runCalled)
    {
    }
  }

  lemma EntriesMoved(threads: seq<ThreadState>, life: nat, doomed: bool,
                     t: Tid, ts: ThreadState, life': nat, doomed': bool)
    requires EntriesOk(threads, life, doomed) && t < |threads|
    requires EntryOk(ts, life', doomed')
    requires life' > life || (life' == life && (doomed ==> doomed'))
    ensures EntriesOk(threads[t := ts], life', doomed')
  {
    var threads' := threads[t := ts];
    forall u | 0 <= u < |threads'| ensures EntryOk(threads'[u], life', doomed') {
      if u != t {
        assert EntryOk(threads[u], life, doomed);
      }
    }
  }

  /** A step that does not end or start the processing of an element. */
  lemma LoopsMoved(threads: seq<ThreadState>, inside: After, loopers: map<EngineId, Tid>, lists: map<EngineId, nat>,
                   t: Tid, ts: ThreadState, inside': After, lists': map<EngineId, nat>)
    requires LoopsOk(threads, inside, loopers, lists) && t < |threads|
    requires LoopOf(ts, inside') == LoopOf(threads[t], inside)
    requires inside' == inside || forall u | 0 <= u < |threads| && u != t :: threads[u] != Inside
    requires forall e | e in lists :: e in lists' && lists'[e] >= lists[e]
    ensures LoopsOk(threads[t := ts], inside', loopers, lists')
  {
    var threads' := threads[t := ts];
    forall u | 0 <= u < |threads'|
      ensures LoopOf(threads'[u], inside') == LoopOf(threads[u], inside)
    {
    }
    forall e | e in loopers ensures LoopOf(threads'[loopers[e]], inside') == Some(e) {
      assert LoopOf(threads[loopers[e]], inside) == Some(e);
    }
  }

  lemma ListsMoved(threads: seq<ThreadState>, loopers: map<EngineId, Tid>, lists: map<EngineId, nat>, current: Handler,
                   t: Tid, ts: ThreadState)
    requires ListsOk(threads, loopers, lists, current) && t < |threads|
    requires !ts.WantEngine? && !ts.InEngine?
    ensures ListsOk(threads[t := ts], loopers, lists, current)
  {
  }

  // ---- The steps of the pass ----

  /** A step of the pass after which it still holds mMultiplexMutex. */
  lemma InPassKept(s: State, s': State)
    requires ThreadInv(s) && s'.threads == s.threads
    requires Holder(s') == Holder(s) && InsideAfter(s') == InsideAfter(s)
    requires s'.loopers == s.loopers && s'.engineLists == s.engineLists
    requires s'.mux.currentHandler == s.mux.currentHandler || !s'.mux.currentHandler.Engine?
    requires s'.history.runCalled == s.history.runCalled && s'.history.booted == s.history.booted
    requires s'.history.life == s.history.life || (s'.history.life > s.history.life && s.history.booted)
    requires s'.history.life == s.history.life && Doomed(s) ==> Doomed(s')
    ensures ThreadInv(s')
  {
  }

  /** A step with which the pass ends. */
  lemma LeavePassKept(s: State, s': State, t: Tid)
    requires ThreadInv(s) && Holder(s) == Some(t)
    requires s'.threads == s.threads[t := AfterState(s.pass.frame.after)] && Holder(s') == None
    requires s'.loopers == s.loopers
    requires s'.history == s.history && Doomed(s') == Doomed(s)
    requires EntryOk(AfterState(s.pass.frame.after), s.history.life, Doomed(s))
    requires forall e | e in s.engineLists :: e in s'.engineLists && s'.engineLists[e] >= s.engineLists[e]
    requires var h := s'.mux.currentHandler;
      || h == s.mux.currentHandler
      || (h.Engine? ==> h.engine in s'.engineLists && s'.engineLists[h.engine] == Count(s, h.engine) + 1)
    ensures ThreadInv(s')
  {
    var ts := AfterState(s.pass.frame.after);
    InsideMoved(s.threads, Some(t), t, ts, None);
    RunnersMoved(s.threads, s.history, t, ts, s.history);
    EntriesMoved(s.threads, s.history.life, Doomed(s), t, ts, s.history.life, Doomed(s));
    LoopsMoved(s.threads, InsideAfter(s), s.loopers, s.engineLists, t, ts, InsideAfter(s'), s'.engineLists);
  }

  /** A step of a thread outside the pass that does not end or start the processing of an element. */
  lemma OutsideKept(s: State, s': State, t: Tid, ts: ThreadState)
    requires ThreadInv(s) && IsThread(s, t) && s.threads[t] != Inside && ts != Inside
    requires s'.threads == s.threads[t := ts] && Holder(s') == Holder(s) && InsideAfter(s') == InsideAfter(s)
    requires s'.loopers == s.loopers && s'.engineLists == s.engineLists && s'.mux.currentHandler == s.mux.currentHandler
    requires LoopOf(ts, InsideAfter(s)) == LoopOf(s.threads[t], InsideAfter(s)) && !ts.WantEngine? && !ts.InEngine?
    requires InFirstRun(ts) ==>
      && (InFirstRun(s.threads[t]) || !s.history.runCalled)
      && s'.history.runCalled && !s'.history.booted && (IsBoot(ts) <==> s'.history.life == 1)
    requires || (&& s'.history.runCalled == s.history.runCalled
                 && s'.history.booted == s.history.booted
                 && s'.history.life == s.history.life)
             || InFirstRun(s.threads[t]) || !s.history.runCalled
    requires EntryOk(ts, s'.history.life, Doomed(s'))
    requires s'.history.life > s.history.life || (s'.history.life == s.history.life && (Doomed(s) ==> Doomed(s')))
    ensures ThreadInv(s')
  {
    InsideMoved(s.threads, Holder(s), t, ts, Holder(s'));
    RunnersMoved(s.threads, s.history, t, ts, s'.history);
    EntriesMoved(s.threads, s.history.life, Doomed(s), t, ts, s'.history.life, Doomed(s'));
    LoopsMoved(s.threads, InsideAfter(s), s.loopers, s.engineLists, t, ts, InsideAfter(s'), s.engineLists);
    ListsMoved(s.threads, s.loopers, s.engineLists, s.mux.currentHandler, t, ts);
  }

  lemma AdmittedKept(s: State, t: Tid)
    requires ThreadInv(s) && IsThread(s, t) && s.threads[t].Entering? && s.pass == NoPass && s.multiplexMutex == None
    requires !TurnedAway(s, s.threads[t].event, s.threads[t].handler)
    ensures ThreadInv(EnterStep(s, t))
  {
    var s' := EnterStep(s, t);
    InsideMoved(s.threads, None, t, Inside, Some(t));
    RunnersMoved(s.threads, s.history, t, Inside, s'.history);
    EntriesMoved(s.threads, s.history.life, Doomed(s), t, Inside, s.history.life, Doomed(s));
    LoopsMoved(s.threads, Return, s.loopers, s.engineLists, t, Inside, InsideAfter(s'), s.engineLists);
    ListsMoved(s.threads, s.loopers, s.engineLists, s.mux.currentHandler, t, Inside);
  }

  // ---- The steps of mainloop ----

  lemma MainloopKept(s: State, t: Tid, e: EngineId)
    requires ThreadInv(s) && CanCall(s, t, CallMainloop(e))
    ensures ThreadInv(DoCall(s, t, CallMainloop(e)))
  {
    var ts := Entering(NormalRun, Engine(e), Test(e));
    var s' := DoCall(s, t, CallMainloop(e));
    InsideMoved(s.threads, Holder(s), t, ts, Holder(s));
    RunnersMoved(s.threads, s.history, t, ts, s.history);
    EntriesMoved(s.threads, s.history.life, Doomed(s), t, ts, s.history.life, Doomed(s));
  }

  lemma LoopEnds(threads: seq<ThreadState>, inside: After, loopers: map<EngineId, Tid>, lists: map<EngineId, nat>,
                 t: Tid, e: EngineId, lists': map<EngineId, nat>)
    requires LoopsOk(threads, inside, loopers, lists) && t < |threads| && LoopOf(threads[t], inside) == Some(e)
    requires forall d | d in lists && d != e :: d in lists' && lists'[d] == lists[d]
    ensures LoopsOk(threads[t := Outside], inside, loopers - {e}, lists')
  {
    var threads', loopers' := threads[t := Outside], loopers - {e};
    forall u | 0 <= u < |threads'| && LoopOf(threads'[u], inside).Some?
      ensures var d := LoopOf(threads'[u], inside).value;
        d in loopers' && loopers'[d] == u && d in lists' && lists'[d] >= 1
    {
      assert u != t && threads'[u] == threads[u];
    }
    forall d | d in loopers' ensures loopers'[d] < |threads'| && LoopOf(threads'[loopers'[d]], inside) == Some(d) {
      assert loopers[d] != t;
    }
  }

  lemma TestKept(s: State, t: Tid)
    requires ThreadInv(s) && IsThread(s, t) && s.threads[t].WantTest?
    ensures ThreadInv(TestStep(s, t))
  {
    var e := s.threads[t].engine;
    var ts := WantEngine(e, s.mux.currentHandler != Engine(e));
    ElementKept(s, t, ts);
    assert ListsOk(s.threads[t := ts], s.loopers, s.engineLists, s.mux.currentHandler);
  }

  lemma TakeEngineKept(s: State, t: Tid)
    requires ThreadInv(s) && IsThread(s, t) && s.threads[t].WantEngine?
    ensures ThreadInv(TakeEngineStep(s, t))
  {
    var e := s.threads[t].engine;
    var ts := InEngine(e, s.threads[t].erase);
    ElementKept(s, t, ts);
    assert ListsOk(s.threads[t := ts], s.loopers, s.engineLists, s.mux.currentHandler);
  }

  /** The steps between the processing of an element and its end. */
  lemma ElementKept(s: State, t: Tid, ts: ThreadState)
    requires ThreadInv(s) && IsThread(s, t)
    requires (s.threads[t].WantTest? && ts.WantEngine?) || (s.threads[t].WantEngine? && ts.InEngine?)
    requires ts.engine == s.threads[t].engine
    ensures var threads' := s.threads[t := ts];
      && InsideOk(threads', Holder(s)) && RunnersOk(threads', s.history)
      && EntriesOk(threads', s.history.life, Doomed(s))
      && LoopsOk(threads', InsideAfter(s), s.loopers, s.engineLists)
  {
    InsideMoved(s.threads, Holder(s), t, ts, Holder(s));
    RunnersMoved(s.threads, s.history, t, ts, s.history);
    EntriesMoved(s.threads, s.history.life, Doomed(s), t, ts, s.history.life, Doomed(s));
    LoopsMoved(s.threads, InsideAfter(s), s.loopers, s.engineLists, t, ts, InsideAfter(s), s.engineLists);
  }

  lemma LeaveEngineKept(s: State, t: Tid)
    requires ThreadInv(s) && IsThread(s, t) && s.threads[t].InEngine?
    ensures ThreadInv(LeaveEngineStep(s, t))
  {
    LoopEndsKept(s, LeaveEngineStep(s, t), t, s.threads[t].engine);
  }

  lemma LoopEndsKept(s: State, s': State, t: Tid, e: EngineId)
    requires ThreadInv(s) && IsThread(s, t) && s.threads[t] != Inside && LoopOf(s.threads[t], Return) == Some(e)
    requires s'.threads == s.threads[t := Outside] && s'.loopers == s.loopers - {e}
    requires Holder(s') == Holder(s) && InsideAfter(s') == InsideAfter(s)
    requires s'.history == s.history && s'.sub == s.sub && s'.mux == s.mux
    requires || s'.engineLists == s.engineLists
             || (&& s.threads[t] == InEngine(e, true)
                 && s'.engineLists == s.engineLists[e := if Count(s, e) == 0 then 0 else Count(s, e) - 1])
    ensures ThreadInv(s')
  {
    InsideMoved(s.threads, Holder(s), t, Outside, Holder(s));
    RunnersMoved(s.threads, s.history, t, Outside, s.history);
    EntriesMoved(s.threads, s.history.life, Doomed(s), t, Outside, s.history.life, Doomed(s));
    LoopEnds(s.threads, InsideAfter(s), s.loopers, s.engineLists, t, e, s'.engineLists);
    if s.mux.currentHandler == Engine(e) && s.threads[t] == InEngine(e, true) {
      assert Erasing(s.threads, s.loopers, e);
    }
  }
}
