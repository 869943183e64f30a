/** Runs of the task mutex in which unlock() signals a client that is not the next owner. */
module TaskMutexExamples {
  import opened TaskTypes
  import opened TaskMutex

  lemma ReachableStep(s: Mutex, t: nat)
    requires Reachable(s) && Can(s, t)
    ensures Reachable(Step(s, t))
  {
    hide Can, Step, Init;
    var run :| IsRun(run) && run[|run| - 1] == s;
    var run' := run + [Step(s, t)];
    forall i | 0 < i < |run'| ensures Next(run'[i - 1], run'[i]) {
      if i < |run| {
        assert run'[i - 1] == run[i - 1] && run'[i] == run[i];
      }
    }
    assert IsRun(run') && run'[|run'| - 1] == Step(s, t);
  }

  lemma InitReachable(s: Mutex)
    requires Init(s)
    ensures Reachable(s)
  {
    var run := [s];
    assert IsRun(run) && run[|run| - 1] == s;
  }

  /** The client takes a step to next. */
  lemma Go(s: Mutex, t: nat, next: Mutex) returns (s': Mutex)
    requires Reachable(s) && Can(s, t) && next == Step(s, t)
    ensures Reachable(s') && s' == next
  {
    ReachableStep(s, t);
    s' := next;
  }

  /** A state of the queue before the first signal. */
  function Silent(head: Node, tail: Node, next: map<Node, Node>, clients: seq<Client>, order: seq<Node>,
                  exchanged: seq<Node>, popped: seq<Node>, last: Option<nat>): Mutex {
    Mutex(head, tail, next, clients, |exchanged| + 1, order, exchanged, popped, {}, {}, last)
  }

  lemma Unlocked() returns (s: Mutex)
    ensures Reachable(s)
    ensures s == Silent(STUB, STUB, map[], [Outside, Outside, Outside], [STUB], [], [], None)
  {
    hide Reachable;
    s := Silent(STUB, STUB, map[], [Outside, Outside, Outside], [STUB], [], [], None);
    InitReachable(s);
  }

  // ---- A client locks and unlocks the mutex, and stops for a while in peek() ----

  lemma FirstLocks() returns (s: Mutex)
    ensures Reachable(s)
    ensures s == Silent(1, STUB, map[STUB := 1], [Owning(1), Outside, Outside], [STUB, 1], [1], [], None)
  {
    hide Reachable;
    s := Unlocked();
    s := Go(s, 0, s.(clients := [Exchanging(1), Outside, Outside], unused := 2));
    s := Go(s, 0, s.(clients := [Loading(1, STUB), Outside, Outside], head := 1, order := [STUB, 1], exchanged := [1]));
    s := Go(s, 0, s.(clients := [Linking(1, STUB, true), Outside, Outside]));
    s := Go(s, 0, s.(clients := [Owning(1), Outside, Outside], next := map[STUB := 1]));
  }

  lemma FirstPops() returns (s: Mutex)
    ensures Reachable(s)
    ensures s == Silent(1, 1, map[STUB := 1], [Popping(1, ClearStub), Outside, Outside], [1], [1], [], None)
  {
    hide Reachable;
    s := FirstLocks();
    s := Go(s, 0, s.(clients := [Popping(1, ReadNext), Outside, Outside]));
    s := Go(s, 0, s.(clients := [Popping(1, ReadOwnNext), Outside, Outside], tail := 1, order := [1]));
    s := Go(s, 0, s.(clients := [Popping(1, TestHead), Outside, Outside]));
    s := Go(s, 0, s.(clients := [Popping(1, ClearStub), Outside, Outside]));
  }

  lemma FirstUnlocks() returns (s: Mutex)
    ensures Reachable(s)
    ensures s == Silent(STUB, STUB, map[1 := STUB], [Peeking(ReadHead), Outside, Outside], [STUB], [1], [1], Some(0))
  {
    hide Reachable;
    s := FirstPops();
    s := Go(s, 0, s.(clients := [Popping(1, ExchangeStub), Outside, Outside], next := map[]));
    s := Go(s, 0, s.(clients := [Popping(1, LinkStub(1)), Outside, Outside], head := STUB, order := [1, STUB]));
    s := Go(s, 0, s.(clients := [Popping(1, ReadLast), Outside, Outside], next := map[1 := STUB]));
    s := Go(s, 0, s.(clients := [Peeking(ReadTail), Outside, Outside], tail := STUB, order := [STUB], popped := [1],
                     last := Some(0)));
    s := Go(s, 0, s.(clients := [Peeking(ReadHead), Outside, Outside]));
  }

  const LINKED: map<Node, Node> := map[1 := STUB, STUB := 2]

  /** A second client locks the mutex. */
  lemma SecondLocks() returns (s: Mutex)
    ensures Reachable(s)
    ensures s == Silent(2, STUB, LINKED, [Peeking(ReadHead), Owning(2), Outside], [STUB, 2], [1, 2], [1], Some(0))
  {
    hide Reachable;
    s := FirstUnlocks();
    s := Go(s, 1, s.(clients := [Peeking(ReadHead), Exchanging(2), Outside], unused := 3));
    s := Go(s, 1, s.(clients := [Peeking(ReadHead), Loading(2, STUB), Outside], head := 2, order := [STUB, 2],
                     exchanged := [1, 2]));
    s := Go(s, 1, s.(clients := [Peeking(ReadHead), Linking(2, STUB, true), Outside]));
    s := Go(s, 1, s.(clients := [Peeking(ReadHead), Owning(2), Outside], next := LINKED));
  }

  // ---- A signal that comes too early ----

  /** The second client calls unlock(), too, and stops before it links the stub. */
  lemma SecondPushesStub(peek: PeekPhase, s0: Mutex) returns (s: Mutex)
    requires Reachable(s0)
    requires s0 == Silent(2, STUB, LINKED, [Peeking(peek), Owning(2), Outside], [STUB, 2], [1, 2], [1], Some(0))
    ensures Reachable(s)
    ensures s == Silent(STUB, 2, map[1 := STUB], [Peeking(peek), Popping(2, LinkStub(2)), Outside], [2, STUB],
                        [1, 2], [1], Some(0))
  {
    hide Reachable;
    s := Go(s0, 1, s0.(clients := [Peeking(peek), Popping(2, ReadNext), Outside]));
    s := Go(s, 1, s.(clients := [Peeking(peek), Popping(2, ReadOwnNext), Outside], tail := 2, order := [2]));
    s := Go(s, 1, s.(clients := [Peeking(peek), Popping(2, TestHead), Outside]));
    s := Go(s, 1, s.(clients := [Peeking(peek), Popping(2, ClearStub), Outside]));
    s := Go(s, 1, s.(clients := [Peeking(peek), Popping(2, ExchangeStub), Outside], next := map[1 := STUB]));
    s := Go(s, 1, s.(clients := [Peeking(peek), Popping(2, LinkStub(2)), Outside], head := STUB, order := [2, STUB]));
  }

  /** A third client fails to lock the mutex. */
  lemma ThirdWaits() returns (s: Mutex)
    ensures Reachable(s)
    ensures s == Silent(3, 2, map[1 := STUB, STUB := 3], [Peeking(ReadHead), Popping(2, LinkStub(2)), Waiting(3)],
                        [2, STUB, 3], [1, 2, 3], [1], Some(0))
  {
    hide Reachable;
    s := SecondLocks();
    s := SecondPushesStub(ReadHead, s);
    s := Go(s, 2, s.(clients := s.clients[2 := Exchanging(3)], unused := 4));
    s := Go(s, 2, s.(clients := s.clients[2 := Loading(3, STUB)], head := 3, order := [2, STUB, 3],
                     exchanged := [1, 2, 3]));
    s := Go(s, 2, s.(clients := s.clients[2 := Linking(3, STUB, false)]));
    s := Go(s, 2, s.(clients := s.clients[2 := Waiting(3)], next := map[1 := STUB, STUB := 3]));
  }

  /** Now the first client goes on with peek(), and signals the third client, although the second one did not let go
      of the mutex yet: a task that was woken up is not always the owner. */
  lemma EarlySignal() returns (s: Mutex)
    ensures Reachable(s) && |s.clients| == 3
    ensures s.clients[2] == Waiting(3) && 3 in s.signalled && 3 !in s.told
    ensures Front(s.order) == Some(2) && Owns(s, 1) && !Owns(s, 2)
  {
    hide Reachable;
    s := ThirdWaits();
    s := Go(s, 0, s.(clients := s.clients[0 := Peeking(Spin)]));
    s := Go(s, 0, s.(clients := s.clients[0 := Peeking(Notify(3))]));
    s := Go(s, 0, s.(clients := s.clients[0 := Outside], signalled := {3}));
  }

  // ---- A signal that comes too late ----

  /** The first client goes on with peek() while the second one owns the mutex, finds its node, and stops again. */
  lemma FindsSecond() returns (s: Mutex)
    ensures Reachable(s)
    ensures s == Silent(2, STUB, LINKED, [Peeking(Notify(2)), Owning(2), Outside], [STUB, 2], [1, 2], [1], Some(0))
  {
    hide Reachable;
    s := SecondLocks();
    s := Go(s, 0, s.(clients := [Peeking(Spin), Owning(2), Outside]));
    s := Go(s, 0, s.(clients := [Peeking(Notify(2)), Owning(2), Outside]));
  }

  /** Before it sends the signal, the second client unlocks the mutex: the node that is about to be signalled was
      popped, and deallocated. */
  lemma LateSignal() returns (s: Mutex)
    ensures Reachable(s) && |s.clients| == 3 && s.clients[0] == Peeking(Notify(2))
    ensures 2 in s.popped && 2 !in s.order && Front(s.order) == None
  {
    hide Reachable;
    s := FindsSecond();
    s := SecondPushesStub(Notify(2), s);
    s := Go(s, 1, s.(clients := [Peeking(Notify(2)), Popping(2, ReadLast), Outside],
                     next := map[1 := STUB, 2 := STUB]));
    s := Go(s, 1, s.(clients := [Peeking(Notify(2)), Peeking(ReadTail), Outside], tail := STUB, order := [STUB],
                     popped := [1, 2], last := Some(1)));
  }
}
