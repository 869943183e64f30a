/** The queue of a task mutex as an object: push(), pop() and peek() with their loops, and lock() and unlock().

    Between two steps of a client other clients take steps, which are read from `schedule`: one turn for each step of
    the client. A call is over when it returns, or when the schedule is. The contracts say that the object then is
    where `Play` says it is. */
module TaskMutexQueues {
  import opened TaskTypes
  import opened TaskMutex

  /** The clients that take steps in a turn. */
  type Turn = seq<nat>

  // ---- What a call does, turn by turn ----

  function PlayMove(s: Mutex, t: nat, u: nat): Mutex {
    if u != t && Can(s, u) then Step(s, u) else s
  }

  function Others(s: Mutex, t: nat, moves: Turn): Mutex {
    if moves == [] then s else PlayMove(Others(s, t, moves[..|moves| - 1]), t, moves[|moves| - 1])
  }

  /** The client is inside lock() or unlock(). */
  predicate IsBusy(s: Mutex, t: nat) {
    t < |s.clients| && !s.clients[t].Outside? && !s.clients[t].Waiting? && !s.clients[t].Owning?
  }

  function PlayOwn(s: Mutex, t: nat): Mutex {
    if IsBusy(s, t) then Step(s, t) else s
  }

  /** The state after the turns from `start` to `end`. */
  function Play(s: Mutex, t: nat, schedule: seq<Turn>, start: nat, end: nat): Mutex
    requires start <= end <= |schedule|
  {
    if start == end then s
    else PlayOwn(Others(Play(s, t, schedule, start, end - 1), t, schedule[end - 1]), t)
  }

  // ---- What a client can rely on ----

  /** What a client can rely on while other clients take steps. */
  predicate Undisturbed(s: Mutex, s': Mutex, t: nat) {
    && |s'.clients| == |s.clients| && s.popped <= s'.popped
    && (t < |s.clients| ==> s'.clients[t] == s.clients[t] && (s.clients[t].Popping? ==> s'.tail == s.tail))
  }

  lemma OtherStep(s: Mutex, u: nat, t: nat)
    requires Inv(s) && Can(s, u) && u != t
    ensures Undisturbed(s, Step(s, u), t)
  {
    if t < |s.clients| && s.clients[t].Popping? {
      OnlyOwner(s, t, u);
    }
  }

  lemma ExtendRun(run: seq<Mutex>, t: nat)
    requires IsRun(run) && Can(run[|run| - 1], t)
    ensures IsRun(run + [Step(run[|run| - 1], t)])
  {
    hide Can, Step, Init;
    var s' := Step(run[|run| - 1], t);
    var run' := run + [s'];
    forall i | 0 < i < |run'| ensures Next(run'[i - 1], run'[i]) {
      if i < |run| {
        assert run'[i - 1] == run[i - 1] && run'[i] == run[i];
      }
    }
  }

  /** The call that a client makes: what happened before it, with its first step, and the first turn that it takes. */
  datatype Calling = Calling(client: nat, before: seq<Mutex>, start: nat)

  class Queue {
    // m_head, m_tail and the m_next of each node.
    var head: Node
    var tail: Node
    var next: map<Node, Node>
    var unused: Node
    var signalled: set<Node>

    // The system that the queue is part of, what happens to it, and how many turns were taken.
    var now: Mutex
    const schedule: seq<Turn>
    var clock: nat

    // What happened so far, the call that is being made, and whether a turn was begun.
    ghost var run: seq<Mutex>
    ghost var call: Calling
    ghost var begun: bool

    predicate Agrees(s: Mutex)
      reads this
    {
      s.head == head && s.tail == tail && s.next == next && s.unused == unused && s.signalled == signalled
    }

    /** The run is one of the step system, and the call has done what it does in the turns that were taken. */
    ghost predicate Plays()
      reads this`now, this`run, this`clock, this`call, this`begun
    {
      && |run| > 0 && IsRun(run) && run[|run| - 1] == now
      && |call.before| > 0 && call.before <= run && call.start <= clock <= |schedule|
      && var s := call.before[|call.before| - 1];
         if begun then
           call.start < clock
           && now == Others(Play(s, call.client, schedule, call.start, clock - 1), call.client, schedule[clock - 1])
         else
           now == Play(s, call.client, schedule, call.start, clock)
    }

    ghost predicate Valid()
      reads this
    {
      Plays() && Agrees(now)
    }

    /** Between two turns of client t. */
    ghost predicate Ready(t: nat)
      reads this
    {
      Valid() && !begun && call.client == t
    }

    /** In a turn of client t, which is about to take its next step. */
    ghost predicate Stepping(t: nat)
      reads this
    {
      Valid() && begun && call.client == t
    }

    predicate At(t: nat, c: Client)
      reads this`now
    {
      t < |now.clients| && now.clients[t] == c
    }

    /** What a call has done whose first step led to `first`: the turns that were taken since. */
    ghost predicate Called(t: nat, first: Mutex, start: nat)
      reads this
    {
      Ready(t) && start <= clock <= |schedule| && now == Play(first, t, schedule, start, clock)
    }

    constructor (clients: nat, schedule: seq<Turn>)
      ensures Ready(0) && Init(now) && |now.clients| == clients && this.schedule == schedule && clock == 0
    {
      head, tail, next, unused, signalled := STUB, STUB, map[], 1, {};
      var first := Mutex(STUB, STUB, map[], seq(clients, i => Outside), 1, [STUB], [], [], {}, {}, None);
      now := first;
      run := [first];
      this.schedule, clock := schedule, 0;
      call, begun := Calling(0, [first], 0), false;
    }

    /** The client took its next step, and the fields are as they should be after it. */
    method Commit(t: nat)
      requires Plays() && begun && call.client == t && IsBusy(now, t) && Agrees(Step(now, t))
      modifies this`now, this`run, this`begun
      ensures Ready(t) && now == Step(old(now), t) && run == old(run) + [now]
    {
      hide Step, IsRun;
      assert Can(now, t);
      ExtendRun(run, t);
      now := Step(now, t);
      run := run + [now];
      begun := false;
    }

    /** The first step of a call, which needs no turn. */
    method StartCall(t: nat)
      requires Plays() && !begun && Can(now, t) && !IsBusy(now, t) && Agrees(Step(now, t))
      modifies this`now, this`run, this`call
      ensures Ready(t) && now == Step(old(now), t) && run == old(run) + [now] && call == Calling(t, run, clock)
    {
      hide Step, Can, IsRun, IsBusy;
      ExtendRun(run, t);
      now := Step(now, t);
      run := run + [now];
      call := Calling(t, run, clock);
    }

    lemma TurnsTaken(t: nat)
      requires Ready(t)
      ensures |call.before| > 0 && Called(t, call.before[|call.before| - 1], call.start)
    {
    }

    /** A turn, if there is one: other clients take steps. */
    method NextTurn(t: nat) returns (inTime: bool)
      requires Ready(t)
      modifies this
      ensures call == old(call) && old(run) <= run && Undisturbed(old(now), now, t)
      ensures if inTime then Stepping(t) && clock == old(clock) + 1
              else Ready(t) && clock == old(clock) == |schedule| && now == old(now)
    {
      hide IsRun, Step, Can, PlayMove, PlayOwn;
      inTime := clock < |schedule|;
      if inTime {
        var others := schedule[clock];
        var s := now;
        for i := 0 to |others|
          invariant |run| > 0 && IsRun(run) && run[|run| - 1] == now && Agrees(now) && old(run) <= run
          invariant now == Others(s, t, others[..i]) && Undisturbed(s, now, t)
          invariant call == old(call) && clock == old(clock) && !begun
        {
          assert others[..i + 1][..i] == others[..i];
          OtherMove(t, others[i]);
        }
        assert others[..|others|] == others;
        clock := clock + 1;
        begun := true;
      }
    }

    method OtherMove(t: nat, u: nat)
      requires |run| > 0 && IsRun(run) && run[|run| - 1] == now && Agrees(now)
      modifies this
      ensures |run| > 0 && IsRun(run) && run[|run| - 1] == now && Agrees(now) && old(run) <= run
      ensures now == PlayMove(old(now), t, u) && Undisturbed(old(now), now, t)
      ensures call == old(call) && clock == old(clock) && begun == old(begun)
    {
      hide Step, Can, IsRun, Inv;
      if u != t && Can(now, u) {
        RunInv(run, |run| - 1);
        OtherStep(now, u, t);
        ExtendRun(run, u);
        var s' := Step(now, u);
        head, tail, next, unused, signalled := s'.head, s'.tail, s'.next, s'.unused, s'.signalled;
        now := s';
        run := run + [s'];
      }
    }

    // ---- push() ----

    method Push(t: nat, node: Node) returns (inTime: bool, front: FuzzyBool)
      requires Ready(t) && At(t, Exchanging(node))
      modifies this
      ensures Ready(t) && call == old(call) && old(run) <= run && old(clock) <= clock
      ensures inTime ==> At(t, if front == True then Owning(node) else Waiting(node))
      ensures !inTime ==> clock == |schedule|
    {
      hide IsRun, Plays;
      front := WasFalse;
      inTime := NextTurn(t);
      if inTime {
        var prev := ExchangeHead(t, node);
        inTime := NextTurn(t);
        if inTime {
          var isFront := prev == STUB && tail == STUB;
          Commit(t);
          inTime := NextTurn(t);
          if inTime {
            LinkNode(t, node, prev, isFront);
            front := if isFront then True else WasFalse;
          }
        }
      }
    }

    method ExchangeHead(t: nat, node: Node) returns (prev: Node)
      requires Stepping(t) && At(t, Exchanging(node))
      modifies this
      ensures Ready(t) && call == old(call) && old(run) <= run && clock == old(clock)
      ensures prev == old(head) && head == node && At(t, Loading(node, prev))
    {
      hide IsRun, Plays;
      prev := head;
      head := node;
      Commit(t);
    }

    method LinkNode(t: nat, node: Node, prev: Node, isFront: bool)
      requires Stepping(t) && At(t, Linking(node, prev, isFront))
      modifies this
      ensures Ready(t) && call == old(call) && old(run) <= run && clock == old(clock)
      ensures next == old(next)[prev := node] && At(t, if isFront then Owning(node) else Waiting(node))
    {
      hide IsRun, Plays;
      next := next[prev := node];
      Commit(t);
    }

    /** lock(): the node if the mutex was obtained. */
    method Lock(t: nat) returns (inTime: bool, handle: Option<Node>)
      requires Valid() && !begun && At(t, Outside)
      modifies this
      ensures Called(t, Step(old(now), t), old(clock)) && old(run) <= run
      ensures inTime && handle.Some? ==> At(t, Owning(handle.value)) && Front(now.order) == handle
      ensures inTime && handle.None? ==> At(t, Waiting(old(unused)))
      ensures !inTime ==> clock == |schedule|
    {
      hide IsRun, Inv, Plays;
      var node := unused;
      unused := unused + 1;
      StartCall(t);
      var haveLock;
      inTime, haveLock := Push(t, node);
      handle := None;
      if inTime && haveLock == True {
        handle := Some(node);
        OwnsFront(t);
      }
      TurnsTaken(t);
    }

    lemma OwnsFront(t: nat)
      requires Valid() && t < |now.clients| && now.clients[t].Owning?
      ensures Front(now.order) == Some(now.clients[t].node)
    {
      hide IsRun;
      RunInv(run, |run| - 1);
      assert ClientOk(now, now.clients[t]);
    }

    // ---- pop() ----

    /** pop(): the node of this client, or nothing if another push is going on that is in the way. */
    method Pop(t: nat, node: Node) returns (inTime: bool, popped: Option<Node>)
      requires Ready(t) && At(t, Popping(node, ReadNext))
      modifies this
      ensures Ready(t) && call == old(call) && old(run) <= run && old(clock) <= clock
      ensures popped == None || popped == Some(node)
      ensures inTime ==> old(clock) < clock
      ensures inTime ==> At(t, if popped.Some? then Peeking(ReadTail) else Popping(node, ReadNext))
      ensures inTime && popped.Some? ==> node in now.popped
      ensures !inTime ==> clock == |schedule|
    {
      hide IsRun, Inv, Plays;
      popped := None;
      inTime := NextTurn(t);
      if !inTime {
        return;
      }
      FrontFacts(t, node);
      if tail == STUB {
        SkipStub(t, node);
        inTime := NextTurn(t);
        if !inTime {
          return;
        }
        FrontFacts(t, node);
      }
      if tail in next {
        TakeNode(t, node);
        popped := Some(node);
      } else {
        Commit(t);
        inTime, popped := PopLast(t, node);
      }
    }

    method SkipStub(t: nat, node: Node)
      requires Stepping(t) && At(t, Popping(node, ReadNext)) && tail == STUB && STUB in next
      modifies this
      ensures Ready(t) && call == old(call) && old(run) <= run && clock == old(clock)
      ensures tail == old(next)[STUB] && At(t, Popping(node, ReadOwnNext))
    {
      hide IsRun, Plays;
      tail := next[STUB];
      Commit(t);
    }

    /** The tail is unlinked. */
    method TakeNode(t: nat, node: Node)
      requires Stepping(t) && t < |now.clients| && now.clients[t].Popping? && now.clients[t].node == node
      requires now.clients[t].at in {ReadNext, ReadOwnNext, ReadLast} && tail == node != STUB && tail in next
      modifies this
      ensures Ready(t) && call == old(call) && old(run) <= run && clock == old(clock)
      ensures tail == old(next)[node] && At(t, Peeking(ReadTail)) && now.popped == old(now).popped + [node]
    {
      hide IsRun, Plays;
      tail := next[tail];
      Commit(t);
    }

    /** The tail has no link: unless another push is going on, the stub is pushed behind it. */
    method PopLast(t: nat, node: Node) returns (inTime: bool, popped: Option<Node>)
      requires Ready(t) && At(t, Popping(node, TestHead))
      modifies this
      ensures Ready(t) && call == old(call) && old(run) <= run && old(clock) <= clock
      ensures popped == None || popped == Some(node)
      ensures inTime ==> At(t, if popped.Some? then Peeking(ReadTail) else Popping(node, ReadNext))
      ensures inTime && popped.Some? ==> node in now.popped
      ensures !inTime ==> clock == |schedule|
    {
      hide IsRun, Inv, Plays;
      popped := None;
      inTime := NextTurn(t);
      if !inTime {
        return;
      }
      FrontFacts(t, node);
      var single := head == tail;
      Commit(t);
      if single {
        inTime := PushStub(t, node);
        if inTime {
          inTime, popped := ReadLinkAgain(t, node);
        }
      }
    }

    method ReadLinkAgain(t: nat, node: Node) returns (inTime: bool, popped: Option<Node>)
      requires Ready(t) && At(t, Popping(node, ReadLast))
      modifies this
      ensures Ready(t) && call == old(call) && old(run) <= run && old(clock) <= clock
      ensures popped == None || popped == Some(node)
      ensures inTime ==> At(t, if popped.Some? then Peeking(ReadTail) else Popping(node, ReadNext))
      ensures inTime && popped.Some? ==> node in now.popped
      ensures !inTime ==> clock == |schedule|
    {
      hide IsRun, Inv, Plays;
      popped := None;
      inTime := NextTurn(t);
      if inTime {
        FrontFacts(t, node);
        if tail in next {
          TakeNode(t, node);
          popped := Some(node);
        } else {
          Commit(t);
        }
      }
    }

    method PushStub(t: nat, node: Node) returns (inTime: bool)
      requires Ready(t) && At(t, Popping(node, ClearStub))
      modifies this
      ensures Ready(t) && call == old(call) && old(run) <= run && old(clock) <= clock
      ensures inTime ==> At(t, Popping(node, ReadLast))
      ensures !inTime ==> clock == |schedule|
    {
      hide IsRun, Inv, Plays;
      inTime := NextTurn(t);
      if inTime {
        UnlinkStub(t, node);
        inTime := NextTurn(t);
        if inTime {
          var prev := ExchangeStubNode(t, node);
          inTime := NextTurn(t);
          if inTime {
            LinkStubNode(t, node, prev);
          }
        }
      }
    }

    method UnlinkStub(t: nat, node: Node)
      requires Stepping(t) && At(t, Popping(node, ClearStub))
      modifies this
      ensures Ready(t) && call == old(call) && old(run) <= run && clock == old(clock)
      ensures next == old(next) - {STUB} && At(t, Popping(node, ExchangeStub))
    {
      hide IsRun, Plays;
      next := next - {STUB};
      Commit(t);
    }

    method ExchangeStubNode(t: nat, node: Node) returns (prev: Node)
      requires Stepping(t) && At(t, Popping(node, ExchangeStub))
      modifies this
      ensures Ready(t) && call == old(call) && old(run) <= run && clock == old(clock)
      ensures prev == old(head) && head == STUB && At(t, Popping(node, LinkStub(prev)))
    {
      hide IsRun, Plays;
      prev := head;
      head := STUB;
      Commit(t);
    }

    method LinkStubNode(t: nat, node: Node, prev: Node)
      requires Stepping(t) && At(t, Popping(node, LinkStub(prev)))
      modifies this
      ensures Ready(t) && call == old(call) && old(run) <= run && clock == old(clock)
      ensures next == old(next)[prev := STUB] && At(t, Popping(node, ReadLast))
    {
      hide IsRun, Plays;
      next := next[prev := STUB];
      Commit(t);
    }

    /** What the client that pops knows of the front of the queue. */
    lemma FrontFacts(t: nat, node: Node)
      requires Valid() && t < |now.clients| && now.clients[t].Popping? && now.clients[t].node == node
      ensures node != STUB && (now.clients[t].at == ReadNext && tail == STUB ==> STUB in next && next[STUB] == node)
      ensures now.clients[t].at != ReadNext || tail != STUB ==> tail == node
    {
      hide IsRun;
      RunInv(run, |run| - 1);
      assert ClientOk(now, now.clients[t]);
    }

    // ---- peek() and unlock() ----

    /** peek(): the node that the next pop() returns, if the queue is not empty. */
    method Peek(t: nat) returns (inTime: bool, found: Option<Node>)
      requires Ready(t) && At(t, Peeking(ReadTail))
      modifies this
      ensures Ready(t) && call == old(call) && old(run) <= run && old(clock) <= clock && old(now).popped <= now.popped
      ensures inTime ==> At(t, if found.Some? then Peeking(Notify(found.value)) else Outside)
      ensures !inTime ==> clock == |schedule|
    {
      hide IsRun, Plays;
      found := None;
      inTime := NextTurn(t);
      if !inTime {
        return;
      }
      var tail' := tail;
      Commit(t);
      if tail' != STUB {
        return true, Some(tail');
      }
      inTime := NextTurn(t);
      if !inTime {
        return;
      }
      var head' := head;
      Commit(t);
      if head' != STUB {
        inTime, found := WaitForLink(t);
      }
    }

    /** Spins until the push of the node behind the stub is complete. */
    method WaitForLink(t: nat) returns (inTime: bool, found: Option<Node>)
      requires Ready(t) && At(t, Peeking(Spin))
      modifies this
      ensures Ready(t) && call == old(call) && old(run) <= run && old(clock) <= clock && old(now).popped <= now.popped
      ensures inTime ==> found.Some? && At(t, Peeking(Notify(found.value)))
      ensures !inTime ==> clock == |schedule|
    {
      hide IsRun, Plays;
      found, inTime := None, true;
      while inTime && found.None?
        invariant Ready(t) && call == old(call) && old(run) <= run
        invariant old(clock) <= clock && old(now).popped <= now.popped
        invariant At(t, Peeking(if found.Some? then Notify(found.value) else Spin))
        invariant !inTime ==> clock == |schedule| && found.None?
        decreases |schedule| - clock, inTime && found.None?
      {
        inTime := NextTurn(t);
        if inTime {
          if STUB in next {
            found := Some(next[STUB]);
          }
          Commit(t);
          ClockInSchedule();
        }
      }
    }

    lemma ClockInSchedule()
      requires Plays()
      ensures clock <= |schedule|
    {
    }

    /** unlock() */
    method Unlock(t: nat) returns (returned: bool)
      requires Valid() && !begun && t < |now.clients| && Owns(now, t) && !now.clients[t].Popping?
      modifies this
      ensures Called(t, Step(old(now), t), old(clock)) && old(run) <= run
      ensures returned ==> At(t, Outside) && old(now).clients[t].node in now.popped
      ensures !returned ==> clock == |schedule|
    {
      hide IsRun, Inv, Plays;
      var node := now.clients[t].node;
      StartCall(t);
      var owner;
      returned, owner := Pop(t, node);
      while returned && owner.None?
        invariant Ready(t) && old(run) <= run
        invariant call.before == old(run) + [Step(old(now), t)] && call.start == old(clock)
        invariant returned && owner.Some? ==> node in now.popped
        invariant returned ==> At(t, if owner.Some? then Peeking(ReadTail) else Popping(node, ReadNext))
        invariant !returned ==> clock == |schedule|
        decreases |schedule| - clock, returned
      {
        returned, owner := Pop(t, node);
        ClockInSchedule();
      }
      if returned {
        returned := NotifyNext(t, node);
      }
      TurnsTaken(t);
    }

    method NotifyNext(t: nat, ghost node: Node) returns (returned: bool)
      requires Ready(t) && At(t, Peeking(ReadTail)) && node in now.popped
      modifies this
      ensures Ready(t) && call == old(call) && old(run) <= run && old(clock) <= clock
      ensures returned ==> At(t, Outside) && node in now.popped
      ensures !returned ==> clock == |schedule|
    {
      hide IsRun, Plays;
      var next';
      returned, next' := Peek(t);
      if returned && next'.Some? {
        returned := NextTurn(t);
        if returned {
          SignalNode(t, next'.value);
        }
      }
    }

    method SignalNode(t: nat, node: Node)
      requires Stepping(t) && At(t, Peeking(Notify(node)))
      modifies this
      ensures Ready(t) && call == old(call) && old(run) <= run && clock == old(clock)
      ensures signalled == old(signalled) + {node} && At(t, Outside) && now.popped == old(now).popped
    {
      hide IsRun, Plays;
      signalled := signalled + {node};
      Commit(t);
    }
  }
}
