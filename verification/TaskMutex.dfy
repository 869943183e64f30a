/** The mutex for tasks: a queue of nodes that many clients push to, and whose front node stands for ownership.

    A step is one access to memory that other clients can change. A client is a task that uses the mutex. Each call of
    lock() allocates a node with a name of its own; a signal is sent to a node. */
module TaskMutex {
  import opened TaskTypes

  type Node = nat

  const STUB: Node := 0

  /** Where unlock() is inside pop(). */
  datatype PopPhase =
    | ReadNext            // about to read the link of the tail, the stub if it is that
    | ReadOwnNext         // the tail is the client's node; about to read its link
    | TestHead            // there was no link; about to compare m_head with the tail
    | ClearStub | ExchangeStub | LinkStub(prev: Node)
    | ReadLast            // the stub was pushed; about to read the link once more

  /** Where unlock() is inside peek(), and at the call of signal(). */
  datatype PeekPhase = ReadTail | ReadHead | Spin | Notify(next: Node)

  datatype Client =
    | Outside
    | Exchanging(node: Node)                            // push(): about to exchange m_head
    | Loading(node: Node, prev: Node)                   // about to load m_tail
    | Linking(node: Node, prev: Node, isFront: bool)    // about to link the node
    | Waiting(node: Node)                               // lock() returned nullptr
    | Owning(node: Node)                                // lock() returned the node
    | Popping(node: Node, at: PopPhase)
    | Peeking(peek: PeekPhase)

  datatype Mutex = Mutex(
    head: Node,
    tail: Node,
    next: map<Node, Node>,        // a node without a link is not in the map
    clients: seq<Client>,
    unused: Node,                 // the next name for a node
    // What no step depends on:
    order: seq<Node>,             // the nodes from m_tail to m_head, in the order of their exchange
    exchanged: seq<Node>,         // all nodes but the stub, in the order of their exchange
    popped: seq<Node>,
    signalled: set<Node>,
    told: set<Node>,              // those that were signalled while they were the front node
    last: Option<nat>)            // the client that popped last

  predicate Init(s: Mutex) {
    && s.head == s.tail == STUB && s.next == map[] && s.unused == 1 && s.order == [STUB]
    && s.exchanged == [] && s.popped == [] && s.signalled == {} && s.told == {} && s.last == None
    && forall t | 0 <= t < |s.clients| :: s.clients[t] == Outside
  }

  /** The node that will be popped next, if there is one. */
  function Front(order: seq<Node>): Option<Node> {
    if order == [] then None
    else if order[0] != STUB then Some(order[0])
    else if |order| > 1 then Some(order[1])
    else None
  }

  /** A client calls lock() any time, and unlock() when it owns the mutex: lock() returned its node, or its node is
      the front node and was signalled. */
  predicate Can(s: Mutex, t: nat) {
    t < |s.clients| && (s.clients[t].Waiting? ==>
      s.clients[t].node in s.signalled && Front(s.order) == Some(s.clients[t].node))
  }

  function Goto(s: Mutex, t: nat, c: Client): Mutex
    requires t < |s.clients|
  {
    s.(clients := s.clients[t := c])
  }

  function Push(s: Mutex, n: Node): Mutex {
    s.(head := n, order := s.order + [n])
  }

  /** pop() moves the tail to the next node. */
  function Advance(s: Mutex, next: Node): Mutex {
    s.(tail := next, order := if s.order == [] then [] else s.order[1..])
  }

  /** pop() returns the node of client t. */
  function Pop(s: Mutex, t: nat, next: Node): Mutex
    requires t < |s.clients|
  {
    Goto(Advance(s, next), t, Peeking(ReadTail)).(popped := s.popped + [s.tail], last := Some(t))
  }

  function PopStep(s: Mutex, t: nat): Mutex
    requires t < |s.clients| && s.clients[t].Popping?
  {
    var n := s.clients[t].node;
    match s.clients[t].at
    case ReadNext =>
      if s.tail != STUB then
        if s.tail in s.next then Pop(s, t, s.next[s.tail]) else Goto(s, t, Popping(n, TestHead))
      else if STUB in s.next then
        Goto(Advance(s, s.next[STUB]), t, Popping(n, ReadOwnNext))
      else s
    case ReadOwnNext =>
      if s.tail in s.next then Pop(s, t, s.next[s.tail]) else Goto(s, t, Popping(n, TestHead))
    case TestHead => Goto(s, t, Popping(n, if s.head == s.tail then ClearStub else ReadNext))
    case ClearStub => Goto(s.(next := s.next - {STUB}), t, Popping(n, ExchangeStub))
    case ExchangeStub => Goto(Push(s, STUB), t, Popping(n, LinkStub(s.head)))
    case LinkStub(prev) => Goto(s.(next := s.next[prev := STUB]), t, Popping(n, ReadLast))
    case ReadLast =>
      if s.tail in s.next then Pop(s, t, s.next[s.tail]) else Goto(s, t, Popping(n, ReadNext))
  }

  function PeekStep(s: Mutex, t: nat): Mutex
    requires t < |s.clients| && s.clients[t].Peeking?
  {
    match s.clients[t].peek
    case ReadTail => Goto(s, t, Peeking(if s.tail != STUB then Notify(s.tail) else ReadHead))
    case ReadHead => Goto(s, t, if s.head == STUB then Outside else Peeking(Spin))
    case Spin => if STUB in s.next then Goto(s, t, Peeking(Notify(s.next[STUB]))) else s
    case Notify(n) =>
      var told := if Front(s.order) == Some(n) then s.told + {n} else s.told;
      Goto(s, t, Outside).(signalled := s.signalled + {n}, told := told)
  }

  function Step(s: Mutex, t: nat): Mutex
    requires Can(s, t)
  {
    match s.clients[t]
    case Outside => Goto(s, t, Exchanging(s.unused)).(unused := s.unused + 1)
    case Exchanging(n) => Goto(Push(s, n), t, Loading(n, s.head)).(exchanged := s.exchanged + [n])
    case Loading(n, prev) => Goto(s, t, Linking(n, prev, prev == STUB && s.tail == STUB))
    case Linking(n, prev, isFront) =>
      Goto(s.(next := s.next[prev := n]), t, if isFront then Owning(n) else Waiting(n))
    case Waiting(n) => Goto(s, t, Popping(n, ReadNext))
    case Owning(n) => Goto(s, t, Popping(n, ReadNext))
    case Popping(_, _) => PopStep(s, t)
    case Peeking(_) => PeekStep(s, t)
  }

  ghost predicate Next(s: Mutex, s': Mutex) {
    exists t :: Can(s, t) && s' == Step(s, t)
  }

  ghost predicate IsRun(run: seq<Mutex>) {
    |run| > 0 && Init(run[0]) && forall i | 0 < i < |run| :: Next(run[i - 1], run[i])
  }

  // ---- The invariant ----

  predicate Distinct(order: seq<Node>) {
    forall i, j | 0 <= i < j < |order| :: order[i] != order[j]
  }

  /** Node n was pushed right after node p. */
  predicate Follows(order: seq<Node>, p: Node, n: Node) {
    exists i :: 0 <= i < |order| - 1 && order[i] == p && order[i + 1] == n
  }

  /** The consumer can get to node n. */
  predicate Linked(order: seq<Node>, next: map<Node, Node>, n: Node) {
    || (order != [] && order[0] == n)
    || exists i :: 0 <= i < |order| - 1 && order[i] in next && order[i + 1] == n
  }

  function Real(order: seq<Node>): seq<Node> {
    if order == [] then []
    else if order[0] == STUB then Real(order[1..])
    else [order[0]] + Real(order[1..])
  }

  predicate Chain(s: Mutex) {
    && s.order != [] && s.order[0] == s.tail && s.order[|s.order| - 1] == s.head
    && Distinct(s.order)
    && (forall i | 0 <= i < |s.order| :: s.order[i] < s.unused)
    && (forall i | 0 <= i < |s.order| - 1 && s.order[i] in s.next :: s.next[s.order[i]] == s.order[i + 1])
    && s.head !in s.next
    && (forall n | n in s.next :: n < s.unused)
    && s.unused > 0
  }

  function NodeOf(c: Client): Option<Node> {
    match c
    case Outside => None
    case Peeking(_) => None
    case Exchanging(n) => Some(n)
    case Loading(n, _) => Some(n)
    case Linking(n, _, _) => Some(n)
    case Waiting(n) => Some(n)
    case Owning(n) => Some(n)
    case Popping(n, _) => Some(n)
  }

  /** The push of a client that exchanged m_head, but did not link its node yet. */
  predicate Pending(s: Mutex, p: Node, n: Node) {
    Follows(s.order, p, n) && p !in s.next
  }

  predicate PopOk(s: Mutex, n: Node, at: PopPhase) {
    && Front(s.order) == Some(n) && Linked(s.order, s.next, n)
    && (!at.ReadNext? ==> s.tail == n)
    && (at.ClearStub? || at.ExchangeStub? ==> STUB !in s.order)
    && (at.ExchangeStub? ==> STUB !in s.next)
    && (at.LinkStub? ==> Pending(s, at.prev, STUB))
  }

  predicate ClientOk(s: Mutex, c: Client) {
    && (NodeOf(c).Some? ==> STUB < NodeOf(c).value < s.unused)
    && match c
       case Outside => true
       case Exchanging(n) => n !in s.order && n !in s.next
       case Loading(n, p) => Pending(s, p, n)
       case Linking(n, p, isFront) => Pending(s, p, n) && (isFront ==> Front(s.order) == Some(n))
       case Waiting(n) => n in s.order && Linked(s.order, s.next, n)
       case Owning(n) => Front(s.order) == Some(n) && Linked(s.order, s.next, n)
       case Popping(n, at) => PopOk(s, n, at)
       case Peeking(_) => true
  }

  predicate NodesDiffer(clients: seq<Client>) {
    forall t, u | 0 <= t < u < |clients| && NodeOf(clients[t]).Some? :: NodeOf(clients[t]) != NodeOf(clients[u])
  }

  /** push() returned WasFalse, or is about to. */
  predicate MustWait(c: Client) {
    c.Waiting? || (c.Linking? && !c.isFront)
  }

  /** Client t has still to find node n in peek(), or has found it. */
  predicate WillNotify(s: Mutex, t: nat, n: Node) {
    && t < |s.clients| && s.clients[t].Peeking?
    && match s.clients[t].peek
       case ReadTail => true
       case ReadHead => s.tail == STUB
       case Spin => s.tail == STUB
       case Notify(next) => next == n
  }

  predicate HandOff(s: Mutex) {
    forall t | 0 <= t < |s.clients| && MustWait(s.clients[t]) && Front(s.order) == NodeOf(s.clients[t]) ::
      var n := NodeOf(s.clients[t]).value;
      n in s.told || (s.last.Some? && WillNotify(s, s.last.value, n))
  }

  predicate Inv(s: Mutex) {
    && Chain(s) && NodesDiffer(s.clients) && HandOff(s)
    && (forall t | 0 <= t < |s.clients| :: ClientOk(s, s.clients[t]))
    && s.popped + Real(s.order) == s.exchanged && s.told <= s.signalled
  }

  lemma InitInv(s: Mutex)
    requires Init(s)
    ensures Inv(s)
  {
  }

  // ---- Each step keeps it ----

  /** All of the invariant but what it says about client t. */
  predicate OthersOk(s: Mutex, t: nat) {
    && Chain(s) && NodesDiffer(s.clients) && HandOff(s)
    && (forall u | 0 <= u < |s.clients| && u != t :: ClientOk(s, s.clients[u]))
    && s.popped + Real(s.order) == s.exchanged && s.told <= s.signalled
  }

  /** Client t goes on. */
  lemma ClientStep(s: Mutex, t: nat, c: Client)
    requires OthersOk(s, t) && t < |s.clients| && ClientOk(s, c)
    requires NodeOf(c) == NodeOf(s.clients[t])
    requires MustWait(c) ==> MustWait(s.clients[t]) || Front(s.order) != NodeOf(c)
    requires s.last == Some(t) ==>
      forall n: Node | WillNotify(s, t, n) && Front(s.order) == Some(n) && n !in s.told ::
        WillNotify(Goto(s, t, c), t, n)
    ensures Inv(Goto(s, t, c))
  {
    hide Chain, Real, Front;
    forall u | 0 <= u < |s.clients| ensures ClientOk(Goto(s, t, c), Goto(s, t, c).clients[u]) {
      SameOk(s, Goto(s, t, c), Goto(s, t, c).clients[u]);
    }
    SameChain(s, Goto(s, t, c));
    hide ClientOk;
  }

  lemma SameOk(s: Mutex, s': Mutex, c: Client)
    requires ClientOk(s, c) && s'.order == s.order && s'.next == s.next && s'.tail == s.tail && s'.unused == s.unused
    ensures ClientOk(s', c)
  {
  }

  lemma SameChain(s: Mutex, s': Mutex)
    requires Chain(s) && s'.order == s.order && s'.next == s.next
    requires s'.tail == s.tail && s'.head == s.head && s'.unused == s.unused
    ensures Chain(s')
  {
  }

  lemma RealPlus(a: seq<Node>, b: seq<Node>)
    ensures Real(a + b) == Real(a) + Real(b)
  {
    if a != [] {
      assert (a + b)[1..] == a[1..] + b;
      RealPlus(a[1..], b);
    } else {
      assert a + b == b;
    }
  }

  /** A node that is pushed, but not linked yet, changes nothing for the nodes that were there. */
  lemma PushFacts(order: seq<Node>, next: map<Node, Node>, n: Node)
    requires order != []
    ensures forall p, q | Follows(order, p, q) :: Follows(order + [n], p, q)
    ensures forall q | Linked(order, next, q) :: Linked(order + [n], next, q)
    ensures Follows(order + [n], order[|order| - 1], n)
    ensures Front(order).Some? ==> Front(order + [n]) == Front(order)
  {
    var order' := order + [n];
    assert order'[|order| - 1] == order[|order| - 1] && order'[|order|] == n;
    forall p, q | Follows(order, p, q) ensures Follows(order', p, q) {
      var i :| 0 <= i < |order| - 1 && order[i] == p && order[i + 1] == q;
      assert order'[i] == p && order'[i + 1] == q;
    }
    forall q | Linked(order, next, q) ensures Linked(order', next, q) {
      if order[0] != q {
        var i :| 0 <= i < |order| - 1 && order[i] in next && order[i + 1] == q;
        assert order'[i] in next && order'[i + 1] == q;
      }
    }
  }

  lemma PushChain(s: Mutex, n: Node)
    requires Chain(s) && n !in s.order && n !in s.next && n < s.unused
    ensures Chain(Push(s, n))
  {
  }

  /** A push by another client, or of the stub by the client that pops. */
  lemma PushOk(s: Mutex, n: Node, c: Client)
    requires Chain(s) && ClientOk(s, c) && n !in s.order && n !in s.next
    requires NodeOf(c) != Some(n) && (n == STUB ==> !c.Popping?)
    ensures ClientOk(Push(s, n), c)
  {
    hide Follows, Linked, Front;
    PushFacts(s.order, s.next, n);
  }

  lemma ExchangeKept(s: Mutex, t: nat, n: Node)
    requires Inv(s) && t < |s.clients| && s.clients[t] == Exchanging(n)
    ensures Inv(Goto(Push(s, n), t, Loading(n, s.head)).(exchanged := s.exchanged + [n]))
  {
    var c := Loading(n, s.head);
    var s' := Goto(Push(s, n), t, c).(exchanged := s.exchanged + [n]);
    assert ClientOk(s, s.clients[t]);
    assert Chain(s') by {
      PushChain(s, n);
    }
    assert s'.popped + Real(s'.order) == s'.exchanged by {
      RealPlus(s.order, [n]);
      assert Real([n]) == [n];
    }
    hide ClientOk, Chain, Real, Follows;
    forall u | 0 <= u < |s.clients| && u != t ensures ClientOk(s', s.clients[u]) {
      PushOk(s, n, s.clients[u]);
      SameOk(Push(s, n), s', s.clients[u]);
    }
    assert ClientOk(s', c) by {
      NewLoading(s, n);
      SameOk(Push(s, n), s', c);
    }
    PushHandOff(s, n);
    HandOffElsewhere(Push(s, n), s', t);
  }

  lemma NewLoading(s: Mutex, n: Node)
    requires Chain(s) && ClientOk(s, Exchanging(n))
    ensures ClientOk(Push(s, n), Loading(n, s.head))
  {
    PushFacts(s.order, s.next, n);
  }

  /** A push to a queue without a real node is of a node whose client does not wait. */
  lemma PushHandOff(s: Mutex, n: Node)
    requires Inv(s) && n != STUB
    requires forall t | 0 <= t < |s.clients| && MustWait(s.clients[t]) :: NodeOf(s.clients[t]) != Some(n)
    ensures HandOff(Push(s, n))
  {
    assert s.order != [];
    hide ClientOk, Chain, Real;
    PushFacts(s.order, s.next, n);
  }

  /** The step of a client that does not wait and does not notify leaves the hand-off to others. */
  lemma HandOffElsewhere(s: Mutex, s': Mutex, t: nat)
    requires HandOff(s) && t < |s.clients| && |s'.clients| == |s.clients|
    requires forall u | 0 <= u < |s.clients| && u != t :: s'.clients[u] == s.clients[u]
    requires !MustWait(s'.clients[t]) && !s.clients[t].Peeking?
    requires s'.order == s.order && s'.tail == s.tail && s'.last == s.last && s.told <= s'.told
    ensures HandOff(s')
  {
  }

  lemma LoadKept(s: Mutex, t: nat)
    requires Inv(s) && t < |s.clients| && s.clients[t].Loading?
    ensures Inv(Step(s, t))
  {
    var Loading(n, p) := s.clients[t];
    LoadFacts(s, n, p);
    ClientStep(s, t, Linking(n, p, p == STUB && s.tail == STUB));
  }

  /** push() returns True exactly if the node is the next one to be popped. */
  lemma LoadFacts(s: Mutex, n: Node, p: Node)
    requires Chain(s) && Pending(s, p, n) && n != STUB
    ensures p == STUB && s.tail == STUB <==> Front(s.order) == Some(n)
  {
    var i :| 0 <= i < |s.order| - 1 && s.order[i] == p && s.order[i + 1] == n;
    assert s.order[0] == STUB && p == STUB ==> i == 0;
    assert s.order[0] != n;
    assert s.order[0] == STUB && s.order[1] == n ==> i == 0;
  }

  function Link(s: Mutex, p: Node, n: Node): Mutex {
    s.(next := s.next[p := n])
  }

  lemma LinkFacts(s: Mutex, p: Node, n: Node)
    requires Chain(s) && Pending(s, p, n)
    ensures Chain(Link(s, p, n)) && Linked(s.order, Link(s, p, n).next, n)
    ensures p in s.order
  {
    var i :| 0 <= i < |s.order| - 1 && s.order[i] == p && s.order[i + 1] == n;
    assert s.order[i] in Link(s, p, n).next && s.order[i + 1] == n;
  }

  /** A link made by another client. */
  lemma LinkOk(s: Mutex, p: Node, n: Node, c: Client)
    requires Chain(s) && Pending(s, p, n) && ClientOk(s, c) && NodeOf(c) != Some(n)
    requires n == STUB ==> !c.Popping?
    ensures ClientOk(Link(s, p, n), c)
  {
    LinkFacts(s, p, n);
    LinkedStays(s.order, s.next, p, n);
    PendingStays(s, p, n);
  }

  lemma LinkedStays(order: seq<Node>, next: map<Node, Node>, p: Node, n: Node)
    ensures forall q | Linked(order, next, q) :: Linked(order, next[p := n], q)
  {
    var next' := next[p := n];
    forall q | Linked(order, next, q) ensures Linked(order, next', q) {
      if order[0] != q {
        var i :| 0 <= i < |order| - 1 && order[i] in next && order[i + 1] == q;
        assert order[i] in next' && order[i + 1] == q;
      }
    }
  }

  lemma PendingStays(s: Mutex, p: Node, n: Node)
    requires Chain(s) && Pending(s, p, n)
    ensures forall p', n' | Pending(s, p', n') && n' != n :: Pending(Link(s, p, n), p', n')
  {
    var i :| 0 <= i < |s.order| - 1 && s.order[i] == p && s.order[i + 1] == n;
    forall p', n' | Pending(s, p', n') && n' != n ensures Pending(Link(s, p, n), p', n') {
      var j :| 0 <= j < |s.order| - 1 && s.order[j] == p' && s.order[j + 1] == n';
      assert p' != p;
    }
  }

  lemma LinkOthers(s: Mutex, t: nat, p: Node, n: Node)
    requires Inv(s) && t < |s.clients| && Pending(s, p, n)
    requires forall u | 0 <= u < |s.clients| && u != t ::
      NodeOf(s.clients[u]) != Some(n) && (n == STUB ==> !s.clients[u].Popping?)
    ensures OthersOk(Link(s, p, n), t)
  {
    hide ClientOk, Chain, Pending, Real, Front;
    LinkFacts(s, p, n);
    forall u | 0 <= u < |s.clients| && u != t ensures ClientOk(Link(s, p, n), s.clients[u]) {
      LinkOk(s, p, n, s.clients[u]);
    }
  }

  lemma LinkKept(s: Mutex, t: nat)
    requires Inv(s) && t < |s.clients| && s.clients[t].Linking?
    ensures Inv(Step(s, t))
  {
    var Linking(n, p, isFront) := s.clients[t];
    var c := if isFront then Owning(n) else Waiting(n);
    assert ClientOk(s, s.clients[t]);
    LinkOthers(s, t, p, n);
    assert ClientOk(Link(s, p, n), c) by {
      LinkFacts(s, p, n);
    }
    hide Inv, ClientOk, OthersOk;
    ClientStep(Link(s, p, n), t, c);
  }

  // ---- The steps of pop() ----

  /** While a client pops, no other client owns the mutex or pops. */
  lemma OnlyOwner(s: Mutex, t: nat, u: nat)
    requires Inv(s) && t < |s.clients| && u < |s.clients| && t != u && s.clients[t].Popping?
    ensures !s.clients[u].Popping? && !s.clients[u].Owning? && NodeOf(s.clients[u]) != Front(s.order)
    ensures Front(s.order) == Some(s.clients[t].node)
  {
    assert ClientOk(s, s.clients[t]) && ClientOk(s, s.clients[u]);
  }

  lemma AdvanceChain(s: Mutex, m: Node)
    requires Chain(s) && s.tail in s.next && s.next[s.tail] == m
    ensures |s.order| > 1 && s.order[1] == m && Chain(Advance(s, m))
  {
  }

  /** What the removal of the tail means to a client whose node it is not. */
  lemma AdvanceOk(s: Mutex, m: Node, c: Client)
    requires Chain(s) && s.tail in s.next && s.next[s.tail] == m && ClientOk(s, c)
    requires NodeOf(c) != Some(s.tail) && !c.Popping? && NodeOf(c) != Front(s.order)
    ensures ClientOk(Advance(s, m), c)
  {
    AdvanceChain(s, m);
    var order' := s.order[1..];
    forall p, n | Pending(s, p, n) ensures Pending(Advance(s, m), p, n) {
      var i :| 0 <= i < |s.order| - 1 && s.order[i] == p && s.order[i + 1] == n;
      assert order'[i - 1] == p && order'[i] == n;
    }
    forall n | Linked(s.order, s.next, n) && n != s.tail ensures Linked(order', s.next, n) {
      var i :| 0 <= i < |s.order| - 1 && s.order[i] in s.next && s.order[i + 1] == n;
      if i > 0 {
        assert order'[i - 1] in s.next && order'[i] == n;
      }
    }
  }

  /** pop() returns the node of the client, which goes on to notify the next owner. */
  lemma PopKept(s: Mutex, t: nat)
    requires Inv(s) && t < |s.clients| && s.clients[t].Popping? && s.tail == s.clients[t].node && s.tail in s.next
    ensures Inv(Pop(s, t, s.next[s.tail]))
  {
    var m := s.next[s.tail];
    var s' := Pop(s, t, m);
    AdvanceChain(s, m);
    assert s.tail != STUB by {
      assert ClientOk(s, s.clients[t]);
    }
    assert s'.popped + Real(s'.order) == s'.exchanged;
    SameChain(Advance(s, m), s');
    forall u | 0 <= u < |s.clients| && u != t ensures ClientOk(s', s.clients[u]) {
      assert ClientOk(s, s.clients[u]);
      OnlyOwner(s, t, u);
      AdvanceOk(s, m, s.clients[u]);
      SameOk(Advance(s, m), s', s.clients[u]);
    }
    hide ClientOk, Chain, Real, Front;
    assert HandOff(s');
  }

  /** pop() skips the stub. */
  lemma SkipStubKept(s: Mutex, t: nat)
    requires Inv(s) && t < |s.clients| && s.clients[t].Popping? && s.clients[t].at.ReadNext? && s.tail == STUB
    ensures STUB in s.next && Inv(Step(s, t))
  {
    var n := s.clients[t].node;
    assert ClientOk(s, s.clients[t]);
    assert STUB in s.next && s.next[STUB] == n;
    AdvanceChain(s, n);
    var s1 := Advance(s, n);
    assert Real(s1.order) == Real(s.order);
    forall u | 0 <= u < |s.clients| && u != t ensures ClientOk(s1, s.clients[u]) {
      assert ClientOk(s, s.clients[u]);
      OnlyOwner(s, t, u);
      AdvanceOk(s, n, s.clients[u]);
    }
    assert Front(s1.order) == Front(s.order) == Some(n);
    assert ClientOk(s1, Popping(n, ReadOwnNext));
    assert HandOff(s1) by {
      forall u | 0 <= u < |s.clients| && u != t ensures NodeOf(s.clients[u]) != Front(s1.order) {
        OnlyOwner(s, t, u);
      }
    }
    hide ClientOk, Chain, Real, Front, HandOff;
    ClientStep(s1, t, Popping(n, ReadOwnNext));
  }

  lemma TestHeadKept(s: Mutex, t: nat)
    requires Inv(s) && t < |s.clients| && s.clients[t].Popping? && s.clients[t].at.TestHead?
    ensures Inv(Step(s, t))
  {
    var n := s.clients[t].node;
    var c := Popping(n, if s.head == s.tail then ClearStub else ReadNext);
    assert ClientOk(s, s.clients[t]);
    if s.head == s.tail {
      assert |s.order| == 1;
    }
    ClientStep(s, t, c);
  }

  lemma ClearStubKept(s: Mutex, t: nat)
    requires Inv(s) && t < |s.clients| && s.clients[t].Popping? && s.clients[t].at.ClearStub?
    ensures Inv(Step(s, t))
  {
    var n := s.clients[t].node;
    assert ClientOk(s, s.clients[t]);
    var s1 := s.(next := s.next - {STUB});
    forall q | Linked(s.order, s.next, q) ensures Linked(s.order, s1.next, q) {
      if s.order[0] != q {
        var i :| 0 <= i < |s.order| - 1 && s.order[i] in s.next && s.order[i + 1] == q;
        assert s.order[i] in s1.next && s.order[i + 1] == q;
      }
    }
    forall u | 0 <= u < |s.clients| && u != t ensures ClientOk(s1, s.clients[u]) {
      assert ClientOk(s, s.clients[u]);
      OnlyOwner(s, t, u);
    }
    assert ClientOk(s1, Popping(n, ExchangeStub));
    hide ClientOk, Chain, Real, Front, Linked;
    ClientStep(s1, t, Popping(n, ExchangeStub));
  }

  lemma ExchangeStubKept(s: Mutex, t: nat)
    requires Inv(s) && t < |s.clients| && s.clients[t].Popping? && s.clients[t].at.ExchangeStub?
    ensures Inv(Step(s, t))
  {
    var n := s.clients[t].node;
    var c := Popping(n, LinkStub(s.head));
    var s1 := Push(s, STUB);
    assert ClientOk(s, s.clients[t]);
    PushChain(s, STUB);
    PushFacts(s.order, s.next, STUB);
    assert ClientOk(s1, c);
    assert s1.popped + Real(s1.order) == s1.exchanged by {
      RealPlus(s.order, [STUB]);
    }
    forall u | 0 <= u < |s.clients| && u != t ensures ClientOk(s1, s.clients[u]) {
      assert ClientOk(s, s.clients[u]);
      OnlyOwner(s, t, u);
      PushOk(s, STUB, s.clients[u]);
    }
    hide ClientOk, Chain, Real, Front;
    assert HandOff(s1);
    ClientStep(s1, t, c);
  }

  lemma LinkStubKept(s: Mutex, t: nat)
    requires Inv(s) && t < |s.clients| && s.clients[t].Popping? && s.clients[t].at.LinkStub?
    ensures Inv(Step(s, t))
  {
    var n, p := s.clients[t].node, s.clients[t].at.prev;
    assert ClientOk(s, s.clients[t]);
    forall u | 0 <= u < |s.clients| && u != t
      ensures NodeOf(s.clients[u]) != Some(STUB) && !s.clients[u].Popping?
    {
      assert ClientOk(s, s.clients[u]);
      OnlyOwner(s, t, u);
    }
    LinkOthers(s, t, p, STUB);
    assert ClientOk(Link(s, p, STUB), Popping(n, ReadLast)) by {
      LinkedStays(s.order, s.next, p, STUB);
    }
    hide Inv, ClientOk, OthersOk;
    ClientStep(Link(s, p, STUB), t, Popping(n, ReadLast));
  }

  lemma PopStepKept(s: Mutex, t: nat)
    requires Inv(s) && t < |s.clients| && s.clients[t].Popping?
    ensures Inv(Step(s, t))
  {
    var n, at := s.clients[t].node, s.clients[t].at;
    assert ClientOk(s, s.clients[t]);
    assert OthersOk(s, t);
    hide Inv, OthersOk, Chain, Linked, Real;
    match at
    case ReadNext =>
      if s.tail == STUB {
        SkipStubKept(s, t);
      } else if s.tail in s.next {
        PopKept(s, t);
      } else {
        ClientStep(s, t, Popping(n, TestHead));
      }
    case ReadOwnNext =>
      if s.tail in s.next {
        PopKept(s, t);
      } else {
        ClientStep(s, t, Popping(n, TestHead));
      }
    case TestHead => TestHeadKept(s, t);
    case ClearStub => ClearStubKept(s, t);
    case ExchangeStub => ExchangeStubKept(s, t);
    case LinkStub(_) => LinkStubKept(s, t);
    case ReadLast =>
      if s.tail in s.next {
        PopKept(s, t);
      } else {
        ClientStep(s, t, Popping(n, ReadNext));
      }
  }

  // ---- The other steps ----

  lemma LockKept(s: Mutex, t: nat)
    requires Inv(s) && t < |s.clients| && s.clients[t].Outside?
    ensures Inv(Step(s, t))
  {
    var s' := Step(s, t);
    hide Linked, Follows, Real, Front;
    forall u | 0 <= u < |s.clients|
      ensures ClientOk(s', s'.clients[u]) && (u != t ==> NodeOf(s'.clients[u]) != Some(s.unused))
    {
      assert ClientOk(s, s.clients[u]);
    }
    hide ClientOk;
  }

  /** If peek() finds the front node, it finds the right one. */
  lemma PeekKept(s: Mutex, t: nat)
    requires Inv(s) && t < |s.clients| && s.clients[t].Peeking?
    ensures Inv(Step(s, t))
  {
    var peek := s.clients[t].peek;
    assert OthersOk(s, t);
    match peek
    case ReadTail => ClientStep(s, t, Peeking(if s.tail != STUB then Notify(s.tail) else ReadHead));
    case ReadHead => ClientStep(s, t, if s.head == STUB then Outside else Peeking(Spin));
    case Spin =>
      if STUB in s.next {
        ClientStep(s, t, Peeking(Notify(s.next[STUB])));
      }
    case Notify(n) =>
      var told := if Front(s.order) == Some(n) then s.told + {n} else s.told;
      var s1 := s.(signalled := s.signalled + {n}, told := told);
      assert OthersOk(s1, t) by {
        hide Linked, Follows, Real, Front;
        forall u | 0 <= u < |s.clients| ensures ClientOk(s1, s.clients[u]) {
          SameOk(s, s1, s.clients[u]);
        }
        SameChain(s, s1);
      }
      hide Inv, ClientOk, OthersOk, Front;
      ClientStep(s1, t, Outside);
  }

  lemma StepKept(s: Mutex, t: nat)
    requires Inv(s) && Can(s, t)
    ensures Inv(Step(s, t))
  {
    assert OthersOk(s, t) && ClientOk(s, s.clients[t]);
    hide Inv, OthersOk, Chain, Linked, Follows, Real;
    match s.clients[t]
    case Outside => LockKept(s, t);
    case Exchanging(n) => ExchangeKept(s, t, n);
    case Loading(_, _) => LoadKept(s, t);
    case Linking(_, _, _) => LinkKept(s, t);
    case Waiting(n) => ClientStep(s, t, Popping(n, ReadNext));
    case Owning(n) => ClientStep(s, t, Popping(n, ReadNext));
    case Popping(_, _) => PopStepKept(s, t);
    case Peeking(_) => PeekKept(s, t);
  }

  lemma {:induction false} RunInv(run: seq<Mutex>, i: nat)
    requires IsRun(run) && i < |run|
    ensures Inv(run[i])
  {
    hide Inv;
    if i == 0 {
      InitInv(run[0]);
    } else {
      RunInv(run, i - 1);
      assert Next(run[i - 1], run[i]);
      var t :| Can(run[i - 1], t) && run[i] == Step(run[i - 1], t);
      StepKept(run[i - 1], t);
    }
  }

  ghost predicate Reachable(s: Mutex) {
    exists run :: IsRun(run) && run[|run| - 1] == s
  }

  lemma ReachableInv(s: Mutex)
    requires Reachable(s)
    ensures Inv(s)
  {
    hide Inv;
    var run :| IsRun(run) && run[|run| - 1] == s;
    RunInv(run, |run| - 1);
  }

  // ---- What the mutex promises ----

  /** Nodes are popped in the order in which they were exchanged. */
  lemma FirstInFirstOut(s: Mutex)
    requires Reachable(s)
    ensures s.popped <= s.exchanged
    ensures Front(s.order).Some? ==> |s.popped| < |s.exchanged| && s.exchanged[|s.popped|] == Front(s.order).value
  {
    ReachableInv(s);
    FrontIsFirst(s.order);
  }

  lemma FrontIsFirst(order: seq<Node>)
    requires Distinct(order)
    ensures Front(order).Some? ==> Real(order) != [] && Real(order)[0] == Front(order).value
  {
    if order != [] && order[0] == STUB && |order| > 1 {
      assert Real(order) == Real(order[1..]);
    }
  }

  /** push() returns True exactly when its node is the one that the next pop() returns; until that pop it stays so,
      and it is popped by the client that pushed it. */
  lemma TrueMeansFront(s: Mutex, t: nat)
    requires Reachable(s) && t < |s.clients|
    ensures s.clients[t].Loading? ==> (Step(s, t).clients[t].isFront <==> Front(s.order) == Some(s.clients[t].node))
    ensures s.clients[t].Linking? && s.clients[t].isFront ==> Front(s.order) == Some(s.clients[t].node)
    ensures s.clients[t].Owning? || s.clients[t].Popping? ==> Front(s.order) == Some(s.clients[t].node)
    ensures Can(s, t) && Step(s, t).popped != s.popped ==>
      s.clients[t].Popping? && Step(s, t).popped == s.popped + [s.clients[t].node]
  {
    ReachableInv(s);
    assert ClientOk(s, s.clients[t]);
    if s.clients[t].Loading? {
      LoadFacts(s, s.clients[t].node, s.clients[t].prev);
    }
  }

  /** No hand-off is lost: the client of the front node owns the mutex or is about to learn so from push(), or its node
      was signalled while it was the front node, or the client that unlocked last has still to find this node. A signal
      that came before the node was the front one does not count. */
  lemma NoLostHandOff(s: Mutex, t: nat)
    requires Reachable(s) && t < |s.clients| && NodeOf(s.clients[t]).Some? && Front(s.order) == NodeOf(s.clients[t])
    ensures var c := s.clients[t];
      || c.Owning? || c.Popping? || (c.Linking? && c.isFront)
      || (c.Loading? && Step(s, t).clients[t].isFront)
      || (c.node in s.told && c.node in s.signalled)
      || (s.last.Some? && WillNotify(s, s.last.value, c.node))
  {
    ReachableInv(s);
    assert ClientOk(s, s.clients[t]);
    if s.clients[t].Loading? {
      LoadFacts(s, s.clients[t].node, s.clients[t].prev);
    }
  }

  /** The unlock that has still to find the front node gets nearer to the signal with each of its steps, except that
      it spins as long as the node was not linked. */
  lemma PeekFindsFront(s: Mutex, t: nat, n: Node, u: nat)
    requires Reachable(s) && Front(s.order) == Some(n) && WillNotify(s, t, n)
    requires u < |s.clients| && NodeOf(s.clients[u]) == Some(n)
    ensures WillNotify(Step(s, t), t, n) || n in Step(s, t).told
    ensures s.clients[t].peek == Notify(n) ==> n in Step(s, t).told
    ensures Step(s, t) == s ==> s.clients[u].Loading? || s.clients[u].Linking?
  {
    ReachableInv(s);
    assert ClientOk(s, s.clients[u]);
  }

  predicate Owns(s: Mutex, t: nat) {
    t < |s.clients| && (s.clients[t].Owning? || s.clients[t].Popping? || (s.clients[t].Waiting? && Can(s, t)))
  }

  /** At most one client owns the mutex. */
  lemma OneOwner(s: Mutex, t: nat, u: nat)
    requires Reachable(s) && Owns(s, t) && Owns(s, u)
    ensures t == u
  {
    ReachableInv(s);
    assert ClientOk(s, s.clients[t]) && ClientOk(s, s.clients[u]);
  }

  /** What is_front() reads, for a node that is linked. */
  predicate IsFront(s: Mutex, n: Node) {
    s.tail == n || (s.tail == STUB && STUB in s.next && s.next[STUB] == n)
  }

  lemma IsFrontMeansFront(s: Mutex, t: nat)
    requires Reachable(s) && t < |s.clients| && (s.clients[t].Owning? || s.clients[t].Waiting?)
    ensures IsFront(s, s.clients[t].node) <==> Front(s.order) == Some(s.clients[t].node)
  {
    ReachableInv(s);
    assert ClientOk(s, s.clients[t]);
  }

  // ---- When unlock() signals the next owner ----

  /** The node that peek() finds is the front node if it finds it as the tail; if it finds it behind the stub, exactly
      if at that moment the stub, or the node itself, is the tail. */
  lemma PeekIsExact(s: Mutex, t: nat)
    requires Reachable(s) && t < |s.clients|
    ensures s.clients[t] == Peeking(ReadTail) && s.tail != STUB ==>
      Step(s, t).clients[t] == Peeking(Notify(s.tail)) && Front(s.order) == Some(s.tail)
    ensures s.clients[t] == Peeking(Spin) && STUB in s.next ==>
      && Step(s, t).clients[t] == Peeking(Notify(s.next[STUB]))
      && (Front(s.order) == Some(s.next[STUB]) <==> s.tail == STUB || s.tail == s.next[STUB])
  {
    ReachableInv(s);
  }

  /** Some client other than t is inside pop(), called from unlock(). */
  predicate OthersPop(s: Mutex, t: nat) {
    exists u :: 0 <= u < |s.clients| && u != t && s.clients[u].Popping?
  }

  /** What peek() relies on: nobody moved the tail since it was read. */
  predicate PeekOk(s: Mutex, peek: PeekPhase) {
    match peek
    case ReadTail => true
    case ReadHead => s.tail == STUB
    case Spin => s.tail == STUB
    case Notify(n) => Front(s.order) == Some(n)
  }

  lemma PeekOkKept(s: Mutex, u: nat, t: nat)
    requires Inv(s) && Can(s, u) && t < |s.clients| && s.clients[t].Peeking? && !OthersPop(s, t)
    requires PeekOk(s, s.clients[t].peek)
    ensures Step(s, u).clients[t].Peeking? ==> PeekOk(Step(s, u), Step(s, u).clients[t].peek)
  {
    if s.clients[u].Exchanging? {
      PushFacts(s.order, s.next, s.clients[u].node);
    }
  }

  /** If no other client is inside pop() while peek() runs, the node that it finds, and unlock() then signals, is the
      front node at the time of the signal. */
  lemma {:induction false} SignalsTheFront(run: seq<Mutex>, i: nat, j: nat, t: nat)
    requires IsRun(run) && i <= j < |run| && t < |run[i].clients| && run[i].clients[t] == Peeking(ReadTail)
    requires forall k | i <= k <= j :: t < |run[k].clients| && run[k].clients[t].Peeking? && !OthersPop(run[k], t)
    ensures PeekOk(run[j], run[j].clients[t].peek)
    ensures run[j].clients[t].peek.Notify? ==> Front(run[j].order) == Some(run[j].clients[t].peek.next)
    decreases j
  {
    hide Inv, OthersPop;
    if i < j {
      SignalsTheFront(run, i, j - 1, t);
      RunInv(run, j - 1);
      assert Next(run[j - 1], run[j]);
      var u :| Can(run[j - 1], u) && run[j] == Step(run[j - 1], u);
      PeekOkKept(run[j - 1], u, t);
    }
  }

  // ---- What a client knows when it is about to signal ----

  /** A node that is linked, or was popped. */
  predicate IsKnown(s: Mutex, n: Node) {
    n != STUB && (n in s.popped || (n in s.order && Linked(s.order, s.next, n)))
  }

  /** Nodes that were popped are gone, and peek() finds linked nodes only, or such that were popped since. */
  predicate KnownOk(s: Mutex) {
    && (forall n | n in s.popped :: STUB < n < s.unused && n !in s.order)
    && (forall t | 0 <= t < |s.clients| && NodeOf(s.clients[t]).Some? :: NodeOf(s.clients[t]).value !in s.popped)
    && (STUB in s.next ==> IsKnown(s, s.next[STUB]))
    && (forall t | 0 <= t < |s.clients| && s.clients[t].Peeking? && s.clients[t].peek.Notify? ::
          IsKnown(s, s.clients[t].peek.next))
  }

  lemma StaysKnown(s: Mutex, t: nat, n: Node)
    requires Inv(s) && Can(s, t) && IsKnown(s, n)
    ensures IsKnown(Step(s, t), n)
  {
    assert ClientOk(s, s.clients[t]);
    match s.clients[t]
    case Exchanging(m) => PushFacts(s.order, s.next, m);
    case Linking(m, p, _) => LinkedStays(s.order, s.next, p, m);
    case Popping(_, at) => PopStaysKnown(s, t, n);
    case _ =>
  }

  lemma PopStaysKnown(s: Mutex, t: nat, n: Node)
    requires Inv(s) && t < |s.clients| && s.clients[t].Popping? && IsKnown(s, n)
    ensures IsKnown(PopStep(s, t), n)
  {
    assert ClientOk(s, s.clients[t]);
    match s.clients[t].at
    case ExchangeStub => PushFacts(s.order, s.next, STUB);
    case LinkStub(p) => LinkedStays(s.order, s.next, p, STUB);
    case ClearStub =>
      if n !in s.popped && s.order[0] != n {
        var i :| 0 <= i < |s.order| - 1 && s.order[i] in s.next && s.order[i + 1] == n;
        assert s.order[i] in s.next - {STUB};
      }
    case TestHead =>
    case _ =>
      if n !in s.popped && n != s.tail && s.tail in s.next {
        AdvanceStaysLinked(s, n);
      }
  }

  lemma AdvanceStaysLinked(s: Mutex, n: Node)
    requires Chain(s) && s.tail in s.next && n in s.order && n != s.tail && Linked(s.order, s.next, n)
    ensures n in s.order[1..] && Linked(s.order[1..], s.next, n)
  {
    var i :| 0 <= i < |s.order| - 1 && s.order[i] in s.next && s.order[i + 1] == n;
    assert s.order[1..][i] == n;
    if i > 0 {
      assert s.order[1..][i - 1] in s.next;
    }
  }

  lemma PoppedAreGone(s: Mutex, t: nat)
    requires Inv(s) && KnownOk(s) && Can(s, t)
    ensures forall n | n in Step(s, t).popped :: STUB < n < Step(s, t).unused && n !in Step(s, t).order
  {
    assert ClientOk(s, s.clients[t]);
    hide IsKnown, Linked, Follows, HandOff, NodesDiffer, Real;
    if s.clients[t].Popping? {
      PoppedByPop(s, t);
      hide Step;
    }
  }

  lemma PoppedByPop(s: Mutex, t: nat)
    requires Chain(s) && KnownOk(s) && t < |s.clients| && s.clients[t].Popping? && ClientOk(s, s.clients[t])
    ensures forall n | n in PopStep(s, t).popped :: STUB < n < PopStep(s, t).unused && n !in PopStep(s, t).order
  {
    hide IsKnown, Linked, Follows;
  }

  /** What a step means for the nodes of the clients. */
  lemma StepOfClient(s: Mutex, t: nat)
    requires Inv(s) && Can(s, t)
    ensures ClientStepped(s, t, Step(s, t))
  {
    assert ClientOk(s, s.clients[t]);
    hide Linked, Follows, HandOff, NodesDiffer, Real;
    if s.clients[t].Popping? {
      PopOfClient(s, t);
      hide Step;
    } else {
      hide Chain;
    }
  }

  predicate ClientStepped(s: Mutex, t: nat, s': Mutex)
    requires t < |s.clients|
  {
    && |s'.clients| == |s.clients|
    && var c, c' := s.clients[t], s'.clients[t];
       && s'.clients == s.clients[t := c']
       && (NodeOf(c') == NodeOf(c) || NodeOf(c') == None || (c.Outside? && NodeOf(c') == Some(s.unused)))
       && (s'.popped == s.popped
           || (NodeOf(c).Some? && NodeOf(c') == None && s'.popped == s.popped + [NodeOf(c).value]))
  }

  lemma PopOfClient(s: Mutex, t: nat)
    requires Chain(s) && t < |s.clients| && s.clients[t].Popping? && ClientOk(s, s.clients[t])
    ensures ClientStepped(s, t, PopStep(s, t))
  {
    hide Linked, Follows;
  }

  lemma ClientsNotPopped(s: Mutex, t: nat)
    requires Inv(s) && KnownOk(s) && Can(s, t)
    ensures var s' := Step(s, t);
      forall u | 0 <= u < |s'.clients| && NodeOf(s'.clients[u]).Some? :: NodeOf(s'.clients[u]).value !in s'.popped
  {
    StepOfClient(s, t);
    hide Step, Can, Chain, ClientOk, HandOff, IsKnown;
  }

  /** The link of the stub, after a step. */
  lemma StubLinkKnown(s: Mutex, t: nat)
    requires Inv(s) && KnownOk(s) && Can(s, t)
    ensures STUB in Step(s, t).next ==> IsKnown(Step(s, t), Step(s, t).next[STUB])
  {
    if STUB in s.next {
      StaysKnown(s, t, s.next[STUB]);
    }
    assert ClientOk(s, s.clients[t]);
    if s.clients[t].Linking? && s.clients[t].prev == STUB {
      LinkFacts(s, STUB, s.clients[t].node);
    } else {
      SameStubLink(s, t);
      hide Step, IsKnown, Inv, KnownOk;
    }
  }

  lemma SameStubLink(s: Mutex, t: nat)
    requires Can(s, t) && ClientOk(s, s.clients[t]) && Chain(s)
    requires !(s.clients[t].Linking? && s.clients[t].prev == STUB)
    ensures STUB in Step(s, t).next ==> STUB in s.next && Step(s, t).next[STUB] == s.next[STUB]
  {
    hide Linked, Front;
  }

  /** What peek() finds, in a step. */
  lemma FindsKnown(s: Mutex, t: nat)
    requires Inv(s) && KnownOk(s) && Can(s, t)
    ensures var c := Step(s, t).clients[t]; c.Peeking? && c.peek.Notify? ==> IsKnown(Step(s, t), c.peek.next)
  {
    if s.clients[t].Peeking? && s.clients[t].peek.Spin? && STUB in s.next {
      StaysKnown(s, t, s.next[STUB]);
      hide Inv, KnownOk, IsKnown;
    } else {
      hide KnownOk, ClientOk, HandOff, NodesDiffer;
    }
  }

  lemma KnownKept(s: Mutex, t: nat)
    requires Inv(s) && KnownOk(s) && Can(s, t)
    ensures KnownOk(Step(s, t))
  {
    var s' := Step(s, t);
    PoppedAreGone(s, t);
    ClientsNotPopped(s, t);
    StubLinkKnown(s, t);
    FindsKnown(s, t);
    StepOfClient(s, t);
    hide Inv, Step, IsKnown, Can;
    forall u | 0 <= u < |s'.clients| && s'.clients[u].Peeking? && s'.clients[u].peek.Notify?
      ensures IsKnown(s', s'.clients[u].peek.next)
    {
      if u != t {
        assert s'.clients[u] == s.clients[u];
        StaysKnown(s, t, s.clients[u].peek.next);
      }
    }
  }

  lemma {:induction false} RunKnown(run: seq<Mutex>, i: nat)
    requires IsRun(run) && i < |run|
    ensures Inv(run[i]) && KnownOk(run[i])
  {
    hide Inv, KnownOk;
    RunInv(run, i);
    if i == 0 {
      InitKnown(run[0]);
    } else {
      RunKnown(run, i - 1);
      assert Next(run[i - 1], run[i]);
      var t :| Can(run[i - 1], t) && run[i] == Step(run[i - 1], t);
      KnownKept(run[i - 1], t);
    }
  }

  lemma InitKnown(s: Mutex)
    requires Init(s)
    ensures KnownOk(s)
  {
  }

  /** When a client is about to signal a node, that node is the front one exactly if is_front() would say so now; it is
      the front node or a later one if and only if it was not popped in the meantime. */
  lemma NotifyIsExact(s: Mutex, t: nat, n: Node)
    requires Reachable(s) && t < |s.clients| && s.clients[t] == Peeking(Notify(n))
    ensures Front(s.order) == Some(n) <==> IsFront(s, n)
    ensures n in s.order <==> n !in s.popped
    ensures n in Step(s, t).told <==> IsFront(s, n) || n in s.told
  {
    var run :| IsRun(run) && run[|run| - 1] == s;
    RunKnown(run, |run| - 1);
    assert IsKnown(s, n);
  }
}
