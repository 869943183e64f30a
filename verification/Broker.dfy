/** A broker: it creates one task for each key, runs it once, and calls the callbacks of all who asked for it.

    The broker is itself a task; what matters of that here is condition 1, for which it waits and which everybody
    signals. A caller is a call of run(key, callback). */
module Brokers {
  type Key = nat
  type TaskId = nat
  type Caller = nat

  /** Where a call of run(key, callback) is. */
  datatype CallPhase =
    | Outside
    | Searching
    | Missing                             // found no entry; holds a read lock
    | Converting                          // waits until it is the only reader
    | WantSignal(task: TaskId)            // created the entry, or pushed the callback
    | Found(task: TaskId)                 // about to load m_finished
    | CallNow(task: TaskId)               // about to call the callback, for a broker in immediate mode
    | WantPush(task: TaskId)
    | Returned(task: TaskId)

  datatype Call = Call(key: Key, phase: CallPhase)

  /** The task of an entry: it finishes, and signals the broker after that. */
  datatype TaskState = NotRun | Running | Finished(aborted: bool) | Signalled(aborted: bool)

  datatype Entry = Entry(
    task: TaskId,
    state: TaskState,
    running: bool,
    finished: bool,
    success: bool,
    callbacks: seq<Caller>)

  /** Where the broker task is in multiplex_impl. */
  datatype BrokerPhase =
    | Start                               // Broker_start
    | Idle
    | Ready                               // about to run Broker_do_work
    | Looping(todo: set<Key>)             // holds a read lock
    | Popping(key: Key, todo: set<Key>)   // the callbacks of one entry

  datatype Broker = Broker(
    entries: map<Key, Entry>,
    calls: seq<Call>,
    broker: BrokerPhase,
    pending: bool,                        // a signal for condition 1 that no wait has met yet
    isImmediate: bool,
    unused: TaskId,                       // the name of the next task
    // What happened so far.
    runs: seq<TaskId>,                    // the calls of run() for a task
    invoked: seq<Caller>,                 // the calls of a callback
    answers: seq<bool>)                   // what each of those was passed

  predicate Init(s: Broker) {
    && s.entries == map[] && s.broker == Start && !s.pending && s.unused == 0
    && s.runs == [] && s.invoked == [] && s.answers == []
    && forall c | 0 <= c < |s.calls| :: s.calls[c].phase == Outside
  }

  datatype Action =
    | Call(caller: Caller)
    | TaskFinishes(key: Key, aborted: bool)
    | TaskSignals(key: Key)
    | Wait                                // the broker calls wait(1)
    | Loop                                // it takes the read lock
    | Process(key: Key)
    | PopCallback

  predicate IsReader(p: CallPhase) {
    p == Missing || p == Converting
  }

  predicate OnlyReader(s: Broker, c: Caller)
  {
    && !s.broker.Looping? && !s.broker.Popping?
    && forall d | 0 <= d < |s.calls| && d != c :: !IsReader(s.calls[d].phase)
  }

  predicate SomeoneConverts(s: Broker) {
    exists d :: 0 <= d < |s.calls| && s.calls[d].phase == Converting
  }

  predicate Can(s: Broker, a: Action) {
    match a
    case Call(c) =>
      && c < |s.calls| && !s.calls[c].phase.Returned?
      && (s.calls[c].phase.Converting? ==> OnlyReader(s, c))
    case TaskFinishes(k, _) => k in s.entries && s.entries[k].state == Running
    case TaskSignals(k) => k in s.entries && s.entries[k].state.Finished?
    case Wait => s.broker == Start || s.broker == Looping({})
    case Loop => s.broker == Ready
    case Process(k) => s.broker.Looping? && k in s.broker.todo
    case PopCallback => s.broker.Popping?
  }

  function Goto(s: Broker, c: Caller, p: CallPhase): Broker
    requires c < |s.calls|
  {
    s.(calls := s.calls[c := s.calls[c].(phase := p)])
  }

  /** signal(1) */
  function Signal(s: Broker): Broker {
    if s.broker == Idle then s.(broker := Ready) else s.(pending := true)
  }

  function Update(s: Broker, k: Key, e: Entry): Broker {
    s.(entries := s.entries[k := e])
  }

  /** A step of run(key, callback). */
  function CallStep(s: Broker, c: Caller): Broker
    requires Can(s, Action.Call(c))
  {
    var k := s.calls[c].key;
    match s.calls[c].phase
    case Outside => Goto(s, c, Searching)
    case Searching => Goto(s, c, if k in s.entries then Found(s.entries[k].task) else Missing)
    case Missing => Goto(s, c, if SomeoneConverts(s) then Searching else Converting)
    case Converting =>
      if k in s.entries then Goto(s, c, WantSignal(s.entries[k].task))
      else
        var s' := Update(s, k, Entry(s.unused, NotRun, false, false, false, [c]));
        Goto(s', c, WantSignal(s.unused)).(unused := s.unused + 1)
    case Found(task) =>
      Goto(s, c, if k in s.entries && s.entries[k].finished && s.isImmediate then CallNow(task) else WantPush(task))
    case CallNow(task) =>
      Goto(s, c, Returned(task)).(
        invoked := s.invoked + [c],
        answers := s.answers + [k in s.entries && s.entries[k].success])
    case WantPush(task) =>
      if k !in s.entries then s
      else Goto(Update(s, k, s.entries[k].(callbacks := s.entries[k].callbacks + [c])), c, WantSignal(task))
    case WantSignal(task) => Goto(Signal(s), c, Returned(task))
    case Returned(_) => s
  }

  /** The broker task processes one entry. */
  function ProcessStep(s: Broker, k: Key): Broker
    requires Can(s, Process(k))
  {
    var s' := s.(broker := Looping(s.broker.todo - {k}));
    if k !in s.entries then s'
    else
      var e := s.entries[k];
      if !e.running then
        Update(s', k, e.(running := true, state := Running)).(runs := s.runs + [e.task])
      else if e.state.Finished? || e.state.Signalled? then
        Update(s', k, e.(success := !e.state.aborted, finished := true)).(broker := Popping(k, s.broker.todo - {k}))
      else s'
  }

  function PopStep(s: Broker): Broker
    requires Can(s, PopCallback)
  {
    var Popping(k, todo) := s.broker;
    if k !in s.entries || s.entries[k].callbacks == [] then s.(broker := Looping(todo))
    else
      var e := s.entries[k];
      Update(s, k, e.(callbacks := e.callbacks[1..])).(
        invoked := s.invoked + [e.callbacks[0]],
        answers := s.answers + [e.success])
  }

  function Step(s: Broker, a: Action): Broker
    requires Can(s, a)
  {
    match a
    case Call(c) => CallStep(s, c)
    case TaskFinishes(k, aborted) => Update(s, k, s.entries[k].(state := Finished(aborted)))
    case TaskSignals(k) => Signal(Update(s, k, s.entries[k].(state := Signalled(s.entries[k].state.aborted))))
    case Wait => if s.pending then s.(pending := false, broker := Ready) else s.(broker := Idle)
    case Loop => s.(broker := Looping(s.entries.Keys))
    case Process(k) => ProcessStep(s, k)
    case PopCallback => PopStep(s)
  }

  ghost predicate Next(s: Broker, s': Broker) {
    exists a :: Can(s, a) && s' == Step(s, a)
  }

  ghost predicate IsRun(run: seq<Broker>) {
    |run| > 0 && Init(run[0]) && forall i | 0 < i < |run| :: Next(run[i - 1], run[i])
  }

  ghost predicate Reachable(s: Broker) {
    exists run :: IsRun(run) && run[|run| - 1] == s
  }

  // ---- The invariant ----

  function Count(list: seq<Caller>, c: Caller): nat {
    if list == [] then 0 else (if list[0] == c then 1 else 0) + Count(list[1..], c)
  }

  lemma {:induction false} CountOneMore(list: seq<Caller>, d: Caller, c: Caller)
    ensures Count(list + [d], c) == Count(list, c) + if d == c then 1 else 0
    decreases |list|
  {
    if list == [] {
      assert list + [d] == [d] && [d][1..] == [];
    } else {
      assert (list + [d])[1..] == list[1..] + [d];
      CountOneMore(list[1..], d, c);
    }
  }

  /** How often the callback of a caller was called, or waits to be called. */
  function Places(s: Broker, c: Caller): nat
    requires c < |s.calls|
  {
    var k := s.calls[c].key;
    (if k in s.entries then Count(s.entries[k].callbacks, c) else 0) + Count(s.invoked, c)
  }

  function HandedOver(p: CallPhase): nat {
    if p.WantSignal? || p.Returned? then 1 else 0
  }

  predicate HasTask(p: CallPhase) {
    p.WantSignal? || p.Found? || p.CallNow? || p.WantPush? || p.Returned?
  }

  predicate CallOk(s: Broker, c: Caller)
    requires c < |s.calls|
  {
    var k, p := s.calls[c].key, s.calls[c].phase;
    && (HasTask(p) ==> k in s.entries && s.entries[k].task == p.task)
    && (IsReader(p) ==> k !in s.entries)
    && (p.CallNow? ==> s.entries[k].finished)
    && Places(s, c) == HandedOver(p)
  }

  predicate HasFinished(e: Entry) {
    e.state.Finished? || e.state.Signalled?
  }

  predicate EntryOk(s: Broker, k: Key)
    requires k in s.entries
  {
    var e := s.entries[k];
    && e.task < s.unused
    && (e.running <==> e.state != NotRun) && (e.running <==> e.task in s.runs)
    && (e.finished ==> HasFinished(e) && e.success == !e.state.aborted)
    && (forall i | 0 <= i < |e.callbacks| :: e.callbacks[i] < |s.calls| && s.calls[e.callbacks[i]].key == k)
  }

  /** The broker has something to do for this entry. */
  predicate HasWork(e: Entry) {
    !e.running || (HasFinished(e) && (!e.finished || e.callbacks != []))
  }

  /** Someone is about to signal the broker because of an entry. */
  ghost predicate Owed(s: Broker, k: Key)
    requires k in s.entries
  {
    || s.entries[k].state.Finished?
    || exists c :: 0 <= c < |s.calls| && s.calls[c].key == k && s.calls[c].phase.WantSignal?
  }

  predicate WillProcess(b: BrokerPhase, k: Key) {
    match b
    case Ready => true
    case Looping(todo) => k in todo
    case Popping(key, todo) => k == key || k in todo
    case _ => false
  }

  ghost predicate Served(s: Broker) {
    forall k | k in s.entries && HasWork(s.entries[k]) :: Owed(s, k) || s.pending || WillProcess(s.broker, k)
  }

  predicate RunsOnce(s: Broker) {
    && (forall i, j | 0 <= i < j < |s.runs| :: s.runs[i] != s.runs[j])
    && (forall i | 0 <= i < |s.runs| :: s.runs[i] < s.unused)
  }

  predicate TasksDiffer(entries: map<Key, Entry>) {
    forall k, l | k in entries && l in entries && k != l :: entries[k].task != entries[l].task
  }

  predicate InvokedOk(s: Broker) {
    && |s.answers| == |s.invoked|
    && forall i | 0 <= i < |s.invoked| ::
         && s.invoked[i] < |s.calls|
         && var k := s.calls[s.invoked[i]].key;
            k in s.entries && s.entries[k].finished && s.answers[i] == s.entries[k].success
  }

  predicate CallsOk(s: Broker) {
    forall c | 0 <= c < |s.calls| :: CallOk(s, c)
  }

  predicate EntriesOk(s: Broker) {
    && (forall k | k in s.entries :: EntryOk(s, k))
    && TasksDiffer(s.entries) && RunsOnce(s)
  }

  predicate PhaseOk(s: Broker) {
    && (s.broker.Popping? ==> s.broker.key in s.entries && s.entries[s.broker.key].finished)
    && (s.broker == Idle ==> !s.pending)
  }

  ghost predicate Inv(s: Broker) {
    CallsOk(s) && EntriesOk(s) && InvokedOk(s) && Served(s) && PhaseOk(s)
  }

  lemma InitInv(s: Broker)
    requires Init(s)
    ensures Inv(s)
  {
  }

  // ---- The calls ----

  /** The calls do not depend on the phase of the broker, its pending signal, and the log of runs. */
  lemma SameCalls(s: Broker, s': Broker)
    requires CallsOk(s) && s'.calls == s.calls && s'.entries == s.entries && s'.invoked == s.invoked
    ensures CallsOk(s')
  {
    forall c | 0 <= c < |s.calls| ensures CallOk(s', c) {
      assert CallOk(s, c);
    }
  }

  lemma PhaseCalls(s: Broker, c: Caller, p: CallPhase)
    requires CallsOk(s) && c < |s.calls| && HandedOver(p) == HandedOver(s.calls[c].phase)
    requires HasTask(p) ==> s.calls[c].key in s.entries && s.entries[s.calls[c].key].task == p.task
    requires IsReader(p) ==> s.calls[c].key !in s.entries
    requires p.CallNow? ==> s.entries[s.calls[c].key].finished
    ensures CallsOk(Goto(s, c, p))
  {
    var s' := Goto(s, c, p);
    forall d | 0 <= d < |s'.calls| ensures CallOk(s', d) {
      assert CallOk(s, d);
    }
  }

  lemma InsertCalls(s: Broker, c: Caller)
    requires CallsOk(s) && Can(s, Action.Call(c)) && s.calls[c].phase.Converting?
    ensures s.calls[c].key !in s.entries && CallsOk(CallStep(s, c))
  {
    assert CallOk(s, c);
    var s' := CallStep(s, c);
    assert Count([c], c) == 1 && forall d | d != c :: Count([c], d) == 0 by {
      assert [c][1..] == [];
    }
    forall d | 0 <= d < |s'.calls| ensures CallOk(s', d) {
      assert CallOk(s, d);
    }
  }

  lemma PushCalls(s: Broker, c: Caller)
    requires CallsOk(s) && c < |s.calls| && s.calls[c].phase.WantPush?
    ensures s.calls[c].key in s.entries && CallsOk(CallStep(s, c))
  {
    assert CallOk(s, c);
    var s' := CallStep(s, c);
    forall d | 0 <= d < |s'.calls| ensures CallOk(s', d) {
      assert CallOk(s, d);
      CountOneMore(s.entries[s.calls[c].key].callbacks, c, d);
    }
  }

  lemma CallNowCalls(s: Broker, c: Caller)
    requires CallsOk(s) && c < |s.calls| && s.calls[c].phase.CallNow?
    ensures CallsOk(CallStep(s, c))
  {
    assert CallOk(s, c);
    var s' := CallStep(s, c);
    forall d | 0 <= d < |s'.calls| ensures CallOk(s', d) {
      assert CallOk(s, d);
      CountOneMore(s.invoked, c, d);
    }
  }

  /** A change of an entry that leaves its callbacks alone. */
  lemma UpdateCalls(s: Broker, k: Key, e: Entry)
    requires CallsOk(s) && k in s.entries && e.task == s.entries[k].task && e.callbacks == s.entries[k].callbacks
    requires s.entries[k].finished ==> e.finished
    ensures CallsOk(Update(s, k, e))
  {
    forall c | 0 <= c < |s.calls| ensures CallOk(Update(s, k, e), c) {
      assert CallOk(s, c);
    }
  }

  lemma PopCalls(s: Broker)
    requires CallsOk(s) && EntriesOk(s) && s.broker.Popping? && s.broker.key in s.entries
    requires s.entries[s.broker.key].callbacks != []
    ensures CallsOk(PopStep(s))
  {
    var k := s.broker.key;
    var s' := PopStep(s);
    forall c | 0 <= c < |s'.calls| ensures CallOk(s', c) {
      assert CallOk(s, c) && EntryOk(s, k);
      CountOneMore(s.invoked, s.entries[k].callbacks[0], c);
    }
  }

  // ---- The entries ----

  lemma SameEntries(s: Broker, s': Broker)
    requires EntriesOk(s) && s'.entries == s.entries && s'.runs == s.runs && s'.unused == s.unused
    requires |s'.calls| == |s.calls|
    requires forall c | 0 <= c < |s.calls| :: s'.calls[c].key == s.calls[c].key
    ensures EntriesOk(s')
  {
    forall k | k in s'.entries ensures EntryOk(s', k) {
      assert EntryOk(s, k);
    }
  }

  lemma UpdateEntries(s: Broker, k: Key, e: Entry)
    requires EntriesOk(s) && k in s.entries && e.task == s.entries[k].task && EntryOk(Update(s, k, e), k)
    ensures EntriesOk(Update(s, k, e))
  {
    forall l | l in s.entries ensures EntryOk(Update(s, k, e), l) {
      assert EntryOk(s, l);
    }
  }

  lemma InsertEntries(s: Broker, c: Caller)
    requires EntriesOk(s) && Can(s, Action.Call(c)) && s.calls[c].phase.Converting? && s.calls[c].key !in s.entries
    ensures EntriesOk(CallStep(s, c))
  {
    var s' := CallStep(s, c);
    forall l | l in s'.entries ensures EntryOk(s', l) && (l != s.calls[c].key ==> s.entries[l].task < s.unused) {
      assert l in s.entries ==> EntryOk(s, l);
    }
  }

  /** The broker calls run() for a task that it did not run before. */
  lemma RunEntries(s: Broker, k: Key, e: Entry)
    requires EntriesOk(s) && k in s.entries && !s.entries[k].running
    requires e == s.entries[k].(running := true, state := Running)
    ensures EntriesOk(Update(s, k, e).(runs := s.runs + [e.task]))
  {
    var s' := Update(s, k, e).(runs := s.runs + [e.task]);
    assert EntryOk(s, k);
    forall l | l in s'.entries ensures EntryOk(s', l) {
      assert EntryOk(s, l);
    }
  }

  // ---- No work is forgotten ----

  /** Who owed a signal still does, except for caller c. */
  lemma OwedElsewhere(s: Broker, s': Broker, c: Caller, k: Key)
    requires c < |s.calls| == |s'.calls| && forall d | 0 <= d < |s.calls| && d != c :: s'.calls[d] == s.calls[d]
    requires !s.calls[c].phase.WantSignal? && k in s'.entries && k in s.entries && Owed(s, k)
    ensures Owed(s', k) || s.entries[k].state.Finished?
  {
    if d :| 0 <= d < |s.calls| && s.calls[d].key == k && s.calls[d].phase.WantSignal? {
      assert s'.calls[d].phase.WantSignal?;
    }
  }

  /** A step of a call other than the signal: the entry of its key may get work, if the call owes a signal for it. */
  lemma CallServed(s: Broker, s': Broker, c: Caller)
    requires Served(s) && c < |s.calls| == |s'.calls| && !s.calls[c].phase.WantSignal?
    requires forall d | 0 <= d < |s.calls| && d != c :: s'.calls[d] == s.calls[d]
    requires s'.calls[c].key == s.calls[c].key && s'.broker == s.broker && s'.pending == s.pending
    requires forall k | k in s'.entries && k != s.calls[c].key :: k in s.entries && s'.entries[k] == s.entries[k]
    requires s'.calls[c].phase.WantSignal? || s'.entries == s.entries
    ensures Served(s')
  {
    hide HasWork;
    forall k | k in s'.entries && HasWork(s'.entries[k])
      ensures Owed(s', k) || s'.pending || WillProcess(s'.broker, k)
    {
      if k == s.calls[c].key && s'.calls[c].phase.WantSignal? {
        assert Owed(s', k);
      } else if Owed(s, k) {
        OwedElsewhere(s, s', c, k);
      }
    }
  }

  /** After a signal the broker will see all there is to do. */
  lemma SignalServes(s: Broker, c: Caller, p: CallPhase)
    requires Served(s) && c < |s.calls|
    ensures Served(Goto(Signal(s), c, p))
  {
    hide HasWork;
  }

  /** A step of the broker or of a task that leaves the calls alone. */
  lemma EntryServed(s: Broker, s': Broker, k: Key)
    requires Served(s) && s'.calls == s.calls && s'.entries.Keys == s.entries.Keys
    requires forall l | l in s.entries && l != k :: s'.entries[l] == s.entries[l]
    requires s'.pending || s'.broker == Ready ||
      (s'.pending == s.pending && forall l | l != k && WillProcess(s.broker, l) :: WillProcess(s'.broker, l))
    requires k in s'.entries && HasWork(s'.entries[k]) ==>
      s'.entries[k].state.Finished? || s'.pending || WillProcess(s'.broker, k)
    ensures Served(s')
  {
    hide HasWork;
    forall l | l in s'.entries && HasWork(s'.entries[l])
      ensures Owed(s', l) || s'.pending || WillProcess(s'.broker, l)
    {
      if l != k && Owed(s, l) {
        assert Owed(s', l);
      }
    }
  }

  // ---- Each step keeps the invariant ----

  lemma PhaseKept(s: Broker, c: Caller, p: CallPhase)
    requires Inv(s) && c < |s.calls| && HandedOver(p) == HandedOver(s.calls[c].phase)
    requires HasTask(p) ==> s.calls[c].key in s.entries && s.entries[s.calls[c].key].task == p.task
    requires IsReader(p) ==> s.calls[c].key !in s.entries
    requires p.CallNow? ==> s.entries[s.calls[c].key].finished
    requires !s.calls[c].phase.WantSignal?
    ensures Inv(Goto(s, c, p))
  {
    var s' := Goto(s, c, p);
    PhaseCalls(s, c, p);
    SameEntries(s, s');
    CallServed(s, s', c);
    assert InvokedOk(s');
    hide CallsOk, EntriesOk, Served, InvokedOk;
  }

  lemma InsertKept(s: Broker, c: Caller)
    requires Inv(s) && Can(s, Action.Call(c)) && s.calls[c].phase.Converting?
    ensures Inv(CallStep(s, c))
  {
    InsertCalls(s, c);
    InsertEntries(s, c);
    CallServed(s, CallStep(s, c), c);
    assert InvokedOk(CallStep(s, c));
    hide CallsOk, EntriesOk, Served, InvokedOk;
  }

  lemma PushEntries(s: Broker, c: Caller)
    requires EntriesOk(s) && c < |s.calls| && s.calls[c].phase.WantPush? && s.calls[c].key in s.entries
    ensures EntriesOk(CallStep(s, c))
  {
    var k := s.calls[c].key;
    var e := s.entries[k].(callbacks := s.entries[k].callbacks + [c]);
    assert EntryOk(s, k) && EntryOk(Update(s, k, e), k);
    UpdateEntries(s, k, e);
    hide EntryOk;
    SameEntries(Update(s, k, e), CallStep(s, c));
  }

  lemma PushKept(s: Broker, c: Caller)
    requires Inv(s) && c < |s.calls| && s.calls[c].phase.WantPush?
    ensures Inv(CallStep(s, c))
  {
    hide CallsOk, EntriesOk, Served;
    PushCalls(s, c);
    PushEntries(s, c);
    CallServed(s, CallStep(s, c), c);
    assert InvokedOk(CallStep(s, c));
  }

  lemma CallNowKept(s: Broker, c: Caller)
    requires Inv(s) && c < |s.calls| && s.calls[c].phase.CallNow?
    ensures Inv(CallStep(s, c))
  {
    CallNowCalls(s, c);
    SameEntries(s, CallStep(s, c));
    CallServed(s, CallStep(s, c), c);
    assert InvokedOk(CallStep(s, c)) by {
      assert CallOk(s, c);
    }
    hide CallsOk, EntriesOk, Served, InvokedOk;
  }

  lemma CallSignalKept(s: Broker, c: Caller)
    requires Inv(s) && c < |s.calls| && s.calls[c].phase.WantSignal?
    ensures Inv(CallStep(s, c))
  {
    var p := Returned(s.calls[c].phase.task);
    assert CallOk(s, c);
    SameCalls(s, Signal(s));
    PhaseCalls(Signal(s), c, p);
    SameEntries(s, CallStep(s, c));
    SignalServes(s, c, p);
    assert InvokedOk(CallStep(s, c));
    hide CallsOk, EntriesOk, Served, InvokedOk;
  }

  lemma CallKept(s: Broker, c: Caller)
    requires Inv(s) && Can(s, Action.Call(c))
    ensures Inv(CallStep(s, c))
  {
    assert CallOk(s, c);
    var k := s.calls[c].key;
    hide Inv, CallOk;
    match s.calls[c].phase
    case Outside => PhaseKept(s, c, Searching);
    case Searching => PhaseKept(s, c, if k in s.entries then Found(s.entries[k].task) else Missing);
    case Missing => PhaseKept(s, c, if SomeoneConverts(s) then Searching else Converting);
    case Converting => InsertKept(s, c);
    case Found(task) =>
      var isFinished := k in s.entries && s.entries[k].finished;
      PhaseKept(s, c, if isFinished && s.isImmediate then CallNow(task) else WantPush(task));
    case CallNow(_) => CallNowKept(s, c);
    case WantPush(_) => PushKept(s, c);
    case WantSignal(_) => CallSignalKept(s, c);
  }

  /** The task of an entry finishes, or signals the broker. */
  function TaskEntry(s: Broker, a: Action): Entry
    requires Can(s, a) && (a.TaskFinishes? || a.TaskSignals?)
  {
    var e := s.entries[a.key];
    e.(state := if a.TaskFinishes? then Finished(a.aborted) else Signalled(e.state.aborted))
  }

  lemma TaskEntries(s: Broker, a: Action)
    requires EntriesOk(s) && Can(s, a) && (a.TaskFinishes? || a.TaskSignals?)
    ensures EntriesOk(Step(s, a))
  {
    var k, e := a.key, TaskEntry(s, a);
    assert EntryOk(s, k) && EntryOk(Update(s, k, e), k);
    UpdateEntries(s, k, e);
    hide EntryOk;
    SameEntries(Update(s, k, e), Step(s, a));
  }

  lemma TaskKept(s: Broker, a: Action)
    requires Inv(s) && Can(s, a) && (a.TaskFinishes? || a.TaskSignals?)
    ensures Inv(Step(s, a))
  {
    hide CallsOk, EntriesOk, InvokedOk, Served;
    TaskEntries(s, a);
    UpdateCalls(s, a.key, TaskEntry(s, a));
    SameCalls(Update(s, a.key, TaskEntry(s, a)), Step(s, a));
    EntryServed(s, Step(s, a), a.key);
    InvokedKept(s, Step(s, a));
  }

  lemma InvokedKept(s: Broker, s': Broker)
    requires InvokedOk(s) && s'.invoked == s.invoked && s'.answers == s.answers && s'.calls == s.calls
    requires s'.entries.Keys == s.entries.Keys
    requires forall l | l in s.entries && s.entries[l].finished ::
      s'.entries[l].finished && s'.entries[l].success == s.entries[l].success
    ensures InvokedOk(s')
  {
  }

  lemma ProcessEntries(s: Broker, k: Key)
    requires EntriesOk(s) && Can(s, Process(k))
    ensures EntriesOk(ProcessStep(s, k))
  {
    var s' := ProcessStep(s, k);
    if s'.entries == s.entries {
      SameEntries(s, s');
    } else if s.entries[k].running {
      assert EntryOk(s, k) && EntryOk(Update(s, k, s'.entries[k]), k);
      UpdateEntries(s, k, s'.entries[k]);
      SameEntries(Update(s, k, s'.entries[k]), s');
    } else {
      RunEntries(s, k, s'.entries[k]);
      SameEntries(Update(s, k, s'.entries[k]).(runs := s.runs + [s'.entries[k].task]), s');
    }
  }

  lemma ProcessKept(s: Broker, k: Key)
    requires Inv(s) && Can(s, Process(k))
    ensures Inv(ProcessStep(s, k))
  {
    hide CallsOk, EntriesOk, InvokedOk, Served;
    var s' := ProcessStep(s, k);
    ProcessEntries(s, k);
    if s'.entries == s.entries {
      SameCalls(s, s');
    } else {
      UpdateCalls(s, k, s'.entries[k]);
      SameCalls(Update(s, k, s'.entries[k]), s');
    }
    EntryServed(s, s', k);
    ProcessInvoked(s, k);
  }

  lemma ProcessInvoked(s: Broker, k: Key)
    requires InvokedOk(s) && EntriesOk(s) && Can(s, Process(k))
    ensures InvokedOk(ProcessStep(s, k))
  {
    if k in s.entries {
      assert EntryOk(s, k);
    }
    hide EntryOk, EntriesOk;
    InvokedKept(s, ProcessStep(s, k));
  }

  lemma PopEntries(s: Broker)
    requires EntriesOk(s) && s.broker.Popping? && s.broker.key in s.entries
    ensures EntriesOk(PopStep(s))
  {
    var k, s' := s.broker.key, PopStep(s);
    if s.entries[k].callbacks == [] {
      SameEntries(s, s');
    } else {
      assert EntryOk(s, k) && EntryOk(Update(s, k, s'.entries[k]), k);
      UpdateEntries(s, k, s'.entries[k]);
      hide EntryOk;
      SameEntries(Update(s, k, s'.entries[k]), s');
    }
  }

  lemma PopInvoked(s: Broker)
    requires InvokedOk(s) && EntriesOk(s) && s.broker.Popping? && PhaseOk(s)
    ensures InvokedOk(PopStep(s))
  {
    var k := s.broker.key;
    assert EntryOk(s, k);
    hide EntryOk, EntriesOk;
  }

  lemma PopKept(s: Broker)
    requires Inv(s) && s.broker.Popping?
    ensures Inv(PopStep(s))
  {
    assert EntryOk(s, s.broker.key);
    hide CallsOk, EntriesOk, InvokedOk, Served;
    var s' := PopStep(s);
    PopEntries(s);
    PopInvoked(s);
    if s.entries[s.broker.key].callbacks == [] {
      SameCalls(s, s');
    } else {
      PopCalls(s);
    }
    EntryServed(s, s', s.broker.key);
  }

  lemma BrokerKept(s: Broker, a: Action)
    requires Inv(s) && Can(s, a) && (a.Wait? || a.Loop?)
    ensures Inv(Step(s, a))
  {
    SameCalls(s, Step(s, a));
    SameEntries(s, Step(s, a));
    assert InvokedOk(Step(s, a)) && Served(Step(s, a));
    hide CallsOk, EntriesOk, Served, InvokedOk;
  }

  lemma StepKept(s: Broker, a: Action)
    requires Inv(s) && Can(s, a)
    ensures Inv(Step(s, a))
  {
    hide Inv;
    match a
    case Call(c) => CallKept(s, c);
    case TaskFinishes(_, _) => TaskKept(s, a);
    case TaskSignals(_) => TaskKept(s, a);
    case Wait => BrokerKept(s, a);
    case Loop => BrokerKept(s, a);
    case Process(k) => ProcessKept(s, k);
    case PopCallback => PopKept(s);
  }

  lemma {:induction false} RunInv(run: seq<Broker>, i: nat)
    requires IsRun(run) && i < |run|
    ensures Inv(run[i])
  {
    hide Inv;
    if i == 0 {
      InitInv(run[0]);
    } else {
      RunInv(run, i - 1);
      assert Next(run[i - 1], run[i]);
      var a :| Can(run[i - 1], a) && run[i] == Step(run[i - 1], a);
      StepKept(run[i - 1], a);
    }
  }

  lemma ReachableInv(s: Broker)
    requires Reachable(s)
    ensures Inv(s)
  {
    hide Inv;
    var run :| IsRun(run) && run[|run| - 1] == s;
    RunInv(run, |run| - 1);
  }

  // ---- What the broker promises ----

  /** Callers get the same task if they asked for the same key, and different tasks for different keys. */
  lemma OneTaskPerKey(s: Broker, c: Caller, d: Caller)
    requires Reachable(s) && c < |s.calls| && d < |s.calls| && HasTask(s.calls[c].phase) && HasTask(s.calls[d].phase)
    ensures s.calls[c].phase.task == s.calls[d].phase.task <==> s.calls[c].key == s.calls[d].key
  {
    ReachableInv(s);
    assert CallOk(s, c) && CallOk(s, d);
  }

  /** The broker runs each task at most once, and exactly those whose entry says so. */
  lemma RunsEachTaskOnce(s: Broker, k: Key)
    requires Reachable(s)
    ensures forall i, j | 0 <= i < j < |s.runs| :: s.runs[i] != s.runs[j]
    ensures k in s.entries ==> (s.entries[k].running <==> s.entries[k].task in s.runs)
  {
    ReachableInv(s);
    if k in s.entries {
      assert EntryOk(s, k);
    }
  }

  /** A callback is called at most once, not before its task finished, and is told whether the task was not aborted. */
  lemma CallbackAtMostOnce(s: Broker, c: Caller)
    requires Reachable(s)
    ensures Count(s.invoked, c) <= 1 && |s.answers| == |s.invoked|
    ensures forall i | 0 <= i < |s.invoked| && s.invoked[i] == c ::
      && c < |s.calls| && s.calls[c].key in s.entries
      && var e := s.entries[s.calls[c].key];
         HasFinished(e) && s.answers[i] == !e.state.aborted
  {
    ReachableInv(s);
    if Count(s.invoked, c) > 0 {
      var i := IndexOf(s.invoked, c);
      assert CallOk(s, c) && EntryOk(s, s.calls[c].key);
    }
    forall i | 0 <= i < |s.invoked| && s.invoked[i] == c ensures EntryOk(s, s.calls[c].key) {
    }
  }

  lemma {:induction false} IndexOf(list: seq<Caller>, c: Caller) returns (i: nat)
    requires Count(list, c) > 0
    ensures i < |list| && list[i] == c
    decreases |list|
  {
    i := 0;
    if list[0] != c {
      i := IndexOf(list[1..], c);
      i := i + 1;
    }
  }

  /** When the broker is idle, and no caller is inside run(), nothing is left to do: every task was run, and for those
      that ended all callbacks were called, each exactly once. */
  lemma NothingLeftWhenIdle(s: Broker, k: Key)
    requires Reachable(s) && s.broker == Idle && k in s.entries
    requires forall c | 0 <= c < |s.calls| :: s.calls[c].phase.Outside? || s.calls[c].phase.Returned?
    ensures s.entries[k].running
    ensures s.entries[k].state.Signalled? ==> s.entries[k].callbacks == [] && s.entries[k].finished
    ensures s.entries[k].state.Signalled? ==>
      forall c | 0 <= c < |s.calls| && s.calls[c].key == k && s.calls[c].phase.Returned? :: Count(s.invoked, c) == 1
  {
    ReachableInv(s);
    assert EntryOk(s, k);
    assert !Owed(s, k) || s.entries[k].state.Finished?;
    forall c | 0 <= c < |s.calls| && s.calls[c].key == k && s.calls[c].phase.Returned?
      ensures s.entries[k].state.Signalled? ==> Count(s.invoked, c) == 1
    {
      assert CallOk(s, c);
    }
  }
}
