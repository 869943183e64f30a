/** An event that tasks register for, while another thread triggers it. */
module TaskEvents {

  /** A registration is named after the thread that makes it. */
  type Registration = nat

  datatype Registrar =
    | NotCalled
    | WantLock                          // m_triggered was false
    | Appended                          // holds the lock
    | Signalling(todo: seq<Registration>)
    | Returned

  datatype Trigger = NotTriggered | WantTasks | Notifying(todo: seq<Registration>) | Done

  datatype Event = Event(
    triggered: bool,
    list: seq<Registration>,
    locked: bool,
    registrars: seq<Registrar>,
    trigger: Trigger,
    signals: multiset<Registration>)    // every call of signal() so far

  predicate Init(s: Event) {
    && !s.triggered && s.list == [] && !s.locked && s.trigger == NotTriggered && s.signals == multiset{}
    && forall r | 0 <= r < |s.registrars| :: s.registrars[r] == NotCalled
  }

  predicate CanRegister(s: Event, r: nat) {
    && r < |s.registrars| && s.registrars[r] != Returned
    && (s.registrars[r] == WantLock ==> !s.locked)
  }

  function Goto(s: Event, r: nat, p: Registrar): Event
    requires r < |s.registrars|
  {
    s.(registrars := s.registrars[r := p])
  }

  /** One step of register_task(). */
  function RegisterStep(s: Event, r: nat): Event
    requires CanRegister(s, r)
  {
    match s.registrars[r]
    case NotCalled => Goto(s, r, if s.triggered then Signalling([r]) else WantLock)
    case WantLock => Goto(s, r, Appended).(locked := true, list := s.list + [r])
    case Appended =>
      if s.triggered then Goto(s, r, Signalling(s.list)).(locked := false, list := [])
      else Goto(s, r, Returned).(locked := false)
    case Signalling(todo) =>
      if todo == [] then Goto(s, r, Returned)
      else Goto(s, r, Signalling(todo[1..])).(signals := s.signals + multiset{todo[0]})
    case Returned => s
  }

  predicate CanTrigger(s: Event) {
    s.trigger != Done && (s.trigger == WantTasks ==> !s.locked)
  }

  /** One step of trigger(). */
  function TriggerStep(s: Event): Event
    requires CanTrigger(s)
  {
    match s.trigger
    case NotTriggered => s.(triggered := true, trigger := WantTasks)
    case WantTasks => s.(trigger := Notifying(s.list), list := [])
    case Notifying(todo) =>
      if todo == [] then s.(trigger := Done)
      else s.(trigger := Notifying(todo[1..]), signals := s.signals + multiset{todo[0]})
    case Done => s
  }

  ghost predicate Next(s: Event, s': Event) {
    || (CanTrigger(s) && s' == TriggerStep(s))
    || exists r :: CanRegister(s, r) && s' == RegisterStep(s, r)
  }

  ghost predicate IsRun(run: seq<Event>) {
    |run| > 0 && Init(run[0]) && forall i | 0 < i < |run| :: Next(run[i - 1], run[i])
  }

  ghost predicate Reachable(s: Event) {
    exists run :: IsRun(run) && run[|run| - 1] == s
  }

  // ---- Where the registrations are ----

  function Count(todo: seq<Registration>, q: Registration): nat {
    if todo == [] then 0 else (if todo[0] == q then 1 else 0) + Count(todo[1..], q)
  }

  lemma {:induction false} CountOneMore(todo: seq<Registration>, r: Registration, q: Registration)
    ensures Count(todo + [r], q) == Count(todo, q) + if r == q then 1 else 0
    decreases |todo|
  {
    if todo != [] {
      assert (todo + [r])[1..] == todo[1..] + [r];
      CountOneMore(todo[1..], r, q);
    }
  }

  function TodoOf(p: Registrar, q: Registration): nat {
    if p.Signalling? then Count(p.todo, q) else 0
  }

  /** How often the threads that register have still to signal q. */
  function Todo(registrars: seq<Registrar>, q: Registration): nat {
    if registrars == [] then 0
    else Todo(registrars[..|registrars| - 1], q) + TodoOf(registrars[|registrars| - 1], q)
  }

  predicate Entered(p: Registrar) {
    p.Appended? || p.Signalling? || p.Returned?
  }

  /** Was the registration made? */
  function Made(registrars: seq<Registrar>, q: Registration): nat {
    if q < |registrars| && Entered(registrars[q]) then 1 else 0
  }

  function TriggerTodo(t: Trigger, q: Registration): nat {
    if t.Notifying? then Count(t.todo, q) else 0
  }

  lemma {:induction false} TodoUpdate(registrars: seq<Registrar>, r: nat, p: Registrar, q: Registration)
    requires r < |registrars|
    ensures Todo(registrars[r := p], q) + TodoOf(registrars[r], q) == Todo(registrars, q) + TodoOf(p, q)
    decreases |registrars|
  {
    var n := |registrars| - 1;
    if r == n {
      assert registrars[r := p][..n] == registrars[..n];
    } else {
      assert registrars[r := p][..n] == registrars[..n][r := p];
      TodoUpdate(registrars[..n], r, p, q);
    }
  }

  lemma {:induction false} NoTodo(registrars: seq<Registrar>, q: Registration)
    requires forall r | 0 <= r < |registrars| :: !registrars[r].Signalling?
    ensures Todo(registrars, q) == 0
    decreases |registrars|
  {
    if registrars != [] {
      NoTodo(registrars[..|registrars| - 1], q);
    }
  }

  // ---- The invariant ----

  /** The places where registration q is: in the list, in the hands of a thread, or signalled. */
  function Places(s: Event, q: Registration): nat {
    Count(s.list, q) + Todo(s.registrars, q) + TriggerTodo(s.trigger, q) + s.signals[q]
  }

  ghost predicate Inv(s: Event) {
    && (forall q: Registration :: Places(s, q) == Made(s.registrars, q))
    && (s.triggered <==> s.trigger != NotTriggered)
    && (!s.triggered ==> s.signals == multiset{} && forall r | 0 <= r < |s.registrars| :: !s.registrars[r].Signalling?)
    && (s.locked <==> exists r :: 0 <= r < |s.registrars| && s.registrars[r] == Appended)
    && (forall q, r | 0 <= q < r < |s.registrars| && s.registrars[q] == Appended :: s.registrars[r] != Appended)
    // What is in the list after trigger() took it will be taken by the thread that holds the lock.
    && (s.list != [] && (s.trigger.Notifying? || s.trigger == Done) ==> s.locked)
  }

  lemma InitInv(s: Event)
    requires Init(s)
    ensures Inv(s)
  {
    forall q: Registration ensures Places(s, q) == Made(s.registrars, q) {
      NoTodo(s.registrars, q);
    }
  }

  lemma TriggerKept(s: Event)
    requires Inv(s) && CanTrigger(s)
    ensures Inv(TriggerStep(s))
  {
    forall q: Registration ensures Places(TriggerStep(s), q) == Made(TriggerStep(s).registrars, q) {
      assert Places(s, q) == Made(s.registrars, q);
    }
  }

  lemma PlacesKept(s: Event, r: nat, q: Registration)
    requires CanRegister(s, r) && Places(s, q) == Made(s.registrars, q)
    ensures Places(RegisterStep(s, r), q) == Made(RegisterStep(s, r).registrars, q)
  {
    TodoUpdate(s.registrars, r, RegisterStep(s, r).registrars[r], q);
    hide Todo;
    if s.registrars[r].Signalling? {
      assert TodoOf(s.registrars[r], q) == Count(s.registrars[r].todo, q);
    } else {
      CountOneMore(s.list, r, q);
      assert Count([r], q) == if r == q then 1 else 0 by {
        assert [r][1..] == [];
      }
      hide Count;
    }
  }

  lemma RegisterKept(s: Event, r: nat)
    requires Inv(s) && CanRegister(s, r)
    ensures Inv(RegisterStep(s, r))
  {
    hide Places, Made;
    forall q: Registration ensures Places(RegisterStep(s, r), q) == Made(RegisterStep(s, r).registrars, q) {
      PlacesKept(s, r, q);
    }
    LockKept(s, r);
  }

  lemma LockKept(s: Event, r: nat)
    requires Inv(s) && CanRegister(s, r)
    ensures var s' := RegisterStep(s, r);
      && (s'.locked <==> exists r :: 0 <= r < |s'.registrars| && s'.registrars[r] == Appended)
      && (forall q, r | 0 <= q < r < |s'.registrars| && s'.registrars[q] == Appended :: s'.registrars[r] != Appended)
  {
    var s' := RegisterStep(s, r);
    if s.registrars[r] == WantLock {
      assert s'.registrars[r] == Appended;
    } else if s.locked && s.registrars[r] != Appended {
      var q :| 0 <= q < |s.registrars| && s.registrars[q] == Appended;
      assert s'.registrars[q] == Appended;
    }
  }

  lemma {:induction false} RunInv(run: seq<Event>, i: nat)
    requires IsRun(run) && i < |run|
    ensures Inv(run[i])
  {
    hide Inv;
    if i == 0 {
      InitInv(run[0]);
    } else {
      RunInv(run, i - 1);
      var s := run[i - 1];
      assert Next(s, run[i]);
      if CanTrigger(s) && run[i] == TriggerStep(s) {
        TriggerKept(s);
      } else {
        var r :| CanRegister(s, r) && run[i] == RegisterStep(s, r);
        RegisterKept(s, r);
      }
    }
  }

  lemma ReachableInv(s: Event)
    requires Reachable(s)
    ensures Inv(s)
  {
    hide Inv;
    var run :| IsRun(run) && run[|run| - 1] == s;
    RunInv(run, |run| - 1);
  }

  // ---- What the event promises ----

  /** Whatever the interleaving, no registration is signalled before the event is triggered, or more than once. */
  lemma AtMostOnce(s: Event, r: Registration)
    requires Reachable(s)
    ensures s.signals[r] <= 1
    ensures s.signals[r] > 0 ==> s.triggered && r < |s.registrars| && Entered(s.registrars[r])
  {
    ReachableInv(s);
    assert Places(s, r) == Made(s.registrars, r);
  }

  /** When all calls of register_task() and trigger() have returned, each registration was signalled exactly once. */
  lemma ExactlyOnce(s: Event, r: Registration)
    requires Reachable(s) && s.trigger == Done && forall q | 0 <= q < |s.registrars| :: s.registrars[q] == Returned
    requires r < |s.registrars|
    ensures s.signals[r] == 1
  {
    ReachableInv(s);
    assert Places(s, r) == Made(s.registrars, r);
    NoTodo(s.registrars, r);
    assert s.list == [];
  }

  /** Also before that, no registration is lost: once trigger() has the list, a registration that was not signalled is
      in the hands of some thread, or a thread holds the lock and will find it in the list. */
  lemma NoneForgotten(s: Event, r: Registration)
    requires Reachable(s) && (s.trigger.Notifying? || s.trigger == Done)
    requires r < |s.registrars| && Entered(s.registrars[r]) && s.signals[r] == 0
    ensures
      || (s.trigger.Notifying? && Count(s.trigger.todo, r) == 1)
      || (exists q :: 0 <= q < |s.registrars| && s.registrars[q].Signalling? && Count(s.registrars[q].todo, r) > 0)
      || (Count(s.list, r) == 1 && exists q :: 0 <= q < |s.registrars| && s.registrars[q] == Appended)
  {
    ReachableInv(s);
    assert Places(s, r) == Made(s.registrars, r);
    if Todo(s.registrars, r) > 0 {
      var q := HolderOf(s.registrars, r);
    }
  }

  lemma {:induction false} HolderOf(registrars: seq<Registrar>, r: Registration) returns (q: nat)
    requires Todo(registrars, r) > 0
    ensures q < |registrars| && registrars[q].Signalling? && Count(registrars[q].todo, r) > 0
    decreases |registrars|
  {
    q := |registrars| - 1;
    if TodoOf(registrars[q], r) == 0 {
      q := HolderOf(registrars[..q], r);
    }
  }
}
