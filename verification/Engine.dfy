/** An engine: a list of tasks that mainloop() walks through, while other threads append to it. */
module Engines {
  import opened TaskTypes

  type Task = nat

  /** An element of the list. A task can be in the list more than once. */
  datatype Element = Element(id: nat, task: Task)

  /** What happens while mainloop() is busy with one element: the tasks that are added meanwhile, whether the task of
      the element still runs in this engine after that, the time at the start, and the time that passed; and, if the
      task runs, whether it calls run(), which sets mDuration to zero, and the value that it gives to mSleep last. */
  datatype Visit =
    Visit(added: seq<Task>, active: bool, start: int, delta: nat, restarts: bool, sleep: Option<int>)

  function NewElements(first: nat, tasks: seq<Task>): seq<Element>
    ensures |NewElements(first, tasks)| == |tasks|
  {
    seq(|tasks|, i requires 0 <= i < |tasks| => Element(first + i, tasks[i]))
  }

  /** The elements whose task was still active when mainloop() was done with them. */
  function Kept(visited: seq<Element>, active: seq<bool>): seq<Element>
    requires |visited| == |active|
  {
    if visited == [] then []
    else
      var n := |visited| - 1;
      Kept(visited[..n], active[..n]) + if active[n] then [visited[n]] else []
  }

  function ActiveFlags(visits: seq<Visit>): seq<bool>
    ensures |ActiveFlags(visits)| == |visits|
  {
    seq(|visits|, i requires 0 <= i < |visits| => visits[i].active)
  }

  /** All tasks that are added during some visits. */
  function Added(visits: seq<Visit>): seq<Task> {
    if visits == [] then [] else Added(visits[..|visits| - 1]) + visits[|visits| - 1].added
  }

  /** The time that some visits take. */
  function TotalDuration(visits: seq<Visit>): nat {
    if visits == [] then 0 else TotalDuration(visits[..|visits| - 1]) + visits[|visits| - 1].delta
  }

  /** How often a list has a task. */
  function Count(list: seq<Element>, x: Task): nat {
    if list == [] then 0
    else Count(list[..|list| - 1], x) + if list[|list| - 1].task == x then 1 else 0
  }

  /** How many elements of a task were erased. */
  function Erased(visited: seq<Element>, active: seq<bool>, x: Task): nat
    requires |visited| == |active|
  {
    if visited == [] then 0
    else
      var n := |visited| - 1;
      Erased(visited[..n], active[..n], x) + if visited[n].task == x && !active[n] then 1 else 0
  }

  lemma {:induction false} CountAppend(a: seq<Element>, b: seq<Element>, x: Task)
    ensures Count(a + b, x) == Count(a, x) + Count(b, x)
    decreases |b|
  {
    if b == [] {
      assert a + b == a;
    } else {
      var n := |b| - 1;
      assert (a + b)[..|a| + n] == a + b[..n];
      CountAppend(a, b[..n], x);
    }
  }

  lemma {:induction false} KeptCount(visited: seq<Element>, active: seq<bool>, x: Task)
    requires |visited| == |active|
    ensures Count(Kept(visited, active), x) + Erased(visited, active, x) == Count(visited, x)
    decreases |visited|
  {
    if visited != [] {
      var n := |visited| - 1;
      KeptCount(visited[..n], active[..n], x);
      CountAppend(Kept(visited[..n], active[..n]), if active[n] then [visited[n]] else [], x);
    }
  }

  /** A call of mainloop() started with `before`, while `added` was appended, and visited some of these elements but not
      the rest. No task that is still active in the engine is lost: a task loses one element for each visit after
      which it was not active. */
  lemma NothingLost(before: seq<Element>, added: seq<Element>,
                    visited: seq<Element>, active: seq<bool>, rest: seq<Element>, x: Task)
    requires before + added == visited + rest && |visited| == |active|
    ensures Count(Kept(visited, active) + rest, x) + Erased(visited, active, x) == Count(before, x) + Count(added, x)
    ensures (forall i | 0 <= i < |active| && visited[i].task == x :: active[i]) ==>
      Count(Kept(visited, active) + rest, x) == Count(before, x) + Count(added, x)
  {
    CountAppend(before, added, x);
    CountAppend(visited, rest, x);
    KeptCount(visited, active, x);
    CountAppend(Kept(visited, active), rest, x);
    NoneErased(visited, active, x);
  }

  lemma {:induction false} NoneErased(visited: seq<Element>, active: seq<bool>, x: Task)
    requires |visited| == |active|
    ensures (forall i | 0 <= i < |active| && visited[i].task == x :: active[i]) ==> Erased(visited, active, x) == 0
    decreases |visited|
  {
    if visited != [] {
      var n := |visited| - 1;
      NoneErased(visited[..n], active[..n], x);
    }
  }

  // ---- The order by duration ----

  /** Inserts an element behind all those that took no longer; this keeps equal elements in order. */
  function Insert(list: seq<Element>, e: Element, duration: map<Task, nat>): seq<Element> {
    if list == [] || DurationOf(duration, list[|list| - 1]) <= DurationOf(duration, e) then list + [e]
    else Insert(list[..|list| - 1], e, duration) + [list[|list| - 1]]
  }

  function Sort(list: seq<Element>, duration: map<Task, nat>): seq<Element> {
    if list == [] then [] else Insert(Sort(list[..|list| - 1], duration), list[|list| - 1], duration)
  }

  function DurationOf(duration: map<Task, nat>, e: Element): nat {
    if e.task in duration then duration[e.task] else 0
  }

  predicate Sorted(list: seq<Element>, duration: map<Task, nat>) {
    forall i, j | 0 <= i < j < |list| :: DurationOf(duration, list[i]) <= DurationOf(duration, list[j])
  }

  lemma {:induction false} InsertAdds(list: seq<Element>, e: Element, duration: map<Task, nat>)
    ensures multiset(Insert(list, e, duration)) == multiset(list) + multiset{e}
    decreases |list|
  {
    if list != [] && DurationOf(duration, list[|list| - 1]) > DurationOf(duration, e) {
      var n := |list| - 1;
      InsertAdds(list[..n], e, duration);
      assert list == list[..n] + [list[n]];
    }
  }

  lemma {:induction false} InsertSorts(list: seq<Element>, e: Element, duration: map<Task, nat>)
    requires Sorted(list, duration)
    ensures Sorted(Insert(list, e, duration), duration)
    ensures forall x | x in Insert(list, e, duration) :: x == e || x in list
    decreases |list|
  {
    if list != [] && DurationOf(duration, list[|list| - 1]) > DurationOf(duration, e) {
      var n := |list| - 1;
      InsertSorts(list[..n], e, duration);
      var r := Insert(list[..n], e, duration);
      forall i | 0 <= i < |r| ensures DurationOf(duration, r[i]) <= DurationOf(duration, list[n]) {
        assert r[i] in r;
      }
    }
  }

  /** Sorting permutes the list such that tasks that took less time come first. */
  lemma {:induction false} SortSorts(list: seq<Element>, duration: map<Task, nat>)
    ensures Sorted(Sort(list, duration), duration)
    ensures multiset(Sort(list, duration)) == multiset(list)
    decreases |list|
  {
    if list != [] {
      var n := |list| - 1;
      SortSorts(list[..n], duration);
      InsertSorts(Sort(list[..n], duration), list[n], duration);
      InsertAdds(Sort(list[..n], duration), list[n], duration);
      assert list == list[..n] + [list[n]];
    }
  }

  lemma {:induction false} InsertCount(list: seq<Element>, e: Element, duration: map<Task, nat>, x: Task)
    ensures Count(Insert(list, e, duration), x) == Count(list, x) + if e.task == x then 1 else 0
    decreases |list|
  {
    if list == [] || DurationOf(duration, list[|list| - 1]) <= DurationOf(duration, e) {
      assert (list + [e])[..|list|] == list;
    } else {
      var n := |list| - 1;
      InsertCount(list[..n], e, duration, x);
      var r := Insert(list[..n], e, duration);
      assert (r + [list[n]])[..|r|] == r;
    }
  }

  lemma {:induction false} SortCount(list: seq<Element>, duration: map<Task, nat>, x: Task)
    ensures Count(Sort(list, duration), x) == Count(list, x)
    decreases |list|
  {
    if list != [] {
      var n := |list| - 1;
      SortCount(list[..n], duration, x);
      InsertCount(Sort(list[..n], duration), list[n], duration, x);
    }
  }

  // ---- Sleeping tasks, and the time that tasks take ----

  /** mSleep and mDuration of a task. Frames that it has still to skip are a negative mSleep; a positive one is the time
      at which it wants to run again. */
  datatype Times = Times(sleep: int, duration: nat)

  /** A visit of an element of a task; onlyTask if no other element was left when the one before it was processed. */
  datatype Look = Look(task: Task, visit: Visit, onlyTask: bool)

  /** What sleep() makes of mSleep. */
  function Sleep(sleep: int, now: int, onlyTask: bool): int {
    if sleep == 0 then 0
    else if sleep < 0 then sleep + 1
    else if sleep <= now || onlyTask then 0
    else sleep
  }

  /** Does mainloop() run the task? */
  predicate Runs(limited: bool, t: Times, look: Look) {
    !limited || Sleep(t.sleep, look.visit.start, look.onlyTask) == 0
  }

  /** The fields of the task after the visit; only an engine with a maximum duration looks at them. */
  function NextTimes(limited: bool, t: Times, look: Look): Times {
    var v := look.visit;
    var sleep := if limited then Sleep(t.sleep, v.start, look.onlyTask) else t.sleep;
    if Runs(limited, t, look) then
      Times(if v.sleep.Some? then v.sleep.value else sleep,
            (if v.restarts then 0 else t.duration) + if limited then v.delta else 0)
    else
      Times(sleep, t.duration + v.delta)
  }

  /** The fields of task x after some visits. */
  function After(limited: bool, t: Times, looks: seq<Look>, x: Task): Times {
    if looks == [] then t
    else
      var n := |looks| - 1;
      var t' := After(limited, t, looks[..n], x);
      if looks[n].task == x then NextTimes(limited, t', looks[n]) else t'
  }

  /** How often the task was visited. */
  function Visits(looks: seq<Look>, x: Task): nat {
    if looks == [] then 0 else Visits(looks[..|looks| - 1], x) + if looks[|looks| - 1].task == x then 1 else 0
  }

  /** The time that all visits of the task took. */
  function Spent(looks: seq<Look>, x: Task): nat {
    if looks == [] then 0
    else
      var n := |looks| - 1;
      Spent(looks[..n], x) + if looks[n].task == x then looks[n].visit.delta else 0
  }

  /** The visits of a call of mainloop() can be followed by those of the next one. */
  lemma {:induction false} AfterAppend(limited: bool, t: Times, a: seq<Look>, b: seq<Look>, x: Task)
    ensures After(limited, t, a + b, x) == After(limited, After(limited, t, a, x), b, x)
    ensures Visits(a + b, x) == Visits(a, x) + Visits(b, x)
    decreases |b|
  {
    if b == [] {
      assert a + b == a;
    } else {
      var n := |b| - 1;
      assert (a + b)[..|a| + n] == a + b[..n];
      AfterAppend(limited, t, a, b[..n], x);
    }
  }

  /** A task that called yield_frame(n) does not run before its n-th visit, and runs then: in the same call of
      mainloop(), or in a later one. */
  lemma {:induction false} RunsAtNthVisit(t: Times, earlier: seq<Look>, looks: seq<Look>, k: nat, x: Task, n: nat)
    requires t.sleep == 0 - n && n > 0 && k < |looks| && looks[k].task == x
    ensures var t' := After(true, After(true, t, earlier, x), looks[..k], x);
      var visits := Visits(earlier, x) + Visits(looks[..k], x);
      && (visits < n - 1 ==> !Runs(true, t', looks[k]))
      && (visits == n - 1 ==> Runs(true, t', looks[k]))
  {
    AfterAppend(true, t, earlier, looks[..k], x);
    if Visits(earlier + looks[..k], x) < n {
      SkipsFrames(t, earlier + looks[..k], x, n);
    }
  }

  lemma {:induction false} SkipsFrames(t: Times, looks: seq<Look>, x: Task, n: nat)
    requires t.sleep == 0 - n && Visits(looks, x) < n
    ensures After(true, t, looks, x).sleep == Visits(looks, x) - n
    decreases |looks|
  {
    if looks != [] {
      SkipsFrames(t, looks[..|looks| - 1], x, n);
    }
  }

  /** It is not yet time for the task, and it is not the only one. */
  predicate TooEarly(look: Look, x: Task, time: int) {
    look.task == x ==> look.visit.start < time && !look.onlyTask
  }

  /** A task that called yield_ms() runs at its first visit at which its time has come, or no other task is left. */
  lemma {:induction false} RunsInTime(t: Times, looks: seq<Look>, k: nat, x: Task)
    requires t.sleep > 0 && k < |looks| && looks[k].task == x
    requires forall i | 0 <= i < k :: TooEarly(looks[i], x, t.sleep)
    ensures Runs(true, After(true, t, looks[..k], x), looks[k]) <==> !TooEarly(looks[k], x, t.sleep)
  {
    Sleeps(t, looks[..k], x);
  }

  lemma {:induction false} Sleeps(t: Times, looks: seq<Look>, x: Task)
    requires t.sleep > 0 && forall i | 0 <= i < |looks| :: TooEarly(looks[i], x, t.sleep)
    ensures After(true, t, looks, x).sleep == t.sleep
    decreases |looks|
  {
    if looks != [] {
      var n := |looks| - 1;
      Sleeps(t, looks[..n], x);
      assert TooEarly(looks[n], x, t.sleep);
    }
  }

  /** The duration by which the tasks are sorted grows by the time of each visit, also if the task sleeps. */
  lemma {:induction false} DurationIsSpent(t: Times, looks: seq<Look>, x: Task)
    requires forall i | 0 <= i < |looks| && looks[i].task == x :: !looks[i].visit.restarts
    ensures After(true, t, looks, x).duration == t.duration + Spent(looks, x)
    decreases |looks|
  {
    if looks != [] {
      var n := |looks| - 1;
      DurationIsSpent(t, looks[..n], x);
      assert looks[n].task == x ==> !looks[n].visit.restarts;
    }
  }

  function Inactive(visits: seq<Visit>): nat {
    if visits == [] then 0 else Inactive(visits[..|visits| - 1]) + if visits[|visits| - 1].active then 0 else 1
  }

  /** The visits of a call of mainloop() that started with n elements. */
  function Looks(n: nat, visited: seq<Element>, visits: seq<Visit>): (looks: seq<Look>)
    requires |visited| <= |visits|
  {
    if visited == [] then []
    else
      var k := |visited| - 1;
      Looks(n, visited[..k], visits) + [Look(visited[k].task, visits[k], IsOnlyTask(n, visits[..k]))]
  }

  /** Was one element left after these visits? Before the first one that does not count. */
  predicate IsOnlyTask(n: nat, visits: seq<Visit>) {
    visits != [] && n + |Added(visits)| - Inactive(visits) == 1
  }

  /** The fields of task x, in maps that have those of all tasks. */
  function TimesOf(sleep: map<Task, int>, duration: map<Task, nat>, x: Task): Times {
    Times(if x in sleep then sleep[x] else 0, if x in duration then duration[x] else 0)
  }

  /** These visits lead from the fields of all tasks before them to those after them, and ran says at which of them the
      task was run. */
  ghost predicate HasTimed(limited: bool, sleep: map<Task, int>, duration: map<Task, nat>, looks: seq<Look>,
                           ran: seq<bool>, sleep': map<Task, int>, duration': map<Task, nat>) {
    && |ran| == |looks|
    && (forall x :: TimesOf(sleep', duration', x) == After(limited, TimesOf(sleep, duration, x), looks, x))
    && (forall k | 0 <= k < |looks| ::
          var x := looks[k].task;
          ran[k] == Runs(limited, After(limited, TimesOf(sleep, duration, x), looks[..k], x), looks[k]))
  }

  lemma OneMoreLook(limited: bool, sleep: map<Task, int>, duration: map<Task, nat>, looks: seq<Look>, ran: seq<bool>,
                    sleep': map<Task, int>, duration': map<Task, nat>,
                    look: Look, sleep'': map<Task, int>, duration'': map<Task, nat>)
    requires HasTimed(limited, sleep, duration, looks, ran, sleep', duration')
    requires forall x ::
      TimesOf(sleep'', duration'', x) ==
        var t := TimesOf(sleep', duration', x); if x == look.task then NextTimes(limited, t, look) else t
    ensures var runs := Runs(limited, TimesOf(sleep', duration', look.task), look);
      HasTimed(limited, sleep, duration, looks + [look], ran + [runs], sleep'', duration'')
  {
    hide NextTimes, Runs, TimesOf;
    var looks' := looks + [look];
    assert looks'[..|looks|] == looks;
    forall k | 0 <= k < |looks'| ensures looks'[..k] == looks[..k] {
    }
  }

  lemma LooksOn(n: nat, visited: seq<Element>, e: Element, visits: seq<Visit>)
    requires |visited| < |visits|
    ensures var k := |visited|;
      Looks(n, visited + [e], visits) ==
        Looks(n, visited, visits) + [Look(e.task, visits[k], IsOnlyTask(n, visits[..k]))]
    ensures |Looks(n, visited, visits)| == |visited|
    ensures Inactive(visits[..|visited| + 1]) ==
      Inactive(visits[..|visited|]) + if visits[|visited|].active then 0 else 1
  {
    hide Added;
    var k := |visited|;
    assert (visited + [e])[..k] == visited && (visited + [e])[k] == e;
    LooksLength(n, visited, visits);
    assert Inactive(visits[..k + 1]) == Inactive(visits[..k]) + if visits[k].active then 0 else 1 by {
      assert visits[..k + 1][..k] == visits[..k];
    }
    hide IsOnlyTask, Inactive;
  }

  lemma LooksLength(n: nat, visited: seq<Element>, visits: seq<Visit>)
    requires |visited| <= |visits|
    ensures |Looks(n, visited, visits)| == |visited|
  {
  }

  /** How many elements of a walk are left: those that were there and those that were added, but for the inactive. */
  lemma {:induction false} KeptLength(visited: seq<Element>, visits: seq<Visit>)
    requires |visited| == |visits|
    ensures |Kept(visited, ActiveFlags(visits))| == |visited| - Inactive(visits)
    decreases |visited|
  {
    if visited != [] {
      var n := |visited| - 1;
      KeptLength(visited[..n], visits[..n]);
      assert ActiveFlags(visits)[..n] == ActiveFlags(visits[..n]);
    }
  }

  // ---- The engine ----

  class Engine {
    var list: seq<Element>
    var waiting: bool
    const hasMaxDuration: bool
    const maxDuration: int
    var nextId: nat
    // Fields of the tasks: how long each one did run, and how long it sleeps.
    var duration: map<Task, nat>
    var sleep: map<Task, int>

    constructor (maxDuration: int)
      ensures list == [] && !waiting && hasMaxDuration == (maxDuration > 0)
    {
      list, waiting, nextId, duration, sleep := [], false, 0, map[], map[];
      hasMaxDuration := maxDuration > 0;
      this.maxDuration := maxDuration;
    }

    method Add(task: Task)
      modifies this
      ensures list == old(list) + [Element(old(nextId), task)] && nextId == old(nextId) + 1
      ensures !waiting && duration == old(duration) && sleep == old(sleep)
    {
      list := list + [Element(nextId, task)];
      nextId := nextId + 1;
      if waiting {
        waiting := false;
      }
    }

    method WakeUp()
      modifies this`waiting
      ensures !waiting
    {
      if waiting {
        waiting := false;
      }
    }

    /** Other threads, or the task that runs, add tasks. */
    method AddAll(tasks: seq<Task>)
      modifies this
      ensures list == old(list) + NewElements(old(nextId), tasks) && nextId == old(nextId) + |tasks|
      ensures waiting == (old(waiting) && tasks == []) && duration == old(duration) && sleep == old(sleep)
    {
      for i := 0 to |tasks|
        invariant list == old(list) + NewElements(old(nextId), tasks[..i]) && nextId == old(nextId) + i
        invariant waiting == (old(waiting) && i == 0) && duration == old(duration) && sleep == old(sleep)
      {
        Add(tasks[i]);
        assert NewElements(old(nextId), tasks[..i + 1])
            == NewElements(old(nextId), tasks[..i]) + [Element(old(nextId) + i, tasks[i])];
      }
      assert tasks[..|tasks|] == tasks;
    }

    /** Runs the task of the element at `position`, and erases the element unless the task is still active. The elements
        of `kept` were processed before, those of `rest` not yet. */
    method VisitElement(position: nat, visit: Visit, onlyTask: bool, ghost kept: seq<Element>, ghost rest: seq<Element>)
      returns (position': nat, delta: nat, ran: bool)
      requires list == kept + rest && position == |kept| && rest != []
      modifies this
      ensures var kept' := kept + if visit.active then [rest[0]] else [];
        list == kept' + (rest[1..] + NewElements(old(nextId), visit.added))
      ensures position' == if visit.active then position + 1 else position
      ensures nextId == old(nextId) + |visit.added|
      ensures delta == if hasMaxDuration then visit.delta else 0
      ensures var look := Look(rest[0].task, visit, onlyTask);
        && ran == Runs(hasMaxDuration, old(TimesOf(sleep, duration, look.task)), look)
        && forall x ::
             TimesOf(sleep, duration, x) ==
               var t := old(TimesOf(sleep, duration, x));
               if x == look.task then NextTimes(hasMaxDuration, t, look) else t
    {
      hide NextTimes, Runs, TimesOf;
      delta, ran := VisitTask(list[position].task, visit, onlyTask);
      ghost var extra := NewElements(old(nextId), visit.added);
      assert list == kept + [rest[0]] + (rest[1..] + extra);
      if visit.active {
        position' := position + 1;
      } else {
        list := list[..position] + list[position + 1..];
        position' := position;
      }
    }

    /** Runs the task unless it sleeps, and keeps track of the time. */
    method VisitTask(task: Task, visit: Visit, onlyTask: bool) returns (delta: nat, ran: bool)
      modifies this
      ensures list == old(list) + NewElements(old(nextId), visit.added) && nextId == old(nextId) + |visit.added|
      ensures delta == if hasMaxDuration then visit.delta else 0
      ensures var look := Look(task, visit, onlyTask);
        && ran == Runs(hasMaxDuration, old(TimesOf(sleep, duration, task)), look)
        && forall x ::
             TimesOf(sleep, duration, x) ==
               var t := old(TimesOf(sleep, duration, x));
               if x == task then NextTimes(hasMaxDuration, t, look) else t
    {
      delta, ran := 0, true;
      if hasMaxDuration {
        var asleep := FallsAsleep(task, visit.start, onlyTask);
        ran := !asleep;
        if ran {
          Run(task, visit);
        } else {
          AddAll(visit.added);
        }
        delta := visit.delta;
        duration := duration[task := (if task in duration then duration[task] else 0) + delta];
      } else {
        Run(task, visit);
      }
    }

    /** AIStatefulTask::sleep */
    method FallsAsleep(task: Task, now: int, onlyTask: bool) returns (asleep: bool)
      modifies this`sleep
      ensures var s := if task in old(sleep) then old(sleep)[task] else 0;
        asleep == (Sleep(s, now, onlyTask) != 0) && sleep == old(sleep)[task := Sleep(s, now, onlyTask)]
    {
      var s := if task in sleep then sleep[task] else 0;
      sleep := sleep[task := s];
      if s == 0 {
        return false;
      } else if s < 0 {
        sleep := sleep[task := s + 1];
      } else if s <= now || onlyTask {
        sleep := sleep[task := 0];
      }
      asleep := sleep[task] != 0;
    }

    /** What happens while multiplex(normal_run) runs: the task can call run(), wait(), yield_frame() and yield_ms(). */
    method Run(task: Task, visit: Visit)
      modifies this
      ensures list == old(list) + NewElements(old(nextId), visit.added) && nextId == old(nextId) + |visit.added|
      ensures sleep == if visit.sleep.Some? then old(sleep)[task := visit.sleep.value] else old(sleep)
      ensures duration == if visit.restarts then old(duration)[task := 0] else old(duration)
    {
      AddAll(visit.added);
      if visit.restarts {
        duration := duration[task := 0];
      }
      if visit.sleep.Some? {
        sleep := sleep[task := visit.sleep.value];
      }
    }

    /** mainloop(). When there is nothing to do, an engine without a maximum duration sleeps until a task is added or
        it is woken up; without a result it still sleeps. Otherwise it walks through the list. */
    method Mainloop(arrivals: seq<Task>, wokenUp: bool, visits: seq<Visit>)
      returns (result: Option<FuzzyBool>, ran: seq<bool>,
               ghost visited: seq<Element>, ghost rest: seq<Element>, ghost sorted: bool)
      modifies this
      ensures old(list) == [] ==> ran == [] && sleep == old(sleep) && duration == old(duration)
      ensures old(list) != [] ==>
        && |visited| <= |visits|
        && var looks := Looks(|old(list)|, visited, visits);
           HasTimed(hasMaxDuration, old(sleep), old(duration), looks, ran, sleep, duration)
      ensures old(list) == [] && hasMaxDuration ==> result == Some(WasFalse) && list == []
      ensures old(list) == [] && !hasMaxDuration ==>
        && list == NewElements(old(nextId), arrivals)
        && (result == Some(True) <==> !waiting) && (result == None <==> waiting)
        && (waiting <==> arrivals == [] && !wokenUp)
      ensures old(list) != [] ==>
        HasWalked(old(list), old(nextId), visits, visited, rest, sorted, result, list, duration)
    {
      visited, rest, sorted, ran := [], [], false, [];
      if list == [] {
        if hasMaxDuration {
          result := Some(WasFalse);
          return;
        }
        waiting := true;
        AddAll(arrivals);
        if wokenUp {
          WakeUp();
        }
        result := if waiting then None else Some(True);
        return;
      }
      result, ran, visited, rest, sorted := Walk(visits);
    }

    /** What the loop has done: which elements it visited, and what the list and the result are. */
    ghost predicate HasWalked(before: seq<Element>, first: nat,
                              visits: seq<Visit>, visited: seq<Element>, rest: seq<Element>,
                              sorted: bool, result: Option<FuzzyBool>, after: seq<Element>, duration: map<Task, nat>)
    {
      // The elements that were there, and all that were added, in order.
      && Walked(before, first, visits, visited, rest)
      // Of those that were visited the active ones are left.
      && after == (if sorted then Sort(Left(visits, visited, rest), duration) else Left(visits, visited, rest))
      // No task loses an element, except for each visit after which it was not active.
      && (forall x ::
            Count(after, x) + Erased(visited, ActiveFlags(visits[..|visited|]), x)
            == Count(before, x) + Count(NewElements(first, Added(visits[..|visited|])), x))
      // It goes on to the end, unless its time is over after a visit.
      && (result == None ==> |visited| == |visits| && rest != [])
      && (result.Some? ==> (result == Some(WasFalse) <==> after == []))
      && (rest != [] && result.Some? ==> hasMaxDuration && TotalDuration(visits[..|visited|]) >= maxDuration)
      && (hasMaxDuration ==> forall j | 0 < j < |visited| :: TotalDuration(visits[..j]) < maxDuration)
      // When its time is over, it sorts what is left, unless that is next to nothing.
      && (sorted <==>
          && hasMaxDuration && visited != [] && TotalDuration(visits[..|visited|]) >= maxDuration
          && |Left(visits, visited, rest)| > 2)
    }

    /** It takes too long: returns True if there are remaining tasks. */
    method Leave(position: nat, calledYield: bool) returns (result: Option<FuzzyBool>, ghost sorted: bool)
      requires position <= |list| && (calledYield <==> position > 0)
      modifies this`list
      ensures sorted == (|old(list)| > 2) && list == if sorted then Sort(old(list), duration) else old(list)
      ensures result.Some? && (result == Some(WasFalse) <==> list == [])
    {
      result := Some(if calledYield || position < |list| then True else WasFalse);
      sorted := false;
      if |list| > 2 {
        SortSorts(list, duration);
        assert list[0] in multiset(list);
        list := Sort(list, duration);
        sorted := true;
      }
    }

    /** The loop, for a list that is not empty. There is one visit for each element that it processes; without a result,
        the loop is still going on. The position stands for the iterator: other threads append elements, but only this
        method removes any. */
    method Walk(visits: seq<Visit>)
      returns (result: Option<FuzzyBool>, ran: seq<bool>,
               ghost visited: seq<Element>, ghost rest: seq<Element>, ghost sorted: bool)
      requires list != []
      modifies this
      ensures |visited| <= |visits|
      ensures var looks := Looks(|old(list)|, visited, visits);
        HasTimed(hasMaxDuration, old(sleep), old(duration), looks, ran, sleep, duration)
      ensures HasWalked(old(list), old(nextId), visits, visited, rest, sorted, result, list, duration)
    {
      hide Walked, Kept, Sort, ActiveFlags, Added, NewElements, TotalDuration, HasWalked, Count, Erased;
      hide HasTimed, NextTimes, Runs, TimesOf, Looks, Inactive;
      var position, i := 0, 0;
      var totalDuration := 0;
      var calledYield, onlyTask := false, false;
      result, ran, visited, rest, sorted := None, [], [], list, false;
      ghost var kept := [];
      StartWalk(list, nextId, visits);
      StartTimes(|list|, visits, hasMaxDuration, sleep, duration);
      while i < |visits| && position < |list|
        invariant i <= |visits| && |visited| == i && Walked(old(list), old(nextId), visits, visited, rest)
        invariant kept == Kept(visited, ActiveFlags(visits[..i])) && list == kept + rest && position == |kept|
        invariant nextId == old(nextId) + |Added(visits[..i])|
        invariant calledYield <==> position > 0
        invariant HasTimed(hasMaxDuration, old(sleep), old(duration), Looks(|old(list)|, visited, visits), ran,
                           sleep, duration)
        invariant hasMaxDuration ==> onlyTask == IsOnlyTask(|old(list)|, visits[..i])
        invariant hasMaxDuration ==> totalDuration == TotalDuration(visits[..i])
        invariant hasMaxDuration ==> forall j | 0 < j <= i :: TotalDuration(visits[..j]) < maxDuration
      {
        WalkOn(old(list), visited, rest, old(nextId), visits);
        OneMoreVisit(visits, i);
        ghost var id := nextId;
        var visit := visits[i];
        ghost var sleep0, duration0 := sleep, duration;
        LooksOn(|old(list)|, visited, rest[0], visits);
        var delta, runs;
        position, delta, runs := VisitElement(position, visit, onlyTask, kept, rest);
        ghost var look := Look(rest[0].task, visit, IsOnlyTask(|old(list)|, visits[..i]));
        SameLook(hasMaxDuration, look, Look(rest[0].task, visit, onlyTask));
        OneMoreLook(hasMaxDuration, old(sleep), old(duration), Looks(|old(list)|, visited, visits), ran,
                    sleep0, duration0, look, sleep, duration);
        ran := ran + [runs];
        totalDuration := totalDuration + delta;
        calledYield := calledYield || visit.active;
        kept := kept + if visit.active then [rest[0]] else [];
        visited, rest := visited + [rest[0]], rest[1..] + NewElements(id, visit.added);
        i := i + 1;
        if hasMaxDuration {
          onlyTask := |list| == 1;
          HowManyAreLeft(old(list), old(nextId), visited, rest, visits);
          if totalDuration >= maxDuration {
            result, sorted := Leave(position, calledYield);
            EndWalk(old(list), old(nextId), visits, visited, rest, sorted, result, list, duration);
            return;
          }
        }
      }
      if position == |list| {
        result := Some(if calledYield then True else WasFalse);
      }
      EndWalk(old(list), old(nextId), visits, visited, rest, sorted, result, list, duration);
    }

    lemma EndWalk(before: seq<Element>, first: nat, visits: seq<Visit>, visited: seq<Element>, rest: seq<Element>,
                  sorted: bool, result: Option<FuzzyBool>, after: seq<Element>, duration: map<Task, nat>)
      requires Walked(before, first, visits, visited, rest)
      requires after == if sorted then Sort(Left(visits, visited, rest), duration) else Left(visits, visited, rest)
      requires result == None ==> |visited| == |visits| && rest != []
      requires result.Some? ==> (result == Some(WasFalse) <==> after == [])
      requires rest != [] && result.Some? ==> hasMaxDuration && TotalDuration(visits[..|visited|]) >= maxDuration
      requires hasMaxDuration ==> forall j | 0 < j < |visited| :: TotalDuration(visits[..j]) < maxDuration
      requires sorted <==>
        && hasMaxDuration && visited != [] && TotalDuration(visits[..|visited|]) >= maxDuration
        && |Left(visits, visited, rest)| > 2
      ensures HasWalked(before, first, visits, visited, rest, sorted, result, after, duration)
    {
      var active := ActiveFlags(visits[..|visited|]);
      var added := NewElements(first, Added(visits[..|visited|]));
      hide Kept, Sort, NewElements, Added, Count, Erased, TotalDuration;
      forall x ensures Count(after, x) + Erased(visited, active, x) == Count(before, x) + Count(added, x) {
        NothingLost(before, added, visited, active, rest, x);
        SortCount(Left(visits, visited, rest), duration, x);
      }
    }
  }

  lemma OneMoreVisit(visits: seq<Visit>, i: nat)
    requires i < |visits|
    ensures TotalDuration(visits[..i + 1]) == TotalDuration(visits[..i]) + visits[i].delta
    ensures TotalDuration(visits[..0]) == 0
  {
    assert visits[..i + 1][..i] == visits[..i];
  }

  /** The elements that are left after a walk, in their order. */
  function Left(visits: seq<Visit>, visited: seq<Element>, rest: seq<Element>): seq<Element>
    requires |visited| <= |visits|
  {
    Kept(visited, ActiveFlags(visits[..|visited|])) + rest
  }

  /** A walk through the list: after |visited| visits, `rest` is what is left, together with all that was added. */
  ghost predicate Walked(before: seq<Element>, first: nat,
                         visits: seq<Visit>, visited: seq<Element>, rest: seq<Element>) {
    && |visited| <= |visits|
    && visited + rest == before + NewElements(first, Added(visits[..|visited|]))
  }

  lemma StartWalk(before: seq<Element>, first: nat, visits: seq<Visit>)
    ensures Walked(before, first, visits, [], before)
    ensures Kept([], ActiveFlags(visits[..0])) == [] && Added(visits[..0]) == [] && TotalDuration(visits[..0]) == 0
  {
  }

  lemma WalkOn(before: seq<Element>, visited: seq<Element>, rest: seq<Element>, first: nat, visits: seq<Visit>)
    requires |visited| < |visits| && rest != [] && Walked(before, first, visits, visited, rest)
    ensures var i := |visited|;
      var added := NewElements(first + |Added(visits[..i])|, visits[i].added);
      && Walked(before, first, visits, visited + [rest[0]], rest[1..] + added)
      && Kept(visited + [rest[0]], ActiveFlags(visits[..i + 1]))
         == Kept(visited, ActiveFlags(visits[..i])) + (if visits[i].active then [rest[0]] else [])
      && |Added(visits[..i + 1])| == |Added(visits[..i])| + |visits[i].added|
  {
    var i := |visited|;
    var extra := NewElements(first + |Added(visits[..i])|, visits[i].added);
    assert visits[..i + 1][..i] == visits[..i];
    assert Added(visits[..i + 1]) == Added(visits[..i]) + visits[i].added;
    assert NewElements(first, Added(visits[..i + 1])) == NewElements(first, Added(visits[..i])) + extra;
    assert rest == [rest[0]] + rest[1..];
    assert (visited + [rest[0]]) + (rest[1..] + extra) == (visited + rest) + extra;
    assert (visited + [rest[0]])[..i] == visited;
    assert ActiveFlags(visits[..i + 1])[..i] == ActiveFlags(visits[..i]);
  }

  lemma StartTimes(n: nat, visits: seq<Visit>, limited: bool, sleep: map<Task, int>, duration: map<Task, nat>)
    ensures HasTimed(limited, sleep, duration, Looks(n, [], visits), [], sleep, duration)
    ensures !IsOnlyTask(n, visits[..0])
  {
  }

  /** Without a maximum duration it does not matter how many tasks are left. */
  lemma SameLook(limited: bool, look: Look, look': Look)
    requires look'.task == look.task && look'.visit == look.visit && (limited ==> look'.onlyTask == look.onlyTask)
    ensures forall t :: NextTimes(limited, t, look') == NextTimes(limited, t, look)
    ensures forall t :: Runs(limited, t, look') == Runs(limited, t, look)
  {
  }

  lemma HowManyAreLeft(before: seq<Element>, first: nat, visited: seq<Element>, rest: seq<Element>, visits: seq<Visit>)
    requires Walked(before, first, visits, visited, rest) && visited != []
    ensures |Left(visits, visited, rest)| == 1 <==> IsOnlyTask(|before|, visits[..|visited|])
  {
    var i := |visited|;
    KeptLength(visited, visits[..i]);
    assert |visited + rest| == |before + NewElements(first, Added(visits[..i]))|;
  }
}
