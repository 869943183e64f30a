/** The sub-state of a task, and each critical section that updates it, as a function on values.

    A 32-bit condition mask is modelled as the set of its bits. A condition in `idle` is one the
    task waits for; a condition in `skipWait` got a signal before the wait that it belongs to. */
module SubStates {

  type Condition = c: nat | c < 32
  type Mask = set<Condition>

  const OR_CONDITIONS: Mask := set c: Condition | c < 28
  const AND_CONDITIONS: Mask := set c: Condition | 28 <= c

  datatype SubState = SubState(
    skipWait: Mask,
    idle: Mask,
    runState: nat,
    reset: bool,
    needRun: bool,
    aborted: bool,
    finished: bool)

  const INITIAL_SUB_STATE := SubState({}, {}, 0, false, false, false, false)

  /** The OR conditions act as one: all of them when m has one, otherwise none. */
  function OrGroup(m: Mask): Mask {
    if m * OR_CONDITIONS != {} then OR_CONDITIONS else {}
  }

  function Wait(s: SubState, conditions: Mask): SubState {
    var idle := s.idle + (conditions - s.skipWait);
    var s' := s.(idle := idle - OrGroup(conditions - idle), skipWait := s.skipWait - conditions);
    if s'.needRun && s'.idle != {} then
      if s'.aborted then s'.(idle := {}) else s'.(needRun := false)
    else
      s'
  }

  function WaitAnd(s: SubState, conditions: Mask): SubState {
    s.(idle := s.idle + (conditions - s.skipWait), skipWait := s.skipWait - conditions)
  }

  /** The masks after a signal. */
  function SignalMasks(s: SubState, condition: Mask): SubState {
    var skipWait := s.skipWait + (condition - s.idle);
    s.(idle := s.idle - (condition + OrGroup(condition - skipWait)), skipWait := skipWait)
  }

  /** Does this signal wake up the task? */
  predicate Wakes(s: SubState, condition: Mask) {
    s.idle != {} && SignalMasks(s, condition).idle == {}
  }

  function Signal(s: SubState, condition: Mask): SubState {
    if Wakes(s, condition) then SignalMasks(s, condition).(needRun := true) else SignalMasks(s, condition)
  }

  function AbortSub(s: SubState): SubState {
    s.(aborted := !s.finished, idle := {}, needRun := true)
  }

  function FinishSub(s: SubState): SubState {
    s.(idle := {}, finished := true)
  }

  function ResetSub(s: SubState): SubState {
    s.(aborted := false, finished := false, reset := true, idle := {}, skipWait := {}, needRun := true)
  }

  function BeginLoop(s: SubState): SubState {
    s.(needRun := false)
  }
}
