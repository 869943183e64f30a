/** The order in which the functions of a task are called. */
module Lifecycle {

  /** A call of user code. */
  datatype Call = InitializeImpl | MultiplexImpl(runState: nat) | AbortImpl | FinishImpl | CallbackCall(success: bool)

  /** How far one life of a task has come. */
  datatype LifeState = Fresh | Started | Aborted | Finished(afterAbort: bool) | Wrong

  function Advance(q: LifeState, c: Call): LifeState {
    match c
    case InitializeImpl => if q == Fresh then Started else Wrong
    case MultiplexImpl(_) => if q == Started then Started else Wrong
    case AbortImpl => if q == Started then Aborted else Wrong
    case FinishImpl => if q == Started || q == Aborted then Finished(q == Aborted) else Wrong
    case CallbackCall(_) => if q.Finished? then Fresh else Wrong
  }

  function Replay(calls: seq<Call>): LifeState {
    if calls == [] then Fresh else Advance(Replay(calls[..|calls| - 1]), calls[|calls| - 1])
  }

  lemma ReplayOneMore(calls: seq<Call>, c: Call)
    ensures Replay(calls + [c]) == Advance(Replay(calls), c)
  {
    assert (calls + [c])[..|calls|] == calls;
  }

  // ---- The same order as a language ----

  /** The calls of one life up to finish_impl: initialize_impl, any number of multiplex_impl, and at most one
      abort_impl. */
  predicate IsBody(w: seq<Call>, aborted: bool) {
    var n := if aborted then |w| - 1 else |w|;
    && n >= 1
    && w[0] == InitializeImpl
    && (forall i | 1 <= i < n :: w[i].MultiplexImpl?)
    && (aborted ==> w[n] == AbortImpl)
  }

  /** A whole life: such a body, then finish_impl, then the callback. */
  predicate IsLife(w: seq<Call>) {
    && |w| >= 3
    && w[|w| - 2] == FinishImpl && w[|w| - 1].CallbackCall?
    && (IsBody(w[..|w| - 2], false) || IsBody(w[..|w| - 2], true))
  }

  /** What the last, unfinished life can have called so far. */
  predicate IsLifeSoFar(w: seq<Call>, q: LifeState) {
    match q
    case Fresh => w == []
    case Started => IsBody(w, false)
    case Aborted => IsBody(w, true)
    case Finished(afterAbort) => |w| >= 1 && w[|w| - 1] == FinishImpl && IsBody(w[..|w| - 1], afterAbort)
    case Wrong => false
  }

  function Flatten(lives: seq<seq<Call>>): seq<Call> {
    if lives == [] then [] else Flatten(lives[..|lives| - 1]) + lives[|lives| - 1]
  }

  /** The calls are a number of whole lives, and a life that came as far as q. */
  ghost predicate InLives(calls: seq<Call>, lives: seq<seq<Call>>, last: seq<Call>, q: LifeState) {
    && calls == Flatten(lives) + last
    && (forall i | 0 <= i < |lives| :: IsLife(lives[i]))
    && IsLifeSoFar(last, q)
  }

  lemma OneMoreCall(w: seq<Call>, q: LifeState, c: Call)
    requires IsLifeSoFar(w, q) && Advance(q, c) != Wrong
    ensures if c.CallbackCall? then IsLife(w + [c]) else IsLifeSoFar(w + [c], Advance(q, c))
  {
    var w' := w + [c];
    match c
    case FinishImpl => assert w'[..|w'| - 1] == w;
    case CallbackCall(_) => assert w'[..|w'| - 2] == w[..|w| - 1];
    case _ =>
  }

  lemma FlattenOneMore(lives: seq<seq<Call>>, life: seq<Call>)
    ensures Flatten(lives + [life]) == Flatten(lives) + life
  {
    assert (lives + [life])[..|lives|] == lives;
  }

  /** Every list of calls that is not wrong consists of whole lives and a last one. */
  lemma {:induction false} LivesOf(calls: seq<Call>) returns (lives: seq<seq<Call>>, last: seq<Call>)
    requires Replay(calls) != Wrong
    ensures InLives(calls, lives, last, Replay(calls))
  {
    if calls == [] {
      lives, last := [], [];
    } else {
      var c := calls[|calls| - 1];
      var q := Replay(calls[..|calls| - 1]);
      lives, last := LivesOf(calls[..|calls| - 1]);
      assert calls == Flatten(lives) + (last + [c]);
      OneMoreCall(last, q, c);
      if c.CallbackCall? {
        FlattenOneMore(lives, last + [c]);
        lives, last := lives + [last + [c]], [];
      } else {
        last := last + [c];
      }
    }
  }
}
