/**
 The runs of the Slots scheduler: all its steps together, and where they begin.
 */
module SlotsRuns {
  import opened SlotsProtocol

  predicate Enabled(s: State, l: Label) {
    match l
    case Loop(x) => LoopEnabled(s, x)
    case Update(x) => UpdateEnabled(s, x)
    case Events(x) => DeliverEnabled(s, x)
    case Fail(x) => FailEnabled(s, x)
    case CancelAll(x) => CancelEnabled(s, x)
    case FinishTask(x) => FinishEnabled(s, x)
    case CancelOne(x) => CancellerEnabled(s, x)
    case Post(x) => PostEnabled(s, x)
    case Close(x) => CloseEnabled(s, x)
    case Read(x) => ReadEnabled(s, x)
  }

  function Apply(s: State, l: Label): State
    requires Enabled(s, l)
  {
    match l
    case Loop(x) => LoopApply(s, x)
    case Update(x) => UpdateApply(s, x)
    case Events(x) => DeliverApply(s, x)
    case Fail(x) => FailApply(s, x)
    case CancelAll(x) => CancelApply(s, x)
    case FinishTask(x) => FinishApply(s, x)
    case CancelOne(x) => CancellerApply(s, x)
    case Post(x) => PostApply(s, x)
    case Close(x) => CloseApply(s, x)
    case Read(x) => ReadApply(s, x)
  }

  /** A fresh Slots over a context in which the engine may still hold tasks of an
      earlier Slots, none of them this one's. */
  predicate Init(s: State) {
    && s.tasks == {} && s.completions == map[] && s.emitted == map[]
    && s.mu.Free? && !s.closed && !s.wake && !s.stop && !s.done && s.attached
    && s.sched.Park? && s.cancellers == map[] && s.posts == map[] && s.closers == map[] && s.readers == map[]
    && (forall id :: id in s.known ==> id < s.nextId)
  }

  /** Step l leads from s to s'. */
  predicate Takes(s: State, s': State, l: Label) { Enabled(s, l) && s' == Apply(s, l) }

  ghost predicate Next(s: State, s': State) { exists l :: Takes(s, s', l) }

  /** The i-th state of a run is an initial one, or follows the one before. */
  ghost predicate Reached(run: seq<State>, i: int)
    requires 0 <= i < |run|
  {
    if i == 0 then Init(run[0]) else Next(run[i - 1], run[i])
  }

  /** A run: consecutive states, from an initial one. */
  ghost predicate Run(run: seq<State>) { run != [] && forall i :: 0 <= i < |run| ==> Reached(run, i) }
}
