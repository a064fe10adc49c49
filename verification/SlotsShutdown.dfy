/**
 How long a Slots takes to come down: from the moment stop is closed the scheduler's
 own steps are bounded by the tasks held and the events in hand.
 */
module SlotsShutdown {
  import opened SlotsProtocol
  import opened SlotsRuns
  import opened SlotsProofs
  import opened SlotsTheorems

  /** The steps still to be taken once a task is finished, with n tasks held. */
  function StepsAfter(k: Cont, n: nat): nat {
    match k
    case KDeliver(evs, _) => 7 + 4 * n + 3 * |evs|
    case KFail(pending, _) => 7 + 4 * n + 3 * |pending|
    case KCancel(pending) => 3 + 4 * |pending|
  }

  /** The steps that a scheduler whose stop is closed has still to take at most, with n tasks
      held; those for the events of a reply that is still in the engine aside. */
  function StepsLeft(sc: Sched, n: nat): nat {
    match sc
    case Exited => 0
    case CloseDone => 1
    case Detach => 2
    case Cancelling(left) => StepsAfter(KCancel(left), n)
    case CancelCall(_, left) => 3 + StepsAfter(KCancel(left), n)
    case CancelSnap => 4 + 4 * n
    case Poll => 5 + 4 * n
    case Park => 6 + 4 * n
    case UpdWant => 7 + 4 * n
    case Deliver(evs, busy) => StepsAfter(KDeliver(evs, busy), n)
    case Pushing(_, _, rest, more) => 1 + StepsAfter(KDeliver(rest, more), n)
    case Failing(todo, leave) => StepsAfter(KFail(todo, leave), n)
    case FailSnap(_) => 8 + 7 * n
    case SetClosed => 9 + 7 * n
    case UpdCall => 10 + 7 * n
    case Finishing(_, _, k) => 2 + StepsAfter(k, n)
    case Ending(_, _, k) => 1 + StepsAfter(k, n)
  }

  function Left(s: State): nat { StepsLeft(s.sched, |s.tasks|) }

  /** The events of the reply, if the step is the end of an update. */
  function Replied(s: State, s': State): nat {
    if s.sched.UpdCall? && s'.sched.Deliver? then |s'.sched.evs| else 0
  }

  /** A step of the scheduler brings it nearer to its end, by as much as the reply allows. */
  ghost predicate Nearer(s: State, s': State) {
    && s'.sched != s.sched && Left(s') + 1 <= Left(s) + 3 * Replied(s, s')
    && (!s.sched.UpdCall? ==> !s'.sched.UpdCall?)
  }

  lemma FewerLeft(a: set<nat>, b: set<nat>)
    requires a <= b
    ensures |a| <= |b|
  {
    assert b == a + (b - a);
  }

  lemma LessLeft(sc: Sched, n: nat, m: nat)
    requires m <= n
    ensures StepsLeft(sc, m) <= StepsLeft(sc, n)
  {}

  lemma LoopNearer(s: State, l: LoopStep)
    requires LoopEnabled(s, l) && s.stop
    ensures Nearer(s, LoopApply(s, l))
  {}

  lemma UpdateNearer(s: State, l: UpdateStep)
    requires UpdateEnabled(s, l) && s.closed
    ensures Nearer(s, UpdateApply(s, l))
  {}

  lemma DeliverNearer(s: State, l: DeliverStep)
    requires DeliverEnabled(s, l)
    ensures Nearer(s, DeliverApply(s, l))
  {}

  lemma FailNearer(s: State, l: FailStep)
    requires FailEnabled(s, l)
    ensures Nearer(s, FailApply(s, l))
  {}

  lemma CancelNearer(s: State, l: CancelStep)
    requires CancelEnabled(s, l)
    ensures Nearer(s, CancelApply(s, l))
  {}

  lemma FinishNearer(s: State, l: FinishStep)
    requires FinishEnabled(s, l)
    ensures Nearer(s, FinishApply(s, l))
  {
    if l.Delete? {
      FewerLeft(s.tasks - {s.sched.fid}, s.tasks);
    }
  }

  lemma SchedulerNearer(s: State, l: Label)
    requires Enabled(s, l) && Schedulers(l) && s.stop && s.closed
    ensures Nearer(s, Apply(s, l))
  {
    match l
    case Loop(x) => LoopNearer(s, x);
    case Update(x) => UpdateNearer(s, x);
    case Events(x) => DeliverNearer(s, x);
    case Fail(x) => FailNearer(s, x);
    case CancelAll(x) => CancelNearer(s, x);
    case FinishTask(x) => FinishNearer(s, x);
  }

  lemma CancellerLeavesSched(s: State, l: CancellerStep)
    requires CancellerEnabled(s, l)
    ensures CancellerApply(s, l).sched == s.sched
  {}

  lemma PostLeavesSched(s: State, l: PostStep)
    requires PostEnabled(s, l)
    ensures PostApply(s, l).sched == s.sched
  {}

  lemma CloseLeavesSched(s: State, l: CloseStep)
    requires CloseEnabled(s, l)
    ensures CloseApply(s, l).sched == s.sched
  {}

  lemma ReadLeavesSched(s: State, l: ReadStep)
    requires ReadEnabled(s, l)
    ensures ReadApply(s, l).sched == s.sched
  {}

  lemma OthersLeaveSched(s: State, l: Label)
    requires Enabled(s, l) && !Schedulers(l)
    ensures Apply(s, l).sched == s.sched
  {
    match l
    case CancelOne(x) => CancellerLeavesSched(s, x);
    case Post(x) => PostLeavesSched(s, x);
    case Close(x) => CloseLeavesSched(s, x);
    case Read(x) => ReadLeavesSched(s, x);
  }

  /** One step of a run whose stop is closed. */
  lemma StepNearer(run: seq<State>, k: nat)
    requires Run(run) && k + 1 < |run| && run[k].stop
    ensures run[k + 1].stop && (run[k + 1].sched == run[k].sched || Nearer(run[k], run[k + 1]))
    ensures run[k + 1].sched == run[k].sched ==> Left(run[k + 1]) <= Left(run[k])
  {
    RunKeeps(run, k);
    assert Reached(run, k + 1);
    var l :| Takes(run[k], run[k + 1], l);
    RunGrows(run, k, k + 1);
    if Schedulers(l) {
      SchedulerNearer(run[k], l);
    } else {
      OthersLeaveSched(run[k], l);
      FewerLeft(run[k + 1].tasks, run[k].tasks);
      LessLeft(run[k].sched, |run[k].tasks|, |run[k + 1].tasks|);
    }
  }

  /** The scheduler's steps among those between the i-th and the j-th state: each of them
      changes its program counter, and no other thread's does. */
  ghost function SchedulerSteps(run: seq<State>, i: nat, j: nat): nat
    requires i <= j < |run|
    decreases j
  {
    if i == j then 0 else SchedulerSteps(run, i, j - 1) + if run[j].sched != run[j - 1].sched then 1 else 0
  }

  /** The events of the replies among them. */
  ghost function EventsReplied(run: seq<State>, i: nat, j: nat): nat
    requires i <= j < |run|
    decreases j
  {
    if i == j then 0 else EventsReplied(run, i, j - 1) + Replied(run[j - 1], run[j])
  }

  /** From the moment stop is closed the scheduler takes at most `Left` steps, and three for
      each event of the reply to an update that is in the engine at that moment; no other
      reply comes. */
  lemma {:induction false} ComesDownInTime(run: seq<State>, i: nat, j: nat)
    requires Run(run) && i <= j < |run| && run[i].stop
    ensures run[j].stop && SchedulerSteps(run, i, j) + Left(run[j]) <= Left(run[i]) + 3 * EventsReplied(run, i, j)
    ensures !run[i].sched.UpdCall? ==> !run[j].sched.UpdCall? && EventsReplied(run, i, j) == 0
    decreases j
  {
    if i < j {
      ComesDownInTime(run, i, j - 1);
      StepNearer(run, j - 1);
    }
  }

  /** A scheduler that is parked, polls, or has still to call the engine when stop is closed takes at
      most four steps for each task held, and seven. */
  lemma IdleComesDown(run: seq<State>, i: nat, j: nat)
    requires Run(run) && i <= j < |run| && run[i].stop
    requires run[i].sched.Park? || run[i].sched.Poll? || run[i].sched.UpdWant?
    ensures SchedulerSteps(run, i, j) <= 4 * |run[i].tasks| + 7
    ensures SchedulerSteps(run, i, j) == StepsLeft(run[i].sched, |run[i].tasks|) ==> run[j].done
  {
    ComesDownInTime(run, i, j);
    RunKeeps(run, j);
  }
}
