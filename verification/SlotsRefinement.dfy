/**
 The scheduler of slots.go refines that view: each of its steps is a step of
 the view or leaves it as it is.
 */
module SlotsRefinement {
  import opened Options
  import opened SlotsProtocol
  import opened SlotsRuns
  import opened SlotsInvariant
  import opened SlotsProofs
  import opened SlotsTheorems
  import V = SlotsView

  function Abs(s: State): V.View {
    V.View(s.closed,
           match s.mu case Free => V.Idle case ByPost(p) => V.ByPost(p) case _ => V.Own,
           if s.sched.Exited? then V.Done else if s.sched.CloseDone? then V.Detached else V.Running)
  }

  /** The step of the view that a step of the scheduler stands for, if any. */
  function Shadow(l: Label): Option<V.ViewStep> {
    match l
    case Loop(Forget) => Some(V.Detach)
    case Loop(DoneClose) => Some(V.Finish)
    case Update(UpdBegin) => Some(V.OwnBegin)
    case Update(UpdReply(_)) => Some(V.CallEnd)
    case Update(UpdError(_)) => Some(V.CallEnd)
    case Update(UpdGone(_)) => Some(V.CallEnd)
    case Fail(SetClosedFlag) => Some(V.SetClosed)
    case CancelAll(CancelBegin(_)) => Some(V.OwnBegin)
    case CancelAll(CancelDeclined) => Some(V.CallEnd)
    case CancelAll(CancelTook(_, _)) => Some(V.CallEnd)
    case CancelOne(CBegin(_)) => Some(V.OwnBegin)
    case CancelOne(CDeclined(_)) => Some(V.CallEnd)
    case CancelOne(CTook(_, _, _)) => Some(V.CallEnd)
    case Post(PostBegin(p)) => Some(V.PostBegin(p))
    case Post(PostOk(_)) => Some(V.CallEnd)
    case Post(PostFail(_, _)) => Some(V.CallEnd)
    case Close(CloseFirst(_)) => Some(V.SetClosed)
    case _ => None
  }

  predicate Simulates(v: V.View, step: Option<V.ViewStep>, v': V.View) {
    match step
    case None => v' == v
    case Some(l) => V.Enabled(v, l) && v' == V.Apply(v, l)
  }

  lemma SchedulerRefines(s: State, l: UpdateStep)
    requires CoreInv(s) && DutyInv(s) && UpdateEnabled(s, l)
    ensures Simulates(Abs(s), Shadow(Update(l)), Abs(UpdateApply(s, l)))
  {}

  lemma LoopRefines(s: State, l: LoopStep)
    requires CoreInv(s) && DutyInv(s) && LoopEnabled(s, l)
    ensures Simulates(Abs(s), Shadow(Loop(l)), Abs(LoopApply(s, l)))
  {}

  lemma DeliverRefines(s: State, l: DeliverStep)
    requires CoreInv(s) && DutyInv(s) && DeliverEnabled(s, l)
    ensures Simulates(Abs(s), Shadow(Events(l)), Abs(DeliverApply(s, l)))
  {}

  lemma FailRefines(s: State, l: FailStep)
    requires CoreInv(s) && DutyInv(s) && FailEnabled(s, l)
    ensures Simulates(Abs(s), Shadow(Fail(l)), Abs(FailApply(s, l)))
  {}

  lemma CancelRefines(s: State, l: CancelStep)
    requires CoreInv(s) && DutyInv(s) && CancelEnabled(s, l)
    ensures Simulates(Abs(s), Shadow(CancelAll(l)), Abs(CancelApply(s, l)))
  {}

  lemma FinishRefines(s: State, l: FinishStep)
    requires CoreInv(s) && DutyInv(s) && FinishEnabled(s, l)
    ensures Simulates(Abs(s), Shadow(FinishTask(l)), Abs(FinishApply(s, l)))
  {}

  /** A canceller is inside the engine only while the scheduler has not detached. */
  lemma CancellerCallRefines(s: State, l: CancellerStep)
    requires CoreInv(s) && DutyInv(s) && CancellerEnabled(s, l) && (l.CBegin? || l.CDeclined? || l.CTook?)
    ensures Simulates(Abs(s), Shadow(CancelOne(l)), Abs(CancellerApply(s, l)))
  {
    if Quiet(s.sched) {
      NobodyBegins(s, CancelOne(l));
    }
  }

  lemma CancellerRefines(s: State, l: CancellerStep)
    requires CoreInv(s) && DutyInv(s) && CancellerEnabled(s, l)
    ensures Simulates(Abs(s), Shadow(CancelOne(l)), Abs(CancellerApply(s, l)))
  {
    if l.CBegin? || l.CDeclined? || l.CTook? {
      CancellerCallRefines(s, l);
    }
  }

  lemma PostRefines(s: State, l: PostStep)
    requires CoreInv(s) && DutyInv(s) && PostEnabled(s, l)
    ensures Simulates(Abs(s), Shadow(Post(l)), Abs(PostApply(s, l)))
  {}

  lemma CloseRefines(s: State, l: CloseStep)
    requires CoreInv(s) && DutyInv(s) && CloseEnabled(s, l)
    ensures Simulates(Abs(s), Shadow(Close(l)), Abs(CloseApply(s, l)))
  {}

  lemma ReadRefines(s: State, l: ReadStep)
    requires CoreInv(s) && DutyInv(s) && ReadEnabled(s, l)
    ensures Simulates(Abs(s), Shadow(Read(l)), Abs(ReadApply(s, l)))
  {}

  lemma StepRefines(s: State, l: Label)
    requires Inv(s) && Enabled(s, l)
    ensures Simulates(Abs(s), Shadow(l), Abs(Apply(s, l)))
  {
    match l
    case Loop(x) => LoopRefines(s, x);
    case Update(x) => SchedulerRefines(s, x);
    case Events(x) => DeliverRefines(s, x);
    case Fail(x) => FailRefines(s, x);
    case CancelAll(x) => CancelRefines(s, x);
    case FinishTask(x) => FinishRefines(s, x);
    case CancelOne(x) => CancellerRefines(s, x);
    case Post(x) => PostRefines(s, x);
    case Close(x) => CloseRefines(s, x);
    case Read(x) => ReadRefines(s, x);
  }

  /** Every run of the scheduler is a run of the view, steps that change nothing aside. */
  lemma RunRefines(run: seq<State>, i: nat)
    requires Run(run) && i < |run| - 1
    ensures Abs(run[0]) == V.View(false, V.Idle, V.Running)
    ensures exists l :: Simulates(Abs(run[i]), Shadow(l), Abs(run[i + 1]))
  {
    RunKeeps(run, i);
    assert Reached(run, 0) && Reached(run, i + 1);
    var l :| Takes(run[i], run[i + 1], l);
    StepRefines(run[i], l);
  }
}
