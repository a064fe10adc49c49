/**
 What the Slots promises, over all its runs.
 */
module SlotsTheorems {
  import opened Options
  import opened SlotsProtocol
  import opened SlotsRuns
  import opened SlotsInvariant
  import opened SlotsProofs

  // ----- no task is lost ---------------------------------------------------------

  /** In every state of every run a posted task that has not ended is either
      held and still known to the engine, or some thread is committed to finish it. */
  lemma NoTaskIsLost(run: seq<State>, i: nat, id: nat)
    requires Run(run) && i < |run|
    requires id in run[i].completions && run[i].completions[id].verdict.None?
    ensures (id in run[i].known && id in run[i].tasks)
         || SchedOwes(run[i].sched, run[i].tasks, id)
         || CancellerOwes(run[i].cancellers, id)
  {
    RunKeeps(run, i);
    assert Accounted(run[i].known, run[i].tasks, run[i].sched, run[i].cancellers, id);
  }

  /** Once the scheduler has returned and no canceller is past its engine call,
      every posted task has ended. */
  lemma AllEndedWhenQuiescent(run: seq<State>, i: nat)
    requires Run(run) && i < |run| && run[i].done
    requires forall id :: id in run[i].cancellers ==> !run[i].cancellers[id].CFinish? && !run[i].cancellers[id].CEnd?
    ensures run[i].tasks == {}
    ensures forall id :: id in run[i].completions ==> run[i].completions[id].verdict.Some?
  {
    RunKeeps(run, i);
    var s := run[i];
    forall id | id in s.completions ensures s.completions[id].verdict.Some? {
      assert s.completions[id].verdict.None? ==> Accounted(s.known, s.tasks, s.sched, s.cancellers, id);
    }
  }

  /** Once the scheduler has returned, exactly the tasks of cancellers that are past
      their engine call, and have not finished yet, may still be running. */
  lemma RunningOnlyUnderCancellers(run: seq<State>, i: nat, id: nat)
    requires Run(run) && i < |run| && run[i].done && id in run[i].completions
    ensures run[i].completions[id].verdict.None? ==> CancellerOwes(run[i].cancellers, id)
    ensures id !in run[i].tasks || CancellerOwes(run[i].cancellers, id)
  {
    RunKeeps(run, i);
    var s := run[i];
    assert s.completions[id].verdict.None? ==> Accounted(s.known, s.tasks, s.sched, s.cancellers, id);
  }

  /** Once the scheduler has returned, every task whose Post had no context to be cancelled
      has ended. */
  lemma EndedUnlessCancellable(run: seq<State>, i: nat, id: nat)
    requires Run(run) && i < |run| && run[i].done && id in run[i].completions && id !in run[i].cancellers
    ensures run[i].completions[id].verdict.Some? && id !in run[i].tasks
  {
    RunningOnlyUnderCancellers(run, i, id);
  }

  lemma TakeStep(run: seq<State>, l: Label) returns (run': seq<State>)
    requires Run(run) && Enabled(run[|run| - 1], l)
    ensures Run(run') && run' != [] && run'[|run'| - 1] == Apply(run[|run| - 1], l)
  {
    run' := run + [Apply(run[|run| - 1], l)];
    assert Takes(run[|run| - 1], Apply(run[|run| - 1], l), l);
    forall i | 0 <= i < |run'| ensures Reached(run', i) {
      if i < |run| {
        assert Reached(run, i);
      }
    }
  }

  function OneTask(known: set<nat>, sc: Sched, c: Canceller, shut: bool, done: bool, attached: bool): State {
    State(known, map[1 := []], 2, Free, {1}, shut, true, shut, done, attached, map[1 := Completion([], None)], sc,
          map[1 := c], map[], if shut then map[0 := ClWait] else map[], map[])
  }

  lemma OnePosted() returns (run: seq<State>)
    ensures Run(run) && run[|run| - 1] == OneTask({1}, Park, CWait, false, false, true)
  {
    run := [State({}, map[], 1, Free, {}, false, false, false, false, true, map[], Park, map[], map[], map[], map[])];
    run := TakeStep(run, Post(PostBegin(0)));
    run := TakeStep(run, Post(PostOk(0)));
    assert run[|run| - 1] ==
      State({1}, map[1 := []], 2, Free, {1}, false, false, false, false, true, map[1 := Completion([], None)], Park,
            map[], map[0 := PNudge(1)], map[], map[]);
    run := TakeStep(run, Post(Nudge(0)));
    run := TakeStep(run, Post(Spawn(0, true)));
  }

  /** Its canceller takes it out of the engine and stops before it finishes it. */
  lemma CancellerStops() returns (run: seq<State>)
    ensures Run(run) && run[|run| - 1] == OneTask({}, Park, CFinish(Cancelled), false, false, true)
  {
    run := OnePosted();
    run := TakeStep(run, CancelOne(CtxDone(1)));
    assert run[|run| - 1] == OneTask({1}, Park, CStart, false, false, true);
    run := TakeStep(run, CancelOne(CBegin(1)));
    run := TakeStep(run, CancelOne(CTook(1, Cancelled, true)));
  }

  lemma ThenClosed() returns (run: seq<State>)
    ensures Run(run) && run[|run| - 1] == OneTask({}, CancelSnap, CFinish(Cancelled), true, false, true)
  {
    run := CancellerStops();
    run := TakeStep(run, Close(CloseFirst(0)));
    run := TakeStep(run, Close(CloseStop(0)));
    run := TakeStep(run, Loop(StopParked));
  }

  lemma ThenDeclined() returns (run: seq<State>)
    ensures Run(run) && run[|run| - 1] == OneTask({}, Cancelling({}), CFinish(Cancelled), true, false, true)
  {
    run := ThenClosed();
    run := TakeStep(run, CancelAll(CancelRead));
    assert run[|run| - 1] == OneTask({}, Cancelling({1}), CFinish(Cancelled), true, false, true);
    run := TakeStep(run, CancelAll(CancelBegin(1)));
    assert run[|run| - 1].sched == CancelCall(1, {});
    run := TakeStep(run, CancelAll(CancelDeclined));
  }

  /** `done` closed does not by itself mean that every task has ended: a canceller
      whose engine call came before the scheduler's may still be on its way to
      finish its task. */
  lemma DoneBeforeEnded() returns (run: seq<State>, id: nat)
    ensures Run(run)
    ensures run[|run| - 1].done && id in run[|run| - 1].completions
    ensures run[|run| - 1].completions[id].verdict.None?
  {
    id := 1;
    run := ThenDeclined();
    run := TakeStep(run, CancelAll(CancelDone));
    run := TakeStep(run, Loop(Forget));
    run := TakeStep(run, Loop(DoneClose));
  }

  // ----- steps only add --------------------------------------------------------------

  /** Outputs grow at the end, a verdict stays, and a completion ended by its
      final event does not change any more. */
  ghost predicate CompletionGrows(c: Completion, c': Completion) {
    && c.outputs <= c'.outputs
    && (c.verdict.Some? ==> c'.verdict == c.verdict)
    && (EndedByFinal(c) ==> c' == c)
  }

  ghost predicate Grows(s: State, s': State) {
    && (s.closed ==> s'.closed && s'.tasks <= s.tasks)
    && (s.stop ==> s'.stop)
    && (s.done ==> s'.done)
    && (s'.attached ==> s.attached)
    && (forall id :: id in s.completions ==>
          id in s'.completions && CompletionGrows(s.completions[id], s'.completions[id]))
  }

  lemma UpdateGrows(s: State, l: UpdateStep)
    requires Inv(s) && UpdateEnabled(s, l)
    ensures Grows(s, UpdateApply(s, l))
  {}

  lemma DeliverGrows(s: State, l: DeliverStep)
    requires Inv(s) && DeliverEnabled(s, l)
    ensures Grows(s, DeliverApply(s, l))
  {
    if l.Push? {
      assert s.sched.id in s.emitted && !EndedByFinal(s.completions[s.sched.id]);
    }
  }

  lemma LoopGrows(s: State, l: LoopStep)
    requires Inv(s) && LoopEnabled(s, l)
    ensures Grows(s, LoopApply(s, l))
  {}

  lemma FailGrows(s: State, l: FailStep)
    requires Inv(s) && FailEnabled(s, l)
    ensures Grows(s, FailApply(s, l))
  {}

  lemma CancelGrows(s: State, l: CancelStep)
    requires Inv(s) && CancelEnabled(s, l)
    ensures Grows(s, CancelApply(s, l))
  {}

  lemma FinishGrows(s: State, l: FinishStep)
    requires Inv(s) && FinishEnabled(s, l)
    ensures Grows(s, FinishApply(s, l))
  {}

  lemma CancellerEndGrows(s: State, id: nat)
    requires Inv(s) && CancellerEnabled(s, CFinished(id))
    ensures Grows(s, CancellerApply(s, CFinished(id)))
  {}

  lemma CancellerGrows(s: State, l: CancellerStep)
    requires Inv(s) && CancellerEnabled(s, l)
    ensures Grows(s, CancellerApply(s, l))
  {
    if l.CFinished? {
      CancellerEndGrows(s, l.id);
    }
  }

  /** A Post inserts nothing once the Slots is closed. */
  lemma PostGrows(s: State, l: PostStep)
    requires Inv(s) && PostEnabled(s, l)
    ensures Grows(s, PostApply(s, l))
  {}

  lemma CloseGrows(s: State, l: CloseStep)
    requires Inv(s) && CloseEnabled(s, l)
    ensures Grows(s, CloseApply(s, l))
  {}

  lemma ReadGrows(s: State, l: ReadStep)
    requires ReadEnabled(s, l)
    ensures Grows(s, ReadApply(s, l))
  {}

  lemma StepGrows(s: State, l: Label)
    requires Inv(s) && Enabled(s, l)
    ensures Grows(s, Apply(s, l))
  {
    match l
    case Loop(x) => LoopGrows(s, x);
    case Update(x) => UpdateGrows(s, x);
    case Events(x) => DeliverGrows(s, x);
    case Fail(x) => FailGrows(s, x);
    case CancelAll(x) => CancelGrows(s, x);
    case FinishTask(x) => FinishGrows(s, x);
    case CancelOne(x) => CancellerGrows(s, x);
    case Post(x) => PostGrows(s, x);
    case Close(x) => CloseGrows(s, x);
    case Read(x) => ReadGrows(s, x);
  }

  lemma GrowsTransitive(a: State, b: State, c: State)
    requires Grows(a, b) && Grows(b, c)
    ensures Grows(a, c)
  {
    forall id | id in a.completions ensures id in c.completions && CompletionGrows(a.completions[id], c.completions[id]) {
      assert CompletionGrows(a.completions[id], b.completions[id]);
      assert CompletionGrows(b.completions[id], c.completions[id]);
    }
  }

  lemma RunStepGrows(run: seq<State>, k: nat)
    requires Run(run) && k + 1 < |run|
    ensures Grows(run[k], run[k + 1])
  {
    RunKeeps(run, k);
    assert Reached(run, k + 1);
    var l :| Takes(run[k], run[k + 1], l);
    StepGrows(run[k], l);
  }

  lemma GrowsFromItself(a: State)
    ensures Grows(a, a)
  {}

  /** From any state of a run to any later one: closed, stop and done stay set,
      the task map only shrinks once closed is set, each completion ends with
      one verdict that stays, and outputs only grow at their end. */
  lemma {:induction false} RunGrows(run: seq<State>, i: nat, j: nat)
    requires Run(run) && i <= j < |run|
    ensures Grows(run[i], run[j])
    decreases j
  {
    if i == j {
      GrowsFromItself(run[i]);
    } else {
      RunGrows(run, i, j - 1);
      RunStepGrows(run, j - 1);
      GrowsTransitive(run[i], run[j - 1], run[j]);
    }
  }

  // ----- no lost wake-up ---------------------------------------------------------------

  /** While the scheduler is parked and the Slots is open, a held task the engine
      knows has a token in `wake`, or its own Post has still to nudge. */
  lemma NoLostWakeUp(run: seq<State>, i: nat, id: nat)
    requires Run(run) && i < |run|
    requires run[i].sched.Park? && !run[i].closed && id in run[i].tasks && id in run[i].known
    ensures run[i].wake || exists p :: p in run[i].posts && run[i].posts[p] == PNudge(id)
  {
    RunKeeps(run, i);
    assert run[i].wake || NudgeDue(run[i].posts, id);
  }

  // ----- shutdown ------------------------------------------------------------------------

  /** `stop` is closed by one Close only: whenever a Close is about to close it, it
      is open, and no other Close is about to. */
  lemma StopClosedOnce(run: seq<State>, i: nat, c: nat, d: nat)
    requires Run(run) && i < |run| && CloseEnabled(run[i], CloseStop(c))
    ensures !run[i].stop && run[i].closed
    ensures CloseEnabled(run[i], CloseStop(d)) ==> c == d
  {
    RunKeeps(run, i);
  }

  /** `done` is open when the scheduler closes it, the context's record of the
      Slots is cleared by then, and a Close returns only after that. */
  lemma DoneClosedOnce(run: seq<State>, i: nat)
    requires Run(run) && i < |run|
    ensures LoopEnabled(run[i], DoneClose) ==> !run[i].done && !run[i].attached
    ensures run[i].done ==> forall l :: !LoopEnabled(run[i], l)
    ensures forall c :: CloseEnabled(run[i], CloseReturn(c)) ==> run[i].closed && !run[i].attached
  {
    RunKeeps(run, i);
  }

  // ----- a closed Slots comes down ---------------------------------------------------------

  predicate StopDue(closers: map<nat, Closer>) { exists c :: c in closers && closers[c].ClStop? }

  /** The scheduler leaves, or finds stop closed when it next looks, or will once a Close has
      closed it. */
  predicate ComesDown(s: State) { s.closed ==> s.stop || Leaving(s.sched) || StopDue(s.closers) }

  /** A step that is no Close's and no reader's. */
  predicate Aside(s: State, s': State) { s'.readers == s.readers && (ComesDown(s) ==> ComesDown(s')) }

  lemma LoopAside(s: State, l: LoopStep)
    requires LoopEnabled(s, l)
    ensures Aside(s, LoopApply(s, l))
  {}

  lemma UpdateAside(s: State, l: UpdateStep)
    requires UpdateEnabled(s, l)
    ensures Aside(s, UpdateApply(s, l))
  {}

  lemma DeliverAside(s: State, l: DeliverStep)
    requires DeliverEnabled(s, l)
    ensures Aside(s, DeliverApply(s, l))
  {}

  lemma FailAside(s: State, l: FailStep)
    requires FailEnabled(s, l)
    ensures Aside(s, FailApply(s, l))
  {}

  lemma CancelAside(s: State, l: CancelStep)
    requires CancelEnabled(s, l)
    ensures Aside(s, CancelApply(s, l))
  {}

  lemma FinishAside(s: State, l: FinishStep)
    requires FinishEnabled(s, l)
    ensures Aside(s, FinishApply(s, l))
  {}

  lemma CancellerAside(s: State, l: CancellerStep)
    requires CancellerEnabled(s, l)
    ensures Aside(s, CancellerApply(s, l))
  {}

  lemma PostAside(s: State, l: PostStep)
    requires PostEnabled(s, l)
    ensures Aside(s, PostApply(s, l))
  {}

  lemma OthersAside(s: State, l: Label)
    requires Enabled(s, l) && !l.Close? && !l.Read?
    ensures Aside(s, Apply(s, l))
  {
    match l
    case Loop(x) => LoopAside(s, x);
    case Update(x) => UpdateAside(s, x);
    case Events(x) => DeliverAside(s, x);
    case Fail(x) => FailAside(s, x);
    case CancelAll(x) => CancelAside(s, x);
    case FinishTask(x) => FinishAside(s, x);
    case CancelOne(x) => CancellerAside(s, x);
    case Post(x) => PostAside(s, x);
    case Close(_) =>
    case Read(_) =>
  }

  lemma CloseKeepsDown(s: State, l: CloseStep)
    requires CloseEnabled(s, l) && ComesDown(s)
    ensures ComesDown(CloseApply(s, l))
  {
    var s' := CloseApply(s, l);
    if l.CloseFirst? {
      assert l.c in s'.closers && s'.closers[l.c].ClStop?;
    } else if StopDue(s.closers) && !l.CloseStop? {
      var c :| c in s.closers && s.closers[c].ClStop?;
      assert c in s'.closers && s'.closers[c].ClStop?;
    }
  }

  lemma ReadKeepsDown(s: State, l: ReadStep)
    requires ReadEnabled(s, l) && ComesDown(s)
    ensures ComesDown(ReadApply(s, l))
  {}

  lemma StepComesDown(s: State, l: Label)
    requires Enabled(s, l) && ComesDown(s)
    ensures ComesDown(Apply(s, l))
  {
    if l.Close? {
      CloseKeepsDown(s, l.close);
    } else if l.Read? {
      ReadKeepsDown(s, l.read);
    } else {
      OthersAside(s, l);
    }
  }

  lemma NextComesDown(s: State, s': State)
    requires Next(s, s') && ComesDown(s)
    ensures ComesDown(s')
  {
    var l :| Takes(s, s', l);
    StepComesDown(s, l);
  }

  lemma RunStartsOpen(run: seq<State>)
    requires Run(run)
    ensures ComesDown(run[0])
  {
    assert Reached(run, 0);
  }

  lemma RunStepComesDown(run: seq<State>, k: nat)
    requires Run(run) && k + 1 < |run| && ComesDown(run[k])
    ensures ComesDown(run[k + 1])
  {
    assert Reached(run, k + 1);
    NextComesDown(run[k], run[k + 1]);
  }

  lemma {:induction false} RunComesDown(run: seq<State>, i: nat)
    requires Run(run) && i < |run|
    ensures ComesDown(run[i])
  {
    if i == 0 {
      RunStartsOpen(run);
    } else {
      RunComesDown(run, i - 1);
      RunStepComesDown(run, i - 1);
    }
  }

  /** A step of the scheduler's own thread. */
  predicate Schedulers(l: Label) { !l.CancelOne? && !l.Post? && !l.Close? && !l.Read? }

  lemma NextToFail(s: State) returns (l: Label)
    requires s.sched.Failing?
    ensures l.Fail? && Enabled(s, l)
  {
    if id :| id in s.sched.todo {
      l := Fail(FailNext(id));
    } else {
      l := Fail(if s.sched.leave then FailLeave else FailPark);
    }
  }

  lemma NextToCancel(s: State) returns (l: Label)
    requires s.sched.Cancelling? && s.mu.Free?
    ensures l.CancelAll? && Enabled(s, l)
  {
    if id :| id in s.sched.left {
      l := CancelAll(if id in s.tasks then CancelBegin(id) else CancelSkip(id));
    } else {
      l := CancelAll(CancelDone);
    }
  }

  /** What a scheduler does next while the lock is free, unless it is parked. */
  lemma SchedulersNext(s: State) returns (l: Label)
    requires Inv(s) && s.mu.Free? && !s.sched.Exited? && (s.sched.Park? ==> s.stop)
    ensures Schedulers(l) && Enabled(s, l)
  {
    match s.sched
    case Park => l := Loop(StopParked);
    case Poll => l := Loop(if s.stop then StopPolled else Go);
    case UpdWant => l := Update(if s.closed then UpdClosed else UpdBegin);
    case UpdCall => l := Update(UpdReply([]));
    case Deliver(evs, _) =>
      l := Events(if evs == [] then Delivered else if evs[0].id !in s.tasks then LookSkip
                  else if Terminal(evs[0]) then LookEnd else LookToken);
    case Pushing(_, _, _, _) => l := Events(Push);
    case SetClosed => l := Fail(SetClosedFlag);
    case FailSnap(_) => l := Fail(FailRead);
    case Failing(todo, leave) => l := NextToFail(s);
    case CancelSnap => l := CancelAll(CancelRead);
    case Cancelling(left) => l := NextToCancel(s);
    case CancelCall(cid, _) => assert false;
    case Finishing(_, _, _) => l := FinishTask(Delete);
    case Ending(_, _, _) => l := FinishTask(End);
    case Detach => l := Loop(Forget);
    case CloseDone => l := Loop(DoneClose);
  }

  /** Who waits for done never waits for a scheduler that is stuck: once the Slots is closed
      and until done is, the scheduler can take a step, or a thread inside the engine has the
      lock, or the first Close is about to close stop. */
  lemma SchedulerGoesOn(run: seq<State>, i: nat)
    requires Run(run) && i < |run| && run[i].closed && !run[i].done
    ensures (exists l :: Schedulers(l) && Enabled(run[i], l)) || !run[i].mu.Free?
            || exists c :: CloseEnabled(run[i], CloseStop(c))
  {
    RunKeeps(run, i);
    RunComesDown(run, i);
    var s := run[i];
    if s.mu.Free? && (s.sched.Park? ==> s.stop) {
      var l := SchedulersNext(s);
    } else if s.mu.Free? {
      var c :| c in s.closers && s.closers[c].ClStop?;
      assert CloseEnabled(s, CloseStop(c));
    }
  }

  /** The steps with which a canceller or a Post goes into the engine. */
  predicate Begins(l: Label) {
    (l.CancelOne? && l.canceller.CBegin?) || (l.Post? && l.post.PostBegin?)
  }

  lemma NobodyBegins(s: State, l: Label)
    requires CoreInv(s) && DutyInv(s) && Quiet(s.sched)
    ensures s.mu.Free?
    ensures Begins(l) ==> !Enabled(s, l)
  {}

  lemma SchedulerIsThrough(s: State)
    requires Quiet(s.sched)
    ensures forall x: UpdateStep :: !UpdateEnabled(s, x)
    ensures forall x: DeliverStep :: !DeliverEnabled(s, x)
    ensures forall x: FailStep :: !FailEnabled(s, x)
    ensures forall x: CancelStep :: !CancelEnabled(s, x)
    ensures forall x: FinishStep :: !FinishEnabled(s, x)
  {}

  lemma LoopStaysOut(s: State, l: LoopStep)
    requires Quiet(s.sched) && LoopEnabled(s, l)
    ensures LoopApply(s, l).mu == s.mu && Quiet(LoopApply(s, l).sched)
  {}

  lemma CancellerLeaves(s: State, l: CancellerStep)
    requires CancellerEnabled(s, l) && (l.CDeclined? || l.CTook?)
    ensures CancellerApply(s, l).mu.Free? && CancellerApply(s, l).sched == s.sched
  {}

  lemma CancellerStaysOut(s: State, l: CancellerStep)
    requires s.mu.Free? && CancellerEnabled(s, l) && !l.CBegin?
    ensures CancellerApply(s, l).mu.Free? && CancellerApply(s, l).sched == s.sched
  {
    if l.CDeclined? || l.CTook? {
      CancellerLeaves(s, l);
    }
  }

  lemma PostStaysOut(s: State, l: PostStep)
    requires s.mu.Free? && PostEnabled(s, l) && !l.PostBegin?
    ensures PostApply(s, l).mu.Free? && PostApply(s, l).sched == s.sched
  {}

  lemma CloseStaysOut(s: State, l: CloseStep)
    requires s.mu.Free? && CloseEnabled(s, l)
    ensures CloseApply(s, l).mu.Free? && CloseApply(s, l).sched == s.sched
  {}

  lemma ReadStaysOut(s: State, l: ReadStep)
    requires s.mu.Free? && ReadEnabled(s, l)
    ensures ReadApply(s, l).mu.Free? && ReadApply(s, l).sched == s.sched
  {}

  lemma StaysOut(s: State, l: Label)
    requires s.mu.Free? && Quiet(s.sched) && Enabled(s, l) && !Begins(l)
    ensures Apply(s, l).mu.Free? && Quiet(Apply(s, l).sched)
  {
    SchedulerIsThrough(s);
    match l
    case Loop(x) => LoopStaysOut(s, x);
    case Update(_) => assert false;
    case Events(_) => assert false;
    case Fail(_) => assert false;
    case CancelAll(_) => assert false;
    case FinishTask(_) => assert false;
    case CancelOne(x) => CancellerStaysOut(s, x);
    case Post(x) => PostStaysOut(s, x);
    case Close(x) => CloseStaysOut(s, x);
    case Read(x) => ReadStaysOut(s, x);
  }

  /** From the scheduler's detach on nothing of the Slots is inside the engine,
      and no step of the scheduler, a canceller or a Post gets there. */
  lemma NoEngineCallAfterDetach(run: seq<State>, i: nat, l: Label)
    requires Run(run) && i < |run| && Quiet(run[i].sched) && Enabled(run[i], l)
    ensures run[i].mu.Free? && Apply(run[i], l).mu.Free? && Quiet(Apply(run[i], l).sched)
  {
    RunKeeps(run, i);
    NobodyBegins(run[i], l);
    StaysOut(run[i], l);
  }

  // ----- outputs ----------------------------------------------------------------------------

  /** A task that ended by its own final event has exactly the engine's token
      events as its outputs, in order, and every one of them decoded. */
  lemma FinalHasAllOutputs(run: seq<State>, i: nat, id: nat)
    requires Run(run) && i < |run| && id in run[i].completions && EndedByFinal(run[i].completions[id])
    ensures id in run[i].emitted && run[i].emitted[id] == Lift(run[i].completions[id].outputs)
    ensures id !in run[i].known && id !in run[i].tasks
  {
    RunKeeps(run, i);
    assert DeliveredSoFar(run[i].completions[id], run[i].emitted[id], []);
  }

  /** A reader that has stopped on such a task has yielded exactly those events,
      whenever it started. */
  lemma ReaderYieldsAll(run: seq<State>, i: nat, r: nat)
    requires Run(run) && i < |run| && r in run[i].readers && run[i].readers[r].finished
    requires run[i].readers[r].id in run[i].completions && EndedByFinal(run[i].completions[run[i].readers[r].id])
    ensures run[i].readers[r].id in run[i].emitted
    ensures Lift(run[i].readers[r].got) == run[i].emitted[run[i].readers[r].id]
  {
    RunKeeps(run, i);
    FinalHasAllOutputs(run, i, run[i].readers[r].id);
    assert ReaderOk(run[i].readers[r], run[i].completions[run[i].readers[r].id]);
  }

  /** What a reader has still to yield before it can stop. */
  function Remaining(s: State, r: nat): nat
    requires r in s.readers && s.readers[r].id in s.completions
    requires s.readers[r].got <= s.completions[s.readers[r].id].outputs
  {
    (if s.readers[r].finished then 0 else 1) + |s.completions[s.readers[r].id].outputs| - |s.readers[r].got|
  }

  /** A reader of an ended task is never blocked, in no run: until it has stopped it can yield,
      or stop. */
  lemma ReaderIsFree(run: seq<State>, i: nat, r: nat)
    requires Run(run) && i < |run| && r in run[i].readers && !run[i].readers[r].finished
    ensures run[i].readers[r].id in run[i].completions
    ensures run[i].completions[run[i].readers[r].id].verdict.Some? ==>
              ReadEnabled(run[i], ReadYield(r)) || ReadEnabled(run[i], ReadEnd(r))
  {
    RunKeeps(run, i);
    assert ReaderOk(run[i].readers[r], run[i].completions[run[i].readers[r].id]);
  }

  /** The reader's steps among those between the i-th and the j-th state. */
  ghost function StepsOf(run: seq<State>, i: nat, j: nat, r: nat): nat
    requires i <= j < |run| && forall k :: i <= k <= j ==> r in run[k].readers
    decreases j
  {
    if i == j then 0
    else StepsOf(run, i, j - 1, r) + if run[j].readers[r] != run[j - 1].readers[r] then 1 else 0
  }

  /** The reader reads a task ended by its own final, and is as far as it can be. */
  predicate ReadsEnded(s: State, r: nat) {
    && r in s.readers && s.readers[r].id in s.completions && EndedByFinal(s.completions[s.readers[r].id])
    && s.readers[r].got <= s.completions[s.readers[r].id].outputs
  }

  /** Reader r is where it was, or has taken step l. */
  predicate ReaderMoved(readers: map<nat, Reader>, readers': map<nat, Reader>, l: Label, r: nat)
    requires r in readers
  {
    && r in readers' && readers'[r].id == readers[r].id
    && (readers'[r] != readers[r] ==> l.Read? && !l.read.ReadStart? && l.read.r == r)
  }

  lemma ReadMoves(s: State, l: ReadStep, r: nat)
    requires ReadEnabled(s, l) && r in s.readers
    ensures ReaderMoved(s.readers, ReadApply(s, l).readers, Read(l), r)
  {}

  lemma CloseMoves(s: State, l: CloseStep)
    requires CloseEnabled(s, l)
    ensures CloseApply(s, l).readers == s.readers
  {}

  lemma ReaderMoves(s: State, l: Label, r: nat)
    requires Enabled(s, l) && r in s.readers
    ensures ReaderMoved(s.readers, Apply(s, l).readers, l, r)
  {
    if l.Read? {
      ReadMoves(s, l.read, r);
    } else if l.Close? {
      CloseMoves(s, l.close);
    } else {
      OthersAside(s, l);
    }
  }

  lemma ReaderStep(s: State, l: ReadStep, r: nat)
    requires ReadEnabled(s, l) && !l.ReadStart? && l.r == r && ReadsEnded(s, r)
    ensures ReadApply(s, l).completions == s.completions && ReadsEnded(ReadApply(s, l), r)
    ensures Remaining(ReadApply(s, l), r) == Remaining(s, r) - 1
  {}

  /** One step of the run: the reader's own brings it nearer to its end, the others change
      nothing for it. */
  lemma ReaderNearsEnd(run: seq<State>, k: nat, r: nat)
    requires Run(run) && k + 1 < |run| && ReadsEnded(run[k], r)
    ensures ReadsEnded(run[k + 1], r) && run[k + 1].readers[r].id == run[k].readers[r].id
    ensures run[k + 1].completions[run[k].readers[r].id].outputs == run[k].completions[run[k].readers[r].id].outputs
    ensures Remaining(run[k + 1], r) == Remaining(run[k], r) - if run[k + 1].readers[r] != run[k].readers[r] then 1 else 0
  {
    assert Reached(run, k + 1);
    var l :| Takes(run[k], run[k + 1], l);
    ReaderMoves(run[k], l, r);
    RunGrows(run, k, k + 1);
    if run[k + 1].readers[r] != run[k].readers[r] {
      ReaderStep(run[k], l.read, r);
    }
  }

  /** A reader of a task that its own final has ended takes, from any state on, at most as many
      steps as the task has outputs, and one. */
  lemma {:induction false} ReaderTerminates(run: seq<State>, i: nat, j: nat, r: nat)
    requires Run(run) && i <= j < |run| && ReadsEnded(run[i], r)
    ensures forall k :: i <= k <= j ==> r in run[k].readers
    ensures ReadsEnded(run[j], r) && Remaining(run[j], r) == Remaining(run[i], r) - StepsOf(run, i, j, r)
    ensures StepsOf(run, i, j, r) <= |run[i].completions[run[i].readers[r].id].outputs| + 1
    decreases j
  {
    if i < j {
      ReaderTerminates(run, i, j - 1, r);
      ReaderNearsEnd(run, j - 1, r);
    }
  }
}
