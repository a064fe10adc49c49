/**
 The input on which ErrMemoryLeaked is not true: a callback of NewSnapshot in which
 a context creation traps, and which then closes the instance that it builds. Its
 Close and the end of the build both report that the memory was kept mapped; the
 engine is abandoned before it can be marked, and the image's finalizer unmaps the
 memory. `TrapKeepsMemory` says that nothing else has this effect.
 */
module ClosedBuild {
  import opened Options
  import opened InstanceState
  import opened InstanceSteps
  import opened InstanceRuns
  import opened InstanceTheorems
  import E = EngineProtocol

  /** Thread 0 runs NewSnapshot, thread 1 the callback. */
  function Pair(sh: Shared, p: Pc, q: Pc): State { State(sh, map[0 := p, 1 := q]) }

  const CALLBACK: Pc := OnRetire(Building({}))

  /** The run has led to there. */
  ghost predicate LedTo(run: seq<State>, sh: Shared, p: Pc, q: Pc) {
    Run(run) && run[|run| - 1] == Pair(sh, p, q)
  }

  lemma TakeStep(run: seq<State>, s: State) returns (longer: seq<State>)
    requires Run(run) && Next(run[|run| - 1], s)
    ensures Run(longer) && run < longer && longer[|longer| - 1] == s
  {
    longer := run + [s];
    forall i | 0 <= i < |longer| ensures Reached(longer, i) {
      if i < |run| {
        assert Reached(run, i);
      }
    }
  }

  /** Neither holds a lock. */
  lemma Lockless(q: Pc)
    ensures Compatible(CALLBACK, q) && Compatible(Idle, q)
  {}

  lemma StepLeads(s: State, t: nat, l: Step, n: Local)
    requires t in s.threads && Leads(s.sh, t, s.threads[t], l, n)
    requires forall u :: u in s.threads && u != t ==> Compatible(s.threads[u], n.pc)
    ensures Next(s, State(n.sh, s.threads[t := n.pc]))
  {
    assert ThreadStep(s, State(n.sh, s.threads[t := n.pc]), t, l, n);
  }

  /** A step of the callback. */
  lemma Call(run: seq<State>, sh: Shared, q: Pc, l: Step, n: Local) returns (longer: seq<State>)
    requires LedTo(run, sh, CALLBACK, q) && Leads(sh, 1, q, l, n)
    ensures LedTo(longer, n.sh, CALLBACK, n.pc) && run < longer
  {
    var s := Pair(n.sh, CALLBACK, n.pc);
    Lockless(n.pc);
    assert s.threads == run[|run| - 1].threads[1 := n.pc];
    StepLeads(run[|run| - 1], 1, l, n);
    longer := TakeStep(run, s);
  }

  /** A step of NewSnapshot, the callback being over. */
  lemma End(run: seq<State>, sh: Shared, p: Pc, l: Step, n: Local) returns (longer: seq<State>)
    requires LedTo(run, sh, p, Idle) && Leads(sh, 0, p, l, n)
    ensures LedTo(longer, n.sh, n.pc, Idle) && run < longer
  {
    var s := Pair(n.sh, n.pc, Idle);
    Lockless(n.pc);
    assert s.threads == run[|run| - 1].threads[0 := n.pc];
    StepLeads(run[|run| - 1], 0, l, n);
    longer := TakeStep(run, s);
  }

  function Started(): Shared {
    Shared(false, {}, false, {}, map[], map[], map[], 0, map[0 := NewEngine(true)], 0, true,
           None, false, false, None, 0, None, None, Some(0))
  }

  function WithModel(): Shared { Loaded(Started(), 0) }

  function Wedged(): Shared { NoteTrap(Trapped(WithModel(), 1, E.Trap(0)), E.Trap(0)) }

  function Closed(): Shared { Taken(InstClosedBy(Wedged(), 1)) }

  function Abandoned(): Shared { InstTornDown(ReleaseEngine(Closed(), false), {LEAKED}) }

  /** The callback loads a model. */
  lemma LoadsModel() returns (run: seq<State>)
    ensures LedTo(run, WithModel(), CALLBACK, Idle)
  {
    run := [Pair(Started(), CALLBACK, Idle)];
    assert InitBuild(run[0], 0);
    run := Call(run, Started(), Idle, Begin(OEnter), Local(Started(), OnLoad(OWant)));
    run := Call(run, Started(), OnLoad(OWant), Load(OLock), Local(Started(), OnLoad(OGot)));
    run := Call(run, Started(), OnLoad(OGot), Load(OAdmit), Local(Started(), OnLoad(OIn)));
    run := Call(run, Started(), OnLoad(OIn), Load(OLoad(0)), Local(WithModel(), OnLoad(OOut)));
    run := Call(run, WithModel(), OnLoad(OOut), Load(ORelease), Local(WithModel(), Idle));
  }

  lemma AsksForContext() returns (run: seq<State>)
    ensures LedTo(run, WithModel(), CALLBACK, OnNew(NCall(0)))
  {
    run := LoadsModel();
    var sh := WithModel();
    run := Call(run, sh, Idle, Begin(NEnter(0)), Local(sh, OnNew(NWant(0))));
    run := Call(run, sh, OnNew(NWant(0)), NewCtx(NAcquire), Local(sh, OnNew(NGot(0))));
    run := Call(run, sh, OnNew(NGot(0)), NewCtx(NAdmit), Local(sh, OnNew(NIn(0))));
    run := Call(run, sh, OnNew(NIn(0)), NewCtx(NToLock), Local(sh, OnNew(NLock(0))));
    run := Call(run, sh, OnNew(NLock(0)), NewCtx(NLockMu), Local(sh, OnNew(NUse(0))));
    run := Call(run, sh, OnNew(NUse(0)), NewCtx(NCheck), Local(sh, OnNew(NCall(0))));
  }

  /** The creation traps. */
  lemma CreationTraps() returns (run: seq<State>)
    ensures LedTo(run, Wedged(), CALLBACK, Idle)
  {
    run := AsksForContext();
    var trapped := Trapped(WithModel(), 1, E.Trap(0));
    run := Call(run, WithModel(), OnNew(NCall(0)), NewCtx(NFailed(E.Trap(0))), Local(trapped, OnNew(NNote(0, E.Trap(0)))));
    run := Call(run, trapped, OnNew(NNote(0, E.Trap(0))), NewCtx(NNoteTrap), Local(Wedged(), OnNew(NUnlock(0))));
    run := Call(run, Wedged(), OnNew(NUnlock(0)), NewCtx(NUnlockMu), Local(Wedged(), OnNew(NIn(0))));
    run := Call(run, Wedged(), OnNew(NIn(0)), NewCtx(NLeave), Local(Wedged(), Idle));
  }

  /** The callback closes the instance. */
  lemma CallbackCloses() returns (run: seq<State>)
    ensures LedTo(run, Closed(), CALLBACK, OnInst(LFree({}, {})))
  {
    run := CreationTraps();
    var sh, closed := Wedged(), InstClosedBy(Wedged(), 1);
    run := Call(run, sh, Idle, Begin(LEnter), Local(sh, OnInst(LWant)));
    run := Call(run, sh, OnInst(LWant), CloseInst(LLockClose), Local(sh, OnInst(LGot)));
    run := Call(run, sh, OnInst(LGot), CloseInst(LFirst), Local(closed, OnInst(LMu)));
    run := Call(run, closed, OnInst(LMu), CloseInst(LLockMu), Local(closed, OnInst(LRec)));
    run := Call(run, closed, OnInst(LRec), CloseInst(LLockRec), Local(closed, OnInst(LTake)));
    assert Unfreed(closed) == {};
    run := Call(run, closed, OnInst(LTake), CloseInst(LTakeAll), Local(Closed(), OnInst(LFree({}, {}))));
  }

  /** The engine is abandoned. */
  lemma CloseAbandons() returns (run: seq<State>)
    ensures LedTo(run, ReleaseEngine(Closed(), false), CALLBACK, OnInst(LStore({LEAKED})))
  {
    run := CallbackCloses();
    var sh, released := Closed(), ReleaseEngine(Closed(), false);
    run := Call(run, sh, OnInst(LFree({}, {})), CloseInst(LWedged), Local(sh, OnInst(LAbandon({}))));
    assert {} + {LEAKED} == {LEAKED};
    run := Call(run, sh, OnInst(LAbandon({})), CloseInst(LDoAbandon), Local(released, OnInst(LStore({LEAKED}))));
  }

  /** Close returns ErrMemoryLeaked. */
  lemma CloseReports() returns (run: seq<State>)
    ensures LedTo(run, Abandoned(), CALLBACK, OnInst(InstClosed({LEAKED})))
  {
    run := CloseAbandons();
    var released := ReleaseEngine(Closed(), false);
    run := Call(run, released, OnInst(LStore({LEAKED})), CloseInst(LStoreErr), Local(Abandoned(), OnInst(LRet({LEAKED}))));
    run := Call(run, Abandoned(), OnInst(LRet({LEAKED})), CloseInst(LUnlock), Local(Abandoned(), OnInst(InstClosed({LEAKED}))));
  }

  /** The callback fails, or returns: no context is kept. */
  lemma CallbackEnds() returns (run: seq<State>, i: nat, job: Job)
    ensures LedTo(run, Abandoned(), OnRetire(RTake(job)), Idle) && job == Job({}, true, {}, {})
    ensures i < |run| && InstReturned(run[i], 1, {LEAKED})
  {
    run := CloseReports();
    i := |run| - 1;
    var sh := Abandoned();
    job := Job({}, true, {}, {});
    run := Call(run, sh, OnInst(InstClosed({LEAKED})), CloseInst(LReturn), Local(sh, Idle));
    run := End(run, sh, CALLBACK, Retire(ROver(true)), Local(sh, OnRetire(RRec(job))));
    run := End(run, sh, OnRetire(RRec(job)), Retire(RLockRec), Local(sh, OnRetire(RTake(job))));
  }

  /** There is no context left to retire. */
  lemma NothingToRetire() returns (run: seq<State>, i: nat, job: Job)
    ensures LedTo(run, Abandoned(), OnRetire(RJudge(job)), Idle)
    ensures i < |run| && InstReturned(run[i], 1, {LEAKED})
  {
    run, i, job := CallbackEnds();
    var sh := Abandoned();
    assert Unfreed(sh) == {} && Taken(sh) == sh && job.errs + ClosedKept(sh, job) == {};
    run := End(run, sh, OnRetire(RTake(job)), Retire(RTakeAll), Local(sh, OnRetire(RLoop(job))));
    run := End(run, sh, OnRetire(RLoop(job)), Retire(RLookKept), Local(sh, OnRetire(RJudge(job))));
  }

  /** The build decides to leave the memory mapped, and says so. */
  lemma BuildReports() returns (run: seq<State>, i: nat, job: Job)
    ensures LedTo(run, Abandoned(), OnRetire(Retired(job, LeftMapped)), Idle)
    ensures i < |run| && InstReturned(run[i], 1, {LEAKED})
  {
    run, i, job := NothingToRetire();
    var sh := Abandoned();
    run := End(run, sh, OnRetire(RJudge(job)), Retire(RWedged), Local(sh, OnRetire(RPreserve(job))));
    run := End(run, sh, OnRetire(RPreserve(job)), Retire(RSetPreserve), Local(sh, OnRetire(RAbandon(job, LeftMapped))));
    run := End(run, sh, OnRetire(RAbandon(job, LeftMapped)), Retire(RDoAbandon),
               Local(sh, OnRetire(Retired(job, LeftMapped))));
  }

  /** A run in which the memory that Close and NewSnapshot report as kept mapped, because a
      context creation trapped, is unmapped all the same. */
  lemma ReportedButUnmapped() returns (run: seq<State>, i: nat, job: Job)
    ensures Run(run) && TrappedBefore(run, |run| - 1) && BuildEnds(run[|run| - 1], 0, job, LeftMapped)
    ensures i < |run| && InstReturned(run[i], 1, {LEAKED})
    ensures var sh := run[|run| - 1].sh; sh.eng in sh.engines && sh.engines[sh.eng].unmapped
  {
    run, i, job := BuildReports();
    var sh := Abandoned();
    var s := Pair(SetEngine(sh, Finalized(sh.engines[0])), OnRetire(Retired(job, LeftMapped)), Idle);
    assert FinalizerStep(run[|run| - 1], s);
    run := TakeStep(run, s);
    OnlyManagingTrapsCount(run, |run| - 1);
  }
}
