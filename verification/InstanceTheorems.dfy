/**
 What the invariant gives: the promises of the instance's closing protocol, over
 every run.
 */
module InstanceTheorems {
  import opened Options
  import opened InstanceState
  import opened InstanceSteps
  import opened InstanceRuns
  import opened InstanceInvariant
  import opened InstanceFacts
  import opened InstanceAt
  import opened InstanceSpec
  import opened InstanceProofs
  import V = SlotsView

  // ----- what only grows ------------------------------------------------------------

  predicate CtxGrows(x: Ctx, x': Ctx) {
    && x'.model == x.model
    && x.frees <= x'.frees
    && (x.closed ==> x'.closed)
    && (x.freed ==> x'.freed && x'.closeErr == x.closeErr)
    && (x.retired ==> x'.retired)
  }

  predicate ModelGrows(x: Model, x': Model) {
    (x.closed ==> x'.closed) && (x.torn ==> x'.torn && x'.closeErr == x.closeErr)
  }

  /** What later states of an instance keep. */
  ghost predicate Grows(sh: Shared, sh': Shared) {
    && (forall c :: c in sh.ctxs ==> c in sh'.ctxs && CtxGrows(sh.ctxs[c], sh'.ctxs[c]))
    && (forall m :: m in sh.models ==> m in sh'.models && ModelGrows(sh.models[m], sh'.models[m]))
    && (sh.closed ==> sh'.closed) && (sh.wedged ==> sh'.wedged) && (sh.published ==> sh'.published)
    && (sh.taken ==> sh'.taken && sh'.ctxs.Keys == sh.ctxs.Keys)
    && (sh.torn ==> sh'.torn && sh'.closeErr == sh.closeErr)
    && (EngineReleased(sh) ==> EngineReleased(sh')) && (Preserved(sh) ==> Preserved(sh'))
    && (sh.trapBy.Some? ==> sh'.trapBy == sh.trapBy)
    && (sh.taken || sh.loaded > 0 ==> sh'.eng == sh.eng)
    && sh.swaps <= sh'.swaps && sh.loaded <= sh'.loaded
    && sh'.builder == sh.builder
  }

  lemma GuaranteeGrows(sh: Shared, sh': Shared, t: nat, pc: Pc)
    requires Guarantee(sh, sh', t, pc)
    ensures Grows(sh, sh')
  {
    assert sh.taken ==> sh'.ctxs.Keys == sh.ctxs.Keys;
  }

  lemma SlotsStepGrows(sh: Shared, sid: nat, l: V.ViewStep)
    requires SlotsEnabled(sh, sid, l)
    ensures Grows(sh, SlotsNext(sh, sid, l))
  {
    SlotsStepMoves(sh, sid, l);
  }

  lemma FinalizerGrows(s: State, s': State)
    requires FinalizerStep(s, s')
    ensures Grows(s.sh, s'.sh) && s'.sh.trapBy == s.sh.trapBy
  {}

  lemma StepGrows(s: State, s': State)
    requires Inv(s) && Next(s, s')
    ensures Grows(s.sh, s'.sh)
  {
    if t, l, n :| ThreadStep(s, s', t, l, n) {
      OwnKeeps(s, t, l, n);
      GuaranteeGrows(s.sh, s'.sh, t, s.threads[t]);
    } else if sid, l :| SlotsStep(s, s', sid, l) {
      SlotsStepGrows(s.sh, sid, l);
    } else {
      FinalizerGrows(s, s');
    }
  }

  lemma GrowsFromItself(a: Shared)
    ensures Grows(a, a)
  {}

  lemma GrowsFurther(a: Shared, b: Shared, c: Shared)
    requires Grows(a, b) && Grows(b, c)
    ensures Grows(a, c)
  {}

  lemma RunStepGrows(run: seq<State>, k: nat)
    requires Run(run) && k + 1 < |run|
    ensures Grows(run[k].sh, run[k + 1].sh)
  {
    RunKeeps(run, k);
    assert Reached(run, k + 1);
    StepGrows(run[k], run[k + 1]);
  }

  lemma {:induction false} RunGrows(run: seq<State>, i: nat, j: nat)
    requires Run(run) && i <= j < |run|
    ensures Grows(run[i].sh, run[j].sh)
    decreases j
  {
    if i == j {
      GrowsFromItself(run[i].sh);
    } else {
      RunGrows(run, i, j - 1);
      RunStepGrows(run, j - 1);
      GrowsFurther(run[i].sh, run[j - 1].sh, run[j].sh);
    }
  }

  // ----- no use of a context during or after its free --------------------------------------

  /** The thread is inside an engine call on context c; Fork, perhaps, on one that it has
      still to attach a pool to. */
  predicate InGuest(pc: Pc, c: nat) {
    || (pc.OnCall? && (pc.call.In? || pc.call.Posting?) && c in pc.call.cs)
    || (pc.OnNew? && pc.creation.NAddr? && pc.creation.c == c)
    || (pc.OnFork? && pc.fork.Attach? && c in pc.fork.rest)
    || (pc.Keep? && pc.c == c && pc.keep.KpPool?)
  }

  /** The thread writes the interrupt word of context c. */
  predicate WritesWord(pc: Pc, c: nat) {
    || (pc.OnInterrupt? && pc.intr == IWrite(c))
    || (pc.Free? && pc.c == c && pc.f.FIntWrite?)
  }

  /** The thread is inside the guest's free of context c. */
  predicate FreesGuest(pc: Pc, c: nat) { pc.Free? && pc.c == c && pc.f.FFreeing? }

  /** The guest's free of context c has begun, and perhaps ended. */
  predicate FreeBegun(sh: Shared, c: nat) { c in sh.ctxs && sh.ctxs[c].frees > 0 }

  /** A Slots uses the engine on context c, or may start to. */
  ghost predicate SlotsUses(r: SlotsRec, c: nat) {
    r.ctx == c && (!r.view.engine.Idle? || V.Enabled(r.view, V.OwnBegin) || exists p: nat :: V.Enabled(r.view, V.PostBegin(p)))
  }

  lemma ThreadTouches(sh: Shared, t: nat, pc: Pc, c: nat)
    requires SharedInv(sh) && At(sh, t, pc) && sh.published && (InGuest(pc, c) || WritesWord(pc, c))
    ensures !FreeBegun(sh, c)
  {
    assert Alive(sh, c);
    assert CtxOk(sh.ctxs[c]);
  }

  /** No thread touches the context, no Slots of it uses the engine, and one thread at most frees it. */
  ghost predicate Untouched(s: State, c: nat) {
    && (forall t :: t in s.threads ==> !InGuest(s.threads[t], c) && !WritesWord(s.threads[t], c))
    && (forall sid :: sid in s.sh.slots ==> !SlotsUses(s.sh.slots[sid], c))
    && (forall t, u :: t in s.threads && u in s.threads ==>
          FreesGuest(s.threads[t], c) && FreesGuest(s.threads[u], c) ==> t == u)
  }

  lemma FreeingThread(sh: Shared, t: nat, pc: Pc, c: nat)
    requires At(sh, t, pc) && FreesGuest(pc, c)
    ensures c in sh.ctxs && sh.ctxs[c].busy == Some(t)
  {}

  lemma QuietSlots(sh: Shared, c: nat, sid: nat)
    requires SharedInv(sh) && FreeBegun(sh, c) && sid in sh.slots
    ensures !SlotsUses(sh.slots[sid], c)
  {
    assert CtxOk(sh.ctxs[c]) && SlotsQuiet(sh.slots, c);
    assert sh.slots[sid].ctx == c ==> SlotsOff(sh.slots[sid]) && ViewOk(sh.slots[sid].view);
  }

  lemma FreeLeavesUntouched(s: State, c: nat)
    requires SharedInv(s.sh) && AllOk(s.sh, s.threads) && s.sh.published && FreeBegun(s.sh, c)
    ensures Untouched(s, c)
  {
    forall t | t in s.threads
      ensures !InGuest(s.threads[t], c) && !WritesWord(s.threads[t], c)
      ensures FreesGuest(s.threads[t], c) ==> s.sh.ctxs[c].busy == Some(t)
    {
      ThreadIsOk(s, t);
      if InGuest(s.threads[t], c) || WritesWord(s.threads[t], c) {
        ThreadTouches(s.sh, t, s.threads[t], c);
      }
      if FreesGuest(s.threads[t], c) {
        FreeingThread(s.sh, t, s.threads[t], c);
      }
    }
    forall sid | sid in s.sh.slots ensures !SlotsUses(s.sh.slots[sid], c) {
      QuietSlots(s.sh, c, sid);
    }
  }

  lemma FreesOnce(sh: Shared, c: nat)
    requires SharedInv(sh) && FreeBegun(sh, c)
    ensures sh.ctxs[c].frees == 1
  {
    assert CtxOk(sh.ctxs[c]);
  }

  /** Before Fork hands the instance out it is alone, and no context is freed. */
  ghost predicate ForkAlone(s: State) {
    && (forall t :: t in s.threads ==> s.threads[t].Idle? || s.threads[t].OnFork?)
    && (forall c :: c in s.sh.ctxs ==> s.sh.ctxs[c].frees == 0)
  }

  lemma ForkMoves(sh: Shared, t: nat, p: ForkPc, l: ForkStep, n: Local)
    requires ForkLeads(sh, t, p, l, n)
    ensures n.sh.ctxs == sh.ctxs
    ensures n.sh.published || n.pc.OnFork?
  {}

  lemma OnlyForkMoves(sh: Shared, t: nat, pc: Pc, l: Step, n: Local)
    requires !sh.published && (pc.Idle? || pc.OnFork?) && Leads(sh, t, pc, l, n)
    ensures n.sh.ctxs == sh.ctxs && (n.sh.published || n.pc.OnFork?)
  {
    ForkMoves(sh, t, pc.fork, l.fork, n);
  }

  lemma ForkThreadStaysAlone(s: State, s': State, t: nat, l: Step, n: Local)
    requires ThreadStep(s, s', t, l, n) && !s.sh.published && !s'.sh.published && ForkAlone(s)
    ensures ForkAlone(s')
  {
    OnlyForkMoves(s.sh, t, s.threads[t], l, n);
  }

  lemma ForkStaysAlone(s: State, s': State)
    requires Next(s, s') && !s.sh.published && !s'.sh.published && ForkAlone(s)
    ensures ForkAlone(s')
  {
    if t, l, n :| ThreadStep(s, s', t, l, n) {
      ForkThreadStaysAlone(s, s', t, l, n);
    } else if sid, l :| SlotsStep(s, s', sid, l) {
      SlotsStepMoves(s.sh, sid, l);
    }
  }

  lemma ForkStartsAlone(s: State)
    requires Init(s) && !s.sh.published
    ensures ForkAlone(s)
  {}

  lemma {:induction false} ForkIsAlone(run: seq<State>, i: nat)
    requires Run(run) && i < |run| && !run[i].sh.published
    ensures ForkAlone(run[i])
  {
    if i == 0 {
      assert Reached(run, 0);
      ForkStartsAlone(run[0]);
    } else {
      RunStepGrows(run, i - 1);
      ForkIsAlone(run, i - 1);
      assert Reached(run, i);
      ForkStaysAlone(run[i - 1], run[i]);
    }
  }

  /** Once the guest's free of a context has begun, that free never runs a second
      time, no thread is inside a call on the context or writes its interrupt word,
      no Slots of it is or gets inside the engine, and one thread at most frees it. */
  lemma NoUseAfterFree(run: seq<State>, i: nat, j: nat, c: nat)
    requires Run(run) && i <= j < |run| && FreeBegun(run[i].sh, c)
    ensures FreeBegun(run[j].sh, c) && run[j].sh.ctxs[c].frees == 1 && Untouched(run[j], c)
  {
    RunGrows(run, i, j);
    assert FreeBegun(run[j].sh, c);
    if !run[i].sh.published {
      ForkIsAlone(run, i);
    }
    RunKeeps(run, j);
    FreesOnce(run[j].sh, c);
    FreeLeavesUntouched(run[j], c);
  }

  // ----- the instance's Close ---------------------------------------------------------------

  lemma ReleasedMeansFreed(sh: Shared, c: nat)
    requires SharedInv(sh) && EngineReleased(sh) && sh.closed
    ensures sh.taken && (c in sh.ctxs ==> sh.ctxs[c].freed && sh.ctxs[c].guest.Gone? && sh.ctxs[c].frees == 1)
  {
    assert c in sh.ctxs ==> CtxOk(sh.ctxs[c]);
  }

  lemma ReleasedMeansClosed(sh: Shared)
    requires SharedInv(sh) && EngineReleased(sh) && sh.builder.None?
    ensures sh.closed
  {}

  /** When a Close has released the engine, every context that was ever created on the
      instance has been freed, exactly once, and none is created later. (For the builder of
      a snapshot, whose engine is otherwise abandoned, see `SealedImageIsQuiet`.) */
  lemma ReleaseFindsAllFreed(run: seq<State>, k: nat, i: nat, j: nat, c: nat)
    requires Run(run) && k <= i <= j < |run| && EngineReleased(run[i].sh)
    ensures run[k].sh.builder.None? ==> run[i].sh.closed
    ensures c in run[k].sh.ctxs && run[i].sh.closed ==>
              c in run[i].sh.ctxs && run[i].sh.ctxs[c].freed && run[i].sh.ctxs[c].guest.Gone? && run[i].sh.ctxs[c].frees == 1
    ensures run[j].sh.ctxs.Keys == run[i].sh.ctxs.Keys && EngineReleased(run[j].sh)
  {
    RunGrows(run, k, i);
    RunGrows(run, i, j);
    RunKeeps(run, i);
    if run[k].sh.builder.None? {
      ReleasedMeansClosed(run[i].sh);
    }
    if run[i].sh.closed {
      ReleasedMeansFreed(run[i].sh, c);
    }
  }

  /** While and after the guest frees a model, every context ever created over it is freed. */
  lemma ModelFreeFindsNoContext(run: seq<State>, i: nat, k: nat, m: nat, c: nat)
    requires Run(run) && k <= i < |run|
    requires m in run[i].sh.models && !run[i].sh.models[m].guest.Live?
    requires c in run[k].sh.ctxs && run[k].sh.ctxs[c].model == m
    ensures c in run[i].sh.ctxs && run[i].sh.ctxs[c].freed && run[i].sh.models[m].closed
  {
    RunKeeps(run, i);
    RunGrows(run, k, i);
    assert ModelOk(run[i].sh.models[m], run[i].sh.eng, run[i].sh.closed);
  }

  /** Thread t has come back from Llama.Close with err. */
  predicate InstReturned(s: State, t: nat, err: Err) { t in s.threads && s.threads[t] == OnInst(InstClosed(err)) }

  predicate CtxReturned(s: State, t: nat, c: nat, err: Err) { t in s.threads && s.threads[t] == CtxClosed(c, err) }

  predicate ModelReturned(s: State, t: nat, m: nat, err: Err) {
    t in s.threads && s.threads[t] == OnModel(ModelClosed(m, err))
  }

  lemma FreedOnce(sh: Shared, c: nat)
    requires CtxsInv(sh.ctxs, sh.models) && c in sh.ctxs
    ensures sh.ctxs[c].freed ==> sh.ctxs[c].guest.Gone? && sh.ctxs[c].frees == 1
    ensures sh.ctxs[c].retired ==> sh.ctxs[c].closed
  {
    assert CtxOk(sh.ctxs[c]);
  }

  lemma InstIsTorn(sh: Shared, t: nat, err: Err)
    requires SharedInv(sh) && At(sh, t, OnInst(InstClosed(err)))
    ensures sh.torn && sh.closeErr == err && EngineReleased(sh) && AllFreed(sh.ctxs) && KeptIsReported(sh, err)
  {
    assert InstAt(sh, t, InstClosed(err));
  }

  lemma InstReturnsTorn(run: seq<State>, i: nat, t: nat, err: Err)
    requires Run(run) && i < |run| && InstReturned(run[i], t, err)
    ensures run[i].sh.torn && run[i].sh.closeErr == err && EngineReleased(run[i].sh) && AllFreed(run[i].sh.ctxs)
    ensures KeptIsReported(run[i].sh, err)
  {
    RunKeeps(run, i);
    ThreadIsOk(run[i], t);
    InstIsTorn(run[i].sh, t, err);
  }

  /** All closers of an instance return after its one teardown, with the same error,
      which reports the memory if that stays mapped. */
  lemma InstanceClosersAgree(run: seq<State>, i: nat, j: nat, t: nat, u: nat, err: Err, err': Err)
    requires Run(run) && i <= j < |run| && InstReturned(run[i], t, err) && InstReturned(run[j], u, err')
    ensures EngineReleased(run[i].sh) && AllFreed(run[i].sh.ctxs)
    ensures err' == err
    ensures KeptIsReported(run[i].sh, err)
  {
    InstReturnsTorn(run, i, t, err);
    InstReturnsTorn(run, j, u, err');
    RunGrows(run, i, j);
  }

  lemma CtxReturnsFreed(run: seq<State>, i: nat, t: nat, c: nat, err: Err)
    requires Run(run) && i < |run| && CtxReturned(run[i], t, c, err)
    ensures c in run[i].sh.ctxs && run[i].sh.ctxs[c].freed && run[i].sh.ctxs[c].closeErr == err
    ensures run[i].sh.ctxs[c].guest.Gone? && run[i].sh.ctxs[c].frees == 1
  {
    RunKeeps(run, i);
    ThreadIsOk(run[i], t);
    FreedOnce(run[i].sh, c);
  }

  /** All closers of a context return after its one free, with the same error. */
  lemma ContextClosersAgree(run: seq<State>, i: nat, j: nat, t: nat, u: nat, c: nat, err: Err, err': Err)
    requires Run(run) && i <= j < |run| && CtxReturned(run[i], t, c, err) && CtxReturned(run[j], u, c, err')
    ensures c in run[i].sh.ctxs && run[i].sh.ctxs[c].freed && run[i].sh.ctxs[c].frees == 1
    ensures err' == err
  {
    CtxReturnsFreed(run, i, t, c, err);
    CtxReturnsFreed(run, j, u, c, err');
    RunGrows(run, i, j);
  }

  lemma ModelIsTorn(sh: Shared, t: nat, m: nat, err: Err)
    requires SharedInv(sh) && At(sh, t, OnModel(ModelClosed(m, err)))
    ensures m in sh.models && sh.models[m].torn && sh.models[m].closeErr == err && (sh.models[m].guest.Gone? || sh.closed)
  {
    assert ModelOk(sh.models[m], sh.eng, sh.closed);
  }

  lemma ModelReturnsTorn(run: seq<State>, i: nat, t: nat, m: nat, err: Err)
    requires Run(run) && i < |run| && ModelReturned(run[i], t, m, err)
    ensures m in run[i].sh.models && run[i].sh.models[m].torn && run[i].sh.models[m].closeErr == err
    ensures run[i].sh.models[m].guest.Gone? || run[i].sh.closed
  {
    RunKeeps(run, i);
    ThreadIsOk(run[i], t);
    ModelIsTorn(run[i].sh, t, m, err);
  }

  /** All closers of a model return after its one teardown, with the same error: its
      guest object is gone, or the instance's Close had begun. */
  lemma ModelClosersAgree(run: seq<State>, i: nat, j: nat, t: nat, u: nat, m: nat, err: Err, err': Err)
    requires Run(run) && i <= j < |run| && ModelReturned(run[i], t, m, err) && ModelReturned(run[j], u, m, err')
    ensures m in run[i].sh.models && (run[i].sh.models[m].guest.Gone? || run[i].sh.closed)
    ensures err' == err
  {
    ModelReturnsTorn(run, i, t, m, err);
    ModelReturnsTorn(run, j, u, m, err');
    RunGrows(run, i, j);
  }

  // ----- traps ----------------------------------------------------------------------------------

  /** A call that manages the guest's threads (context creation and free, pool attach and
      free) traps in the guest. */
  predicate ManagingTrap(l: Step) {
    || (l.FreeCtx? && l.free.FEnd? && l.free.res.Trap?)
    || (l.NewCtx? && l.creation.NFailed? && l.creation.res.Trap?)
    || (l.Fork? && l.fork.AFailed? && l.fork.res.Trap?)
    || (l.KeepCtx? && l.keep.KEnd? && l.keep.res.Trap?)
  }

  /** A step leaves the engine in use and the first trap alone, or records a trap. */
  predicate LeavesEngine(sh: Shared, sh': Shared, trap: bool) {
    && sh'.eng == sh.eng && sh'.swaps == sh.swaps
    && if trap then sh'.trapBy.Some? else sh'.trapBy == sh.trapBy
  }

  lemma CallLeavesEngine(sh: Shared, t: nat, p: CallPc, l: CallStep, n: Local)
    requires CallLeads(sh, t, p, l, n)
    ensures LeavesEngine(sh, n.sh, false)
  {}

  lemma FreeLeavesEngine(sh: Shared, t: nat, c: nat, k: Kont, f: FreePc, l: FreeStep, n: Local)
    requires FreeLeads(sh, t, c, k, f, l, n)
    ensures LeavesEngine(sh, n.sh, l.FEnd? && l.res.Trap?)
  {}

  lemma NewLeavesEngine(sh: Shared, t: nat, p: NewPc, l: NewStep, n: Local)
    requires NewLeads(sh, t, p, l, n)
    ensures LeavesEngine(sh, n.sh, l.NFailed? && l.res.Trap?)
  {
    match l
    case NCreated(_) =>
    case NFailed(_) =>
    case NNoteTrap =>
    case NOk =>
    case NGiveUp =>
    case _ => assert n.sh == sh;
  }

  lemma ModelLeavesEngine(sh: Shared, t: nat, p: ModelPc, l: ModelStep, n: Local)
    requires ModelLeads(sh, t, p, l, n)
    ensures LeavesEngine(sh, n.sh, false)
  {}

  lemma CloseLeavesEngine(sh: Shared, t: nat, p: InstPc, l: CloseStep, n: Local)
    requires CloseLeads(sh, t, p, l, n)
    ensures LeavesEngine(sh, n.sh, false)
  {}

  lemma LoadLeavesEngine(sh: Shared, t: nat, p: LoadPc, l: LoadStep, n: Local)
    requires LoadLeads(sh, t, p, l, n)
    ensures n.sh.trapBy == sh.trapBy
    ensures !l.OSwap? ==> LeavesEngine(sh, n.sh, false)
  {
    match l
    case OSwap(_) =>
    case OCloseOld(_) =>
    case OLoad(_) =>
    case _ => assert n.sh == sh;
  }

  lemma ForkLeavesEngine(sh: Shared, t: nat, p: ForkPc, l: ForkStep, n: Local)
    requires ForkLeads(sh, t, p, l, n)
    ensures LeavesEngine(sh, n.sh, l.AFailed? && l.res.Trap?)
  {}

  lemma KeepLeavesEngine(sh: Shared, t: nat, c: nat, job: Job, k: KeepPc, l: KeepStep, n: Local)
    requires KeepLeads(sh, t, c, job, k, l, n)
    ensures LeavesEngine(sh, n.sh, l.KEnd? && l.res.Trap?)
  {}

  lemma RetireLeavesEngine(sh: Shared, p: RetirePc, l: RetireStep, n: Local)
    requires RetireLeads(sh, p, l, n)
    ensures LeavesEngine(sh, n.sh, false)
  {}

  lemma DoLeavesEngine(sh: Shared, t: nat, pc: Pc, l: Step, n: Local)
    requires Leads(sh, t, pc, l, n)
    ensures ManagingTrap(l) ==> n.sh.trapBy.Some?
    ensures !ManagingTrap(l) ==> n.sh.trapBy == sh.trapBy
    ensures n.sh.eng != sh.eng || n.sh.swaps != sh.swaps ==> l.Load? && l.load.OSwap?
  {
    match l
    case Begin(_) =>
    case Call(x) => CallLeavesEngine(sh, t, pc.call, x, n);
    case Interrupt(_) =>
    case FreeCtx(x) => FreeLeavesEngine(sh, t, pc.c, pc.kont, pc.f, x, n);
    case CtxReturn =>
    case NewCtx(x) => NewLeavesEngine(sh, t, pc.creation, x, n);
    case CloseModel(x) => ModelLeavesEngine(sh, t, pc.model, x, n);
    case CloseInst(x) => CloseLeavesEngine(sh, t, pc.inst, x, n);
    case Load(x) => LoadLeavesEngine(sh, t, pc.load, x, n);
    case Fork(x) => ForkLeavesEngine(sh, t, pc.fork, x, n);
    case KeepCtx(x) => KeepLeavesEngine(sh, t, pc.c, pc.job, pc.keep, x, n);
    case Retire(x) => RetireLeavesEngine(sh, pc.retire, x, n);
  }

  /** The step is a managing call that comes back with a trap. */
  ghost predicate StepTraps(s: State, s': State) { exists t, l, n :: ThreadStep(s, s', t, l, n) && ManagingTrap(l) }

  /** The k-th step of the run is one. */
  ghost predicate TrapsAt(run: seq<State>, k: int)
    requires 0 <= k < |run| - 1
  {
    StepTraps(run[k], run[k + 1])
  }

  /** One of the steps before the i-th state is one. */
  ghost predicate TrappedBefore(run: seq<State>, i: nat)
    requires i < |run|
  {
    exists k :: 0 <= k < i && TrapsAt(run, k)
  }

  lemma TrappedSplit(run: seq<State>, i: nat)
    requires i + 1 < |run|
    ensures TrappedBefore(run, i + 1) <==> TrappedBefore(run, i) || TrapsAt(run, i)
  {}

  lemma StepRecords(s: State, s': State)
    requires Next(s, s')
    ensures s'.sh.trapBy.Some? <==> s.sh.trapBy.Some? || StepTraps(s, s')
  {
    if t, l, n :| ThreadStep(s, s', t, l, n) && ManagingTrap(l) {
      DoLeavesEngine(s.sh, t, s.threads[t], l, n);
    } else if t, l, n :| ThreadStep(s, s', t, l, n) {
      DoLeavesEngine(s.sh, t, s.threads[t], l, n);
    }
  }

  lemma RunStepRecords(run: seq<State>, k: nat)
    requires Run(run) && k + 1 < |run|
    ensures run[k + 1].sh.trapBy.Some? <==> run[k].sh.trapBy.Some? || TrapsAt(run, k)
  {
    assert Reached(run, k + 1);
    StepRecords(run[k], run[k + 1]);
  }

  lemma NothingTrapped(run: seq<State>)
    requires Run(run)
    ensures run[0].sh.trapBy.None?
  {
    assert Reached(run, 0);
  }

  /** Exactly the traps of those calls are on record. */
  lemma {:induction false} OnlyManagingTrapsCount(run: seq<State>, i: nat)
    requires Run(run) && i < |run|
    ensures run[i].sh.trapBy.Some? <==> TrappedBefore(run, i)
  {
    if i == 0 {
      NothingTrapped(run);
    } else {
      OnlyManagingTrapsCount(run, i - 1);
      RunStepRecords(run, i - 1);
      TrappedSplit(run, i - 1);
    }
  }

  lemma TrapOnRecord(sh: Shared)
    requires SharedInv(sh) && sh.trapBy.Some?
    ensures sh.loaded > 0 && sh.eng in sh.engines && (Stays(sh.engines[sh.eng]) <==> !ClosedBuild(sh))
  {}

  /** Once a managing call trapped, the instance's memory stays, whatever the interleaving:
      it is not unmapped, and once the engine is released no finalizer is left to unmap it.
      The one exception is the builder of a snapshot that its callback has closed: exactly
      there the engine is released while the image's finalizer stays. */
  lemma TrapKeepsMemory(run: seq<State>, i: nat, j: nat)
    requires Run(run) && i <= j < |run| && run[i].sh.trapBy.Some?
    ensures run[j].sh.eng == run[i].sh.eng && run[j].sh.eng in run[j].sh.engines
    ensures Stays(run[j].sh.engines[run[j].sh.eng]) <==> !ClosedBuild(run[j].sh)
  {
    RunKeeps(run, i);
    RunKeeps(run, j);
    RunGrows(run, i, j);
    TrapOnRecord(run[i].sh);
    TrapOnRecord(run[j].sh);
  }

  lemma ImageIsFinalized(sh: Shared)
    requires SharedInv(sh) && ClosedBuild(sh)
    ensures sh.eng in sh.engines && (sh.engines[sh.eng].unmapped || sh.engines[sh.eng].finalizer)
  {}

  /** And there the memory has been unmapped, or the finalizer can do so at once. */
  lemma ClosedBuildIsUnmapped(run: seq<State>, i: nat) returns (s: State)
    requires Run(run) && i < |run| && ClosedBuild(run[i].sh)
    ensures s == run[i] || Next(run[i], s)
    ensures s.sh.eng in s.sh.engines && s.sh.engines[s.sh.eng].unmapped
  {
    RunKeeps(run, i);
    ImageIsFinalized(run[i].sh);
    s := run[i];
    if !s.sh.engines[s.sh.eng].unmapped {
      s := s.(sh := SetEngine(s.sh, Finalized(s.sh.engines[s.sh.eng])));
      assert FinalizerStep(run[i], s);
    }
  }

  /** The thread looks at the mark to decide on the memory: at the end of Llama.Close, or of
      a build. */
  predicate Decides(pc: Pc) {
    || (pc.OnInst? && pc.inst.LFree? && pc.inst.rest == {})
    || (pc.OnRetire? && pc.retire.RJudge?)
  }

  lemma CloseDecides(s: State, t: nat)
    requires Inv(s) && t in s.threads && s.threads[t].OnInst? && Decides(s.threads[t])
    ensures s.sh.wedged <==> s.sh.trapBy.Some?
  {
    ThreadIsOk(s, t);
    TrapsAreNoted(s, t);
    if !s.sh.wedged {
      UnwedgedMeansNoTrap(s.sh, t, s.threads[t].inst);
    }
  }

  lemma OthersCompatible(s: State, t: nat)
    requires AllCompatible(s.threads) && t in s.threads
    ensures forall u :: u in s.threads && u != t ==> Compatible(s.threads[u], s.threads[t])
  {}

  lemma JudgeFinds(sh: Shared, t: nat, pc: Pc)
    requires SharedInv(sh) && At(sh, t, pc) && OwnedBy(sh, t, pc) && BuildTrapsNoted(sh, t, pc)
    requires pc.OnRetire? && pc.retire.RJudge?
    ensures sh.wedged <==> sh.trapBy.Some?
  {
    assert !Noting(pc);
  }

  lemma BuildDecides(s: State, t: nat)
    requires Inv(s) && t in s.threads && s.threads[t].OnRetire? && Decides(s.threads[t])
    ensures s.sh.wedged <==> s.sh.trapBy.Some?
  {
    ThreadIsOk(s, t);
    OthersCompatible(s, t);
    BuildTrapsAreNoted(s, t, s.threads[t]);
    JudgeFinds(s.sh, t, s.threads[t]);
  }

  /** Whoever decides on the memory finds the mark set exactly if a managing call trapped:
      no refused or declined call has set it, and no trap is still to be noted. */
  lemma MarkMeansTrap(run: seq<State>, i: nat, t: nat)
    requires Run(run) && i < |run| && t in run[i].threads && Decides(run[i].threads[t])
    ensures run[i].sh.wedged <==> TrappedBefore(run, i)
  {
    RunKeeps(run, i);
    OnlyManagingTrapsCount(run, i);
    if run[i].threads[t].OnInst? {
      CloseDecides(run[i], t);
    } else {
      BuildDecides(run[i], t);
    }
  }

  // ----- the end of a build ------------------------------------------------------------------------

  /** NewSnapshot has decided for the outcome. */
  predicate BuildEnds(s: State, t: nat, job: Job, out: Outcome) {
    t in s.threads && (s.threads[t] == OnRetire(RAbandon(job, out)) || s.threads[t] == OnRetire(Retired(job, out)))
  }

  /** Nothing runs on the context, and nothing will. */
  ghost predicate Idles(s: State, c: nat) {
    && (forall u :: u in s.threads ==> !InGuest(s.threads[u], c))
    && (forall sid :: sid in s.sh.slots ==> !SlotsUses(s.sh.slots[sid], c))
  }

  lemma EndingBuild(sh: Shared, t: nat, job: Job, out: Outcome, pc: Pc)
    requires At(sh, t, pc) && (pc == OnRetire(RAbandon(job, out)) || pc == OnRetire(Retired(job, out)))
    ensures JobDone(sh, t, job) && OutcomeAt(sh, job, out)
  {}

  lemma BuildEndFacts(s: State, t: nat, job: Job, out: Outcome)
    requires AllOk(s.sh, s.threads) && BuildEnds(s, t, job, out)
    ensures JobDone(s.sh, t, job) && OutcomeAt(s.sh, job, out)
  {
    ThreadIsOk(s, t);
    EndingBuild(s.sh, t, job, out, s.threads[t]);
  }

  lemma RetiredNotInGuest(sh: Shared, t: nat, u: nat, pc: Pc, c: nat)
    requires At(sh, u, pc) && sh.builder == Some(t) && c in sh.ctxs && sh.ctxs[c].retired && (u == t ==> !pc.Keep?)
    ensures !InGuest(pc, c)
  {}

  lemma RetiredSlots(sh: Shared, c: nat, sid: nat)
    requires QuietInv(sh.ctxs, sh.slots) && SlotsInv(sh.ctxs, sh.slots) && c in sh.ctxs && sh.ctxs[c].retired && sid in sh.slots
    ensures !SlotsUses(sh.slots[sid], c)
  {
    assert SlotsQuiet(sh.slots, c) && ViewOk(sh.slots[sid].view);
  }

  lemma RetiredIdles(s: State, t: nat, c: nat)
    requires AllOk(s.sh, s.threads) && QuietInv(s.sh.ctxs, s.sh.slots) && SlotsInv(s.sh.ctxs, s.sh.slots)
    requires s.sh.builder == Some(t) && t in s.threads && !s.threads[t].Keep? && c in s.sh.ctxs && s.sh.ctxs[c].retired
    ensures Idles(s, c)
  {
    forall u | u in s.threads ensures !InGuest(s.threads[u], c) {
      ThreadIsOk(s, u);
      RetiredNotInGuest(s.sh, t, u, s.threads[u], c);
    }
    forall sid | sid in s.sh.slots ensures !SlotsUses(s.sh.slots[sid], c) {
      RetiredSlots(s.sh, c, sid);
    }
  }

  /** An image is sealed over contexts at rest: of all that the build ever created, those
      registered are unfreed and closed, their pools joined, with no call in the guest and no
      Slots that could make one; every other one has been freed, once. */
  lemma SealedImageIsQuiet(run: seq<State>, k: nat, i: nat, t: nat, job: Job, c: nat)
    requires Run(run) && k <= i < |run| && BuildEnds(run[i], t, job, Sealed) && c in run[k].sh.ctxs
    ensures c in run[i].sh.ctxs && job.kept != {}
    ensures c in job.kept ==>
        !run[i].sh.ctxs[c].freed && run[i].sh.ctxs[c].closed && run[i].sh.ctxs[c].retired && Idles(run[i], c)
    ensures c !in job.kept ==> run[i].sh.ctxs[c].freed && run[i].sh.ctxs[c].guest.Gone? && run[i].sh.ctxs[c].frees == 1
  {
    RunGrows(run, k, i);
    RunKeeps(run, i);
    BuildEndFacts(run[i], t, job, Sealed);
    FreedOnce(run[i].sh, c);
    if c in job.kept {
      RetiredIdles(run[i], t, c);
    }
  }

  /** A build whose callback failed ends with every context it ever created freed, once. */
  lemma FailedBuildFreesAll(run: seq<State>, k: nat, i: nat, t: nat, job: Job, out: Outcome, c: nat)
    requires Run(run) && k <= i < |run| && BuildEnds(run[i], t, job, out) && job.all && c in run[k].sh.ctxs
    ensures !out.Sealed? && c in run[i].sh.ctxs && run[i].sh.ctxs[c].freed && run[i].sh.ctxs[c].frees == 1
  {
    RunGrows(run, k, i);
    RunKeeps(run, i);
    BuildEndFacts(run[i], t, job, out);
    FreedOnce(run[i].sh, c);
  }

  lemma PreservedMeansOpen(sh: Shared)
    requires SharedInv(sh) && Preserved(sh)
    ensures !sh.closed
  {}

  lemma TornMeansReleased(sh: Shared)
    requires SharedInv(sh) && sh.torn
    ensures EngineReleased(sh)
  {}

  /** A build decides to leave its memory mapped exactly if a managing call of it trapped.
      The memory then stays for good exactly if the callback has not closed the instance.
      Otherwise a failed build's memory is unmapped, and an image is sealed exactly if
      nothing failed. */
  lemma LeftMappedIffTrapped(run: seq<State>, i: nat, j: nat, t: nat, job: Job, out: Outcome)
    requires Run(run) && i <= j < |run| && BuildEnds(run[i], t, job, out)
    ensures out.LeftMapped? <==> TrappedBefore(run, i)
    ensures out.LeftMapped? ==>
              run[j].sh.eng in run[j].sh.engines && (Stays(run[j].sh.engines[run[j].sh.eng]) <==> !run[i].sh.closed)
    ensures !out.LeftMapped? ==> (out.Failed? <==> Fails(job))
    ensures out.Failed? ==> run[i].sh.eng in run[i].sh.engines && run[i].sh.engines[run[i].sh.eng].unmapped
  {
    RunKeeps(run, i);
    BuildEndFacts(run[i], t, job, out);
    OnlyManagingTrapsCount(run, i);
    RunGrows(run, i, j);
    if out.LeftMapped? {
      TrapKeepsMemory(run, i, j);
      RunKeeps(run, j);
      if run[i].sh.closed {
        TornMeansReleased(run[i].sh);
      } else {
        PreservedMeansOpen(run[j].sh);
      }
    }
  }

  /** A build whose callback closed the instance seals nothing. */
  lemma ClosedBuildFails(run: seq<State>, i: nat, t: nat, job: Job, out: Outcome)
    requires Run(run) && i < |run| && BuildEnds(run[i], t, job, out) && run[i].sh.closed
    ensures !out.Sealed? && ClosedBuild(run[i].sh) && AllFreed(run[i].sh.ctxs)
  {
    RunKeeps(run, i);
    BuildEndFacts(run[i], t, job, out);
    TornMeansReleased(run[i].sh);
  }

  // ----- the engine in use, and its Slots --------------------------------------------------------

  lemma SwapAlone(sh: Shared, t: nat)
    requires SharedInv(sh) && LoadAt(sh, t, OIn) && sh.loaded == 0
    ensures sh.models == map[] && sh.ctxs == map[] && !sh.taken && !EngineReleased(sh) && sh.swaps == 0
  {
    assert forall c :: c !in sh.ctxs;
  }

  /** The engine is swapped only by LoadModel, only while the instance has neither a
      model nor a context, and not once Close has taken over. */
  lemma SwapFindsNoHandle(s: State, s': State, t: nat, l: Step, n: Local)
    requires Inv(s) && ThreadStep(s, s', t, l, n) && (s'.sh.eng != s.sh.eng || s'.sh.swaps != s.sh.swaps)
    ensures l.Load? && l.load.OSwap?
    ensures s.sh.models == map[] && s.sh.ctxs == map[] && !s.sh.taken && !EngineReleased(s.sh) && s.sh.swaps == 0
  {
    DoLeavesEngine(s.sh, t, s.threads[t], l, n);
    ThreadIsOk(s, t);
    SwapAlone(s.sh, t);
  }

  /** In every reachable state the engine was swapped at most once, and every model
      and context is of the engine in use. */
  lemma HandlesMatchEngine(run: seq<State>, i: nat)
    requires Run(run) && i < |run|
    ensures run[i].sh.swaps <= 1
    ensures forall m :: m in run[i].sh.models ==> run[i].sh.models[m].engine == run[i].sh.eng
    ensures forall c :: c in run[i].sh.ctxs ==> run[i].sh.ctxs[c].model in run[i].sh.models
  {
    RunKeeps(run, i);
    forall m | m in run[i].sh.models ensures run[i].sh.models[m].engine == run[i].sh.eng {
      assert ModelOk(run[i].sh.models[m], run[i].sh.eng, run[i].sh.closed);
    }
  }

  /** A context has at most one Slots that is not detached, the one it records. */
  lemma OneSlotsPerContext(run: seq<State>, i: nat, sid: nat, sid': nat)
    requires Run(run) && i < |run| && sid in run[i].sh.slots && sid' in run[i].sh.slots
    requires run[i].sh.slots[sid].ctx == run[i].sh.slots[sid'].ctx
    requires run[i].sh.slots[sid].view.phase.Running? && run[i].sh.slots[sid'].view.phase.Running?
    ensures sid == sid'
  {
    RunKeeps(run, i);
  }
}
