/**
 Whatever a thread relies on at its program counter survives any step of another
 that keeps to the guarantee.
 */
module InstanceGuarantee {
  import opened Options
  import opened InstanceState
  import opened InstanceSteps
  import opened InstanceInvariant
  import opened InstanceFacts
  import opened InstanceAt
  import opened InstanceMoves
  import opened InstanceSpec

  /** The instance and the thread another thread's facts have to survive. */
  ghost predicate Interferes(sh: Shared, sh': Shared, u: nat, q: Pc, t: nat, pc: Pc) {
    SlotsInv(sh.ctxs, sh.slots) && Guarantee(sh, sh', t, pc) && t != u && Compatible(q, pc)
  }

  lemma AliveStays(sh: Shared, sh': Shared, u: nat, q: Pc, t: nat, pc: Pc, c: nat)
    requires Interferes(sh, sh', u, q, t, pc)
    requires Holds(q, CtxCalls(c)) || Holds(q, IntMu(c))
    ensures c in sh.ctxs ==> c in sh'.ctxs && SameFate(sh.ctxs[c], sh'.ctxs[c])
    ensures c in sh.ctxs && Holds(q, CtxCalls(c)) ==> sh'.ctxs[c].retired == sh.ctxs[c].retired
  {
    assert HoldsExcl(pc, CtxCalls(c)) ==> !Holds(q, CtxCalls(c));
    assert HoldsExcl(pc, IntMu(c)) ==> !Holds(q, IntMu(c));
  }

  /** The contexts a call holds stay as they are. */
  lemma HeldStay(sh: Shared, sh': Shared, u: nat, p: CallPc, t: nat, pc: Pc, c: nat)
    requires Interferes(sh, sh', u, OnCall(p), t, pc) && CallHolds(p, c) && c in sh.ctxs
    ensures c in sh'.ctxs && SameFate(sh.ctxs[c], sh'.ctxs[c]) && sh'.ctxs[c].retired == sh.ctxs[c].retired
  {
    assert HoldsShared(OnCall(p), CtxCalls(c));
    AliveStays(sh, sh', u, OnCall(p), t, pc, c);
  }

  lemma WaitingCallStable(sh: Shared, sh': Shared, u: nat, p: CallPc, t: nat, pc: Pc)
    requires Interferes(sh, sh', u, OnCall(p), t, pc) && CallAt(sh, u, p) && (p.Want? || p.Got?)
    ensures CallAt(sh', u, p)
  {
    if p.Got? {
      HeldStay(sh, sh', u, p, t, pc, p.cs[p.k]);
    }
    forall j | 0 <= j < p.k ensures Callable(sh', p.cs[j]) { HeldStay(sh, sh', u, p, t, pc, p.cs[j]); }
  }

  lemma AdmittedCallStable(sh: Shared, sh': Shared, u: nat, p: CallPc, t: nat, pc: Pc)
    requires Interferes(sh, sh', u, OnCall(p), t, pc) && CallAt(sh, u, p) && (p.In? || p.Posting?)
    ensures CallAt(sh', u, p)
  {
    forall c | c in p.cs ensures Callable(sh', c) { HeldStay(sh, sh', u, p, t, pc, c); }
  }

  lemma CallStable(sh: Shared, sh': Shared, u: nat, p: CallPc, t: nat, pc: Pc)
    requires Interferes(sh, sh', u, OnCall(p), t, pc) && At(sh, u, OnCall(p))
    ensures At(sh', u, OnCall(p))
  {
    if p.Want? || p.Got? {
      WaitingCallStable(sh, sh', u, p, t, pc);
    } else if p.In? || p.Posting? {
      AdmittedCallStable(sh, sh', u, p, t, pc);
    }
  }

  lemma InterruptStable(sh: Shared, sh': Shared, u: nat, p: IntPc, t: nat, pc: Pc)
    requires Interferes(sh, sh', u, OnInterrupt(p), t, pc) && At(sh, u, OnInterrupt(p))
    ensures At(sh', u, OnInterrupt(p))
  {
    if !p.IWant? {
      assert HoldsExcl(OnInterrupt(p), IntMu(p.c));
      AliveStays(sh, sh', u, OnInterrupt(p), t, pc, p.c);
    }
  }

  lemma QuietStays(sh: Shared, sh': Shared, u: nat, q: Pc, t: nat, pc: Pc, c: nat)
    requires Interferes(sh, sh', u, q, t, pc) && HoldsExcl(q, CtxCalls(c))
    ensures SlotsQuiet(sh.slots, c) ==> SlotsQuiet(sh'.slots, c)
    ensures forall s :: OthersQuiet(sh.slots, c, s) ==> OthersQuiet(sh'.slots, c, s)
  {
    assert !HoldsShared(pc, CtxCalls(c));
    forall sid | sid in sh'.slots && sh'.slots[sid].ctx == c
      ensures sid in sh.slots && sh.slots[sid].ctx == c && (SlotsOff(sh.slots[sid]) ==> SlotsOff(sh'.slots[sid]))
    {
      assert sid in sh.slots;
    }
  }

  lemma FreeFactsStable(sh: Shared, sh': Shared, u: nat, c: nat, k: Kont, f: FreePc, t: nat, pc: Pc)
    requires Interferes(sh, sh', u, Free(c, k, f), t, pc) && c in sh.ctxs && FreeFacts(sh, u, c, f)
    ensures c in sh'.ctxs && FreeFacts(sh', u, c, f)
  {
    var q := Free(c, k, f);
    if HoldsExcl(q, CtxCalls(c)) || HoldsExcl(q, IntMu(c)) {
      AliveStays(sh, sh', u, q, t, pc, c);
    }
    if HoldsExcl(q, CtxCalls(c)) {
      QuietStays(sh, sh', u, q, t, pc, c);
    }
  }

  lemma ClosingModelStays(sh: Shared, sh': Shared, u: nat, q: Pc, t: nat, pc: Pc, m: nat)
    requires Interferes(sh, sh', u, q, t, pc) && HoldsExcl(q, ModelClose(m))
    ensures ClosingModel(sh, u, m) ==> ClosingModel(sh', u, m)
  {
    assert !HoldsExcl(pc, ModelClose(m));
  }

  lemma CoveredStays(sh: Shared, sh': Shared, u: nat, q: Pc, t: nat, pc: Pc, m: nat, cs: set<nat>)
    requires Interferes(sh, sh', u, q, t, pc) && HoldsExcl(q, ModelCalls(m)) && CoveredBy(sh, m, cs)
    ensures CoveredBy(sh', m, cs)
  {
    assert !HoldsShared(pc, ModelCalls(m));
  }

  lemma ClosingInstStays(sh: Shared, sh': Shared, u: nat, q: Pc, t: nat, pc: Pc)
    requires Interferes(sh, sh', u, q, t, pc) && HoldsExcl(q, InstClose) && HoldsShared(q, Hands)
    ensures ClosingInst(sh, u) ==> ClosingInst(sh', u)
    ensures sh'.taken == sh.taken
    ensures sh.taken ==> forall cs :: AllCoveredBy(sh, cs) ==> AllCoveredBy(sh', cs)
    ensures sh.taken && AllFreed(sh.ctxs) ==> AllFreed(sh'.ctxs) && (sh.published ==> sh'.trapBy == sh.trapBy)
  {
    assert !HoldsExcl(pc, InstClose);
  }

  lemma ModelAliveStays(sh: Shared, sh': Shared, u: nat, q: Pc, t: nat, pc: Pc, m: nat)
    requires Interferes(sh, sh', u, q, t, pc) && HoldsShared(q, ModelCalls(m))
    ensures ModelAlive(sh, m) ==> ModelAlive(sh', m)
  {
    assert !HoldsExcl(pc, ModelCalls(m));
  }

  lemma UntakenStays(sh: Shared, sh': Shared, u: nat, q: Pc, t: nat, pc: Pc)
    requires Interferes(sh, sh', u, q, t, pc) && HoldsExcl(q, CtxMu)
    ensures sh'.taken == sh.taken
  {
    assert !HoldsExcl(pc, CtxMu);
  }

  /** A later state for which no context has become less freed, or less retired. */
  ghost predicate FurtherOn(sh: Shared, sh': Shared) {
    && sh'.builder == sh.builder && sh'.taken == sh.taken && sh'.closed == sh.closed && sh'.torn == sh.torn
    && sh'.eng == sh.eng && sh'.engines == sh.engines && sh'.ctxs.Keys == sh.ctxs.Keys
    && (forall c :: c in sh.ctxs ==>
          (sh.ctxs[c].freed ==> sh'.ctxs[c].freed) && (sh.ctxs[c].retired ==> sh'.ctxs[c].retired))
    && (forall c :: HandedOut(sh.ctxs, c) ==> HandedOut(sh'.ctxs, c))
  }

  /** What the end of a build relies on: nobody else creates, closes or loads. */
  lemma HandsStay(sh: Shared, sh': Shared, u: nat, q: Pc, t: nat, pc: Pc)
    requires Interferes(sh, sh', u, q, t, pc) && HoldsExcl(q, Hands) && sh.builder == Some(u)
    ensures FurtherOn(sh, sh') && sh'.trapBy == sh.trapBy
    ensures forall c :: c in sh.ctxs ==> SameFate(sh.ctxs[c], sh'.ctxs[c])
  {
    assert !Holds(pc, Hands);
    assert forall c :: c in sh'.ctxs ==> c in sh.ctxs;
  }

  lemma RetiringFurther(sh: Shared, sh': Shared, job: Job, cs: set<nat>)
    requires FurtherOn(sh, sh') && Retiring(sh, job, cs)
    ensures Retiring(sh', job, cs)
  {}

  lemma JobFurther(sh: Shared, sh': Shared, t: nat, job: Job, cs: set<nat>)
    requires FurtherOn(sh, sh') && JobAt(sh, t, job, cs)
    requires forall c :: c in job.rest ==> SameFate(sh.ctxs[c], sh'.ctxs[c])
    ensures JobAt(sh', t, job, cs)
  {
    RetiringFurther(sh, sh', job, cs);
  }

  lemma JobStable(sh: Shared, sh': Shared, u: nat, q: Pc, t: nat, pc: Pc, job: Job, cs: set<nat>)
    requires Interferes(sh, sh', u, q, t, pc) && HoldsExcl(q, Hands) && JobAt(sh, u, job, cs)
    ensures JobAt(sh', u, job, cs)
  {
    HandsStay(sh, sh', u, q, t, pc);
    JobFurther(sh, sh', u, job, cs);
  }

  lemma KontStable(sh: Shared, sh': Shared, u: nat, c: nat, k: Kont, f: FreePc, t: nat, pc: Pc)
    requires Interferes(sh, sh', u, Free(c, k, f), t, pc) && c in sh.ctxs && c in sh'.ctxs && KontAt(sh, u, c, k)
    ensures KontAt(sh', u, c, k)
  {
    var q := Free(c, k, f);
    match k
    case KCtx =>
    case KModel(m, rest, _) =>
      ClosingModelStays(sh, sh', u, q, t, pc, m);
      CoveredStays(sh, sh', u, q, t, pc, m, rest + {c});
    case KInst(_, _) => ClosingInstStays(sh, sh', u, q, t, pc);
    case KNew(m) =>
      ModelAliveStays(sh, sh', u, q, t, pc, m);
      UntakenStays(sh, sh', u, q, t, pc);
    case KRetire(job) => JobStable(sh, sh', u, q, t, pc, job, job.rest + {c});
  }

  lemma NewStable(sh: Shared, sh': Shared, u: nat, p: NewPc, t: nat, pc: Pc)
    requires Interferes(sh, sh', u, OnNew(p), t, pc) && At(sh, u, OnNew(p))
    ensures At(sh', u, OnNew(p))
  {
    if !p.NWant? {
      ModelAliveStays(sh, sh', u, OnNew(p), t, pc, p.m);
    }
    if p.NCall? || p.NNote? || p.NAddr? {
      UntakenStays(sh, sh', u, OnNew(p), t, pc);
    }
  }

  lemma FreeingModelStable(sh: Shared, sh': Shared, u: nat, p: ModelPc, t: nat, pc: Pc)
    requires Interferes(sh, sh', u, OnModel(p), t, pc) && At(sh, u, OnModel(p)) && (p.MFree? || p.MCall?)
    ensures At(sh', u, OnModel(p))
  {
    ClosingModelStays(sh, sh', u, OnModel(p), t, pc, p.m);
    CoveredStays(sh, sh', u, OnModel(p), t, pc, p.m, if p.MFree? then p.rest else {});
  }

  lemma ModelStable(sh: Shared, sh': Shared, u: nat, p: ModelPc, t: nat, pc: Pc)
    requires Interferes(sh, sh', u, OnModel(p), t, pc) && At(sh, u, OnModel(p))
    ensures At(sh', u, OnModel(p))
  {
    if p.MFree? || p.MCall? {
      FreeingModelStable(sh, sh', u, p, t, pc);
    } else if ModelExcl(p, ModelClose(p.m)) {
      assert HoldsExcl(OnModel(p), ModelClose(p.m));
      ClosingModelStays(sh, sh', u, OnModel(p), t, pc, p.m);
    }
  }

  lemma InstStable(sh: Shared, sh': Shared, u: nat, p: InstPc, t: nat, pc: Pc)
    requires Interferes(sh, sh', u, OnInst(p), t, pc) && At(sh, u, OnInst(p))
    ensures At(sh', u, OnInst(p))
  {
    if InstExcl(p, InstClose) {
      assert HoldsExcl(OnInst(p), InstClose);
      ClosingInstStays(sh, sh', u, OnInst(p), t, pc);
    }
  }

  lemma LoadStable(sh: Shared, sh': Shared, u: nat, p: LoadPc, t: nat, pc: Pc)
    requires Interferes(sh, sh', u, OnLoad(p), t, pc) && At(sh, u, OnLoad(p))
    ensures At(sh', u, OnLoad(p))
  {
    if !p.OWant? {
      assert HoldsExcl(OnLoad(p), Mu);
      assert !HoldsExcl(pc, Mu) && !HoldsExcl(pc, Hands);
      assert p.OSwapped? ==> forall m :: m in sh'.models ==> m in sh.models;
    }
  }

  lemma KeepNoteStable(sh: Shared, sh': Shared, u: nat, c: nat, job: Job, k: KeepPc, t: nat, pc: Pc)
    requires Interferes(sh, sh', u, Keep(c, job, k), t, pc) && c in sh.ctxs && KeepFacts(sh, c, k)
    requires k.KpStart? || k.KpWant? || k.KpNote? || k.KpDone?
    ensures c in sh'.ctxs && KeepFacts(sh', c, k)
  {
    assert CtxStep(sh.ctxs[c], sh'.ctxs[c], t, pc, c);
  }

  lemma KeepFactsStable(sh: Shared, sh': Shared, u: nat, c: nat, job: Job, k: KeepPc, t: nat, pc: Pc)
    requires Interferes(sh, sh', u, Keep(c, job, k), t, pc) && c in sh.ctxs && KeepFacts(sh, c, k)
    ensures c in sh'.ctxs && KeepFacts(sh', c, k)
  {
    if k.KpStart? || k.KpWant? || k.KpNote? || k.KpDone? {
      KeepNoteStable(sh, sh', u, c, job, k, t, pc);
    } else {
      assert HoldsExcl(Keep(c, job, k), CtxCalls(c));
      QuietStays(sh, sh', u, Keep(c, job, k), t, pc, c);
    }
  }

  lemma KeepStable(sh: Shared, sh': Shared, u: nat, c: nat, job: Job, k: KeepPc, t: nat, pc: Pc)
    requires Interferes(sh, sh', u, Keep(c, job, k), t, pc) && KeepAt(sh, u, c, job)
    ensures KeepAt(sh', u, c, job)
  {
    HandsStay(sh, sh', u, Keep(c, job, k), t, pc);
    JobStable(sh, sh', u, Keep(c, job, k), t, pc, job, job.rest + {c});
  }

  lemma BuildStable(sh: Shared, sh': Shared, u: nat, q: Pc, t: nat, pc: Pc, kept: set<nat>)
    requires Interferes(sh, sh', u, q, t, pc) && BuildAt(sh, u, kept)
    ensures BuildAt(sh', u, kept)
  {}

  lemma DoneStable(sh: Shared, sh': Shared, u: nat, q: Pc, t: nat, pc: Pc, job: Job)
    requires Interferes(sh, sh', u, q, t, pc) && HoldsExcl(q, Hands) && JobDone(sh, u, job)
    ensures JobDone(sh', u, job)
    ensures sh'.trapBy == sh.trapBy && sh'.eng == sh.eng && sh'.engines == sh.engines
  {
    HandsStay(sh, sh', u, q, t, pc);
    RetiringFurther(sh, sh', job, {});
  }

  lemma RetireStable(sh: Shared, sh': Shared, u: nat, p: RetirePc, t: nat, pc: Pc)
    requires Interferes(sh, sh', u, OnRetire(p), t, pc) && At(sh, u, OnRetire(p))
    ensures At(sh', u, OnRetire(p))
  {
    match p
    case Building(kept) => BuildStable(sh, sh', u, OnRetire(p), t, pc, kept);
    case RRec(job) => BuildStable(sh, sh', u, OnRetire(p), t, pc, job.kept);
    case RTake(job) => HandsStay(sh, sh', u, OnRetire(p), t, pc);
    case RLoop(job) => JobStable(sh, sh', u, OnRetire(p), t, pc, job, job.rest);
    case RJudge(job) => DoneStable(sh, sh', u, OnRetire(p), t, pc, job);
    case RFail(job) => DoneStable(sh, sh', u, OnRetire(p), t, pc, job);
    case RPreserve(job) => DoneStable(sh, sh', u, OnRetire(p), t, pc, job);
    case RAbandon(job, _) => DoneStable(sh, sh', u, OnRetire(p), t, pc, job);
    case Retired(job, _) => DoneStable(sh, sh', u, OnRetire(p), t, pc, job);
  }

  lemma FreeStable(sh: Shared, sh': Shared, u: nat, c: nat, k: Kont, f: FreePc, t: nat, pc: Pc)
    requires Interferes(sh, sh', u, Free(c, k, f), t, pc) && At(sh, u, Free(c, k, f))
    ensures At(sh', u, Free(c, k, f))
  {
    FreeFactsStable(sh, sh', u, c, k, f, t, pc);
    KontStable(sh, sh', u, c, k, f, t, pc);
  }

  lemma KeepingStable(sh: Shared, sh': Shared, u: nat, c: nat, job: Job, k: KeepPc, t: nat, pc: Pc)
    requires Interferes(sh, sh', u, Keep(c, job, k), t, pc) && At(sh, u, Keep(c, job, k))
    ensures At(sh', u, Keep(c, job, k))
  {
    KeepFactsStable(sh, sh', u, c, job, k, t, pc);
    KeepStable(sh, sh', u, c, job, k, t, pc);
  }

  lemma ForkStable(sh: Shared, sh': Shared, u: nat, p: ForkPc, t: nat, pc: Pc)
    requires Interferes(sh, sh', u, OnFork(p), t, pc) && At(sh, u, OnFork(p))
    ensures At(sh', u, OnFork(p))
  {}

  /** What a thread relies on survives every step of another. */
  lemma Stable(sh: Shared, sh': Shared, u: nat, q: Pc, t: nat, pc: Pc)
    requires Interferes(sh, sh', u, q, t, pc) && At(sh, u, q)
    ensures At(sh', u, q)
  {
    match q
    case Idle =>
    case OnCall(p) => CallStable(sh, sh', u, p, t, pc);
    case OnInterrupt(p) => InterruptStable(sh, sh', u, p, t, pc);
    case Free(c, k, f) => FreeStable(sh, sh', u, c, k, f, t, pc);
    case CtxClosed(_, _) =>
    case OnNew(p) => NewStable(sh, sh', u, p, t, pc);
    case OnModel(p) => ModelStable(sh, sh', u, p, t, pc);
    case OnInst(p) => InstStable(sh, sh', u, p, t, pc);
    case OnLoad(p) => LoadStable(sh, sh', u, p, t, pc);
    case OnFork(p) => ForkStable(sh, sh', u, p, t, pc);
    case Keep(c, job, k) => KeepingStable(sh, sh', u, c, job, k, t, pc);
    case OnRetire(p) => RetireStable(sh, sh', u, p, t, pc);
  }

  lemma OwnedFreesStable(sh: Shared, sh': Shared, u: nat, t: nat, pc: Pc, c: nat)
    requires CtxsStep(sh.ctxs, sh'.ctxs, sh.taken, t, pc) && t != u
    requires c in sh'.ctxs
    ensures sh'.ctxs[c].busy == Some(u) ==> c in sh.ctxs && sh.ctxs[c].busy == Some(u)
    ensures sh'.ctxs[c].maker == Some(u) ==> c in sh.ctxs && sh.ctxs[c].maker == Some(u)
  {
    assert c !in sh.ctxs ==> sh'.ctxs[c] == Fresh(sh'.ctxs[c].model, Some(t));
  }

  lemma OwnedModelsStable(sh: Shared, sh': Shared, u: nat, t: nat, pc: Pc, m: nat)
    requires ModelsStep(sh.models, sh'.models, t, pc) && t != u
    requires m in sh'.models && sh'.models[m].closer == Some(u) && !sh'.models[m].torn
    ensures m in sh.models && sh.models[m].closer == Some(u) && !sh.models[m].torn
  {}

  lemma PostsStable(sh: Shared, sh': Shared, u: nat, q: Pc, t: nat, pc: Pc)
    requires SlotsStepOk(sh.slots, sh'.slots, t, pc) && t != u && PostsBy(sh, u, q)
    ensures PostsBy(sh', u, q)
  {}

  /** What the history fields say of a thread survives every step of another. */
  lemma OwnedStable(sh: Shared, sh': Shared, u: nat, q: Pc, t: nat, pc: Pc)
    requires Guarantee(sh, sh', t, pc) && t != u && OwnedBy(sh, u, q)
    ensures OwnedBy(sh', u, q)
  {
    forall c | c in sh'.ctxs
      ensures (sh'.ctxs[c].busy == Some(u) ==> MidFree(q, c)) && (sh'.ctxs[c].maker == Some(u) ==> Making(q, c))
    {
      OwnedFreesStable(sh, sh', u, t, pc, c);
    }
    forall m | m in sh'.models && sh'.models[m].closer == Some(u) && !sh'.models[m].torn ensures TearingModel(q, m) {
      OwnedModelsStable(sh, sh', u, t, pc, m);
    }
    assert InstStep(sh, sh', t, pc);
  }
}
