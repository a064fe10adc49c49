/**
 What holds in every reachable state of an instance, piece by piece: of what the
 threads share, of a thread in each of its operations, and of the threads the
 history fields name. `InstanceSpec` puts the pieces together.
 */
module InstanceInvariant {
  import opened Options
  import opened InstanceState
  import opened InstanceSteps
  import V = SlotsView

  // ----- a context ----------------------------------------------------------------

  /** A context by itself: its guest free runs at most once, only after `closed`,
      and by one thread, which is then the one to store `freed`. */
  predicate CtxOk(x: Ctx) {
    && (x.guest.Live? <==> x.frees == 0)
    && x.frees <= 1
    && (x.frees == 1 ==> x.closed)
    && (x.freed ==> x.guest.Gone? && x.busy.None?)
    && (x.busy.Some? ==> !x.freed && x.frees == 1)
    && (!x.freed && x.frees == 1 ==> x.busy.Some?)
    && (x.retired ==> x.closed)
  }

  /** The context's object is there and no thread is freeing it. */
  predicate Alive(sh: Shared, c: nat) { c in sh.ctxs && !sh.ctxs[c].freed && sh.ctxs[c].guest.Live? }

  /** A call may be in the guest on the context. */
  predicate Callable(sh: Shared, c: nat) { Alive(sh, c) && !sh.ctxs[c].retired }

  /** No thread is in the middle of freeing the context. */
  predicate Settled(sh: Shared, c: nat) { c in sh.ctxs && sh.ctxs[c].busy.None? }

  predicate SlotsOff(r: SlotsRec) { !r.view.phase.Running? && r.view.engine.Idle? }

  /** Nothing of any Slots of the context is in the engine, or gets there any more. */
  ghost predicate SlotsQuiet(slots: map<nat, SlotsRec>, c: nat) {
    forall sid :: sid in slots && slots[sid].ctx == c ==> SlotsOff(slots[sid])
  }

  ghost predicate CtxsInv(ctxs: map<nat, Ctx>, models: map<nat, Model>) {
    forall c :: c in ctxs ==> CtxOk(ctxs[c]) && ctxs[c].model in models
  }

  predicate InUse(x: Ctx) { x.guest.Live? && !x.retired }

  /** A context that is being freed, or has been freed or retired, has no Slots left that matters. */
  ghost predicate QuietInv(ctxs: map<nat, Ctx>, slots: map<nat, SlotsRec>) {
    forall c :: c in ctxs && !InUse(ctxs[c]) ==> SlotsQuiet(slots, c)
  }

  // ----- Slots ----------------------------------------------------------------------

  predicate ViewOk(v: V.View) {
    && (!v.phase.Running? ==> v.closed && v.engine.Idle?)
    && (v.engine.ByPost? ==> !v.closed)
  }

  /** A running Slots is the one its context records; so there is at most one. */
  ghost predicate SlotsInv(ctxs: map<nat, Ctx>, slots: map<nat, SlotsRec>) {
    && (forall sid :: sid in slots ==> slots[sid].ctx in ctxs && ViewOk(slots[sid].view))
    && (forall sid :: sid in slots && slots[sid].view.phase.Running? ==> ctxs[slots[sid].ctx].slots == Some(sid))
    && (forall c :: c in ctxs && ctxs[c].slots.Some? ==>
          ctxs[c].slots.value in slots && slots[ctxs[c].slots.value].ctx == c)
  }

  // ----- models ---------------------------------------------------------------------

  predicate ModelOk(x: Model, eng: nat, instClosed: bool) {
    && (!x.guest.Live? ==> x.closed)
    && (x.closed <==> x.closer.Some?)
    && (x.torn ==> x.closed && (x.guest.Gone? || instClosed))
    && (!x.closed ==> x.closeErr == {})
    && x.engine == eng
  }

  /** Every model was issued by the engine in use, and its guest object outlives its contexts. */
  ghost predicate ModelsInv(ctxs: map<nat, Ctx>, models: map<nat, Model>, eng: nat, instClosed: bool) {
    && (forall m :: m in models ==> ModelOk(models[m], eng, instClosed))
    && (forall c :: c in ctxs && ctxs[c].model in models && !models[ctxs[c].model].guest.Live? ==> ctxs[c].freed)
  }

  // ----- the instance -----------------------------------------------------------------

  ghost predicate AllFreed(ctxs: map<nat, Ctx>) { forall c :: c in ctxs ==> ctxs[c].freed }

  ghost predicate RecordInv(ctxs: map<nat, Ctx>, record: set<nat>, taken: bool) {
    && (forall c :: c in record ==> c in ctxs)
    && (!taken ==> forall c :: c in ctxs && !ctxs[c].freed ==> c in record)
  }

  /** The order of a teardown: closed, the record taken over, every context freed,
      the engine released, torn. The end of a build takes the record over as well. */
  predicate FlagsInv(sh: Shared) {
    && (sh.closed <==> sh.closer.Some?)
    && (sh.taken ==> sh.closed || sh.builder.Some?)
    && (sh.torn ==> EngineReleased(sh))
    && (EngineReleased(sh) ==> sh.taken)
    && (sh.wedged ==> sh.trapBy.Some?)
    && (sh.closed ==> sh.published)
    && (!sh.published ==> sh.forker.Some?)
    && (sh.builder.Some? ==> sh.published)
  }

  /** The memory stays, whatever becomes of the engine. */
  predicate Stays(x: Engine) { !x.unmapped && (x.released ==> !x.finalizer) }

  /** Memory that stays mapped is reported. */
  predicate KeptIsReported(sh: Shared, err: Err) {
    sh.eng in sh.engines && Stays(sh.engines[sh.eng]) ==> LEAKED in err
  }

  /** The callback of a build has closed the instance it builds, as far as the engine's
      release: the image's finalizer is there for good. */
  predicate ClosedBuild(sh: Shared) { sh.builder.Some? && sh.closed && EngineReleased(sh) }

  predicate Preserved(sh: Shared) { sh.eng in sh.engines && sh.engines[sh.eng].preserve }

  /** The engine of an image: the finalizer goes with the memory, or in the release of an
      engine that the end of the build has marked. */
  predicate ImageOk(sh: Shared, x: Engine) {
    && (!x.released || sh.closed ==> x.unmapped || x.finalizer)
    && (x.unmapped ==> if sh.closed then x.released else sh.taken)
    && (x.preserve ==> sh.taken && !sh.closed)
  }

  /** The engine and its memory are there. */
  predicate Mapped(sh: Shared) {
    sh.eng in sh.engines && !sh.engines[sh.eng].released && !sh.engines[sh.eng].unmapped
  }

  /** One engine is in use; it is swapped at most once and only before a model is
      loaded; once a managing call has trapped its memory goes away only in a closed build. */
  ghost predicate EngineInv(sh: Shared) {
    && sh.eng in sh.engines
    && (sh.loaded == 0 ==> sh.models == map[])
    && (sh.trapBy.Some? ==> sh.loaded > 0 && (Stays(sh.engines[sh.eng]) <==> !ClosedBuild(sh)))
    && (sh.builder.None? ==>
          !sh.engines[sh.eng].finalizer && !Preserved(sh) && (sh.engines[sh.eng].unmapped ==> EngineReleased(sh)))
    && (sh.builder.Some? ==> ImageOk(sh, sh.engines[sh.eng]))
    && (sh.closed && EngineReleased(sh) ==> AllFreed(sh.ctxs))
    && (sh.torn ==> KeptIsReported(sh, sh.closeErr))
    && sh.swaps <= 1
    && (sh.swaps == 1 ==> sh.loaded > 0 || sh.swapper.Some?)
  }

  // ----- the threads ------------------------------------------------------------------

  /** This thread is tearing the model down. */
  predicate ClosingModel(sh: Shared, t: nat, m: nat) {
    m in sh.models && sh.models[m].closer == Some(t) && !sh.models[m].torn && sh.models[m].closeErr == {}
  }

  /** This thread is tearing the instance down. */
  predicate ClosingInst(sh: Shared, t: nat) {
    sh.closer == Some(t) && !sh.torn && !EngineReleased(sh)
  }

  /** Every context over m is freed or among cs. */
  ghost predicate CoveredBy(sh: Shared, m: nat, cs: set<nat>) {
    forall c :: c in sh.ctxs && sh.ctxs[c].model == m ==> sh.ctxs[c].freed || c in cs
  }

  /** Every context is freed or among cs. */
  ghost predicate AllCoveredBy(sh: Shared, cs: set<nat>) {
    forall c :: c in sh.ctxs ==> sh.ctxs[c].freed || c in cs
  }

  /** Of the contexts of a build, all but cs are freed, or have been kept and lost their
      pool; all of them are freed if none is to be kept. */
  ghost predicate Retiring(sh: Shared, job: Job, cs: set<nat>) {
    && (job.all ==> AllCoveredBy(sh, cs))
    && (!job.all && job.errs == {} ==>
          forall c :: c in sh.ctxs ==> sh.ctxs[c].freed || c in cs || (c in job.kept && sh.ctxs[c].retired))
  }

  predicate AllAliveIn(sh: Shared, cs: set<nat>) { forall c :: c in cs ==> Alive(sh, c) }

  predicate AllHandedOut(ctxs: map<nat, Ctx>, cs: set<nat>) { forall c :: c in cs ==> HandedOut(ctxs, c) }

  /** The instance is open, its engine in use, or its Close is through. */
  predicate OpenOrTorn(sh: Shared) { if sh.closed then sh.torn else !EngineReleased(sh) }

  /** The thread is ending a build, with the contexts of cs still to come. */
  ghost predicate JobAt(sh: Shared, t: nat, job: Job, cs: set<nat>) {
    && sh.builder == Some(t) && sh.taken && OpenOrTorn(sh) && (!sh.closed ==> Mapped(sh))
    && AllHandedOut(sh.ctxs, job.kept) && (job.kept == {} ==> job.all)
    && AllHandedOut(sh.ctxs, job.rest) && AllAliveIn(sh, job.rest)
    && Retiring(sh, job, cs)
  }

  /** The model's guest object is there; the thread holds the model open. */
  predicate ModelAlive(sh: Shared, m: nat) { m in sh.models && sh.models[m].guest.Live? }

  /** s is a Slots of context c, and every other one of c is through. */
  ghost predicate OthersQuiet(slots: map<nat, SlotsRec>, c: nat, s: nat) {
    && s in slots && slots[s].ctx == c
    && forall sid :: sid in slots && slots[sid].ctx == c && sid != s ==> SlotsOff(slots[sid])
  }

  predicate AllCallable(sh: Shared, cs: seq<nat>) { forall c :: c in cs ==> Callable(sh, c) }

  predicate CallableBelow(sh: Shared, cs: seq<nat>, k: nat)
    requires k <= |cs|
  {
    forall j :: 0 <= j < k ==> Callable(sh, cs[j])
  }

  // ----- the threads the history fields name -----------------------------------------------

  predicate MidFree(pc: Pc, c: nat) { pc.Free? && pc.c == c && (pc.f.FFreeing? || pc.f.FNote? || pc.f.FStore?) }

  predicate Noting(pc: Pc) {
    || (pc.Free? && pc.f.FNote? && pc.f.res.Trap?)
    || (pc.OnNew? && pc.creation.NNote? && pc.creation.res.Trap?)
    || (pc.OnFork? && pc.fork.ANote? && pc.fork.res.Trap?)
    || (pc.Keep? && pc.keep.KpNote? && pc.keep.res.Trap?)
  }

  predicate TearingModel(pc: Pc, m: nat) {
    || (pc.Free? && pc.kont.KModel? && pc.kont.m == m)
    || (pc.OnModel? && pc.model.m == m && ModelExcl(pc.model, ModelClose(m)) &&
        !pc.model.MGot? && !pc.model.MRet? && !pc.model.MOut?)
  }

  predicate TearingInst(pc: Pc) {
    || (pc.Free? && pc.kont.KInst?)
    || (pc.OnInst? && InstExcl(pc.inst, InstClose) && !pc.inst.LGot? && !pc.inst.LRet?)
  }

  predicate Making(pc: Pc, c: nat) { pc.OnNew? && pc.creation.NAddr? && pc.creation.c == c }

  predicate Swapping(pc: Pc) { pc.OnLoad? && pc.load.OSwapped? }

  /** The thread runs NewSnapshot. */
  predicate Builds(pc: Pc) { pc.OnRetire? || pc.Keep? || (pc.Free? && pc.kont.KRetire?) }
}
