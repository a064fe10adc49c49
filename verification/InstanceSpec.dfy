/**
 The invariant of an instance as a whole (`Inv`): what the threads share
 (`SharedInv`), what each relies on at its program counter (`At`), and what the
 history fields say of it (`OwnedBy`); and what every step of a thread guarantees
 to the others (`Guarantee`).
 */
module InstanceSpec {
  import opened Options
  import opened InstanceState
  import opened InstanceInvariant
  import opened InstanceFacts
  import opened InstanceAt
  import opened InstanceMoves
  import V = SlotsView

  ghost predicate SharedInv(sh: Shared) {
    && CtxsInv(sh.ctxs, sh.models)
    && QuietInv(sh.ctxs, sh.slots)
    && SlotsInv(sh.ctxs, sh.slots)
    && ModelsInv(sh.ctxs, sh.models, sh.eng, sh.closed)
    && RecordInv(sh.ctxs, sh.record, sh.taken)
    && FlagsInv(sh)
    && EngineInv(sh)
  }

  /** What a thread may rely on at its program counter. */
  ghost predicate At(sh: Shared, t: nat, pc: Pc) {
    && (pc.OnCall? ==> CallAt(sh, t, pc.call))
    && (pc.OnInterrupt? ==> IntAt(sh, pc.intr))
    && (pc.Free? ==> FreeAt(sh, t, pc.c, pc.kont, pc.f))
    && (pc.CtxClosed? ==> pc.cc in sh.ctxs && sh.ctxs[pc.cc].freed && sh.ctxs[pc.cc].closeErr == pc.err)
    && (pc.OnNew? ==> NewAt(sh, t, pc.creation))
    && (pc.OnModel? ==> ModelAt(sh, t, pc.model))
    && (pc.OnInst? ==> InstAt(sh, t, pc.inst))
    && (pc.OnLoad? ==> LoadAt(sh, t, pc.load))
    && (pc.OnFork? ==> ForkAt(sh, t, pc.fork))
    && (pc.Keep? ==> KeepingAt(sh, t, pc.c, pc.job, pc.keep))
    && (pc.OnRetire? ==> RetireAt(sh, t, pc.retire))
  }

  /** What the history fields say of thread t. */
  ghost predicate OwnedBy(sh: Shared, t: nat, pc: Pc) {
    && (forall c :: c in sh.ctxs && sh.ctxs[c].busy == Some(t) ==> MidFree(pc, c))
    && (forall c :: c in sh.ctxs && sh.ctxs[c].maker == Some(t) ==> Making(pc, c))
    && (forall m :: m in sh.models && sh.models[m].closer == Some(t) && !sh.models[m].torn ==> TearingModel(pc, m))
    && (sh.closer == Some(t) && !sh.torn ==> TearingInst(pc))
    && (sh.trapBy == Some(t) && !sh.wedged ==> Noting(pc))
    && (sh.swapper == Some(t) ==> Swapping(pc))
    && (sh.builder == Some(t) ==> Builds(pc) && (sh.taken && !sh.closed ==> HoldsExcl(pc, Hands)))
  }

  /** They name threads that exist. */
  ghost predicate Named(sh: Shared, ts: set<nat>) {
    && (forall c :: c in sh.ctxs && sh.ctxs[c].busy.Some? ==> sh.ctxs[c].busy.value in ts)
    && (forall c :: c in sh.ctxs && sh.ctxs[c].maker.Some? ==> sh.ctxs[c].maker.value in ts)
    && (forall m :: m in sh.models && sh.models[m].closer.Some? ==> sh.models[m].closer.value in ts)
    && (sh.closer.Some? ==> sh.closer.value in ts)
    && (sh.trapBy.Some? ==> sh.trapBy.value in ts)
    && (sh.swapper.Some? ==> sh.swapper.value in ts)
    && (sh.builder.Some? ==> sh.builder.value in ts)
    && (forall sid :: sid in sh.slots && sh.slots[sid].view.engine.ByPost? ==> sh.slots[sid].view.engine.p in ts)
  }

  /** A thread inside a Post's engine call is at the program counter that says so. */
  ghost predicate PostsBy(sh: Shared, t: nat, pc: Pc) {
    forall sid :: sid in sh.slots && sh.slots[sid].view.engine == V.ByPost(t) ==>
      pc.OnCall? && pc.call.Posting? && pc.call.sid == sid
  }

  ghost predicate ThreadOk(sh: Shared, t: nat, pc: Pc) { At(sh, t, pc) && OwnedBy(sh, t, pc) && PostsBy(sh, t, pc) }

  ghost predicate AllOk(sh: Shared, threads: map<nat, Pc>) {
    forall t :: t in threads ==> ThreadOk(sh, t, threads[t])
  }

  ghost predicate AllCompatible(threads: map<nat, Pc>) {
    forall t, u :: t in threads && u in threads && t != u ==> Compatible(threads[t], threads[u])
  }

  ghost predicate Inv(s: State) {
    && SharedInv(s.sh)
    && Named(s.sh, s.threads.Keys)
    && AllOk(s.sh, s.threads)
    && AllCompatible(s.threads)
  }

  /** The guarantee of every step of thread t, taken at program counter pc. */
  ghost predicate Guarantee(sh: Shared, sh': Shared, t: nat, pc: Pc) {
    && CtxsStep(sh.ctxs, sh'.ctxs, sh.taken, t, pc)
    && SlotsStepOk(sh.slots, sh'.slots, t, pc)
    && ModelsStep(sh.models, sh'.models, t, pc)
    && InstStep(sh, sh', t, pc)
  }
}
