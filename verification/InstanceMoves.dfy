/**
 What a step of one thread may do to each part of what the threads share, given
 the locks it holds.
 */
module InstanceMoves {
  import opened Options
  import opened InstanceState
  import opened InstanceSteps
  import opened InstanceInvariant
  import V = SlotsView

  predicate SameFate(x: Ctx, x': Ctx) {
    x'.freed == x.freed && x'.guest == x.guest && x'.frees == x.frees && x'.busy == x.busy && x'.closeErr == x.closeErr
  }

  predicate CtxStep(x: Ctx, x': Ctx, t: nat, pc: Pc, c: nat) {
    && x'.model == x.model
    && (x.closed ==> x'.closed)
    && x.frees <= x'.frees
    && (x.freed ==> x'.freed && x'.closeErr == x.closeErr)
    && (!SameFate(x, x') ==> HoldsExcl(pc, CtxCalls(c)) && HoldsExcl(pc, IntMu(c)) && Holds(pc, Hands) && x.maker.None?)
    && (x'.maker != x.maker ==> x.maker == Some(t) && x'.maker.None?)
    && (x'.busy != x.busy ==> x.busy == (if x'.busy.Some? then None else Some(t)) && (x'.busy.Some? ==> x'.busy == Some(t)))
    && (x'.slots != x.slots ==> HoldsShared(pc, CtxCalls(c)))
    && (x.retired ==> x'.retired)
    && (x'.retired != x.retired ==> HoldsExcl(pc, CtxCalls(c)) && x.maker.None?)
  }

  /** The locks under which NewContext creates. */
  predicate Creates(pc: Pc, m: nat) { HoldsExcl(pc, CtxMu) && HoldsShared(pc, ModelCalls(m)) && Holds(pc, Hands) }

  ghost predicate CtxsStep(ctxs: map<nat, Ctx>, ctxs': map<nat, Ctx>, taken: bool, t: nat, pc: Pc) {
    && (forall c :: c in ctxs ==> c in ctxs' && CtxStep(ctxs[c], ctxs'[c], t, pc, c))
    && (forall c :: c in ctxs' && c !in ctxs ==>
          ctxs'[c] == Fresh(ctxs'[c].model, Some(t)) && !taken && Creates(pc, ctxs'[c].model))
  }

  predicate ViewStep(v: V.View, v': V.View, t: nat) {
    && v'.phase == v.phase
    && (v.closed ==> v'.closed)
    && (v'.engine != v.engine ==>
          (v.engine.Idle? && v'.engine == V.ByPost(t) && !v.closed) || (v.engine == V.ByPost(t) && v'.engine.Idle?))
  }

  ghost predicate SlotsStepOk(slots: map<nat, SlotsRec>, slots': map<nat, SlotsRec>, t: nat, pc: Pc) {
    && (forall sid :: sid in slots ==>
          sid in slots' && slots'[sid].ctx == slots[sid].ctx && ViewStep(slots[sid].view, slots'[sid].view, t))
    && (forall sid :: sid in slots' && sid !in slots ==>
          HoldsShared(pc, CtxCalls(slots'[sid].ctx)) && slots'[sid].view.engine.Idle?)
  }

  predicate ModelStepOk(x: Model, x': Model, t: nat, pc: Pc, m: nat) {
    && (x.closed ==> x'.closed)
    && (x'.guest != x.guest ==> HoldsExcl(pc, ModelCalls(m)))
    && (x'.closer != x.closer || x'.torn != x.torn || x'.closeErr != x.closeErr || x'.closed != x.closed ==>
          HoldsExcl(pc, ModelClose(m)))
    && (x.torn ==> x'.torn && x'.closeErr == x.closeErr)
    && (x'.closer != x.closer ==> x.closer.None? && x'.closer == Some(t))
  }

  ghost predicate ModelsStep(models: map<nat, Model>, models': map<nat, Model>, t: nat, pc: Pc) {
    && (forall m :: m in models ==> m in models' && ModelStepOk(models[m], models'[m], t, pc, m))
    && (forall m :: m in models' && m !in models ==> HoldsExcl(pc, Mu) && models'[m].closer.None?)
  }

  /** The thread ends the instance, or its build. */
  predicate TearsDown(sh: Shared, t: nat, pc: Pc) {
    (sh.closed && HoldsExcl(pc, InstClose)) || (sh.builder == Some(t) && HoldsExcl(pc, Hands))
  }

  /** The flags of a teardown. */
  predicate TeardownStep(sh: Shared, sh': Shared, t: nat, pc: Pc) {
    && (sh.closed ==> sh'.closed)
    && (sh'.closed != sh.closed || sh'.closer != sh.closer || sh'.torn != sh.torn || sh'.closeErr != sh.closeErr ==>
          HoldsExcl(pc, InstClose) && Holds(pc, Hands))
    && (sh.torn ==> sh'.torn && sh'.closeErr == sh.closeErr)
    && (sh'.closer != sh.closer ==> sh.closer.None? && sh'.closer == Some(t))
    && (sh.taken ==> sh'.taken)
    && (sh'.taken != sh.taken ==>
          HoldsExcl(pc, CtxMu) && TearsDown(sh, t, pc) && (HoldsExcl(pc, Mu) || HoldsExcl(pc, Hands)))
    && (EngineReleased(sh) ==> EngineReleased(sh'))
    && (EngineReleased(sh') && !EngineReleased(sh) ==> TearsDown(sh, t, pc))
    && (Preserved(sh) ==> Preserved(sh'))
  }

  /** The marks of traps, and who forks or builds. */
  ghost predicate MarksStep(sh: Shared, sh': Shared, t: nat, pc: Pc) {
    && (sh.wedged ==> sh'.wedged)
    && (sh'.trapBy != sh.trapBy ==>
          sh.trapBy.None? && sh'.trapBy == Some(t) && (sh.taken && sh.published ==> !AllFreed(sh.ctxs))
          && (sh.builder.Some? ==> Holds(pc, Hands)))
    && (sh.published ==> sh'.published)
    && (sh'.published != sh.published ==> sh.forker == Some(t))
    && sh'.forker == sh.forker
    && sh'.builder == sh.builder
  }

  /** The engine and its swap. */
  predicate EngineStep(sh: Shared, sh': Shared, t: nat, pc: Pc) {
    && (sh'.eng != sh.eng || sh'.engines != sh.engines || sh'.loaded != sh.loaded ==>
          Holds(pc, Hands) && (HoldsExcl(pc, Mu) || HoldsExcl(pc, Hands)))
    && (sh'.swaps != sh.swaps || sh'.swapper != sh.swapper ==> HoldsExcl(pc, Mu))
    && (sh'.swapper != sh.swapper ==>
          (sh.swapper.None? || sh.swapper == Some(t)) && (sh'.swapper.None? || sh'.swapper == Some(t)))
    && sh.loaded <= sh'.loaded
    && sh.swaps <= sh'.swaps
    && (sh.taken || sh.loaded > 0 ==> sh'.eng == sh.eng)
  }

  ghost predicate InstStep(sh: Shared, sh': Shared, t: nat, pc: Pc) {
    TeardownStep(sh, sh', t, pc) && MarksStep(sh, sh', t, pc) && EngineStep(sh, sh', t, pc)
  }
}
