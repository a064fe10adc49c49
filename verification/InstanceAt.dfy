/**
 What a thread may rely on at its program counter, operation by operation.
 */
module InstanceAt {
  import opened Options
  import opened InstanceState
  import opened InstanceSteps
  import opened InstanceInvariant
  import opened InstanceFacts
  import V = SlotsView

  ghost predicate FreeAt(sh: Shared, t: nat, c: nat, k: Kont, f: FreePc) {
    HandedOut(sh.ctxs, c) && KontAt(sh, t, c, k) && FreeFacts(sh, t, c, f)
  }

  ghost predicate CallAt(sh: Shared, t: nat, p: CallPc) {
    && (forall c :: c in p.cs ==> c in sh.ctxs)
    && match p
       case Want(cs, k) => k < |cs| && Ascending(cs) && CallableBelow(sh, cs, k)
       case Got(cs, k) => k < |cs| && Ascending(cs) && CallableBelow(sh, cs, k) && Settled(sh, cs[k])
       case In(cs) => AllCallable(sh, cs)
       case Posting(cs, sid) =>
         AllCallable(sh, cs) && sid in sh.slots && sh.slots[sid].ctx in cs && sh.slots[sid].view.engine == V.ByPost(t)
       case Out(cs, k) => k <= |cs|
  }

  ghost predicate IntAt(sh: Shared, p: IntPc) {
    match p
    case IWant(c) => c in sh.ctxs
    case IGot(c) => Settled(sh, c)
    case IWrite(c) => Alive(sh, c)
    case IOut(_) => true
  }

  ghost predicate NewAt(sh: Shared, t: nat, p: NewPc) {
    && p.m in sh.models
    && (!p.NWant? && !p.NGot? ==> sh.models[p.m].guest.Live?)
    && (p.NCall? || p.NNote? || p.NAddr? ==> !sh.taken)
    && (p.NNote? && p.res.Trap? ==> sh.trapBy.Some?)
    && (p.NAddr? ==> Callable(sh, p.c) && sh.ctxs[p.c].model == p.m && sh.ctxs[p.c].maker == Some(t))
  }

  ghost predicate ModelAt(sh: Shared, t: nat, p: ModelPc) {
    p.m in sh.models &&
    match p
    case MWant(_) => true
    case MGot(m) => sh.models[m].closed ==> sh.models[m].torn
    case MCalls(m) => ClosingModel(sh, t, m)
    case MMu(m) => ClosingModel(sh, t, m)
    case MLook(m) => ClosingModel(sh, t, m) && AllHandedOut(sh.ctxs, sh.ctxs.Keys)
    case MFree(m, rest, _) => ClosingModel(sh, t, m) && AllHandedOut(sh.ctxs, rest) && CoveredBy(sh, m, rest)
    case MCall(m, _) => ClosingModel(sh, t, m) && CoveredBy(sh, m, {})
    case MStore(m, _) => ClosingModel(sh, t, m) && (sh.models[m].guest.Gone? || sh.closed)
    case MRet(m, err) => sh.models[m].torn && sh.models[m].closeErr == err
    case MOut(m, err) => sh.models[m].torn && sh.models[m].closeErr == err
    case ModelClosed(m, err) => sh.models[m].torn && sh.models[m].closeErr == err
  }

  ghost predicate InstAt(sh: Shared, t: nat, p: InstPc) {
    sh.published && (sh.taken ==> sh.closed) &&
    match p
    case LWant => true
    case LGot => sh.closed ==> sh.torn
    case LMu => ClosingInst(sh, t) && !sh.taken
    case LRec => ClosingInst(sh, t) && !sh.taken
    case LTake => ClosingInst(sh, t) && !sh.taken && AllHandedOut(sh.ctxs, sh.ctxs.Keys)
    case LFree(rest, _) => ClosingInst(sh, t) && sh.taken && AllHandedOut(sh.ctxs, rest) && AllCoveredBy(sh, rest)
    case LRelease(_) => ClosingInst(sh, t) && sh.taken && AllFreed(sh.ctxs) && sh.trapBy.None?
    case LAbandon(_) => ClosingInst(sh, t) && sh.taken && AllFreed(sh.ctxs)
    case LStore(err) => sh.closer == Some(t) && !sh.torn && EngineReleased(sh) && KeptIsReported(sh, err)
    case LRet(err) => sh.torn && sh.closeErr == err
    case InstClosed(err) => sh.torn && sh.closeErr == err
  }

  ghost predicate LoadAt(sh: Shared, t: nat, p: LoadPc) {
    match p
    case OGot => sh.swapper.None?
    case OIn => sh.swapper.None? && !sh.taken
    case OSwapped(e) =>
      sh.swapper == Some(t) && !sh.taken && sh.models == map[] && sh.loaded == 0 && e != sh.eng && e in sh.engines
    case _ => true
  }

  ghost predicate ForkAt(sh: Shared, t: nat, p: ForkPc) {
    && sh.forker == Some(t) && sh.builder.None? && !sh.published && sh.loaded > 0
    && (p.ANote? && p.res.Trap? ==> sh.trapBy.Some?)
  }

  ghost predicate KeepingAt(sh: Shared, t: nat, c: nat, job: Job, k: KeepPc) { KeepAt(sh, t, c, job) && KeepFacts(sh, c, k) }

  ghost predicate RetireAt(sh: Shared, t: nat, p: RetirePc) {
    match p
    case Building(kept) => BuildAt(sh, t, kept)
    case RRec(job) => BuildAt(sh, t, job.kept) && OpenOrTorn(sh) && Unstarted(job)
    case RTake(job) => BuildAt(sh, t, job.kept) && OpenOrTorn(sh) && Unstarted(job) && AllHandedOut(sh.ctxs, sh.ctxs.Keys)
    case RLoop(job) => JobAt(sh, t, job, job.rest)
    case RJudge(job) => JobDone(sh, t, job) && OpenOrTorn(sh)
    case RFail(job) => JobDone(sh, t, job) && OpenOrTorn(sh) && sh.trapBy.None? && Fails(job)
    case RPreserve(job) => JobDone(sh, t, job) && OpenOrTorn(sh) && sh.trapBy.Some?
    case RAbandon(job, out) => JobDone(sh, t, job) && OpenOrTorn(sh) && OutcomeAt(sh, job, out)
    case Retired(job, out) => JobDone(sh, t, job) && EngineReleased(sh) && OutcomeAt(sh, job, out)
  }
}
