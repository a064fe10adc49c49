/**
 What the parts of an operation rely on: whoever called freeContext, freeContext and
 retireKept themselves, and the end of a build.
 */
module InstanceFacts {
  import opened Options
  import opened InstanceState
  import opened InstanceSteps
  import opened InstanceInvariant

  ghost predicate KontAt(sh: Shared, t: nat, c: nat, k: Kont)
    requires c in sh.ctxs
  {
    match k
    case KCtx => true
    case KModel(m, rest, _) => ClosingModel(sh, t, m) && AllHandedOut(sh.ctxs, rest) && CoveredBy(sh, m, rest + {c})
    case KInst(rest, _) => ClosingInst(sh, t) && sh.taken && AllHandedOut(sh.ctxs, rest) && AllCoveredBy(sh, rest + {c})
    case KNew(m) => m in sh.models && sh.models[m].guest.Live? && !sh.taken && sh.ctxs[c].model == m
    case KRetire(job) => c !in job.rest && JobAt(sh, t, job, job.rest + {c})
  }

  ghost predicate FreeFacts(sh: Shared, t: nat, c: nat, f: FreePc)
    requires c in sh.ctxs
  {
    match f
    case FStart => true
    case FSpin => sh.ctxs[c].closed
    case FIntWant => sh.ctxs[c].closed
    case FIntGot => sh.ctxs[c].closed && Settled(sh, c)
    case FIntWrite => sh.ctxs[c].closed && Alive(sh, c)
    case FHeld => sh.ctxs[c].closed && Settled(sh, c)
    case FSlots(s) => sh.ctxs[c].closed && Alive(sh, c) && OthersQuiet(sh.slots, c, s)
    case FWait(s) => sh.ctxs[c].closed && Alive(sh, c) && OthersQuiet(sh.slots, c, s) && sh.slots[s].view.closed
    case FImu => sh.ctxs[c].closed && Alive(sh, c) && SlotsQuiet(sh.slots, c)
    case FCall => sh.ctxs[c].closed && Alive(sh, c) && SlotsQuiet(sh.slots, c)
    case FFreeing => sh.ctxs[c].busy == Some(t) && sh.ctxs[c].guest.Freeing?
    case FNote(res, _) => sh.ctxs[c].busy == Some(t) && sh.ctxs[c].guest.Gone? && (res.Trap? ==> sh.trapBy.Some?)
    case FStore(_) => sh.ctxs[c].busy == Some(t) && sh.ctxs[c].guest.Gone?
    case FUnlock(err) => sh.ctxs[c].freed && sh.ctxs[c].closeErr == err
    case FDone(err) => sh.ctxs[c].freed && sh.ctxs[c].closeErr == err
  }

  ghost predicate KeepFacts(sh: Shared, c: nat, k: KeepPc)
    requires c in sh.ctxs
  {
    match k
    case KpStart => true
    case KpWant => sh.ctxs[c].closed
    case KpHeld => sh.ctxs[c].closed
    case KpSlots(s) => sh.ctxs[c].closed && OthersQuiet(sh.slots, c, s)
    case KpWait(s) => sh.ctxs[c].closed && OthersQuiet(sh.slots, c, s) && sh.slots[s].view.closed
    case KpCall => sh.ctxs[c].closed && SlotsQuiet(sh.slots, c)
    case KpPool => sh.ctxs[c].closed && SlotsQuiet(sh.slots, c)
    case KpNote(res, err) => (res.Trap? ==> sh.trapBy.Some?) && (err == {} ==> sh.ctxs[c].retired)
    case KpDone(err) => err == {} ==> sh.ctxs[c].retired
  }

  ghost predicate KeepAt(sh: Shared, t: nat, c: nat, job: Job) {
    Keeps(job, c) && c !in job.rest && Alive(sh, c) && JobAt(sh, t, job, job.rest + {c})
  }

  /** Before the record is taken over, unless Close has done so. */
  ghost predicate BuildAt(sh: Shared, t: nat, kept: set<nat>) {
    sh.builder == Some(t) && (sh.taken ==> sh.closed) && AllHandedOut(sh.ctxs, kept)
  }

  predicate Unstarted(job: Job) { job.rest == {} && job.errs == {} && (job.kept == {} ==> job.all) }

  /** No context is left to retire. */
  ghost predicate JobDone(sh: Shared, t: nat, job: Job) {
    && sh.builder == Some(t) && sh.taken && (sh.closed ==> sh.torn) && Retiring(sh, job, {})
    && (!Fails(job) ==> job.kept != {} && forall c :: c in job.kept ==> c in sh.ctxs && !sh.ctxs[c].freed)
  }

  /** What the outcome of a build says of the engine. */
  predicate OutcomeAt(sh: Shared, job: Job, out: Outcome) {
    match out
    case Sealed => sh.trapBy.None? && !Fails(job)
    case Failed => sh.trapBy.None? && Fails(job) && sh.eng in sh.engines && sh.engines[sh.eng].unmapped
    case LeftMapped => sh.trapBy.Some? && (!sh.closed ==> Preserved(sh))
  }
}
