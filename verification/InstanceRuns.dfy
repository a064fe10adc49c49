/**
 The steps of an instance's threads as a transition system: which steps lead where,
 the states an instance begins in, and its runs.
 */
module InstanceRuns {
  import opened Options
  import opened InstanceState
  import opened InstanceSteps
  import V = SlotsView

  // ----- one step -------------------------------------------------------------------

  predicate CallLeads(sh: Shared, t: nat, p: CallPc, l: CallStep, n: Local) {
    CallEnabled(sh, t, p, l) && n == CallNext(sh, t, p, l)
  }

  predicate FreeLeads(sh: Shared, t: nat, c: nat, k: Kont, f: FreePc, l: FreeStep, n: Local) {
    FreeEnabled(sh, c, f, l) && n == FreeNext(sh, t, c, k, f, l)
  }

  predicate NewLeads(sh: Shared, t: nat, p: NewPc, l: NewStep, n: Local) {
    NewEnabled(sh, p, l) && n == NewNext(sh, t, p, l)
  }

  predicate ModelLeads(sh: Shared, t: nat, p: ModelPc, l: ModelStep, n: Local) {
    ModelEnabled(sh, p, l) && n == ModelNext(sh, t, p, l)
  }

  predicate CloseLeads(sh: Shared, t: nat, p: InstPc, l: CloseStep, n: Local) {
    CloseEnabled(sh, p, l) && n == CloseNext(sh, t, p, l)
  }

  predicate LoadLeads(sh: Shared, t: nat, p: LoadPc, l: LoadStep, n: Local) {
    LoadEnabled(sh, p, l) && n == LoadNext(sh, t, p, l)
  }

  predicate ForkLeads(sh: Shared, t: nat, p: ForkPc, l: ForkStep, n: Local) {
    ForkEnabled(p, l) && n == ForkNext(sh, t, p, l)
  }

  predicate KeepLeads(sh: Shared, t: nat, c: nat, job: Job, k: KeepPc, l: KeepStep, n: Local) {
    KeepEnabled(sh, c, k, l) && n == KeepNext(sh, t, c, job, k, l)
  }

  predicate RetireLeads(sh: Shared, p: RetirePc, l: RetireStep, n: Local) {
    RetireEnabled(sh, p, l) && n == RetireNext(sh, p, l)
  }

  predicate Leads(sh: Shared, t: nat, pc: Pc, l: Step, n: Local) {
    Enabled(sh, t, pc, l) && n == Do(sh, t, pc, l)
  }

  /** Thread t takes step l: the locks it then holds are free of the other threads. */
  ghost predicate ThreadStep(s: State, s': State, t: nat, l: Step, n: Local) {
    && t in s.threads && Leads(s.sh, t, s.threads[t], l, n)
    && (forall u :: u in s.threads && u != t ==> Compatible(s.threads[u], n.pc))
    && s' == State(n.sh, s.threads[t := n.pc])
  }

  ghost predicate SlotsStep(s: State, s': State, sid: nat, l: V.ViewStep) {
    SlotsEnabled(s.sh, sid, l) && s' == s.(sh := SlotsNext(s.sh, sid, l))
  }

  /** The finalizer of an image's builder runs. */
  predicate FinalizerStep(s: State, s': State) {
    && s.sh.eng in s.sh.engines && s.sh.engines[s.sh.eng].released && s.sh.engines[s.sh.eng].finalizer
    && s' == s.(sh := SetEngine(s.sh, Finalized(s.sh.engines[s.sh.eng])))
  }

  ghost predicate Next(s: State, s': State) {
    || (exists t, l, n :: ThreadStep(s, s', t, l, n))
    || (exists sid, l :: SlotsStep(s, s', sid, l))
    || FinalizerStep(s, s')
  }

  /** New: one engine, nothing loaded. */
  ghost predicate InitNew(s: State) {
    && s.sh == Shared(false, {}, false, {}, map[], map[], map[], 0, map[0 := NewEngine(false)], 0, true,
                      None, false, false, None, 0, None, None, None)
    && forall t :: t in s.threads ==> s.threads[t].Idle?
  }

  /** Fork: the contexts of the snapshot are live, and one thread, Fork's own,
      attaches their pools before it hands the instance out. */
  ghost predicate InitFork(s: State, t: nat) {
    && (forall c :: c in s.sh.ctxs ==>
          s.sh.ctxs[c] == Fresh(s.sh.ctxs[c].model, None) && s.sh.ctxs[c].model in s.sh.models)
    && (forall m :: m in s.sh.models ==> s.sh.models[m] == Model(false, {}, 0, Live, None, false))
    && s.sh == Shared(false, {}, false, s.sh.ctxs.Keys, s.sh.ctxs, s.sh.models, map[], 0, map[0 := NewEngine(false)],
                      |s.sh.models|, false, None, false, false, None, 0, None, Some(t), None)
    && s.sh.models != map[]
    && t in s.threads && s.threads[t] == OnFork(Attach(s.sh.ctxs.Keys))
    && forall u :: u in s.threads && u != t ==> s.threads[u].Idle?
  }

  /** NewSnapshot: an engine in the image to be, and one thread that runs the callback;
      what the callback does to the instance, and what it leaves running, are the others. */
  ghost predicate InitBuild(s: State, t: nat) {
    && s.sh == Shared(false, {}, false, {}, map[], map[], map[], 0, map[0 := NewEngine(true)], 0, true,
                      None, false, false, None, 0, None, None, Some(t))
    && t in s.threads && s.threads[t] == OnRetire(Building({}))
    && forall u :: u in s.threads && u != t ==> s.threads[u].Idle?
  }

  ghost predicate Init(s: State) { InitNew(s) || (exists t :: InitFork(s, t)) || exists t :: InitBuild(s, t) }

  /** The i-th state of a run is an initial one, or follows the one before. */
  ghost predicate Reached(run: seq<State>, i: int)
    requires 0 <= i < |run|
  {
    if i == 0 then Init(run[0]) else Next(run[i - 1], run[i])
  }

  /** A run: consecutive states, from an initial one. */
  ghost predicate Run(run: seq<State>) { run != [] && forall i :: 0 <= i < |run| ==> Reached(run, i) }
}
