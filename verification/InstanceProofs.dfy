/**
 Every step of every thread, and of every Slots, keeps the invariant. A step is
 looked at by itself first: it keeps what the threads share in order, what its
 own thread relies on, and the guarantee; `InstanceGuarantee.Stable` then covers
 the other threads.
 */
module InstanceProofs {
  import opened Options
  import opened InstanceState
  import opened InstanceSteps
  import opened InstanceRuns
  import opened InstanceInvariant
  import opened InstanceFacts
  import opened InstanceAt
  import opened InstanceMoves
  import opened InstanceSpec
  import opened InstanceGuarantee
  import E = EngineProtocol
  import V = SlotsView

  // ----- what holding a lock tells of the other threads ------------------------------

  /** A lock of the context is held, or the build's end: nobody else is freeing it. */
  predicate NotFreedByOthers(sh: Shared, t: nat, pc: Pc, c: nat) {
    c in sh.ctxs && (Holds(pc, CtxCalls(c)) || Holds(pc, IntMu(c)) || HoldsExcl(pc, Hands)) ==>
      sh.ctxs[c].busy.None? || sh.ctxs[c].busy == Some(t)
  }

  /** The lock of the contexts' record is held: nobody else is creating a context. */
  predicate NotMadeByOthers(sh: Shared, t: nat, pc: Pc, c: nat) {
    c in sh.ctxs && HoldsExcl(pc, CtxMu) ==> sh.ctxs[c].maker.None? || sh.ctxs[c].maker == Some(t)
  }

  predicate NotClosedByOthers(sh: Shared, t: nat, pc: Pc, m: nat) {
    m in sh.models && HoldsExcl(pc, ModelClose(m)) ==>
      sh.models[m].closer.None? || sh.models[m].torn || sh.models[m].closer == Some(t)
  }

  predicate InstNotClosedByOthers(sh: Shared, t: nat, pc: Pc) {
    HoldsExcl(pc, InstClose) || HoldsExcl(pc, Hands) ==> sh.closer.None? || sh.torn || sh.closer == Some(t)
  }

  predicate NotSwappedByOthers(sh: Shared, t: nat, pc: Pc) {
    HoldsExcl(pc, Mu) ==> sh.swapper.None? || sh.swapper == Some(t)
  }

  /** The builder is still in use: its end has not begun. */
  predicate NotRetiredByOthers(sh: Shared, t: nat, pc: Pc) {
    Holds(pc, Hands) && sh.builder.Some? && sh.builder != Some(t) ==> (sh.taken ==> sh.closed)
  }

  /** The end of a build finds every trap noted. */
  predicate BuildTrapsNoted(sh: Shared, t: nat, pc: Pc) {
    HoldsExcl(pc, Hands) && sh.builder.Some? && sh.trapBy.Some? && sh.trapBy != Some(t) ==> sh.wedged
  }

  /** A trap that is still to be noted belongs to a thread that has a context, the
      record or the fork in hand. */
  ghost predicate TrapsNoted(sh: Shared, t: nat) {
    sh.trapBy.Some? && sh.trapBy != Some(t) && !sh.wedged ==> !(sh.taken && sh.published && AllFreed(sh.ctxs))
  }

  /** What the locks held at pc exclude. */
  ghost predicate Unlocked(sh: Shared, t: nat, pc: Pc) {
    && (forall c :: NotFreedByOthers(sh, t, pc, c))
    && (forall c :: NotMadeByOthers(sh, t, pc, c))
    && (forall m :: NotClosedByOthers(sh, t, pc, m))
    && InstNotClosedByOthers(sh, t, pc)
    && NotSwappedByOthers(sh, t, pc)
    && NotRetiredByOthers(sh, t, pc)
    && BuildTrapsNoted(sh, t, pc)
    && TrapsNoted(sh, t)
  }

  lemma ThreadIsOk(s: State, t: nat)
    requires AllOk(s.sh, s.threads) && t in s.threads
    ensures ThreadOk(s.sh, t, s.threads[t])
  {}

  lemma FreeingHolds(sh: Shared, u: nat, q: Pc, c: nat)
    requires c in sh.ctxs && sh.ctxs[c].busy == Some(u) && OwnedBy(sh, u, q)
    ensures HoldsExcl(q, CtxCalls(c)) && HoldsExcl(q, IntMu(c)) && Holds(q, Hands)
  {
    assert MidFree(q, c);
  }

  lemma MakingHolds(sh: Shared, u: nat, q: Pc, c: nat)
    requires c in sh.ctxs && sh.ctxs[c].maker == Some(u) && OwnedBy(sh, u, q)
    ensures HoldsExcl(q, CtxMu)
  {
    assert Making(q, c);
  }

  lemma TearingModelHolds(q: Pc, m: nat)
    requires TearingModel(q, m)
    ensures HoldsExcl(q, ModelClose(m))
  {}

  lemma TearingInstHolds(q: Pc)
    requires TearingInst(q)
    ensures HoldsExcl(q, InstClose) && HoldsShared(q, Hands)
  {}

  lemma NotingHolds(sh: Shared, u: nat, q: Pc)
    requires At(sh, u, q) && Noting(q) && CtxsInv(sh.ctxs, sh.models)
    ensures !(sh.taken && sh.published && AllFreed(sh.ctxs))
  {
    assert q.Free? ==> CtxOk(sh.ctxs[q.c]);
  }

  lemma NotingHasHands(sh: Shared, u: nat, q: Pc)
    requires At(sh, u, q) && Noting(q) && sh.builder.Some?
    ensures Holds(q, Hands)
  {}

  /** A thread that holds a lock excludes that another one holds it exclusively. */
  lemma HeldElsewhere(p: Pc, q: Pc, l: Lock)
    requires Compatible(p, q) && HoldsExcl(p, l)
    ensures !HoldsExcl(q, l) && !HoldsShared(q, l)
  {}

  lemma CtxLocksExclude(s: State, t: nat, pc: Pc, c: nat)
    requires Named(s.sh, s.threads.Keys) && AllOk(s.sh, s.threads)
    requires forall u :: u in s.threads && u != t ==> Compatible(s.threads[u], pc)
    ensures NotFreedByOthers(s.sh, t, pc, c)
  {
    if c in s.sh.ctxs && s.sh.ctxs[c].busy.Some? && s.sh.ctxs[c].busy != Some(t) {
      var u := s.sh.ctxs[c].busy.value;
      ThreadIsOk(s, u);
      FreeingHolds(s.sh, u, s.threads[u], c);
      HeldElsewhere(s.threads[u], pc, CtxCalls(c));
      HeldElsewhere(s.threads[u], pc, IntMu(c));
      assert Compatible(s.threads[u], pc);
    }
  }

  lemma RecordLockExcludes(s: State, t: nat, pc: Pc, c: nat)
    requires Named(s.sh, s.threads.Keys) && AllOk(s.sh, s.threads)
    requires forall u :: u in s.threads && u != t ==> Compatible(s.threads[u], pc)
    ensures NotMadeByOthers(s.sh, t, pc, c)
  {
    if c in s.sh.ctxs && s.sh.ctxs[c].maker.Some? && s.sh.ctxs[c].maker != Some(t) {
      var u := s.sh.ctxs[c].maker.value;
      ThreadIsOk(s, u);
      MakingHolds(s.sh, u, s.threads[u], c);
      HeldElsewhere(s.threads[u], pc, CtxMu);
    }
  }

  lemma ModelLocksExclude(s: State, t: nat, pc: Pc, m: nat)
    requires Named(s.sh, s.threads.Keys) && AllOk(s.sh, s.threads)
    requires forall u :: u in s.threads && u != t ==> Compatible(s.threads[u], pc)
    ensures NotClosedByOthers(s.sh, t, pc, m)
  {
    if m in s.sh.models && s.sh.models[m].closer.Some? && !s.sh.models[m].torn && s.sh.models[m].closer != Some(t) {
      var u := s.sh.models[m].closer.value;
      ThreadIsOk(s, u);
      TearingModelHolds(s.threads[u], m);
      assert Compatible(s.threads[u], pc);
    }
  }

  lemma CloseLockExcludes(s: State, t: nat, pc: Pc)
    requires Named(s.sh, s.threads.Keys) && AllOk(s.sh, s.threads)
    requires forall u :: u in s.threads && u != t ==> Compatible(s.threads[u], pc)
    ensures InstNotClosedByOthers(s.sh, t, pc)
  {
    if s.sh.closer.Some? && !s.sh.torn && s.sh.closer != Some(t) {
      var u := s.sh.closer.value;
      ThreadIsOk(s, u);
      TearingInstHolds(s.threads[u]);
      HeldElsewhere(s.threads[u], pc, InstClose);
      assert Compatible(s.threads[u], pc);
    }
  }

  lemma LoadLockExcludes(s: State, t: nat, pc: Pc)
    requires Named(s.sh, s.threads.Keys) && AllOk(s.sh, s.threads)
    requires forall u :: u in s.threads && u != t ==> Compatible(s.threads[u], pc)
    ensures NotSwappedByOthers(s.sh, t, pc)
  {
    if s.sh.swapper.Some? && s.sh.swapper != Some(t) {
      var u := s.sh.swapper.value;
      ThreadIsOk(s, u);
      assert Swapping(s.threads[u]);
      HeldElsewhere(s.threads[u], pc, Mu);
    }
  }

  lemma BuildExcludes(s: State, t: nat, pc: Pc)
    requires Named(s.sh, s.threads.Keys) && AllOk(s.sh, s.threads)
    requires forall u :: u in s.threads && u != t ==> Compatible(s.threads[u], pc)
    ensures NotRetiredByOthers(s.sh, t, pc)
  {
    if s.sh.builder.Some? && s.sh.builder != Some(t) && s.sh.taken && !s.sh.closed {
      var u := s.sh.builder.value;
      ThreadIsOk(s, u);
      assert HoldsExcl(s.threads[u], Hands) && Compatible(s.threads[u], pc);
    }
  }

  lemma BuildTrapsAreNoted(s: State, t: nat, pc: Pc)
    requires Named(s.sh, s.threads.Keys) && AllOk(s.sh, s.threads)
    requires forall u :: u in s.threads && u != t ==> Compatible(s.threads[u], pc)
    ensures BuildTrapsNoted(s.sh, t, pc)
  {
    if s.sh.builder.Some? && s.sh.trapBy.Some? && s.sh.trapBy != Some(t) && !s.sh.wedged {
      var u := s.sh.trapBy.value;
      ThreadIsOk(s, u);
      NotingHasHands(s.sh, u, s.threads[u]);
      assert Compatible(s.threads[u], pc);
    }
  }

  lemma TrapsAreNoted(s: State, t: nat)
    requires Named(s.sh, s.threads.Keys) && AllOk(s.sh, s.threads) && CtxsInv(s.sh.ctxs, s.sh.models)
    ensures TrapsNoted(s.sh, t)
  {
    if s.sh.trapBy.Some? && !s.sh.wedged && s.sh.trapBy != Some(t) {
      var u := s.sh.trapBy.value;
      ThreadIsOk(s, u);
      NotingHolds(s.sh, u, s.threads[u]);
    }
  }

  lemma LocksExclude(s: State, t: nat, pc: Pc)
    requires Inv(s)
    requires forall u :: u in s.threads && u != t ==> Compatible(s.threads[u], pc)
    ensures Unlocked(s.sh, t, pc)
  {
    forall c ensures NotFreedByOthers(s.sh, t, pc, c) && NotMadeByOthers(s.sh, t, pc, c) {
      CtxLocksExclude(s, t, pc, c);
      RecordLockExcludes(s, t, pc, c);
    }
    forall m ensures NotClosedByOthers(s.sh, t, pc, m) {
      ModelLocksExclude(s, t, pc, m);
    }
    CloseLockExcludes(s, t, pc);
    LoadLockExcludes(s, t, pc);
    BuildExcludes(s, t, pc);
    BuildTrapsAreNoted(s, t, pc);
    TrapsAreNoted(s, t);
  }

  // ----- one step of a thread, by itself ------------------------------------------------

  /** What a step of thread t starts from; pc' is where it leads. */
  ghost predicate Before(sh: Shared, t: nat, pc: Pc, pc': Pc) {
    SharedInv(sh) && ThreadOk(sh, t, pc) && Unlocked(sh, t, pc')
  }

  /** What it has to establish. */
  ghost predicate After(sh: Shared, sh': Shared, t: nat, pc: Pc, pc': Pc) {
    SharedInv(sh') && ThreadOk(sh', t, pc') && Guarantee(sh, sh', t, pc)
  }

  /** What the thread of a step relies on. */
  lemma ItsOwn(sh: Shared, t: nat, pc: Pc, pc': Pc)
    requires Before(sh, t, pc, pc')
    ensures SharedInv(sh) && At(sh, t, pc) && OwnedBy(sh, t, pc) && PostsBy(sh, t, pc) && Unlocked(sh, t, pc')
  {}

  lemma Unchanged(sh: Shared, t: nat, pc: Pc)
    ensures Guarantee(sh, sh, t, pc)
  {}

  /** An open instance that another thread builds is not at its end while a thread
      creates, closes or loads. */
  lemma OpenMeansUntaken(sh: Shared, t: nat, pc: Pc, pc': Pc)
    requires FlagsInv(sh) && OwnedBy(sh, t, pc) && Unlocked(sh, t, pc') && Holds(pc', Hands) && !Builds(pc)
    ensures !sh.closed ==> !sh.taken
  {
    assert NotRetiredByOthers(sh, t, pc');
  }

  lemma StartAt(sh: Shared, t: nat, l: StartStep)
    requires StartEnabled(sh, l) && (l.LEnter? ==> sh.taken ==> sh.closed)
    ensures At(sh, t, Start(l))
  {}

  lemma StartOwned(sh: Shared, t: nat, l: StartStep)
    requires OwnedBy(sh, t, Idle) && PostsBy(sh, t, Idle)
    ensures OwnedBy(sh, t, Start(l)) && PostsBy(sh, t, Start(l))
  {}

  lemma StartKeeps(sh: Shared, t: nat, l: StartStep)
    requires StartEnabled(sh, l) && Before(sh, t, Idle, Start(l))
    ensures After(sh, sh, t, Idle, Start(l))
  {
    Unchanged(sh, t, Idle);
    if l.LEnter? {
      OpenMeansUntaken(sh, t, Idle, Start(l));
    }
    StartAt(sh, t, l);
    StartOwned(sh, t, l);
  }

  lemma ViewSlots(ctxs: map<nat, Ctx>, slots: map<nat, SlotsRec>, sid: nat, v: V.View)
    requires SlotsInv(ctxs, slots) && QuietInv(ctxs, slots) && sid in slots
    requires ViewOk(v) && v.phase == slots[sid].view.phase && (SlotsOff(slots[sid]) ==> v.engine.Idle?)
    ensures SlotsInv(ctxs, slots[sid := slots[sid].(view := v)]) && QuietInv(ctxs, slots[sid := slots[sid].(view := v)])
  {}

  /** The engine and phase of one Slots change. */
  lemma ViewShared(sh: Shared, sid: nat, v: V.View)
    requires SharedInv(sh) && sid in sh.slots && ViewOk(v) && v.phase == sh.slots[sid].view.phase
    requires SlotsOff(sh.slots[sid]) ==> v.engine.Idle?
    ensures SharedInv(SetView(sh, sid, v))
  {
    ViewSlots(sh.ctxs, sh.slots, sid, v);
  }

  lemma OneViewChanges(slots: map<nat, SlotsRec>, t: nat, pc: Pc, sid: nat, v: V.View)
    requires sid in slots && ViewStep(slots[sid].view, v, t)
    ensures SlotsStepOk(slots, slots[sid := slots[sid].(view := v)], t, pc)
  {}

  lemma OnlySlotsChange(sh: Shared, t: nat, pc: Pc, slots: map<nat, SlotsRec>)
    requires SlotsStepOk(sh.slots, slots, t, pc)
    ensures Guarantee(sh, sh.(slots := slots), t, pc)
  {
    Unchanged(sh, t, pc);
  }

  lemma ViewGuarantees(sh: Shared, t: nat, pc: Pc, sid: nat, v: V.View)
    requires sid in sh.slots && ViewStep(sh.slots[sid].view, v, t)
    ensures Guarantee(sh, SetView(sh, sid, v), t, pc)
  {
    OneViewChanges(sh.slots, t, pc, sid, v);
    OnlySlotsChange(sh, t, pc, sh.slots[sid := sh.slots[sid].(view := v)]);
  }

  /** The first Close of a Slots, or a later one. */
  lemma SlotsClosed(sh: Shared, t: nat, pc: Pc, sid: nat, sh': Shared)
    requires SharedInv(sh) && sid in sh.slots && V.Enabled(sh.slots[sid].view, V.SetClosed)
    requires sh' == SetView(sh, sid, V.Apply(sh.slots[sid].view, V.SetClosed))
    ensures SharedInv(sh') && Guarantee(sh, sh', t, pc)
  {
    assert ViewOk(sh.slots[sid].view);
    ViewShared(sh, sid, V.Apply(sh.slots[sid].view, V.SetClosed));
    ViewGuarantees(sh, t, pc, sid, V.Apply(sh.slots[sid].view, V.SetClosed));
  }

  lemma NewSlotsShared(sh: Shared, c: nat, sid: nat)
    requires SharedInv(sh) && Callable(sh, c) && sid !in sh.slots && sh.ctxs[c].slots.None?
    ensures SharedInv(SetCtx(sh, c, sh.ctxs[c].(slots := Some(sid)))
                        .(slots := sh.slots[sid := SlotsRec(c, V.View(false, V.Idle, V.Running))]))
  {
    var sh' := SetCtx(sh, c, sh.ctxs[c].(slots := Some(sid)))
                 .(slots := sh.slots[sid := SlotsRec(c, V.View(false, V.Idle, V.Running))]);
    assert CtxsInv(sh'.ctxs, sh'.models) && ModelsInv(sh'.ctxs, sh'.models, sh'.eng, sh'.closed);
    assert sh.builder.None? ==> !EngineReleased(sh);
    assert SlotsInv(sh'.ctxs, sh'.slots);
    assert QuietInv(sh'.ctxs, sh'.slots);
    assert RecordInv(sh'.ctxs, sh'.record, sh'.taken);
  }

  lemma NewSlotsGuarantees(sh: Shared, t: nat, pc: Pc, c: nat, sid: nat)
    requires c in sh.ctxs && sid !in sh.slots && HoldsShared(pc, CtxCalls(c))
    ensures Guarantee(sh, SetCtx(sh, c, sh.ctxs[c].(slots := Some(sid)))
                            .(slots := sh.slots[sid := SlotsRec(c, V.View(false, V.Idle, V.Running))]), t, pc)
  {
    Unchanged(sh, t, pc);
  }

  lemma UsableIsCallable(sh: Shared, cs: seq<nat>, k: nat)
    requires CtxsInv(sh.ctxs, sh.models) && k < |cs| && Usable(sh, cs[k]) && CallableBelow(sh, cs, k)
    ensures CallableBelow(sh, cs, k + 1) && (k + 1 == |cs| ==> AllCallable(sh, cs))
  {
    assert CtxOk(sh.ctxs[cs[k]]);
  }

  lemma CallAdmitsAt(sh: Shared, t: nat, p: CallPc, l: CallStep, n: Local)
    requires CallLeads(sh, t, p, l, n)
    requires l.Admit? && CtxsInv(sh.ctxs, sh.models) && CallAt(sh, t, p)
    ensures At(n.sh, t, n.pc)
  {
    UsableIsCallable(sh, p.cs, p.k);
  }

  lemma CallAcquiresAt(sh: Shared, t: nat, p: CallPc, l: CallStep, n: Local)
    requires CallLeads(sh, t, p, l, n)
    requires l.Acquire? && Before(sh, t, OnCall(p), n.pc)
    ensures At(n.sh, t, n.pc)
  {
    assert CallHolds(Got(p.cs, p.k), p.cs[p.k]);
    assert NotFreedByOthers(sh, t, OnCall(Got(p.cs, p.k)), p.cs[p.k]);
  }

  lemma CallMovesAt(sh: Shared, t: nat, p: CallPc, l: CallStep, n: Local)
    requires CallLeads(sh, t, p, l, n)
    requires !l.Admit? && !l.Acquire? && CallAt(sh, t, p)
    ensures At(n.sh, t, n.pc)
  {}

  lemma CallAtNext(sh: Shared, t: nat, p: CallPc, l: CallStep, n: Local)
    requires CallLeads(sh, t, p, l, n)
    requires Before(sh, t, OnCall(p), n.pc)
    ensures At(n.sh, t, n.pc)
  {
    if l.Admit? {
      CallAdmitsAt(sh, t, p, l, n);
    } else if l.Acquire? {
      CallAcquiresAt(sh, t, p, l, n);
    } else {
      CallMovesAt(sh, t, p, l, n);
    }
  }

  lemma CallSafe(sh: Shared, t: nat, p: CallPc, l: CallStep, n: Local)
    requires CallLeads(sh, t, p, l, n)
    requires Before(sh, t, OnCall(p), n.pc)
    ensures SharedInv(n.sh)
    ensures Guarantee(sh, n.sh, t, OnCall(p))
  {
    match l
    case NewSlots(sid) =>
      NewSlotsShared(sh, p.cs[0], sid);
      NewSlotsGuarantees(sh, t, OnCall(p), p.cs[0], sid);
    case PostBegin(sid) =>
      ViewShared(sh, sid, V.Apply(sh.slots[sid].view, V.PostBegin(t)));
      ViewGuarantees(sh, t, OnCall(p), sid, V.Apply(sh.slots[sid].view, V.PostBegin(t)));
    case PostEnd =>
      ViewShared(sh, p.sid, V.Apply(sh.slots[p.sid].view, V.CallEnd));
      ViewGuarantees(sh, t, OnCall(p), p.sid, V.Apply(sh.slots[p.sid].view, V.CallEnd));
    case _ => Unchanged(sh, t, OnCall(p));
  }

  lemma SlotsCallOwned(sh: Shared, t: nat, p: CallPc, l: CallStep, n: Local)
    requires CallLeads(sh, t, p, l, n)
    requires l.NewSlots? || l.PostBegin? || l.PostEnd?
    requires OwnedBy(sh, t, OnCall(p)) && PostsBy(sh, t, OnCall(p))
    ensures OwnedBy(n.sh, t, n.pc)
    ensures PostsBy(n.sh, t, n.pc)
  {}

  lemma CallOwned(sh: Shared, t: nat, p: CallPc, l: CallStep, n: Local)
    requires CallLeads(sh, t, p, l, n)
    requires OwnedBy(sh, t, OnCall(p)) && PostsBy(sh, t, OnCall(p))
    ensures OwnedBy(n.sh, t, n.pc)
    ensures PostsBy(n.sh, t, n.pc)
  {
    if l.NewSlots? || l.PostBegin? || l.PostEnd? {
      SlotsCallOwned(sh, t, p, l, n);
    }
  }

  lemma CallKeeps(sh: Shared, t: nat, p: CallPc, l: CallStep, n: Local)
    requires CallLeads(sh, t, p, l, n)
    requires Before(sh, t, OnCall(p), n.pc)
    ensures After(sh, n.sh, t, OnCall(p), n.pc)
  {
    CallSafe(sh, t, p, l, n);
    CallAtNext(sh, t, p, l, n);
    CallOwned(sh, t, p, l, n);
  }

  lemma InterruptAt(sh: Shared, t: nat, p: IntPc, l: IntStep)
    requires IntEnabled(sh, p, l) && SharedInv(sh) && IntAt(sh, p)
    requires OwnedBy(sh, t, OnInterrupt(p)) && Unlocked(sh, t, IntNext(sh, p, l))
    ensures At(sh, t, IntNext(sh, p, l))
  {
    if l.ICheck? {
      assert CtxOk(sh.ctxs[p.c]);
    } else if l.IAcquire? {
      assert NotFreedByOthers(sh, t, OnInterrupt(IGot(p.c)), p.c);
    }
  }

  lemma InterruptOwned(sh: Shared, t: nat, p: IntPc, l: IntStep)
    requires IntEnabled(sh, p, l) && OwnedBy(sh, t, OnInterrupt(p)) && PostsBy(sh, t, OnInterrupt(p))
    ensures OwnedBy(sh, t, IntNext(sh, p, l)) && PostsBy(sh, t, IntNext(sh, p, l))
  {}

  lemma InterruptKeeps(sh: Shared, t: nat, p: IntPc, l: IntStep)
    requires IntEnabled(sh, p, l) && Before(sh, t, OnInterrupt(p), IntNext(sh, p, l))
    ensures After(sh, sh, t, OnInterrupt(p), IntNext(sh, p, l))
  {
    Unchanged(sh, t, OnInterrupt(p));
    ItsOwn(sh, t, OnInterrupt(p), IntNext(sh, p, l));
    InterruptAt(sh, t, p, l);
    InterruptOwned(sh, t, p, l);
  }

  // ----- freeContext ---------------------------------------------------------------------

  lemma FateModels(ctxs: map<nat, Ctx>, models: map<nat, Model>, eng: nat, closed: bool, c: nat, x: Ctx)
    requires CtxsInv(ctxs, models) && ModelsInv(ctxs, models, eng, closed) && c in ctxs && CtxOk(x)
    requires x.model == ctxs[c].model && (ctxs[c].freed ==> x.freed)
    ensures CtxsInv(ctxs[c := x], models) && ModelsInv(ctxs[c := x], models, eng, closed)
  {}

  lemma FateSlots(ctxs: map<nat, Ctx>, slots: map<nat, SlotsRec>, c: nat, x: Ctx)
    requires SlotsInv(ctxs, slots) && QuietInv(ctxs, slots) && c in ctxs && x.slots == ctxs[c].slots
    requires InUse(x) || SlotsQuiet(slots, c)
    ensures SlotsInv(ctxs[c := x], slots) && QuietInv(ctxs[c := x], slots)
  {}

  /** The fate of one context changes under its two locks. */
  lemma FateEngine(sh: Shared, c: nat, x: Ctx)
    requires EngineInv(sh) && c in sh.ctxs && (sh.ctxs[c].freed ==> x.freed)
    ensures EngineInv(SetCtx(sh, c, x))
  {}

  lemma FateShared(sh: Shared, c: nat, x: Ctx)
    requires SharedInv(sh) && c in sh.ctxs && CtxOk(x)
    requires x.model == sh.ctxs[c].model && x.slots == sh.ctxs[c].slots && (sh.ctxs[c].freed ==> x.freed)
    requires InUse(x) || SlotsQuiet(sh.slots, c)
    ensures SharedInv(SetCtx(sh, c, x))
  {
    var sh' := SetCtx(sh, c, x);
    FateModels(sh.ctxs, sh.models, sh.eng, sh.closed, c, x);
    FateSlots(sh.ctxs, sh.slots, c, x);
    FateEngine(sh, c, x);
    assert RecordInv(sh'.ctxs, sh'.record, sh'.taken);
  }

  lemma OneCtxChanges(ctxs: map<nat, Ctx>, taken: bool, t: nat, pc: Pc, c: nat, x: Ctx)
    requires c in ctxs && CtxStep(ctxs[c], x, t, pc, c)
    ensures CtxsStep(ctxs, ctxs[c := x], taken, t, pc)
  {}

  lemma OnlyCtxsChange(sh: Shared, t: nat, pc: Pc, ctxs: map<nat, Ctx>)
    requires CtxsStep(sh.ctxs, ctxs, sh.taken, t, pc)
    ensures Guarantee(sh, sh.(ctxs := ctxs), t, pc)
  {
    Unchanged(sh, t, pc);
  }

  lemma FirstTrapStep(sh: Shared, sh': Shared, t: nat, pc: Pc, ctxs: map<nat, Ctx>)
    requires sh.trapBy.None? && !(sh.taken && sh.published && AllFreed(sh.ctxs))
        && (sh.builder.Some? ==> Holds(pc, Hands))
    requires sh' == sh.(ctxs := ctxs, trapBy := Some(t))
    ensures InstStep(sh, sh', t, pc)
  {
    assert TeardownStep(sh, sh', t, pc);
    assert EngineStep(sh, sh', t, pc);
    assert MarksStep(sh, sh', t, pc);
  }

  /** A managing call comes back, perhaps with a trap. */
  lemma CtxsAndTrapChange(sh: Shared, t: nat, pc: Pc, ctxs: map<nat, Ctx>, res: E.Result)
    requires CtxsStep(sh.ctxs, ctxs, sh.taken, t, pc) && !(sh.taken && sh.published && AllFreed(sh.ctxs))
        && Holds(pc, Hands)
    ensures Guarantee(sh, Trapped(sh.(ctxs := ctxs), t, res), t, pc)
  {
    OnlyCtxsChange(sh, t, pc, ctxs);
    if res.Trap? && sh.trapBy.None? {
      FirstTrapStep(sh, sh.(ctxs := ctxs, trapBy := Some(t)), t, pc, ctxs);
    }
  }

  lemma TrappedFields(sh: Shared, t: nat, res: E.Result)
    ensures Trapped(sh, t, res).ctxs == sh.ctxs && (res.Trap? ==> Trapped(sh, t, res).trapBy.Some?)
  {}

  lemma TrapShared(sh: Shared, t: nat, res: E.Result)
    requires SharedInv(sh) && sh.loaded > 0 && Mapped(sh)
    ensures SharedInv(Trapped(sh, t, res))
  {}

  lemma NoteSafe(sh: Shared, t: nat, pc: Pc, res: E.Result)
    requires SharedInv(sh) && (res.Trap? ==> sh.trapBy.Some?)
    ensures SharedInv(NoteTrap(sh, res)) && Guarantee(sh, NoteTrap(sh, res), t, pc)
  {
    Unchanged(sh, t, pc);
  }

  lemma CtxWrite(sh: Shared, t: nat, pc: Pc, c: nat, x: Ctx)
    requires SharedInv(sh) && c in sh.ctxs && CtxOk(x) && x.slots == sh.ctxs[c].slots
    requires InUse(x) || SlotsQuiet(sh.slots, c)
    requires CtxStep(sh.ctxs[c], x, t, pc, c)
    ensures SharedInv(SetCtx(sh, c, x)) && Guarantee(sh, SetCtx(sh, c, x), t, pc)
  {
    FateShared(sh, c, x);
    OneCtxChanges(sh.ctxs, sh.taken, t, pc, c, x);
    OnlyCtxsChange(sh, t, pc, sh.ctxs[c := x]);
  }

  /** The engine is there while a context is being freed. */
  lemma MappedWhileFreeing(sh: Shared, t: nat, c: nat, k: Kont, pc': Pc)
    requires Before(sh, t, Free(c, k, FFreeing), pc') && Holds(pc', Hands)
    ensures Mapped(sh)
  {
    assert CtxOk(sh.ctxs[c]);
    assert NotRetiredByOthers(sh, t, pc');
    assert sh.builder == Some(t) ==> k.KRetire?;
  }

  lemma LoadedWithContext(sh: Shared, c: nat)
    requires SharedInv(sh) && c in sh.ctxs
    ensures sh.loaded > 0
  {
    assert sh.ctxs[c].model in sh.models;
  }

  lemma ManagedShared(sh: Shared, t: nat, c: nat, x: Ctx, res: E.Result)
    requires SharedInv(sh) && c in sh.ctxs && CtxOk(x) && Mapped(sh)
    requires x.model == sh.ctxs[c].model && x.slots == sh.ctxs[c].slots && (sh.ctxs[c].freed ==> x.freed)
    requires InUse(x) || SlotsQuiet(sh.slots, c)
    ensures SharedInv(Trapped(SetCtx(sh, c, x), t, res))
  {
    LoadedWithContext(sh, c);
    FateShared(sh, c, x);
    TrapShared(SetCtx(sh, c, x), t, res);
  }

  lemma ManagedGuarantees(sh: Shared, t: nat, pc: Pc, c: nat, x: Ctx, res: E.Result)
    requires c in sh.ctxs && CtxStep(sh.ctxs[c], x, t, pc, c) && !sh.ctxs[c].freed && Holds(pc, Hands)
    ensures Guarantee(sh, Trapped(SetCtx(sh, c, x), t, res), t, pc)
  {
    OneCtxChanges(sh.ctxs, sh.taken, t, pc, c, x);
    CtxsAndTrapChange(sh, t, pc, sh.ctxs[c := x], res);
  }

  /** The guest's free returns. */
  lemma CtxGone(sh: Shared, t: nat, k: Kont, c: nat, res: E.Result, sh': Shared)
    requires SharedInv(sh) && HandedOut(sh.ctxs, c) && FreeFacts(sh, t, c, FFreeing) && Mapped(sh)
    requires sh' == Trapped(SetCtx(sh, c, sh.ctxs[c].(guest := Gone)), t, res)
    ensures SharedInv(sh')
    ensures Guarantee(sh, sh', t, Free(c, k, FFreeing))
  {
    assert CtxOk(sh.ctxs[c]);
    ManagedShared(sh, t, c, sh.ctxs[c].(guest := Gone), res);
    ManagedGuarantees(sh, t, Free(c, k, FFreeing), c, sh.ctxs[c].(guest := Gone), res);
  }

  /** No Slots of an unfreed context runs but the one it records. */
  lemma RecordedSlots(sh: Shared, c: nat)
    requires SlotsInv(sh.ctxs, sh.slots) && c in sh.ctxs
    ensures sh.ctxs[c].slots.None? ==> SlotsQuiet(sh.slots, c)
    ensures sh.ctxs[c].slots.Some? ==> OthersQuiet(sh.slots, c, sh.ctxs[c].slots.value)
  {}

  /** What the look under the context's lock establishes. */
  lemma LookFinds(sh: Shared, t: nat, c: nat, k: Kont)
    requires SharedInv(sh) && c in sh.ctxs && FreeFacts(sh, t, c, FHeld)
    ensures FreeFacts(sh, t, c, FreeNext(sh, t, c, k, FHeld, FLook).pc.f)
  {
    assert CtxOk(sh.ctxs[c]);
    RecordedSlots(sh, c);
  }

  /** The locks that freeContext takes: nobody else is freeing the context. */
  lemma FreeLocks(sh: Shared, t: nat, c: nat, k: Kont, f: FreePc, f': FreePc)
    requires c in sh.ctxs && OwnedBy(sh, t, Free(c, k, f)) && Unlocked(sh, t, Free(c, k, f'))
    requires f.FSpin? || f.FIntWant?
    requires f'.FHeld? || f'.FIntGot?
    ensures Settled(sh, c)
  {
    assert !MidFree(Free(c, k, f), c);
    assert NotFreedByOthers(sh, t, Free(c, k, f'), c);
  }

  predicate CtxFurther(x: Ctx, x': Ctx) {
    && x'.model == x.model && (x.freed ==> x'.freed) && (x.retired ==> x'.retired) && (x.maker.None? ==> x'.maker.None?)
  }

  /** No context has gone back, and only c's object may have changed. */
  predicate CtxsFurther(ctxs: map<nat, Ctx>, ctxs': map<nat, Ctx>, c: nat) {
    && ctxs'.Keys == ctxs.Keys
    && forall d :: d in ctxs ==> CtxFurther(ctxs[d], ctxs'[d]) && (d != c ==> SameFate(ctxs[d], ctxs'[d]))
  }

  predicate SameInstance(sh: Shared, sh': Shared) {
    && sh'.models == sh.models && sh'.taken == sh.taken
    && sh'.closed == sh.closed && sh'.closer == sh.closer && sh'.torn == sh.torn
    && sh'.eng == sh.eng && sh'.engines == sh.engines && sh'.builder == sh.builder
  }

  lemma CtxsWritten(ctxs: map<nat, Ctx>, c: nat, x: Ctx)
    requires c in ctxs && CtxFurther(ctxs[c], x)
    ensures CtxsFurther(ctxs, ctxs[c := x], c)
  {}

  lemma CtxsLeft(ctxs: map<nat, Ctx>, c: nat)
    ensures CtxsFurther(ctxs, ctxs, c)
  {}

  /** What the end of a build relies on only grows. */
  lemma JobGrows(sh: Shared, sh': Shared, t: nat, c: nat, job: Job, cs: set<nat>)
    requires JobAt(sh, t, job, cs) && c !in job.rest
    requires SameInstance(sh, sh') && CtxsFurther(sh.ctxs, sh'.ctxs, c)
    ensures JobAt(sh', t, job, cs)
  {
    JobFurther(sh, sh', t, job, cs);
  }

  /** What freeContext's caller relies on only grows. */
  lemma KontGrows(sh: Shared, sh': Shared, t: nat, c: nat, k: Kont)
    requires c in sh.ctxs && KontAt(sh, t, c, k)
    requires SameInstance(sh, sh') && CtxsFurther(sh.ctxs, sh'.ctxs, c)
    ensures KontAt(sh', t, c, k)
  {
    match k
    case KModel(m, rest, _) => assert CoveredBy(sh', m, rest + {c});
    case KInst(rest, _) => assert AllCoveredBy(sh', rest + {c});
    case KRetire(job) => JobGrows(sh, sh', t, c, job, job.rest + {c});
    case _ =>
  }

  lemma KontAfterWrite(sh: Shared, t: nat, c: nat, k: Kont, x: Ctx)
    requires c in sh.ctxs && KontAt(sh, t, c, k) && CtxFurther(sh.ctxs[c], x)
    ensures KontAt(SetCtx(sh, c, x), t, c, k)
  {
    CtxsWritten(sh.ctxs, c, x);
    KontGrows(sh, SetCtx(sh, c, x), t, c, k);
  }

  lemma KontAfterTrap(sh: Shared, t: nat, c: nat, k: Kont, res: E.Result)
    requires c in sh.ctxs && KontAt(sh, t, c, k)
    ensures KontAt(Trapped(sh, t, res), t, c, k)
  {
    if res.Trap? && sh.trapBy.None? {
      CtxsLeft(sh.ctxs, c);
      KontGrows(sh, sh.(trapBy := Some(t)), t, c, k);
    }
  }

  lemma KontAfterNote(sh: Shared, t: nat, c: nat, k: Kont, res: E.Result)
    requires c in sh.ctxs && KontAt(sh, t, c, k)
    ensures KontAt(NoteTrap(sh, res), t, c, k)
  {
    CtxsLeft(sh.ctxs, c);
    KontGrows(sh, NoteTrap(sh, res), t, c, k);
  }

  lemma KontAfterView(sh: Shared, t: nat, c: nat, k: Kont, sid: nat, v: V.View)
    requires c in sh.ctxs && KontAt(sh, t, c, k) && sid in sh.slots
    ensures KontAt(SetView(sh, sid, v), t, c, k)
  {
    CtxsLeft(sh.ctxs, c);
    KontGrows(sh, SetView(sh, sid, v), t, c, k);
  }

  lemma ResumeAt(sh: Shared, t: nat, c: nat, k: Kont, err: Err)
    requires SharedInv(sh) && c in sh.ctxs && KontAt(sh, t, c, k) && FreeFacts(sh, t, c, FDone(err))
    ensures At(sh, t, Resume(k, c, err))
  {}

  /** Only this context's `busy` changes, and with it the thread's program counter. */
  lemma OwnedAfterWrite(sh: Shared, t: nat, c: nat, x: Ctx, pc: Pc, pc': Pc)
    requires c in sh.ctxs && OwnedBy(sh, t, pc) && pc.Free? && pc'.Free? && pc.c == pc'.c == c && pc.kont == pc'.kont
    requires (x.busy == Some(t) ==> MidFree(pc', c)) && x.maker == sh.ctxs[c].maker
    requires Noting(pc) ==> Noting(pc')
    requires PostsBy(sh, t, pc)
    ensures OwnedBy(SetCtx(sh, c, x), t, pc') && PostsBy(SetCtx(sh, c, x), t, pc')
  {}

  lemma FSetClosedSafe(sh: Shared, t: nat, c: nat, k: Kont, sh': Shared)
    requires SharedInv(sh) && c in sh.ctxs
    requires sh' == SetCtx(sh, c, sh.ctxs[c].(closed := true))
    ensures SharedInv(sh')
    ensures Guarantee(sh, sh', t, Free(c, k, FStart))
  {
    assert CtxOk(sh.ctxs[c]);
    CtxWrite(sh, t, Free(c, k, FStart), c, sh.ctxs[c].(closed := true));
  }

  lemma FSetClosedAt(sh: Shared, t: nat, c: nat, k: Kont, sh': Shared)
    requires c in sh.ctxs && FreeAt(sh, t, c, k, FStart)
    requires sh' == SetCtx(sh, c, sh.ctxs[c].(closed := true))
    ensures FreeAt(sh', t, c, k, FSpin)
  {
    KontAfterWrite(sh, t, c, k, sh.ctxs[c].(closed := true));
  }

  lemma FSetClosedOwned(sh: Shared, t: nat, c: nat, k: Kont, sh': Shared)
    requires c in sh.ctxs && OwnedBy(sh, t, Free(c, k, FStart)) && PostsBy(sh, t, Free(c, k, FStart))
    requires sh' == SetCtx(sh, c, sh.ctxs[c].(closed := true))
    ensures OwnedBy(sh', t, Free(c, k, FSpin))
    ensures PostsBy(sh', t, Free(c, k, FSpin))
  {
    OwnedAfterWrite(sh, t, c, sh.ctxs[c].(closed := true), Free(c, k, FStart), Free(c, k, FSpin));
  }

  lemma FBeginSafe(sh: Shared, t: nat, c: nat, k: Kont, sh': Shared)
    requires SharedInv(sh) && HandedOut(sh.ctxs, c) && FreeFacts(sh, t, c, FCall)
    requires sh' == SetCtx(sh, c, BeingFreed(sh.ctxs[c], t))
    ensures SharedInv(sh')
    ensures Guarantee(sh, sh', t, Free(c, k, FCall))
  {
    assert CtxOk(sh.ctxs[c]);
    CtxWrite(sh, t, Free(c, k, FCall), c, BeingFreed(sh.ctxs[c], t));
  }

  lemma FBeginAt(sh: Shared, t: nat, c: nat, k: Kont, sh': Shared)
    requires c in sh.ctxs && FreeAt(sh, t, c, k, FCall)
    requires sh' == SetCtx(sh, c, BeingFreed(sh.ctxs[c], t))
    ensures FreeAt(sh', t, c, k, FFreeing)
  {
    KontAfterWrite(sh, t, c, k, BeingFreed(sh.ctxs[c], t));
  }

  lemma FBeginOwned(sh: Shared, t: nat, c: nat, k: Kont, sh': Shared)
    requires c in sh.ctxs && OwnedBy(sh, t, Free(c, k, FCall)) && PostsBy(sh, t, Free(c, k, FCall))
    requires sh' == SetCtx(sh, c, BeingFreed(sh.ctxs[c], t))
    ensures OwnedBy(sh', t, Free(c, k, FFreeing))
    ensures PostsBy(sh', t, Free(c, k, FFreeing))
  {
    OwnedAfterWrite(sh, t, c, BeingFreed(sh.ctxs[c], t), Free(c, k, FCall), Free(c, k, FFreeing));
  }

  lemma FEndFacts(sh: Shared, t: nat, c: nat, res: E.Result, err: Err, sh': Shared)
    requires c in sh.ctxs && FreeFacts(sh, t, c, FFreeing) && c in sh'.ctxs
    requires sh'.ctxs[c] == sh.ctxs[c].(guest := Gone) && (res.Trap? ==> sh'.trapBy.Some?)
    ensures FreeFacts(sh', t, c, FNote(res, err))
  {}

  lemma FEndAt(sh: Shared, t: nat, c: nat, k: Kont, res: E.Result, err: Err, sh': Shared)
    requires c in sh.ctxs && FreeAt(sh, t, c, k, FFreeing)
    requires sh' == Trapped(SetCtx(sh, c, sh.ctxs[c].(guest := Gone)), t, res)
    ensures FreeAt(sh', t, c, k, FNote(res, err))
  {
    TrappedFields(SetCtx(sh, c, sh.ctxs[c].(guest := Gone)), t, res);
    FEndFacts(sh, t, c, res, err, sh');
    KontAfterWrite(sh, t, c, k, sh.ctxs[c].(guest := Gone));
    KontAfterTrap(SetCtx(sh, c, sh.ctxs[c].(guest := Gone)), t, c, k, res);
  }

  lemma OwnedAfterTrap(sh: Shared, t: nat, res: E.Result, pc: Pc)
    requires OwnedBy(sh, t, pc) && PostsBy(sh, t, pc) && (res.Trap? ==> Noting(pc))
    ensures OwnedBy(Trapped(sh, t, res), t, pc) && PostsBy(Trapped(sh, t, res), t, pc)
  {}

  lemma FEndOwned(sh: Shared, t: nat, c: nat, k: Kont, res: E.Result, err: Err, sh': Shared)
    requires c in sh.ctxs && OwnedBy(sh, t, Free(c, k, FFreeing)) && PostsBy(sh, t, Free(c, k, FFreeing))
    requires sh' == Trapped(SetCtx(sh, c, sh.ctxs[c].(guest := Gone)), t, res)
    ensures OwnedBy(sh', t, Free(c, k, FNote(res, err)))
    ensures PostsBy(sh', t, Free(c, k, FNote(res, err)))
  {
    OwnedAfterWrite(sh, t, c, sh.ctxs[c].(guest := Gone), Free(c, k, FFreeing), Free(c, k, FNote(res, err)));
    OwnedAfterTrap(SetCtx(sh, c, sh.ctxs[c].(guest := Gone)), t, res, Free(c, k, FNote(res, err)));
  }

  lemma FStoreSafe(sh: Shared, t: nat, c: nat, k: Kont, err: Err, sh': Shared)
    requires SharedInv(sh) && HandedOut(sh.ctxs, c) && FreeFacts(sh, t, c, FStore(err))
    requires sh' == SetCtx(sh, c, Freed(sh.ctxs[c], err))
    ensures SharedInv(sh')
    ensures Guarantee(sh, sh', t, Free(c, k, FStore(err)))
  {
    assert CtxOk(sh.ctxs[c]);
    CtxWrite(sh, t, Free(c, k, FStore(err)), c, Freed(sh.ctxs[c], err));
  }

  lemma FStoreAt(sh: Shared, t: nat, c: nat, k: Kont, err: Err, sh': Shared)
    requires c in sh.ctxs && FreeAt(sh, t, c, k, FStore(err))
    requires sh' == SetCtx(sh, c, Freed(sh.ctxs[c], err))
    ensures FreeAt(sh', t, c, k, FUnlock(err))
  {
    KontAfterWrite(sh, t, c, k, Freed(sh.ctxs[c], err));
  }

  lemma FStoreOwned(sh: Shared, t: nat, c: nat, k: Kont, err: Err, sh': Shared)
    requires c in sh.ctxs && OwnedBy(sh, t, Free(c, k, FStore(err))) && PostsBy(sh, t, Free(c, k, FStore(err)))
    requires sh' == SetCtx(sh, c, Freed(sh.ctxs[c], err))
    ensures OwnedBy(sh', t, Free(c, k, FUnlock(err)))
    ensures PostsBy(sh', t, Free(c, k, FUnlock(err)))
  {
    OwnedAfterWrite(sh, t, c, Freed(sh.ctxs[c], err), Free(c, k, FStore(err)), Free(c, k, FUnlock(err)));
  }

  lemma FCloseSlotsAt(sh: Shared, t: nat, c: nat, k: Kont, s: nat, sh': Shared)
    requires FreeEnabled(sh, c, FSlots(s), FCloseSlots) && FreeAt(sh, t, c, k, FSlots(s))
    requires sh' == SetView(sh, s, V.Apply(sh.slots[s].view, V.SetClosed))
    ensures FreeAt(sh', t, c, k, FWait(s))
  {
    KontAfterView(sh, t, c, k, s, V.Apply(sh.slots[s].view, V.SetClosed));
  }

  lemma FCloseSlotsOwned(sh: Shared, t: nat, c: nat, k: Kont, s: nat, sh': Shared)
    requires FreeEnabled(sh, c, FSlots(s), FCloseSlots)
    requires OwnedBy(sh, t, Free(c, k, FSlots(s))) && PostsBy(sh, t, Free(c, k, FSlots(s)))
    requires sh' == SetView(sh, s, V.Apply(sh.slots[s].view, V.SetClosed))
    ensures OwnedBy(sh', t, Free(c, k, FWait(s)))
    ensures PostsBy(sh', t, Free(c, k, FWait(s)))
  {}

  lemma FCloseSlotsSafe(sh: Shared, t: nat, c: nat, k: Kont, s: nat, sh': Shared)
    requires SharedInv(sh) && FreeEnabled(sh, c, FSlots(s), FCloseSlots)
    requires sh' == SetView(sh, s, V.Apply(sh.slots[s].view, V.SetClosed))
    ensures SharedInv(sh') && Guarantee(sh, sh', t, Free(c, k, FSlots(s)))
  {
    SlotsClosed(sh, t, Free(c, k, FSlots(s)), s, sh');
  }

  lemma FNoteSafe(sh: Shared, t: nat, c: nat, k: Kont, res: E.Result, err: Err, sh': Shared)
    requires SharedInv(sh) && FreeAt(sh, t, c, k, FNote(res, err))
    requires sh' == NoteTrap(sh, res)
    ensures SharedInv(sh') && Guarantee(sh, sh', t, Free(c, k, FNote(res, err)))
  {
    NoteSafe(sh, t, Free(c, k, FNote(res, err)), res);
  }

  lemma FNoteAt(sh: Shared, t: nat, c: nat, k: Kont, res: E.Result, err: Err, sh': Shared)
    requires c in sh.ctxs && FreeAt(sh, t, c, k, FNote(res, err))
    requires sh' == NoteTrap(sh, res)
    ensures FreeAt(sh', t, c, k, FStore(err))
  {
    KontAfterNote(sh, t, c, k, res);
  }

  /** The thread has noted its trap. */
  lemma OwnedAfterNote(sh: Shared, t: nat, res: E.Result, pc: Pc, pc': Pc)
    requires OwnedBy(sh, t, pc) && (Noting(pc) ==> res.Trap?)
    requires forall c: nat :: MidFree(pc, c) ==> MidFree(pc', c)
    requires forall m: nat :: TearingModel(pc, m) ==> TearingModel(pc', m)
    requires TearingInst(pc) ==> TearingInst(pc')
    requires !Swapping(pc) && forall c: nat :: !Making(pc, c)
    requires (Builds(pc) ==> Builds(pc')) && (HoldsExcl(pc, Hands) ==> HoldsExcl(pc', Hands))
    requires PostsBy(sh, t, pc) && !pc.OnCall?
    ensures OwnedBy(NoteTrap(sh, res), t, pc') && PostsBy(NoteTrap(sh, res), t, pc')
  {}

  lemma FNoteOwned(sh: Shared, t: nat, c: nat, k: Kont, res: E.Result, err: Err, sh': Shared)
    requires OwnedBy(sh, t, Free(c, k, FNote(res, err))) && PostsBy(sh, t, Free(c, k, FNote(res, err)))
    requires sh' == NoteTrap(sh, res)
    ensures OwnedBy(sh', t, Free(c, k, FStore(err)))
    ensures PostsBy(sh', t, Free(c, k, FStore(err)))
  {
    OwnedAfterNote(sh, t, res, Free(c, k, FNote(res, err)), Free(c, k, FStore(err)));
  }

  lemma OwnedAfterReturn(sh: Shared, t: nat, c: nat, k: Kont, err: Err)
    requires OwnedBy(sh, t, Free(c, k, FDone(err))) && PostsBy(sh, t, Free(c, k, FDone(err)))
    ensures OwnedBy(sh, t, Resume(k, c, err)) && PostsBy(sh, t, Resume(k, c, err))
  {
    assert forall d :: d in sh.ctxs && sh.ctxs[d].busy == Some(t) ==> !MidFree(Free(c, k, FDone(err)), d);
  }

  /** Steps of freeContext that change nothing shared. */
  predicate Silent(l: FreeStep) {
    l.FTry? || l.FInterrupt? || l.FIntLock? || l.FIntCheck? || l.FIntDone? || l.FLook? || l.FWaited? || l.FLockImu? || l.FUnlockImu?
  }

  lemma QuietFacts(sh: Shared, t: nat, c: nat, k: Kont, f: FreePc, l: FreeStep, n: Local)
    requires FreeLeads(sh, t, c, k, f, l, n)
    requires Silent(l) && !l.FLook? && !l.FTry? && !l.FIntLock?
    requires SharedInv(sh) && FreeFacts(sh, t, c, f)
    ensures n.pc.Free? && FreeFacts(sh, t, c, n.pc.f)
  {
    assert CtxOk(sh.ctxs[c]);
    assert l.FWaited? ==> ViewOk(sh.slots[f.sw].view);
  }

  lemma LookFacts(sh: Shared, t: nat, c: nat, k: Kont, f: FreePc, l: FreeStep, n: Local)
    requires FreeLeads(sh, t, c, k, f, l, n)
    requires l.FLook? && SharedInv(sh) && FreeFacts(sh, t, c, f)
    ensures n.pc.Free? && FreeFacts(sh, t, c, n.pc.f)
  {
    LookFinds(sh, t, c, k);
  }

  lemma LockFacts(sh: Shared, t: nat, c: nat, k: Kont, f: FreePc, l: FreeStep, n: Local)
    requires FreeLeads(sh, t, c, k, f, l, n)
    requires (l.FTry? || l.FIntLock?) && FreeFacts(sh, t, c, f)
    requires OwnedBy(sh, t, Free(c, k, f)) && Unlocked(sh, t, n.pc)
    ensures n.pc.Free? && FreeFacts(sh, t, c, n.pc.f)
  {
    FreeLocks(sh, t, c, k, f, if l.FTry? then FHeld else FIntGot);
  }

  lemma SilentFacts(sh: Shared, t: nat, c: nat, k: Kont, f: FreePc, l: FreeStep, n: Local)
    requires FreeLeads(sh, t, c, k, f, l, n)
    requires Silent(l) && SharedInv(sh) && FreeFacts(sh, t, c, f)
    requires OwnedBy(sh, t, Free(c, k, f)) && Unlocked(sh, t, n.pc)
    ensures n.pc.Free? && FreeFacts(sh, t, c, n.pc.f)
  {
    if l.FLook? {
      LookFacts(sh, t, c, k, f, l, n);
    } else if l.FTry? || l.FIntLock? {
      LockFacts(sh, t, c, k, f, l, n);
    } else {
      QuietFacts(sh, t, c, k, f, l, n);
    }
  }

  /** A thread in freeContext moves on and changes nothing. */
  lemma FreeMovesOwned(sh: Shared, t: nat, c: nat, k: Kont, f: FreePc, f': FreePc)
    requires OwnedBy(sh, t, Free(c, k, f)) && PostsBy(sh, t, Free(c, k, f))
    requires !f.FFreeing? && !f.FNote? && !f.FStore?
    ensures OwnedBy(sh, t, Free(c, k, f')) && PostsBy(sh, t, Free(c, k, f'))
  {
    assert forall d: nat :: !MidFree(Free(c, k, f), d);
  }

  lemma SilentOwned(sh: Shared, t: nat, c: nat, k: Kont, f: FreePc, l: FreeStep, n: Local)
    requires FreeLeads(sh, t, c, k, f, l, n)
    requires Silent(l) && OwnedBy(sh, t, Free(c, k, f)) && PostsBy(sh, t, Free(c, k, f))
    ensures OwnedBy(n.sh, t, n.pc) && PostsBy(n.sh, t, n.pc)
  {
    FreeMovesOwned(sh, t, c, k, f, n.pc.f);
  }

  /** A step of freeContext keeps what is shared, and the guarantee. */
  lemma FreeSafe(sh: Shared, t: nat, c: nat, k: Kont, f: FreePc, l: FreeStep, n: Local)
    requires FreeLeads(sh, t, c, k, f, l, n)
    requires SharedInv(sh) && FreeAt(sh, t, c, k, f) && (f.FFreeing? ==> Mapped(sh))
    ensures SharedInv(n.sh) && Guarantee(sh, n.sh, t, Free(c, k, f))
  {
    match l
    case FSetClosed => FSetClosedSafe(sh, t, c, k, n.sh);
    case FBegin => FBeginSafe(sh, t, c, k, n.sh);
    case FEnd(_, _) => CtxGone(sh, t, k, c, l.res, n.sh);
    case FStoreFreed => FStoreSafe(sh, t, c, k, f.serr, n.sh);
    case FCloseSlots => FCloseSlotsSafe(sh, t, c, k, f.s, n.sh);
    case FNoteTrap => FNoteSafe(sh, t, c, k, f.res, f.err, n.sh);
    case _ => Unchanged(sh, t, Free(c, k, f));
  }

  lemma FreeIsAt(sh: Shared, t: nat, c: nat, k: Kont, f: FreePc)
    requires FreeAt(sh, t, c, k, f)
    ensures At(sh, t, Free(c, k, f))
  {}

  lemma FreeWritesAt(sh: Shared, t: nat, c: nat, k: Kont, f: FreePc, l: FreeStep, n: Local)
    requires FreeLeads(sh, t, c, k, f, l, n)
    requires !Silent(l) && !l.FReturn? && FreeAt(sh, t, c, k, f)
    ensures n.pc == Free(c, k, n.pc.f) && FreeAt(n.sh, t, c, k, n.pc.f)
  {
    match l
    case FSetClosed => FSetClosedAt(sh, t, c, k, n.sh);
    case FBegin => FBeginAt(sh, t, c, k, n.sh);
    case FEnd(_, _) => FEndAt(sh, t, c, k, l.res, Codes(l.res, l.reply), n.sh);
    case FStoreFreed => FStoreAt(sh, t, c, k, f.serr, n.sh);
    case FCloseSlots => FCloseSlotsAt(sh, t, c, k, f.s, n.sh);
    case FNoteTrap => FNoteAt(sh, t, c, k, f.res, f.err, n.sh);
  }

  lemma SilentAt(sh: Shared, t: nat, c: nat, k: Kont, f: FreePc, l: FreeStep, n: Local)
    requires FreeLeads(sh, t, c, k, f, l, n)
    requires Silent(l) && SharedInv(sh) && FreeAt(sh, t, c, k, f)
    requires OwnedBy(sh, t, Free(c, k, f)) && Unlocked(sh, t, n.pc)
    ensures n.pc == Free(c, k, n.pc.f) && n.sh == sh && FreeAt(sh, t, c, k, n.pc.f)
  {
    SilentFacts(sh, t, c, k, f, l, n);
  }

  lemma FreeAtNext(sh: Shared, t: nat, c: nat, k: Kont, f: FreePc, l: FreeStep, n: Local)
    requires FreeLeads(sh, t, c, k, f, l, n)
    requires SharedInv(sh) && FreeAt(sh, t, c, k, f) && OwnedBy(sh, t, Free(c, k, f)) && Unlocked(sh, t, n.pc)
    ensures At(n.sh, t, n.pc)
  {
    if l.FReturn? {
      ResumeAt(sh, t, c, k, f.derr);
    } else {
      if Silent(l) {
        SilentAt(sh, t, c, k, f, l, n);
      } else {
        FreeWritesAt(sh, t, c, k, f, l, n);
      }
      FreeIsAt(n.sh, t, c, k, n.pc.f);
    }
  }

  lemma FreeOwned(sh: Shared, t: nat, c: nat, k: Kont, f: FreePc, l: FreeStep, n: Local)
    requires FreeLeads(sh, t, c, k, f, l, n)
    requires OwnedBy(sh, t, Free(c, k, f)) && PostsBy(sh, t, Free(c, k, f))
    ensures OwnedBy(n.sh, t, n.pc) && PostsBy(n.sh, t, n.pc)
  {
    match l
    case FSetClosed => FSetClosedOwned(sh, t, c, k, n.sh);
    case FBegin => FBeginOwned(sh, t, c, k, n.sh);
    case FEnd(_, _) => FEndOwned(sh, t, c, k, l.res, Codes(l.res, l.reply), n.sh);
    case FStoreFreed => FStoreOwned(sh, t, c, k, f.serr, n.sh);
    case FCloseSlots => FCloseSlotsOwned(sh, t, c, k, f.s, n.sh);
    case FNoteTrap => FNoteOwned(sh, t, c, k, f.res, f.err, n.sh);
    case FReturn => OwnedAfterReturn(sh, t, c, k, f.derr);
    case _ => SilentOwned(sh, t, c, k, f, l, n);
  }

  lemma AtFree(sh: Shared, t: nat, c: nat, k: Kont, f: FreePc)
    requires At(sh, t, Free(c, k, f))
    ensures FreeAt(sh, t, c, k, f)
  {}

  lemma FreeKeeps(sh: Shared, t: nat, c: nat, k: Kont, f: FreePc, l: FreeStep, n: Local)
    requires FreeLeads(sh, t, c, k, f, l, n)
    requires Before(sh, t, Free(c, k, f), n.pc)
    ensures After(sh, n.sh, t, Free(c, k, f), n.pc)
  {
    ItsOwn(sh, t, Free(c, k, f), n.pc);
    AtFree(sh, t, c, k, f);
    if l.FEnd? {
      MappedWhileFreeing(sh, t, c, k, n.pc);
    }
    FreeSafe(sh, t, c, k, f, l, n);
    FreeAtNext(sh, t, c, k, f, l, n);
    FreeOwned(sh, t, c, k, f, l, n);
  }

  // ----- Model.enter, NewContext -------------------------------------------------------------

  lemma RecordedShared(sh: Shared, t: nat, c: nat, m: nat)
    requires SharedInv(sh) && c !in sh.ctxs && ModelAlive(sh, m) && !sh.taken
    ensures SharedInv(Recorded(sh, c, m, t))
  {
    var sh' := Recorded(sh, c, m, t);
    assert CtxsInv(sh'.ctxs, sh'.models) && ModelsInv(sh'.ctxs, sh'.models, sh'.eng, sh'.closed);
    assert SlotsInv(sh'.ctxs, sh'.slots);
    assert QuietInv(sh'.ctxs, sh'.slots);
    assert RecordInv(sh'.ctxs, sh'.record, sh'.taken);
  }

  lemma RecordedGuarantees(sh: Shared, t: nat, c: nat, m: nat)
    requires c !in sh.ctxs && !sh.taken
    ensures Guarantee(sh, Recorded(sh, c, m, t), t, OnNew(NCall(m)))
  {
    Unchanged(sh, t, OnNew(NCall(m)));
    assert CtxsStep(sh.ctxs, sh.ctxs[c := Fresh(m, Some(t))], sh.taken, t, OnNew(NCall(m)));
  }

  lemma TrapGuarantees(sh: Shared, t: nat, pc: Pc, res: E.Result)
    requires !(sh.taken && sh.published) && (sh.builder.Some? ==> Holds(pc, Hands))
    ensures Guarantee(sh, Trapped(sh, t, res), t, pc)
  {
    Unchanged(sh, t, pc);
  }

  lemma NewSafe(sh: Shared, t: nat, p: NewPc, l: NewStep, n: Local)
    requires NewLeads(sh, t, p, l, n)
    requires SharedInv(sh) && NewAt(sh, t, p)
    ensures SharedInv(n.sh) && Guarantee(sh, n.sh, t, OnNew(p))
  {
    match l
    case NCreated(c) =>
      RecordedShared(sh, t, c, p.m);
      RecordedGuarantees(sh, t, c, p.m);
    case NFailed(res) =>
      TrapShared(sh, t, res);
      TrapGuarantees(sh, t, OnNew(p), res);
    case NNoteTrap => NoteSafe(sh, t, OnNew(p), p.res);
    case NOk => CtxWrite(sh, t, OnNew(p), p.c, HandOut(sh.ctxs[p.c]));
    case NGiveUp => CtxWrite(sh, t, OnNew(p), p.c, HandOut(sh.ctxs[p.c]));
    case _ => Unchanged(sh, t, OnNew(p));
  }

  lemma NewCheckAt(sh: Shared, t: nat, p: NewPc, l: NewStep, n: Local)
    requires NewLeads(sh, t, p, l, n)
    requires l.NCheck? && Before(sh, t, OnNew(p), n.pc)
    ensures At(n.sh, t, n.pc)
  {
    OpenMeansUntaken(sh, t, OnNew(p), n.pc);
  }

  lemma NewAddrAt(sh: Shared, t: nat, p: NewPc, l: NewStep, n: Local)
    requires NewLeads(sh, t, p, l, n)
    requires (l.NCreated? || l.NOk? || l.NGiveUp?) && NewAt(sh, t, p)
    ensures At(n.sh, t, n.pc)
  {}

  lemma NewMovesAt(sh: Shared, t: nat, p: NewPc, l: NewStep, n: Local)
    requires NewLeads(sh, t, p, l, n)
    requires !l.NCheck? && !l.NCreated? && !l.NOk? && !l.NGiveUp? && SharedInv(sh) && NewAt(sh, t, p)
    ensures At(n.sh, t, n.pc)
  {
    assert l.NAdmit? ==> ModelOk(sh.models[p.m], sh.eng, sh.closed);
  }

  lemma NewAtNext(sh: Shared, t: nat, p: NewPc, l: NewStep, n: Local)
    requires NewLeads(sh, t, p, l, n)
    requires Before(sh, t, OnNew(p), n.pc)
    ensures At(n.sh, t, n.pc)
  {
    if l.NCheck? {
      NewCheckAt(sh, t, p, l, n);
    } else if l.NCreated? || l.NOk? || l.NGiveUp? {
      NewAddrAt(sh, t, p, l, n);
    } else {
      NewMovesAt(sh, t, p, l, n);
    }
  }

  /** A thread that creates or forks owns at most a trap. */
  lemma TrapOwned(sh: Shared, t: nat, pc: Pc, pc': Pc)
    requires OwnedBy(sh, t, pc) && PostsBy(sh, t, pc) && (pc.OnFork? || (pc.OnNew? && !pc.creation.NAddr?))
    requires Noting(pc) ==> Noting(pc')
    ensures OwnedBy(sh, t, pc') && PostsBy(sh, t, pc')
  {}

  lemma RecordedOwned(sh: Shared, t: nat, c: nat, m: nat)
    requires OwnedBy(sh, t, OnNew(NCall(m))) && PostsBy(sh, t, OnNew(NCall(m)))
    ensures OwnedBy(Recorded(sh, c, m, t), t, OnNew(NAddr(m, c))) && PostsBy(Recorded(sh, c, m, t), t, OnNew(NAddr(m, c)))
  {}

  lemma HandOutOwned(sh: Shared, t: nat, p: NewPc, pc: Pc)
    requires p.NAddr? && p.c in sh.ctxs && OwnedBy(sh, t, OnNew(p)) && PostsBy(sh, t, OnNew(p)) && !Noting(pc)
    ensures OwnedBy(SetCtx(sh, p.c, HandOut(sh.ctxs[p.c])), t, pc)
        && PostsBy(SetCtx(sh, p.c, HandOut(sh.ctxs[p.c])), t, pc)
  {}

  lemma NewOwned(sh: Shared, t: nat, p: NewPc, l: NewStep, n: Local)
    requires NewLeads(sh, t, p, l, n)
    requires OwnedBy(sh, t, OnNew(p)) && PostsBy(sh, t, OnNew(p))
    ensures OwnedBy(n.sh, t, n.pc)
    ensures PostsBy(n.sh, t, n.pc)
  {
    match l
    case NCreated(c) => RecordedOwned(sh, t, c, p.m);
    case NFailed(res) =>
      TrapOwned(sh, t, OnNew(p), OnNew(NNote(p.m, res)));
      OwnedAfterTrap(sh, t, res, OnNew(NNote(p.m, res)));
    case NNoteTrap => OwnedAfterNote(sh, t, p.res, OnNew(p), OnNew(NUnlock(p.m)));
    case NOk => HandOutOwned(sh, t, p, OnNew(NUnlock(p.m)));
    case NGiveUp => HandOutOwned(sh, t, p, Free(p.c, KNew(p.m), FStart));
    case _ => TrapOwned(sh, t, OnNew(p), n.pc);
  }

  lemma NewKeeps(sh: Shared, t: nat, p: NewPc, l: NewStep, n: Local)
    requires NewLeads(sh, t, p, l, n)
    requires Before(sh, t, OnNew(p), n.pc)
    ensures After(sh, n.sh, t, OnNew(p), n.pc)
  {
    NewSafe(sh, t, p, l, n);
    NewAtNext(sh, t, p, l, n);
    NewOwned(sh, t, p, l, n);
  }

  // ----- Model.Close ---------------------------------------------------------------------------

  lemma OneModelChanges(models: map<nat, Model>, t: nat, pc: Pc, m: nat, x: Model)
    requires m in models && ModelStepOk(models[m], x, t, pc, m)
    ensures ModelsStep(models, models[m := x], t, pc)
  {}

  lemma OnlyModelsChange(sh: Shared, t: nat, pc: Pc, models: map<nat, Model>)
    requires ModelsStep(sh.models, models, t, pc)
    ensures Guarantee(sh, sh.(models := models), t, pc)
  {
    Unchanged(sh, t, pc);
  }

  lemma ModelShared(sh: Shared, m: nat, x: Model)
    requires SharedInv(sh) && m in sh.models && ModelOk(x, sh.eng, sh.closed) && (x.guest.Live? || CoveredBy(sh, m, {}))
    ensures SharedInv(SetModel(sh, m, x))
  {
    var sh' := SetModel(sh, m, x);
    assert CtxsInv(sh'.ctxs, sh'.models) && ModelsInv(sh'.ctxs, sh'.models, sh'.eng, sh'.closed);
  }

  lemma ModelWrite(sh: Shared, t: nat, pc: Pc, m: nat, x: Model)
    requires SharedInv(sh) && m in sh.models && ModelOk(x, sh.eng, sh.closed) && (x.guest.Live? || CoveredBy(sh, m, {}))
    requires ModelStepOk(sh.models[m], x, t, pc, m)
    ensures SharedInv(SetModel(sh, m, x)) && Guarantee(sh, SetModel(sh, m, x), t, pc)
  {
    ModelShared(sh, m, x);
    OneModelChanges(sh.models, t, pc, m, x);
    OnlyModelsChange(sh, t, pc, sh.models[m := x]);
  }

  lemma MFirstSafe(sh: Shared, t: nat, p: ModelPc, l: ModelStep, n: Local)
    requires ModelLeads(sh, t, p, l, n)
    requires l.MFirst? && SharedInv(sh) && ModelAt(sh, t, p)
    ensures SharedInv(n.sh) && Guarantee(sh, n.sh, t, OnModel(p))
  {
    assert ModelOk(sh.models[p.m], sh.eng, sh.closed);
    ModelWrite(sh, t, OnModel(p), p.m, ClosedBy(sh.models[p.m], t));
  }

  lemma MGuestSafe(sh: Shared, t: nat, p: ModelPc, l: ModelStep, n: Local)
    requires ModelLeads(sh, t, p, l, n)
    requires (l.MBegin? || l.MEnd?) && SharedInv(sh) && ModelAt(sh, t, p)
    ensures SharedInv(n.sh) && Guarantee(sh, n.sh, t, OnModel(p))
  {
    assert ModelOk(sh.models[p.m], sh.eng, sh.closed);
    ModelWrite(sh, t, OnModel(p), p.m, sh.models[p.m].(guest := if l.MBegin? then Freeing else Gone));
  }

  lemma MStoreSafe(sh: Shared, t: nat, p: ModelPc, l: ModelStep, n: Local)
    requires ModelLeads(sh, t, p, l, n)
    requires l.MStoreErr? && SharedInv(sh) && ModelAt(sh, t, p)
    ensures SharedInv(n.sh) && Guarantee(sh, n.sh, t, OnModel(p))
  {
    assert ModelOk(sh.models[p.m], sh.eng, sh.closed);
    assert !sh.models[p.m].guest.Live? ==> CoveredBy(sh, p.m, {});
    ModelWrite(sh, t, OnModel(p), p.m, TornDown(sh.models[p.m], p.err));
  }

  lemma ModelSafe(sh: Shared, t: nat, p: ModelPc, l: ModelStep, n: Local)
    requires ModelLeads(sh, t, p, l, n)
    requires SharedInv(sh) && ModelAt(sh, t, p)
    ensures SharedInv(n.sh) && Guarantee(sh, n.sh, t, OnModel(p))
  {
    match l
    case MFirst => MFirstSafe(sh, t, p, l, n);
    case MBegin => MGuestSafe(sh, t, p, l, n);
    case MEnd(_) => MGuestSafe(sh, t, p, l, n);
    case MStoreErr => MStoreSafe(sh, t, p, l, n);
    case _ => Unchanged(sh, t, OnModel(p));
  }

  lemma ModelLocks(sh: Shared, t: nat, m: nat)
    requires SharedInv(sh) && m in sh.models && OwnedBy(sh, t, OnModel(MWant(m))) && Unlocked(sh, t, OnModel(MGot(m)))
    ensures sh.models[m].closed ==> sh.models[m].torn
  {
    assert ModelOk(sh.models[m], sh.eng, sh.closed);
    assert !TearingModel(OnModel(MWant(m)), m);
    assert NotClosedByOthers(sh, t, OnModel(MGot(m)), m);
  }

  /** With the record's lock every context is out of NewContext's hands. */
  lemma RecordLocks(sh: Shared, t: nat, pc: Pc, pc': Pc)
    requires OwnedBy(sh, t, pc) && !pc.OnNew? && HoldsExcl(pc', CtxMu) && Unlocked(sh, t, pc')
    ensures AllHandedOut(sh.ctxs, sh.ctxs.Keys)
  {
    forall c | c in sh.ctxs ensures HandedOut(sh.ctxs, c) {
      assert NotMadeByOthers(sh, t, pc', c);
      assert !Making(pc, c);
    }
  }

  lemma ModelLocksAt(sh: Shared, t: nat, p: ModelPc, l: ModelStep, n: Local)
    requires ModelLeads(sh, t, p, l, n)
    requires (l.MLockClose? || l.MLockMu?) && Before(sh, t, OnModel(p), n.pc)
    ensures At(n.sh, t, n.pc)
  {
    if l.MLockClose? {
      ModelLocks(sh, t, p.m);
    } else {
      RecordLocks(sh, t, OnModel(p), OnModel(MLook(p.m)));
    }
  }

  lemma ModelLooksAt(sh: Shared, t: nat, p: ModelPc, l: ModelStep, n: Local)
    requires ModelLeads(sh, t, p, l, n)
    requires (l.MLookOpen? || l.MGone?) && Before(sh, t, OnModel(p), n.pc)
    ensures At(n.sh, t, n.pc)
  {
    OpenMeansUntaken(sh, t, OnModel(p), n.pc);
  }

  lemma ModelFreesAt(sh: Shared, t: nat, p: ModelPc, l: ModelStep, n: Local)
    requires ModelLeads(sh, t, p, l, n)
    requires l.MFreeNext? && ModelAt(sh, t, p)
    ensures At(n.sh, t, n.pc)
  {
    assert p.rest - {l.c} + {l.c} == p.rest;
  }

  lemma ModelGuestAt(sh: Shared, t: nat, p: ModelPc, l: ModelStep, n: Local)
    requires ModelLeads(sh, t, p, l, n)
    requires (l.MBegin? || l.MEnd?) && ModelAt(sh, t, p)
    ensures At(n.sh, t, n.pc)
  {}

  lemma ModelFirstAt(sh: Shared, t: nat, p: ModelPc, l: ModelStep, n: Local)
    requires ModelLeads(sh, t, p, l, n)
    requires (l.MFirst? || l.MLockCalls? || l.MLookClosed?) && SharedInv(sh) && ModelAt(sh, t, p)
    ensures At(n.sh, t, n.pc)
  {
    assert ModelOk(sh.models[p.m], sh.eng, sh.closed);
  }

  lemma ModelOutAt(sh: Shared, t: nat, p: ModelPc, l: ModelStep, n: Local)
    requires ModelLeads(sh, t, p, l, n)
    requires (l.MAgain? || l.MStoreErr? || l.MUnlockCalls? || l.MUnlockClose? || l.MReturn?) && ModelAt(sh, t, p)
    ensures At(n.sh, t, n.pc)
  {}

  lemma ModelAtNext(sh: Shared, t: nat, p: ModelPc, l: ModelStep, n: Local)
    requires ModelLeads(sh, t, p, l, n)
    requires Before(sh, t, OnModel(p), n.pc)
    ensures At(n.sh, t, n.pc)
  {
    if l.MLockClose? || l.MLockMu? {
      ModelLocksAt(sh, t, p, l, n);
    } else if l.MLookOpen? || l.MGone? {
      ModelLooksAt(sh, t, p, l, n);
    } else if l.MFreeNext? {
      ModelFreesAt(sh, t, p, l, n);
    } else if l.MBegin? || l.MEnd? {
      ModelGuestAt(sh, t, p, l, n);
    } else if l.MFirst? || l.MLockCalls? || l.MLookClosed? {
      ModelFirstAt(sh, t, p, l, n);
    } else {
      ModelOutAt(sh, t, p, l, n);
    }
  }

  /** Only model m's closer and teardown change, and with them the thread's program counter. */
  lemma OwnedAfterModel(sh: Shared, t: nat, m: nat, x: Model, pc: Pc, pc': Pc)
    requires m in sh.models && OwnedBy(sh, t, pc) && PostsBy(sh, t, pc) && pc.OnModel? && pc'.OnModel?
    requires pc.model.m == m && (x.closer == Some(t) && !x.torn ==> TearingModel(pc', m))
    ensures OwnedBy(SetModel(sh, m, x), t, pc') && PostsBy(SetModel(sh, m, x), t, pc')
  {
    assert forall d: nat :: TearingModel(pc, d) ==> d == m;
  }

  lemma ModelWriteOwned(sh: Shared, t: nat, p: ModelPc, l: ModelStep, n: Local)
    requires ModelLeads(sh, t, p, l, n)
    requires (l.MFirst? || l.MBegin? || l.MEnd? || l.MStoreErr?) && OwnedBy(sh, t, OnModel(p))
        && PostsBy(sh, t, OnModel(p))
    ensures OwnedBy(n.sh, t, n.pc) && PostsBy(n.sh, t, n.pc)
  {
    OwnedAfterModel(sh, t, p.m, n.sh.models[p.m], OnModel(p), n.pc);
  }

  /** A step of Model.Close that changes nothing shared: inside the teardown, or outside. */
  lemma ModelTearsOn(sh: Shared, t: nat, p: ModelPc, l: ModelStep, n: Local)
    requires ModelLeads(sh, t, p, l, n)
    requires l.MLockCalls? || l.MLockMu? || l.MLookClosed? || l.MLookOpen? || l.MFreeNext? || l.MGone?
    requires OwnedBy(sh, t, OnModel(p)) && PostsBy(sh, t, OnModel(p))
    ensures OwnedBy(n.sh, t, n.pc) && PostsBy(n.sh, t, n.pc)
  {
    assert forall m: nat :: TearingModel(OnModel(p), m) ==> TearingModel(n.pc, m);
  }

  lemma ModelMovesOn(sh: Shared, t: nat, p: ModelPc, l: ModelStep, n: Local)
    requires ModelLeads(sh, t, p, l, n)
    requires l.MLockClose? || l.MAgain? || l.MUnlockCalls? || l.MUnlockClose? || l.MReturn?
    requires OwnedBy(sh, t, OnModel(p)) && PostsBy(sh, t, OnModel(p))
    ensures OwnedBy(n.sh, t, n.pc) && PostsBy(n.sh, t, n.pc)
  {
    assert forall m: nat :: !TearingModel(OnModel(p), m);
  }

  lemma ModelOwned(sh: Shared, t: nat, p: ModelPc, l: ModelStep, n: Local)
    requires ModelLeads(sh, t, p, l, n)
    requires OwnedBy(sh, t, OnModel(p)) && PostsBy(sh, t, OnModel(p))
    ensures OwnedBy(n.sh, t, n.pc) && PostsBy(n.sh, t, n.pc)
  {
    if l.MFirst? || l.MBegin? || l.MEnd? || l.MStoreErr? {
      ModelWriteOwned(sh, t, p, l, n);
    } else if l.MLockClose? || l.MAgain? || l.MUnlockCalls? || l.MUnlockClose? || l.MReturn? {
      ModelMovesOn(sh, t, p, l, n);
    } else {
      ModelTearsOn(sh, t, p, l, n);
    }
  }

  lemma ModelKeeps(sh: Shared, t: nat, p: ModelPc, l: ModelStep, n: Local)
    requires ModelLeads(sh, t, p, l, n)
    requires Before(sh, t, OnModel(p), n.pc)
    ensures After(sh, n.sh, t, OnModel(p), n.pc)
  {
    ModelSafe(sh, t, p, l, n);
    ModelAtNext(sh, t, p, l, n);
    ModelOwned(sh, t, p, l, n);
  }

  // ----- Llama.Close ---------------------------------------------------------------------------

  lemma InstShared(sh: Shared, t: nat, err: Err)
    requires SharedInv(sh) && sh.published && (sh.taken ==> sh.closed)
    ensures !sh.closed ==> SharedInv(InstClosedBy(sh, t))
    ensures sh.closed ==> SharedInv(Taken(sh))
    ensures EngineReleased(sh) && KeptIsReported(sh, err) ==> SharedInv(InstTornDown(sh, err))
  {
    assert forall m :: m in sh.models ==> ModelOk(sh.models[m], sh.eng, sh.closed);
  }

  lemma ClosedGuarantees(sh: Shared, t: nat, pc: Pc)
    requires HoldsExcl(pc, InstClose) && Holds(pc, Hands) && !sh.closed && sh.closer.None?
    ensures Guarantee(sh, InstClosedBy(sh, t), t, pc)
  {
    Unchanged(sh, t, pc);
  }

  lemma TornGuarantees(sh: Shared, t: nat, pc: Pc, err: Err)
    requires HoldsExcl(pc, InstClose) && Holds(pc, Hands) && !sh.torn
    ensures Guarantee(sh, InstTornDown(sh, err), t, pc)
  {
    Unchanged(sh, t, pc);
  }

  lemma TakenGuarantees(sh: Shared, t: nat)
    requires sh.closed
    ensures Guarantee(sh, Taken(sh), t, OnInst(LTake))
  {
    Unchanged(sh, t, OnInst(LTake));
  }

  lemma ReleaseShared(sh: Shared, unmap: bool)
    requires SharedInv(sh) && sh.closed && sh.taken && !sh.torn && AllFreed(sh.ctxs) && (unmap ==> sh.trapBy.None?)
    ensures SharedInv(ReleaseEngine(sh, unmap))
  {}

  lemma ReleaseGuarantees(sh: Shared, t: nat, pc: Pc, unmap: bool)
    requires HoldsExcl(pc, InstClose) && HoldsExcl(pc, Mu) && Holds(pc, Hands) && sh.closed && sh.eng in sh.engines
    ensures Guarantee(sh, ReleaseEngine(sh, unmap), t, pc)
  {
    Unchanged(sh, t, pc);
  }

  lemma CloseSafe(sh: Shared, t: nat, p: InstPc, l: CloseStep, n: Local)
    requires CloseLeads(sh, t, p, l, n)
    requires SharedInv(sh) && InstAt(sh, t, p)
    ensures SharedInv(n.sh) && Guarantee(sh, n.sh, t, OnInst(p))
  {
    match l
    case LFirst => InstShared(sh, t, {}); ClosedGuarantees(sh, t, OnInst(p));
    case LTakeAll => InstShared(sh, t, {}); TakenGuarantees(sh, t);
    case LDoAbandon => ReleaseShared(sh, false); ReleaseGuarantees(sh, t, OnInst(p), false);
    case LDoRelease(gone) => ReleaseShared(sh, gone); ReleaseGuarantees(sh, t, OnInst(p), gone);
    case LStoreErr => InstShared(sh, t, p.err); TornGuarantees(sh, t, OnInst(p), p.err);
    case _ => Unchanged(sh, t, OnInst(p));
  }

  lemma InstLocks(sh: Shared, t: nat)
    requires SharedInv(sh) && OwnedBy(sh, t, OnInst(LWant)) && Unlocked(sh, t, OnInst(LGot))
    ensures sh.closed ==> sh.torn
  {
    assert !TearingInst(OnInst(LWant));
  }

  /** Nothing is left to trap: the memory may be given back if no trap was noted. */
  lemma UnwedgedMeansNoTrap(sh: Shared, t: nat, p: InstPc)
    requires SharedInv(sh) && InstAt(sh, t, p) && p.LFree? && p.rest == {} && !sh.wedged
    requires OwnedBy(sh, t, OnInst(p)) && TrapsNoted(sh, t)
    ensures AllFreed(sh.ctxs) && sh.trapBy.None?
  {
    assert !Noting(OnInst(p));
  }

  lemma CloseLocksAt(sh: Shared, t: nat, p: InstPc, l: CloseStep, n: Local)
    requires CloseLeads(sh, t, p, l, n)
    requires l.LLockClose? || l.LUnwedged? || l.LLockRec?
    requires Before(sh, t, OnInst(p), n.pc)
    ensures At(n.sh, t, n.pc)
  {
    if l.LLockClose? {
      InstLocks(sh, t);
    } else if l.LUnwedged? {
      UnwedgedMeansNoTrap(sh, t, p);
    } else {
      RecordLocks(sh, t, OnInst(p), OnInst(LTake));
    }
  }

  lemma CloseMovesAt(sh: Shared, t: nat, p: InstPc, l: CloseStep, n: Local)
    requires CloseLeads(sh, t, p, l, n)
    requires l.LAgain? || l.LLockMu? || l.LFreeNext? || l.LWedged? || l.LUnlock? || l.LReturn?
    requires SharedInv(sh) && InstAt(sh, t, p)
    ensures At(n.sh, t, n.pc)
  {
    assert l.LFreeNext? ==> p.rest - {l.c} + {l.c} == p.rest;
  }

  lemma CloseWritesAt(sh: Shared, t: nat, p: InstPc, l: CloseStep, n: Local)
    requires CloseLeads(sh, t, p, l, n)
    requires l.LFirst? || l.LTakeAll? || l.LDoAbandon? || l.LDoRelease? || l.LStoreErr?
    requires SharedInv(sh) && InstAt(sh, t, p)
    ensures At(n.sh, t, n.pc)
  {}

  lemma CloseAtNext(sh: Shared, t: nat, p: InstPc, l: CloseStep, n: Local)
    requires CloseLeads(sh, t, p, l, n)
    requires Before(sh, t, OnInst(p), n.pc)
    ensures At(n.sh, t, n.pc)
  {
    if l.LLockClose? || l.LUnwedged? || l.LLockRec? {
      CloseLocksAt(sh, t, p, l, n);
    } else if l.LFirst? || l.LTakeAll? || l.LDoAbandon? || l.LDoRelease? || l.LStoreErr? {
      CloseWritesAt(sh, t, p, l, n);
    } else {
      CloseMovesAt(sh, t, p, l, n);
    }
  }

  lemma CloseOwned(sh: Shared, t: nat, p: InstPc, l: CloseStep, n: Local)
    requires CloseLeads(sh, t, p, l, n)
    requires OwnedBy(sh, t, OnInst(p)) && PostsBy(sh, t, OnInst(p))
    ensures OwnedBy(n.sh, t, n.pc)
    ensures PostsBy(n.sh, t, n.pc)
  {}

  lemma CloseKeeps(sh: Shared, t: nat, p: InstPc, l: CloseStep, n: Local)
    requires CloseLeads(sh, t, p, l, n)
    requires Before(sh, t, OnInst(p), n.pc)
    ensures After(sh, n.sh, t, OnInst(p), n.pc)
  {
    CloseSafe(sh, t, p, l, n);
    CloseAtNext(sh, t, p, l, n);
    CloseOwned(sh, t, p, l, n);
  }

  // ----- LoadModel, Fork --------------------------------------------------------------------------

  lemma SwapSafe(sh: Shared, t: nat, e: nat)
    requires SharedInv(sh) && LoadAt(sh, t, OIn) && sh.builder.None? && sh.loaded == 0 && e !in sh.engines
    ensures SharedInv(Swapped(sh, e, t)) && Guarantee(sh, Swapped(sh, e, t), t, OnLoad(OIn))
  {
    Unchanged(sh, t, OnLoad(OIn));
  }

  lemma LoadedSafe(sh: Shared, t: nat, m: nat)
    requires SharedInv(sh) && LoadAt(sh, t, OIn) && m !in sh.models
    ensures SharedInv(Loaded(sh, m)) && Guarantee(sh, Loaded(sh, m), t, OnLoad(OIn))
  {
    Unchanged(sh, t, OnLoad(OIn));
    var sh' := Loaded(sh, m);
    assert CtxsInv(sh'.ctxs, sh'.models) && ModelsInv(sh'.ctxs, sh'.models, sh'.eng, sh'.closed);
  }

  lemma OldClosedSafe(sh: Shared, t: nat, e: nat, m: nat)
    requires SharedInv(sh) && LoadAt(sh, t, OSwapped(e))
    ensures SharedInv(Loaded(OldClosed(sh, e), m)) && Guarantee(sh, Loaded(OldClosed(sh, e), m), t, OnLoad(OSwapped(e)))
  {
    Unchanged(sh, t, OnLoad(OSwapped(e)));
    var sh' := Loaded(OldClosed(sh, e), m);
    assert CtxsInv(sh'.ctxs, sh'.models) && ModelsInv(sh'.ctxs, sh'.models, sh'.eng, sh'.closed);
  }

  lemma LoadSafe(sh: Shared, t: nat, p: LoadPc, l: LoadStep, n: Local)
    requires LoadLeads(sh, t, p, l, n)
    requires SharedInv(sh) && LoadAt(sh, t, p)
    ensures SharedInv(n.sh) && Guarantee(sh, n.sh, t, OnLoad(p))
  {
    match l
    case OSwap(e) => SwapSafe(sh, t, e);
    case OCloseOld(m) => OldClosedSafe(sh, t, p.oldEng, m);
    case OLoad(m) => LoadedSafe(sh, t, m);
    case _ => Unchanged(sh, t, OnLoad(p));
  }

  lemma LoadAtNext(sh: Shared, t: nat, p: LoadPc, l: LoadStep, n: Local)
    requires LoadLeads(sh, t, p, l, n)
    requires Before(sh, t, OnLoad(p), n.pc)
    ensures At(n.sh, t, n.pc)
  {
    if l.OAdmit? {
      OpenMeansUntaken(sh, t, OnLoad(p), OnLoad(OIn));
    }
    assert l.OLock? ==> !Swapping(OnLoad(p));
  }

  lemma LoadOwned(sh: Shared, t: nat, p: LoadPc, l: LoadStep, n: Local)
    requires LoadLeads(sh, t, p, l, n)
    requires OwnedBy(sh, t, OnLoad(p)) && PostsBy(sh, t, OnLoad(p))
    ensures OwnedBy(n.sh, t, n.pc)
    ensures PostsBy(n.sh, t, n.pc)
  {}

  lemma LoadKeeps(sh: Shared, t: nat, p: LoadPc, l: LoadStep, n: Local)
    requires LoadLeads(sh, t, p, l, n)
    requires Before(sh, t, OnLoad(p), n.pc)
    ensures After(sh, n.sh, t, OnLoad(p), n.pc)
  {
    LoadSafe(sh, t, p, l, n);
    LoadAtNext(sh, t, p, l, n);
    LoadOwned(sh, t, p, l, n);
  }

  lemma HandOutSafe(sh: Shared, t: nat, p: ForkPc)
    requires SharedInv(sh) && ForkAt(sh, t, p)
    ensures SharedInv(Published(sh)) && Guarantee(sh, Published(sh), t, OnFork(p))
  {
    Unchanged(sh, t, OnFork(p));
  }

  lemma NotedHandOutSafe(sh: Shared, t: nat, p: ForkPc)
    requires SharedInv(sh) && ForkAt(sh, t, p) && p.ANote?
    ensures SharedInv(Published(NoteTrap(sh, p.res))) && Guarantee(sh, Published(NoteTrap(sh, p.res)), t, OnFork(p))
  {
    Unchanged(sh, t, OnFork(p));
  }

  lemma ForkSafe(sh: Shared, t: nat, p: ForkPc, l: ForkStep, n: Local)
    requires ForkLeads(sh, t, p, l, n)
    requires SharedInv(sh) && ForkAt(sh, t, p)
    ensures SharedInv(n.sh) && Guarantee(sh, n.sh, t, OnFork(p))
  {
    match l
    case Attached(_) => Unchanged(sh, t, OnFork(p));
    case AFailed(res) =>
      TrapShared(sh, t, res);
      TrapGuarantees(sh, t, OnFork(p), res);
    case ANoteTrap => NotedHandOutSafe(sh, t, p);
    case _ => HandOutSafe(sh, t, p);
  }

  lemma ForkAtNext(sh: Shared, t: nat, p: ForkPc, l: ForkStep, n: Local)
    requires ForkLeads(sh, t, p, l, n)
    requires ForkAt(sh, t, p) && FlagsInv(sh)
    ensures At(n.sh, t, n.pc)
  {}

  lemma PublishedOwned(sh: Shared, t: nat, pc: Pc)
    requires OwnedBy(sh, t, pc) && PostsBy(sh, t, pc)
    ensures OwnedBy(Published(sh), t, pc) && PostsBy(Published(sh), t, pc)
  {}

  lemma ForkOwned(sh: Shared, t: nat, p: ForkPc, l: ForkStep, n: Local)
    requires ForkLeads(sh, t, p, l, n)
    requires OwnedBy(sh, t, OnFork(p)) && PostsBy(sh, t, OnFork(p))
    ensures OwnedBy(n.sh, t, n.pc)
    ensures PostsBy(n.sh, t, n.pc)
  {
    match l
    case Attached(c) => TrapOwned(sh, t, OnFork(p), OnFork(Attach(p.rest - {c})));
    case AFailed(res) =>
      TrapOwned(sh, t, OnFork(p), OnFork(ANote(res)));
      OwnedAfterTrap(sh, t, res, OnFork(ANote(res)));
    case ANoteTrap =>
      OwnedAfterNote(sh, t, p.res, OnFork(p), OnInst(LWant));
      PublishedOwned(NoteTrap(sh, p.res), t, OnInst(LWant));
    case AGiveUp =>
      TrapOwned(sh, t, OnFork(p), OnInst(LWant));
      PublishedOwned(sh, t, OnInst(LWant));
    case AHandOut =>
      TrapOwned(sh, t, OnFork(p), Idle);
      PublishedOwned(sh, t, Idle);
  }

  lemma ForkKeeps(sh: Shared, t: nat, p: ForkPc, l: ForkStep, n: Local)
    requires ForkLeads(sh, t, p, l, n)
    requires Before(sh, t, OnFork(p), n.pc)
    ensures After(sh, n.sh, t, OnFork(p), n.pc)
  {
    ForkSafe(sh, t, p, l, n);
    ForkAtNext(sh, t, p, l, n);
    ForkOwned(sh, t, p, l, n);
  }

  // ----- NewSnapshot ------------------------------------------------------------------------------

  lemma JobAfterWrite(sh: Shared, t: nat, c: nat, job: Job, x: Ctx)
    requires c in sh.ctxs && KeepAt(sh, t, c, job) && SameFate(sh.ctxs[c], x) && CtxFurther(sh.ctxs[c], x)
    ensures KeepAt(SetCtx(sh, c, x), t, c, job)
  {
    CtxsWritten(sh.ctxs, c, x);
    JobGrows(sh, SetCtx(sh, c, x), t, c, job, job.rest + {c});
  }

  lemma JobLeft(sh: Shared, sh': Shared, t: nat, c: nat, job: Job)
    requires KeepAt(sh, t, c, job) && SameInstance(sh, sh') && sh'.ctxs == sh.ctxs
    ensures KeepAt(sh', t, c, job)
  {
    CtxsLeft(sh.ctxs, c);
    JobGrows(sh, sh', t, c, job, job.rest + {c});
  }

  /** The retiring thread holds the context; only its own program counter moves. */
  lemma KeepOwned(sh: Shared, t: nat, pc: Pc, pc': Pc)
    requires OwnedBy(sh, t, pc) && PostsBy(sh, t, pc) && (pc.Keep? || pc.OnRetire?) && Builds(pc')
    requires HoldsExcl(pc, Hands) ==> HoldsExcl(pc', Hands)
    requires Noting(pc) ==> Noting(pc')
    ensures OwnedBy(sh, t, pc') && PostsBy(sh, t, pc')
  {}

  lemma KeepWriteOwned(sh: Shared, t: nat, c: nat, x: Ctx, pc: Pc)
    requires c in sh.ctxs && OwnedBy(sh, t, pc) && PostsBy(sh, t, pc)
    requires x.busy == sh.ctxs[c].busy && x.maker == sh.ctxs[c].maker
    ensures OwnedBy(SetCtx(sh, c, x), t, pc) && PostsBy(SetCtx(sh, c, x), t, pc)
  {}

  lemma KSetClosedSafe(sh: Shared, t: nat, c: nat, job: Job, sh': Shared)
    requires SharedInv(sh) && c in sh.ctxs
    requires sh' == SetCtx(sh, c, sh.ctxs[c].(closed := true))
    ensures SharedInv(sh')
    ensures Guarantee(sh, sh', t, Keep(c, job, KpStart))
  {
    assert CtxOk(sh.ctxs[c]);
    CtxWrite(sh, t, Keep(c, job, KpStart), c, sh.ctxs[c].(closed := true));
  }

  lemma KSetClosedAt(sh: Shared, t: nat, c: nat, job: Job, sh': Shared)
    requires KeepingAt(sh, t, c, job, KpStart)
    requires sh' == SetCtx(sh, c, sh.ctxs[c].(closed := true))
    ensures KeepingAt(sh', t, c, job, KpWant)
  {
    JobAfterWrite(sh, t, c, job, sh.ctxs[c].(closed := true));
  }

  lemma KSetClosedOwned(sh: Shared, t: nat, c: nat, job: Job, sh': Shared)
    requires c in sh.ctxs && OwnedBy(sh, t, Keep(c, job, KpStart)) && PostsBy(sh, t, Keep(c, job, KpStart))
    requires sh' == SetCtx(sh, c, sh.ctxs[c].(closed := true))
    ensures OwnedBy(sh', t, Keep(c, job, KpWant))
    ensures PostsBy(sh', t, Keep(c, job, KpWant))
  {
    KeepOwned(sh, t, Keep(c, job, KpStart), Keep(c, job, KpWant));
    KeepWriteOwned(sh, t, c, sh.ctxs[c].(closed := true), Keep(c, job, KpWant));
  }

  lemma KCloseSlotsOwned(sh: Shared, t: nat, c: nat, job: Job, s: nat, sh': Shared)
    requires KeepEnabled(sh, c, KpSlots(s), KCloseSlots)
    requires OwnedBy(sh, t, Keep(c, job, KpSlots(s))) && PostsBy(sh, t, Keep(c, job, KpSlots(s)))
    requires sh' == SetView(sh, s, V.Apply(sh.slots[s].view, V.SetClosed))
    ensures OwnedBy(sh', t, Keep(c, job, KpWait(s)))
    ensures PostsBy(sh', t, Keep(c, job, KpWait(s)))
  {}

  lemma KCloseSlotsAt(sh: Shared, t: nat, c: nat, job: Job, s: nat, sh': Shared)
    requires KeepEnabled(sh, c, KpSlots(s), KCloseSlots) && KeepingAt(sh, t, c, job, KpSlots(s))
    requires sh' == SetView(sh, s, V.Apply(sh.slots[s].view, V.SetClosed))
    ensures KeepingAt(sh', t, c, job, KpWait(s))
  {
    JobLeft(sh, SetView(sh, s, V.Apply(sh.slots[s].view, V.SetClosed)), t, c, job);
  }

  /** The guest's free of the pool returns. */
  lemma PoolGone(sh: Shared, t: nat, job: Job, c: nat, res: E.Result, err: Err, sh': Shared)
    requires SharedInv(sh) && KeepAt(sh, t, c, job) && KeepFacts(sh, c, KpPool)
    requires sh' == Trapped(SetCtx(sh, c, Joined(sh.ctxs[c], err)), t, res)
    ensures SharedInv(sh')
    ensures Guarantee(sh, sh', t, Keep(c, job, KpPool))
  {
    assert CtxOk(sh.ctxs[c]);
    ManagedShared(sh, t, c, Joined(sh.ctxs[c], err), res);
    ManagedGuarantees(sh, t, Keep(c, job, KpPool), c, Joined(sh.ctxs[c], err), res);
  }

  lemma JobAfterTrap(sh: Shared, t: nat, c: nat, job: Job, res: E.Result)
    requires KeepAt(sh, t, c, job)
    ensures KeepAt(Trapped(sh, t, res), t, c, job)
  {
    if res.Trap? && sh.trapBy.None? {
      JobLeft(sh, sh.(trapBy := Some(t)), t, c, job);
    }
  }

  lemma KCloseSlotsSafe(sh: Shared, t: nat, c: nat, job: Job, s: nat, sh': Shared)
    requires SharedInv(sh) && KeepEnabled(sh, c, KpSlots(s), KCloseSlots)
    requires sh' == SetView(sh, s, V.Apply(sh.slots[s].view, V.SetClosed))
    ensures SharedInv(sh') && Guarantee(sh, sh', t, Keep(c, job, KpSlots(s)))
  {
    SlotsClosed(sh, t, Keep(c, job, KpSlots(s)), s, sh');
  }

  lemma KEndAt(sh: Shared, t: nat, c: nat, job: Job, res: E.Result, err: Err, sh': Shared)
    requires KeepingAt(sh, t, c, job, KpPool)
    requires sh' == Trapped(SetCtx(sh, c, Joined(sh.ctxs[c], err)), t, res)
    ensures KeepingAt(sh', t, c, job, KpNote(res, err))
  {
    JobAfterWrite(sh, t, c, job, Joined(sh.ctxs[c], err));
    JobAfterTrap(SetCtx(sh, c, Joined(sh.ctxs[c], err)), t, c, job, res);
  }

  lemma KEndOwned(sh: Shared, t: nat, c: nat, job: Job, res: E.Result, err: Err, sh': Shared)
    requires c in sh.ctxs && OwnedBy(sh, t, Keep(c, job, KpPool)) && PostsBy(sh, t, Keep(c, job, KpPool))
    requires sh' == Trapped(SetCtx(sh, c, Joined(sh.ctxs[c], err)), t, res)
    ensures OwnedBy(sh', t, Keep(c, job, KpNote(res, err)))
    ensures PostsBy(sh', t, Keep(c, job, KpNote(res, err)))
  {
    KeepOwned(sh, t, Keep(c, job, KpPool), Keep(c, job, KpNote(res, err)));
    KeepWriteOwned(sh, t, c, Joined(sh.ctxs[c], err), Keep(c, job, KpNote(res, err)));
    OwnedAfterTrap(SetCtx(sh, c, Joined(sh.ctxs[c], err)), t, res, Keep(c, job, KpNote(res, err)));
  }

  lemma KNoteAt(sh: Shared, t: nat, c: nat, job: Job, res: E.Result, err: Err, sh': Shared)
    requires KeepingAt(sh, t, c, job, KpNote(res, err))
    requires sh' == NoteTrap(sh, res)
    ensures KeepingAt(sh', t, c, job, KpDone(err))
  {
    JobLeft(sh, NoteTrap(sh, res), t, c, job);
  }

  lemma KNoteOwned(sh: Shared, t: nat, c: nat, job: Job, res: E.Result, err: Err, sh': Shared)
    requires OwnedBy(sh, t, Keep(c, job, KpNote(res, err))) && PostsBy(sh, t, Keep(c, job, KpNote(res, err)))
    requires sh' == NoteTrap(sh, res)
    ensures OwnedBy(sh', t, Keep(c, job, KpDone(err)))
    ensures PostsBy(sh', t, Keep(c, job, KpDone(err)))
  {
    OwnedAfterNote(sh, t, res, Keep(c, job, KpNote(res, err)), Keep(c, job, KpDone(err)));
  }

  lemma KNoteSafe(sh: Shared, t: nat, c: nat, job: Job, res: E.Result, err: Err, sh': Shared)
    requires SharedInv(sh) && KeepingAt(sh, t, c, job, KpNote(res, err))
    requires sh' == NoteTrap(sh, res)
    ensures SharedInv(sh') && Guarantee(sh, sh', t, Keep(c, job, KpNote(res, err)))
  {
    NoteSafe(sh, t, Keep(c, job, KpNote(res, err)), res);
  }

  lemma KLookAt(sh: Shared, t: nat, c: nat, job: Job, k: KeepPc, l: KeepStep, n: Local)
    requires KeepLeads(sh, t, c, job, k, l, n)
    requires l.KLook? && SharedInv(sh) && KeepingAt(sh, t, c, job, k)
    ensures n.sh == sh && n.pc == Keep(c, job, n.pc.keep) && KeepingAt(sh, t, c, job, n.pc.keep)
  {
    RecordedSlots(sh, c);
  }

  lemma KUnlockAt(sh: Shared, t: nat, c: nat, job: Job, k: KeepPc, l: KeepStep, n: Local)
    requires KeepLeads(sh, t, c, job, k, l, n)
    requires l.KUnlock? && KeepingAt(sh, t, c, job, k)
    ensures n.sh == sh && At(n.sh, t, n.pc)
  {}

  lemma KMovesAt(sh: Shared, t: nat, c: nat, job: Job, k: KeepPc, l: KeepStep, n: Local)
    requires KeepLeads(sh, t, c, job, k, l, n)
    requires (l.KLock? || l.KWaited? || l.KBegin?) && SharedInv(sh) && KeepingAt(sh, t, c, job, k)
    ensures n.sh == sh && n.pc == Keep(c, job, n.pc.keep) && KeepingAt(sh, t, c, job, n.pc.keep)
  {
    assert l.KWaited? ==> ViewOk(sh.slots[k.sw].view);
  }

  lemma KSilentOwned(sh: Shared, t: nat, c: nat, job: Job, k: KeepPc, l: KeepStep, n: Local)
    requires KeepLeads(sh, t, c, job, k, l, n)
    requires l.KLock? || l.KLook? || l.KWaited? || l.KBegin? || l.KUnlock?
    requires OwnedBy(sh, t, Keep(c, job, k)) && PostsBy(sh, t, Keep(c, job, k))
    ensures OwnedBy(sh, t, n.pc) && PostsBy(sh, t, n.pc)
  {
    KeepOwned(sh, t, Keep(c, job, k), n.pc);
  }

  lemma KeepSafe(sh: Shared, t: nat, c: nat, job: Job, k: KeepPc, l: KeepStep, n: Local)
    requires KeepLeads(sh, t, c, job, k, l, n)
    requires SharedInv(sh) && KeepingAt(sh, t, c, job, k)
    ensures SharedInv(n.sh) && Guarantee(sh, n.sh, t, Keep(c, job, k))
  {
    match l
    case KSetClosed => KSetClosedSafe(sh, t, c, job, n.sh);
    case KCloseSlots => KCloseSlotsSafe(sh, t, c, job, k.s, n.sh);
    case KEnd(_, _) => PoolGone(sh, t, job, c, l.res, Codes(l.res, l.reply), n.sh);
    case KNoteTrap => KNoteSafe(sh, t, c, job, k.res, k.err, n.sh);
    case _ => Unchanged(sh, t, Keep(c, job, k));
  }

  lemma KeepingIsAt(sh: Shared, t: nat, c: nat, job: Job, k: KeepPc)
    requires KeepingAt(sh, t, c, job, k)
    ensures At(sh, t, Keep(c, job, k))
  {}

  lemma AtKeeping(sh: Shared, t: nat, c: nat, job: Job, k: KeepPc)
    requires At(sh, t, Keep(c, job, k))
    ensures KeepingAt(sh, t, c, job, k)
  {}

  lemma KeepWritesAt(sh: Shared, t: nat, c: nat, job: Job, k: KeepPc, l: KeepStep, n: Local)
    requires KeepLeads(sh, t, c, job, k, l, n)
    requires l.KSetClosed? || l.KCloseSlots? || l.KEnd? || l.KNoteTrap?
    requires KeepingAt(sh, t, c, job, k)
    ensures n.pc == Keep(c, job, n.pc.keep) && KeepingAt(n.sh, t, c, job, n.pc.keep)
  {
    match l
    case KSetClosed => KSetClosedAt(sh, t, c, job, n.sh);
    case KCloseSlots => KCloseSlotsAt(sh, t, c, job, k.s, n.sh);
    case KEnd(_, _) => KEndAt(sh, t, c, job, l.res, Codes(l.res, l.reply), n.sh);
    case KNoteTrap => KNoteAt(sh, t, c, job, k.res, k.err, n.sh);
  }

  lemma KeepAtNext(sh: Shared, t: nat, c: nat, job: Job, k: KeepPc, l: KeepStep, n: Local)
    requires KeepLeads(sh, t, c, job, k, l, n)
    requires SharedInv(sh) && KeepingAt(sh, t, c, job, k)
    ensures At(n.sh, t, n.pc)
  {
    if l.KUnlock? {
      KUnlockAt(sh, t, c, job, k, l, n);
    } else {
      if l.KLook? {
        KLookAt(sh, t, c, job, k, l, n);
      } else if l.KLock? || l.KWaited? || l.KBegin? {
        KMovesAt(sh, t, c, job, k, l, n);
      } else {
        KeepWritesAt(sh, t, c, job, k, l, n);
      }
      KeepingIsAt(n.sh, t, c, job, n.pc.keep);
    }
  }

  lemma KeepOwnedNext(sh: Shared, t: nat, c: nat, job: Job, k: KeepPc, l: KeepStep, n: Local)
    requires KeepLeads(sh, t, c, job, k, l, n)
    requires OwnedBy(sh, t, Keep(c, job, k)) && PostsBy(sh, t, Keep(c, job, k))
    ensures OwnedBy(n.sh, t, n.pc) && PostsBy(n.sh, t, n.pc)
  {
    match l
    case KSetClosed => KSetClosedOwned(sh, t, c, job, n.sh);
    case KCloseSlots => KCloseSlotsOwned(sh, t, c, job, k.s, n.sh);
    case KEnd(_, _) => KEndOwned(sh, t, c, job, l.res, Codes(l.res, l.reply), n.sh);
    case KNoteTrap => KNoteOwned(sh, t, c, job, k.res, k.err, n.sh);
    case _ => KSilentOwned(sh, t, c, job, k, l, n);
  }

  lemma KeepKeeps(sh: Shared, t: nat, c: nat, job: Job, k: KeepPc, l: KeepStep, n: Local)
    requires KeepLeads(sh, t, c, job, k, l, n)
    requires Before(sh, t, Keep(c, job, k), n.pc)
    ensures After(sh, n.sh, t, Keep(c, job, k), n.pc)
  {
    ItsOwn(sh, t, Keep(c, job, k), n.pc);
    AtKeeping(sh, t, c, job, k);
    KeepSafe(sh, t, c, job, k, l, n);
    KeepAtNext(sh, t, c, job, k, l, n);
    KeepOwnedNext(sh, t, c, job, k, l, n);
  }

  lemma BuildTakenSafe(sh: Shared, t: nat, p: RetirePc)
    requires SharedInv(sh) && RetireAt(sh, t, p) && p.RTake?
    ensures SharedInv(Taken(sh)) && Guarantee(sh, Taken(sh), t, OnRetire(p))
  {
    Unchanged(sh, t, OnRetire(p));
    assert forall m :: m in sh.models ==> ModelOk(sh.models[m], sh.eng, sh.closed);
  }

  /** The engine of a build changes: if it was released by a Close, no trap is on record. */
  lemma BuildEngineSafe(sh: Shared, t: nat, p: RetirePc, x: Engine)
    requires SharedInv(sh) && sh.builder == Some(t) && !p.Building? && sh.taken && OpenOrTorn(sh)
    requires ImageOk(sh, x) && (sh.trapBy.Some? ==> if sh.closed then x == sh.engines[sh.eng] else Stays(x))
    requires (EngineReleased(sh) ==> x.released) && (Preserved(sh) ==> x.preserve)
    requires sh.torn && Stays(x) ==> Stays(sh.engines[sh.eng])
    ensures SharedInv(SetEngine(sh, x)) && Guarantee(sh, SetEngine(sh, x), t, OnRetire(p))
  {
    Unchanged(sh, t, OnRetire(p));
  }

  lemma RetireSafe(sh: Shared, t: nat, p: RetirePc, l: RetireStep, n: Local)
    requires RetireLeads(sh, p, l, n)
    requires SharedInv(sh) && RetireAt(sh, t, p)
    ensures SharedInv(n.sh) && Guarantee(sh, n.sh, t, OnRetire(p))
  {
    match l
    case RTakeAll => BuildTakenSafe(sh, t, p);
    case RDrop => BuildEngineSafe(sh, t, p, Finalized(sh.engines[sh.eng]));
    case RSetPreserve => BuildEngineSafe(sh, t, p, Preserving(sh.engines[sh.eng]));
    case RDoAbandon => BuildEngineSafe(sh, t, p, Released(sh.engines[sh.eng], false));
    case _ => Unchanged(sh, t, OnRetire(p));
  }

  /** The contexts that takeContexts finds are whole: nobody is freeing one. */
  lemma TakenAt(sh: Shared, t: nat, p: RetirePc, l: RetireStep, n: Local)
    requires RetireLeads(sh, p, l, n)
    requires l.RTakeAll? && Before(sh, t, OnRetire(p), n.pc)
    ensures At(n.sh, t, n.pc)
  {
    forall c | c in Unfreed(sh) ensures Alive(sh, c) {
      assert CtxOk(sh.ctxs[c]);
      assert NotFreedByOthers(sh, t, n.pc, c);
      assert !MidFree(OnRetire(p), c);
    }
  }

  lemma NextContextAt(sh: Shared, t: nat, p: RetirePc, l: RetireStep, n: Local)
    requires RetireLeads(sh, p, l, n)
    requires (l.RKeepNext? || l.RFreeNext?) && RetireAt(sh, t, p)
    ensures At(n.sh, t, n.pc)
  {
    assert p.job.rest - {l.c} + {l.c} == p.job.rest;
  }

  lemma LookedAt(sh: Shared, t: nat, p: RetirePc, l: RetireStep, n: Local)
    requires RetireLeads(sh, p, l, n)
    requires l.RLookKept? && RetireAt(sh, t, p)
    ensures At(n.sh, t, n.pc)
  {
    assert forall c :: c in p.job.kept ==> c in sh.ctxs;
  }

  lemma JudgedAt(sh: Shared, t: nat, p: RetirePc, l: RetireStep, n: Local)
    requires RetireLeads(sh, p, l, n)
    requires (l.RWedged? || l.RUnwedged?) && Before(sh, t, OnRetire(p), n.pc)
    ensures At(n.sh, t, n.pc)
  {
    if l.RUnwedged? {
      assert BuildTrapsNoted(sh, t, n.pc);
      assert !Noting(OnRetire(p));
    }
  }

  lemma LockedAt(sh: Shared, t: nat, p: RetirePc, l: RetireStep, n: Local)
    requires RetireLeads(sh, p, l, n)
    requires l.RLockRec? && Before(sh, t, OnRetire(p), n.pc)
    ensures At(n.sh, t, n.pc)
  {
    RecordLocks(sh, t, OnRetire(p), OnRetire(RTake(p.job)));
  }

  lemma BuildingAt(sh: Shared, t: nat, p: RetirePc, l: RetireStep, n: Local)
    requires RetireLeads(sh, p, l, n)
    requires (l.RRegister? || l.ROver?) && Before(sh, t, OnRetire(p), n.pc)
    ensures At(n.sh, t, n.pc)
  {
    if l.ROver? {
      assert !TearingInst(OnRetire(p)) && InstNotClosedByOthers(sh, t, n.pc);
    }
  }

  lemma EngineStepAt(sh: Shared, t: nat, p: RetirePc, l: RetireStep, n: Local)
    requires RetireLeads(sh, p, l, n)
    requires (l.RDrop? || l.RSetPreserve? || l.RDoAbandon?) && RetireAt(sh, t, p) && SharedInv(sh)
    ensures At(n.sh, t, n.pc)
  {}

  lemma RetireAtNext(sh: Shared, t: nat, p: RetirePc, l: RetireStep, n: Local)
    requires RetireLeads(sh, p, l, n)
    requires Before(sh, t, OnRetire(p), n.pc)
    ensures At(n.sh, t, n.pc)
  {
    if l.RLockRec? {
      LockedAt(sh, t, p, l, n);
    } else if l.RTakeAll? {
      TakenAt(sh, t, p, l, n);
    } else if l.RKeepNext? || l.RFreeNext? {
      NextContextAt(sh, t, p, l, n);
    } else if l.RLookKept? {
      LookedAt(sh, t, p, l, n);
    } else if l.RWedged? || l.RUnwedged? {
      JudgedAt(sh, t, p, l, n);
    } else if l.RRegister? || l.ROver? {
      BuildingAt(sh, t, p, l, n);
    } else {
      EngineStepAt(sh, t, p, l, n);
    }
  }

  lemma RetireOwned(sh: Shared, t: nat, p: RetirePc, l: RetireStep, n: Local)
    requires RetireLeads(sh, p, l, n)
    requires RetireAt(sh, t, p) && OwnedBy(sh, t, OnRetire(p)) && PostsBy(sh, t, OnRetire(p))
    ensures OwnedBy(n.sh, t, n.pc)
    ensures PostsBy(n.sh, t, n.pc)
  {
    KeepOwned(sh, t, OnRetire(p), n.pc);
  }

  lemma RetireKeeps(sh: Shared, t: nat, p: RetirePc, l: RetireStep, n: Local)
    requires RetireLeads(sh, p, l, n)
    requires Before(sh, t, OnRetire(p), n.pc)
    ensures After(sh, n.sh, t, OnRetire(p), n.pc)
  {
    RetireSafe(sh, t, p, l, n);
    RetireAtNext(sh, t, p, l, n);
    RetireOwned(sh, t, p, l, n);
  }

  // ----- any step of a thread ---------------------------------------------------------------------

  lemma ReturnKeeps(sh: Shared, t: nat, c: nat, err: Err)
    requires Before(sh, t, CtxClosed(c, err), Idle)
    ensures After(sh, sh, t, CtxClosed(c, err), Idle)
  {
    Unchanged(sh, t, CtxClosed(c, err));
  }

  /** The step begins or ends an operation, or is one of a call, an interrupt, LoadModel or Fork. */
  predicate Uses(l: Step) { l.Begin? || l.Call? || l.Interrupt? || l.CtxReturn? || l.Load? || l.Fork? }

  lemma UseKeeps(sh: Shared, t: nat, pc: Pc, l: Step, n: Local)
    requires Leads(sh, t, pc, l, n) && Uses(l) && Before(sh, t, pc, n.pc)
    ensures After(sh, n.sh, t, pc, n.pc)
  {
    match l
    case Begin(x) => StartKeeps(sh, t, x);
    case Call(x) => CallKeeps(sh, t, pc.call, x, n);
    case Interrupt(x) => InterruptKeeps(sh, t, pc.intr, x);
    case CtxReturn => ReturnKeeps(sh, t, pc.cc, pc.err);
    case Load(x) => LoadKeeps(sh, t, pc.load, x, n);
    case Fork(x) => ForkKeeps(sh, t, pc.fork, x, n);
  }

  lemma TeardownKeeps(sh: Shared, t: nat, pc: Pc, l: Step, n: Local)
    requires Leads(sh, t, pc, l, n) && !Uses(l) && Before(sh, t, pc, n.pc)
    ensures After(sh, n.sh, t, pc, n.pc)
  {
    match l
    case FreeCtx(x) => FreeKeeps(sh, t, pc.c, pc.kont, pc.f, x, n);
    case NewCtx(x) => NewKeeps(sh, t, pc.creation, x, n);
    case CloseModel(x) => ModelKeeps(sh, t, pc.model, x, n);
    case CloseInst(x) => CloseKeeps(sh, t, pc.inst, x, n);
    case KeepCtx(x) => KeepKeeps(sh, t, pc.c, pc.job, pc.keep, x, n);
    case Retire(x) => RetireKeeps(sh, t, pc.retire, x, n);
  }

  lemma DoKeeps(sh: Shared, t: nat, pc: Pc, l: Step, n: Local)
    requires Leads(sh, t, pc, l, n) && Before(sh, t, pc, n.pc)
    ensures After(sh, n.sh, t, pc, n.pc)
  {
    if Uses(l) {
      UseKeeps(sh, t, pc, l, n);
    } else {
      TeardownKeeps(sh, t, pc, l, n);
    }
  }

  lemma NamedStays(sh: Shared, sh': Shared, t: nat, pc: Pc, ts: set<nat>)
    requires Named(sh, ts) && Guarantee(sh, sh', t, pc) && t in ts
    ensures Named(sh', ts)
  {}

  lemma CompatibleSymmetric(p: Pc, q: Pc)
    requires Compatible(p, q)
    ensures Compatible(q, p)
  {}

  /** What the other threads rely on survives. */
  lemma OthersKeep(s: State, sh': Shared, t: nat, u: nat)
    requires Inv(s) && t in s.threads && u in s.threads && u != t && Guarantee(s.sh, sh', t, s.threads[t])
    ensures ThreadOk(sh', u, s.threads[u])
  {
    ThreadIsOk(s, u);
    assert Compatible(s.threads[u], s.threads[t]);
    Stable(s.sh, sh', u, s.threads[u], t, s.threads[t]);
    OwnedStable(s.sh, sh', u, s.threads[u], t, s.threads[t]);
    PostsStable(s.sh, sh', u, s.threads[u], t, s.threads[t]);
  }

  lemma CompatibleStays(threads: map<nat, Pc>, t: nat, pc: Pc)
    requires AllCompatible(threads)
    requires forall u :: u in threads && u != t ==> Compatible(threads[u], pc)
    ensures AllCompatible(threads[t := pc])
  {
    var threads' := threads[t := pc];
    forall u, v | u in threads' && v in threads' && u != v ensures Compatible(threads'[u], threads'[v]) {
      if u == t {
        CompatibleSymmetric(threads[v], pc);
      }
    }
  }

  lemma OwnKeeps(s: State, t: nat, l: Step, n: Local)
    requires Inv(s) && t in s.threads && Leads(s.sh, t, s.threads[t], l, n)
    requires forall u :: u in s.threads && u != t ==> Compatible(s.threads[u], n.pc)
    ensures After(s.sh, n.sh, t, s.threads[t], n.pc)
  {
    LocksExclude(s, t, n.pc);
    ThreadIsOk(s, t);
    DoKeeps(s.sh, t, s.threads[t], l, n);
  }

  lemma AllKeep(s: State, t: nat, sh: Shared, pc: Pc)
    requires Inv(s) && t in s.threads && Guarantee(s.sh, sh, t, s.threads[t]) && ThreadOk(sh, t, pc)
    ensures AllOk(sh, s.threads[t := pc])
  {
    var threads' := s.threads[t := pc];
    forall u | u in threads' ensures ThreadOk(sh, u, threads'[u]) {
      if u != t {
        OthersKeep(s, sh, t, u);
      }
    }
  }

  /** A step that is safe by itself is safe for all. */
  lemma AfterKeeps(s: State, t: nat, sh: Shared, pc: Pc)
    requires Inv(s) && t in s.threads && After(s.sh, sh, t, s.threads[t], pc)
    requires forall u :: u in s.threads && u != t ==> Compatible(s.threads[u], pc)
    ensures Inv(State(sh, s.threads[t := pc]))
  {
    NamedStays(s.sh, sh, t, s.threads[t], s.threads.Keys);
    assert s.threads[t := pc].Keys == s.threads.Keys;
    AllKeep(s, t, sh, pc);
    CompatibleStays(s.threads, t, pc);
  }

  lemma ThreadStepKeeps(s: State, s': State, t: nat, l: Step, n: Local)
    requires Inv(s) && ThreadStep(s, s', t, l, n)
    ensures Inv(s')
  {
    OwnKeeps(s, t, l, n);
    AfterKeeps(s, t, n.sh, n.pc);
  }

  // ----- a step of a Slots' own threads -----------------------------------------------------------

  predicate SlotsAside(x: Ctx, x': Ctx) { x' == x.(slots := x'.slots) }

  predicate SameButSlots(ctxs: map<nat, Ctx>, ctxs': map<nat, Ctx>) {
    && ctxs'.Keys == ctxs.Keys
    && forall c :: c in ctxs ==> SlotsAside(ctxs[c], ctxs'[c])
  }

  /** What a Slots' own threads never do to any of them. */
  predicate SlotsMove(slots: map<nat, SlotsRec>, slots': map<nat, SlotsRec>) {
    && slots'.Keys == slots.Keys
    && forall sid :: sid in slots ==>
         && slots'[sid].ctx == slots[sid].ctx
         && (SlotsOff(slots[sid]) ==> SlotsOff(slots'[sid]))
         && (slots[sid].view.closed ==> slots'[sid].view.closed)
         && (slots[sid].view.engine.ByPost? || slots'[sid].view.engine.ByPost? ==>
               slots'[sid].view.engine == slots[sid].view.engine)
  }

  lemma OneSlotsMoves(slots: map<nat, SlotsRec>, sid: nat, l: V.ViewStep)
    requires sid in slots && V.Enabled(slots[sid].view, l) && !l.PostBegin?
        && (l.CallEnd? ==> slots[sid].view.engine.Own?)
    ensures SlotsMove(slots, slots[sid := slots[sid].(view := V.Apply(slots[sid].view, l))])
  {}

  lemma SlotsStepMoves(sh: Shared, sid: nat, l: V.ViewStep)
    requires SlotsEnabled(sh, sid, l)
    ensures SlotsMove(sh.slots, SlotsNext(sh, sid, l).slots)
    ensures SameButSlots(sh.ctxs, SlotsNext(sh, sid, l).ctxs)
    ensures SlotsNext(sh, sid, l) == sh.(slots := SlotsNext(sh, sid, l).slots, ctxs := SlotsNext(sh, sid, l).ctxs)
  {
    OneSlotsMoves(sh.slots, sid, l);
  }

  lemma DetachSlots(ctxs: map<nat, Ctx>, slots: map<nat, SlotsRec>, sid: nat, l: V.ViewStep)
    requires SlotsInv(ctxs, slots) && sid in slots && V.Enabled(slots[sid].view, l) && !l.PostBegin?
    ensures SlotsInv(Recording(ctxs, slots[sid].ctx, sid, l), slots[sid := slots[sid].(view := V.Apply(slots[sid].view, l))])
  {}

  lemma ModelsUnmoved(ctxs: map<nat, Ctx>, ctxs': map<nat, Ctx>, models: map<nat, Model>, eng: nat, closed: bool)
    requires SameButSlots(ctxs, ctxs') && CtxsInv(ctxs, models) && ModelsInv(ctxs, models, eng, closed)
    ensures CtxsInv(ctxs', models) && ModelsInv(ctxs', models, eng, closed)
  {}

  lemma QuietUnmoved(ctxs: map<nat, Ctx>, ctxs': map<nat, Ctx>, slots: map<nat, SlotsRec>, slots': map<nat, SlotsRec>)
    requires SameButSlots(ctxs, ctxs') && SlotsMove(slots, slots') && QuietInv(ctxs, slots)
    ensures QuietInv(ctxs', slots')
  {}

  lemma RecordUnmoved(ctxs: map<nat, Ctx>, ctxs': map<nat, Ctx>, record: set<nat>, taken: bool)
    requires SameButSlots(ctxs, ctxs') && RecordInv(ctxs, record, taken)
    ensures RecordInv(ctxs', record, taken) && (AllFreed(ctxs) ==> AllFreed(ctxs'))
  {}

  lemma SlotsStepShared(sh: Shared, sid: nat, l: V.ViewStep)
    requires SharedInv(sh) && SlotsEnabled(sh, sid, l)
    ensures SharedInv(SlotsNext(sh, sid, l))
  {
    var sh' := SlotsNext(sh, sid, l);
    SlotsStepMoves(sh, sid, l);
    DetachSlots(sh.ctxs, sh.slots, sid, l);
    ModelsUnmoved(sh.ctxs, sh'.ctxs, sh.models, sh.eng, sh.closed);
    QuietUnmoved(sh.ctxs, sh'.ctxs, sh.slots, sh'.slots);
    RecordUnmoved(sh.ctxs, sh'.ctxs, sh.record, sh.taken);
  }

  lemma FreeFactsUnmoved(sh: Shared, sh': Shared, t: nat, c: nat, f: FreePc)
    requires SlotsMove(sh.slots, sh'.slots) && SameButSlots(sh.ctxs, sh'.ctxs)
        && sh' == sh.(slots := sh'.slots, ctxs := sh'.ctxs)
    requires c in sh.ctxs && FreeFacts(sh, t, c, f)
    ensures c in sh'.ctxs && FreeFacts(sh', t, c, f)
  {}

  lemma CallUnmoved(sh: Shared, sh': Shared, t: nat, p: CallPc)
    requires SlotsMove(sh.slots, sh'.slots) && SameButSlots(sh.ctxs, sh'.ctxs)
        && sh' == sh.(slots := sh'.slots, ctxs := sh'.ctxs)
    requires At(sh, t, OnCall(p))
    ensures At(sh', t, OnCall(p))
  {}

  lemma KontUnmoved(sh: Shared, sh': Shared, t: nat, c: nat, k: Kont)
    requires SameButSlots(sh.ctxs, sh'.ctxs) && sh' == sh.(slots := sh'.slots, ctxs := sh'.ctxs)
    requires c in sh.ctxs && KontAt(sh, t, c, k)
    ensures KontAt(sh', t, c, k)
  {
    KontGrows(sh, sh', t, c, k);
  }

  lemma FreeUnmoved(sh: Shared, sh': Shared, t: nat, c: nat, k: Kont, f: FreePc)
    requires SlotsMove(sh.slots, sh'.slots) && SameButSlots(sh.ctxs, sh'.ctxs)
        && sh' == sh.(slots := sh'.slots, ctxs := sh'.ctxs)
    requires At(sh, t, Free(c, k, f))
    ensures At(sh', t, Free(c, k, f))
  {
    FreeFactsUnmoved(sh, sh', t, c, f);
    KontUnmoved(sh, sh', t, c, k);
  }

  lemma KeepUnmoved(sh: Shared, sh': Shared, t: nat, c: nat, job: Job, k: KeepPc)
    requires SlotsMove(sh.slots, sh'.slots) && SameButSlots(sh.ctxs, sh'.ctxs)
        && sh' == sh.(slots := sh'.slots, ctxs := sh'.ctxs)
    requires At(sh, t, Keep(c, job, k))
    ensures At(sh', t, Keep(c, job, k))
  {
    JobGrows(sh, sh', t, c, job, job.rest + {c});
  }

  lemma RetireUnmoved(sh: Shared, sh': Shared, t: nat, p: RetirePc)
    requires SameButSlots(sh.ctxs, sh'.ctxs) && sh' == sh.(slots := sh'.slots, ctxs := sh'.ctxs)
    requires At(sh, t, OnRetire(p))
    ensures At(sh', t, OnRetire(p))
  {
    match p
    case RLoop(job) => JobFurther(sh, sh', t, job, job.rest);
    case _ =>
  }

  lemma CloserUnmoved(sh: Shared, sh': Shared, t: nat, pc: Pc)
    requires SameButSlots(sh.ctxs, sh'.ctxs) && sh' == sh.(slots := sh'.slots, ctxs := sh'.ctxs)
    requires At(sh, t, pc) && (pc.CtxClosed? || pc.OnModel? || pc.OnInst?)
    ensures At(sh', t, pc)
  {}

  lemma UserUnmoved(sh: Shared, sh': Shared, t: nat, pc: Pc)
    requires SameButSlots(sh.ctxs, sh'.ctxs) && sh' == sh.(slots := sh'.slots, ctxs := sh'.ctxs)
    requires At(sh, t, pc) && (pc.Idle? || pc.OnInterrupt? || pc.OnNew? || pc.OnLoad? || pc.OnFork?)
    ensures At(sh', t, pc)
  {}

  /** No thread relies on anything a Slots' own threads change. */
  lemma Unmoved(sh: Shared, sh': Shared, t: nat, pc: Pc)
    requires SlotsMove(sh.slots, sh'.slots) && SameButSlots(sh.ctxs, sh'.ctxs)
        && sh' == sh.(slots := sh'.slots, ctxs := sh'.ctxs)
    requires At(sh, t, pc)
    ensures At(sh', t, pc)
  {
    if pc.Free? {
      FreeUnmoved(sh, sh', t, pc.c, pc.kont, pc.f);
    } else if pc.OnCall? {
      CallUnmoved(sh, sh', t, pc.call);
    } else if pc.Keep? {
      KeepUnmoved(sh, sh', t, pc.c, pc.job, pc.keep);
    } else if pc.OnRetire? {
      RetireUnmoved(sh, sh', t, pc.retire);
    } else if pc.CtxClosed? || pc.OnModel? || pc.OnInst? {
      CloserUnmoved(sh, sh', t, pc);
    } else {
      UserUnmoved(sh, sh', t, pc);
    }
  }

  lemma OwnersUnmoved(sh: Shared, sh': Shared, t: nat, pc: Pc)
    requires SlotsMove(sh.slots, sh'.slots) && SameButSlots(sh.ctxs, sh'.ctxs)
        && sh' == sh.(slots := sh'.slots, ctxs := sh'.ctxs)
    requires OwnedBy(sh, t, pc) && PostsBy(sh, t, pc)
    ensures OwnedBy(sh', t, pc) && PostsBy(sh', t, pc)
  {}

  lemma SlotsStepKeeps(s: State, s': State, sid: nat, l: V.ViewStep)
    requires Inv(s) && SlotsStep(s, s', sid, l)
    ensures Inv(s')
  {
    SlotsStepShared(s.sh, sid, l);
    SlotsStepMoves(s.sh, sid, l);
    assert Named(s'.sh, s'.threads.Keys);
    forall t | t in s'.threads ensures ThreadOk(s'.sh, t, s'.threads[t]) {
      ThreadIsOk(s, t);
      Unmoved(s.sh, s'.sh, t, s.threads[t]);
      OwnersUnmoved(s.sh, s'.sh, t, s.threads[t]);
    }
  }

  // ----- the finalizer of an image's builder ------------------------------------------------------

  lemma FinalizedCloserAt(sh: Shared, sh': Shared, t: nat, pc: Pc)
    requires SharedInv(sh) && EngineReleased(sh) && sh.engines[sh.eng].finalizer && At(sh, t, pc)
    requires sh' == SetEngine(sh, Finalized(sh.engines[sh.eng])) && (pc.OnModel? || pc.OnInst? || pc.OnRetire?)
    ensures At(sh', t, pc)
  {}

  lemma FinalizedKontAt(sh: Shared, sh': Shared, t: nat, pc: Pc)
    requires SharedInv(sh) && EngineReleased(sh) && sh.engines[sh.eng].finalizer && At(sh, t, pc)
    requires sh' == SetEngine(sh, Finalized(sh.engines[sh.eng])) && (pc.Free? || pc.Keep?)
    ensures At(sh', t, pc)
  {}

  lemma FinalizedAt(sh: Shared, sh': Shared, t: nat, pc: Pc)
    requires SharedInv(sh) && EngineReleased(sh) && sh.engines[sh.eng].finalizer && At(sh, t, pc)
    requires sh' == SetEngine(sh, Finalized(sh.engines[sh.eng]))
    ensures At(sh', t, pc)
  {
    if pc.OnModel? || pc.OnInst? || pc.OnRetire? {
      FinalizedCloserAt(sh, sh', t, pc);
    } else if pc.Free? || pc.Keep? {
      FinalizedKontAt(sh, sh', t, pc);
    }
  }

  lemma FinalizedOwned(sh: Shared, sh': Shared, t: nat, pc: Pc)
    requires sh.eng in sh.engines && sh' == SetEngine(sh, Finalized(sh.engines[sh.eng]))
    requires OwnedBy(sh, t, pc) && PostsBy(sh, t, pc)
    ensures OwnedBy(sh', t, pc) && PostsBy(sh', t, pc)
  {}

  lemma FinalizedShared(sh: Shared, sh': Shared)
    requires SharedInv(sh) && EngineReleased(sh) && sh.engines[sh.eng].finalizer
    requires sh' == SetEngine(sh, Finalized(sh.engines[sh.eng]))
    ensures SharedInv(sh')
  {}

  lemma FinalizerKeeps(s: State, s': State)
    requires Inv(s) && FinalizerStep(s, s')
    ensures Inv(s')
  {
    FinalizedShared(s.sh, s'.sh);
    forall t | t in s'.threads ensures ThreadOk(s'.sh, t, s'.threads[t]) {
      ThreadIsOk(s, t);
      FinalizedAt(s.sh, s'.sh, t, s.threads[t]);
      FinalizedOwned(s.sh, s'.sh, t, s.threads[t]);
    }
  }

  // ----- every run -----------------------------------------------------------------------------------

  lemma NewHolds(s: State)
    requires InitNew(s)
    ensures Inv(s)
  {}

  lemma ForkHolds(s: State, t: nat)
    requires InitFork(s, t)
    ensures Inv(s)
  {}

  lemma BuildHolds(s: State, t: nat)
    requires InitBuild(s, t)
    ensures Inv(s)
  {}

  lemma InitHolds(s: State)
    requires Init(s)
    ensures Inv(s)
  {
    if InitNew(s) {
      NewHolds(s);
    } else if t :| InitFork(s, t) {
      ForkHolds(s, t);
    } else {
      var t :| InitBuild(s, t);
      BuildHolds(s, t);
    }
  }

  lemma NextKeeps(s: State, s': State)
    requires Inv(s) && Next(s, s')
    ensures Inv(s')
  {
    if t, l, n :| ThreadStep(s, s', t, l, n) {
      ThreadStepKeeps(s, s', t, l, n);
    } else if sid, l :| SlotsStep(s, s', sid, l) {
      SlotsStepKeeps(s, s', sid, l);
    } else {
      FinalizerKeeps(s, s');
    }
  }

  /** The invariant holds in every state of every run. */
  lemma {:induction false} RunKeeps(run: seq<State>, i: nat)
    requires Run(run) && i < |run|
    ensures Inv(run[i])
  {
    if i == 0 {
      InitHolds(run[0]);
    } else {
      RunKeeps(run, i - 1);
      assert Reached(run, i);
      NextKeeps(run[i - 1], run[i]);
    }
  }
}
