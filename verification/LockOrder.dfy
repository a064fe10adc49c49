/**
 No deadlock among an instance's threads, its Slots and the engine: all of them
 acquire along one order, so in every reachable state the wait-for relation has
 no cycle. Besides the locks of `InstanceState` there are each Slots' `mu` and
 `done`, the context's slotsMu, and inside the engine its gate, the module's lock
 and the memory's lock. A guest call is assumed to return, and user callbacks not
 to re-enter the engine.
 */
module LockOrder {
  import opened Options
  import opened InstanceState
  import opened InstanceSteps
  import opened InstanceRuns
  import opened InstanceInvariant
  import opened InstanceFacts
  import opened InstanceAt
  import opened InstanceSpec
  import opened InstanceProofs
  import E = EngineProtocol
  import P = SlotsProtocol
  import U = SlotsRuns
  import R = SlotsRefinement
  import S = SlotsProofs

  datatype Res =
    | Of(l: Lock) | SlotsDone(sid: nat) | SlotsMu(sid: nat) | CtxSlotsMu(c: nat)
    | Gate | ModLock | MemLock

  /** A thread of the instance; the scheduler of a Slots; whichever of a Slots' own
      threads is inside the engine. */
  datatype Node = Thread(t: nat) | Scheduler(sid: nat) | EngineUser(sid: nat)

  /** What a node is doing at its program counter. `announced`: an exclusive waiter
      that new readers stand behind (Go's RWMutex.Lock, but not TryLock). */
  datatype Doing =
    | Runs
    | Waits(r: Res, announced: bool)
    | InGate                 // a call that holds the gate, shared: on its way in or out, or in a callback
    | InvokeWaits            // and waits for the module's lock
    | InGuest                // and has it
    | InGuestWaits | Grows   // and waits for the memory's lock, or has it, to grow the memory
    | Touches                // an interrupt, with the memory's lock
    | ReleaseWaitsModule     // a release that holds the gate, exclusively
    | Releases               // and the module's lock
    | ReleaseWaitsMemory     // and waits for the memory's lock
    | Detaches               // and has it

  // ----- the order --------------------------------------------------------------------

  function Level(r: Res): nat {
    match r
    case Of(Hands) => 0
    case Of(InstClose) => 1
    case Of(Mu) => 2
    case Of(ModelClose(_)) => 3
    case Of(ModelCalls(_)) => 4
    case Of(CtxMu) => 5
    case Of(CtxCalls(_)) => 6
    case SlotsDone(_) => 7
    case SlotsMu(_) => 8
    case CtxSlotsMu(_) => 9
    case Of(IntMu(_)) => 10
    case Gate => 11
    case ModLock => 12
    case MemLock => 13
  }

  /** Contexts among themselves are ordered by handle. */
  function Handle(r: Res): nat { if r.Of? && r.l.CtxCalls? then r.l.c else 0 }

  predicate Below(a: Res, b: Res) {
    Level(a) < Level(b) || (Level(a) == Level(b) && Handle(a) < Handle(b))
  }

  // ----- who waits for what, and holds what ----------------------------------------------

  /** Calls into the engine: waiting for the gate, or inside. */
  predicate Engine(d: Doing) {
    d == Waits(Gate, false) || d.InGate? || d.InvokeWaits? || d.InGuest? || d.InGuestWaits? || d.Grows?
  }

  /** An interrupt writes into the memory. */
  predicate Writing(d: Doing) { d == Waits(MemLock, false) || d.Touches? }

  predicate CallPermits(sh: Shared, p: CallPc, d: Doing) {
    match p
    case Want(cs, k) => k < |cs| && d == Waits(Of(CtxCalls(cs[k])), false)
    case In(cs) =>
      || Engine(d)
      || (d.Waits? && !d.announced && d.r.SlotsMu? && d.r.sid in sh.slots && sh.slots[d.r.sid].ctx in cs)
      || (d.Waits? && !d.announced && d.r.CtxSlotsMu? && d.r.c in cs)
    case Posting(_, _) => Engine(d)
    case _ => false
  }

  predicate FreePermits(c: nat, f: FreePc, d: Doing) {
    match f
    case FSpin => d == Waits(Of(CtxCalls(c)), false)
    case FIntWant => d == Waits(Of(IntMu(c)), false)
    case FIntWrite => Writing(d)
    case FHeld => d == Waits(CtxSlotsMu(c), false)
    case FSlots(s) => d == Waits(SlotsMu(s), false)
    case FWait(s) => d == Waits(SlotsDone(s), false)
    case FImu => d == Waits(Of(IntMu(c)), false)
    case FFreeing => Engine(d)
    case _ => false
  }

  predicate NewPermits(p: NewPc, d: Doing) {
    match p
    case NWant(m) => d == Waits(Of(ModelCalls(m)), false)
    case NIn(_) => Engine(d)
    case NLock(_) => d == Waits(Of(CtxMu), false)
    case NCall(_) => Engine(d)
    case NAddr(_, _) => Engine(d)
    case _ => false
  }

  predicate ModelPermits(p: ModelPc, d: Doing) {
    match p
    case MWant(m) => d == Waits(Of(ModelClose(m)), false)
    case MCalls(m) => d == Waits(Of(ModelCalls(m)), true)
    case MMu(_) => d == Waits(Of(CtxMu), false)
    case MCall(_, _) => Engine(d)
    case _ => false
  }

  predicate Releasing(d: Doing) {
    d == Waits(Gate, true) || d.ReleaseWaitsModule? || d.Releases? || d.ReleaseWaitsMemory? || d.Detaches?
  }

  predicate KeepPermits(c: nat, k: KeepPc, d: Doing) {
    match k
    case KpWant => d == Waits(Of(CtxCalls(c)), true)
    case KpHeld => d == Waits(CtxSlotsMu(c), false)
    case KpSlots(s) => d == Waits(SlotsMu(s), false)
    case KpWait(s) => d == Waits(SlotsDone(s), false)
    case KpPool => Engine(d)
    case _ => false
  }

  predicate RetirePermits(p: RetirePc, d: Doing) {
    match p
    case Building(_) => d == Waits(Of(Hands), true)
    case RRec(_) => d == Waits(Of(CtxMu), false)
    case RAbandon(_, _) => Releasing(d)
    case _ => false
  }

  predicate InstPermits(p: InstPc, d: Doing) {
    match p
    case LWant => d == Waits(Of(InstClose), false)
    case LMu => d == Waits(Of(Mu), false)
    case LRec => d == Waits(Of(CtxMu), false)
    case LRelease(_) => Releasing(d)
    case LAbandon(_) => Releasing(d)
    case _ => false
  }

  /** What a thread may be waiting for, or have the engine's locks for. */
  predicate Permits(sh: Shared, pc: Pc, d: Doing) {
    d.Runs? ||
    match pc
    case Idle => d == Waits(Of(Hands), false)
    case OnCall(p) => CallPermits(sh, p, d)
    case OnInterrupt(p) => (p.IWant? && d == Waits(Of(IntMu(p.c)), false)) || (p.IWrite? && Writing(d))
    case Free(c, _, f) => FreePermits(c, f, d)
    case OnNew(p) => NewPermits(p, d)
    case OnModel(p) => ModelPermits(p, d)
    case OnInst(p) => InstPermits(p, d)
    case OnLoad(p) => (p.OWant? && d == Waits(Of(Mu), false)) || (p.OIn? && Engine(d)) || (p.OSwapped? && Releasing(d))
    case OnFork(p) => (p.Attach? && Engine(d)) || d == Waits(Of(Hands), false)
    case Keep(c, _, k) => KeepPermits(c, k, d)
    case OnRetire(p) => RetirePermits(p, d)
    case _ => false
  }

  /** What a node of the state may be doing. */
  predicate MayDo(s: State, n: Node, d: Doing) {
    match n
    case Thread(t) => t in s.threads && Permits(s.sh, s.threads[t], d)
    case Scheduler(sid) =>
      sid in s.sh.slots && (d.Runs? || d == Waits(SlotsMu(sid), false) || d == Waits(CtxSlotsMu(s.sh.slots[sid].ctx), false))
    case EngineUser(sid) => sid in s.sh.slots && s.sh.slots[sid].view.engine.Own? && (d.Runs? || Engine(d))
  }

  /** The engine's locks that go with d. */
  predicate HasEngine(d: Doing, r: Res) {
    match r
    case Gate => !d.Runs? && !d.Waits? && !d.Touches?
    case ModLock => d.InGuest? || d.InGuestWaits? || d.Grows? || d.Releases? || d.ReleaseWaitsMemory? || d.Detaches?
    case MemLock => d.Grows? || d.Touches? || d.Detaches?
    case _ => false
  }

  /** The resources a node holds while it does d. */
  predicate Has(s: State, n: Node, d: Doing, r: Res) {
    || HasEngine(d, r)
    || match n
       case Thread(t) =>
         t in s.threads &&
         ((r.Of? && Holds(s.threads[t], r.l)) ||
          (r.SlotsMu? && s.threads[t].OnCall? && s.threads[t].call.Posting? && s.threads[t].call.sid == r.sid))
       case Scheduler(sid) => r == SlotsDone(sid) && sid in s.sh.slots && !s.sh.slots[sid].view.phase.Done?
       case EngineUser(sid) => r == SlotsMu(sid)
  }

  /** The resource a node waits for. */
  function WaitsOn(d: Doing): Option<Res> {
    match d
    case Waits(r, _) => Some(r)
    case InvokeWaits => Some(ModLock)
    case InGuestWaits => Some(MemLock)
    case ReleaseWaitsModule => Some(ModLock)
    case ReleaseWaitsMemory => Some(MemLock)
    case _ => None
  }

  predicate Announced(d: Doing) { d.Waits? && d.announced }

  /** a waits for what b has, or stands behind b's announced exclusive wait. */
  predicate WaitsFor(s: State, doing: map<Node, Doing>, a: Node, b: Node) {
    && a in doing && b in doing && WaitsOn(doing[a]).Some?
    && (Has(s, b, doing[b], WaitsOn(doing[a]).value)
        || (!Announced(doing[a]) && Announced(doing[b]) && WaitsOn(doing[b]) == WaitsOn(doing[a])))
  }

  /** A reachable state together with what its nodes are doing. */
  ghost predicate Situation(s: State, doing: map<Node, Doing>) {
    Inv(s) && forall n :: n in doing ==> MayDo(s, n, doing[n])
  }

  // ----- one order ------------------------------------------------------------------------

  lemma CallAscends(sh: Shared, t: nat, p: CallPc, d: Doing, l: Lock)
    requires CallAt(sh, t, p) && CallPermits(sh, p, d) && WaitsOn(d).Some? && HoldsShared(OnCall(p), l)
    ensures Below(Of(l), WaitsOn(d).value)
  {}

  lemma FreeAscends(c: nat, k: Kont, f: FreePc, d: Doing, l: Lock)
    requires FreePermits(c, f, d) && WaitsOn(d).Some? && Holds(Free(c, k, f), l)
    ensures Below(Of(l), WaitsOn(d).value)
  {}

  lemma NewAscends(p: NewPc, d: Doing, l: Lock)
    requires NewPermits(p, d) && WaitsOn(d).Some? && Holds(OnNew(p), l)
    ensures Below(Of(l), WaitsOn(d).value)
  {}

  lemma ModelAscends(p: ModelPc, d: Doing, l: Lock)
    requires ModelPermits(p, d) && WaitsOn(d).Some? && Holds(OnModel(p), l)
    ensures Below(Of(l), WaitsOn(d).value)
  {}

  lemma InstAscends(p: InstPc, d: Doing, l: Lock)
    requires InstPermits(p, d) && WaitsOn(d).Some? && Holds(OnInst(p), l)
    ensures Below(Of(l), WaitsOn(d).value)
  {}

  lemma KeepAscends(c: nat, job: Job, k: KeepPc, d: Doing, l: Lock)
    requires KeepPermits(c, k, d) && WaitsOn(d).Some? && Holds(Keep(c, job, k), l)
    ensures Below(Of(l), WaitsOn(d).value)
  {}

  lemma LockAscends(sh: Shared, t: nat, pc: Pc, d: Doing, l: Lock)
    requires At(sh, t, pc) && Permits(sh, pc, d) && WaitsOn(d).Some? && Holds(pc, l)
    ensures Below(Of(l), WaitsOn(d).value)
  {
    match pc
    case OnCall(p) => CallAscends(sh, t, p, d, l);
    case Free(c, k, f) => FreeAscends(c, k, f, d, l);
    case OnNew(p) => NewAscends(p, d, l);
    case OnModel(p) => ModelAscends(p, d, l);
    case OnInst(p) => InstAscends(p, d, l);
    case Keep(c, job, k) => KeepAscends(c, job, k, d, l);
    case _ =>
  }

  /** Whatever a node waits for is above all that it holds. */
  lemma WaitsAbove(s: State, n: Node, d: Doing, r: Res)
    requires AllOk(s.sh, s.threads) && MayDo(s, n, d) && WaitsOn(d).Some? && Has(s, n, d, r)
    ensures Below(r, WaitsOn(d).value)
  {
    if n.Thread? && r.Of? {
      ThreadIsOk(s, n.t);
      LockAscends(s.sh, n.t, s.threads[n.t], d, r.l);
    }
  }

  /** The place of a waiting node: what it waits for, announced waiters last. */
  predicate Before(d: Doing, d': Doing)
    requires WaitsOn(d).Some? && WaitsOn(d').Some?
  {
    || Below(WaitsOn(d).value, WaitsOn(d').value)
    || (WaitsOn(d) == WaitsOn(d') && !Announced(d) && Announced(d'))
  }

  lemma WaitAscends(s: State, doing: map<Node, Doing>, a: Node, b: Node)
    requires Situation(s, doing) && WaitsFor(s, doing, a, b) && WaitsOn(doing[b]).Some?
    ensures Before(doing[a], doing[b])
  {
    if Has(s, b, doing[b], WaitsOn(doing[a]).value) {
      WaitsAbove(s, b, doing[b], WaitsOn(doing[a]).value);
    }
  }

  /** A chain of nodes, each waiting for the next. */
  ghost predicate Chain(s: State, doing: map<Node, Doing>, p: seq<Node>) {
    && p != [] && (forall i :: 0 <= i < |p| ==> p[i] in doing && WaitsOn(doing[p[i]]).Some?)
    && forall i :: 0 <= i < |p| - 1 ==> WaitsFor(s, doing, p[i], p[i + 1])
  }

  lemma BeforeTransitive(a: Doing, b: Doing, c: Doing)
    requires WaitsOn(a).Some? && WaitsOn(b).Some? && WaitsOn(c).Some? && Before(a, b) && Before(b, c)
    ensures Before(a, c)
  {}

  lemma ChainButLast(s: State, doing: map<Node, Doing>, p: seq<Node>)
    requires Chain(s, doing, p) && |p| > 1
    ensures Chain(s, doing, p[..|p| - 1]) && WaitsFor(s, doing, p[|p| - 2], p[|p| - 1])
  {
    var q := p[..|p| - 1];
    forall i | 0 <= i < |q| - 1 ensures WaitsFor(s, doing, q[i], q[i + 1]) {
      assert WaitsFor(s, doing, p[i], p[i + 1]);
    }
    assert WaitsFor(s, doing, p[|p| - 2], p[|p| - 2 + 1]);
  }

  lemma {:induction false} ChainAscends(s: State, doing: map<Node, Doing>, p: seq<Node>)
    requires Situation(s, doing) && Chain(s, doing, p) && |p| > 1
    ensures Before(doing[p[0]], doing[p[|p| - 1]])
    decreases |p|
  {
    ChainButLast(s, doing, p);
    WaitAscends(s, doing, p[|p| - 2], p[|p| - 1]);
    if |p| > 2 {
      ChainAscends(s, doing, p[..|p| - 1]);
      BeforeTransitive(doing[p[0]], doing[p[|p| - 2]], doing[p[|p| - 1]]);
    }
  }

  /** In every reachable state, whatever its threads are waiting for, no chain of
      waits closes into a cycle. */
  lemma NoDeadlock(run: seq<State>, i: nat, doing: map<Node, Doing>, p: seq<Node>)
    requires Run(run) && i < |run|
    requires forall n :: n in doing ==> MayDo(run[i], n, doing[n])
    requires Chain(run[i], doing, p)
    ensures !WaitsFor(run[i], doing, p[|p| - 1], p[0])
  {
    RunKeeps(run, i);
    if WaitsFor(run[i], doing, p[|p| - 1], p[0]) {
      WaitAscends(run[i], doing, p[|p| - 1], p[0]);
      if |p| > 1 {
        ChainAscends(run[i], doing, p);
      }
    }
  }

  // ----- the waits are the blocked steps -----------------------------------------------------

  /** The thread may be waiting for lock k. */
  predicate Wants(sh: Shared, pc: Pc, k: Lock) {
    Permits(sh, pc, Waits(Of(k), false)) || Permits(sh, pc, Waits(Of(k), true))
  }

  /** From pc to pc' a thread takes at most the one lock it waits for, and never
      turns a shared hold into an exclusive one. */
  predicate Takes(sh: Shared, pc: Pc, pc': Pc, k: Lock) {
    (Holds(pc', k) && !Holds(pc, k) ==> Wants(sh, pc, k)) && (HoldsExcl(pc', k) && Holds(pc, k) ==> HoldsExcl(pc, k))
  }

  lemma CallTakes(sh: Shared, t: nat, p: CallPc, l: CallStep, n: Local, k: Lock)
    requires CallLeads(sh, t, p, l, n)
    ensures Takes(sh, OnCall(p), n.pc, k)
  {}

  lemma FreeTakes(sh: Shared, t: nat, c: nat, kont: Kont, f: FreePc, l: FreeStep, n: Local, k: Lock)
    requires FreeLeads(sh, t, c, kont, f, l, n)
    ensures Takes(sh, Free(c, kont, f), n.pc, k)
  {}

  lemma NewTakes(sh: Shared, t: nat, p: NewPc, l: NewStep, n: Local, k: Lock)
    requires NewLeads(sh, t, p, l, n)
    ensures Takes(sh, OnNew(p), n.pc, k)
  {}

  lemma ModelTakes(sh: Shared, t: nat, p: ModelPc, l: ModelStep, n: Local, k: Lock)
    requires ModelLeads(sh, t, p, l, n)
    ensures Takes(sh, OnModel(p), n.pc, k)
  {}

  lemma CloseTakes(sh: Shared, t: nat, p: InstPc, l: CloseStep, n: Local, k: Lock)
    requires CloseLeads(sh, t, p, l, n)
    ensures Takes(sh, OnInst(p), n.pc, k)
  {}

  lemma KeepTakes(sh: Shared, t: nat, c: nat, job: Job, p: KeepPc, l: KeepStep, n: Local, k: Lock)
    requires KeepLeads(sh, t, c, job, p, l, n)
    ensures Takes(sh, Keep(c, job, p), n.pc, k)
  {}

  lemma RetireTakes(sh: Shared, p: RetirePc, l: RetireStep, n: Local, k: Lock)
    requires RetireLeads(sh, p, l, n)
    ensures Takes(sh, OnRetire(p), n.pc, k)
  {}

  lemma StartTakes(sh: Shared, l: StartStep, k: Lock)
    ensures Takes(sh, Idle, Start(l), k)
  {}

  lemma InterruptTakes(sh: Shared, p: IntPc, l: IntStep, k: Lock)
    requires IntEnabled(sh, p, l)
    ensures Takes(sh, OnInterrupt(p), IntNext(sh, p, l), k)
  {}

  lemma LoadTakes(sh: Shared, t: nat, p: LoadPc, l: LoadStep, n: Local, k: Lock)
    requires LoadLeads(sh, t, p, l, n)
    ensures Takes(sh, OnLoad(p), n.pc, k)
  {}

  lemma ForkTakes(sh: Shared, t: nat, p: ForkPc, l: ForkStep, n: Local, k: Lock)
    requires ForkLeads(sh, t, p, l, n)
    ensures Takes(sh, OnFork(p), n.pc, k)
  {}

  lemma TakesWhatItWants(sh: Shared, t: nat, pc: Pc, l: Step, n: Local, k: Lock)
    requires Leads(sh, t, pc, l, n)
    ensures Takes(sh, pc, n.pc, k)
  {
    match l
    case Begin(x) => StartTakes(sh, x, k);
    case Call(x) => CallTakes(sh, t, pc.call, x, n, k);
    case Interrupt(x) => InterruptTakes(sh, pc.intr, x, k);
    case FreeCtx(x) => FreeTakes(sh, t, pc.c, pc.kont, pc.f, x, n, k);
    case NewCtx(x) => NewTakes(sh, t, pc.creation, x, n, k);
    case CloseModel(x) => ModelTakes(sh, t, pc.model, x, n, k);
    case CloseInst(x) => CloseTakes(sh, t, pc.inst, x, n, k);
    case CtxReturn =>
    case Load(x) => LoadTakes(sh, t, pc.load, x, n, k);
    case Fork(x) => ForkTakes(sh, t, pc.fork, x, n, k);
    case KeepCtx(x) => KeepTakes(sh, t, pc.c, pc.job, pc.keep, x, n, k);
    case Retire(x) => RetireTakes(sh, pc.retire, x, n, k);
  }

  /** A thread whose step another thread holds up is waiting for a lock that the other one holds. */
  lemma BlockedMeansWaiting(s: State, t: nat, u: nat, l: Step, n: Local)
    requires Inv(s) && t in s.threads && u in s.threads && t != u && Leads(s.sh, t, s.threads[t], l, n)
    requires !Compatible(s.threads[u], n.pc)
    ensures exists k :: Wants(s.sh, s.threads[t], k) && Holds(s.threads[u], k)
  {
    var pc, q := s.threads[t], s.threads[u];
    assert Compatible(q, pc);
    var k :| (HoldsExcl(q, k) && Holds(n.pc, k)) || (HoldsExcl(n.pc, k) && Holds(q, k));
    TakesWhatItWants(s.sh, t, pc, l, n, k);
  }

  /** Whoever has a Slots' lock, or has still to close its done, is a node that holds it. */
  lemma SlotsAreHeld(s: State, sid: nat)
    requires Inv(s) && sid in s.sh.slots
    ensures s.sh.slots[sid].view.engine.Own? ==>
              MayDo(s, EngineUser(sid), Runs) && forall d :: Has(s, EngineUser(sid), d, SlotsMu(sid))
    ensures s.sh.slots[sid].view.engine.ByPost? ==>
              var n := Thread(s.sh.slots[sid].view.engine.p);
              MayDo(s, n, Runs) && forall d :: Has(s, n, d, SlotsMu(sid))
    ensures !s.sh.slots[sid].view.phase.Done? ==>
              MayDo(s, Scheduler(sid), Runs) && forall d :: Has(s, Scheduler(sid), d, SlotsDone(sid))
  {
    if s.sh.slots[sid].view.engine.ByPost? {
      var t := s.sh.slots[sid].view.engine.p;
      assert PostsBy(s.sh, t, s.threads[t]);
    }
  }

  /** The step goes into an open Slots, closes one, or goes on when one is closed down. */
  predicate OnSlots(sh: Shared, pc: Pc, l: Step, r: Res) {
    || (pc.OnCall? && pc.call.In? && l.Call? && l.call.PostBegin? && r == SlotsMu(l.call.sid) && r.sid in sh.slots &&
        sh.slots[r.sid].ctx in pc.call.cs && !sh.slots[r.sid].view.closed)
    || (pc.Free? && pc.f.FSlots? && l == FreeCtx(FCloseSlots) && r == SlotsMu(pc.f.s))
    || (pc.Free? && pc.f.FWait? && l == FreeCtx(FWaited) && r == SlotsDone(pc.f.sw))
    || (pc.Keep? && pc.keep.KpSlots? && l == KeepCtx(KCloseSlots) && r == SlotsMu(pc.keep.s))
    || (pc.Keep? && pc.keep.KpWait? && l == KeepCtx(KWaited) && r == SlotsDone(pc.keep.sw))
  }

  lemma OnSlotsFacts(sh: Shared, t: nat, pc: Pc, l: Step, r: Res)
    requires At(sh, t, pc) && OnSlots(sh, pc, l, r) && !Enabled(sh, t, pc, l)
    ensures Permits(sh, pc, Waits(r, false))
    ensures r.SlotsMu? ==> r.sid in sh.slots && !sh.slots[r.sid].view.engine.Idle?
    ensures r.SlotsDone? ==> r.sid in sh.slots && !sh.slots[r.sid].view.phase.Done?
  {}

  /** A Post or a Slots' Close that is held up waits for the lock or for done, which another
      node holds whatever it is doing. */
  lemma SlotsStepBlocked(s: State, t: nat, l: Step, r: Res) returns (n: Node)
    requires Inv(s) && t in s.threads && OnSlots(s.sh, s.threads[t], l, r) && !Enabled(s.sh, t, s.threads[t], l)
    ensures MayDo(s, Thread(t), Waits(r, false)) && MayDo(s, n, Runs) && forall d :: Has(s, n, d, r)
  {
    ThreadIsOk(s, t);
    OnSlotsFacts(s.sh, t, s.threads[t], l, r);
    SlotsAreHeld(s, r.sid);
    n := if r.SlotsDone? then Scheduler(r.sid)
         else if s.sh.slots[r.sid].view.engine.Own? then EngineUser(r.sid)
         else Thread(s.sh.slots[r.sid].view.engine.p);
  }

  // ----- inside the engine ---------------------------------------------------------------------

  /** Whoever takes part in an engine's protocol. */
  datatype Actor = ACall(c: nat) | ARelease(r: nat) | AAccess(a: nat)

  predicate CallDoes(pc: E.CallPc, d: Doing) {
    match pc
    case CLoad => d == Runs
    case CWant => d == Waits(Gate, false)
    case CPassed => d == InvokeWaits
    case CGuest => d == InGuest || d == InGuestWaits || d == Grows
    case CHandler => d == InGate || d == InvokeWaits
    case CDone(_) => d == Runs
    case _ => d == InGate
  }

  predicate ReleaseDoes(pc: E.RelPc, d: Doing) {
    match pc
    case RLoad(_) => d == Runs
    case RWant(_) => d == Waits(Gate, true)
    case RGot(_) => d == ReleaseWaitsModule
    case RMod(_) => d == Releases
    case RPoll => d == Releases
    case RDecided(_, _) => d == ReleaseWaitsMemory
    case ROut(_) => d == Releases
    case RDone(_) => d == Runs
    case _ => d == Detaches
  }

  predicate AccessDoes(pc: E.AccessPc, d: Doing) {
    match pc
    case AWant => d == Waits(MemLock, false)
    case AOut(_) => d == Runs
    case _ => d == Touches
  }

  /** What an actor may be doing at its program counter. */
  predicate Does(e: E.State, a: Actor, d: Doing) {
    match a
    case ACall(c) => c in e.calls && CallDoes(e.calls[c].pc, d)
    case ARelease(r) => r in e.releases && ReleaseDoes(e.releases[r], d)
    case AAccess(x) => x in e.accesses && AccessDoes(e.accesses[x], d)
  }

  /** The actor takes part, and has the lock whatever it is doing. */
  ghost predicate HasSurely(e: E.State, a: Actor, r: Res) {
    && (match a case ACall(c) => c in e.calls case ARelease(q) => q in e.releases case AAccess(x) => x in e.accesses)
    && forall d :: Does(e, a, d) ==> HasEngine(d, r)
  }

  /** These are the doings of `Engine`, `Releasing` and `Writing`. */
  lemma DoesWhatIsPermitted(e: E.State, a: Actor, d: Doing)
    requires Does(e, a, d) && !d.Runs?
    ensures match a case ACall(_) => Engine(d) case ARelease(_) => Releasing(d) case AAccess(_) => Writing(d)
  {}

  lemma GateHeld(e: E.State) returns (a: Actor)
    requires !E.GateFree(e)
    ensures HasSurely(e, a, Gate) && (!E.NoRelease(e) ==> a.ARelease?)
  {
    if r :| r in e.releases && E.GateExcl(e.releases[r]) {
      a := ARelease(r);
    } else {
      var c :| c in e.calls && E.GateShared(e.calls[c].pc);
      a := ACall(c);
    }
  }

  lemma ModuleHeld(e: E.State) returns (a: Actor)
    requires !E.ModuleFree(e)
    ensures HasSurely(e, a, ModLock)
  {
    if c :| c in e.calls && e.calls[c].pc.CGuest? {
      a := ACall(c);
    } else {
      var r :| r in e.releases && E.ModuleHeld(e.releases[r]);
      a := ARelease(r);
    }
  }

  lemma MemoryHeld(e: E.State) returns (a: Actor)
    requires !E.MemoryFree(e)
    ensures HasSurely(e, a, MemLock)
  {
    if x :| x in e.accesses && E.MemoryAccessed(e.accesses[x]) {
      a := AAccess(x);
    } else {
      var r :| r in e.releases && E.MemoryHeld(e.releases[r]);
      a := ARelease(r);
    }
  }

  /** A call whose next step is held up waits for the gate, behind a release, or for the
      module's lock, which another actor holds whatever it is doing. */
  lemma CallBlocked(e: E.State, c: nat, l: E.CallStep) returns (a: Actor, d: Doing)
    requires c in e.calls && E.CallReady(e.calls[c].pc, l) && !E.CallEnabled(e, c, l)
    ensures Does(e, ACall(c), d) && Engine(d) && WaitsOn(d).Some?
    ensures a != ACall(c) && HasSurely(e, a, WaitsOn(d).value)
  {
    if l.CLock? {
      a := GateHeld(e);
      d := Waits(Gate, false);
    } else {
      a := ModuleHeld(e);
      d := InvokeWaits;
    }
    assert Does(e, ACall(c), d);
    DoesWhatIsPermitted(e, ACall(c), d);
  }

  lemma ReleaseBlocked(e: E.State, r: nat, l: E.RelStep) returns (a: Actor, d: Doing)
    requires r in e.releases && E.RelReady(e, e.releases[r], l) && !E.RelEnabled(e, r, l)
    ensures Does(e, ARelease(r), d) && Releasing(d) && WaitsOn(d).Some?
    ensures a != ARelease(r) && HasSurely(e, a, WaitsOn(d).value)
  {
    if l.RLockGate? {
      a := GateHeld(e);
      d := Waits(Gate, true);
    } else if l.RLockModule? {
      a := ModuleHeld(e);
      d := ReleaseWaitsModule;
    } else {
      a := MemoryHeld(e);
      d := ReleaseWaitsMemory;
    }
    assert Does(e, ARelease(r), d);
    DoesWhatIsPermitted(e, ARelease(r), d);
  }

  lemma AccessBlocked(e: E.State, x: nat, l: E.AccessStep) returns (a: Actor)
    requires x in e.accesses && E.AccessReady(e.accesses[x], l) && !E.AccessEnabled(e, x, l)
    ensures Does(e, AAccess(x), Waits(MemLock, false)) && Writing(Waits(MemLock, false))
    ensures a != AAccess(x) && HasSurely(e, a, MemLock)
  {
    a := MemoryHeld(e);
    assert Does(e, AAccess(x), Waits(MemLock, false));
    DoesWhatIsPermitted(e, AAccess(x), Waits(MemLock, false));
  }

  // ----- inside a Slots ------------------------------------------------------------------------

  /** The holder of the lock is inside an engine call, and leaves by a step that takes no lock. */
  predicate InEngine(s: P.State) {
    match s.mu
    case Free => false
    case BySched => s.sched.UpdCall? || s.sched.CancelCall?
    case ByCanceller(id) => id in s.cancellers && s.cancellers[id].CCall?
    case ByPost(p) => p in s.posts && s.posts[p].PCall?
  }

  /** What holds up a step of a Slots that it would take if the lock were free, or done closed:
      one of its threads or a Post is inside the engine, which is when the view's engine is in
      use; or the scheduler has not finished, which is when the view's phase is not Done. */
  lemma SlotsBlocked(run: seq<P.State>, i: nat, l: P.Label)
    requires U.Run(run) && i < |run| && !U.Enabled(run[i], l)
    ensures U.Enabled(run[i].(mu := P.Free), l) ==> !R.Abs(run[i]).engine.Idle? && InEngine(run[i])
    ensures U.Enabled(run[i].(done := true), l) ==> l.Close? && l.close.CloseReturn? && !R.Abs(run[i]).phase.Done?
  {
    S.RunKeeps(run, i);
  }
}
