/**
 The atomic steps of an instance's threads. Each group of steps has a guard over
 the shared state and the thread's own program counter, and a function that
 gives the new shared state and program counter. Locks are taken by moving to a
 program counter that holds them; `Next` requires that move to be compatible
 with every other thread.
 */
module InstanceSteps {
  import opened Options
  import opened InstanceState
  import E = EngineProtocol
  import V = SlotsView

  datatype Local = Local(sh: Shared, pc: Pc)

  /** The error codes that stand for ErrMemoryLeaked, and for a kept context that the build closed. */
  const LEAKED: int := -1
  const KEPT_CLOSED: int := -2

  /** Model.use: neither the instance nor the model is closed. The flags are read one
      after the other, and never cleared: if all reads find them false, so does one look
      at the moment of the first. */
  predicate ModelUsable(sh: Shared, m: nat) {
    !sh.closed && m in sh.models && !sh.models[m].closed
  }

  /** Context.use. */
  predicate Usable(sh: Shared, c: nat) {
    c in sh.ctxs && ModelUsable(sh, sh.ctxs[c].model) && !sh.ctxs[c].closed
  }

  predicate Ascending(cs: seq<nat>) {
    forall i, j :: 0 <= i < j < |cs| ==> cs[i] < cs[j]
  }

  function SetCtx(sh: Shared, c: nat, x: Ctx): Shared { sh.(ctxs := sh.ctxs[c := x]) }

  function SetModel(sh: Shared, m: nat, x: Model): Shared { sh.(models := sh.models[m := x]) }

  function SetView(sh: Shared, sid: nat, v: V.View): Shared
    requires sid in sh.slots
  {
    sh.(slots := sh.slots[sid := sh.slots[sid].(view := v)])
  }

  // ----- the calls that manage the guest's threads -------------------------------------

  /** The error of a call, as errors.As tells the kinds apart; nil and the guest's own
      errors do not differ here. */
  datatype CallError = NoTrap | TrapError(refused: bool)

  function ErrorOf(res: E.Result): CallError {
    match res
    case Reply => NoTrap
    case EngineClosed => NoTrap
    case Refused(_) => TrapError(true)
    case Trap(_) => TrapError(false)
  }

  /** The test of noteTrap. */
  predicate Counts(err: CallError) { err.TrapError? && !err.refused }

  function NoteTrap(sh: Shared, res: E.Result): Shared { sh.(wedged := sh.wedged || Counts(ErrorOf(res))) }

  /** The codes of a call's error: those of the guest's reply, or one for each other kind. */
  function Codes(res: E.Result, reply: Err): Err {
    match res
    case Reply => reply
    case EngineClosed => {-3}
    case Refused(_) => {-4}
    case Trap(_) => {-5}
  }

  /** A managing call of thread t comes back; whether it trapped in the guest is kept. */
  function Trapped(sh: Shared, t: nat, res: E.Result): Shared {
    if res.Trap? && sh.trapBy.None? then sh.(trapBy := Some(t)) else sh
  }

  /** The contexts of the record that have not been freed. */
  function Unfreed(sh: Shared): set<nat> {
    set c | c in sh.record && c in sh.ctxs && !sh.ctxs[c].freed
  }

  /** NewContext has returned the context, or given it up. */
  predicate HandedOut(ctxs: map<nat, Ctx>, c: nat) { c in ctxs && ctxs[c].maker.None? }

  // ----- where a thread starts ------------------------------------------------------

  datatype StartStep =
    | Enter(cs: seq<nat>) | IEnter(c: nat) | CEnter(c: nat) | NEnter(m: nat) | MEnter(m: nat) | LEnter | OEnter

  predicate StartEnabled(sh: Shared, l: StartStep) {
    sh.published &&
    match l
    case Enter(cs) => cs != [] && Ascending(cs) && forall c :: c in cs ==> HandedOut(sh.ctxs, c)
    case IEnter(c) => HandedOut(sh.ctxs, c)
    case CEnter(c) => HandedOut(sh.ctxs, c)
    case NEnter(m) => m in sh.models
    case MEnter(m) => m in sh.models
    case LEnter => true
    case OEnter => true
  }

  function Start(l: StartStep): Pc {
    match l
    case Enter(cs) => OnCall(Want(cs, 0))
    case IEnter(c) => OnInterrupt(IWant(c))
    case CEnter(c) => Free(c, KCtx, FStart)
    case NEnter(m) => OnNew(NWant(m))
    case MEnter(m) => OnModel(MWant(m))
    case LEnter => OnInst(LWant)
    case OEnter => OnLoad(OWant)
  }

  // ----- calls on contexts, Slots and Post ------------------------------------------

  datatype CallStep =
    | Refuse | Acquire | Admit | Reject | Leave | Release | Return
    | NewSlots(sid: nat) | PostBegin(sid: nat) | PostEnd

  predicate CallEnabled(sh: Shared, t: nat, p: CallPc, l: CallStep) {
    match l
    case Refuse => p.Want? && p.k < |p.cs| && !Usable(sh, p.cs[p.k])
    case Acquire => p.Want? && p.k < |p.cs|
    case Admit => p.Got? && p.k < |p.cs| && Usable(sh, p.cs[p.k])
    case Reject => p.Got? && p.k < |p.cs| && !Usable(sh, p.cs[p.k])
    case Leave => p.In?
    case Release => p.Out? && 0 < p.k
    case Return => p.Out? && p.k == 0
    case NewSlots(sid) =>
      p.In? && |p.cs| == 1 && p.cs[0] in sh.ctxs && sh.ctxs[p.cs[0]].slots.None? && sid !in sh.slots
    case PostBegin(sid) =>
      p.In? && sid in sh.slots && sh.slots[sid].ctx in p.cs && V.Enabled(sh.slots[sid].view, V.PostBegin(t))
    case PostEnd => p.Posting? && p.sid in sh.slots && V.Enabled(sh.slots[p.sid].view, V.CallEnd)
  }

  function CallNext(sh: Shared, t: nat, p: CallPc, l: CallStep): Local
    requires CallEnabled(sh, t, p, l)
  {
    match l
    case Refuse => Local(sh, OnCall(Out(p.cs, p.k)))
    case Acquire => Local(sh, OnCall(Got(p.cs, p.k)))
    case Admit => Local(sh, OnCall(if p.k + 1 == |p.cs| then In(p.cs) else Want(p.cs, p.k + 1)))
    case Reject => Local(sh, OnCall(Out(p.cs, p.k + 1)))
    case Leave => Local(sh, OnCall(Out(p.cs, |p.cs|)))
    case Release => Local(sh, OnCall(Out(p.cs, p.k - 1)))
    case Return => Local(sh, Idle)
    case NewSlots(sid) =>
      var c := p.cs[0];
      Local(SetCtx(sh, c, sh.ctxs[c].(slots := Some(sid)))
              .(slots := sh.slots[sid := SlotsRec(c, V.View(false, V.Idle, V.Running))]), OnCall(p))
    case PostBegin(sid) =>
      Local(SetView(sh, sid, V.Apply(sh.slots[sid].view, V.PostBegin(t))), OnCall(Posting(p.cs, sid)))
    case PostEnd => Local(SetView(sh, p.sid, V.Apply(sh.slots[p.sid].view, V.CallEnd)), OnCall(In(p.cs)))
  }

  // ----- Interrupt ------------------------------------------------------------------

  datatype IntStep = IRefuse | IAcquire | ICheck | IWrote | IRelease

  predicate IntEnabled(sh: Shared, p: IntPc, l: IntStep) {
    match l
    case IRefuse => p.IWant? && sh.closed
    case IAcquire => p.IWant?
    case ICheck => p.IGot? && p.c in sh.ctxs
    case IWrote => p.IWrite?
    case IRelease => p.IOut?
  }

  function IntNext(sh: Shared, p: IntPc, l: IntStep): Pc
    requires IntEnabled(sh, p, l)
  {
    match l
    case IRefuse => Idle
    case IAcquire => OnInterrupt(IGot(p.c))
    case ICheck => OnInterrupt(if sh.ctxs[p.c].freed then IOut(p.c) else IWrite(p.c))
    case IWrote => OnInterrupt(IOut(p.c))
    case IRelease => Idle
  }

  // ----- freeContext ------------------------------------------------------------------

  // A free, of a context or of its pool, is a call that an engine takes after a trap as
  // well: it is never refused (`EngineProofs.ResultsTellWhy`).

  datatype FreeStep =
    | FSetClosed | FTry | FInterrupt | FIntLock | FIntCheck | FIntDone
    | FLook | FCloseSlots | FWaited | FLockImu | FBegin | FEnd(res: E.Result, reply: Err)
    | FNoteTrap | FStoreFreed | FUnlockImu | FReturn

  predicate FreeEnabled(sh: Shared, c: nat, f: FreePc, l: FreeStep) {
    c in sh.ctxs &&
    match l
    case FSetClosed => f.FStart?
    case FTry => f.FSpin?
    case FInterrupt => f.FSpin?
    case FIntLock => f.FIntWant?
    case FIntCheck => f.FIntGot?
    case FIntDone => f.FIntWrite?
    case FLook => f.FHeld?
    case FCloseSlots => f.FSlots? && f.s in sh.slots && V.Enabled(sh.slots[f.s].view, V.SetClosed)
    case FWaited => f.FWait? && f.sw in sh.slots && sh.slots[f.sw].view.phase.Done?
    case FLockImu => f.FImu?
    case FBegin => f.FCall?
    case FEnd(res, _) => f.FFreeing? && !res.Refused?
    case FNoteTrap => f.FNote?
    case FStoreFreed => f.FStore?
    case FUnlockImu => f.FUnlock?
    case FReturn => f.FDone?
  }

  /** Thread t calls the guest's free; the free's result err is stored. */
  function BeingFreed(x: Ctx, t: nat): Ctx { x.(guest := Freeing, frees := x.frees + 1, busy := Some(t)) }

  function Freed(x: Ctx, err: Err): Ctx { x.(closeErr := err, freed := true, busy := None) }

  /** Where the thread goes on when freeContext(c) has returned err. */
  function Resume(k: Kont, c: nat, err: Err): Pc {
    match k
    case KCtx => CtxClosed(c, err)
    case KModel(m, rest, errs) => OnModel(MFree(m, rest, errs + err))
    case KInst(rest, errs) => OnInst(LFree(rest, errs + err))
    case KNew(m) => OnNew(NUnlock(m))
    case KRetire(job) => OnRetire(RLoop(job.(errs := job.errs + err)))
  }

  function FreeNext(sh: Shared, t: nat, c: nat, k: Kont, f: FreePc, l: FreeStep): Local
    requires FreeEnabled(sh, c, f, l)
  {
    var x := sh.ctxs[c];
    match l
    case FSetClosed => Local(SetCtx(sh, c, x.(closed := true)), Free(c, k, FSpin))
    case FTry => Local(sh, Free(c, k, FHeld))
    case FInterrupt => Local(sh, Free(c, k, FIntWant))
    case FIntLock => Local(sh, Free(c, k, FIntGot))
    case FIntCheck => Local(sh, Free(c, k, if x.freed then FSpin else FIntWrite))
    case FIntDone => Local(sh, Free(c, k, FSpin))
    case FLook =>
      Local(sh, Free(c, k, if x.freed then FDone(x.closeErr)
                           else if x.slots.Some? then FSlots(x.slots.value) else FImu))
    case FCloseSlots =>
      Local(SetView(sh, f.s, V.Apply(sh.slots[f.s].view, V.SetClosed)), Free(c, k, FWait(f.s)))
    case FWaited => Local(sh, Free(c, k, FImu))
    case FLockImu => Local(sh, Free(c, k, FCall))
    case FBegin =>
      Local(SetCtx(sh, c, BeingFreed(x, t)), Free(c, k, FFreeing))
    case FEnd(res, reply) =>
      Local(Trapped(SetCtx(sh, c, x.(guest := Gone)), t, res), Free(c, k, FNote(res, Codes(res, reply))))
    case FNoteTrap => Local(NoteTrap(sh, f.res), Free(c, k, FStore(f.err)))
    case FStoreFreed =>
      Local(SetCtx(sh, c, Freed(x, f.serr)), Free(c, k, FUnlock(f.serr)))
    case FUnlockImu => Local(sh, Free(c, k, FDone(f.uerr)))
    case FReturn => Local(sh, Resume(k, c, f.derr))
  }

  // ----- Model.enter, NewContext ------------------------------------------------------------

  datatype NewStep =
    | NRefuse | NAcquire | NAdmit | NReject | NLeave
    | NToLock | NLockMu | NCheck | NCreated(c: nat) | NFailed(res: E.Result) | NZero | NNoteTrap
    | NOk | NGiveUp | NUnlockMu

  predicate NewEnabled(sh: Shared, p: NewPc, l: NewStep) {
    match l
    case NRefuse => p.NWant? && !ModelUsable(sh, p.m)
    case NAcquire => p.NWant?
    case NAdmit => p.NGot? && ModelUsable(sh, p.m)
    case NReject => p.NGot? && !ModelUsable(sh, p.m)
    case NLeave => p.NIn?
    case NToLock => p.NIn?
    case NLockMu => p.NLock?
    case NCheck => p.NUse?
    case NCreated(c) => p.NCall? && c !in sh.ctxs
    case NFailed(_) => p.NCall?
    case NZero => p.NCall?
    case NNoteTrap => p.NNote?
    case NOk => p.NAddr? && p.c in sh.ctxs
    case NGiveUp => p.NAddr? && p.c in sh.ctxs
    case NUnlockMu => p.NUnlock?
  }

  /** A context as it is created. */
  function Fresh(m: nat, maker: Option<nat>): Ctx { Ctx(m, false, false, None, {}, Live, 0, None, maker, false) }

  /** track: the record loses the contexts freed since, and gains the new one. */
  function Recorded(sh: Shared, c: nat, m: nat, t: nat): Shared {
    sh.(ctxs := sh.ctxs[c := Fresh(m, Some(t))], record := Unfreed(sh) + {c})
  }

  function HandOut(x: Ctx): Ctx { x.(maker := None) }

  function NewNext(sh: Shared, t: nat, p: NewPc, l: NewStep): Local
    requires NewEnabled(sh, p, l)
  {
    match l
    case NRefuse => Local(sh, Idle)
    case NAcquire => Local(sh, OnNew(NGot(p.m)))
    case NAdmit => Local(sh, OnNew(NIn(p.m)))
    case NReject => Local(sh, Idle)
    case NLeave => Local(sh, Idle)
    case NToLock => Local(sh, OnNew(NLock(p.m)))
    case NLockMu => Local(sh, OnNew(NUse(p.m)))
    case NCheck => Local(sh, OnNew(if ModelUsable(sh, p.m) then NCall(p.m) else NUnlock(p.m)))
    case NCreated(c) =>
      Local(Recorded(sh, c, p.m, t), OnNew(NAddr(p.m, c)))
    case NFailed(res) => Local(Trapped(sh, t, res), OnNew(NNote(p.m, res)))
    case NZero => Local(sh, OnNew(NUnlock(p.m)))
    case NNoteTrap => Local(NoteTrap(sh, p.res), OnNew(NUnlock(p.m)))
    case NOk => Local(SetCtx(sh, p.c, HandOut(sh.ctxs[p.c])), OnNew(NUnlock(p.m)))
    case NGiveUp => Local(SetCtx(sh, p.c, HandOut(sh.ctxs[p.c])), Free(p.c, KNew(p.m), FStart))
    case NUnlockMu => Local(sh, OnNew(NIn(p.m)))
  }

  // ----- Model.Close ----------------------------------------------------------------------------

  datatype ModelStep =
    | MLockClose | MAgain | MFirst | MLockCalls | MLockMu
    | MLookClosed | MLookOpen | MFreeNext(c: nat) | MBegin | MGone | MEnd(err: Err)
    | MStoreErr | MUnlockCalls | MUnlockClose | MReturn

  /** The contexts Model.Close finds in the record. */
  function OfModel(sh: Shared, m: nat): set<nat> {
    set c | c in Unfreed(sh) && c in sh.ctxs && sh.ctxs[c].model == m
  }

  predicate EngineReleased(sh: Shared) { sh.eng in sh.engines && sh.engines[sh.eng].released }

  predicate ModelEnabled(sh: Shared, p: ModelPc, l: ModelStep) {
    p.m in sh.models &&
    match l
    case MLockClose => p.MWant?
    case MAgain => p.MGot? && sh.models[p.m].closed
    case MFirst => p.MGot? && !sh.models[p.m].closed
    case MLockCalls => p.MCalls?
    case MLockMu => p.MMu?
    case MLookClosed => p.MLook? && sh.closed
    case MLookOpen => p.MLook? && !sh.closed
    case MFreeNext(c) => p.MFree? && c in p.rest
    case MBegin => p.MFree? && p.rest == {} && !EngineReleased(sh)
    case MGone => p.MFree? && p.rest == {} && EngineReleased(sh)
    case MEnd(_) => p.MCall?
    case MStoreErr => p.MStore?
    case MUnlockCalls => p.MRet?
    case MUnlockClose => p.MOut?
    case MReturn => p.ModelClosed?
  }

  function ClosedBy(x: Model, t: nat): Model { x.(closed := true, closer := Some(t)) }

  function TornDown(x: Model, err: Err): Model { x.(closeErr := err, torn := true) }

  function ModelNext(sh: Shared, t: nat, p: ModelPc, l: ModelStep): Local
    requires ModelEnabled(sh, p, l)
  {
    var x := sh.models[p.m];
    match l
    case MLockClose => Local(sh, OnModel(MGot(p.m)))
    case MAgain => Local(sh, OnModel(MOut(p.m, x.closeErr)))
    case MFirst => Local(SetModel(sh, p.m, ClosedBy(x, t)), OnModel(MCalls(p.m)))
    case MLockCalls => Local(sh, OnModel(MMu(p.m)))
    case MLockMu => Local(sh, OnModel(MLook(p.m)))
    case MLookClosed => Local(sh, OnModel(MStore(p.m, {})))
    case MLookOpen => Local(sh, OnModel(MFree(p.m, OfModel(sh, p.m), {})))
    case MFreeNext(c) => Local(sh, Free(c, KModel(p.m, p.rest - {c}, p.errs), FStart))
    case MBegin => Local(SetModel(sh, p.m, x.(guest := Freeing)), OnModel(MCall(p.m, p.errs)))
    case MGone => Local(sh, OnModel(MStore(p.m, p.errs)))
    case MEnd(err) => Local(SetModel(sh, p.m, x.(guest := Gone)), OnModel(MStore(p.m, p.errs + err)))
    case MStoreErr => Local(SetModel(sh, p.m, TornDown(x, p.err)), OnModel(MRet(p.m, p.err)))
    case MUnlockCalls => Local(sh, OnModel(MOut(p.m, p.err)))
    case MUnlockClose => Local(sh, OnModel(ModelClosed(p.m, p.err)))
    case MReturn => Local(sh, Idle)
  }

  // ----- Llama.Close --------------------------------------------------------------------------------

  datatype CloseStep =
    | LLockClose | LAgain | LFirst | LLockMu | LLockRec | LTakeAll | LFreeNext(c: nat)
    | LWedged | LUnwedged | LDoAbandon | LDoRelease(gone: bool) | LStoreErr | LUnlock | LReturn

  predicate CloseEnabled(sh: Shared, p: InstPc, l: CloseStep) {
    match l
    case LLockClose => p.LWant?
    case LAgain => p.LGot? && sh.closed
    case LFirst => p.LGot? && !sh.closed
    case LLockMu => p.LMu?
    case LLockRec => p.LRec?
    case LTakeAll => p.LTake?
    case LFreeNext(c) => p.LFree? && c in p.rest
    case LWedged => p.LFree? && p.rest == {} && sh.wedged
    case LUnwedged => p.LFree? && p.rest == {} && !sh.wedged
    case LDoAbandon => p.LAbandon? && sh.eng in sh.engines
    case LDoRelease(_) => p.LRelease? && sh.eng in sh.engines
    case LStoreErr => p.LStore?
    case LUnlock => p.LRet?
    case LReturn => p.InstClosed?
  }

  /** release, the first time: it unmaps what is in engineMmaps. Memory with a finalizer is
      left to that, unless it is to be preserved. */
  function Released(x: Engine, unmap: bool): Engine {
    if x.released then x
    else x.(released := true, unmapped := x.unmapped || (unmap && !x.finalizer),
            finalizer := x.finalizer && (unmap || !x.preserve))
  }

  /** PreserveMemoryOnAbandon: a released engine has no gate to set the flag on. */
  function Preserving(x: Engine): Engine { x.(preserve := x.preserve || !x.released) }

  /** The memory of an image that is being built, or was, goes away. */
  function Finalized(x: Engine): Engine { x.(unmapped := true, finalizer := false) }

  function SetEngine(sh: Shared, x: Engine): Shared { sh.(engines := sh.engines[sh.eng := x]) }

  function ReleaseEngine(sh: Shared, unmap: bool): Shared
    requires sh.eng in sh.engines
  {
    SetEngine(sh, Released(sh.engines[sh.eng], unmap))
  }

  function InstClosedBy(sh: Shared, t: nat): Shared { sh.(closed := true, closer := Some(t)) }

  /** takeContexts. */
  function Taken(sh: Shared): Shared { sh.(taken := true, record := {}) }

  function InstTornDown(sh: Shared, err: Err): Shared { sh.(closeErr := err, torn := true) }

  function CloseNext(sh: Shared, t: nat, p: InstPc, l: CloseStep): Local
    requires CloseEnabled(sh, p, l)
  {
    match l
    case LLockClose => Local(sh, OnInst(LGot))
    case LAgain => Local(sh, OnInst(LRet(sh.closeErr)))
    case LFirst => Local(InstClosedBy(sh, t), OnInst(LMu))
    case LLockMu => Local(sh, OnInst(LRec))
    case LLockRec => Local(sh, OnInst(LTake))
    case LTakeAll => Local(Taken(sh), OnInst(LFree(Unfreed(sh), {})))
    case LFreeNext(c) => Local(sh, Free(c, KInst(p.rest - {c}, p.errs), FStart))
    case LWedged => Local(sh, OnInst(LAbandon(p.errs)))
    case LUnwedged => Local(sh, OnInst(LRelease(p.errs)))
    case LDoAbandon => Local(ReleaseEngine(sh, false), OnInst(LStore(p.errs + {LEAKED})))
    case LDoRelease(gone) =>
      Local(ReleaseEngine(sh, gone), OnInst(LStore(if gone then p.errs else p.errs + {LEAKED})))
    case LStoreErr => Local(InstTornDown(sh, p.err), OnInst(LRet(p.err)))
    case LUnlock => Local(sh, OnInst(InstClosed(p.err)))
    case LReturn => Local(sh, Idle)
  }

  // ----- LoadModel --------------------------------------------------------------------------------------

  datatype LoadStep =
    | OEarly | OLock | ORefuse | OAdmit | OSwap(e: nat) | OCloseOld(m: nat) | OLoad(m: nat) | OFail | ORelease

  predicate LoadEnabled(sh: Shared, p: LoadPc, l: LoadStep) {
    match l
    case OEarly => p.OWant? && sh.closed
    case OLock => p.OWant?
    case ORefuse => p.OGot? && sh.closed
    case OAdmit => p.OGot? && !sh.closed
    case OSwap(e) => p.OIn? && sh.builder.None? && sh.loaded == 0 && e !in sh.engines
    case OCloseOld(m) => p.OSwapped? && m !in sh.models
    case OLoad(m) => p.OIn? && m !in sh.models
    case OFail => p.OIn?
    case ORelease => p.OOut?
  }

  /** An engine as it is created, in an image that is being built or not. */
  function NewEngine(building: bool): Engine { Engine(false, false, false, building) }

  function Swapped(sh: Shared, e: nat, t: nat): Shared {
    sh.(eng := e, engines := sh.engines[e := NewEngine(false)], swaps := sh.swaps + 1, swapper := Some(t))
  }

  /** The engine swapped out is closed; nothing ran in it. */
  function OldClosed(sh: Shared, e: nat): Shared {
    sh.(engines := sh.engines[e := Released(NewEngine(false), true)], swapper := None)
  }

  function Loaded(sh: Shared, m: nat): Shared {
    sh.(loaded := sh.loaded + 1, models := sh.models[m := Model(false, {}, sh.eng, Live, None, false)])
  }

  function LoadNext(sh: Shared, t: nat, p: LoadPc, l: LoadStep): Local
    requires LoadEnabled(sh, p, l)
  {
    match l
    case OEarly => Local(sh, Idle)
    case OLock => Local(sh, OnLoad(OGot))
    case ORefuse => Local(sh, OnLoad(OOut))
    case OAdmit => Local(sh, OnLoad(OIn))
    case OSwap(e) => Local(Swapped(sh, e, t), OnLoad(OSwapped(sh.eng)))
    case OCloseOld(m) => Local(Loaded(OldClosed(sh, p.oldEng), m), OnLoad(OOut))
    case OLoad(m) => Local(Loaded(sh, m), OnLoad(OOut))
    case OFail => Local(sh, OnLoad(OOut))
    case ORelease => Local(sh, Idle)
  }

  // ----- Fork -----------------------------------------------------------------------------------------------

  datatype ForkStep = Attached(c: nat) | AFailed(res: E.Result) | ANoteTrap | AGiveUp | AHandOut

  predicate ForkEnabled(p: ForkPc, l: ForkStep) {
    match l
    case Attached(c) => p.Attach? && c in p.rest
    case AFailed(_) => p.Attach? && p.rest != {}
    case ANoteTrap => p.ANote?
    case AGiveUp => p.Attach?
    case AHandOut => p.Attach? && p.rest == {}
  }

  /** The new instance gets out of Fork: to its caller, or to the Close of a fork that failed. */
  function Published(sh: Shared): Shared { sh.(published := true) }

  /** A fork that fails is closed by Fork itself. */
  function ForkNext(sh: Shared, t: nat, p: ForkPc, l: ForkStep): Local
    requires ForkEnabled(p, l)
  {
    match l
    case Attached(c) => Local(sh, OnFork(Attach(p.rest - {c})))
    case AFailed(res) => Local(Trapped(sh, t, res), OnFork(ANote(res)))
    case ANoteTrap => Local(Published(NoteTrap(sh, p.res)), OnInst(LWant))
    case AGiveUp => Local(Published(sh), OnInst(LWant))
    case AHandOut => Local(Published(sh), Idle)
  }

  // ----- NewSnapshot -------------------------------------------------------------------------------------------

  datatype KeepStep =
    | KSetClosed | KLock | KLook | KCloseSlots | KWaited | KBegin | KEnd(res: E.Result, reply: Err) | KNoteTrap | KUnlock

  predicate KeepEnabled(sh: Shared, c: nat, k: KeepPc, l: KeepStep) {
    c in sh.ctxs &&
    match l
    case KSetClosed => k.KpStart?
    case KLock => k.KpWant?
    case KLook => k.KpHeld?
    case KCloseSlots => k.KpSlots? && k.s in sh.slots && V.Enabled(sh.slots[k.s].view, V.SetClosed)
    case KWaited => k.KpWait? && k.sw in sh.slots && sh.slots[k.sw].view.phase.Done?
    case KBegin => k.KpCall?
    case KEnd(res, _) => k.KpPool? && !res.Refused?
    case KNoteTrap => k.KpNote?
    case KUnlock => k.KpDone?
  }

  /** The pool is gone if its free succeeded. */
  function Joined(x: Ctx, err: Err): Ctx { x.(retired := x.retired || err == {}) }

  function KeepNext(sh: Shared, t: nat, c: nat, job: Job, k: KeepPc, l: KeepStep): Local
    requires KeepEnabled(sh, c, k, l)
  {
    var x := sh.ctxs[c];
    match l
    case KSetClosed => Local(SetCtx(sh, c, x.(closed := true)), Keep(c, job, KpWant))
    case KLock => Local(sh, Keep(c, job, KpHeld))
    case KLook => Local(sh, Keep(c, job, if x.slots.Some? then KpSlots(x.slots.value) else KpCall))
    case KCloseSlots => Local(SetView(sh, k.s, V.Apply(sh.slots[k.s].view, V.SetClosed)), Keep(c, job, KpWait(k.s)))
    case KWaited => Local(sh, Keep(c, job, KpCall))
    case KBegin => Local(sh, Keep(c, job, KpPool))
    case KEnd(res, reply) =>
      Local(Trapped(SetCtx(sh, c, Joined(x, Codes(res, reply))), t, res), Keep(c, job, KpNote(res, Codes(res, reply))))
    case KNoteTrap => Local(NoteTrap(sh, k.res), Keep(c, job, KpDone(k.err)))
    case KUnlock => Local(sh, OnRetire(RLoop(job.(errs := job.errs + k.derr))))
  }

  datatype RetireStep =
    | RRegister(c: nat) | ROver(failed: bool) | RLockRec | RTakeAll | RKeepNext(c: nat) | RFreeNext(c: nat)
    | RLookKept | RWedged | RUnwedged | RDrop | RSetPreserve | RDoAbandon

  /** Of the contexts taken over, those that only lose their pool. */
  predicate Keeps(job: Job, c: nat) { c in job.kept && !job.all }

  predicate RetireEnabled(sh: Shared, p: RetirePc, l: RetireStep) {
    match l
    case RRegister(c) => p.Building? && HandedOut(sh.ctxs, c) && !sh.ctxs[c].closed && c !in p.kept
    case ROver(failed) => p.Building? && (p.kept == {} ==> failed)
    case RLockRec => p.RRec?
    case RTakeAll => p.RTake?
    case RKeepNext(c) => p.RLoop? && c in p.job.rest && Keeps(p.job, c)
    case RFreeNext(c) => p.RLoop? && c in p.job.rest && !Keeps(p.job, c)
    case RLookKept => p.RLoop? && p.job.rest == {}
    case RWedged => p.RJudge? && sh.wedged
    case RUnwedged => p.RJudge? && !sh.wedged
    case RDrop => p.RFail? && sh.eng in sh.engines
    case RSetPreserve => p.RPreserve? && sh.eng in sh.engines
    case RDoAbandon => p.RAbandon? && sh.eng in sh.engines
  }

  /** A kept context that the build closed is an error. */
  function ClosedKept(sh: Shared, job: Job): Err {
    if !job.all && exists c :: c in job.kept && c in sh.ctxs && sh.ctxs[c].freed then {KEPT_CLOSED} else {}
  }

  predicate Fails(job: Job) { job.all || job.errs != {} }

  /** A build that failed has its memory unmapped by the image's builder; the engine is
      abandoned in any case. */
  function RetireNext(sh: Shared, p: RetirePc, l: RetireStep): Local
    requires RetireEnabled(sh, p, l)
  {
    match l
    case RRegister(c) => Local(sh, OnRetire(Building(p.kept + {c})))
    case ROver(failed) => Local(sh, OnRetire(RRec(Job(p.kept, failed, {}, {}))))
    case RLockRec => Local(sh, OnRetire(RTake(p.job)))
    case RTakeAll => Local(Taken(sh), OnRetire(RLoop(p.job.(rest := Unfreed(sh)))))
    case RKeepNext(c) => Local(sh, Keep(c, p.job.(rest := p.job.rest - {c}), KpStart))
    case RFreeNext(c) => Local(sh, Free(c, KRetire(p.job.(rest := p.job.rest - {c})), FStart))
    case RLookKept => Local(sh, OnRetire(RJudge(p.job.(errs := p.job.errs + ClosedKept(sh, p.job)))))
    case RWedged => Local(sh, OnRetire(RPreserve(p.job)))
    case RUnwedged => Local(sh, OnRetire(if Fails(p.job) then RFail(p.job) else RAbandon(p.job, Sealed)))
    case RDrop => Local(SetEngine(sh, Finalized(sh.engines[sh.eng])), OnRetire(RAbandon(p.job, Failed)))
    case RSetPreserve =>
      Local(SetEngine(sh, Preserving(sh.engines[sh.eng])), OnRetire(RAbandon(p.job, LeftMapped)))
    case RDoAbandon => Local(ReleaseEngine(sh, false), OnRetire(Retired(p.job, p.out)))
  }

  // ----- the Slots' own threads -----------------------------------------------------------------------------

  /** A step of the scheduler, a canceller or a Close of Slots sid, as the instance sees it. */
  predicate SlotsEnabled(sh: Shared, sid: nat, l: V.ViewStep) {
    && sid in sh.slots && V.Enabled(sh.slots[sid].view, l) && !l.PostBegin?
    && (l.CallEnd? ==> sh.slots[sid].view.engine.Own?)
  }

  /** detach also clears the context's record of the Slots. */
  function Recording(ctxs: map<nat, Ctx>, c: nat, sid: nat, l: V.ViewStep): map<nat, Ctx> {
    if l.Detach? && c in ctxs && ctxs[c].slots == Some(sid) then ctxs[c := ctxs[c].(slots := None)] else ctxs
  }

  function SlotsNext(sh: Shared, sid: nat, l: V.ViewStep): Shared
    requires SlotsEnabled(sh, sid, l)
  {
    sh.(slots := sh.slots[sid := sh.slots[sid].(view := V.Apply(sh.slots[sid].view, l))],
        ctxs := Recording(sh.ctxs, sh.slots[sid].ctx, sid, l))
  }

  // ----- all of it -------------------------------------------------------------------------------------------

  datatype Step =
    | Begin(start: StartStep) | Call(call: CallStep) | Interrupt(intr: IntStep) | FreeCtx(free: FreeStep) | CtxReturn
    | NewCtx(creation: NewStep) | CloseModel(model: ModelStep) | CloseInst(close: CloseStep) | Load(load: LoadStep)
    | Fork(fork: ForkStep) | KeepCtx(keep: KeepStep) | Retire(retire: RetireStep)

  predicate Enabled(sh: Shared, t: nat, pc: Pc, l: Step) {
    match l
    case Begin(x) => pc.Idle? && StartEnabled(sh, x)
    case Call(x) => pc.OnCall? && CallEnabled(sh, t, pc.call, x)
    case Interrupt(x) => pc.OnInterrupt? && IntEnabled(sh, pc.intr, x)
    case FreeCtx(x) => pc.Free? && FreeEnabled(sh, pc.c, pc.f, x)
    case CtxReturn => pc.CtxClosed?
    case NewCtx(x) => pc.OnNew? && NewEnabled(sh, pc.creation, x)
    case CloseModel(x) => pc.OnModel? && ModelEnabled(sh, pc.model, x)
    case CloseInst(x) => pc.OnInst? && CloseEnabled(sh, pc.inst, x)
    case Load(x) => pc.OnLoad? && LoadEnabled(sh, pc.load, x)
    case Fork(x) => pc.OnFork? && ForkEnabled(pc.fork, x)
    case KeepCtx(x) => pc.Keep? && KeepEnabled(sh, pc.c, pc.keep, x)
    case Retire(x) => pc.OnRetire? && RetireEnabled(sh, pc.retire, x)
  }

  function Do(sh: Shared, t: nat, pc: Pc, l: Step): Local
    requires Enabled(sh, t, pc, l)
  {
    match l
    case Begin(x) => Local(sh, Start(x))
    case Call(x) => CallNext(sh, t, pc.call, x)
    case Interrupt(x) => Local(sh, IntNext(sh, pc.intr, x))
    case FreeCtx(x) => FreeNext(sh, t, pc.c, pc.kont, pc.f, x)
    case CtxReturn => Local(sh, Idle)
    case NewCtx(x) => NewNext(sh, t, pc.creation, x)
    case CloseModel(x) => ModelNext(sh, t, pc.model, x)
    case CloseInst(x) => CloseNext(sh, t, pc.inst, x)
    case Load(x) => LoadNext(sh, t, pc.load, x)
    case Fork(x) => ForkNext(sh, t, pc.fork, x)
    case KeepCtx(x) => KeepNext(sh, t, pc.c, pc.job, pc.keep, x)
    case Retire(x) => RetireNext(sh, pc.retire, x)
  }
}
