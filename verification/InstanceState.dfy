/**
 One instance (llama.go) with its models, contexts and Slots, and the threads
 that call, interrupt, create and close them.

 The state is what the threads share plus one program counter per thread. The
 locks have no field of their own: which thread holds which lock, and how,
 follows from the program counters (`HoldsExcl`, `HoldsShared`), and a thread
 may only move to a program counter that is compatible with all the others.
 */
module InstanceState {
  import opened Options
  import E = EngineProtocol
  import V = SlotsView

  /** Joined errors, as a set of codes; the empty set is nil. */
  type Err = set<int>

  /** The guest-side object behind a handle. */
  datatype Guest = Live | Freeing | Gone

  /** ctxState. `guest`, `frees`, `busy`, `maker` and `retired` are history: the object
      in the guest, how often its free has run, the thread that is between the start of
      that free and the store of `freed`, the NewContext that has not handed the context
      out yet, and whether the end of a snapshot's build has freed its threadpool. */
  datatype Ctx = Ctx(model: nat, closed: bool, freed: bool, slots: Option<nat>, closeErr: Err,
                     guest: Guest, frees: nat, busy: Option<nat>, maker: Option<nat>, retired: bool)

  /** Model. `closer` and `torn` are history: the thread that set `closed`, and
      whether its teardown is over. */
  datatype Model = Model(closed: bool, closeErr: Err, engine: nat, guest: Guest, closer: Option<nat>, torn: bool)

  /** A Slots over a context. */
  datatype SlotsRec = SlotsRec(ctx: nat, view: V.View)

  /** `preserve` is preserveMemory; `finalizer` the one that an image's builder has on
      its memory, which unmaps it once the engine is gone. That memory is not in
      engineMmaps. */
  datatype Engine = Engine(released: bool, unmapped: bool, preserve: bool, finalizer: bool)

  /** What the threads share. `closer`, `torn`, `taken`, `trapBy`, `swaps`, `swapper` and
      `forker` are history: who set `closed`, whether that teardown is over, whether the
      record has been taken over, which thread's managing call was the first to trap in the
      guest, how often the engine was swapped and by a thread still at it, and the thread
      that is forking the instance. `builder` is the thread whose NewSnapshot builds the
      instance, if one does: such an instance loads its model into its own engine
      (noSharedModel). */
  datatype Shared = Shared(
    closed: bool, closeErr: Err, wedged: bool,
    record: set<nat>,
    ctxs: map<nat, Ctx>, models: map<nat, Model>, slots: map<nat, SlotsRec>,
    eng: nat, engines: map<nat, Engine>, loaded: nat, published: bool,
    closer: Option<nat>, torn: bool, taken: bool, trapBy: Option<nat>, swaps: nat, swapper: Option<nat>,
    forker: Option<nat>, builder: Option<nat>)

  /** retireContexts: the contexts registered, whether those are freed too, the contexts
      still to come, and the errors so far. */
  datatype Job = Job(kept: set<nat>, all: bool, rest: set<nat>, errs: Err)

  /** Where freeContext returns to: Context.Close, the loops of Model.Close, Llama.Close
      and retireContexts over the contexts left, or NewContext giving up. */
  datatype Kont =
    | KCtx
    | KModel(m: nat, rest: set<nat>, errs: Err)
    | KInst(left: set<nat>, sofar: Err)
    | KNew(nm: nat)
    | KRetire(job: Job)

  /** freeContext. */
  datatype FreePc =
    | FStart                              // before closed is stored
    | FSpin                               // TryLock of calls
    | FIntWant | FIntGot | FIntWrite      // the interrupt of a failed TryLock
    | FHeld                               // calls held exclusively
    | FSlots(s: nat) | FWait(sw: nat)     // the Slots' Close
    | FImu                                // before interruptMu
    | FCall | FFreeing                    // before, and inside, the guest's free
    | FNote(res: E.Result, err: Err)      // noteTrap still to run
    | FStore(serr: Err)                   // closeErr and freed still to be stored
    | FUnlock(uerr: Err) | FDone(derr: Err)

  /** A call: Context.enter, once or (GenerateWithDraft) for two contexts in one
      order. `Want` waits for calls of cs[k] with those of cs[..k] held. */
  datatype CallPc =
    | Want(cs: seq<nat>, k: nat) | Got(cs: seq<nat>, k: nat) | In(cs: seq<nat>) | Out(cs: seq<nat>, k: nat)
    | Posting(cs: seq<nat>, sid: nat)

  /** Interrupt. */
  datatype IntPc = IWant(c: nat) | IGot(c: nat) | IWrite(c: nat) | IOut(c: nat)

  /** Model.enter, and NewContext from there. */
  datatype NewPc =
    | NWant(m: nat) | NGot(m: nat) | NIn(m: nat) | NLock(m: nat) | NUse(m: nat) | NCall(m: nat)
    | NNote(m: nat, res: E.Result) | NAddr(m: nat, c: nat) | NUnlock(m: nat)

  /** Model.Close. */
  datatype ModelPc =
    | MWant(m: nat) | MGot(m: nat) | MCalls(m: nat) | MMu(m: nat) | MLook(m: nat)
    | MFree(m: nat, rest: set<nat>, errs: Err) | MCall(m: nat, errs: Err) | MStore(m: nat, err: Err)
    | MRet(m: nat, err: Err) | MOut(m: nat, err: Err) | ModelClosed(m: nat, err: Err)

  /** Llama.Close. */
  datatype InstPc =
    | LWant | LGot | LMu | LRec | LTake | LFree(rest: set<nat>, errs: Err)
    | LRelease(errs: Err) | LAbandon(errs: Err) | LStore(err: Err) | LRet(err: Err) | InstClosed(err: Err)

  /** LoadModel. */
  datatype LoadPc = OWant | OGot | OIn | OSwapped(oldEng: nat) | OOut

  /** Fork, until the instance is handed out. */
  datatype ForkPc = Attach(rest: set<nat>) | ANote(res: E.Result)

  /** retireKept. */
  datatype KeepPc =
    | KpStart | KpWant | KpHeld                  // before closed is stored; before, and with, calls
    | KpSlots(s: nat) | KpWait(sw: nat)          // the Slots' Close
    | KpCall | KpPool                            // before, and inside, the guest's free of the pool
    | KpNote(res: E.Result, err: Err) | KpDone(derr: Err)

  /** How a build ends: with an image, with an error, or with its memory left mapped. */
  datatype Outcome = Sealed | Failed | LeftMapped

  /** NewSnapshot, from its callback on. */
  datatype RetirePc =
    | Building(kept: set<nat>)                              // the callback runs
    | RRec(job: Job) | RTake(job: Job)                      // takeContexts
    | RLoop(job: Job) | RJudge(job: Job)                    // retireContexts' loop, and its result
    | RFail(job: Job) | RPreserve(job: Job)                 // the memory goes away, or has to stay
    | RAbandon(job: Job, out: Outcome) | Retired(job: Job, out: Outcome)

  datatype Pc =
    | Idle
    | OnCall(call: CallPc)
    | OnInterrupt(intr: IntPc)
    | Free(c: nat, kont: Kont, f: FreePc)
    | CtxClosed(cc: nat, err: Err)
    | OnNew(creation: NewPc)
    | OnModel(model: ModelPc)
    | OnInst(inst: InstPc)
    | OnLoad(load: LoadPc)
    | OnFork(fork: ForkPc)
    | Keep(c: nat, job: Job, keep: KeepPc)
    | OnRetire(retire: RetirePc)

  datatype State = State(sh: Shared, threads: map<nat, Pc>)

  // ----- locks ------------------------------------------------------------------

  /** `Hands` is no lock of the code. It stands for the rule of NewSnapshot that its
      builder is not used beyond the callback: whoever creates, closes or loads has it
      shared, the end of the build exclusively. Calls on contexts that the callback left
      in flight, their Slots and interrupts do without it. */
  datatype Lock =
    | Hands | InstClose | Mu | ModelClose(m: nat) | ModelCalls(m: nat) | CtxMu | CtxCalls(c: nat) | IntMu(c: nat)

  predicate KontExcl(k: Kont, l: Lock) {
    match k
    case KCtx => false
    case KModel(m, _, _) => l == ModelClose(m) || l == ModelCalls(m)
    case KInst(_, _) => l == InstClose || l == Mu
    case KNew(_) => l == CtxMu
    case KRetire(_) => l == Hands
  }

  predicate FreeExcl(c: nat, f: FreePc, l: Lock) {
    match f
    case FStart => false
    case FSpin => false
    case FIntWant => false
    case FIntGot => l == IntMu(c)
    case FIntWrite => l == IntMu(c)
    case FHeld => l == CtxCalls(c)
    case FSlots(_) => l == CtxCalls(c)
    case FWait(_) => l == CtxCalls(c)
    case FImu => l == CtxCalls(c)
    case FDone(_) => l == CtxCalls(c)
    case _ => l == CtxCalls(c) || l == IntMu(c)
  }

  predicate IntExcl(p: IntPc, l: Lock) { !p.IWant? && l == IntMu(p.c) }

  predicate NewExcl(p: NewPc, l: Lock) {
    l == CtxMu && (p.NUse? || p.NCall? || p.NNote? || p.NAddr? || p.NUnlock?)
  }

  predicate ModelExcl(p: ModelPc, l: Lock) {
    match p
    case MWant(_) => false
    case MGot(m) => l == ModelClose(m)
    case MCalls(m) => l == ModelClose(m)
    case MLook(m) => l == ModelClose(m) || l == ModelCalls(m) || l == CtxMu
    case MOut(m, _) => l == ModelClose(m)
    case ModelClosed(_, _) => false
    case _ => l == ModelClose(p.m) || l == ModelCalls(p.m)
  }

  predicate InstExcl(p: InstPc, l: Lock) {
    match p
    case LWant => false
    case LGot => l == InstClose
    case LMu => l == InstClose
    case LTake => l == InstClose || l == Mu || l == CtxMu
    case LRet(_) => l == InstClose
    case InstClosed(_) => false
    case _ => l == InstClose || l == Mu
  }

  predicate KeepExcl(c: nat, k: KeepPc, l: Lock) {
    l == Hands || (l == CtxCalls(c) && !k.KpStart? && !k.KpWant?)
  }

  predicate RetireExcl(p: RetirePc, l: Lock) {
    (l == Hands && !p.Building?) || (l == CtxMu && p.RTake?)
  }

  /** The thread holds `l` exclusively: a mutex, or an RWMutex locked for writing. */
  predicate HoldsExcl(pc: Pc, l: Lock) {
    match pc
    case OnInterrupt(p) => IntExcl(p, l)
    case Free(c, k, f) => KontExcl(k, l) || FreeExcl(c, f, l)
    case OnNew(p) => NewExcl(p, l)
    case OnModel(p) => ModelExcl(p, l)
    case OnInst(p) => InstExcl(p, l)
    case OnLoad(p) => !p.OWant? && l == Mu
    case Keep(c, _, k) => KeepExcl(c, k, l)
    case OnRetire(p) => RetireExcl(p, l)
    case _ => false
  }

  /** The contexts whose calls lock a call holds. */
  predicate CallHolds(p: CallPc, c: nat) {
    match p
    case Want(cs, k) => exists j :: 0 <= j < k && j < |cs| && cs[j] == c
    case Got(cs, k) => exists j :: 0 <= j <= k && j < |cs| && cs[j] == c
    case In(cs) => c in cs
    case Posting(cs, _) => c in cs
    case Out(cs, k) => exists j :: 0 <= j < k && j < |cs| && cs[j] == c
  }

  /** The thread holds `l` shared: an RWMutex locked for reading. */
  predicate HoldsShared(pc: Pc, l: Lock) {
    match pc
    case OnCall(p) => l.CtxCalls? && CallHolds(p, l.c)
    case Free(_, k, _) => (k.KNew? && l == ModelCalls(k.nm)) || (!k.KRetire? && l == Hands)
    case OnNew(p) => (!p.NWant? && l == ModelCalls(p.m)) || l == Hands
    case OnModel(_) => l == Hands
    case OnInst(_) => l == Hands
    case OnLoad(_) => l == Hands
    case _ => false
  }

  predicate Holds(pc: Pc, l: Lock) { HoldsExcl(pc, l) || HoldsShared(pc, l) }

  /** Two threads may be where they are at the same time. */
  ghost predicate Compatible(p: Pc, q: Pc) {
    forall l :: (HoldsExcl(p, l) ==> !Holds(q, l)) && (HoldsExcl(q, l) ==> !Holds(p, l))
  }
}
