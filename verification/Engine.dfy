/**
 One engine (internal/engine.go): the gate that orders its calls against its
 release, the module's lock, the memory's lock, the thread count, and the record
 of the first trap.

 Every map below goes from a thread to where that thread is. As in `InstanceState`,
 the locks follow from the program counters.
 */
module EngineProtocol {
  import opened Options

  /** What a call returns. */
  datatype Result = Reply | EngineClosed | Refused(first: nat) | Trap(id: nat)

  /** invokeGated; `teardown` as in teardownMethods. */
  datatype CallPc =
    | CLoad | CWant                  // before the gate's entry is looked up; before RLock
    | CGot | COpen | CPassed         // gate held; not closed; not refused
    | CGuest | CHandler              // in the guest, with the module's lock; in a user callback, without
    | CTrapped(id: nat)              // the guest trapped; not recorded yet
    | COut(res: Result) | CDone(ret: Result)

  datatype Call = Call(teardown: bool, pc: CallPc)

  /** release(unmap). */
  datatype RelPc =
    | RLoad(want: bool) | RWant(want: bool)
    | RGot(want: bool) | RMod(want: bool)             // gate held exclusively; and the module's lock
    | RPoll                                           // threadsGone
    | RDecided(unmap: bool, alive: bool)              // before the memory's lock
    | RMem(unmap: bool, alive: bool)                  // memory's lock held
    | RNil(unmap: bool, alive: bool)                  // Memory is nil
    | RTook(unmap: bool, alive: bool, mapped: bool)   // the mapping's entry is taken out
    | RUnmapped(alive: bool)                          // before the gate's entry is deleted
    | ROut(err: bool) | RDone(ret: bool)

  /** base.AccessMemory, as Interrupt uses it. */
  datatype AccessPc = AWant | AGot | ATouch | AOut(ok: bool)

  /** `unmaps` counts the runs of UnmapMemory, `zeroed` is MemSize set to 0, `live`
      the guest's threads, which adopt's hook counts. */
  datatype State = State(
    entry: bool, memory: bool, mapping: bool, unmaps: nat, zeroed: bool,
    live: nat, trapped: Option<nat>,
    calls: map<nat, Call>, releases: map<nat, RelPc>, accesses: map<nat, AccessPc>)

  // ----- locks ----------------------------------------------------------------------

  predicate GateShared(c: CallPc) { !c.CLoad? && !c.CWant? && !c.CDone? }

  predicate GateExcl(r: RelPc) { !r.RLoad? && !r.RWant? && !r.RDone? }

  predicate ModuleHeld(r: RelPc) { GateExcl(r) && !r.RGot? }

  predicate MemoryHeld(r: RelPc) { r.RMem? || r.RNil? || r.RTook? || r.RUnmapped? }

  predicate MemoryAccessed(a: AccessPc) { a.AGot? || a.ATouch? }

  ghost predicate NoRelease(s: State) { forall r :: r in s.releases ==> !GateExcl(s.releases[r]) }

  ghost predicate GateFree(s: State) { NoRelease(s) && forall c :: c in s.calls ==> !GateShared(s.calls[c].pc) }

  ghost predicate ModuleFree(s: State) {
    && (forall c :: c in s.calls ==> !s.calls[c].pc.CGuest?)
    && (forall r :: r in s.releases ==> !ModuleHeld(s.releases[r]))
  }

  ghost predicate MemoryFree(s: State) {
    && (forall a :: a in s.accesses ==> !MemoryAccessed(s.accesses[a]))
    && (forall r :: r in s.releases ==> !MemoryHeld(s.releases[r]))
  }

  // ----- calls --------------------------------------------------------------------------

  datatype CallStep =
    | CFind | CLock | CCheckClosed | CCheckTrapped | CEnter | CCallback | CBack | CReply | CTrap(id: nat) | CRecord | CUnlock

  /** The step is the call's next. */
  predicate CallReady(pc: CallPc, l: CallStep) {
    match l
    case CFind => pc.CLoad?
    case CLock => pc.CWant?
    case CCheckClosed => pc.CGot?
    case CCheckTrapped => pc.COpen?
    case CEnter => pc.CPassed?
    case CCallback => pc.CGuest?
    case CBack => pc.CHandler?
    case CReply => pc.CGuest?
    case CTrap(_) => pc.CGuest?
    case CRecord => pc.CTrapped?
    case CUnlock => pc.COut?
  }

  /** The lock that the step takes is free. */
  ghost predicate CallUnblocked(s: State, l: CallStep) {
    match l
    case CLock => NoRelease(s)
    case CEnter => ModuleFree(s)
    case CBack => ModuleFree(s)
    case _ => true
  }

  ghost predicate CallEnabled(s: State, c: nat, l: CallStep) {
    c in s.calls && CallReady(s.calls[c].pc, l) && CallUnblocked(s, l)
  }

  /** Where the step takes the call. */
  function CallNext(s: State, x: Call, l: CallStep): CallPc
    requires match l case CRecord => x.pc.CTrapped? case CUnlock => x.pc.COut? case _ => true
  {
    match l
    case CFind => if s.entry then CWant else CDone(EngineClosed)
    case CLock => CGot
    case CCheckClosed => if s.memory then COpen else COut(EngineClosed)
    case CCheckTrapped => if s.trapped.Some? && !x.teardown then COut(Refused(s.trapped.value)) else CPassed
    case CEnter => CGuest
    case CCallback => CHandler
    case CBack => CGuest
    case CReply => COut(Reply)
    case CTrap(id) => CTrapped(id)
    case CRecord => COut(Trap(x.pc.id))
    case CUnlock => CDone(x.pc.res)
  }

  function MoveCall(s: State, c: nat, pc: CallPc): State
    requires c in s.calls
  {
    s.(calls := s.calls[c := s.calls[c].(pc := pc)])
  }

  /** CompareAndSwap(nil, trap). */
  function Recorded(s: State, id: nat): State { if s.trapped.None? then s.(trapped := Some(id)) else s }

  ghost function CallApply(s: State, c: nat, l: CallStep): State
    requires CallEnabled(s, c, l)
  {
    var s' := MoveCall(s, c, CallNext(s, s.calls[c], l));
    if l.CRecord? then Recorded(s', s.calls[c].pc.id) else s'
  }

  // ----- release --------------------------------------------------------------------------

  datatype RelStep =
    | RFind | RLockGate | RLockModule | RCheckClosed | RThreadsGone | RTimeout | RLockMemory
    | RDetach | RTake | RUnmap | RDelete | RUnlock

  predicate RelReady(s: State, pc: RelPc, l: RelStep) {
    match l
    case RFind => pc.RLoad?
    case RLockGate => pc.RWant?
    case RLockModule => pc.RGot?
    case RCheckClosed => pc.RMod?
    case RThreadsGone => pc.RPoll? && s.live == 0
    case RTimeout => pc.RPoll? && s.live > 0
    case RLockMemory => pc.RDecided?
    case RDetach => pc.RMem?
    case RTake => pc.RNil?
    case RUnmap => pc.RTook?
    case RDelete => pc.RUnmapped?
    case RUnlock => pc.ROut?
  }

  ghost predicate RelUnblocked(s: State, l: RelStep) {
    match l
    case RLockGate => GateFree(s)
    case RLockModule => ModuleFree(s)
    case RLockMemory => MemoryFree(s)
    case _ => true
  }

  ghost predicate RelEnabled(s: State, r: nat, l: RelStep) {
    r in s.releases && RelReady(s, s.releases[r], l) && RelUnblocked(s, l)
  }

  function MoveRel(s: State, r: nat, pc: RelPc): State { s.(releases := s.releases[r := pc]) }

  /** MemSize goes to 0 and the mapping away, but only when the memory does. */
  function Unmapped(s: State, unmap: bool, mapped: bool): State {
    if !unmap then s else s.(zeroed := true, unmaps := if mapped then s.unmaps + 1 else s.unmaps)
  }

  ghost function RelApply(s: State, r: nat, l: RelStep): State
    requires RelEnabled(s, r, l)
  {
    var pc := s.releases[r];
    match l
    case RFind => MoveRel(s, r, if s.entry then RWant(pc.want) else RDone(false))
    case RLockGate => MoveRel(s, r, RGot(pc.want))
    case RLockModule => MoveRel(s, r, RMod(pc.want))
    case RCheckClosed => MoveRel(s, r, if !s.memory then ROut(false) else if pc.want then RPoll else RDecided(false, false))
    case RThreadsGone => MoveRel(s, r, RDecided(true, false))
    case RTimeout => MoveRel(s, r, RDecided(false, true))
    case RLockMemory => MoveRel(s, r, RMem(pc.unmap, pc.alive))
    case RDetach => MoveRel(s.(memory := false), r, RNil(pc.unmap, pc.alive))
    case RTake => MoveRel(s.(mapping := false), r, RTook(pc.unmap, pc.alive, s.mapping))
    case RUnmap => MoveRel(Unmapped(s, pc.unmap, pc.mapped), r, RUnmapped(pc.alive))
    case RDelete => MoveRel(s.(entry := false), r, ROut(pc.alive))
    case RUnlock => MoveRel(s, r, RDone(pc.err))
  }

  // ----- the memory from outside, the guest's threads, and new arrivals -------------------

  datatype AccessStep = ALock | ALook | AWrote

  predicate AccessReady(pc: AccessPc, l: AccessStep) {
    match l
    case ALock => pc.AWant?
    case ALook => pc.AGot?
    case AWrote => pc.ATouch?
  }

  ghost predicate AccessEnabled(s: State, a: nat, l: AccessStep) {
    a in s.accesses && AccessReady(s.accesses[a], l) && (l.ALock? ==> MemoryFree(s))
  }

  ghost function AccessApply(s: State, a: nat, l: AccessStep): State
    requires AccessEnabled(s, a, l)
  {
    s.(accesses := s.accesses[a :=
      match l
      case ALock => AGot
      case ALook => if s.memory then ATouch else AOut(false)
      case AWrote => AOut(true)])
  }

  /** A call in the guest, or a thread of it, starts a thread; a thread ends. */
  datatype EnvStep =
    | Spawn | ThreadEnd | NewCall(c: nat, teardown: bool) | NewRelease(r: nat, unmap: bool) | NewAccess(a: nat)

  ghost predicate GuestRuns(s: State) { s.live > 0 || exists c :: c in s.calls && s.calls[c].pc.CGuest? }

  ghost predicate EnvEnabled(s: State, l: EnvStep) {
    match l
    case Spawn => GuestRuns(s)
    case ThreadEnd => s.live > 0
    case NewCall(c, _) => c !in s.calls
    case NewRelease(r, _) => r !in s.releases
    case NewAccess(a) => a !in s.accesses
  }

  ghost function EnvApply(s: State, l: EnvStep): State
    requires EnvEnabled(s, l)
  {
    match l
    case Spawn => s.(live := s.live + 1)
    case ThreadEnd => s.(live := s.live - 1)
    case NewCall(c, teardown) => s.(calls := s.calls[c := Call(teardown, CLoad)])
    case NewRelease(r, unmap) => s.(releases := s.releases[r := RLoad(unmap)])
    case NewAccess(a) => s.(accesses := s.accesses[a := AWant])
  }

  datatype Label =
    | InCall(c: nat, call: CallStep)
    | InRelease(r: nat, rel: RelStep)
    | InAccess(a: nat, acc: AccessStep)
    | Env(env: EnvStep)

  ghost predicate Enabled(s: State, l: Label) {
    match l
    case InCall(c, x) => CallEnabled(s, c, x)
    case InRelease(r, x) => RelEnabled(s, r, x)
    case InAccess(a, x) => AccessEnabled(s, a, x)
    case Env(x) => EnvEnabled(s, x)
  }

  ghost function Apply(s: State, l: Label): State
    requires Enabled(s, l)
  {
    match l
    case InCall(c, x) => CallApply(s, c, x)
    case InRelease(r, x) => RelApply(s, r, x)
    case InAccess(a, x) => AccessApply(s, a, x)
    case Env(x) => EnvApply(s, x)
  }

  /** A new engine, backed by a copy-on-write mapping or by a private allocation. */
  predicate Init(s: State) {
    s == State(true, true, s.mapping, 0, false, 0, None, map[], map[], map[])
  }

  ghost predicate Next(s: State, s': State) { exists l :: Enabled(s, l) && s' == Apply(s, l) }

  /** The i-th state of a run is an initial one, or follows the one before. */
  ghost predicate Reached(run: seq<State>, i: int)
    requires 0 <= i < |run|
  {
    if i == 0 then Init(run[0]) else Next(run[i - 1], run[i])
  }

  /** A run: consecutive states, from an initial one. */
  ghost predicate Run(run: seq<State>) { run != [] && forall i :: 0 <= i < |run| ==> Reached(run, i) }
}
