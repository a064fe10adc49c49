/**
 What every run of an engine keeps, and what follows for its memory, its calls
 and its record of traps.
 */
module EngineProofs {
  import opened Options
  import opened EngineProtocol

  // ----- the invariant --------------------------------------------------------------------

  /** The gate is a readers-writer lock, the module's and the memory's are mutexes. */
  ghost predicate LocksInv(calls: map<nat, Call>, releases: map<nat, RelPc>, accesses: map<nat, AccessPc>) {
    && (forall r, r' :: r in releases && r' in releases && GateExcl(releases[r]) && GateExcl(releases[r']) ==> r == r')
    && (forall r, c :: r in releases && c in calls && GateExcl(releases[r]) ==> !GateShared(calls[c].pc))
    && (forall c, c' :: c in calls && c' in calls && calls[c].pc.CGuest? && calls[c'].pc.CGuest? ==> c == c')
    && (forall r, a :: r in releases && a in accesses && MemoryHeld(releases[r]) ==> !MemoryAccessed(accesses[a]))
    && (forall a, a' :: a in accesses && a' in accesses && MemoryAccessed(accesses[a]) && MemoryAccessed(accesses[a'])
          ==> a == a')
  }

  /** The call is past the check that the memory is there. */
  predicate Admitted(pc: CallPc) { pc.COpen? || pc.CPassed? || pc.CGuest? || pc.CHandler? || pc.CTrapped? }

  predicate CallOk(x: Call, memory: bool, trapped: Option<nat>) {
    && (Admitted(x.pc) ==> memory)
    && (x.pc.COut? && x.pc.res.Refused? ==> trapped == Some(x.pc.res.first) && !x.teardown)
    && (x.pc.CDone? && x.pc.ret.Refused? ==> trapped == Some(x.pc.ret.first) && !x.teardown)
    && (x.pc.COut? && x.pc.res.Trap? ==> trapped.Some?)
    && (x.pc.CDone? && x.pc.ret.Trap? ==> trapped.Some?)
    && (x.pc.COut? && x.pc.res.EngineClosed? ==> !memory)
    && (x.pc.CDone? && x.pc.ret.EngineClosed? ==> !memory)
  }

  /** What the release in progress relies on. */
  predicate RelOk(pc: RelPc, s: State) {
    match pc
    case RPoll => s.memory
    case RDecided(unmap, _) => s.memory && (unmap ==> s.live == 0)
    case RMem(unmap, _) => s.memory && (unmap ==> s.live == 0)
    case RNil(unmap, _) => !s.memory && s.unmaps == 0 && (unmap ==> s.live == 0)
    case RTook(unmap, _, _) => !s.memory && !s.mapping && s.unmaps == 0 && (unmap ==> s.live == 0)
    case RUnmapped(_) => !s.memory && !s.mapping
    case ROut(_) => !s.memory
    case _ => true
  }

  predicate MemoryInv(s: State) {
    && (!s.entry ==> !s.memory)
    && s.unmaps <= 1
    && (s.unmaps > 0 ==> s.zeroed && !s.mapping)
    && (s.zeroed ==> !s.memory && s.live == 0)
  }

  predicate AccessOk(a: AccessPc, memory: bool) { a.ATouch? ==> memory }

  ghost predicate Inv(s: State) {
    && LocksInv(s.calls, s.releases, s.accesses)
    && MemoryInv(s)
    && (forall c :: c in s.calls ==> CallOk(s.calls[c], s.memory, s.trapped))
    && (forall r :: r in s.releases ==> RelOk(s.releases[r], s))
    && (forall a :: a in s.accesses ==> AccessOk(s.accesses[a], s.memory))
  }

  lemma InitHolds(s: State)
    requires Init(s)
    ensures Inv(s)
  {}

  /** A call may move wherever its locks are its own already, or free. */
  lemma CallLocks(calls: map<nat, Call>, releases: map<nat, RelPc>, accesses: map<nat, AccessPc>, c: nat, pc: CallPc)
    requires LocksInv(calls, releases, accesses) && c in calls
    requires GateShared(pc) ==> GateShared(calls[c].pc) || forall r :: r in releases ==> !GateExcl(releases[r])
    requires pc.CGuest? ==> calls[c].pc.CGuest? || forall d :: d in calls ==> !calls[d].pc.CGuest?
    ensures LocksInv(calls[c := calls[c].(pc := pc)], releases, accesses)
  {}

  lemma CallKeepsLocks(s: State, c: nat, l: CallStep)
    requires LocksInv(s.calls, s.releases, s.accesses) && CallEnabled(s, c, l)
    ensures LocksInv(CallApply(s, c, l).calls, s.releases, s.accesses)
  {
    CallLocks(s.calls, s.releases, s.accesses, c, CallNext(s, s.calls[c], l));
  }

  lemma MovedCallOk(s: State, c: nat, l: CallStep)
    requires CallEnabled(s, c, l) && CallOk(s.calls[c], s.memory, s.trapped) && (!s.entry ==> !s.memory)
    ensures CallOk(CallApply(s, c, l).calls[c], s.memory, CallApply(s, c, l).trapped)
  {}

  lemma CallKeepsCalls(s: State, c: nat, l: CallStep)
    requires Inv(s) && CallEnabled(s, c, l)
    ensures forall d :: d in s.calls ==>
              CallOk(CallApply(s, c, l).calls[d], s.memory, CallApply(s, c, l).trapped)
  {
    forall d | d in s.calls ensures CallOk(CallApply(s, c, l).calls[d], s.memory, CallApply(s, c, l).trapped) {
      assert CallOk(s.calls[d], s.memory, s.trapped);
      if d == c {
        MovedCallOk(s, c, l);
      }
    }
  }

  lemma CallMoves(s: State, c: nat, l: CallStep)
    requires CallEnabled(s, c, l)
    ensures CallApply(s, c, l) == s.(calls := CallApply(s, c, l).calls, trapped := CallApply(s, c, l).trapped)
    ensures CallApply(s, c, l).calls.Keys == s.calls.Keys
  {}

  lemma CallKeeps(s: State, c: nat, l: CallStep)
    requires Inv(s) && CallEnabled(s, c, l)
    ensures Inv(CallApply(s, c, l))
  {
    CallMoves(s, c, l);
    CallKeepsLocks(s, c, l);
    CallKeepsCalls(s, c, l);
    assert forall r :: r in s.releases ==> RelOk(s.releases[r], CallApply(s, c, l)) by {
      assert forall r :: r in s.releases ==> RelOk(s.releases[r], s);
    }
  }

  lemma RelMoves(s: State, r: nat, l: RelStep)
    requires RelEnabled(s, r, l)
    ensures RelApply(s, r, l).releases == s.releases[r := RelApply(s, r, l).releases[r]]
    ensures RelApply(s, r, l).calls == s.calls && RelApply(s, r, l).accesses == s.accesses
    ensures RelApply(s, r, l).trapped == s.trapped && RelApply(s, r, l).live == s.live
  {}

  lemma RelLocks(calls: map<nat, Call>, releases: map<nat, RelPc>, accesses: map<nat, AccessPc>, r: nat, pc: RelPc)
    requires LocksInv(calls, releases, accesses) && r in releases
    requires GateExcl(pc) && !GateExcl(releases[r]) ==> forall q :: q in releases ==> !GateExcl(releases[q])
    requires GateExcl(pc) && !GateExcl(releases[r]) ==> forall c :: c in calls ==> !GateShared(calls[c].pc)
    requires MemoryHeld(pc) && !MemoryHeld(releases[r]) ==> forall a :: a in accesses ==> !MemoryAccessed(accesses[a])
    ensures LocksInv(calls, releases[r := pc], accesses)
  {}

  lemma RelKeepsLocks(s: State, r: nat, l: RelStep)
    requires LocksInv(s.calls, s.releases, s.accesses) && RelEnabled(s, r, l)
    ensures LocksInv(s.calls, RelApply(s, r, l).releases, s.accesses)
  {
    RelMoves(s, r, l);
    RelLocks(s.calls, s.releases, s.accesses, r, RelApply(s, r, l).releases[r]);
  }

  /** The release's own facts, and the memory's. */
  lemma RelKeepsMemory(s: State, r: nat, l: RelStep)
    requires MemoryInv(s) && RelEnabled(s, r, l) && RelOk(s.releases[r], s)
    ensures MemoryInv(RelApply(s, r, l)) && RelOk(RelApply(s, r, l).releases[r], RelApply(s, r, l))
  {}

  /** The gate is held throughout, so the other releases and the calls wait outside. */
  lemma RelKeepsOthers(s: State, r: nat, l: RelStep, r': nat)
    requires LocksInv(s.calls, s.releases, s.accesses) && RelEnabled(s, r, l) && r' in s.releases && r' != r
    requires RelOk(s.releases[r'], s)
    ensures RelOk(s.releases[r'], RelApply(s, r, l))
  {}

  lemma RelKeepsCalls(s: State, r: nat, l: RelStep, c: nat)
    requires LocksInv(s.calls, s.releases, s.accesses) && RelEnabled(s, r, l) && c in s.calls
    requires CallOk(s.calls[c], s.memory, s.trapped)
    ensures CallOk(s.calls[c], RelApply(s, r, l).memory, s.trapped)
  {}

  lemma RelKeepsAccesses(s: State, r: nat, l: RelStep, a: nat)
    requires LocksInv(s.calls, s.releases, s.accesses) && RelEnabled(s, r, l) && a in s.accesses
    requires AccessOk(s.accesses[a], s.memory)
    ensures AccessOk(s.accesses[a], RelApply(s, r, l).memory)
  {}

  lemma RelKeeps(s: State, r: nat, l: RelStep)
    requires Inv(s) && RelEnabled(s, r, l)
    ensures Inv(RelApply(s, r, l))
  {
    var s' := RelApply(s, r, l);
    RelMoves(s, r, l);
    RelKeepsLocks(s, r, l);
    RelKeepsMemory(s, r, l);
    forall r' | r' in s'.releases ensures RelOk(s'.releases[r'], s') {
      if r' != r { RelKeepsOthers(s, r, l, r'); }
    }
    forall c | c in s'.calls ensures CallOk(s'.calls[c], s'.memory, s'.trapped) { RelKeepsCalls(s, r, l, c); }
    forall a | a in s'.accesses ensures AccessOk(s'.accesses[a], s'.memory) { RelKeepsAccesses(s, r, l, a); }
  }

  lemma AccessKeeps(s: State, a: nat, l: AccessStep)
    requires Inv(s) && AccessEnabled(s, a, l)
    ensures Inv(AccessApply(s, a, l))
  {}

  /** No thread starts while a release decides on the count: only a call in the guest,
      or a thread already counted, starts one. */
  lemma SpawnKeeps(s: State)
    requires Inv(s) && GuestRuns(s)
    ensures Inv(EnvApply(s, Spawn))
  {
    assert forall c :: c in s.calls ==> CallOk(s.calls[c], s.memory, s.trapped);
  }

  lemma NewCallKeeps(s: State, c: nat, teardown: bool)
    requires Inv(s) && c !in s.calls
    ensures Inv(EnvApply(s, NewCall(c, teardown)))
  {
    var s' := EnvApply(s, NewCall(c, teardown));
    assert LocksInv(s'.calls, s'.releases, s'.accesses);
    assert forall r :: r in s.releases ==> RelOk(s.releases[r], s);
  }

  lemma ThreadEndKeeps(s: State)
    requires Inv(s) && s.live > 0
    ensures Inv(EnvApply(s, ThreadEnd))
  {
    var s' := EnvApply(s, ThreadEnd);
    assert LocksInv(s'.calls, s'.releases, s'.accesses);
    assert forall r :: r in s.releases ==> RelOk(s.releases[r], s);
  }

  lemma NewReleaseKeeps(s: State, r: nat, unmap: bool)
    requires Inv(s) && r !in s.releases
    ensures Inv(EnvApply(s, NewRelease(r, unmap)))
  {
    var s' := EnvApply(s, NewRelease(r, unmap));
    assert LocksInv(s'.calls, s'.releases, s'.accesses);
    assert forall q :: q in s.releases ==> RelOk(s.releases[q], s);
  }

  lemma NewAccessKeeps(s: State, a: nat)
    requires Inv(s) && a !in s.accesses
    ensures Inv(EnvApply(s, NewAccess(a)))
  {
    var s' := EnvApply(s, NewAccess(a));
    assert LocksInv(s'.calls, s'.releases, s'.accesses);
    assert forall r :: r in s.releases ==> RelOk(s.releases[r], s);
  }

  lemma StepKeeps(s: State, l: Label)
    requires Inv(s) && Enabled(s, l)
    ensures Inv(Apply(s, l))
  {
    match l
    case InCall(c, x) => CallKeeps(s, c, x);
    case InRelease(r, x) => RelKeeps(s, r, x);
    case InAccess(a, x) => AccessKeeps(s, a, x);
    case Env(x) =>
      match x {
        case Spawn => SpawnKeeps(s);
        case NewCall(c, teardown) => NewCallKeeps(s, c, teardown);
        case ThreadEnd => ThreadEndKeeps(s);
        case NewRelease(r, unmap) => NewReleaseKeeps(s, r, unmap);
        case NewAccess(a) => NewAccessKeeps(s, a);
      }
  }

  /** The invariant holds in every state of every run. */
  lemma {:induction false} RunKeeps(run: seq<State>, i: nat)
    requires Run(run) && i < |run|
    ensures Inv(run[i])
  {
    if i == 0 {
      InitHolds(run[0]);
    } else {
      RunKeeps(run, i - 1);
      assert Reached(run, i);
      var l :| Enabled(run[i - 1], l) && run[i] == Apply(run[i - 1], l);
      StepKeeps(run[i - 1], l);
    }
  }

  // ----- what only grows ------------------------------------------------------------------------

  /** The first trap is kept, a detached memory stays detached, an unmapped one unmapped. */
  predicate Grows(s: State, s': State) {
    && (s.trapped.Some? ==> s'.trapped == s.trapped)
    && (!s.memory ==> !s'.memory)
    && (!s.entry ==> !s'.entry)
    && s.unmaps <= s'.unmaps
    && (s.zeroed ==> s'.zeroed)
  }

  lemma CallGrows(s: State, c: nat, l: CallStep)
    requires CallEnabled(s, c, l)
    ensures Grows(s, CallApply(s, c, l))
  {
    CallMoves(s, c, l);
  }

  lemma RelGrows(s: State, r: nat, l: RelStep)
    requires RelEnabled(s, r, l)
    ensures Grows(s, RelApply(s, r, l))
  {}

  lemma AccessGrows(s: State, a: nat, l: AccessStep)
    requires AccessEnabled(s, a, l)
    ensures Grows(s, AccessApply(s, a, l)) && AccessApply(s, a, l).trapped == s.trapped
  {}

  lemma EnvGrows(s: State, l: EnvStep)
    requires EnvEnabled(s, l)
    ensures Grows(s, EnvApply(s, l)) && EnvApply(s, l).trapped == s.trapped
  {}

  lemma StepGrows(s: State, l: Label)
    requires Enabled(s, l)
    ensures Grows(s, Apply(s, l))
  {
    match l
    case InCall(c, x) => CallGrows(s, c, x);
    case InRelease(r, x) => RelGrows(s, r, x);
    case InAccess(a, x) => AccessGrows(s, a, x);
    case Env(x) => EnvGrows(s, x);
  }

  lemma {:induction false} RunGrows(run: seq<State>, i: nat, j: nat)
    requires Run(run) && i <= j < |run|
    ensures Grows(run[i], run[j])
    decreases j
  {
    if i < j {
      RunGrows(run, i, j - 1);
      assert Reached(run, j);
      var l :| Enabled(run[j - 1], l) && run[j] == Apply(run[j - 1], l);
      StepGrows(run[j - 1], l);
    }
  }

  // ----- the memory ---------------------------------------------------------------------------------

  /** Nobody can touch the memory through this engine: no call is in the guest or in a
      callback of it, no thread of the guest lives, no access from outside is at it. */
  ghost predicate Untouched(s: State) {
    && s.live == 0
    && (forall c :: c in s.calls ==> !Admitted(s.calls[c].pc))
    && (forall a :: a in s.accesses ==> !s.accesses[a].ATouch?)
  }

  /** The memory is unmapped, and its size zeroed, only by a release that holds the gate
      exclusively and read the thread count as zero, with nobody left in the guest. */
  lemma UnmapFindsNobody(run: seq<State>, i: nat, l: Label)
    requires Run(run) && i < |run| && Enabled(run[i], l)
    requires Apply(run[i], l).unmaps != run[i].unmaps || Apply(run[i], l).zeroed != run[i].zeroed
    ensures l.InRelease? && l.rel.RUnmap? && GateExcl(run[i].releases[l.r]) && run[i].releases[l.r].unmap
    ensures Untouched(run[i]) && Apply(run[i], l).unmaps <= 1
  {
    RunKeeps(run, i);
    assert l.InCall? ==> CallApply(run[i], l.c, l.call).unmaps == run[i].unmaps;
    StepKeeps(run[i], l);
  }

  /** It is unmapped at most once, and nobody touches it afterwards. */
  lemma UnmappedOnce(run: seq<State>, i: nat, j: nat)
    requires Run(run) && i <= j < |run|
    ensures run[j].unmaps <= 1
    ensures run[i].zeroed ==> run[j].zeroed && Untouched(run[j])
  {
    RunKeeps(run, j);
    RunGrows(run, i, j);
  }

  // ----- calls ---------------------------------------------------------------------------------------

  /** The step that leads to the j-th state. */
  lemma StepOf(run: seq<State>, j: nat) returns (l: Label)
    requires Run(run) && 0 < j < |run|
    ensures Enabled(run[j - 1], l) && run[j] == Apply(run[j - 1], l)
  {
    assert Reached(run, j);
    l :| Enabled(run[j - 1], l) && run[j] == Apply(run[j - 1], l);
  }

  /** The call has not been admitted, and ends with ErrEngineClosed if it ends. */
  predicate ShutOut(pc: CallPc) {
    pc.CLoad? || pc.CWant? || pc.CGot? || pc == COut(EngineClosed) || pc == CDone(EngineClosed)
  }

  /** A call moves by its own steps only. */
  lemma CallStays(s: State, l: Label, c: nat)
    requires Enabled(s, l) && c in s.calls && (l.InCall? ==> l.c != c)
    ensures c in Apply(s, l).calls && Apply(s, l).calls[c] == s.calls[c]
  {
    match l
    case InCall(_, _) =>
    case InRelease(r, x) => RelMoves(s, r, x);
    case InAccess(_, _) =>
    case Env(_) =>
  }

  lemma ShutOutStep(s: State, l: Label, c: nat)
    requires Enabled(s, l) && !s.memory && c in s.calls && ShutOut(s.calls[c].pc)
    ensures c in Apply(s, l).calls && ShutOut(Apply(s, l).calls[c].pc)
  {
    if !l.InCall? || l.c != c {
      CallStays(s, l, c);
    }
  }

  /** A call that has not passed its check of the memory when that is detached, even one that
      has found the gate and waits for it behind the release, never enters the guest, and
      returns nothing but ErrEngineClosed. */
  lemma {:induction false} LateCallsAreRefused(run: seq<State>, i: nat, j: nat, c: nat)
    requires Run(run) && i <= j < |run| && !run[i].memory
    requires c in run[i].calls && (run[i].calls[c].pc.CLoad? || run[i].calls[c].pc.CWant? || run[i].calls[c].pc.CGot?)
    ensures c in run[j].calls && ShutOut(run[j].calls[c].pc) && !Admitted(run[j].calls[c].pc)
    ensures run[j].calls[c].pc.CDone? ==> run[j].calls[c].pc.ret == EngineClosed
    decreases j
  {
    if i < j {
      LateCallsAreRefused(run, i, j - 1, c);
      RunGrows(run, i, j - 1);
      var l := StepOf(run, j);
      ShutOutStep(run[j - 1], l, c);
    }
  }

  /** ErrEngineClosed is returned only when the memory is detached; a refusal names the
      first trap, and no teardown call is ever refused. */
  lemma ResultsTellWhy(run: seq<State>, i: nat, c: nat)
    requires Run(run) && i < |run| && c in run[i].calls && run[i].calls[c].pc.CDone?
    ensures run[i].calls[c].pc.ret.EngineClosed? ==> !run[i].memory
    ensures run[i].calls[c].pc.ret.Refused? ==>
              run[i].trapped == Some(run[i].calls[c].pc.ret.first) && !run[i].calls[c].teardown
    ensures run[i].calls[c].pc.ret.Trap? ==> run[i].trapped.Some?
  {
    RunKeeps(run, i);
    assert CallOk(run[i].calls[c], run[i].memory, run[i].trapped);
  }

  lemma CallTraps(s: State, c: nat, l: CallStep)
    requires CallEnabled(s, c, l)
    ensures CallApply(s, c, l).trapped ==
            if l.CRecord? && s.trapped.None? then Some(s.calls[c].pc.id) else s.trapped
  {}

  /** The trap on record changes only by the step of a call that trapped in the guest, and
      only if there was none: closed and refused calls record nothing. */
  lemma FirstTrapStays(s: State, l: Label)
    requires Enabled(s, l) && Apply(s, l).trapped != s.trapped
    ensures l.InCall? && l.call.CRecord? && s.calls[l.c].pc.CTrapped?
    ensures s.trapped.None? && Apply(s, l).trapped == Some(s.calls[l.c].pc.id)
  {
    match l
    case InCall(c, x) => CallTraps(s, c, x);
    case InRelease(r, x) => RelMoves(s, r, x);
    case InAccess(a, x) => AccessGrows(s, a, x);
    case Env(x) => EnvGrows(s, x);
  }

  /** The call has not passed its check for a trap on record, and does not. */
  predicate TurnedAway(pc: CallPc, first: nat) {
    || pc.CLoad? || pc.CWant? || pc.CGot? || pc.COpen?
    || pc == COut(EngineClosed) || pc == CDone(EngineClosed) || pc == COut(Refused(first)) || pc == CDone(Refused(first))
  }

  lemma TurnedAwayStep(s: State, l: Label, c: nat, first: nat)
    requires Enabled(s, l) && s.trapped == Some(first)
    requires c in s.calls && !s.calls[c].teardown && TurnedAway(s.calls[c].pc, first)
    ensures c in Apply(s, l).calls && !Apply(s, l).calls[c].teardown && TurnedAway(Apply(s, l).calls[c].pc, first)
  {
    if !l.InCall? || l.c != c {
      CallStays(s, l, c);
    }
  }

  /** Once a trap is on record, a call that is not a teardown call and has not passed its
      check for one never enters the guest: it returns the refusal that names that trap, or
      ErrEngineClosed. */
  lemma {:induction false} TrapTurnsAway(run: seq<State>, i: nat, j: nat, c: nat)
    requires Run(run) && i <= j < |run| && run[i].trapped.Some? && c in run[i].calls && !run[i].calls[c].teardown
    requires var pc := run[i].calls[c].pc; pc.CLoad? || pc.CWant? || pc.CGot? || pc.COpen?
    ensures c in run[j].calls && !run[j].calls[c].teardown && TurnedAway(run[j].calls[c].pc, run[i].trapped.value)
    ensures run[j].calls[c].pc.CDone? ==> run[j].calls[c].pc.ret in {EngineClosed, Refused(run[i].trapped.value)}
    ensures !run[j].calls[c].pc.CGuest?
    decreases j
  {
    if i < j {
      TrapTurnsAway(run, i, j - 1, c);
      RunGrows(run, i, j - 1);
      var l := StepOf(run, j);
      TurnedAwayStep(run[j - 1], l, c, run[i].trapped.value);
    }
  }
}
