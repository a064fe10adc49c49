/**
 internal/engine.go as it runs on one thread: the gate's fields, the poll of the
 thread count, release and invokeGated. What each does is a function of the
 `EngineProtocol` state; `ReleaseStepsAlone` and `AnswerFollowsTheChecks` show that
 the protocol's steps do the same when no other thread comes between them.
 */
module EngineCode {
  import opened Options
  import opened EngineProtocol

  /** How a call comes back from the guest. */
  datatype Guest = Replied | Trapped(id: nat)

  /** What a release changes: nothing once the engine is released; otherwise the memory is
      detached, and unmapped if it was to be and no thread is left. */
  function Released(s: State, unmap: bool, gone: bool): State {
    if !s.entry || !s.memory then s
    else Unmapped(s.(memory := false, mapping := false, entry := false), unmap && gone, s.mapping)
  }

  /** What invokeGated answers, and whether it enters the guest. */
  function Answer(s: State, teardown: bool, guest: Guest): Result {
    if !s.entry || !s.memory then EngineClosed
    else if s.trapped.Some? && !teardown then Refused(s.trapped.value)
    else if guest.Replied? then Reply
    else Trap(guest.id)
  }

  function Invoked(s: State, teardown: bool, guest: Guest): State {
    if Answer(s, teardown, guest).Trap? then Recorded(s, guest.id) else s
  }

  /** A Module, with its gate and its row of the side tables. */
  class Module {
    var entry: bool            // in engineGates
    var memory: bool           // Memory is not nil
    var mapping: bool          // in engineMmaps
    var zeroed: bool           // MemSize is 0
    var trapped: Option<nat>
    var preserve: bool         // preserveMemory
    var finalizer: bool        // the image builder's finalizer, which would unmap the memory
    var unmaps: nat
    var live: nat              // threads

    function Core(): State
      reads this
    {
      State.State(entry, memory, mapping, unmaps, zeroed, live, trapped, map[], map[], map[])
    }

    /** An engine over a mapping of its own, or one in the memory of an image that is built. */
    constructor (image: bool)
      ensures Core() == State.State(true, true, !image, 0, false, 0, None, map[], map[], map[])
      ensures !preserve && finalizer == image
    {
      entry, memory, mapping, zeroed, trapped := true, true, !image, false, None;
      preserve, finalizer, unmaps, live := false, image, 0, 0;
    }

    /** threadsGone: `polls` is what the polls until the deadline find. */
    static method ThreadsGone(polls: seq<nat>) returns (gone: bool)
      ensures gone <==> 0 in polls
    {
      var i := 0;
      while i < |polls|
        invariant 0 <= i <= |polls| && 0 !in polls[..i]
      {
        if polls[i] == 0 {
          return true;
        }
        i := i + 1;
      }
      return false;
    }

    method PreserveMemoryOnAbandon()
      modifies this`preserve
      ensures preserve == (old(preserve) || entry)
    {
      if entry {
        preserve := true;
      }
    }

    /** release: the error is ErrThreadsAlive. The builder's finalizer goes only when memory
        that is to be preserved is kept. */
    method Release(want: bool, polls: seq<nat>) returns (err: bool)
      modifies this
      ensures Core() == Released(old(Core()), want, 0 in polls)
      ensures err <==> old(entry) && old(memory) && want && 0 !in polls
      ensures preserve == old(preserve)
      ensures finalizer == (old(finalizer) && !(old(entry) && old(memory) && old(preserve) && !(want && 0 in polls)))
    {
      if !entry {
        return false;
      }
      if !memory {
        return false;
      }
      err := false;
      var unmap := want;
      if unmap {
        var gone := ThreadsGone(polls);
        if !gone {
          unmap := false;
          err := true;
        }
      }
      if !unmap && preserve {
        finalizer := false;
      }
      memory := false;
      var mapped := mapping;
      mapping := false;
      if unmap {
        zeroed := true;
        if mapped {
          unmaps := unmaps + 1;
        }
      }
      entry := false;
    }

    /** invokeGated; only a call that enters the guest and traps there leaves a mark, and
        only the first. */
    method InvokeGated(teardown: bool, guest: Guest) returns (res: Result)
      modifies this`trapped
      ensures res == Answer(old(Core()), teardown, guest)
      ensures Core() == Invoked(old(Core()), teardown, guest)
    {
      if !entry {
        return EngineClosed;
      }
      if !memory {
        return EngineClosed;
      }
      if trapped.Some? && !teardown {
        return Refused(trapped.value);
      }
      if guest.Trapped? {
        if trapped.None? {
          trapped := Some(guest.id);
        }
        return Trap(guest.id);
      }
      return Reply;
    }
  }

  // ----- one operation after the other --------------------------------------------------------------

  datatype Op = Release(want: bool, gone: bool) | Invoke(teardown: bool, guest: Guest)

  function After(s: State, op: Op): State {
    match op
    case Release(want, gone) => Released(s, want, gone)
    case Invoke(teardown, guest) => Invoked(s, teardown, guest)
  }

  function AfterAll(s: State, ops: seq<Op>): State
    decreases |ops|
  {
    if ops == [] then s else AfterAll(After(s, ops[0]), ops[1..])
  }

  /** A release is final: the next one changes nothing, and every call after it is refused
      without a trace. */
  lemma ReleaseIsFinal(s: State, want: bool, gone: bool, op: Op)
    requires s.entry && s.memory
    ensures var s' := Released(s, want, gone);
            && After(s', op) == s'
            && (op.Invoke? ==> Answer(s', op.teardown, op.guest) == EngineClosed)
            && s'.unmaps == (if want && gone && s.mapping then s.unmaps + 1 else s.unmaps)
  {}

  /** Whatever is called in whatever order: the memory is unmapped once at most, and only by
      a release that found no thread; the first trap stays on record. */
  lemma {:induction false} UnmappedOnce(s: State, ops: seq<Op>)
    requires (s.entry <==> s.memory) && s.unmaps <= 1 && (s.entry ==> s.unmaps == 0)
    ensures AfterAll(s, ops).unmaps <= 1
    ensures AfterAll(s, ops).unmaps > s.unmaps ==> exists op :: op in ops && op.Release? && op.want && op.gone
    ensures s.trapped.Some? ==> AfterAll(s, ops).trapped == s.trapped
    decreases |ops|
  {
    if ops != [] {
      UnmappedOnce(After(s, ops[0]), ops[1..]);
      assert ops[0] in ops && forall op :: op in ops[1..] ==> op in ops;
    }
  }

  /** The answer is the one that the protocol's checks lead to when nobody comes between them. */
  lemma AnswerFollowsTheChecks(s: State, teardown: bool, guest: Guest)
    requires s.entry <==> s.memory
    ensures var x := Call(teardown, CLoad);
            var found := CallNext(s, x, CFind);
            var open := CallNext(s, x.(pc := CGot), CCheckClosed);
            var passed := CallNext(s, x.(pc := COpen), CCheckTrapped);
            var back := CallNext(s, x.(pc := CGuest), if guest.Replied? then CReply else CTrap(guest.id));
            Answer(s, teardown, guest) ==
            if found.CDone? then found.ret
            else if open.COut? then open.res
            else if passed.COut? then passed.res
            else if back.COut? then back.res
            else CallNext(s, x.(pc := back), CRecord).res
  {}

  // ----- the protocol's steps, with no other thread between them --------------------------------

  /** One step of release r leads from s to s'. */
  ghost predicate Moves(s: State, s': State, r: nat) { exists l :: RelEnabled(s, r, l) && s' == RelApply(s, r, l) }

  ghost predicate MovesAt(path: seq<State>, r: nat, i: int)
    requires 0 <= i < |path| - 1
  {
    Moves(path[i], path[i + 1], r)
  }

  /** The path leads from s to s' by steps of release r. */
  ghost predicate Leads(path: seq<State>, r: nat, s: State, s': State) {
    && path != [] && path[0] == s && path[|path| - 1] == s'
    && forall i :: 0 <= i < |path| - 1 ==> MovesAt(path, r, i)
  }

  lemma First(s: State, r: nat, l: RelStep, path: seq<State>, s': State) returns (longer: seq<State>)
    requires RelEnabled(s, r, l) && Leads(path, r, RelApply(s, r, l), s')
    ensures Leads(longer, r, s, s')
  {
    longer := [s] + path;
    forall i | 0 <= i < |longer| - 1 ensures MovesAt(longer, r, i) {
      if i > 0 {
        assert MovesAt(path, r, i - 1);
      }
    }
  }

  /** Release r, at pc, is all that goes on. */
  predicate Alone(s: State, r: nat, pc: RelPc) {
    s.calls == map[] && s.accesses == map[] && s.releases == map[r := pc]
  }

  function Ended(s: State, r: nat, err: bool): State { s.(releases := map[r := RDone(err)]) }

  lemma FromOut(s: State, r: nat, err: bool) returns (path: seq<State>)
    requires Alone(s, r, ROut(err))
    ensures Leads(path, r, s, Ended(s, r, err))
  {
    path := First(s, r, RUnlock, [Ended(s, r, err)], Ended(s, r, err));
  }

  lemma FromTook(s: State, r: nat, unmap: bool, alive: bool, mapped: bool) returns (path: seq<State>)
    requires Alone(s, r, RTook(unmap, alive, mapped))
    ensures Leads(path, r, s, Ended(Unmapped(s, unmap, mapped).(entry := false), r, alive))
  {
    var s1 := RelApply(s, r, RUnmap);
    var s2 := RelApply(s1, r, RDelete);
    path := FromOut(s2, r, alive);
    path := First(s1, r, RDelete, path, Ended(s2, r, alive));
    path := First(s, r, RUnmap, path, Ended(s2, r, alive));
  }

  lemma FromDecided(s: State, r: nat, unmap: bool, alive: bool) returns (path: seq<State>)
    requires Alone(s, r, RDecided(unmap, alive))
    ensures Leads(path, r, s, Ended(Unmapped(s.(memory := false, mapping := false, entry := false), unmap, s.mapping), r, alive))
  {
    var s1 := RelApply(s, r, RLockMemory);
    var s2 := RelApply(s1, r, RDetach);
    var s3 := RelApply(s2, r, RTake);
    path := FromTook(s3, r, unmap, alive, s.mapping);
    var s' := Ended(Unmapped(s3, unmap, s.mapping).(entry := false), r, alive);
    path := First(s2, r, RTake, path, s');
    path := First(s1, r, RDetach, path, s');
    path := First(s, r, RLockMemory, path, s');
  }

  lemma FromModule(s: State, r: nat, want: bool) returns (path: seq<State>)
    requires Alone(s, r, RMod(want)) && s.entry
    ensures Leads(path, r, s, Ended(Released(s, want, s.live == 0), r, s.memory && want && s.live > 0))
  {
    var s' := Ended(Released(s, want, s.live == 0), r, s.memory && want && s.live > 0);
    var s1 := RelApply(s, r, RCheckClosed);
    if !s.memory {
      path := FromOut(s1, r, false);
    } else if !want {
      path := FromDecided(s1, r, false, false);
    } else {
      var l := if s.live == 0 then RThreadsGone else RTimeout;
      path := FromDecided(RelApply(s1, r, l), r, s.live == 0, s.live > 0);
      path := First(s1, r, l, path, s');
    }
    path := First(s, r, RCheckClosed, path, s');
  }

  /** A release that nobody comes between does, step by step, what `Released` says, and
      returns ErrThreadsAlive exactly if it was to unmap and a thread was left. */
  lemma ReleaseStepsAlone(s: State, r: nat, want: bool) returns (path: seq<State>)
    requires Alone(s, r, RLoad(want))
    ensures Leads(path, r, s, Ended(Released(s, want, s.live == 0), r, s.entry && s.memory && want && s.live > 0))
  {
    var s' := Ended(Released(s, want, s.live == 0), r, s.entry && s.memory && want && s.live > 0);
    var s1 := RelApply(s, r, RFind);
    if !s.entry {
      path := [s1];
    } else {
      var s2 := RelApply(s1, r, RLockGate);
      var s3 := RelApply(s2, r, RLockModule);
      path := FromModule(s3, r, want);
      path := First(s2, r, RLockModule, path, s');
      path := First(s1, r, RLockGate, path, s');
    }
    path := First(s, r, RFind, path, s');
  }

  // ----- memory that is to be preserved ---------------------------------------------------------

  /** An image's builder that has to keep its memory: preserved first and abandoned then, the
      memory stays mapped for good, whatever is called afterwards. */
  method KeepMapped(m: Module, polls: seq<seq<nat>>)
    requires m.entry && m.memory
    modifies m
    ensures !m.memory && !m.finalizer && m.unmaps == old(m.unmaps) && !m.entry && m.zeroed == old(m.zeroed)
  {
    m.PreserveMemoryOnAbandon();
    var err := m.Release(false, []);
    var i := 0;
    while i < |polls|
      invariant !m.memory && !m.finalizer && m.unmaps == old(m.unmaps) && !m.entry && m.zeroed == old(m.zeroed)
    {
      err := m.Release(true, polls[i]);
      i := i + 1;
    }
  }

  /** In the other order it does not: once the engine is released there is no gate to set the
      flag on, and the finalizer still unmaps the memory. */
  method PreservedTooLate(m: Module)
    requires m.entry && m.memory && !m.preserve
    modifies m
    ensures m.finalizer == old(m.finalizer) && !m.preserve
  {
    var err := m.Release(false, []);
    m.PreserveMemoryOnAbandon();
  }
}
