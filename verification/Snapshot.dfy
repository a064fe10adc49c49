/**
 The contexts of a snapshot (snapshot.go), and the instance's record of its
 contexts (track and takeContexts in llama.go): registering, retiring, forking
 and closing, one call at a time.

 A context is named by its Go-side record, which is never used twice; its handle
 is the guest's, which uses it again once the context is freed.
 */
module Snapshot {
  import C = EngineCode
  import I = InstanceState

  /** ctxState. `pool` and `slots`: it has a threadpool, and a Slots that runs. */
  datatype Ctx = Ctx(h: nat, modelH: nat, closed: bool, freed: bool, pool: bool, slots: bool, closeErr: bool)

  /** What the guest answers to a free: an error or none, and whether that was a fresh trap. */
  datatype Reply = Reply(err: bool, trap: bool)

  /** What it answers to the free of context c; a clean free if nothing else is said. */
  function To(replies: map<nat, Reply>, c: nat): Reply { if c in replies then replies[c] else Reply(false, false) }

  // ----- the record ---------------------------------------------------------------------

  /** Those of list not in freed, in their order. */
  function Open(list: seq<nat>, freed: set<nat>): (open: seq<nat>) {
    if list == [] then []
    else if list[|list| - 1] in freed then Open(list[..|list| - 1], freed)
    else Open(list[..|list| - 1], freed) + [list[|list| - 1]]
  }

  predicate NoDuplicates(list: seq<nat>) { forall i, j :: 0 <= i < j < |list| ==> list[i] != list[j] }

  lemma {:induction false} OpenMembers(list: seq<nat>, freed: set<nat>, c: nat)
    ensures c in Open(list, freed) <==> c in list && c !in freed
  {
    if list != [] {
      OpenMembers(list[..|list| - 1], freed, c);
      assert list == list[..|list| - 1] + [list[|list| - 1]];
    }
  }

  lemma OpenStep(list: seq<nat>, i: nat, freed: set<nat>)
    requires i < |list|
    ensures Open(list[..i + 1], freed) == if list[i] in freed then Open(list[..i], freed) else Open(list[..i], freed) + [list[i]]
  {
    assert list[..i + 1][..i] == list[..i];
  }

  lemma {:induction false} OpenNoDuplicates(list: seq<nat>, freed: set<nat>)
    requires NoDuplicates(list)
    ensures NoDuplicates(Open(list, freed))
  {
    if list != [] {
      OpenNoDuplicates(list[..|list| - 1], freed);
      OpenMembers(list[..|list| - 1], freed, list[|list| - 1]);
    }
  }

  /** A larger array with the same elements first, as append allocates it. */
  method Larger(a: array<nat>) returns (more: array<nat>)
    ensures fresh(more) && more.Length > a.Length && more[..a.Length] == a[..]
  {
    more := new nat[2 * a.Length + 1];
    var i := 0;
    while i < a.Length
      invariant 0 <= i <= a.Length && more[..i] == a[..i]
    {
      more[i] := a[i];
      i := i + 1;
    }
  }

  /** The slice l.ctxs: the first `len` cells of an array with room for more. */
  class Record {
    var cells: array<nat>
    var len: nat

    ghost predicate Valid()
      reads this
    {
      len <= cells.Length
    }

    ghost function List(): seq<nat>
      requires Valid()
      reads this, cells
    {
      cells[..len]
    }

    constructor ()
      ensures Valid() && List() == [] && fresh(cells)
    {
      cells := new nat[4];
      len := 0;
    }

    /** The compaction of track: what is freed is dropped, in place. */
    method Compact(freed: set<nat>)
      requires Valid()
      modifies this`len, cells
      ensures Valid() && List() == Open(old(List()), freed) && len <= old(len)
    {
      var i, k := 0, 0;
      ghost var was := cells[..len];
      while i < len
        invariant len == old(len) && 0 <= k <= i <= len <= cells.Length
        invariant cells[..k] == Open(was[..i], freed)
        invariant forall j :: i <= j < len ==> cells[j] == was[j]
      {
        OpenStep(was, i, freed);
        if cells[i] !in freed {
          cells[k] := cells[i];
          k := k + 1;
        }
        i := i + 1;
      }
      assert was[..i] == was;
      len := k;
    }

    /** track: the slice grows into a new array when it is full. */
    method Track(st: nat, freed: set<nat>)
      requires Valid()
      modifies this, cells
      ensures Valid() && (cells == old(cells) || fresh(cells))
      ensures List() == Open(old(List()), freed) + [st]
    {
      Compact(freed);
      if len == cells.Length {
        cells := Larger(cells);
      }
      cells[len] := st;
      len := len + 1;
    }

    /** takeContexts: what is open is handed out, and the record is empty. */
    method Take(freed: set<nat>) returns (open: seq<nat>)
      requires Valid()
      modifies this`len
      ensures Valid() && List() == [] && open == Open(old(List()), freed)
    {
      open := [];
      var i := 0;
      while i < len
        invariant len == old(len) && 0 <= i <= len && open == Open(cells[..i], freed)
      {
        OpenStep(cells[..len], i, freed);
        assert cells[..len][..i] == cells[..i] && cells[..len][..i + 1] == cells[..i + 1];
        if cells[i] !in freed {
          open := open + [cells[i]];
        }
        i := i + 1;
      }
      assert cells[..i] == cells[..len];
      len := 0;
    }
  }

  // ----- one context --------------------------------------------------------------------------

  function Fresh(h: nat, modelH: nat): Ctx { Ctx(h, modelH, false, false, false, false, false) }

  /** freeContext, on a context not freed yet: its Slots is closed, its pool joined. */
  function FreedCtx(x: Ctx, r: Reply): Ctx {
    x.(closed := true, slots := false, pool := x.pool && r.err, freed := true, closeErr := r.err)
  }

  /** retireKept: the same, but only the pool is freed. */
  function RetiredCtx(x: Ctx, r: Reply): Ctx {
    x.(closed := true, slots := false, pool := x.pool && r.err)
  }

  function Freed(ctxs: map<nat, Ctx>): set<nat> { set c | c in ctxs && ctxs[c].freed }

  /** What retireContexts makes of a context. */
  function Retire(x: Ctx, keep: bool, r: Reply): Ctx {
    if x.freed then x else if keep then RetiredCtx(x, r) else FreedCtx(x, r)
  }

  /** Those of `done` have been retired, the others not touched. */
  ghost predicate Retired(was: map<nat, Ctx>, now: map<nat, Ctx>, done: seq<nat>, keep: set<nat>, replies: map<nat, Reply>) {
    && now.Keys == was.Keys
    && forall c :: c in was ==> now[c] == if c in done then Retire(was[c], c in keep, To(replies, c)) else was[c]
  }

  lemma RetiredStep(was: map<nat, Ctx>, now: map<nat, Ctx>, open: seq<nat>, i: nat, keep: set<nat>, replies: map<nat, Reply>)
    requires i < |open| && NoDuplicates(open) && open[i] in was && Retired(was, now, open[..i], keep, replies)
    ensures now[open[i]] == was[open[i]]
    ensures Retired(was, now[open[i] := Retire(was[open[i]], open[i] in keep, To(replies, open[i]))], open[..i + 1], keep, replies)
  {
    assert open[..i + 1] == open[..i] + [open[i]];
  }

  ghost predicate SomeError(list: seq<nat>, n: nat, replies: map<nat, Reply>)
    requires n <= |list|
  {
    exists j :: 0 <= j < n && To(replies, list[j]).err
  }

  ghost predicate SomeTrap(list: seq<nat>, n: nat, replies: map<nat, Reply>)
    requires n <= |list|
  {
    exists j :: 0 <= j < n && To(replies, list[j]).trap
  }

  /** The contexts taken over are those not freed: what is said of the list is said of them. */
  lemma OverAll(was: map<nat, Ctx>, open: seq<nat>, replies: map<nat, Reply>)
    requires forall c :: c in open <==> c in was && !was[c].freed
    ensures SomeError(open, |open|, replies) <==> exists c :: c in was && !was[c].freed && To(replies, c).err
    ensures SomeTrap(open, |open|, replies) <==> exists c :: c in was && !was[c].freed && To(replies, c).trap
  {
    forall c | c in was && !was[c].freed ensures exists j :: 0 <= j < |open| && open[j] == c {
      assert c in open;
    }
    forall j | 0 <= j < |open| ensures open[j] in was && !was[open[j]].freed {
      assert open[j] in open;
    }
  }

  lemma RetiredAll(was: map<nat, Ctx>, now: map<nat, Ctx>, open: seq<nat>, keep: set<nat>, replies: map<nat, Reply>)
    requires Retired(was, now, open, keep, replies) && forall c :: c in open <==> c in was && !was[c].freed
    ensures forall c :: c in was ==> now[c] == Retire(was[c], c in keep, To(replies, c))
  {}

  datatype Registered = Ok | NilOrClosed | Duplicate(name: string) | Again(name: string)

  /** How the callback of NewSnapshot ended. */
  datatype Built = Returned | ReturnedError | Panicked

  // ----- an instance that is built, or forked ------------------------------------------------------

  /** A kept context as the image has it. */
  predicate Ready(x: Ctx) { !x.freed && x.closed && !x.pool && !x.slots }

  ghost predicate Resting(ctxs: map<nat, Ctx>, kept: map<string, nat>, keep: set<nat>) {
    && (forall name :: name in kept ==> kept[name] in ctxs)
    && (forall c :: c in ctxs ==> if c in keep then Ready(ctxs[c]) else ctxs[c].freed)
    && (forall name, other :: name in kept && other in kept && name != other ==>
          ctxs[kept[name]].h != ctxs[kept[other]].h)
  }

  lemma RetiredRests(was: map<nat, Ctx>, now: map<nat, Ctx>, kept: map<string, nat>, keep: set<nat>,
                     replies: map<nat, Reply>)
    requires now.Keys == was.Keys && forall c :: c in was ==> now[c] == Retire(was[c], c in keep, To(replies, c))
    requires forall name :: name in kept ==> kept[name] in was && !was[kept[name]].freed
    requires forall c :: c in keep ==> c in was && !was[c].freed
    requires forall c :: c in was && !was[c].freed ==> !To(replies, c).err
    requires forall name, other :: name in kept && other in kept && name != other ==> kept[name] != kept[other]
    requires forall c, d :: c in was && d in was && !was[c].freed && !was[d].freed && c != d ==> was[c].h != was[d].h
    ensures Resting(now, kept, keep)
  {}

  /** A Llama, with the map of its SnapshotBuilder. `frees` is history: the
      contexts that were freed in the guest, in order. */
  class Llama {
    const record: Record
    var ctxs: map<nat, Ctx>
    var kept: map<string, nat>
    var wedged: bool
    var frees: seq<nat>

    /** Every context not freed is on record, once; the guest's handles of those are all
        different; no context is registered under two names. */
    ghost predicate Valid()
      reads this, record, record.cells
    {
      && record.Valid()
      && NoDuplicates(record.List())
      && (forall c :: c in record.List() ==> c in ctxs)
      && (forall c :: c in ctxs && !ctxs[c].freed ==> c in record.List())
      && (forall c, d :: c in ctxs && d in ctxs && !ctxs[c].freed && !ctxs[d].freed && c != d ==> ctxs[c].h != ctxs[d].h)
      && Once()
      && (forall name :: name in kept ==> kept[name] in ctxs)
      && (forall name, other :: name in kept && other in kept && name != other ==> kept[name] != kept[other])
    }

    /** The guest's free has run once for every freed context, and for no other. */
    ghost predicate Once()
      reads this
    {
      && NoDuplicates(frees)
      && (forall c :: c in frees <==> c in ctxs && ctxs[c].freed)
      && (forall c :: c in ctxs && ctxs[c].freed ==> ctxs[c].closed)
    }

    constructor ()
      ensures Valid() && ctxs == map[] && kept == map[] && !wedged && frees == []
      ensures record.List() == [] && fresh(record) && fresh(record.cells)
    {
      record := new Record();
      ctxs, kept, wedged, frees := map[], map[], false, [];
    }

    /** NewContext: h is a handle the guest has no context at. */
    method NewContext(c: nat, h: nat, modelH: nat, pool: bool)
      requires Valid() && c !in ctxs && forall d :: d in ctxs && !ctxs[d].freed ==> ctxs[d].h != h
      modifies this`ctxs, record, record.cells
      ensures Valid() && ctxs == old(ctxs)[c := Fresh(h, modelH).(pool := pool)]
      ensures record.cells == old(record.cells) || fresh(record.cells)
      ensures record.List() == Open(old(record.List()), Freed(old(ctxs))) + [c]
    {
      OpenNoDuplicates(record.List(), Freed(ctxs));
      forall d ensures d in Open(record.List(), Freed(ctxs)) <==> d in record.List() && d !in Freed(ctxs) {
        OpenMembers(record.List(), Freed(ctxs), d);
      }
      record.Track(c, Freed(ctxs));
      ctxs := ctxs[c := Fresh(h, modelH).(pool := pool)];
    }

    /** freeContext: a second closer gets the first one's error. */
    method FreeContext(c: nat, r: Reply) returns (err: bool)
      requires c in ctxs && Once()
      modifies this`ctxs, this`wedged, this`frees
      ensures Once() && ctxs == old(ctxs)[c := if old(ctxs)[c].freed then old(ctxs)[c] else FreedCtx(old(ctxs)[c], r)]
      ensures err == ctxs[c].closeErr
      ensures frees == if old(ctxs)[c].freed then old(frees) else old(frees) + [c]
      ensures wedged == (old(wedged) || (!old(ctxs)[c].freed && r.trap))
    {
      var x := ctxs[c].(closed := true);
      if x.freed {
        ctxs := ctxs[c := x];
        return x.closeErr;
      }
      x := x.(slots := false);
      frees := frees + [c];
      wedged := wedged || r.trap;
      x := x.(pool := x.pool && r.err, closeErr := r.err);
      ctxs := ctxs[c := x.(freed := true)];
      return r.err;
    }

    /** retireKept. */
    method RetireKept(c: nat, r: Reply) returns (err: bool)
      requires c in ctxs && !ctxs[c].freed && Once()
      modifies this`ctxs, this`wedged
      ensures Once() && ctxs == old(ctxs)[c := RetiredCtx(old(ctxs)[c], r)] && err == r.err
      ensures wedged == (old(wedged) || r.trap)
    {
      var x := ctxs[c].(closed := true);
      x := x.(slots := false);
      wedged := wedged || r.trap;
      ctxs := ctxs[c := x.(pool := x.pool && r.err)];
      return r.err;
    }

    /** Register: a context of this builder that is open, under a new name, and not twice. */
    method Register(name: string, c: nat) returns (res: Registered)
      requires Valid()
      modifies this`kept
      ensures Valid()
      ensures res.Ok? <==>
          c in ctxs && !ctxs[c].closed && name !in old(kept) && forall n :: n in old(kept) ==> old(kept)[n] != c
      ensures kept == if res.Ok? then old(kept)[name := c] else old(kept)
      ensures res.Again? ==> res.name in kept && kept[res.name] == c
    {
      if c !in ctxs || ctxs[c].closed {
        return NilOrClosed;
      }
      if name in kept {
        return Duplicate(name);
      }
      var names := kept.Keys;
      while names != {}
        invariant names <= kept.Keys && kept == old(kept)
        invariant forall n :: n in kept && n !in names ==> kept[n] != c
        decreases |names|
      {
        var other :| other in names;
        if kept[other] == c {
          return Again(other);
        }
        names := names - {other};
      }
      kept := kept[name := c];
      return Ok;
    }

    /** The contexts of the names registered. */
    function KeptCtxs(): set<nat>
      reads this
    {
      set name | name in kept :: kept[name]
    }

    /** What a sealed image has: the registered contexts at rest, at handles that are all
        different, and no other context. */
    ghost predicate AtRest()
      reads this
    {
      Resting(ctxs, kept, KeptCtxs())
    }

    method RetireOne(c: nat, keep: bool, r: Reply) returns (err: bool)
      requires c in ctxs && !ctxs[c].freed && Once()
      modifies this`ctxs, this`wedged, this`frees
      ensures Once() && ctxs == old(ctxs)[c := Retire(old(ctxs)[c], keep, r)] && err == r.err
      ensures wedged == (old(wedged) || r.trap)
    {
      if keep {
        err := RetireKept(c, r);
      } else {
        err := FreeContext(c, r);
      }
    }

    /** takeContexts: exactly the contexts not freed, each once. */
    method TakeContexts() returns (open: seq<nat>)
      requires Valid()
      modifies record`len
      ensures record.Valid() && record.List() == []
      ensures NoDuplicates(open) && forall c :: c in open <==> c in ctxs && !ctxs[c].freed
    {
      ghost var list := record.List();
      forall c ensures c in Open(list, Freed(ctxs)) <==> c in list && c !in Freed(ctxs) {
        OpenMembers(list, Freed(ctxs), c);
      }
      OpenNoDuplicates(list, Freed(ctxs));
      open := record.Take(Freed(ctxs));
    }

    /** The loop of retireContexts over the contexts taken over. */
    method RetireAll(open: seq<nat>, keep: set<nat>, replies: map<nat, Reply>) returns (err: bool)
      requires NoDuplicates(open) && (forall c :: c in open ==> c in ctxs && !ctxs[c].freed) && Once()
      modifies this`ctxs, this`wedged, this`frees
      ensures Once() && Retired(old(ctxs), ctxs, open, keep, replies)
      ensures err <==> SomeError(open, |open|, replies)
      ensures wedged <==> old(wedged) || SomeTrap(open, |open|, replies)
    {
      err := false;
      var i := 0;
      while i < |open|
        invariant 0 <= i <= |open| && Once() && Retired(old(ctxs), ctxs, open[..i], keep, replies)
        invariant err <==> SomeError(open, i, replies)
        invariant wedged <==> old(wedged) || SomeTrap(open, i, replies)
      {
        RetiredStep(old(ctxs), ctxs, open, i, keep, replies);
        var e := RetireOne(open[i], open[i] in keep, To(replies, open[i]));
        err := err || e;
        i := i + 1;
      }
      assert open[..i] == open;
    }

    /** Its loop over the contexts registered: one that the build closed is an error. */
    method KeptClosed() returns (err: bool)
      requires forall name :: name in kept ==> kept[name] in ctxs
      ensures err <==> exists name :: name in kept && ctxs[kept[name]].freed
    {
      err := false;
      var names := kept.Keys;
      while names != {}
        invariant names <= kept.Keys
        invariant err <==> exists name :: name in kept && name !in names && ctxs[kept[name]].freed
        decreases |names|
      {
        var name :| name in names;
        if ctxs[kept[name]].freed {
          err := true;
        }
        names := names - {name};
      }
    }

    /** retireContexts: every context not freed yet is freed, or, if it is kept, only
        loses its pool; there is an error exactly when one of them gave one, or a kept
        one was freed already. */
    method RetireContexts(all: bool, replies: map<nat, Reply>) returns (err: bool)
      requires Valid()
      modifies this`ctxs, this`wedged, this`frees, record`len
      ensures record.Valid() && record.List() == [] && Once()
      ensures ctxs.Keys == old(ctxs).Keys
      ensures forall c :: c in ctxs ==> ctxs[c] == Retire(old(ctxs)[c], c in KeptCtxs() && !all, To(replies, c))
      ensures err <==> (exists c :: c in ctxs && !old(ctxs)[c].freed && To(replies, c).err)
                       || (!all && exists name :: name in kept && old(ctxs)[kept[name]].freed)
      ensures wedged <==> old(wedged) || exists c :: c in ctxs && !old(ctxs)[c].freed && To(replies, c).trap
    {
      var open := TakeContexts();
      var keep := if all then {} else KeptCtxs();
      err := RetireAll(open, keep, replies);
      OverAll(old(ctxs), open, replies);
      RetiredAll(old(ctxs), ctxs, open, keep, replies);
      assert forall name :: name in kept ==> kept[name] in KeptCtxs();
      if !all {
        var closed := KeptClosed();
        err := err || closed;
      }
    }

    /** The first half of what NewSnapshot does when its callback is over: the build has failed
        unless the callback returned without error and kept a context, no kept one was closed,
        and no free failed. */
    method RetireBuild(built: Built, replies: map<nat, Reply>) returns (failed: bool)
      requires Valid()
      modifies this`ctxs, this`wedged, this`frees, record`len
      ensures Once() && record.Valid() && record.List() == [] && ctxs.Keys == old(ctxs).Keys
      ensures forall c :: c in ctxs && old(ctxs)[c].freed ==> ctxs[c] == old(ctxs)[c]
      ensures !failed <==>
                && built.Returned? && kept != map[]
                && (forall name :: name in kept ==> !old(ctxs)[kept[name]].freed)
                && (forall c :: c in ctxs && !old(ctxs)[c].freed ==> !To(replies, c).err)
      ensures !failed ==> AtRest()
      ensures !built.Returned? || kept == map[] ==> forall c :: c in ctxs ==> ctxs[c].freed
      ensures wedged <==> old(wedged) || exists c :: c in ctxs && !old(ctxs)[c].freed && To(replies, c).trap
    {
      failed := !built.Returned?;
      if !failed && |kept| == 0 {
        failed := true;
      }
      var err := RetireContexts(failed, replies);
      assert forall name :: name in kept ==> kept[name] in KeptCtxs();
      if err {
        failed := true;
      }
      if !failed {
        RetiredRests(old(ctxs), ctxs, kept, KeptCtxs(), replies);
      }
    }

    /** What NewSnapshot does then. The image is sealed exactly when the build has not failed
        and no free trapped. A sealed image has every registered context unfreed, with no pool
        and no Slots, closed to the builder, at handles that are all different, and every other
        context freed; a failed callback leaves every context freed. */
    method FinishBuild(m: C.Module, built: Built, replies: map<nat, Reply>) returns (outcome: I.Outcome)
      requires Valid()
      modifies this`ctxs, this`wedged, this`frees, record`len, m`preserve
      ensures Once() && record.Valid() && record.List() == [] && ctxs.Keys == old(ctxs).Keys
      ensures forall c :: c in ctxs && old(ctxs)[c].freed ==> ctxs[c] == old(ctxs)[c]
      ensures outcome.Sealed? <==>
                && built.Returned? && kept != map[] && !old(wedged)
                && (forall name :: name in kept ==> !old(ctxs)[kept[name]].freed)
                && (forall c :: c in ctxs && !old(ctxs)[c].freed ==> !To(replies, c).err && !To(replies, c).trap)
      ensures outcome.Sealed? ==> AtRest()
      ensures !built.Returned? || kept == map[] ==> !outcome.Sealed? && forall c :: c in ctxs ==> ctxs[c].freed
      ensures wedged <==> old(wedged) || exists c :: c in ctxs && !old(ctxs)[c].freed && To(replies, c).trap
      ensures outcome.LeftMapped? <==> wedged
      ensures m.preserve == (old(m.preserve) || (wedged && m.entry))
    {
      var failed := RetireBuild(built, replies);
      if wedged {
        m.PreserveMemoryOnAbandon();
        return I.LeftMapped;
      }
      return if failed then I.Failed else I.Sealed;
    }

    /** One round of Close's loop. */
    method FreeNext(open: seq<nat>, i: nat, replies: map<nat, Reply>, ghost was: map<nat, Ctx>) returns (err: bool)
      requires i < |open| && NoDuplicates(open) && open[i] in was && !was[open[i]].freed
      requires Once() && Retired(was, ctxs, open[..i], {}, replies)
      modifies this`ctxs, this`wedged, this`frees
      ensures Once() && Retired(was, ctxs, open[..i + 1], {}, replies) && frees == old(frees) + [open[i]]
      ensures err == To(replies, open[i]).err && wedged == (old(wedged) || To(replies, open[i]).trap)
    {
      RetiredStep(was, ctxs, open, i, {}, replies);
      err := FreeContext(open[i], To(replies, open[i]));
    }

    method FreeAll(open: seq<nat>, replies: map<nat, Reply>) returns (err: bool)
      requires NoDuplicates(open) && (forall c :: c in open ==> c in ctxs && !ctxs[c].freed) && Once()
      modifies this`ctxs, this`wedged, this`frees
      ensures Once() && Retired(old(ctxs), ctxs, open, {}, replies) && frees == old(frees) + open
      ensures err <==> SomeError(open, |open|, replies)
      ensures wedged <==> old(wedged) || SomeTrap(open, |open|, replies)
    {
      err := false;
      var i := 0;
      while i < |open|
        invariant 0 <= i <= |open| && Once() && Retired(old(ctxs), ctxs, open[..i], {}, replies)
        invariant frees == old(frees) + open[..i]
        invariant err <==> SomeError(open, i, replies)
        invariant wedged <==> old(wedged) || SomeTrap(open, i, replies)
      {
        var e := FreeNext(open, i, replies, old(ctxs));
        err := err || e;
        i := i + 1;
        assert open[..i] == open[..i - 1] + [open[i - 1]];
      }
      assert open[..i] == open;
    }

    /** Llama.Close, as far as the contexts go: after it every context has been freed in
        the guest exactly once, whenever it was. */
    method CloseContexts(replies: map<nat, Reply>) returns (err: bool)
      requires Valid()
      modifies this`ctxs, this`wedged, this`frees, record`len
      ensures Valid() && record.List() == [] && ctxs.Keys == old(ctxs).Keys
      ensures forall c :: c in ctxs ==> ctxs[c] == Retire(old(ctxs)[c], false, To(replies, c))
      ensures NoDuplicates(frees) && (forall c :: c in frees <==> c in ctxs)
      ensures old(frees) <= frees
      ensures err <==> exists c :: c in ctxs && !old(ctxs)[c].freed && To(replies, c).err
      ensures wedged <==> old(wedged) || exists c :: c in ctxs && !old(ctxs)[c].freed && To(replies, c).trap
    {
      var open := TakeContexts();
      err := FreeAll(open, replies);
      OverAll(old(ctxs), open, replies);
    }

    /** Llama.Close: then the engine m is released, and its memory unmapped if no free
        trapped and a poll finds its threads gone; otherwise there is ErrMemoryLeaked. */
    method Close(m: C.Module, polls: seq<nat>, replies: map<nat, Reply>) returns (err: bool, leaked: bool)
      requires Valid()
      modifies this`ctxs, this`wedged, this`frees, record`len, m
      ensures Valid() && record.List() == [] && ctxs.Keys == old(ctxs).Keys
      ensures forall c :: c in ctxs ==> ctxs[c] == Retire(old(ctxs)[c], false, To(replies, c))
      ensures NoDuplicates(frees) && (forall c :: c in frees <==> c in ctxs)
      ensures old(frees) <= frees
      ensures err <==> leaked || exists c :: c in ctxs && !old(ctxs)[c].freed && To(replies, c).err
      ensures wedged <==> old(wedged) || exists c :: c in ctxs && !old(ctxs)[c].freed && To(replies, c).trap
      ensures m.Core() == C.Released(old(m.Core()), !wedged, 0 in polls)
      ensures leaked <==> wedged || (old(m.entry) && old(m.memory) && 0 !in polls)
      ensures m.preserve == old(m.preserve) && (!old(m.preserve) ==> m.finalizer == old(m.finalizer))
    {
      err := CloseContexts(replies);
      if wedged {
        var none := m.Release(false, []);
        leaked := true;
      } else {
        leaked := m.Release(true, polls);
      }
      err := err || leaked;
    }
  }

  /** The engine of an image that is being built: its memory is not in engineMmaps, and has
      the image's finalizer. */
  predicate Builds(m: C.Module)
    reads m
  {
    m.entry == m.memory && !m.mapping && !m.preserve && m.finalizer
  }

  /** NewSnapshot from its callback's end: the engine is abandoned in any case, and unmapped by
      that in none. The image's finalizer, which would unmap the memory, is gone afterwards
      exactly if a free trapped and the engine had not been released before. */
  method NewSnapshot(l: Llama, m: C.Module, built: Built, replies: map<nat, Reply>) returns (outcome: I.Outcome)
    requires l.Valid() && Builds(m)
    modifies l`ctxs, l`wedged, l`frees, l.record`len, m
    ensures l.ctxs.Keys == old(l.ctxs).Keys && l.Once()
    ensures forall c :: c in l.ctxs && old(l.ctxs)[c].freed ==> l.ctxs[c] == old(l.ctxs)[c]
    ensures l.wedged <==> old(l.wedged) || exists c :: c in l.ctxs && !old(l.ctxs)[c].freed && To(replies, c).trap
    ensures outcome.LeftMapped? <==> l.wedged
    ensures m.finalizer <==> !(l.wedged && old(m.entry))
    ensures !m.memory && !m.entry && m.unmaps == old(m.unmaps) && m.zeroed == old(m.zeroed)
    ensures outcome.Sealed? ==> l.AtRest() && forall name :: name in l.kept ==> !old(l.ctxs)[l.kept[name]].freed
    ensures !built.Returned? || l.kept == map[] ==> !outcome.Sealed? && forall c :: c in l.ctxs ==> l.ctxs[c].freed
  {
    outcome := l.FinishBuild(m, built, replies);
    var err := m.Release(false, []);
  }

  /** NewSnapshot with a callback that closes the instance it builds. If a free trapped, its
      Close and NewSnapshot both say that the memory was kept mapped; but the finalizer stays. */
  method CloseThenEnd(l: Llama, m: C.Module, polls: seq<nat>, built: Built, replies: map<nat, Reply>)
    returns (leaked: bool, outcome: I.Outcome)
    requires l.Valid() && Builds(m)
    modifies l`ctxs, l`wedged, l`frees, l.record`len, m
    ensures l.ctxs.Keys == old(l.ctxs).Keys && forall c :: c in l.ctxs ==> l.ctxs[c].freed
    ensures l.wedged <==> old(l.wedged) || exists c :: c in l.ctxs && !old(l.ctxs)[c].freed && To(replies, c).trap
    ensures l.wedged ==> leaked && outcome.LeftMapped?
    ensures !l.wedged ==> outcome.Failed?
    ensures !m.memory && !m.entry && m.unmaps == old(m.unmaps) && m.finalizer
  {
    var err;
    err, leaked := l.Close(m, polls, replies);
    assert forall c :: c in l.ctxs ==> l.ctxs[c].freed;
    outcome := NewSnapshot(l, m, built, replies);
    if built.Returned? && l.kept != map[] {
      var name :| name in l.kept;
      assert outcome.Sealed? ==> l.kept[name] in l.ctxs;
    }
  }

  /** So for every callback: if a free trapped, in a Close of the callback's or at the end of
      the build, the finalizer that unmaps the memory is gone exactly if there was no such Close. */
  method BuildSnapshot(l: Llama, m: C.Module, closes: bool, polls: seq<nat>, built: Built, replies: map<nat, Reply>)
    returns (outcome: I.Outcome)
    requires l.Valid() && Builds(m) && m.entry
    modifies l`ctxs, l`wedged, l`frees, l.record`len, m
    ensures l.ctxs.Keys == old(l.ctxs).Keys
    ensures l.wedged <==> old(l.wedged) || exists c :: c in l.ctxs && !old(l.ctxs)[c].freed && To(replies, c).trap
    ensures outcome.LeftMapped? <==> l.wedged
    ensures m.finalizer <==> closes || !l.wedged
    ensures !m.memory && !m.entry && m.unmaps == old(m.unmaps)
    ensures closes ==> !outcome.Sealed?
    ensures outcome.Sealed? ==> l.AtRest()
  {
    if closes {
      var leaked;
      leaked, outcome := CloseThenEnd(l, m, polls, built, replies);
    } else {
      outcome := NewSnapshot(l, m, built, replies);
    }
  }

  // ----- Fork -----------------------------------------------------------------------------------------

  /** What a snapshot keeps of a context. */
  datatype Kept = Kept(modelH: nat, ctxH: nat)

  /** What the image keeps of the contexts registered. */
  function KeptOf(l: Llama): map<string, Kept>
    requires forall name :: name in l.kept ==> l.kept[name] in l.ctxs
    reads l
  {
    map name | name in l.kept :: Kept(l.ctxs[l.kept[name]].modelH, l.ctxs[l.kept[name]].h)
  }

  ghost predicate DistinctHandles(kept: map<string, Kept>) {
    forall name, other :: name in kept && other in kept && name != other ==> kept[name].ctxH != kept[other].ctxH
  }

  /** A list of the names kept, each once, their handles all different. */
  predicate NamesOf(names: seq<string>, kept: map<string, Kept>) {
    && (forall i :: 0 <= i < |names| ==> names[i] in kept)
    && (forall name :: name in kept ==> name in names)
    && (forall i, j :: 0 <= i < j < |names| ==> names[i] != names[j] && kept[names[i]].ctxH != kept[names[j]].ctxH)
  }

  /** The names, in any order. */
  method Names(kept: map<string, Kept>) returns (names: seq<string>)
    requires DistinctHandles(kept)
    ensures NamesOf(names, kept)
  {
    names := [];
    var rest := kept.Keys;
    while rest != {}
      invariant rest <= kept.Keys && forall name :: name in kept <==> name in rest || name in names
      invariant forall name :: name in names ==> name !in rest
      invariant forall i, j :: 0 <= i < j < |names| ==> names[i] != names[j]
      decreases |rest|
    {
      var name :| name in rest;
      names := names + [name];
      rest := rest - {name};
    }
  }

  /** The contexts of the first n names, open, and with the image's handles. */
  ghost predicate Forked(ctxs: map<nat, Ctx>, names: seq<string>, kept: map<string, Kept>, n: nat)
    requires NamesOf(names, kept) && n <= |names|
  {
    && (forall c: nat :: c in ctxs <==> c < n)
    && forall i :: 0 <= i < n ==> ctxs[i] == Fresh(kept[names[i]].ctxH, kept[names[i]].modelH)
  }

  ghost predicate ModelsOf(models: map<nat, nat>, names: seq<string>, kept: map<string, Kept>, n: nat)
    requires NamesOf(names, kept) && n <= |names|
  {
    forall h :: h in models <==> exists i :: 0 <= i < n && kept[names[i]].modelH == h
  }

  lemma ForkedStep(ctxs: map<nat, Ctx>, names: seq<string>, kept: map<string, Kept>, n: nat)
    requires NamesOf(names, kept) && n < |names| && Forked(ctxs, names, kept, n)
    ensures n !in ctxs && forall c :: c in ctxs ==> ctxs[c].h != kept[names[n]].ctxH
    ensures Forked(ctxs[n := Fresh(kept[names[n]].ctxH, kept[names[n]].modelH)], names, kept, n + 1)
  {}

  lemma ModelsStep(models: map<nat, nat>, names: seq<string>, kept: map<string, Kept>, n: nat, m: nat)
    requires NamesOf(names, kept) && n < |names| && ModelsOf(models, names, kept, n)
    ensures var h := kept[names[n]].modelH; ModelsOf(if h in models then models else models[h := m], names, kept, n + 1)
  {}

  /** What Fork has after n names. */
  ghost predicate ForkedInto(l: Llama, models: map<nat, nat>, names: seq<string>, kept: map<string, Kept>, n: nat)
    requires NamesOf(names, kept) && n <= |names|
    reads l, l.record, l.record.cells
  {
    && l.Valid() && l.frees == [] && l.kept == map[] && !l.wedged
    && Forked(l.ctxs, names, kept, n) && ModelsOf(models, names, kept, n)
  }

  /** One round of Fork's loop. */
  method ForkOne(l: Llama, models: map<nat, nat>, names: seq<string>, kept: map<string, Kept>, n: nat)
    returns (models': map<nat, nat>)
    requires NamesOf(names, kept) && n < |names| && ForkedInto(l, models, names, kept, n)
    modifies l`ctxs, l.record, l.record.cells
    ensures ForkedInto(l, models', names, kept, n + 1)
    ensures l.record.cells == old(l.record.cells) || fresh(l.record.cells)
  {
    var k := kept[names[n]];
    ForkedStep(l.ctxs, names, kept, n);
    ModelsStep(models, names, kept, n, |models|);
    models' := models;
    if k.modelH !in models {
      models' := models[k.modelH := |models|];
    }
    l.NewContext(n, k.ctxH, k.modelH, false);
  }

  /** Fork: one context for every name, over one model for every model handle, all on
      record and open. The pools it attaches are in `InstanceSteps`. */
  method Fork(kept: map<string, Kept>) returns (l: Llama, names: seq<string>, models: map<nat, nat>)
    requires DistinctHandles(kept)
    ensures NamesOf(names, kept)
    ensures fresh(l) && fresh(l.record) && fresh(l.record.cells) && ForkedInto(l, models, names, kept, |names|)
  {
    names := Names(kept);
    l := new Llama();
    models := map[];
    var i := 0;
    while i < |names|
      invariant 0 <= i <= |names|
      invariant fresh(l) && fresh(l.record) && fresh(l.record.cells)
      invariant ForkedInto(l, models, names, kept, i)
    {
      models := ForkOne(l, models, names, kept, i);
      i := i + 1;
    }
  }

  // ----- a fork's whole life --------------------------------------------------------------------

  /** What is done with a fork: a context is created, at a handle that the guest picks, or closed. */
  datatype Use = Create(h: nat, modelH: nat, pool: bool) | CloseOne(c: nat, reply: Reply)

  ghost predicate Precedes(frees: seq<nat>, c: nat, d: nat) {
    forall k :: 0 <= k < |frees| && frees[k] == d ==> c in frees[..k]
  }

  /** Of two contexts at one handle the guest has freed the older before the younger was created. */
  ghost predicate OneAfterTheOther(ctxs: map<nat, Ctx>, frees: seq<nat>) {
    forall c, d :: c in ctxs && d in ctxs && c < d && ctxs[c].h == ctxs[d].h ==> ctxs[c].freed && Precedes(frees, c, d)
  }

  /** The contexts are numbered as they were created; the first ones are those of the image. */
  ghost predicate AtHandles(ctxs: map<nat, Ctx>, names: seq<string>, kept: map<string, Kept>)
    requires NamesOf(names, kept)
  {
    && (forall c: nat :: c in ctxs <==> c < |ctxs|) && |names| <= |ctxs|
    && forall i :: 0 <= i < |names| ==> ctxs[i].h == kept[names[i]].ctxH
  }

  ghost predicate InUse(l: Llama, names: seq<string>, kept: map<string, Kept>)
    requires NamesOf(names, kept)
    reads l, l.record, l.record.cells
  {
    l.Valid() && AtHandles(l.ctxs, names, kept) && OneAfterTheOther(l.ctxs, l.frees)
  }

  lemma Numbered(ctxs: map<nat, Ctx>, n: nat)
    requires forall c: nat :: c in ctxs <==> c < n
    ensures |ctxs| == n
    decreases n
  {
    if n == 0 {
      assert ctxs.Keys == {};
    } else {
      Numbered(ctxs - {n - 1}, n - 1);
      assert ctxs.Keys == (ctxs - {n - 1}).Keys + {n - 1};
    }
  }

  lemma HandlesFurther(ctxs: map<nat, Ctx>, x: Ctx, names: seq<string>, kept: map<string, Kept>)
    requires NamesOf(names, kept) && AtHandles(ctxs, names, kept)
    ensures AtHandles(ctxs[|ctxs| := x], names, kept)
  {
    Numbered(ctxs[|ctxs| := x], |ctxs| + 1);
  }

  lemma PrecedesFurther(frees: seq<nat>, c: nat, d: nat, e: nat)
    requires Precedes(frees, c, d) && (e == d ==> c in frees)
    ensures Precedes(frees + [e], c, d)
  {
    forall k | 0 <= k < |frees + [e]| && (frees + [e])[k] == d ensures c in (frees + [e])[..k] {
      if k < |frees| {
        assert (frees + [e])[..k] == frees[..k];
      } else {
        assert (frees + [e])[..k] == frees;
      }
    }
  }

  /** The guest frees e, which is unfreed: so there is no younger context at its handle. */
  lemma FreesFurther(ctxs: map<nat, Ctx>, ctxs': map<nat, Ctx>, frees: seq<nat>, e: nat)
    requires OneAfterTheOther(ctxs, frees) && e in ctxs && !ctxs[e].freed
    requires forall c :: c in frees <==> c in ctxs && ctxs[c].freed
    requires ctxs'.Keys == ctxs.Keys
    requires forall c :: c in ctxs ==> ctxs'[c].h == ctxs[c].h && (ctxs[c].freed ==> ctxs'[c].freed)
    ensures OneAfterTheOther(ctxs', frees + [e])
  {
    forall c, d | c in ctxs' && d in ctxs' && c < d && ctxs'[c].h == ctxs'[d].h
      ensures ctxs'[c].freed && Precedes(frees + [e], c, d)
    {
      PrecedesFurther(frees, c, d, e);
    }
  }

  lemma CreatedFurther(ctxs: map<nat, Ctx>, frees: seq<nat>, n: nat, x: Ctx)
    requires OneAfterTheOther(ctxs, frees) && forall c: nat :: c in ctxs <==> c < n
    requires forall c :: c in frees ==> c in ctxs
    requires forall c :: c in ctxs && ctxs[c].h == x.h ==> ctxs[c].freed
    ensures OneAfterTheOther(ctxs[n := x], frees)
  {}

  /** A handle that an unfreed context has is none the guest picks. */
  method CreateOne(l: Llama, h: nat, modelH: nat, pool: bool, names: seq<string>, kept: map<string, Kept>)
    requires NamesOf(names, kept) && InUse(l, names, kept)
    modifies l`ctxs, l.record, l.record.cells
    ensures InUse(l, names, kept)
    ensures l.record.cells == old(l.record.cells) || fresh(l.record.cells)
  {
    var n := |l.ctxs|;
    if forall c :: c in l.ctxs && l.ctxs[c].h == h ==> l.ctxs[c].freed {
      ghost var x := Fresh(h, modelH).(pool := pool);
      CreatedFurther(l.ctxs, l.frees, n, x);
      HandlesFurther(l.ctxs, x, names, kept);
      l.NewContext(n, h, modelH, pool);
    }
  }

  method CloseContext(l: Llama, c: nat, reply: Reply, names: seq<string>, kept: map<string, Kept>)
    requires NamesOf(names, kept) && InUse(l, names, kept)
    modifies l`ctxs, l`wedged, l`frees
    ensures InUse(l, names, kept)
  {
    if c in l.ctxs {
      var freed := l.ctxs[c].freed;
      ghost var was, frees := l.ctxs, l.frees;
      var err := l.FreeContext(c, reply);
      Numbered(l.ctxs, |was|);
      if !freed {
        FreesFurther(was, l.ctxs, frees, c);
      } else {
        assert l.ctxs == was;
      }
    }
  }

  /** A step of the fork's life. */
  method UseOnce(l: Llama, use: Use, names: seq<string>, kept: map<string, Kept>)
    requires NamesOf(names, kept) && InUse(l, names, kept)
    modifies l`ctxs, l`wedged, l`frees, l.record, l.record.cells
    ensures InUse(l, names, kept)
    ensures l.record.cells == old(l.record.cells) || fresh(l.record.cells)
  {
    match use
    case Create(h, modelH, pool) => CreateOne(l, h, modelH, pool, names, kept);
    case CloseOne(c, reply) => CloseContext(l, c, reply, names, kept);
  }

  lemma AllFreesFurther(ctxs: map<nat, Ctx>, ctxs': map<nat, Ctx>, frees: seq<nat>, more: seq<nat>)
    requires OneAfterTheOther(ctxs, frees)
    requires forall c :: c in frees <==> c in ctxs && ctxs[c].freed
    requires NoDuplicates(frees + more) && forall c :: c in more ==> c in ctxs
    requires ctxs'.Keys == ctxs.Keys && forall c :: c in ctxs ==> ctxs'[c].h == ctxs[c].h && ctxs'[c].freed
    ensures OneAfterTheOther(ctxs', frees + more)
  {
    forall c, d | c in ctxs' && d in ctxs' && c < d && ctxs'[c].h == ctxs'[d].h
      ensures Precedes(frees + more, c, d)
    {
      forall k | 0 <= k < |frees + more| && (frees + more)[k] == d ensures c in (frees + more)[..k] {
        if k < |frees| {
          assert (frees + more)[..k] == frees[..k] && Precedes(frees, c, d);
        } else {
          var j :| 0 <= j < |frees| && frees[j] == c;
          assert (frees + more)[..k][j] == c;
        }
      }
    }
  }

  method UseAll(l: Llama, uses: seq<Use>, names: seq<string>, kept: map<string, Kept>)
    requires NamesOf(names, kept) && InUse(l, names, kept)
    modifies l`ctxs, l`wedged, l`frees, l.record, l.record.cells
    ensures InUse(l, names, kept)
  {
    var i := 0;
    while i < |uses|
      invariant InUse(l, names, kept) && (l.record.cells == old(l.record.cells) || fresh(l.record.cells))
    {
      UseOnce(l, uses[i], names, kept);
      i := i + 1;
    }
  }

  method CloseFork(l: Llama, m: C.Module, polls: seq<nat>, replies: map<nat, Reply>,
                   names: seq<string>, kept: map<string, Kept>)
    requires NamesOf(names, kept) && InUse(l, names, kept)
    modifies l`ctxs, l`wedged, l`frees, l.record`len, m
    ensures AtHandles(l.ctxs, names, kept) && OneAfterTheOther(l.ctxs, l.frees)
    ensures NoDuplicates(l.frees) && forall c :: c in l.frees <==> c in l.ctxs
    ensures m.Core() == C.Released(old(m.Core()), !l.wedged, 0 in polls)
  {
    ghost var was, frees := l.ctxs, l.frees;
    var err, leaked := l.Close(m, polls, replies);
    Numbered(l.ctxs, |was|);
    assert l.frees == frees + l.frees[|frees|..];
    AllFreesFurther(was, l.ctxs, frees, l.frees[|frees|..]);
  }

  /** A fork from its creation to its Close, whatever is created and closed on it in between:
      every context has then been freed in the guest exactly once, and at each handle in the
      order of their creation; and the fork's memory has been unmapped exactly if none of
      those frees trapped and its threads are gone. */
  method ForkUseClose(kept: map<string, Kept>, uses: seq<Use>, polls: seq<nat>, replies: map<nat, Reply>)
    returns (l: Llama, m: C.Module, names: seq<string>)
    requires DistinctHandles(kept)
    ensures fresh(l) && fresh(m)
    ensures NamesOf(names, kept) && AtHandles(l.ctxs, names, kept) && OneAfterTheOther(l.ctxs, l.frees)
    ensures NoDuplicates(l.frees) && forall c :: c in l.frees <==> c in l.ctxs
    ensures !m.memory && m.unmaps == if l.wedged || 0 !in polls then 0 else 1
  {
    var models;
    l, names, models := Fork(kept);
    m := new C.Module(false);
    Numbered(l.ctxs, |names|);
    UseAll(l, uses, names, kept);
    CloseFork(l, m, polls, replies, names, kept);
  }

  /** From the end of a build to the Close of a fork: if an image was sealed, the fork has every
      context registered, at its handle in the image, and the builder's contexts stay as they
      were sealed, whatever the fork does. */
  method BuildForkClose(b: Llama, bm: C.Module, built: Built, retired: map<nat, Reply>,
                        uses: seq<Use>, polls: seq<nat>, replies: map<nat, Reply>)
    returns (outcome: I.Outcome, l: Llama, names: seq<string>)
    requires b.Valid() && Builds(bm)
    modifies b`ctxs, b`wedged, b`frees, b.record`len, bm
    ensures outcome.Sealed? ==>
              && b.AtRest() && NamesOf(names, KeptOf(b)) && AtHandles(l.ctxs, names, KeptOf(b))
              && OneAfterTheOther(l.ctxs, l.frees) && NoDuplicates(l.frees) && forall c :: c in l.frees <==> c in l.ctxs
  {
    outcome := NewSnapshot(b, bm, built, retired);
    if outcome.Sealed? {
      var m;
      l, m, names := ForkUseClose(KeptOf(b), uses, polls, replies);
    } else {
      l := new Llama();
      names := [];
    }
  }

  /** So each kept context is freed by one call only; what else is freed at its handle was
      created there afterwards, and is freed later. */
  lemma EachHandleFreedOnce(ctxs: map<nat, Ctx>, frees: seq<nat>, names: seq<string>, kept: map<string, Kept>, i: nat)
    returns (j: nat)
    requires NamesOf(names, kept) && AtHandles(ctxs, names, kept) && i < |names| && OneAfterTheOther(ctxs, frees)
    requires NoDuplicates(frees) && forall c :: c in frees <==> c in ctxs
    ensures j < |frees| && frees[j] == i && ctxs[i].h == kept[names[i]].ctxH
    ensures forall k :: 0 <= k < |frees| && k != j && ctxs[frees[k]].h == ctxs[i].h ==> j < k && frees[k] >= |names|
  {
    assert i in frees;
    j :| 0 <= j < |frees| && frees[j] == i;
    forall k | 0 <= k < |frees| && k != j && ctxs[frees[k]].h == ctxs[i].h ensures j < k && frees[k] >= |names| {
      var d := frees[k];
      assert d in frees && d != i && d >= |names|;
      assert Precedes(frees, i, d);
      assert i in frees[..k];
    }
  }
}
