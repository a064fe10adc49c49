/**
 Every step of the Slots scheduler keeps its invariant.
 */
module SlotsProofs {
  import opened Options
  import opened SlotsProtocol
  import opened SlotsRuns
  import opened SlotsInvariant

  // ----- event lists -----------------------------------------------------------

  lemma {:induction false} LegalMentions(known: set<nat>, evs: seq<Event>, id: nat)
    requires Legal(known, evs) && Mentions(evs, id)
    ensures id in known
  {
    if evs[0].id != id {
      LegalMentions(if Removes(evs[0]) then known - {evs[0].id} else known, evs[1..], id);
    }
  }

  lemma {:induction false} LegalOrdered(known: set<nat>, evs: seq<Event>)
    requires Legal(known, evs)
    ensures Ordered(evs)
  {
    if evs != [] {
      var rest := if Removes(evs[0]) then known - {evs[0].id} else known;
      LegalOrdered(rest, evs[1..]);
      if Removes(evs[0]) && Mentions(evs[1..], evs[0].id) {
        LegalMentions(rest, evs[1..], evs[0].id);
      }
    }
  }

  /** A task leaves the engine exactly when the reply carries the event that says so. */
  lemma {:induction false} LeavesWithEvent(known: set<nat>, evs: seq<Event>, id: nat)
    requires Legal(known, evs) && id in known
    ensures id !in After(known, evs) <==> TakenOut(evs, id)
    ensures TakenOut(evs, id) ==> Ends(evs, id)
  {
    if evs != [] {
      var rest := if Removes(evs[0]) then known - {evs[0].id} else known;
      if id in rest {
        LeavesWithEvent(rest, evs[1..], id);
      }
    }
  }

  lemma {:induction false} TakenOutMentions(evs: seq<Event>, id: nat)
    requires TakenOut(evs, id)
    ensures Mentions(evs, id)
  {
    if evs[0].id != id || !Removes(evs[0]) {
      TakenOutMentions(evs[1..], id);
    }
  }

  lemma {:induction false} NoPayloads(evs: seq<Event>, id: nat)
    requires !Mentions(evs, id)
    ensures Payloads(evs, id) == []
  {
    if evs != [] {
      NoPayloads(evs[1..], id);
    }
  }

  lemma RestOf(evs: seq<Event>)
    requires evs != []
    ensures forall id :: Mentions(evs[1..], id) ==> Mentions(evs, id)
    ensures forall id :: TakenOut(evs[1..], id) ==> TakenOut(evs, id)
    ensures Ordered(evs) ==> Ordered(evs[1..])
  {}

  // ----- the lock, the ids and the map ---------------------------------------------

  lemma LoopKeepsCore(s: State, l: LoopStep)
    requires CoreInv(s) && LoopEnabled(s, l)
    ensures CoreInv(LoopApply(s, l))
  {
    match l
    case Wake =>
    case StopParked =>
    case StopPolled =>
    case Go =>
    case Forget =>
    case DoneClose =>
  }

  lemma UpdateKeepsCore(s: State, l: UpdateStep)
    requires CoreInv(s) && UpdateEnabled(s, l)
    ensures CoreInv(UpdateApply(s, l))
  {
    match l
    case UpdClosed =>
    case UpdBegin =>
    case UpdReply(evs) =>
    case UpdError(evs) =>
    case UpdGone(evs) =>
  }

  lemma DeliverKeepsCore(s: State, l: DeliverStep)
    requires CoreInv(s) && DeliverEnabled(s, l)
    ensures CoreInv(DeliverApply(s, l))
  {
    match l
    case LookSkip =>
    case LookEnd =>
    case LookToken =>
    case Push =>
    case Delivered =>
  }

  lemma FailKeepsCore(s: State, l: FailStep)
    requires CoreInv(s) && FailEnabled(s, l)
    ensures CoreInv(FailApply(s, l))
  {
    match l
    case SetClosedFlag =>
    case FailRead =>
    case FailNext(_) =>
    case FailPark =>
    case FailLeave =>
  }

  lemma CancelKeepsCore(s: State, l: CancelStep)
    requires CoreInv(s) && CancelEnabled(s, l)
    ensures CoreInv(CancelApply(s, l))
  {
    match l
    case CancelRead =>
    case CancelSkip(_) =>
    case CancelBegin(_) =>
    case CancelDeclined =>
    case CancelTook(_, _) =>
    case CancelDone =>
  }

  lemma FinishKeepsCore(s: State, l: FinishStep)
    requires CoreInv(s) && FinishEnabled(s, l)
    ensures CoreInv(FinishApply(s, l))
  {
    match l
    case Delete =>
    case End =>
  }

  /** A canceller goes into the engine, and comes out of it. */
  lemma CancellerCallKeepsCore(s: State, l: CancellerStep)
    requires CoreInv(s) && CancellerEnabled(s, l) && (l.CBegin? || l.CDeclined? || l.CTook?)
    ensures CoreInv(CancellerApply(s, l))
  {}

  lemma CancellerKeepsCore(s: State, l: CancellerStep)
    requires CoreInv(s) && CancellerEnabled(s, l)
    ensures CoreInv(CancellerApply(s, l))
  {
    if l.CBegin? || l.CDeclined? || l.CTook? {
      CancellerCallKeepsCore(s, l);
    }
  }

  lemma PostEndKeepsCore(s: State, l: PostStep)
    requires CoreInv(s) && PostEnabled(s, l) && (l.PostOk? || l.PostFail?)
    ensures CoreInv(PostApply(s, l))
  {}

  lemma PostKeepsCore(s: State, l: PostStep)
    requires CoreInv(s) && PostEnabled(s, l)
    ensures CoreInv(PostApply(s, l))
  {
    if l.PostOk? || l.PostFail? {
      PostEndKeepsCore(s, l);
    }
  }

  lemma CloseKeepsCore(s: State, l: CloseStep)
    requires CoreInv(s) && CloseEnabled(s, l)
    ensures CoreInv(CloseApply(s, l))
  {}

  lemma ReadKeepsCore(s: State, l: ReadStep)
    requires CoreInv(s) && ReadEnabled(s, l)
    ensures CoreInv(ReadApply(s, l))
  {}

  // ----- what is owed -----------------------------------------------------------------

  lemma LoopKeepsDuty(s: State, l: LoopStep)
    requires CoreInv(s) && DutyInv(s) && LoopEnabled(s, l)
    ensures DutyInv(LoopApply(s, l))
  {
    match l
    case Wake =>
    case StopParked =>
    case StopPolled =>
    case Go =>
    case Forget =>
    case DoneClose =>
  }

  lemma UpdateKeepsDuty(s: State, l: UpdateStep)
    requires CoreInv(s) && DutyInv(s) && UpdateEnabled(s, l)
    ensures DutyInv(UpdateApply(s, l))
  {
    match l
    case UpdClosed =>
    case UpdBegin =>
    case UpdReply(evs) =>
      forall id | id in s.known && id !in After(s.known, evs) ensures Ends(evs, id) {
        LeavesWithEvent(s.known, evs, id);
      }
    case UpdError(evs) =>
    case UpdGone(evs) =>
  }

  lemma DeliverKeepsDuty(s: State, l: DeliverStep)
    requires CoreInv(s) && DutyInv(s) && DeliverEnabled(s, l)
    ensures DutyInv(DeliverApply(s, l))
  {
    match l
    case LookSkip =>
    case LookEnd =>
    case LookToken =>
    case Push =>
    case Delivered =>
  }

  lemma FailKeepsDuty(s: State, l: FailStep)
    requires CoreInv(s) && DutyInv(s) && FailEnabled(s, l)
    ensures DutyInv(FailApply(s, l))
  {
    match l
    case SetClosedFlag =>
    case FailRead =>
    case FailNext(_) =>
    case FailPark =>
    case FailLeave =>
  }

  /** The engine declines a held task to the scheduler that closes the Slots only
      when the task's own canceller is already past its engine call. */
  lemma CancelKeepsDuty(s: State, l: CancelStep)
    requires CoreInv(s) && DutyInv(s) && CancelEnabled(s, l)
    ensures DutyInv(CancelApply(s, l))
  {
    match l
    case CancelRead =>
    case CancelSkip(_) =>
    case CancelBegin(_) =>
    case CancelDeclined =>
    case CancelTook(_, _) =>
    case CancelDone =>
  }

  lemma FinishKeepsDuty(s: State, l: FinishStep)
    requires CoreInv(s) && DutyInv(s) && FinishEnabled(s, l)
    ensures DutyInv(FinishApply(s, l))
  {
    match l
    case Delete =>
    case End =>
  }

  lemma CDeleteKeepsDuty(s: State, id: nat)
    requires CoreInv(s) && DutyInv(s) && CancellerEnabled(s, CDelete(id))
    ensures DutyInv(CancellerApply(s, CDelete(id)))
  {}

  lemma CFinishedKeepsDuty(s: State, id: nat)
    requires CoreInv(s) && DutyInv(s) && CancellerEnabled(s, CFinished(id))
    ensures DutyInv(CancellerApply(s, CFinished(id)))
  {}

  lemma CancellerBeginKeepsDuty(s: State, id: nat)
    requires CoreInv(s) && DutyInv(s) && CancellerEnabled(s, CBegin(id))
    ensures DutyInv(CancellerApply(s, CBegin(id)))
  {}

  /** A canceller leaves the engine: declined, or past its call with its task to finish. */
  lemma CancellerCallKeepsDuty(s: State, l: CancellerStep)
    requires CoreInv(s) && DutyInv(s) && CancellerEnabled(s, l) && (l.CDeclined? || l.CTook?)
    ensures DutyInv(CancellerApply(s, l))
  {
    var s' := CancellerApply(s, l);
    assert LeavingInv(s'.tasks, s'.sched, s'.cancellers);
    assert WakeInv(s'.closed, s'.tasks, s'.known, s'.wake, s'.sched, s'.posts);
  }

  lemma CancellerLookKeepsDuty(s: State, l: CancellerStep)
    requires CoreInv(s) && DutyInv(s) && CancellerEnabled(s, l) && (l.CtxDone? || l.CQuit? || l.CSkip?)
    ensures DutyInv(CancellerApply(s, l))
  {}

  lemma CancellerKeepsDuty(s: State, l: CancellerStep)
    requires CoreInv(s) && DutyInv(s) && CancellerEnabled(s, l)
    ensures DutyInv(CancellerApply(s, l))
  {
    if l.CDelete? {
      CDeleteKeepsDuty(s, l.id);
    } else if l.CFinished? {
      CFinishedKeepsDuty(s, l.id);
    } else if l.CBegin? {
      CancellerBeginKeepsDuty(s, l.id);
    } else if l.CDeclined? || l.CTook? {
      CancellerCallKeepsDuty(s, l);
    } else {
      CancellerLookKeepsDuty(s, l);
    }
  }

  /** A Post other than `id`'s own keeps `id`'s nudge due. */
  lemma NudgeStays(posts: map<nat, Poster>, posts': map<nat, Poster>, p: nat)
    requires forall q :: q in posts && q != p ==> q in posts' && posts'[q] == posts[q]
    requires p in posts ==> !posts[p].PNudge?
    ensures forall id :: NudgeDue(posts, id) ==> NudgeDue(posts', id)
  {
    forall id | NudgeDue(posts, id) ensures NudgeDue(posts', id) {
      var q :| q in posts && posts[q] == PNudge(id);
      assert q in posts' && posts'[q] == PNudge(id);
    }
  }

  lemma PostKeepsDuty(s: State, l: PostStep)
    requires CoreInv(s) && DutyInv(s) && PostEnabled(s, l)
    ensures DutyInv(PostApply(s, l))
  {
    var s' := PostApply(s, l);
    match l
    case PostBegin(p) => NudgeStays(s.posts, s'.posts, p);
    case PostOk(p) =>
      NudgeStays(s.posts, s'.posts, p);
      assert s'.posts[p] == PNudge(s.nextId);
      assert NudgeDue(s'.posts, s.nextId);
    case PostFail(p, _) => NudgeStays(s.posts, s'.posts, p);
    case Nudge(_) =>
    case Spawn(p, _) => NudgeStays(s.posts, s'.posts, p);
  }

  lemma CloseKeepsDuty(s: State, l: CloseStep)
    requires CoreInv(s) && DutyInv(s) && CloseEnabled(s, l)
    ensures DutyInv(CloseApply(s, l))
  {}

  lemma ReadKeepsDuty(s: State, l: ReadStep)
    requires CoreInv(s) && DutyInv(s) && ReadEnabled(s, l)
    ensures DutyInv(ReadApply(s, l))
  {}

  // ----- the outputs and their readers ----------------------------------------------------

  lemma LoopKeepsData(s: State, l: LoopStep)
    requires CoreInv(s) && DataInv(s) && LoopEnabled(s, l)
    ensures DataInv(LoopApply(s, l))
  {
    match l
    case Wake =>
    case StopParked =>
    case StopPolled =>
    case Go =>
    case Forget =>
    case DoneClose =>
  }

  /** An engine update, whether its reply arrives or not, has nothing for a task
      that has had its final event. */
  lemma EngineKeepsFinal(s: State, evs: seq<Event>, sc: Sched)
    requires CoreInv(s) && DataInv(s) && s.sched.UpdCall? && Legal(s.known, evs)
    requires sc == FailSnap(false) || sc == SetClosed || (sc.Deliver? && sc.evs == evs)
    ensures FinalInv(After(s.known, evs), s.completions, Emit(s.emitted, evs), sc)
  {
    forall id | id in s.completions && id in s.emitted && AtFinal(s.completions, sc, id)
      ensures Over(After(s.known, evs), sc, id) && Payloads(evs, id) == []
    {
      if Mentions(evs, id) {
        LegalMentions(s.known, evs, id);
      } else {
        NoPayloads(evs, id);
      }
    }
  }

  lemma UpdReplyKeepsData(s: State, evs: seq<Event>)
    requires CoreInv(s) && DataInv(s) && UpdateEnabled(s, UpdReply(evs))
    ensures DataInv(UpdateApply(s, UpdReply(evs)))
  {
    EngineKeepsFinal(s, evs, Deliver(evs, After(s.known, evs) != {}));
    LegalOrdered(s.known, evs);
    forall id | Mentions(evs, id) ensures id in s.known { LegalMentions(s.known, evs, id); }
    forall id | id in After(s.known, evs) ensures !TakenOut(evs, id) { LeavesWithEvent(s.known, evs, id); }
  }

  /** The final event is the task's last: when it is looked at, all its outputs have been delivered. */
  lemma LookEndKeepsData(s: State)
    requires CoreInv(s) && DataInv(s) && DeliverEnabled(s, LookEnd)
    ensures DataInv(DeliverApply(s, LookEnd))
  {
    var evs, id, s' := s.sched.evs, s.sched.evs[0].id, DeliverApply(s, LookEnd);
    RestOf(evs);
    assert OutputInv(s.tasks, s.completions, s.emitted, s'.sched) by {
      forall j | j in s.tasks && j in s.completions && j in s.emitted && !Spoilt(s'.sched, j)
        ensures InFlight(s'.sched, j) == InFlight(s.sched, j)
      {}
    }
    assert FinalInv(s.known, s.completions, s.emitted, s'.sched) by {
      if Removes(evs[0]) {
        assert TakenOut(evs, id);
        NoPayloads(evs[1..], id);
        assert InFlight(s.sched, id) == [];
      }
    }
  }

  lemma PushDelivers(c: Completion, emitted: seq<Option<Output>>, out: Output, rest: seq<Option<Output>>)
    requires DeliveredSoFar(c, emitted, [Some(out)] + rest)
    ensures DeliveredSoFar(c.(outputs := c.outputs + [out]), emitted, rest)
  {
    assert Lift(c.outputs + [out]) == Lift(c.outputs) + [Some(out)];
  }

  lemma PushKeepsOutput(s: State)
    requires RefInv(s.completions.Keys, s.tasks, s.cancellers.Keys, s.sched)
    requires OutputInv(s.tasks, s.completions, s.emitted, s.sched) && DeliverEnabled(s, Push)
    ensures var s' := DeliverApply(s, Push); OutputInv(s'.tasks, s'.completions, s'.emitted, s'.sched)
  {
    var s' := DeliverApply(s, Push);
    forall id | id in s'.tasks && id in s'.completions && id in s'.emitted && !Spoilt(s'.sched, id)
      ensures DeliveredSoFar(s'.completions[id], s'.emitted[id], InFlight(s'.sched, id))
    {
      var rest := Payloads(s.sched.rest, id);
      assert InFlight(s'.sched, id) == rest;
      if id == s.sched.id {
        PushDelivers(s.completions[id], s.emitted[id], s.sched.out, rest);
      } else {
        assert InFlight(s.sched, id) == rest;
      }
    }
  }

  /** A push never reaches a completion that ended by its final event. */
  lemma PushKeepsData(s: State)
    requires CoreInv(s) && DataInv(s) && DeliverEnabled(s, Push)
    ensures DataInv(DeliverApply(s, Push))
  {
    PushKeepsOutput(s);
    assert s.sched.id in s.emitted && !EndedByFinal(s.completions[s.sched.id]);
  }

  lemma UpdateKeepsData(s: State, l: UpdateStep)
    requires CoreInv(s) && DataInv(s) && UpdateEnabled(s, l)
    ensures DataInv(UpdateApply(s, l))
  {
    match l
    case UpdClosed =>
    case UpdBegin =>
    case UpdReply(evs) => UpdReplyKeepsData(s, evs);
    case UpdError(evs) => EngineKeepsFinal(s, evs, FailSnap(false));
    case UpdGone(evs) => EngineKeepsFinal(s, evs, SetClosed);
  }

  lemma LookSkipKeepsData(s: State)
    requires CoreInv(s) && DataInv(s) && DeliverEnabled(s, LookSkip)
    ensures DataInv(DeliverApply(s, LookSkip))
  {
    RestOf(s.sched.evs);
  }

  /** The token is in the scheduler's hand instead of its list. */
  lemma TokenInFlight(s: State, id: nat)
    requires DeliverEnabled(s, LookToken)
    ensures InFlight(DeliverApply(s, LookToken).sched, id) == InFlight(s.sched, id)
  {}

  lemma LookTokenKeepsOutput(s: State)
    requires OutputInv(s.tasks, s.completions, s.emitted, s.sched) && DeliverEnabled(s, LookToken)
    ensures var s' := DeliverApply(s, LookToken); OutputInv(s'.tasks, s'.completions, s'.emitted, s'.sched)
  {
    forall id { TokenInFlight(s, id); }
  }

  lemma LookTokenKeepsData(s: State)
    requires CoreInv(s) && DataInv(s) && DeliverEnabled(s, LookToken)
    ensures DataInv(DeliverApply(s, LookToken))
  {
    RestOf(s.sched.evs);
    LookTokenKeepsOutput(s);
  }

  lemma DeliverKeepsData(s: State, l: DeliverStep)
    requires CoreInv(s) && DataInv(s) && DeliverEnabled(s, l)
    ensures DataInv(DeliverApply(s, l))
  {
    match l
    case LookSkip => LookSkipKeepsData(s);
    case LookEnd => LookEndKeepsData(s);
    case LookToken => LookTokenKeepsData(s);
    case Push => PushKeepsData(s);
    case Delivered =>
  }

  lemma FailNextKeepsData(s: State, id: nat)
    requires CoreInv(s) && DataInv(s) && FailEnabled(s, FailNext(id))
    ensures DataInv(FailApply(s, FailNext(id)))
  {}

  lemma FailKeepsData(s: State, l: FailStep)
    requires CoreInv(s) && DataInv(s) && FailEnabled(s, l)
    ensures DataInv(FailApply(s, l))
  {
    match l
    case SetClosedFlag =>
    case FailRead =>
    case FailNext(id) => FailNextKeepsData(s, id);
    case FailPark =>
    case FailLeave =>
  }

  lemma CancelCallKeepsData(s: State, l: CancelStep)
    requires CoreInv(s) && DataInv(s) && CancelEnabled(s, l) && (l.CancelBegin? || l.CancelDeclined? || l.CancelTook?)
    ensures DataInv(CancelApply(s, l))
  {}

  lemma CancelKeepsData(s: State, l: CancelStep)
    requires CoreInv(s) && DataInv(s) && CancelEnabled(s, l)
    ensures DataInv(CancelApply(s, l))
  {
    if l.CancelBegin? || l.CancelDeclined? || l.CancelTook? {
      CancelCallKeepsData(s, l);
    }
  }

  lemma EndKeepsOutput(s: State)
    requires OutputInv(s.tasks, s.completions, s.emitted, s.sched) && FinishEnabled(s, End)
    ensures var s' := FinishApply(s, End); OutputInv(s'.tasks, s'.completions, s'.emitted, s'.sched)
  {
    assert Pending(FinishApply(s, End).sched) == Pending(s.sched);
  }

  lemma FinishKeepsData(s: State, l: FinishStep)
    requires CoreInv(s) && DataInv(s) && FinishEnabled(s, l)
    ensures DataInv(FinishApply(s, l))
  {
    match l
    case Delete =>
    case End =>
      EndKeepsOutput(s);
      assert Pending(FinishApply(s, End).sched) == Pending(s.sched);
  }

  lemma CancellerEndKeepsData(s: State, l: CancellerStep)
    requires CoreInv(s) && DataInv(s) && CancellerEnabled(s, l) && (l.CTook? || l.CDelete? || l.CFinished?)
    ensures DataInv(CancellerApply(s, l))
  {
    match l
    case CTook(_, _, _) =>
    case CDelete(_) =>
    case CFinished(_) =>
  }

  lemma CancellerKeepsData(s: State, l: CancellerStep)
    requires CoreInv(s) && DataInv(s) && CancellerEnabled(s, l)
    ensures DataInv(CancellerApply(s, l))
  {
    if l.CTook? || l.CDelete? || l.CFinished? {
      CancellerEndKeepsData(s, l);
    }
  }

  /** A fresh id is in no event, no hand and no outputs. */
  lemma FreshId(s: State)
    requires CoreInv(s) && DataInv(s)
    ensures !TakenOut(Pending(s.sched), s.nextId) && InFlight(s.sched, s.nextId) == []
  {
    if TakenOut(Pending(s.sched), s.nextId) { TakenOutMentions(Pending(s.sched), s.nextId); }
    NoPayloads(Pending(s.sched), s.nextId);
    assert s.nextId !in InHand(s.sched);
  }

  lemma PostKeepsData(s: State, l: PostStep)
    requires CoreInv(s) && DataInv(s) && PostEnabled(s, l)
    ensures DataInv(PostApply(s, l))
  {
    FreshId(s);
    match l
    case PostBegin(_) =>
    case PostOk(_) =>
    case PostFail(_, _) =>
    case Nudge(_) =>
    case Spawn(_, _) =>
  }

  lemma CloseKeepsData(s: State, l: CloseStep)
    requires DataInv(s) && CloseEnabled(s, l)
    ensures DataInv(CloseApply(s, l))
  {}

  lemma ReadKeepsData(s: State, l: ReadStep)
    requires CoreInv(s) && DataInv(s) && ReadEnabled(s, l)
    ensures DataInv(ReadApply(s, l))
  {
    match l
    case ReadStart(_, _) =>
    case ReadYield(_) =>
    case ReadEnd(_) =>
  }

  // ----- every step ---------------------------------------------------------------------------

  /** The invariant is inductive: every step of every thread keeps it. */
  lemma StepKeeps(s: State, l: Label)
    requires Inv(s) && Enabled(s, l)
    ensures Inv(Apply(s, l))
  {
    match l
    case Loop(x) => LoopKeepsCore(s, x); LoopKeepsDuty(s, x); LoopKeepsData(s, x);
    case Update(x) => UpdateKeepsCore(s, x); UpdateKeepsDuty(s, x); UpdateKeepsData(s, x);
    case Events(x) => DeliverKeepsCore(s, x); DeliverKeepsDuty(s, x); DeliverKeepsData(s, x);
    case Fail(x) => FailKeepsCore(s, x); FailKeepsDuty(s, x); FailKeepsData(s, x);
    case CancelAll(x) => CancelKeepsCore(s, x); CancelKeepsDuty(s, x); CancelKeepsData(s, x);
    case FinishTask(x) => FinishKeepsCore(s, x); FinishKeepsDuty(s, x); FinishKeepsData(s, x);
    case CancelOne(x) => CancellerKeepsCore(s, x); CancellerKeepsDuty(s, x); CancellerKeepsData(s, x);
    case Post(x) => PostKeepsCore(s, x); PostKeepsDuty(s, x); PostKeepsData(s, x);
    case Close(x) => CloseKeepsCore(s, x); CloseKeepsDuty(s, x); CloseKeepsData(s, x);
    case Read(x) => ReadKeepsCore(s, x); ReadKeepsDuty(s, x); ReadKeepsData(s, x);
  }

  lemma InitHolds(s: State)
    requires Init(s)
    ensures Inv(s)
  {}

  lemma {:induction false} RunKeeps(run: seq<State>, i: nat)
    requires Run(run) && i < |run|
    ensures Inv(run[i])
  {
    if i == 0 {
      InitHolds(run[0]);
    } else {
      RunKeeps(run, i - 1);
      assert Reached(run, i);
      var l :| Takes(run[i - 1], run[i], l);
      StepKeeps(run[i - 1], l);
    }
  }
}
