/**
 The Slots scheduler of slots.go as a labelled transition system.

 A state holds the engine's view of the tasks (`known`), the Go side (the
 task map, the completions, the channels) and the program counter of every
 thread that takes part: the scheduler, one canceller per task whose Post had
 a cancellable context, the Posts and Closes in progress, and the readers of
 TaskCompletion.Outputs. A label names one atomic step; `Enabled` says when it
 can be taken and `Apply` what it does. Sections under Slots.mu that make no
 engine call are one step; an engine call made under it is a step that takes
 the lock and a later one that releases it.
 */
module SlotsProtocol {
  import opened Options

  datatype Output = Output(token: int, text: string)

  /** One entry of an update's events. A token whose text payload does not
      decode carries None; a final whose text does not decode carries false. */
  datatype Event =
    | Token(id: nat, out: Option<Output>)
    | Final(id: nat, ok: bool)
    | Failure(id: nat)

  datatype CancelReply = Cancelled | BadReply | Declined | EngineGone
  datatype Why = ContextDone | SlotsClosed

  /** How a task ended: the pair (res, err) its completion was finished with. */
  datatype Verdict =
    | ByFinal(ok: bool)
    | ByEventError
    | ByBadText
    | ByUpdateError(gone: bool)
    | ByCancel(why: Why, how: CancelReply)

  /** TaskCompletion: `ended` is verdict.Some?, `done` is closed in the same step. */
  datatype Completion = Completion(outputs: seq<Output>, verdict: Option<Verdict>)

  datatype Owner = Free | BySched | ByCanceller(id: nat) | ByPost(p: nat)

  /** What the scheduler goes on with after it has finished a task. */
  datatype Cont =
    | KDeliver(evs: seq<Event>, busy: bool)
    | KFail(pending: set<nat>, exit: bool)
    | KCancel(pending: set<nat>)

  datatype Sched =
    | Park                                                        // the outer select
    | Poll                                                        // the inner select
    | UpdWant                                                     // update, before s.mu
    | UpdCall                                                     // inside the engine's update, under s.mu
    | Deliver(evs: seq<Event>, busy: bool)
    | Pushing(id: nat, out: Output, rest: seq<Event>, more: bool) // task looked up, push still to come
    | SetClosed                                                   // engine gone, closed not yet set
    | FailSnap(leaving: bool)                                     // fail, before it reads the task map
    | Failing(todo: set<nat>, leave: bool)
    | CancelSnap                                                  // cancelAll, before it reads the task map
    | Cancelling(left: set<nat>)
    | CancelCall(cid: nat, left': set<nat>)                       // inside the engine's cancel, under s.mu
    | Finishing(fid: nat, verdict: Verdict, k: Cont)              // finish, before the delete
    | Ending(eid: nat, verdict': Verdict, k': Cont)               // deleted, completion not yet finished
    | Detach | CloseDone | Exited

  datatype Canceller =
    | CWait                    // select on ctx.Done and t.done
    | CStart                   // ctx is done
    | CCall                    // inside the engine's cancel, under s.mu
    | CFinish(r: CancelReply)  // past its engine call, before the delete
    | CEnd(r: CancelReply)     // deleted, completion not yet finished
    | CExit

  datatype Poster = PCall | PNudge(id: nat) | PSpawn(id: nat)
  datatype Closer = ClStop | ClWait
  datatype Reader = Reader(id: nat, got: seq<Output>, finished: bool)

  datatype State = State(
    known: set<nat>,                            // ids the engine holds
    emitted: map<nat, seq<Option<Output>>>,     // token events the engine produced, per posted task
    nextId: nat,
    mu: Owner,
    tasks: set<nat>,                            // keys of Slots.tasks
    closed: bool, wake: bool, stop: bool, done: bool, attached: bool,
    completions: map<nat, Completion>,
    sched: Sched,
    cancellers: map<nat, Canceller>,
    posts: map<nat, Poster>,
    closers: map<nat, Closer>,
    readers: map<nat, Reader>)

  // ----- the engine's event list ---------------------------------------------

  /** The event takes its task out of the engine. */
  predicate Removes(e: Event) { e.Final? || e.Failure? }

  /** The event makes the scheduler finish its task. */
  predicate Terminal(e: Event) { Removes(e) || (e.Token? && e.out.None?) }

  function After(known: set<nat>, evs: seq<Event>): (r: set<nat>)
    ensures r <= known
  {
    if evs == [] then known
    else After(if Removes(evs[0]) then known - {evs[0].id} else known, evs[1..])
  }

  /** The engine reports only on tasks it still holds. */
  predicate Legal(known: set<nat>, evs: seq<Event>) {
    evs == [] ||
    (evs[0].id in known && Legal(if Removes(evs[0]) then known - {evs[0].id} else known, evs[1..]))
  }

  predicate Ends(evs: seq<Event>, id: nat) {
    evs != [] && ((evs[0].id == id && Terminal(evs[0])) || Ends(evs[1..], id))
  }

  function Payloads(evs: seq<Event>, id: nat): seq<Option<Output>> {
    if evs == [] then []
    else (if evs[0].Token? && evs[0].id == id then [evs[0].out] else []) + Payloads(evs[1..], id)
  }

  predicate Mentions(evs: seq<Event>, id: nat) {
    evs != [] && (evs[0].id == id || Mentions(evs[1..], id))
  }

  function Emit(emitted: map<nat, seq<Option<Output>>>, evs: seq<Event>): map<nat, seq<Option<Output>>> {
    map id | id in emitted :: emitted[id] + Payloads(evs, id)
  }

  // ----- steps ---------------------------------------------------------------

  /** loop, and the scheduler's way out. */
  datatype LoopStep = Wake | StopParked | StopPolled | Go | Forget | DoneClose

  /** update. */
  datatype UpdateStep =
    | UpdClosed | UpdBegin
    | UpdReply(evs: seq<Event>)      // a decoded reply
    | UpdError(evs: seq<Event>)      // a guest error or a malformed reply; the events are lost
    | UpdGone(evs: seq<Event>)       // the engine closed or trapped

  /** update, once the reply is in: one look-up an event, and what follows it. */
  datatype DeliverStep = LookSkip | LookEnd | LookToken | Push | Delivered

  /** fail, and the closed flag the loop sets before it when the engine is gone. */
  datatype FailStep = SetClosedFlag | FailRead | FailNext(id: nat) | FailPark | FailLeave

  /** cancelAll, on the scheduler's thread. */
  datatype CancelStep =
    | CancelRead | CancelSkip(id: nat) | CancelBegin(id: nat)
    | CancelDeclined | CancelTook(r: CancelReply, removed: bool) | CancelDone

  /** finish, on the scheduler's thread. */
  datatype FinishStep = Delete | End

  /** A task's canceller: the goroutine Post starts, and cancel on it. */
  datatype CancellerStep =
    | CtxDone(id: nat) | CQuit(id: nat) | CSkip(id: nat) | CBegin(id: nat)
    | CDeclined(id: nat) | CTook(id: nat, r: CancelReply, removed: bool) | CDelete(id: nat) | CFinished(id: nat)

  datatype PostStep =
    | PostBegin(p: nat) | PostOk(p: nat) | PostFail(p: nat, orphan: bool)
    | Nudge(p: nat) | Spawn(p: nat, cancellable: bool)

  datatype CloseStep = CloseFirst(c: nat) | CloseAgain(c: nat) | CloseStop(c: nat) | CloseReturn(c: nat)

  datatype ReadStep = ReadStart(r: nat, id: nat) | ReadYield(r: nat) | ReadEnd(r: nat)

  datatype Label =
    | Loop(loop: LoopStep) | Update(update: UpdateStep) | Events(deliver: DeliverStep)
    | Fail(fail: FailStep) | CancelAll(cancel: CancelStep)
    | FinishTask(finish: FinishStep) | CancelOne(canceller: CancellerStep)
    | Post(post: PostStep) | Close(close: CloseStep) | Read(read: ReadStep)

  /** The engine's contract for a cancel that it did not decline; it declines
      exactly the ids it does not hold. A call that never ran, or trapped, takes
      nothing out. */
  predicate Took(known: set<nat>, id: nat, r: CancelReply, removed: bool) {
    match r
    case Cancelled => id in known && removed
    case BadReply => id in known
    case Declined => false
    case EngineGone => !removed
  }

  function AfterCancel(known: set<nat>, id: nat, removed: bool): set<nat> {
    if removed then known - {id} else known
  }

  /** TaskCompletion.finish: the first verdict stays. */
  function Finish(cs: map<nat, Completion>, id: nat, v: Verdict): (r: map<nat, Completion>)
    requires id in cs
    ensures r.Keys == cs.Keys && r[id].verdict.Some?
  {
    if cs[id].verdict.Some? then cs else cs[id := cs[id].(verdict := Some(v))]
  }

  /** TaskCompletion.push: appends, whether the task has ended or not. */
  function PushTo(cs: map<nat, Completion>, id: nat, out: Output): (r: map<nat, Completion>)
    ensures r.Keys == cs.Keys
  {
    if id in cs then cs[id := cs[id].(outputs := cs[id].outputs + [out])] else cs
  }

  function Resume(k: Cont): Sched {
    match k
    case KDeliver(evs, busy) => Deliver(evs, busy)
    case KFail(pending, exit) => Failing(pending, exit)
    case KCancel(pending) => Cancelling(pending)
  }

  /** The verdict the scheduler finishes a task with on its terminal event. */
  function VerdictOf(e: Event): Verdict
    requires Terminal(e)
  {
    match e
    case Final(_, ok) => ByFinal(ok)
    case Failure(_) => ByEventError
    case Token(_, _) => ByBadText
  }

  predicate LoopEnabled(s: State, l: LoopStep) {
    match l
    case Wake => s.sched.Park? && s.wake
    case StopParked => s.sched.Park? && s.stop
    case StopPolled => s.sched.Poll? && s.stop
    case Go => s.sched.Poll? && !s.stop
    case Forget => s.sched.Detach?
    case DoneClose => s.sched.CloseDone?
  }

  function LoopApply(s: State, l: LoopStep): State
    requires LoopEnabled(s, l)
  {
    match l
    case Wake => s.(wake := false, sched := Poll)
    case StopParked => s.(sched := CancelSnap)
    case StopPolled => s.(sched := CancelSnap)
    case Go => s.(sched := UpdWant)
    case Forget => s.(attached := false, sched := CloseDone)
    case DoneClose => s.(done := true, sched := Exited)
  }

  predicate UpdateEnabled(s: State, l: UpdateStep) {
    match l
    case UpdClosed => s.sched.UpdWant? && s.mu.Free? && s.closed
    case UpdBegin => s.sched.UpdWant? && s.mu.Free? && !s.closed
    case UpdReply(evs) => s.sched.UpdCall? && Legal(s.known, evs)
    case UpdError(evs) => s.sched.UpdCall? && Legal(s.known, evs)
    case UpdGone(evs) => s.sched.UpdCall? && Legal(s.known, evs)
  }

  function UpdateApply(s: State, l: UpdateStep): State
    requires UpdateEnabled(s, l)
  {
    match l
    case UpdClosed => s.(sched := Park)
    case UpdBegin => s.(mu := BySched, sched := UpdCall)
    case UpdReply(evs) =>
      s.(mu := Free, known := After(s.known, evs), emitted := Emit(s.emitted, evs),
         sched := Deliver(evs, After(s.known, evs) != {}))
    case UpdError(evs) =>
      s.(mu := Free, known := After(s.known, evs), emitted := Emit(s.emitted, evs), sched := FailSnap(false))
    case UpdGone(evs) =>
      s.(mu := Free, known := After(s.known, evs), emitted := Emit(s.emitted, evs), sched := SetClosed)
  }

  predicate DeliverEnabled(s: State, l: DeliverStep) {
    match l
    case LookSkip => s.sched.Deliver? && s.mu.Free? && s.sched.evs != [] && s.sched.evs[0].id !in s.tasks
    case LookEnd =>
      s.sched.Deliver? && s.mu.Free? && s.sched.evs != [] && s.sched.evs[0].id in s.tasks && Terminal(s.sched.evs[0])
    case LookToken =>
      s.sched.Deliver? && s.mu.Free? && s.sched.evs != [] && s.sched.evs[0].id in s.tasks && !Terminal(s.sched.evs[0])
    case Push => s.sched.Pushing?
    case Delivered => s.sched.Deliver? && s.sched.evs == []
  }

  function DeliverApply(s: State, l: DeliverStep): State
    requires DeliverEnabled(s, l)
  {
    match l
    case LookSkip => s.(sched := Deliver(s.sched.evs[1..], s.sched.busy))
    case LookEnd =>
      s.(sched := Finishing(s.sched.evs[0].id, VerdictOf(s.sched.evs[0]), KDeliver(s.sched.evs[1..], s.sched.busy)))
    case LookToken => s.(sched := Pushing(s.sched.evs[0].id, s.sched.evs[0].out.value, s.sched.evs[1..], s.sched.busy))
    case Push =>
      s.(completions := PushTo(s.completions, s.sched.id, s.sched.out), sched := Deliver(s.sched.rest, s.sched.more))
    case Delivered => s.(sched := if s.sched.busy then Poll else Park)
  }

  predicate FailEnabled(s: State, l: FailStep) {
    match l
    case SetClosedFlag => s.sched.SetClosed? && s.mu.Free?
    case FailRead => s.sched.FailSnap? && s.mu.Free?
    case FailNext(id) => s.sched.Failing? && id in s.sched.todo
    case FailPark => s.sched.Failing? && s.sched.todo == {} && !s.sched.leave
    case FailLeave => s.sched.Failing? && s.sched.todo == {} && s.sched.leave
  }

  function FailApply(s: State, l: FailStep): State
    requires FailEnabled(s, l)
  {
    match l
    case SetClosedFlag => s.(closed := true, sched := FailSnap(true))
    case FailRead => s.(sched := Failing(s.tasks, s.sched.leaving))
    case FailNext(id) =>
      s.(sched := Finishing(id, ByUpdateError(s.sched.leave), KFail(s.sched.todo - {id}, s.sched.leave)))
    case FailPark => s.(sched := Park)
    case FailLeave => s.(sched := Detach)
  }

  predicate CancelEnabled(s: State, l: CancelStep) {
    match l
    case CancelRead => s.sched.CancelSnap? && s.mu.Free?
    case CancelSkip(id) => s.sched.Cancelling? && id in s.sched.left && s.mu.Free? && id !in s.tasks
    case CancelBegin(id) => s.sched.Cancelling? && id in s.sched.left && s.mu.Free? && id in s.tasks
    case CancelDeclined => s.sched.CancelCall? && s.sched.cid !in s.known
    case CancelTook(r, removed) => s.sched.CancelCall? && Took(s.known, s.sched.cid, r, removed)
    case CancelDone => s.sched.Cancelling? && s.sched.left == {}
  }

  function CancelApply(s: State, l: CancelStep): State
    requires CancelEnabled(s, l)
  {
    match l
    case CancelRead => s.(sched := Cancelling(s.tasks))
    case CancelSkip(id) => s.(sched := Cancelling(s.sched.left - {id}))
    case CancelBegin(id) => s.(mu := BySched, sched := CancelCall(id, s.sched.left - {id}))
    case CancelDeclined => s.(mu := Free, sched := Cancelling(s.sched.left'))
    case CancelTook(r, removed) =>
      s.(mu := Free, known := AfterCancel(s.known, s.sched.cid, removed),
         sched := Finishing(s.sched.cid, ByCancel(SlotsClosed, r), KCancel(s.sched.left')))
    case CancelDone => s.(sched := Detach)
  }

  predicate FinishEnabled(s: State, l: FinishStep) {
    match l
    case Delete => s.sched.Finishing? && s.mu.Free?
    case End => s.sched.Ending? && s.sched.eid in s.completions
  }

  function FinishApply(s: State, l: FinishStep): State
    requires FinishEnabled(s, l)
  {
    match l
    case Delete => s.(tasks := s.tasks - {s.sched.fid}, sched := Ending(s.sched.fid, s.sched.verdict, s.sched.k))
    case End =>
      s.(completions := Finish(s.completions, s.sched.eid, s.sched.verdict'), sched := Resume(s.sched.k'))
  }

  predicate CancellerEnabled(s: State, l: CancellerStep) {
    match l
    case CtxDone(id) => id in s.cancellers && s.cancellers[id].CWait?
    case CQuit(id) =>
      id in s.cancellers && s.cancellers[id].CWait? && id in s.completions && s.completions[id].verdict.Some?
    case CSkip(id) => id in s.cancellers && s.cancellers[id].CStart? && s.mu.Free? && id !in s.tasks
    case CBegin(id) => id in s.cancellers && s.cancellers[id].CStart? && s.mu.Free? && id in s.tasks
    case CDeclined(id) => id in s.cancellers && s.cancellers[id].CCall? && id !in s.known
    case CTook(id, r, removed) => id in s.cancellers && s.cancellers[id].CCall? && Took(s.known, id, r, removed)
    case CDelete(id) => id in s.cancellers && s.cancellers[id].CFinish? && s.mu.Free?
    case CFinished(id) => id in s.cancellers && s.cancellers[id].CEnd? && id in s.completions
  }

  function CancellerApply(s: State, l: CancellerStep): State
    requires CancellerEnabled(s, l)
  {
    match l
    case CtxDone(id) => s.(cancellers := s.cancellers[id := CStart])
    case CQuit(id) => s.(cancellers := s.cancellers[id := CExit])
    case CSkip(id) => s.(cancellers := s.cancellers[id := CExit])
    case CBegin(id) => s.(mu := ByCanceller(id), cancellers := s.cancellers[id := CCall])
    case CDeclined(id) => s.(mu := Free, cancellers := s.cancellers[id := CExit])
    case CTook(id, r, removed) =>
      s.(mu := Free, known := AfterCancel(s.known, id, removed), cancellers := s.cancellers[id := CFinish(r)])
    case CDelete(id) =>
      s.(tasks := s.tasks - {id}, cancellers := s.cancellers[id := CEnd(s.cancellers[id].r)])
    case CFinished(id) =>
      s.(completions := Finish(s.completions, id, ByCancel(ContextDone, s.cancellers[id].r)),
         cancellers := s.cancellers[id := CExit])
  }

  predicate PostEnabled(s: State, l: PostStep) {
    match l
    case PostBegin(p) => p !in s.posts && s.mu.Free? && !s.closed
    case PostOk(p) => p in s.posts && s.posts[p].PCall?
    case PostFail(p, orphan) => p in s.posts && s.posts[p].PCall?
    case Nudge(p) => p in s.posts && s.posts[p].PNudge?
    case Spawn(p, cancellable) => p in s.posts && s.posts[p].PSpawn?
  }

  function PostApply(s: State, l: PostStep): State
    requires PostEnabled(s, l)
  {
    match l
    case PostBegin(p) => s.(mu := ByPost(p), posts := s.posts[p := PCall])
    case PostOk(p) =>
      s.(mu := Free, known := s.known + {s.nextId}, tasks := s.tasks + {s.nextId}, nextId := s.nextId + 1,
         emitted := s.emitted[s.nextId := []],
         completions := s.completions[s.nextId := Completion([], None)],
         posts := s.posts[p := PNudge(s.nextId)])
    case PostFail(p, orphan) =>
      // The engine may have queued a task whose id a malformed reply lost.
      s.(mu := Free, known := if orphan then s.known + {s.nextId} else s.known, nextId := s.nextId + 1,
         posts := s.posts - {p})
    case Nudge(p) => s.(wake := true, posts := s.posts[p := PSpawn(s.posts[p].id)])
    case Spawn(p, cancellable) =>
      s.(cancellers := if cancellable && s.posts[p].id !in s.cancellers
                       then s.cancellers[s.posts[p].id := CWait] else s.cancellers,
         posts := s.posts - {p})
  }

  predicate CloseEnabled(s: State, l: CloseStep) {
    match l
    case CloseFirst(c) => c !in s.closers && s.mu.Free? && !s.closed
    case CloseAgain(c) => c !in s.closers && s.mu.Free? && s.closed
    case CloseStop(c) => c in s.closers && s.closers[c].ClStop?
    case CloseReturn(c) => c in s.closers && s.closers[c].ClWait? && s.done
  }

  function CloseApply(s: State, l: CloseStep): State
    requires CloseEnabled(s, l)
  {
    match l
    case CloseFirst(c) => s.(closed := true, closers := s.closers[c := ClStop])
    case CloseAgain(c) => s.(closers := s.closers[c := ClWait])
    case CloseStop(c) => s.(stop := true, closers := s.closers[c := ClWait])
    case CloseReturn(c) => s.(closers := s.closers - {c})
  }

  predicate ReadEnabled(s: State, l: ReadStep) {
    match l
    case ReadStart(r, id) => r !in s.readers && id in s.completions
    case ReadYield(r) =>
      r in s.readers && !s.readers[r].finished && s.readers[r].id in s.completions &&
      |s.readers[r].got| < |s.completions[s.readers[r].id].outputs|
    case ReadEnd(r) =>
      r in s.readers && !s.readers[r].finished && s.readers[r].id in s.completions &&
      |s.readers[r].got| >= |s.completions[s.readers[r].id].outputs| &&
      s.completions[s.readers[r].id].verdict.Some?
  }

  function ReadApply(s: State, l: ReadStep): State
    requires ReadEnabled(s, l)
  {
    match l
    case ReadStart(r, id) => s.(readers := s.readers[r := Reader(id, [], false)])
    case ReadYield(r) =>
      var rd := s.readers[r];
      s.(readers := s.readers[r := rd.(got := rd.got + [s.completions[rd.id].outputs[|rd.got|]])])
    case ReadEnd(r) => s.(readers := s.readers[r := s.readers[r].(finished := true)])
  }
}
