/**
 The inductive invariant of the Slots scheduler, one predicate per concern.
 Each predicate takes just the parts of the state it speaks of.
 */
module SlotsInvariant {
  import opened Options
  import opened SlotsProtocol
  import opened SlotsRuns

  // ----- who holds Slots.mu, and which ids there are ---------------------------

  /** A thread holds Slots.mu across a step exactly when it is inside an engine call. */
  ghost predicate MutexInv(mu: Owner, sc: Sched, cancellers: map<nat, Canceller>, posts: map<nat, Poster>) {
    && (mu.BySched? <==> sc.UpdCall? || sc.CancelCall?)
    && (forall id :: id in cancellers ==> (cancellers[id].CCall? <==> mu == ByCanceller(id)))
    && (mu.ByCanceller? ==> mu.id in cancellers)
    && (forall p :: p in posts ==> (posts[p].PCall? <==> mu == ByPost(p)))
    && (mu.ByPost? ==> mu.p in posts)
  }

  /** The task the scheduler has in hand. */
  function InHand(sc: Sched): set<nat> {
    match sc
    case Finishing(id, _, _) => {id}
    case Ending(id, _, _) => {id}
    case Pushing(id, _, _, _) => {id}
    case CancelCall(id, _) => {id}
    case _ => {}
  }

  /** The tasks the scheduler has listed to fail or to cancel. */
  function Listed(sc: Sched): set<nat> {
    match sc
    case Failing(todo, _) => todo
    case Cancelling(left) => left
    case CancelCall(_, left) => left
    case Finishing(_, _, k) => if k.KDeliver? then {} else k.pending
    case Ending(_, _, k) => if k.KDeliver? then {} else k.pending
    case _ => {}
  }

  ghost predicate IdInv(nextId: nat, known: set<nat>, posted: set<nat>, emitting: set<nat>) {
    && (forall id :: id in known ==> id < nextId)
    && (forall id :: id in posted ==> id < nextId)
    && emitting == posted
  }

  ghost predicate RefInv(posted: set<nat>, tasks: set<nat>, cancelled: set<nat>, sc: Sched) {
    tasks <= posted && cancelled <= posted && InHand(sc) <= posted && Listed(sc) <= posted
  }

  ghost predicate PostRefInv(posted: set<nat>, posts: map<nat, Poster>) {
    forall p :: p in posts && !posts[p].PCall? ==> posts[p].id in posted
  }

  /** A task in the map has not ended. */
  ghost predicate HeldInv(tasks: set<nat>, completions: map<nat, Completion>) {
    forall id :: id in tasks && id in completions ==> completions[id].verdict.None?
  }

  /** A task under an engine cancel is in the map; one past its delete is not. */
  ghost predicate InMapInv(tasks: set<nat>, sc: Sched, cancellers: map<nat, Canceller>) {
    && (sc.CancelCall? ==> sc.cid in tasks)
    && (sc.Ending? ==> sc.eid !in tasks)
    && (forall id :: id in cancellers && cancellers[id].CCall? ==> id in tasks)
    && (forall id :: id in cancellers && cancellers[id].CEnd? ==> id !in tasks)
  }

  // ----- no task is lost --------------------------------------------------------

  predicate ContOwes(k: Cont, tasks: set<nat>, id: nat) {
    match k
    case KDeliver(evs, _) => id in tasks && Ends(evs, id)
    case KFail(pending, _) => id in pending
    case KCancel(_) => false
  }

  /** The scheduler is committed to finish `id`: it carries the task's terminal
      event, or it is failing the batch the task is in, or it is finishing it. */
  predicate SchedOwes(sc: Sched, tasks: set<nat>, id: nat) {
    match sc
    case Deliver(evs, _) => id in tasks && Ends(evs, id)
    case Pushing(_, _, rest, _) => id in tasks && Ends(rest, id)
    case SetClosed => id in tasks
    case FailSnap(_) => id in tasks
    case Failing(todo, _) => id in todo
    case Finishing(i, _, k) => i == id || ContOwes(k, tasks, id)
    case Ending(i, _, k) => i == id || ContOwes(k, tasks, id)
    case _ => false
  }

  /** The task's canceller is past its engine call and has still to finish it. */
  predicate CancellerOwes(cancellers: map<nat, Canceller>, id: nat) {
    id in cancellers && (cancellers[id].CFinish? || cancellers[id].CEnd?)
  }

  predicate Accounted(known: set<nat>, tasks: set<nat>, sc: Sched, cancellers: map<nat, Canceller>, id: nat) {
    (id in known && id in tasks) || SchedOwes(sc, tasks, id) || CancellerOwes(cancellers, id)
  }

  ghost predicate NoTaskLost(known: set<nat>, tasks: set<nat>, completions: map<nat, Completion>,
                             sc: Sched, cancellers: map<nat, Canceller>)
  {
    forall id :: id in completions && completions[id].verdict.None? ==> Accounted(known, tasks, sc, cancellers, id)
  }

  // ----- shutdown -----------------------------------------------------------------

  /** The scheduler is on its way out. */
  predicate Leaving(sc: Sched) {
    match sc
    case FailSnap(leaving) => leaving
    case Failing(_, leave) => leave
    case CancelSnap => true
    case Cancelling(_) => true
    case CancelCall(_, _) => true
    case Finishing(_, _, k) => k.KCancel? || (k.KFail? && k.exit)
    case Ending(_, _, k) => k.KCancel? || (k.KFail? && k.exit)
    case Detach => true
    case CloseDone => true
    case Exited => true
    case _ => false
  }

  /** On its way out, the scheduler still has to see to `id` if it is held. */
  predicate StillToDrop(sc: Sched, id: nat) {
    sc.FailSnap? || sc.CancelSnap? || id in Listed(sc) ||
    (sc.Finishing? && sc.fid == id) || (sc.CancelCall? && sc.cid == id)
  }

  /** The scheduler has returned, or does nothing more than detach and close done. */
  predicate Quiet(sc: Sched) { sc.Detach? || sc.CloseDone? || sc.Exited? }

  ghost predicate StopInv(closed: bool, stop: bool, closers: map<nat, Closer>) {
    && (stop ==> closed)
    && (forall c :: c in closers && closers[c].ClStop? ==> closed && !stop)
    && (forall c, d :: c in closers && d in closers && closers[c].ClStop? && closers[d].ClStop? ==> c == d)
  }

  ghost predicate DoneInv(closed: bool, done: bool, attached: bool, mu: Owner, sc: Sched) {
    && (done <==> sc.Exited?)
    && (attached <==> !sc.CloseDone? && !sc.Exited?)
    && (mu.ByPost? ==> !closed)
    && (Leaving(sc) ==> closed)
  }

  /** Whatever the map still holds while the scheduler leaves is either still to
      be dropped by it or in the hands of a canceller past its engine call. */
  ghost predicate LeavingInv(tasks: set<nat>, sc: Sched, cancellers: map<nat, Canceller>) {
    Leaving(sc) ==>
      forall id :: id in tasks ==> StillToDrop(sc, id) || (id in cancellers && cancellers[id].CFinish?)
  }

  // ----- no lost wake-up ------------------------------------------------------------

  predicate ContLooks(k: Cont, inHand: nat, id: nat) {
    match k
    case KDeliver(_, busy) => busy
    case KFail(pending, exit) => exit || inHand == id || id in pending
    case KCancel(_) => true
  }

  /** The scheduler looks at the engine again, or drops `id`, before it parks. */
  predicate WillLook(sc: Sched, id: nat) {
    match sc
    case Park => false
    case Deliver(_, busy) => busy
    case Pushing(_, _, _, more) => more
    case Failing(todo, leave) => leave || id in todo
    case Finishing(i, _, k) => ContLooks(k, i, id)
    case Ending(i, _, k) => ContLooks(k, i, id)
    case _ => true
  }

  /** A Post has inserted `id` and has still to nudge the scheduler. */
  ghost predicate NudgeDue(posts: map<nat, Poster>, id: nat) {
    exists p :: p in posts && posts[p] == PNudge(id)
  }

  ghost predicate WakeInv(closed: bool, tasks: set<nat>, known: set<nat>, wake: bool, sc: Sched, posts: map<nat, Poster>) {
    !closed ==>
      forall id :: id in tasks && id in known ==> wake || WillLook(sc, id) || NudgeDue(posts, id)
  }

  // ----- outputs ---------------------------------------------------------------------

  function Lift(outs: seq<Output>): (r: seq<Option<Output>>)
    ensures |r| == |outs| && forall i :: 0 <= i < |r| ==> r[i] == Some(outs[i])
  {
    seq(|outs|, i requires 0 <= i < |outs| => Some(outs[i]))
  }

  /** The events the scheduler has still to look at. */
  function Pending(sc: Sched): seq<Event> {
    match sc
    case Deliver(evs, _) => evs
    case Pushing(_, _, rest, _) => rest
    case Finishing(_, _, k) => if k.KDeliver? then k.evs else []
    case Ending(_, _, k) => if k.KDeliver? then k.evs else []
    case _ => []
  }

  /** The token payloads of `id` on their way to its completion. */
  function InFlight(sc: Sched, id: nat): seq<Option<Output>> {
    (if sc.Pushing? && sc.id == id then [Some(sc.out)] else []) + Payloads(Pending(sc), id)
  }

  /** An update failed after the engine had produced events for the batch `id` is
      in, or a payload of `id` did not decode: nothing is claimed of its outputs. */
  predicate Spoilt(sc: Sched, id: nat) {
    match sc
    case SetClosed => true
    case FailSnap(_) => true
    case Failing(todo, _) => id in todo
    case Finishing(i, v, k) => (i == id && !v.ByFinal?) || (k.KFail? && id in k.pending)
    case Ending(i, v, k) => k.KFail? && id in k.pending
    case _ => false
  }

  /** Some event of the list takes `id` out of the engine. */
  predicate TakenOut(evs: seq<Event>, id: nat) {
    evs != [] && ((evs[0].id == id && Removes(evs[0])) || TakenOut(evs[1..], id))
  }

  /** After the event that takes a task out of the engine there is none for it. */
  predicate Ordered(evs: seq<Event>) {
    evs == [] || ((Removes(evs[0]) ==> !Mentions(evs[1..], evs[0].id)) && Ordered(evs[1..]))
  }

  ghost predicate EventInv(known: set<nat>, nextId: nat, sc: Sched) {
    && Ordered(Pending(sc))
    && (forall id: nat :: Mentions(Pending(sc), id) ==> id < nextId)
    && (forall id :: id in known ==> !TakenOut(Pending(sc), id))
  }

  /** Neither the engine nor the scheduler's list has anything more for `id`. */
  predicate Over(known: set<nat>, sc: Sched, id: nat) {
    id !in known && !Mentions(Pending(sc), id) && !(sc.Pushing? && sc.id == id)
  }

  /** Outputs and the payloads in flight make up what the engine emitted. */
  predicate DeliveredSoFar(c: Completion, emitted: seq<Option<Output>>, inFlight: seq<Option<Output>>) {
    Lift(c.outputs) + inFlight == emitted
  }

  ghost predicate OutputInv(tasks: set<nat>, completions: map<nat, Completion>,
                            emitted: map<nat, seq<Option<Output>>>, sc: Sched)
  {
    forall id :: id in tasks && id in completions && id in emitted && !Spoilt(sc, id) ==>
      DeliveredSoFar(completions[id], emitted[id], InFlight(sc, id))
  }

  predicate EndedByFinal(c: Completion) { c.verdict.Some? && c.verdict.value.ByFinal? }

  /** The task has had its final event: delivered, being acted on, or recorded. */
  predicate AtFinal(completions: map<nat, Completion>, sc: Sched, id: nat)
    requires id in completions
  {
    || EndedByFinal(completions[id])
    || (sc.Finishing? && sc.fid == id && sc.verdict.ByFinal?)
    || (sc.Ending? && sc.eid == id && sc.verdict'.ByFinal?)
  }

  ghost predicate FinalInv(known: set<nat>, completions: map<nat, Completion>,
                           emitted: map<nat, seq<Option<Output>>>, sc: Sched)
  {
    forall id :: id in completions && id in emitted && AtFinal(completions, sc, id) ==>
      Over(known, sc, id) && DeliveredSoFar(completions[id], emitted[id], [])
  }

  /** A reader has yielded a prefix of the outputs, and stops only once the task has ended. */
  ghost predicate ReaderOk(rd: Reader, c: Completion) {
    && rd.got <= c.outputs
    && (rd.finished ==> c.verdict.Some?)
    && (rd.finished && EndedByFinal(c) ==> rd.got == c.outputs)
  }

  ghost predicate ReaderInv(readers: map<nat, Reader>, completions: map<nat, Completion>) {
    forall r :: r in readers ==> readers[r].id in completions && ReaderOk(readers[r], completions[readers[r].id])
  }

  /** The lock, the ids and the map. */
  ghost predicate CoreInv(s: State) {
    && MutexInv(s.mu, s.sched, s.cancellers, s.posts)
    && IdInv(s.nextId, s.known, s.completions.Keys, s.emitted.Keys)
    && RefInv(s.completions.Keys, s.tasks, s.cancellers.Keys, s.sched)
    && PostRefInv(s.completions.Keys, s.posts)
    && HeldInv(s.tasks, s.completions)
    && InMapInv(s.tasks, s.sched, s.cancellers)
  }

  /** What is owed: to every task its end, to the scheduler its wake-up, to Close its done. */
  ghost predicate DutyInv(s: State) {
    && NoTaskLost(s.known, s.tasks, s.completions, s.sched, s.cancellers)
    && StopInv(s.closed, s.stop, s.closers)
    && DoneInv(s.closed, s.done, s.attached, s.mu, s.sched)
    && LeavingInv(s.tasks, s.sched, s.cancellers)
    && WakeInv(s.closed, s.tasks, s.known, s.wake, s.sched, s.posts)
  }

  /** The outputs and their readers. */
  ghost predicate DataInv(s: State) {
    && EventInv(s.known, s.nextId, s.sched)
    && OutputInv(s.tasks, s.completions, s.emitted, s.sched)
    && FinalInv(s.known, s.completions, s.emitted, s.sched)
    && ReaderInv(s.readers, s.completions)
  }

  ghost predicate Inv(s: State) { CoreInv(s) && DutyInv(s) && DataInv(s) }
}
