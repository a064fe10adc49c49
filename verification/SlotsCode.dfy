/**
 slots.go as it runs on one thread: the fields that its methods change, and the
 loops of update, fail and cancelAll. What a loop does is stated with the
 functions of `SlotsProtocol`; the lemmas at the end show that the scheduler's
 steps there do the same when no other thread comes between them.
 */
module SlotsCode {
  import opened Options
  import opened SlotsProtocol
  import opened SlotsRuns
  import opened SlotsTheorems

  /** What Outputs does next at an index: hand an output over, wait, or return. */
  datatype Turn = Yield(out: Output) | WaitForMore | Return

  class TaskCompletion {
    const id: nat
    var outputs: seq<Output>
    var ended: bool
    var verdict: Option<Verdict>   // res and err
    var done: bool                 // the channel is closed

    ghost predicate Valid()
      reads this
    {
      ended == verdict.Some? && done == ended
    }

    ghost function Value(): Completion
      reads this
    {
      Completion(outputs, verdict)
    }

    constructor (taskId: nat)
      ensures Valid() && id == taskId && Value() == Completion([], None)
    {
      id := taskId;
      outputs, ended, verdict, done := [], false, None, false;
    }

    method Push(out: Output)
      requires Valid()
      modifies this`outputs
      ensures Valid() && Value() == old(Value()).(outputs := old(outputs) + [out])
    {
      outputs := outputs + [out];
    }

    /** The first verdict stays, and done is closed once. */
    method Finish(v: Verdict)
      requires Valid()
      modifies this
      ensures Valid() && Value() == if old(ended) then old(Value()) else old(Value()).(verdict := Some(v))
    {
      if ended {
        return;
      }
      ended := true;
      verdict := Some(v);
      assert !done;
      done := true;
    }

    /** Result: ErrTaskRunning is None. */
    method Result() returns (v: Option<Verdict>)
      requires Valid()
      ensures v == verdict
    {
      if done {
        return verdict;
      }
      return None;
    }

    /** One round of the iterator of Outputs is the next step of a reader of the protocol that
        has yielded i outputs, if there is one; otherwise it waits. */
    method Turn(i: nat, ghost s: State, ghost r: nat) returns (turn: Turn)
      requires Valid() && r in s.readers && !s.readers[r].finished && s.readers[r].id == id && |s.readers[r].got| == i
      requires id in s.completions && s.completions[id] == Value()
      ensures turn.Yield? ==>
                ReadEnabled(s, ReadYield(r)) && ReadApply(s, ReadYield(r)).readers[r].got == s.readers[r].got + [turn.out]
      ensures turn.Return? ==> ReadEnabled(s, ReadEnd(r))
      ensures turn.WaitForMore? ==> !ReadEnabled(s, ReadYield(r)) && !ReadEnabled(s, ReadEnd(r))
    {
      if i >= |outputs| && !ended {
        return WaitForMore;
      }
      if i >= |outputs| {
        return Return;
      }
      return Yield(outputs[i]);
    }
  }

  /** The tasks held and every completion, after the events of one update. */
  datatype Book = Book(held: set<nat>, completions: map<nat, Completion>)

  function AfterEvent(b: Book, ev: Event): (b': Book)
    requires b.held <= b.completions.Keys
    ensures b'.held <= b'.completions.Keys
  {
    if ev.id !in b.held then b
    else if Terminal(ev) then Book(b.held - {ev.id}, Finish(b.completions, ev.id, VerdictOf(ev)))
    else Book(b.held, PushTo(b.completions, ev.id, ev.out.value))
  }

  function AfterEvents(b: Book, evs: seq<Event>): Book
    requires b.held <= b.completions.Keys
    decreases |evs|
  {
    if evs == [] then b else AfterEvents(AfterEvent(b, evs[0]), evs[1..])
  }

  /** What the engine answers to the cancel of a task; it declines what it has no answer for. */
  function ReplyTo(replies: map<nat, CancelReply>, id: nat): CancelReply {
    if id in replies then replies[id] else Declined
  }

  /** Every completion of `held`, `pending` aside, is ended, with v unless it was already. */
  ghost predicate AllFinished(was: map<nat, Completion>, now: map<nat, Completion>, held: set<nat>, pending: set<nat>, v: Verdict) {
    && now.Keys == was.Keys
    && forall id :: id in was ==>
         (now[id] == if id in held && id !in pending && was[id].verdict.None? then was[id].(verdict := Some(v)) else was[id])
  }

  lemma FinishedStep(was: map<nat, Completion>, now: map<nat, Completion>, held: set<nat>, pending: set<nat>, id: nat, v: Verdict)
    requires id in was && id in pending && pending <= held && AllFinished(was, now, held, pending, v)
    ensures AllFinished(was, Finish(now, id, v), held, pending - {id}, v)
  {}

  /** Of the tasks held before, those still to be cancelled and those the engine declined. */
  ghost predicate StillHeld(now: set<nat>, held: set<nat>, pending: set<nat>, replies: map<nat, CancelReply>) {
    forall id :: id in now <==> id in pending || (id in held && ReplyTo(replies, id).Declined?)
  }

  /** Every completion of `held`, `pending` aside, is ended by its cancel, unless the engine
      declined it or it was ended already. */
  ghost predicate AllCancelled(was: map<nat, Completion>, now: map<nat, Completion>, held: set<nat>, pending: set<nat>,
                               why: Why, replies: map<nat, CancelReply>) {
    && now.Keys == was.Keys
    && forall id :: id in was ==>
         (now[id] == if id in held && id !in pending && !ReplyTo(replies, id).Declined? && was[id].verdict.None?
                     then was[id].(verdict := Some(ByCancel(why, ReplyTo(replies, id)))) else was[id])
  }

  lemma CancelledStep(was: map<nat, Completion>, now: map<nat, Completion>, held: set<nat>, pending: set<nat>, id: nat,
                      why: Why, replies: map<nat, CancelReply>)
    requires id in was && id in pending && pending <= held && AllCancelled(was, now, held, pending, why, replies)
    ensures AllCancelled(was, if ReplyTo(replies, id).Declined? then now else Finish(now, id, ByCancel(why, ReplyTo(replies, id))),
                         held, pending - {id}, why, replies)
  {}

  class Slots {
    var tasks: map<nat, TaskCompletion>
    var closed: bool
    var wake: bool
    var stop: bool
    ghost var all: map<nat, TaskCompletion>   // every task ever posted

    ghost predicate Valid()
      reads this, all.Values
    {
      && (forall id :: id in all ==> all[id].id == id && all[id].Valid())
      && (forall id :: id in tasks ==> id in all && tasks[id] == all[id])
      && (stop ==> closed)
    }

    ghost function Completions(): (cs: map<nat, Completion>)
      reads this, all.Values
      ensures cs.Keys == all.Keys
    {
      map id | id in all :: all[id].Value()
    }

    ghost function Books(): Book
      reads this, all.Values
    {
      Book(tasks.Keys, Completions())
    }

    constructor ()
      ensures Valid() && tasks == map[] && all == map[] && !closed && !wake && !stop
    {
      tasks, closed, wake, stop := map[], false, false, false;
      all := map[];
    }

    /** The wake channel holds one token. */
    method Nudge()
      modifies this`wake
      ensures wake
    {
      if !wake {
        wake := true;
      }
    }

    /** Post, once the engine has answered with an id it has not used before. */
    method Insert(id: nat) returns (t: TaskCompletion)
      requires Valid() && !closed && id !in all
      modifies this
      ensures Valid() && fresh(t) && t.id == id && wake
      ensures tasks == old(tasks)[id := t] && all == old(all)[id := t] && closed == old(closed) && stop == old(stop)
      ensures Completions() == old(Completions())[id := Completion([], None)]
    {
      t := new TaskCompletion(id);
      tasks := tasks[id := t];
      all := all[id := t];
      Nudge();
    }

    /** Close, up to its wait for done: stop is closed by the first one only. */
    method BeginClose() returns (first: bool)
      requires Valid()
      modifies this`closed, this`stop
      ensures Valid() && closed && first == !old(closed) && stop == (old(stop) || first)
    {
      if closed {
        return false;
      }
      closed := true;
      assert !stop;
      stop := true;
      return true;
    }

    /** finish: the task is forgotten, then its completion ended. */
    method FinishTask(t: TaskCompletion, v: Verdict)
      requires Valid() && t.id in all && all[t.id] == t
      modifies this`tasks, t
      ensures Valid() && tasks == old(tasks) - {t.id}
      ensures Completions() == Finish(old(Completions()), t.id, v)
    {
      tasks := tasks - {t.id};
      t.Finish(v);
    }

    method PushOutput(t: TaskCompletion, out: Output)
      requires Valid() && t.id in all && all[t.id] == t
      modifies t
      ensures Valid() && Completions() == PushTo(old(Completions()), t.id, out)
    {
      t.Push(out);
    }

    /** One round of the loop of update over a reply's events. */
    method DeliverOne(ev: Event)
      requires Valid()
      modifies this`tasks, all.Values
      ensures Valid() && Books() == AfterEvent(old(Books()), ev)
    {
      if ev.id !in tasks {
        return;
      }
      var t := tasks[ev.id];
      if ev.Token? && ev.out.Some? {
        PushOutput(t, ev.out.value);
      } else {
        FinishTask(t, VerdictOf(ev));
      }
    }

    method Deliver(evs: seq<Event>)
      requires Valid()
      modifies this`tasks, all.Values
      ensures Valid() && Books() == AfterEvents(old(Books()), evs)
    {
      var i := 0;
      while i < |evs|
        invariant 0 <= i <= |evs| && Valid()
        invariant AfterEvents(Books(), evs[i..]) == AfterEvents(old(Books()), evs)
      {
        assert evs[i..][0] == evs[i] && evs[i..][1..] == evs[i + 1..];
        DeliverOne(evs[i]);
        i := i + 1;
      }
    }

    /** One round of the loop of fail; `held` were the tasks at its start, `was` their completions. */
    method FailOne(id: nat, v: Verdict, ghost was: map<nat, Completion>, ghost held: set<nat>)
      requires Valid() && id in tasks && tasks.Keys <= held <= was.Keys
      requires AllFinished(was, Completions(), held, tasks.Keys, v)
      modifies this`tasks, all.Values
      ensures Valid() && tasks.Keys == old(tasks.Keys) - {id}
      ensures AllFinished(was, Completions(), held, tasks.Keys, v)
    {
      FinishedStep(was, Completions(), held, tasks.Keys, id, v);
      FinishTask(tasks[id], v);
    }

    /** The loop of fail. */
    method Fail(v: Verdict)
      requires Valid()
      modifies this`tasks, all.Values
      ensures Valid() && tasks.Keys == {}
      ensures AllFinished(old(Completions()), Completions(), old(tasks.Keys), {}, v)
    {
      var pending := tasks.Keys;
      ghost var was, held := Completions(), pending;
      while pending != {}
        invariant Valid() && tasks.Keys == pending && pending <= held <= was.Keys
        invariant AllFinished(was, Completions(), held, pending, v)
        decreases |pending|
      {
        var id :| id in pending;
        FailOne(id, v, was, held);
        pending := pending - {id};
      }
    }

    /** cancel: a task not held any more, or one the engine declines, is left alone. */
    method Cancel(t: TaskCompletion, why: Why, reply: CancelReply)
      requires Valid() && t.id in all && all[t.id] == t
      modifies this`tasks, t
      ensures Valid() && Books() == AfterCancelling(old(Books()), t.id, why, reply)
      ensures tasks == if reply.Declined? then old(tasks) else old(tasks) - {t.id}
    {
      if t.id !in tasks || reply.Declined? {
        assert t.id !in tasks ==> tasks - {t.id} == tasks;
        return;
      }
      FinishTask(t, ByCancel(why, reply));
    }

    /** One round of the loop of cancelAll, with `pending` still to come. */
    method CancelOne(id: nat, why: Why, replies: map<nat, CancelReply>,
                     ghost was: map<nat, Completion>, ghost held: set<nat>, ghost pending: set<nat>)
      requires Valid() && id in pending && pending <= held <= was.Keys
      requires StillHeld(tasks.Keys, held, pending, replies)
      requires AllCancelled(was, Completions(), held, pending, why, replies)
      modifies this`tasks, all.Values
      ensures Valid() && StillHeld(tasks.Keys, held, pending - {id}, replies)
      ensures AllCancelled(was, Completions(), held, pending - {id}, why, replies)
    {
      CancelledStep(was, Completions(), held, pending, id, why, replies);
      Cancel(tasks[id], why, ReplyTo(replies, id));
    }

    /** The loop of cancelAll: only what the engine declines is held afterwards. */
    method CancelAll(why: Why, replies: map<nat, CancelReply>)
      requires Valid()
      modifies this`tasks, all.Values
      ensures Valid() && forall id :: id in tasks <==> id in old(tasks) && ReplyTo(replies, id).Declined?
      ensures AllCancelled(old(Completions()), Completions(), old(tasks.Keys), {}, why, replies)
    {
      var pending := tasks.Keys;
      ghost var was, held := Completions(), pending;
      while pending != {}
        invariant Valid() && pending <= held <= was.Keys
        invariant StillHeld(tasks.Keys, held, pending, replies)
        invariant AllCancelled(was, Completions(), held, pending, why, replies)
        decreases |pending|
      {
        var id :| id in pending;
        CancelOne(id, why, replies, was, held, pending);
        pending := pending - {id};
      }
    }
  }

  function AfterCancelling(b: Book, id: nat, why: Why, reply: CancelReply): Book
    requires b.held <= b.completions.Keys
  {
    if id !in b.held || reply.Declined? then b
    else Book(b.held - {id}, Finish(b.completions, id, ByCancel(why, reply)))
  }

  // ----- the protocol's steps, with no other thread between them --------------------------------

  /** The scheduler is at the first event of a reply, and nobody holds the lock. */
  predicate AtEvent(s: State) {
    s.sched.Deliver? && s.sched.evs != [] && s.mu.Free? && s.tasks <= s.completions.Keys
  }

  function NextEvent(s: State, b: Book): State
    requires AtEvent(s)
  {
    s.(tasks := b.held, completions := b.completions, sched := SlotsProtocol.Sched.Deliver(s.sched.evs[1..], s.sched.busy))
  }

  lemma SkipSteps(s: State)
    requires AtEvent(s) && s.sched.evs[0].id !in s.tasks
    ensures DeliverEnabled(s, LookSkip) && DeliverApply(s, LookSkip) == NextEvent(s, Book(s.tasks, s.completions))
  {}

  lemma EndSteps(s: State)
    requires AtEvent(s) && s.sched.evs[0].id in s.tasks && Terminal(s.sched.evs[0])
    ensures DeliverEnabled(s, LookEnd) && FinishEnabled(DeliverApply(s, LookEnd), Delete)
    ensures FinishEnabled(FinishApply(DeliverApply(s, LookEnd), Delete), End)
    ensures var ev := s.sched.evs[0];
            FinishApply(FinishApply(DeliverApply(s, LookEnd), Delete), End)
            == NextEvent(s, Book(s.tasks - {ev.id}, Finish(s.completions, ev.id, VerdictOf(ev))))
  {}

  lemma TokenSteps(s: State)
    requires AtEvent(s) && s.sched.evs[0].id in s.tasks && !Terminal(s.sched.evs[0])
    ensures DeliverEnabled(s, LookToken) && DeliverEnabled(DeliverApply(s, LookToken), Push)
    ensures var ev := s.sched.evs[0];
            DeliverApply(DeliverApply(s, LookToken), Push)
            == NextEvent(s, Book(s.tasks, PushTo(s.completions, ev.id, ev.out.value)))
  {}

  /** One step of the scheduler leads from s to s'. */
  ghost predicate Moves(s: State, s': State) { exists l :: Schedulers(l) && Takes(s, s', l) }

  ghost predicate MovesAt(path: seq<State>, i: int)
    requires 0 <= i < |path| - 1
  {
    Moves(path[i], path[i + 1])
  }

  /** The path leads from s to s' by steps of the scheduler, with no other thread's between them. */
  ghost predicate Leads(path: seq<State>, s: State, s': State) {
    && path != [] && path[0] == s && path[|path| - 1] == s'
    && forall i :: 0 <= i < |path| - 1 ==> MovesAt(path, i)
  }

  lemma Already(s: State)
    ensures Leads([s], s, s)
  {}

  lemma First(s: State, l: Label, path: seq<State>, s': State)
    requires Schedulers(l) && Enabled(s, l) && Leads(path, Apply(s, l), s')
    ensures Leads([s] + path, s, s')
  {
    var longer := [s] + path;
    forall i | 0 <= i < |longer| - 1 ensures MovesAt(longer, i) {
      if i > 0 {
        assert MovesAt(path, i - 1);
      }
    }
  }

  /** s with its events delivered by the loop of update. */
  function Delivered(s: State): State
    requires s.sched.Deliver? && s.tasks <= s.completions.Keys
  {
    var b := AfterEvents(Book(s.tasks, s.completions), s.sched.evs);
    s.(tasks := b.held, completions := b.completions, sched := SlotsProtocol.Sched.Deliver([], s.sched.busy))
  }

  lemma DeliveredSkip(s: State)
    requires AtEvent(s) && s.sched.evs[0].id !in s.tasks
    ensures Delivered(NextEvent(s, Book(s.tasks, s.completions))) == Delivered(s)
  {}

  lemma DeliveredEnd(s: State)
    requires AtEvent(s) && s.sched.evs[0].id in s.tasks && Terminal(s.sched.evs[0])
    ensures var ev := s.sched.evs[0];
            Delivered(NextEvent(s, Book(s.tasks - {ev.id}, Finish(s.completions, ev.id, VerdictOf(ev))))) == Delivered(s)
  {}

  lemma DeliveredToken(s: State)
    requires AtEvent(s) && s.sched.evs[0].id in s.tasks && !Terminal(s.sched.evs[0])
    ensures var ev := s.sched.evs[0];
            Delivered(NextEvent(s, Book(s.tasks, PushTo(s.completions, ev.id, ev.out.value)))) == Delivered(s)
  {}

  lemma SkipRound(s: State, path: seq<State>, s': State) returns (longer: seq<State>)
    requires AtEvent(s) && s.sched.evs[0].id !in s.tasks
    requires Leads(path, NextEvent(s, Book(s.tasks, s.completions)), s')
    ensures Leads(longer, s, s')
  {
    SkipSteps(s);
    First(s, Events(LookSkip), path, s');
    longer := [s] + path;
  }

  /** The delete and the end of a task, wherever the scheduler goes on. */
  lemma FinishRound(s: State, path: seq<State>, s': State) returns (longer: seq<State>)
    requires FinishEnabled(s, Delete) && FinishEnabled(FinishApply(s, Delete), End)
    requires Leads(path, FinishApply(FinishApply(s, Delete), End), s')
    ensures Leads(longer, s, s')
  {
    First(FinishApply(s, Delete), FinishTask(End), path, s');
    First(s, FinishTask(Delete), [FinishApply(s, Delete)] + path, s');
    longer := [s] + ([FinishApply(s, Delete)] + path);
  }

  lemma EndRound(s: State, path: seq<State>, s': State) returns (longer: seq<State>)
    requires AtEvent(s) && s.sched.evs[0].id in s.tasks && Terminal(s.sched.evs[0])
    requires var ev := s.sched.evs[0];
             Leads(path, NextEvent(s, Book(s.tasks - {ev.id}, Finish(s.completions, ev.id, VerdictOf(ev)))), s')
    ensures Leads(longer, s, s')
  {
    EndSteps(s);
    longer := FinishRound(DeliverApply(s, LookEnd), path, s');
    First(s, Events(LookEnd), longer, s');
    longer := [s] + longer;
  }

  lemma TokenRound(s: State, path: seq<State>, s': State) returns (longer: seq<State>)
    requires AtEvent(s) && s.sched.evs[0].id in s.tasks && !Terminal(s.sched.evs[0])
    requires var ev := s.sched.evs[0];
             Leads(path, NextEvent(s, Book(s.tasks, PushTo(s.completions, ev.id, ev.out.value))), s')
    ensures Leads(longer, s, s')
  {
    TokenSteps(s);
    First(DeliverApply(s, LookToken), Events(Push), path, s');
    First(s, Events(LookToken), [DeliverApply(s, LookToken)] + path, s');
    longer := [s] + ([DeliverApply(s, LookToken)] + path);
  }

  /** The loop of update does what the scheduler's steps over the events do, when no other
      thread's step comes between them. */
  lemma {:induction false} StepsAreTheLoop(s: State) returns (path: seq<State>)
    requires s.sched.Deliver? && s.mu.Free? && s.tasks <= s.completions.Keys
    ensures Leads(path, s, Delivered(s))
    decreases |s.sched.evs|
  {
    if s.sched.evs == [] {
      path := [s];
      Already(s);
    } else if s.sched.evs[0].id !in s.tasks {
      path := AfterSkip(s);
    } else if Terminal(s.sched.evs[0]) {
      path := AfterEnd(s);
    } else {
      path := AfterToken(s);
    }
  }

  lemma {:induction false} AfterSkip(s: State) returns (path: seq<State>)
    requires AtEvent(s) && s.sched.evs[0].id !in s.tasks
    ensures Leads(path, s, Delivered(s))
    decreases |s.sched.evs|, 0
  {
    DeliveredSkip(s);
    path := StepsAreTheLoop(NextEvent(s, Book(s.tasks, s.completions)));
    path := SkipRound(s, path, Delivered(s));
  }

  lemma {:induction false} AfterEnd(s: State) returns (path: seq<State>)
    requires AtEvent(s) && s.sched.evs[0].id in s.tasks && Terminal(s.sched.evs[0])
    ensures Leads(path, s, Delivered(s))
    decreases |s.sched.evs|, 0
  {
    var ev := s.sched.evs[0];
    DeliveredEnd(s);
    path := StepsAreTheLoop(NextEvent(s, Book(s.tasks - {ev.id}, Finish(s.completions, ev.id, VerdictOf(ev)))));
    path := EndRound(s, path, Delivered(s));
  }

  lemma {:induction false} AfterToken(s: State) returns (path: seq<State>)
    requires AtEvent(s) && s.sched.evs[0].id in s.tasks && !Terminal(s.sched.evs[0])
    ensures Leads(path, s, Delivered(s))
    decreases |s.sched.evs|, 0
  {
    var ev := s.sched.evs[0];
    DeliveredToken(s);
    path := StepsAreTheLoop(NextEvent(s, Book(s.tasks, PushTo(s.completions, ev.id, ev.out.value))));
    path := TokenRound(s, path, Delivered(s));
  }

  // ----- fail and cancelAll ------------------------------------------------------------------

  /** The scheduler is at the head of fail's loop, and nobody holds the lock. */
  predicate AtFail(s: State) { s.sched.Failing? && s.mu.Free? && s.sched.todo <= s.completions.Keys }

  /** After one round of it. */
  function FailedOne(s: State, id: nat): State
    requires AtFail(s) && id in s.sched.todo
  {
    s.(tasks := s.tasks - {id}, completions := Finish(s.completions, id, ByUpdateError(s.sched.leave)),
       sched := Failing(s.sched.todo - {id}, s.sched.leave))
  }

  lemma FailRound(s: State, id: nat, path: seq<State>, s': State) returns (longer: seq<State>)
    requires AtFail(s) && id in s.sched.todo && Leads(path, FailedOne(s, id), s')
    ensures Leads(longer, s, s')
  {
    longer := FinishRound(FailApply(s, FailNext(id)), path, s');
    First(s, SlotsProtocol.Label.Fail(FailNext(id)), longer, s');
    longer := [s] + longer;
  }

  lemma FinishedOneMore(was: map<nat, Completion>, now: map<nat, Completion>, held: set<nat>, id: nat, v: Verdict)
    requires id in held && id in was && AllFinished(Finish(was, id, v), now, held - {id}, {}, v)
    ensures AllFinished(was, now, held, {}, v)
  {}

  /** After all of them, with the completions given. */
  function FailedAll(s: State, completions: map<nat, Completion>): State
    requires s.sched.Failing?
  {
    s.(tasks := s.tasks - s.sched.todo, completions := completions, sched := Failing({}, s.sched.leave))
  }

  lemma FailedFurther(s: State, id: nat, completions: map<nat, Completion>)
    requires AtFail(s) && id in s.sched.todo
    ensures FailedAll(FailedOne(s, id), completions) == FailedAll(s, completions)
  {
    assert s.tasks - {id} - (s.sched.todo - {id}) == s.tasks - s.sched.todo;
  }

  lemma NothingFailed(s: State)
    requires AtFail(s) && s.sched.todo == {}
    ensures FailedAll(s, s.completions) == s
  {
    assert s.tasks - {} == s.tasks;
  }

  /** The loop of fail does what the scheduler's steps do, when no other thread's step comes
      between them: the tasks are forgotten and every completion of theirs is ended. */
  lemma {:induction false} FailStepsAreTheLoop(s: State) returns (now: map<nat, Completion>, path: seq<State>)
    requires AtFail(s)
    ensures Leads(path, s, FailedAll(s, now))
    ensures AllFinished(s.completions, now, s.sched.todo, {}, ByUpdateError(s.sched.leave))
    decreases |s.sched.todo|
  {
    if s.sched.todo == {} {
      now, path := s.completions, [s];
      NothingFailed(s);
      Already(s);
    } else {
      now, path := AfterFail(s);
    }
  }

  lemma {:induction false} AfterFail(s: State) returns (now: map<nat, Completion>, path: seq<State>)
    requires AtFail(s) && s.sched.todo != {}
    ensures Leads(path, s, FailedAll(s, now))
    ensures AllFinished(s.completions, now, s.sched.todo, {}, ByUpdateError(s.sched.leave))
    decreases |s.sched.todo|, 0
  {
    var id :| id in s.sched.todo;
    now, path := FailStepsAreTheLoop(FailedOne(s, id));
    FailedFurther(s, id, now);
    path := FailRound(s, id, path, FailedAll(s, now));
    FinishedOneMore(s.completions, now, s.sched.todo, id, ByUpdateError(s.sched.leave));
  }

  /** The tasks listed are held, and the engine declines exactly those it does not know. */
  ghost predicate AllAnswer(known: set<nat>, tasks: set<nat>, completions: set<nat>, left: set<nat>, replies: map<nat, CancelReply>) {
    forall id :: id in left ==>
      id in tasks && id in completions &&
      if ReplyTo(replies, id).Declined? then id !in known else ReplyTo(replies, id).EngineGone? || id in known
  }

  /** The scheduler is at the head of cancelAll's loop, and nobody holds the lock. */
  ghost predicate AtCancel(s: State, replies: map<nat, CancelReply>) {
    s.sched.Cancelling? && s.mu.Free? && AllAnswer(s.known, s.tasks, s.completions.Keys, s.sched.left, replies)
  }

  /** After one round of it. */
  function CancelledOne(s: State, id: nat, reply: CancelReply): State
    requires s.sched.Cancelling? && id in s.completions
  {
    if reply.Declined? then s.(sched := Cancelling(s.sched.left - {id}))
    else s.(tasks := s.tasks - {id}, known := AfterCancel(s.known, id, !reply.EngineGone?),
            completions := Finish(s.completions, id, ByCancel(SlotsClosed, reply)),
            sched := Cancelling(s.sched.left - {id}))
  }

  lemma DeclineRound(s: State, id: nat, replies: map<nat, CancelReply>, path: seq<State>, s': State)
    returns (longer: seq<State>)
    requires AtCancel(s, replies) && id in s.sched.left && ReplyTo(replies, id).Declined?
    requires Leads(path, CancelledOne(s, id, ReplyTo(replies, id)), s')
    ensures Leads(longer, s, s')
  {
    var s1 := CancelApply(s, CancelBegin(id));
    First(s1, SlotsProtocol.Label.CancelAll(CancelDeclined), path, s');
    First(s, SlotsProtocol.Label.CancelAll(CancelBegin(id)), [s1] + path, s');
    longer := [s] + ([s1] + path);
  }

  /** The engine's cancel, and what it took. */
  lemma CancelTakes(s: State, id: nat, reply: CancelReply)
    requires s.sched.Cancelling? && s.mu.Free? && id in s.sched.left && id in s.tasks && id in s.completions
    requires !reply.Declined? && (reply.EngineGone? || id in s.known)
    ensures var took := CancelTook(reply, !reply.EngineGone?);
            var s1 := CancelApply(s, CancelBegin(id));
            && CancelEnabled(s, CancelBegin(id)) && CancelEnabled(s1, took)
            && var s2 := CancelApply(s1, took);
               && FinishEnabled(s2, Delete) && FinishEnabled(FinishApply(s2, Delete), End)
               && FinishApply(FinishApply(s2, Delete), End) == CancelledOne(s, id, reply)
  {}

  lemma CancelRound(s: State, id: nat, replies: map<nat, CancelReply>, path: seq<State>, s': State)
    returns (longer: seq<State>)
    requires AtCancel(s, replies) && id in s.sched.left && !ReplyTo(replies, id).Declined?
    requires Leads(path, CancelledOne(s, id, ReplyTo(replies, id)), s')
    ensures Leads(longer, s, s')
  {
    CancelTakes(s, id, ReplyTo(replies, id));
    var took := CancelTook(ReplyTo(replies, id), !ReplyTo(replies, id).EngineGone?);
    var s1 := CancelApply(s, CancelBegin(id));
    longer := FinishRound(CancelApply(s1, took), path, s');
    First(s1, SlotsProtocol.Label.CancelAll(took), longer, s');
    First(s, SlotsProtocol.Label.CancelAll(CancelBegin(id)), [s1] + longer, s');
    longer := [s] + ([s1] + longer);
  }

  /** What cancelAll leaves: of the tasks listed those declined stay. */
  ghost predicate CancelledAll(s: State, s': State, replies: map<nat, CancelReply>)
    requires s.sched.Cancelling?
  {
    && s' == s.(tasks := s'.tasks, known := s'.known, completions := s'.completions, sched := Cancelling({}))
    && (forall id :: id in s'.tasks <==> id in s.tasks && (id in s.sched.left ==> ReplyTo(replies, id).Declined?))
    && AllCancelled(s.completions, s'.completions, s.sched.left, {}, SlotsClosed, replies)
  }

  lemma DeclinedFurther(s: State, id: nat, replies: map<nat, CancelReply>, s': State)
    requires AtCancel(s, replies) && id in s.sched.left && ReplyTo(replies, id).Declined?
    requires CancelledAll(CancelledOne(s, id, ReplyTo(replies, id)), s', replies)
    ensures CancelledAll(s, s', replies)
  {}

  lemma CompletionsFurther(was: map<nat, Completion>, now: map<nat, Completion>, left: set<nat>, id: nat,
                           replies: map<nat, CancelReply>)
    requires id in left && id in was && !ReplyTo(replies, id).Declined?
    requires AllCancelled(Finish(was, id, ByCancel(SlotsClosed, ReplyTo(replies, id))), now, left - {id}, {}, SlotsClosed, replies)
    ensures AllCancelled(was, now, left, {}, SlotsClosed, replies)
  {}

  lemma CancelledFurther(s: State, id: nat, replies: map<nat, CancelReply>, s': State)
    requires AtCancel(s, replies) && id in s.sched.left && !ReplyTo(replies, id).Declined?
    requires CancelledAll(CancelledOne(s, id, ReplyTo(replies, id)), s', replies)
    ensures CancelledAll(s, s', replies)
  {
    CompletionsFurther(s.completions, s'.completions, s.sched.left, id, replies);
  }

  /** The other tasks are held and known as before. */
  lemma OthersAnswer(known: set<nat>, tasks: set<nat>, completions: set<nat>, left: set<nat>, id: nat, removed: bool,
                     replies: map<nat, CancelReply>)
    requires AllAnswer(known, tasks, completions, left, replies)
    ensures AllAnswer(known, tasks, completions, left - {id}, replies)
    ensures AllAnswer(AfterCancel(known, id, removed), tasks - {id}, completions, left - {id}, replies)
  {}

  lemma StillAtCancel(s: State, id: nat, replies: map<nat, CancelReply>)
    requires AtCancel(s, replies) && id in s.sched.left
    ensures AtCancel(CancelledOne(s, id, ReplyTo(replies, id)), replies)
  {
    OthersAnswer(s.known, s.tasks, s.completions.Keys, s.sched.left, id, !ReplyTo(replies, id).EngineGone?, replies);
  }

  /** The loop of cancelAll does what the scheduler's steps do. */
  lemma {:induction false} CancelStepsAreTheLoop(s: State, replies: map<nat, CancelReply>)
    returns (s': State, path: seq<State>)
    requires AtCancel(s, replies)
    ensures Leads(path, s, s') && CancelledAll(s, s', replies)
    decreases |s.sched.left|
  {
    if s.sched.left == {} {
      s', path := s, [s];
      Already(s);
    } else {
      s', path := AfterCancelRound(s, replies);
    }
  }

  lemma {:induction false} AfterCancelRound(s: State, replies: map<nat, CancelReply>) returns (s': State, path: seq<State>)
    requires AtCancel(s, replies) && s.sched.left != {}
    ensures Leads(path, s, s') && CancelledAll(s, s', replies)
    decreases |s.sched.left|, 0
  {
    var id :| id in s.sched.left;
    StillAtCancel(s, id, replies);
    s', path := CancelStepsAreTheLoop(CancelledOne(s, id, ReplyTo(replies, id)), replies);
    if ReplyTo(replies, id).Declined? {
      path := DeclineRound(s, id, replies, path, s');
      DeclinedFurther(s, id, replies, s');
    } else {
      path := CancelRound(s, id, replies, path, s');
      CancelledFurther(s, id, replies, s');
    }
  }
}
