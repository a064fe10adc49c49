# Verification of the closing protocol, the Slots scheduler, the wire codec and the streams

This project models four components of the repository in Dafny 4.11 and proves what they
promise over every run and every input.

* **Instances, models, contexts and engines being closed.** `InstanceState` and `InstanceSteps`
  are a labelled transition system of all threads of one instance: calls, interrupts, context
  creation, the three kinds of Close, LoadModel, Fork, NewSnapshot with the retirement of its
  contexts, and the Slots' own threads. A step is a lock acquisition, an atomic store or the
  beginning or end of an engine call; a call that manages the guest's threads comes back with a
  result of `EngineProtocol`. The locks have no field: who holds which lock follows from the
  program counters. `InstanceRuns` has the steps together, and the runs. `InstanceInvariant`,
  `InstanceFacts`, `InstanceAt` and `InstanceMoves` say piece by piece what holds and what a
  step may do under the locks it has, `InstanceSpec` puts them together,
  `InstanceGuarantee` shows that everything a thread relies on survives the others' steps,
  `InstanceProofs` proves one inductive invariant from it, and `InstanceTheorems` draws the
  conclusions; `ClosedBuild` is a run on which one expectation fails. `LockOrder` proves the
  wait-for relation acyclic, and that a thread whose step is held up waits in it. `EngineProtocol` and `EngineProofs` are the engine's own gate, thread
  count and trap record.
* **The Slots scheduler.** `SlotsProtocol`, `SlotsRuns`, `SlotsInvariant`, `SlotsProofs`,
  `SlotsTheorems` and `SlotsShutdown`: the task map, the wake, stop and done channels, the
  scheduler loop, a canceller per task, the completions and their readers. `SlotsView` is what
  the rest of an instance sees of a Slots, and `SlotsRefinement` proves that the scheduler refines it;
  the instance's transition system uses the view.
* **The protobuf wire codec.** `Varint`, `Wire` (meaning and theorems) and `WireCode` (the
  writers, the cursor-moving reader and the scans of a reply, in 64-bit arithmetic with Go's
  shifts).
* **The UTF-8 hold-back stream.** `Utf8`.

`Snapshot`, `SlotsCode` and `EngineCode` hold the same code in its own imperative form, one
call at a time: the in-place compaction of the instance's record, the loops that retire, free,
deliver, fail and cancel, the release of an engine. Their methods are proved against functions.
That the transition systems' steps do the same when no other thread comes between them is proved
for the scheduler's loops (deliver, fail and cancelAll), a reader's round, a release and a gated
call.

## Where the steps come from

* `InstanceSteps.CallNext`: Context.enter and its release, llama.go:886-900, the pair of
  contexts of GenerateWithDraft, llama.go:938-954, Context.Slots and Post, slots.go:92-163.
* `InstanceSteps.IntNext`: interrupt, llama.go:154-180.
* `InstanceSteps.FreeNext`: freeContext, llama.go:186-215.
* `InstanceSteps.NewNext`: Model.enter and NewContext, llama.go:580-590 and llama.go:821-868.
* `InstanceSteps.ModelNext`: Model.Close, llama.go:596-637.
* `InstanceSteps.CloseNext`: Llama.Close and takeContexts, llama.go:134-145 and llama.go:341-372.
* `InstanceSteps.LoadNext`: LoadModel, llama.go:492-542.
* `InstanceSteps.ForkNext`: the pools that Fork attaches, snapshot.go:236-251.
* `InstanceSteps.RetireNext` and `InstanceSteps.KeepNext`: NewSnapshot from its callback on,
  retireContexts and retireKept, snapshot.go:84-196; `InstanceSteps.NoteTrap`: noteTrap,
  llama.go:387-393.
* `SlotsRuns.Apply`: loop, update, fail, cancelAll, cancel, finish, Post, Close and Outputs,
  slots.go:118-537.
* `EngineProtocol.Apply`: invokeGated, release and the thread hook, internal/engine.go:240-252,
  internal/engine.go:339-397 and internal/engine.go:450-471; AccessMemory as interrupt uses it.

Fields marked as history in the models (how often a free has run, which thread set a flag,
which thread's call trapped) are read by no step that stands for a decision of the code.

Two expectations turn out false, and the exact conditions are proved instead.

* Memory that Close and NewSnapshot report as kept mapped, because a call that manages the
  guest's threads trapped, need not stay mapped. The input: a callback of NewSnapshot in which a
  context creation traps, and which then calls Close on the builder it was given
  (SnapshotBuilder embeds the instance). Close abandons the engine, which has not been marked
  yet; the end of the build sees the trap and calls PreserveMemoryOnAbandon, which finds no gate
  (internal/engine.go:333-337); so the image's finalizer stays and unmaps the memory, while both
  calls have returned ErrMemoryLeaked. `ClosedBuild.ReportedButUnmapped` is that run, step by
  step. The condition is whether the callback closed the instance it builds:
  `InstanceTheorems.TrapKeepsMemory` proves over all runs that after a trap the memory stays for
  good if and only if the instance is no builder closed by its callback, and
  `Snapshot.BuildSnapshot` proves the same of the code on one thread.
* `done` closed does not mean that every task has ended: `SlotsTheorems.DoneBeforeEnded` is a run
  with one that has not, `SlotsTheorems.RunningOnlyUnderCancellers` and
  `SlotsTheorems.EndedUnlessCancellable` say which tasks those can be.

## Model

| member | source | states |
|---|---|---|
| InstanceProofs.RunKeeps | llama.go:86-215 | one invariant holds in every state of every interleaving of calls, interrupts, creations, closes, loads, forks and Slots steps |
| InstanceGuarantee.Stable | llama.go:94-111 | whatever a thread relies on at its program counter survives any step of another thread that keeps to the locks it holds |
| InstanceTheorems.NoUseAfterFree | llama.go:182-215 | once the guest's free of a context has begun it never runs again, no call, Fork's own included, is inside the guest on the context, nobody writes its interrupt word, no Slots of it is or gets inside the engine, and one thread at most frees it |
| InstanceTheorems.ReleaseFindsAllFreed | llama.go:341-372 | when a Close has released the engine every context ever created on the instance has been freed, exactly once, and none is created afterwards; for a builder that its callback has not closed SealedImageIsQuiet says what is freed |
| InstanceTheorems.ModelFreeFindsNoContext | llama.go:596-637 | while and after the guest frees a model, every context ever created over it is freed |
| InstanceTheorems.InstanceClosersAgree | llama.go:341-372 | any two closers of an instance return after its one teardown and with the same error, which is or contains ErrMemoryLeaked if the memory stays mapped |
| InstanceTheorems.ContextClosersAgree | llama.go:182-215 | any two closers of a context return after its one free and with the same error |
| InstanceTheorems.ModelClosersAgree | llama.go:596-637 | any two closers of a model return with the same error, after its object is gone or the instance's Close has begun |
| InstanceTheorems.OnlyManagingTrapsCount | llama.go:387-393 | over every run: a trap is on record for the instance exactly if some step before was a context creation, a context free, a pool attach or a pool free that came back with a trap |
| InstanceTheorems.MarkMeansTrap | llama.go:364-369 | when Close, or the end of a build, looks at the wedged mark to decide on the memory, it is set exactly if such a call trapped: refused and declined calls have not set it, and no trap is still to be noted |
| InstanceTheorems.TrapKeepsMemory | llama.go:341-372 | after such a trap the instance's memory stays mapped for good, whatever the interleaving (it is not unmapped, and a released engine has no finalizer left that would), if and only if the instance is not a snapshot's builder that its callback has closed |
| InstanceTheorems.ClosedBuildIsUnmapped | internal/engine.go:328-337 | and in such a builder, once its Close has released the engine, the memory has been unmapped or the finalizer can unmap it at once |
| ClosedBuild.ReportedButUnmapped | snapshot.go:117-131 | a run of it: a context creation traps, the callback's Close returns ErrMemoryLeaked, the build decides to leave the memory mapped, and it is unmapped |
| InstanceTheorems.SealedImageIsQuiet | snapshot.go:139-196 | when an image is sealed, of all contexts the build ever created those registered are unfreed and closed, their pools joined, with no call in the guest and no Slots that could make one; every other one has been freed, once |
| InstanceTheorems.FailedBuildFreesAll | snapshot.go:148-168 | a build whose callback failed seals nothing and ends with every context it ever created freed, once |
| InstanceTheorems.LeftMappedIffTrapped | snapshot.go:117-131 | a build decides to leave its memory mapped exactly if a managing call of it trapped, and it then stays for good exactly if the callback has not closed the instance; otherwise the build fails, and its memory is unmapped, exactly if the callback or a retirement failed |
| InstanceTheorems.ClosedBuildFails | snapshot.go:148-177 | a build whose callback closed the instance seals no image, and every context of it has been freed |
| InstanceTheorems.SwapFindsNoHandle | llama.go:517-531 | the engine is swapped by LoadModel only, only when it was not swapped before, while there is no model and no context, and before Close takes over |
| InstanceTheorems.HandlesMatchEngine | llama.go:504-541 | in every reachable state the engine was swapped at most once and every model and context is of the engine in use |
| InstanceTheorems.OneSlotsPerContext | slots.go:98-112 | a context has at most one Slots that is not detached |
| InstanceTheorems.RunGrows | llama.go:79-105 | from any state to any later one: closed, wedged and freed stay set on instance, models and contexts, errors stay, contexts taken over are not added to, the first trap and the released engine stay |
| LockOrder.WaitsAbove | internal/llama.go:651-653 | in every reachable state, whatever a thread, a scheduler or an engine call waits for is above everything it holds, in one order of all locks: those of the instance, contexts by handle, of the Slots, and the engine's gate, the module's lock that a call takes under it, and the memory's |
| LockOrder.NoDeadlock | llama.go:938-954 | in every reachable state no chain of waits closes into a cycle, waits behind an announced exclusive waiter (Model.Close, a release, the retirement of a kept context) included |
| LockOrder.TakesWhatItWants | llama.go:94-111 | a step takes at most the one lock its thread waits for, and never upgrades a shared hold |
| LockOrder.BlockedMeansWaiting | llama.go:94-111 | a step that another thread holds up is one whose thread waits for a lock the other one holds |
| LockOrder.SlotsStepBlocked | slots.go:225-237 | a Post or a Close of a Slots that is held up waits for the Slots' lock or for done, which another node holds whatever it is doing |
| LockOrder.CallBlocked | internal/llama.go:651-653 | an engine call that is held up waits for the gate or, with the gate, for the module's lock (on its way in, or back from a callback, internal/llama.go:805-807), which another call or a release has |
| LockOrder.ReleaseBlocked | internal/engine.go:344-375 | a release that is held up waits for the gate, the module's lock or the memory's, in this order, and another one has it |
| LockOrder.AccessBlocked | llama.go:163-178 | so does an interrupt for the memory's lock |
| LockOrder.SlotsBlocked | slots.go:331-345 | what holds up a step inside a Slots is a thread that is in the engine with the lock, as the instance's view of the Slots shows, or that the scheduler has not closed done |
| SlotsProofs.RunKeeps | slots.go:66-81 | one invariant holds in every state of every run of the scheduler, its cancellers, posts, closers and readers |
| SlotsTheorems.NoTaskIsLost | slots.go:331-457 | a posted task that has not ended is held and known to the engine, or a thread is committed to finish it |
| SlotsTheorems.AllEndedWhenQuiescent | slots.go:221-237 | once done is closed and no canceller is past its engine call, every task has ended and none is held |
| SlotsTheorems.RunningOnlyUnderCancellers | slots.go:390-427 | once done is closed, a task that has not ended is one whose canceller is past its engine call |
| SlotsTheorems.EndedUnlessCancellable | slots.go:154-162 | once done is closed, a task whose Post had no context to be cancelled has ended |
| SlotsTheorems.DoneBeforeEnded | slots.go:390-427 | a run in which done is closed and a task has not ended: done by itself does not mean that all have |
| SlotsTheorems.RunGrows | slots.go:225-237 | once closed the task map only shrinks; stop and done stay closed; a completion keeps its one verdict; outputs grow at their end, and not at all after the task's own final |
| SlotsTheorems.NoLostWakeUp | slots.go:248-297 | while the scheduler is parked and the Slots open, a held task the engine knows has a wake token or a Post about to give one |
| SlotsTheorems.StopClosedOnce | slots.go:225-237 | whenever a Close closes stop it is open, and no other Close is about to close it |
| SlotsTheorems.DoneClosedOnce | slots.go:263-265 | done is closed once, after the context's record is cleared, and a Close returns only then |
| SlotsTheorems.NoEngineCallAfterDetach | slots.go:239-246 | from the detach on nothing of the Slots is or gets inside the engine |
| SlotsTheorems.FinalHasAllOutputs | slots.go:353-374 | a task ended by its own final event has exactly the engine's token events as outputs, in order |
| SlotsTheorems.ReaderYieldsAll | slots.go:480-498 | a reader of such a task, started at any time, has yielded exactly those when it stops |
| SlotsTheorems.ReaderTerminates | slots.go:480-498 | over every run, a reader of a task that its own final has ended takes at most as many further steps as the task has outputs, and one |
| SlotsTheorems.ReaderIsFree | slots.go:480-498 | over every run, a reader of a task that has ended is never blocked |
| SlotsShutdown.ComesDownInTime | slots.go:225-312 | over every run, from the moment stop is closed the scheduler takes at most a number of steps linear in the tasks held and the events in hand, and three for each event of an update still in the engine; no other update is called |
| SlotsShutdown.IdleComesDown | slots.go:225-312 | a scheduler that waits or polls when stop is closed takes at most four steps for each task held and seven, after which done is closed |
| SlotsTheorems.SchedulerGoesOn | slots.go:225-297 | who waits for done never waits for a scheduler that is stuck: once closed and until done, the scheduler has a step, or a thread inside the engine has the lock, or the first Close is about to close stop |
| SlotsRefinement.StepRefines | slots.go:225-312 | every step of the scheduler and its companions is a step of the view the instance has of a Slots, or none |
| SlotsRefinement.RunRefines | slots.go:225-312 | so is every run, from a fresh Slots on |
| SlotsCode.TaskCompletion.Push | slots.go:519-524 | appends the output, whether the task has ended or not |
| SlotsCode.TaskCompletion.Finish | slots.go:526-537 | the first verdict stays, and done is closed with it, once |
| SlotsCode.TaskCompletion.Result | slots.go:510-517 | the verdict, or that there is none yet |
| SlotsCode.TaskCompletion.Turn | slots.go:482-496 | one round of the iterator is the next step of a reader of the protocol with that many outputs read, and waits exactly if there is none |
| SlotsCode.Slots.Insert | slots.go:149-153 | a new completion under the id, nothing else changed, and a wake token |
| SlotsCode.Slots.BeginClose | slots.go:225-237 | closed is set; stop is closed by the first Close and by no other |
| SlotsCode.Slots.Deliver | slots.go:353-374 | the loop over a reply's events does what folding them one by one over the tasks held and the completions does |
| SlotsCode.Slots.Fail | slots.go:439-449 | no task is held afterwards, and every one held before has ended, with this error unless it had already |
| SlotsCode.Slots.Cancel | slots.go:391-428 | a task not held, or declined by the engine, is left alone; any other is forgotten and ended |
| SlotsCode.Slots.CancelAll | slots.go:302-312 | exactly the tasks that the engine declined are still held, and all others have ended |
| SlotsCode.StepsAreTheLoop | slots.go:353-374 | the scheduler's steps over a reply's events, with no other thread between them, lead where the loop leads |
| SlotsCode.FailStepsAreTheLoop | slots.go:439-449 | so do its steps over the tasks it fails |
| SlotsCode.CancelStepsAreTheLoop | slots.go:302-312 | and those over the tasks it cancels, whatever the engine answers |
| EngineProofs.RunKeeps | internal/engine.go:339-471 | one invariant holds in every state of every run of calls, releases, accesses and guest threads |
| EngineProofs.UnmapFindsNobody | internal/engine.go:339-384 | memory is unmapped, and its size zeroed, only by a release holding the gate exclusively that read the thread count as zero, with no call in the guest, no thread and no access at it |
| EngineProofs.UnmappedOnce | internal/engine.go:339-384 | it is unmapped at most once, and nobody touches it afterwards |
| EngineProofs.LateCallsAreRefused | internal/engine.go:450-460 | over every run: a call that has not passed its check of the memory when that is detached, even one that found the gate and waits behind the release, never enters the guest and returns nothing but ErrEngineClosed |
| EngineProofs.ResultsTellWhy | internal/engine.go:450-471 | ErrEngineClosed means detached memory; a refusal names the first trap and is never given to a teardown call; a trap returned means a trap on record |
| EngineProofs.FirstTrapStays | internal/engine.go:461-469 | the trap on record changes only from none, and only by a call that trapped in the guest |
| EngineProofs.TrapTurnsAway | internal/engine.go:461-463 | over every run: once a trap is on record, a call that is no teardown call and has not passed its check for one never enters the guest, and returns the refusal naming that trap or ErrEngineClosed |
| EngineCode.Module.ThreadsGone | internal/engine.go:388-397 | true exactly if some poll before the deadline finds no thread |
| EngineCode.Module.Release | internal/engine.go:339-384 | the whole effect of a release, its error, and when the builder's finalizer is dropped |
| EngineCode.Module.InvokeGated | internal/engine.go:450-471 | the answer of a gated call and the mark it leaves |
| EngineCode.ReleaseIsFinal | internal/engine.go:339-384 | after a release every operation changes nothing, and every call gets ErrEngineClosed |
| EngineCode.UnmappedOnce | internal/engine.go:339-397 | over any sequence of calls and releases: one unmap at most, only by a release that found no thread, and the first trap stays |
| EngineCode.AnswerFollowsTheChecks | internal/engine.go:450-471 | the answer is the one the protocol's three checks lead to |
| EngineCode.ReleaseStepsAlone | internal/engine.go:339-384 | the protocol's steps of a release that nobody comes between lead to the same state and error |
| EngineCode.KeepMapped | internal/engine.go:329-360 | memory preserved before its engine is abandoned is not unmapped by any later release, and has no finalizer |
| EngineCode.PreservedTooLate | internal/engine.go:333-337 | preserving it after the release changes nothing: the finalizer is still there |
| Varint.Len | internal/llama.go:50-57 | the length of the encoding |
| Varint.Append | internal/llama.go:60-66 | appends the base 128 encoding of the value |
| Varint.RoundTrip | internal/llama.go:217-230 | every uint64 written is read back, and the reader stops right after it, whatever precedes and follows |
| Varint.AtMostTenBytes | internal/llama.go:50-57 | a uint64 takes one to ten bytes |
| Varint.PrefixFree | internal/llama.go:60-66 | no encoding is the beginning of another's, and no two values share one |
| Varint.NextBits | internal/llama.go:223-227 | or-ing in shifted bits is adding them, and what does not fit 64 bits is dropped |
| Wire.SignExtension | internal/llama.go:78-86 | int32 and int64 values come back unchanged from their sign-extended varints |
| Wire.ValueRead | internal/llama.go:261-299 | every value of every kind is read back from where it was written |
| Wire.StopsAreTheFields | internal/llama.go:232-238 | the walk by next and skip over any written list of fields stops at each of them, in order, and nowhere else |
| Wire.FindWritten | internal/llama.go:311-326 | it finds the first field of every number with its payload, and no field that was not written |
| Wire.ScalarOfWritten | internal/llama.go:446-456 | readScalarAtField gives the first field's value, or zero if none was written |
| Wire.ErrorIffWritten | internal/llama.go:329-338 | pbExtractError reports an error exactly if a field 15 was written, whatever bytes the others hold, and its text is the first one's |
| Wire.PtrOfHandle | internal/llama.go:374-390 | readPtrAtField recovers the pointer from a handle at any field number |
| Wire.PtrOfVarint | internal/llama.go:343-366 | and from a varint written directly at field 1, but not elsewhere |
| Wire.PtrOfAbsent | internal/llama.go:374-390 | and gives 0 for a field that was not written |
| WireCode.AppendTag | internal/llama.go:69-71 | appends the tag, in 32-bit arithmetic |
| WireCode.AppendUint64 | internal/llama.go:73-76 | appends a varint field |
| WireCode.AppendInt | internal/llama.go:78-86 | appends a sign-extended varint field |
| WireCode.AppendBool | internal/llama.go:88-94 | appends a varint field of 1 or 0 |
| WireCode.AppendBytes | internal/llama.go:96-106 | appends a length-delimited field |
| WireCode.AppendFloat | internal/llama.go:108-113 | appends the four bytes of a float |
| WireCode.AppendDouble | internal/llama.go:115-120 | appends the eight bytes of a double |
| WireCode.AppendHandle | internal/llama.go:128-140 | the encoder that computes the length beforehand writes, byte for byte, the submessage of the one-varint message |
| WireCode.Reader.ReadVarint | internal/llama.go:217-230 | the loop with or and shift reads the low 64 bits of the varint at the cursor, on any bytes |
| WireCode.Reader.Next | internal/llama.go:232-238 | the tag at the cursor, or that there is nothing left |
| WireCode.Reader.ReadBytes | internal/llama.go:240-259 | the announced bytes, as far as there are any |
| WireCode.Reader.ReadSubmessage | internal/llama.go:301-309 | a new reader over them |
| WireCode.Reader.ReadFloat | internal/llama.go:281-289 | four bytes, or 0 and the end |
| WireCode.Reader.ReadDouble | internal/llama.go:291-299 | eight bytes, or 0 and the end |
| WireCode.Reader.Read | internal/llama.go:261-279 | what each of the read closures gives |
| WireCode.Reader.Skip | internal/llama.go:311-326 | moves past the payload of the wire type, not beyond the data |
| WireCode.ExtractError | internal/llama.go:329-338 | the scan for field 15 |
| WireCode.ReadScalarAtField | internal/llama.go:446-456 | the scan for one field |
| WireCode.ReadHandlePtr | internal/llama.go:343-366 | the scan for a pointer, in both shapes |
| WireCode.ReadPtrAtField | internal/llama.go:374-390 | the scan for the pointer at a field |
| Utf8.LeadByteLen | utf8.go:26-40 | the switch over the masks: which lead bytes announce which length |
| Utf8.MasksAreRanges | utf8.go:26-40 | each mask of a byte's high bits selects one range of bytes |
| Utf8.CompleteUTF8Prefix | utf8.go:51-63 | the look-back loop |
| Utf8.HeldIffTruncated | utf8.go:42-63 | what is held back is exactly a lead byte with some but not all of its continuation bytes, if the bytes end with one |
| Utf8.PieceSink.OnPiece | stream.go:72-80 | the new state of the sink |
| Utf8.PieceSink.Flush | stream.go:82-87 | hands over what is held |
| Utf8.ChunkingDoesNotMatter | stream.go:72-80 | however a stream is split: what was handed over and then what is held is the input; what is held is what the whole stream holds back, at most three bytes |
| Utf8.HeldAtMostThreeMore | stream.go:72-80 | what is held is handed over within three more bytes |
| Utf8.FlushGivesAll | stream.go:82-87 | after the flush everything was handed over |
| Utf8.ChunksWellFormed | stream.go:72-80 | if the whole stream is well-formed (section 4 of RFC 3629), every chunk handed over before the flush is |
| Utf8.FlushGivesNothing | stream.go:82-87 | and the flush hands over nothing |
| Snapshot.Record.Compact | llama.go:121-127 | the in-place compaction keeps exactly the contexts not freed, in order |
| Snapshot.Record.Track | llama.go:121-129 | and the new context comes last |
| Snapshot.Record.Take | llama.go:134-145 | hands out the contexts not freed and empties the record |
| Snapshot.Llama.NewContext | llama.go:849-860 | a created context is on record, open |
| Snapshot.Llama.FreeContext | llama.go:186-215 | frees a context once; a second closer gets the first one's error |
| Snapshot.Llama.Register | snapshot.go:48-65 | accepts exactly an open context of this builder under a new name and under no other |
| Snapshot.Llama.RetireKept | snapshot.go:185-196 | a kept context is closed, its Slots stopped, its pool gone unless the free failed |
| Snapshot.Llama.RetireAll | snapshot.go:157-168 | every context taken over is retired or freed, and the error says whether one of them failed |
| Snapshot.Llama.RetireContexts | snapshot.go:148-177 | every context not freed before is retired or freed; there is an error exactly if one failed or a kept one was closed by the build |
| Snapshot.Llama.FinishBuild | snapshot.go:99-131 | exactly when an image is sealed; a sealed image has every registered context unfreed, poolless, closed to the builder and at a handle of its own, and every other context freed; after a failed or panicking callback all are freed; the mark of a trap is set exactly if it was before or a free trapped, and the engine's memory is then marked to be preserved if the engine still has its gate |
| Snapshot.NewSnapshot | internal/sharedengine.go:247-275 | with the abandonment that follows: the memory is not unmapped by it, and the finalizer that would unmap it later is gone exactly if a free trapped and the engine had not been released before |
| Snapshot.CloseThenEnd | snapshot.go:117-131 | a callback that closes its instance: after a trap Close and NewSnapshot both report kept memory, and the finalizer is still there; without one the build fails |
| Snapshot.BuildSnapshot | snapshot.go:84-131 | for every callback: after a trap the finalizer is gone exactly if the callback did not close the instance |
| Snapshot.Llama.Close | llama.go:341-372 | every context of the instance has been freed in the guest exactly once, the engine is released, with an unmap exactly if no free trapped and its threads are gone, and kept memory is reported |
| Snapshot.ForkUseClose | snapshot.go:202-272 | from Fork to Close, whatever is created and closed in between: every context has been freed in the guest exactly once, and those at one handle one after the other in the order of their creation; the fork's memory has been unmapped exactly if none of those frees trapped and its threads are gone |
| Snapshot.BuildForkClose | snapshot.go:202-272 | from the end of a build to the Close of a fork: if an image was sealed the fork has every registered context, at its handle in the image, and the builder's contexts stay at rest |
| Snapshot.EachHandleFreedOnce | snapshot.go:263-272 | so each kept context is freed by exactly one call, and whatever else is freed at its handle was created there later and is freed later |
| Snapshot.Names | snapshot.go:212-216 | the names kept, each once |
| Snapshot.Fork | snapshot.go:202-229 | one open context on record for every name kept, with the image's handle, over one model per model handle |

## Left out

* The translated module, base.*, the mappings and images, WASI: abstract; a call replies,
  declines or traps, an update emits any legal list of events.
* Tokens, sampling, the KV cache, speculation, scoring, embeddings: inside the engine.
* Context.Reset while a Slots holds tasks: assumed not to happen; it drops tasks without an event.
* Guest handles that are used again: in the instance's transition system a context is named by
  its Go-side record, and the order of contexts by handle is the order of those names; of two
  contexts at one handle at most one is not freed, and a freed one is refused before its lock is
  waited for. `Snapshot` keeps record and handle apart.
* The engine's gate inside the instance's transition system: there a release is one step, and a
  call is in the guest from its admission on; `EngineProtocol` has the gate by itself.
* The builder of a snapshot beyond its callback: that nobody goes on creating, closing or loading
  through it then is NewSnapshot's rule for its callers (snapshot.go:82-83) and assumed
  (`InstanceState.Lock` has it as `Hands`). Calls in flight, Slots and interrupts that the
  callback leaves behind are covered. What the image's builder does
  with the memory (unmap it on an error, give it a finalizer otherwise) is taken from the comments.
* Status and SetSystemPrompt of a Slots: engine calls of a thread that holds the context open and
  the Slots' lock, as Post's is; they leave tasks and completions alone.
* Whether waits end: what a thread waits for, and that waits have no cycle, is proved; that the
  guest returns and callbacks do not re-enter the engine is assumed.
* Snapshot, SlotsCode and EngineCode: one call at a time; what other threads do between the
  statements is in the transition systems.
* JSON, base64 and the per-method wrappers: a reply is a decoded value or a decode failure.
* Errors are sets of codes; joining them is union, and their texts are left out.
* Lengths on the wire that do not fit a non-negative Go int, or overflow the cursor: the reader's
  methods that meet a length require that it fits; written messages always do.
* A field 15 that is not a string: pbExtractError would read its payload as one.
* Clocks: the 1 ms sleep, the release's deadline (a list of polls), when finalizers run, and the
  time between a thread's start and its being counted (counted at its start).
* The sink's callback registry, LoRA adapters, Params.wire, memory ceilings, the cache of model
  snapshots, internal/perfgate.
* WireCode.ExtractError: requires that the lengths the walk meets fit; Wire.ErrorIffWritten
  shows that those of a written message do.
* WireCode.ReadScalarAtField: the same, with Wire.ScalarOfWritten.
* WireCode.ReadPtrAtField: the same, with Wire.PtrOfHandle, Wire.PtrOfVarint and Wire.PtrOfAbsent.
