# The kt-bridge concurrency core, modelled and proved

kt-bridge connects a JVM client library to Temporal's Rust core. The JVM calls into Rust with plain
64-bit handles and request ids; everything asynchronous comes back through one completion queue that
the JVM polls. This project models the part of the bridge where correctness depends on interleavings,
locks, counters and ownership, and proves what its comments promise.

There is one module per component.

| module | component |
|---|---|
| `Bridge` | shared wire codes, errors and the completion record |
| `Runs` | reachability over any step relation, and counting steps |
| `Handles` | the generation-counted handle table with runtime ownership |
| `Queue` | the completion queue, its pollers' wait protocol, and one poll's batch |
| `Slab` | the payload slabs of all pollers in one memory, and overlapping polls |
| `Requests` | the pending table: one terminal completion per request, and where created handles travel |
| `Ownership` | one runtime's `Requests` and the shared `Handles` in lockstep: one owner per created handle |
| `Tracker` | the task tracker that runtime free waits for, and the child-process entry it covers |
| `Worker` | start, concurrent shutdowns, background finalizers and force-close of one worker |
| `Slots` | the JVM-driven slot supplier: permits, pressure gate, ramp, and its waiters |
| `TaskStream` | the JVM task stream: cancellable receivers over a conflated wakeup channel |
| `Pump` | the JVM pump: registered continuations, dispatch, and the pump thread's end |
| `RoundTrip` | `Requests` and `Pump` in lockstep: what native code delivers is what the pump expects |
| `Streams` | from a worker's polls through the shared queue to each consumer's stream |
| `Delivery` | the event handler and the receivers of one stream, operation by operation |
| `Telemetry` | the bounded metric window, the retained batch, and the reader's retry loop |

## How it is modelled

Concurrent components are step systems: a `World` value, a `Step` per critical section or atomic
operation, `Enabled` for when it may happen and `Do` for its effect. `IsRun` links any number of steps
in any order, and the theorems named `RunsAreSafe`, `EveryRequestIsAnsweredOnce` and so on speak about
every state of every such run. History fields (accepted pushes, answers, dispatched completions) record
what happened so that it can be stated; no step reads them. Besides what must not happen, each component
has its progress stated: a bound on the steps every actor takes by itself (`PollsAreBounded`,
`HolderStepsAreBounded`, `CallersTakeSevenSteps` and their like), and that an actor with work to do can
take one (`WriterCanGoOn`, `FreeNeverBlocks`, `OwnersCanGoOn` and their like).

Code that updates objects, vectors and buffers in place is also written as classes and methods whose
postconditions tie them to the functions the step systems are built from.

Locks are atomic steps, except where the source holds one across several effects (retire and enqueue,
the shutdown drain, `start` and `free` of a worker): there the lock is part of the state. Condition
variables may wake spuriously; `notify` reaches exactly the waiters registered at that moment. The
clock is a counter that never goes back, and a deadline may pass at any time once it is due. Core, the
network, child processes and encoders are arbitrary inputs.

## Where the code and its description part

The model follows the code. These lemmas say where a promise in a comment fails and exactly when it holds.

- `Pump.request` resumes its continuation after a failed `start` on the strength of `isActive`, without
  having won the removal (Pump.kt:118-123). If the pump is failing stragglers at that moment both sides
  may resume; the pump's resume then throws out of `failPending`, and the remaining callers are never
  answered (`Pump.CrashedIff`, `Pump.StrandedIff`, `Pump.StrandedForever`, and the run in
  `Pump.ThrownStartCanStrandACaller`).
- `TaskStream` reports closure last only if no send is between its closed check and its add when it is
  closed (KtWorker.kt:32-41; `TaskStream.CloseIsSafeIff`, `TaskStream.OtherThreadCloseStrandsTask`).
  `KtRuntime.close` does close from another thread: it hands every handler stream ends of its own
  (KtRuntime.kt:72-86).
- A slot waiter whose recomputed wait is zero parks without a timer and then depends on somebody else's
  notification (jvm_slots.rs:126-132; `Slots.ServableWaiterProceedsIff`, `Slots.TimerlessWaiterIsReachable`).
- A worker's `Finalized` is not final, not even after a force-close: a finalizer that is waiting for the
  last reference gives up at its deadline and stores `Draining` (worker.rs:715-719;
  `Worker.FinalizedIsFinalIff`, `Worker.ForceCloseIsFinalIff`, `Worker.ForceCloseCanBeRevived`). Only
  `Running` is never re-entered.
- A slot index is truncated to 32 bits when a handle is issued (handle.rs:82; `Handles.FreshHandleResolvesIff`).
- A metric batch of 2^31 bytes or more makes the reader fail and stays retained (KtBridge.kt:230-247;
  `Telemetry.ReadMetrics`).

## Model

| member | source | states |
|---|---|---|
| `Handles.PackRoundTrip` | core-bridge/rust/kt-bridge/src/handle.rs:85-86 | The kind/generation/index layout is a bijection with 64-bit words, both ways, and only the zero word is the null handle. |
| `Handles.LookupIsLive` | core-bridge/rust/kt-bridge/src/handle.rs:137-154 | A handle resolves if and only if it is the current handle of a live slot, and then to that slot's entry and owner. |
| `Handles.RejectionsSayWhy` | core-bridge/rust/kt-bridge/src/handle.rs:137-154 | For any word whatever: wrong kind if and only if the word or the live slot it names is of another kind, stale if and only if it is null or of the right kind and names nothing that lives. |
| `Handles.LiveHandlesAreDistinct` | core-bridge/rust/kt-bridge/src/handle.rs:68-87 | Two live slots never share a handle, and no live handle is zero. |
| `Handles.InsertRefines` | core-bridge/rust/kt-bridge/src/handle.rs:68-87 | An insertion adds one binding under a handle that was unbound and changes no other handle's resolution; free list and slots stay consistent. |
| `Handles.FreshHandleResolvesIff` | core-bridge/rust/kt-bridge/src/handle.rs:82-86 | A freshly issued handle resolves to its own slot if and only if the slot index fits in 32 bits (the `as u32` truncates it otherwise). |
| `Handles.TakeRefines` | core-bridge/rust/kt-bridge/src/handle.rs:157-164 | A removal deletes exactly one binding; free list and slots stay consistent. |
| `Handles.OwnedBelowIsExact` | core-bridge/rust/kt-bridge/src/handle.rs:102-106 | The scan finds exactly the slots the runtime owns, once each, in slot order. |
| `Handles.TakeFamilyRefines` | core-bridge/rust/kt-bridge/src/handle.rs:91-108 | Removing a runtime deletes its binding and exactly its children's, leaves every other handle alone, empties only live slots (the `expect` in `take` is not hit) and keeps ownership closed. |
| `Handles.StepKeepsGood` | core-bridge/rust/kt-bridge/src/lib.rs:165-184 | Every exported table operation keeps the table well formed and ownership closed: an owned slot is live, is no runtime, and its owner is a valid runtime handle. |
| `Handles.RunsStayGood` | core-bridge/rust/kt-bridge/src/handle.rs:53-108 | From the empty table this holds after any sequence of exported operations. |
| `Handles.StepSimulatesMap` | core-bridge/rust/kt-bridge/src/handle.rs:53-164 | Each table operation is the corresponding operation on the partial map from handles to entries that the table represents. |
| `Handles.RunsRefineMap` | core-bridge/rust/kt-bridge/src/handle.rs:53-164 | Every run of the table is a run of the map from the empty map on: slots, free list and generations are invisible to callers except for which unbound handle a creation picks. |
| `Handles.StepBumpsRemoved` | core-bridge/rust/kt-bridge/src/handle.rs:161 | An operation bumps a slot's generation exactly when it empties that slot. |
| `Handles.GenerationCountsRemovals` | core-bridge/rust/kt-bridge/src/handle.rs:161 | After k removals a slot is in generation 1 + (k mod (2^24 - 1)), over every run. |
| `Handles.StaleHandleNeedsFullCycle` | core-bridge/rust/kt-bridge/src/handle.rs:121-135 | A handle that resolves at two points of a run spans a multiple of 2^24 - 1 removals of its slot. |
| `Handles.SameHandleAgainIff` | core-bridge/rust/kt-bridge/src/handle.rs:68-87 | Two insertions into one slot issue the same handle if and only if the kinds agree and the slot was emptied a multiple of 2^24 - 1 times between them. |
| `Handles.ReissueNeedsFullCycle` | core-bridge/rust/kt-bridge/src/handle.rs:68-87 | A handle issued twice means at least 2^24 - 1 removals of its slot in between. |
| `Handles.SameCellWithinACycle` | core-bridge/rust/kt-bridge/src/handle.rs:137-164 | A handle that still resolves after less than a cycle of removals resolves to the very entry and owner it did before. |
| `Handles.FreedRuntimeStaysStale` | core-bridge/rust/kt-bridge/src/handle.rs:89-108 | A freed runtime's handle does not resolve until its slot has been emptied 2^24 - 1 times in all. |
| `Handles.FreedRuntimeRejectsChildren` | core-bridge/rust/kt-bridge/src/handle.rs:57-66 | Until then a creation owned by it is rejected and leaves the table as it was. |
| `Handles.HandleTable.InsertInto` | core-bridge/rust/kt-bridge/src/handle.rs:68-87 | The in-place insertion is `Insert` on the table it represents and adds one binding. |
| `Handles.HandleTable.InsertOwned` | core-bridge/rust/kt-bridge/src/handle.rs:57-66 | Succeeds if and only if the runtime handle is live; a rejection returns `Shutdown`, hands the entry back and changes nothing. |
| `Handles.HandleTable.RemoveOfKind` | core-bridge/rust/kt-bridge/src/handle.rs:131-135 | Succeeds if and only if the handle is live and of the expected kind, and then removes exactly it; otherwise reports the first failing check and changes nothing. |
| `Handles.HandleTable.RequireOwner` | core-bridge/rust/kt-bridge/src/handle.rs:110-119 | Succeeds if and only if the handle is live and owned by that runtime. |
| `Handles.HandleTable.TakeOwned` | core-bridge/rust/kt-bridge/src/handle.rs:100-106 | The scan loop empties every owned slot, pushes exactly these on the free list in slot order and returns what they held. |
| `Handles.HandleTable.RemoveRuntime` | core-bridge/rust/kt-bridge/src/handle.rs:91-108 | Runtime first, then its children: the whole new table, the returned entry and the children in order. |
| `Handles.OwnedEntriesMatch` | core-bridge/rust/kt-bridge/src/handle.rs:100-106 | The k-th child handed over is what the k-th owned slot held. |
| `Queue.RoundFacts` | core-bridge/rust/kt-bridge/src/queue.rs:275-304 | A trip round the wait loop takes the first min(cap, length) completions, takes one wake if and only if that is its only reason to leave, and parks only with nothing to do. |
| `Queue.SpuriousWakeupsDoNotMatter` | core-bridge/rust/kt-bridge/src/queue.rs:273-299 | Any number of wakes into an idle state leave the outcome to the first wait that ends otherwise. |
| `Queue.WaitsEndWithTheFirstLeave` | core-bridge/rust/kt-bridge/src/queue.rs:273-304 | The wait loop ends with its first trip that leaves, and with that trip's outcome. |
| `Queue.RunsAreSafe` | core-bridge/rust/kt-bridge/src/queue.rs:125-145 | Over all interleavings of any number of pollers: no lost wakeup (a parked, un-notified poller implies empty, open, no wake), accepted pushes = drained batches + queue, and each wake ever issued is still stored or released exactly one poll that came back with nothing from an open queue before its deadline. |
| `Queue.WakesReleaseExactly` | core-bridge/rust/kt-bridge/src/queue.rs:348-352 | n wakes into an idle open queue let exactly the next n polls go, empty-handed, and the one after them waits. |
| `Queue.PollsAreBounded` | core-bridge/rust/kt-bridge/src/queue.rs:273-299 | No poll spins: over any run it takes three steps a call and one more trip for each time it was woken. |
| `Queue.DeadlineEndsThePoll` | core-bridge/rust/kt-bridge/src/queue.rs:288-298 | A poll whose deadline has passed stays so and returns from its next trip, whatever that finds. |
| `Queue.NothingForAReason` | core-bridge/rust/kt-bridge/src/queue.rs:273-299 | Over all runs a poll comes back with nothing from an open queue only because it took a wake, its deadline passed while it waited, or it was just looking; a spurious wakeup is no reason. |
| `Queue.ResultsAreTrue` | core-bridge/rust/kt-bridge/src/queue.rs:307-315 | What a poll of any run reports: the number it drained; shutdown only with nothing drained and nothing ever to come; zero only from an open queue. |
| `Queue.EveryEventReleasesParked` | core-bridge/rust/kt-bridge/src/queue.rs:173-180 | A push, close or wake releases every parked poller and makes its next trip leave; a spurious wakeup only makes it look again. |
| `Queue.EndIsForever` | core-bridge/rust/kt-bridge/src/queue.rs:221-229 | Once closed and drained, nothing is accepted and every poll that locks reports shutdown. |
| `Queue.ShutdownIsFinal` | core-bridge/rust/kt-bridge/src/queue.rs:307-315 | When any poll of a run reports shutdown everything accepted had been drained, and every later poll that locks reports shutdown too. |
| `Queue.CompletionQueue.PushBack` | core-bridge/rust/kt-bridge/src/queue.rs:173-180 | Appends, or drops into a closed queue and says which handle the drop releases. |
| `Queue.CompletionQueue.Attempt` | core-bridge/rust/kt-bridge/src/queue.rs:275-305 | One trip in place equals the specification, with the drained prefix and the closed flag of the same critical section. |
| `Queue.CompletionQueue.Await` | core-bridge/rust/kt-bridge/src/queue.rs:273-304 | The wait loop equals its specification for every sequence of wait outcomes. |
| `Queue.PollerEntry.EnterPoll` | core-bridge/rust/kt-bridge/src/queue.rs:253-265 | The checks before the lock, in order; an overlapping poll is rejected with flag and slab untouched. |
| `Queue.PollerEntry.Reserve` | core-bridge/rust/kt-bridge/src/queue.rs:317-323 | The slab is grown once before the first pointer of a batch and never shrinks. |
| `Queue.PollerEntry.Put` | core-bridge/rust/kt-bridge/src/queue.rs:117-122 | Writes exactly the next free range and no other byte. |
| `Queue.PollerEntry.WriteBatch` | core-bridge/rust/kt-bridge/src/queue.rs:317-344 | Every record's pointer and length denote its own payload in the one slab, ranges are disjoint, ordered and in bounds, and the drained completions no longer own a handle. |
| `Queue.PollerEntry.Poll` | core-bridge/rust/kt-bridge/src/queue.rs:247-345 | One whole poll: rejected without any change, or the outcome of the wait loop with the flag down again and the drained batch laid out in the slab. |
| `Queue.EarlierPayloadsSurvive` | core-bridge/rust/kt-bridge/src/queue.rs:113-122 | Writing the next payload leaves every payload already denoted intact. |
| `Slab.RunsAreSafe` | core-bridge/rust/kt-bridge/src/queue.rs:152-164 | Over all interleavings of any number of pollers polled from any threads: the flag says exactly whether a poll is inside, slabs never share memory, every record denotes its own payload, ranges are disjoint and in bounds. |
| `Slab.RoomForEveryRecord` | core-bridge/rust/kt-bridge/src/queue.rs:317-330 | The one reservation before the batch is enough for every record of it. |
| `Slab.BatchesAreWrittenOut` | core-bridge/rust/kt-bridge/src/queue.rs:317-344 | Over any run each drained batch costs its poll exactly one reservation, one record for each completion, and its return; an empty one just the return. |
| `Slab.WriterCanGoOn` | core-bridge/rust/kt-bridge/src/queue.rs:317-344 | Whatever others do, a poll that has drained a batch can always take the next of these steps. |
| `Slab.BatchLastsUntilOverwritten` | core-bridge/rust/kt-bridge/src/queue.rs:98-101 | Until the poller's own next write begins nothing changes its records or the bytes they point to. |
| `Slab.BatchOutlivesThePoll` | core-bridge/rust/kt-bridge/src/queue.rs:153-164 | After a poll has returned, its records stand for exactly the drained completions and denote their payloads until that poller's next accepted poll, whatever other pollers, overlapping calls and other memory users do. |
| `Slab.OtherMemoryIsArbitrary` | core-bridge/rust/kt-bridge/src/queue.rs:153-164 | What these runs let everybody else do to memory that is no slab is anything at all. |
| `Slab.OverlapIsRejectedIff` | core-bridge/rust/kt-bridge/src/queue.rs:253-265 | A poll is turned away if and only if it has no buffer or an accepted poll of the same poller has not returned, and then, as with a poll for nothing, it changes nothing. |
| `Slab.QueuePartSteps` | core-bridge/rust/kt-bridge/src/queue.rs:247-345 | Seen from the queue each step is one named step of the queue system or none, an accepted poll finding its poller idle. |
| `Requests.StepKeepsOnce` | core-bridge/rust/kt-bridge/src/runtime.rs:192-234 | Every step of register, cancel, settle, panic, create, retire, push, drain keeps "outstanding with no answer, being pushed under the lock, or answered exactly once". |
| `Requests.EveryRequestIsAnsweredOnce` | core-bridge/rust/kt-bridge/src/runtime.rs:179-234 | Over all interleavings, ids reused after retirement included, every accepted registration is outstanding with no answer or absent with exactly one; the queue is closed only with the table empty. |
| `Requests.TerminalPushIsAccepted` | core-bridge/rust/kt-bridge/src/runtime.rs:76-91 | No terminal completion meets a closed queue: the pusher's own result, or the shutdown error of the id being drained, is appended. |
| `Requests.UnusedIdsAreAnsweredOnce` | core-bridge/rust/kt-bridge/src/runtime.rs:179-191 | A caller that never reuses an id is sent exactly one terminal completion under it, and none while it is outstanding. |
| `Requests.SettledResultNeverChanges` | core-bridge/rust/kt-bridge/src/runtime.rs:210-227 | What a task settled on is what it later pushes or drops. |
| `Requests.EveryAnswerTellsWhatHappened` | core-bridge/rust/kt-bridge/src/runtime.rs:179-227 | Over all runs each completion a request is answered with has the id, status, message, kind and handle of the event that decided it: the operation's own result or creation, its panic, the cancellation it saw, or the shutdown. |
| `Requests.TasksTakeThreeSteps` | core-bridge/rust/kt-bridge/src/runtime.rs:209-228 | A request task takes three steps in all: it settles, retires its id, and pushes or drops its result. |
| `Requests.TaskCanGoOn` | core-bridge/rust/kt-bridge/src/runtime.rs:209-228 | Whoever holds the pending lock can always go on, and once it is free so can every task that has not ended. |
| `Requests.LockIsReleased` | core-bridge/rust/kt-bridge/src/runtime.rs:76-91 | The pending lock is kept across exactly one push by a finishing task, and across one answer per outstanding id and the closing by the drain. |
| `Requests.CancelledIff` | core-bridge/rust/kt-bridge/src/runtime.rs:69-91 | Over all runs a registration's token is cancelled if and only if a cancel request or the shutdown drain found that registration under its id. |
| `Requests.QueueIsFirstInFirstOut` | core-bridge/rust/kt-bridge/src/queue.rs:173-180 | Events and answers of a run leave the queue in the order they were pushed; none is lost, repeated or accepted after closing. |
| `Requests.ClosingIsFinal` | core-bridge/rust/kt-bridge/src/runtime.rs:76-91 | Once the drain has begun no registration is accepted; once it has ended nothing is outstanding and the queue takes nothing more; an abandoned queue has no task or poller left. |
| `Requests.StepConservesHandles` | core-bridge/rust/kt-bridge/src/queue.rs:84-96 | Completions carrying a handle enter only by a creation and leave only by being dropped or written out. |
| `Requests.StepKeepsOneOwner` | core-bridge/rust/kt-bridge/src/queue.rs:325-343 | Every other step keeps the single owner, and a dropped completion never takes back a handle the JVM was given. |
| `Ownership.LiveIsTheTable` | core-bridge/rust/kt-bridge/src/handle.rs:58-66 | In every joint run of one runtime's request side and the table all runtimes share, the handles the one calls live are exactly that runtime's clients and servers in the other, word for slot, whatever other runtimes create and free. |
| `Ownership.DeliveredHandlesHaveTheirKind` | core-bridge/rust/kt-bridge/src/queue.rs:84-96 | A handle handed to the JVM as a connected client, or as a started server, passes the table's check for that kind and belongs to this runtime. |
| `Ownership.ReissuedIff` | core-bridge/rust/kt-bridge/src/handle.rs:68-87 | An insertion by any runtime issues a word that a completion still carries if and only if the kinds agree and its slot was emptied a multiple of 2^24 - 1 times since. |
| `Ownership.NobodyReissuesCarried` | core-bridge/rust/kt-bridge/src/handle.rs:68-87 | If a slot is emptied fewer than 2^24 - 1 times while a completion naming it is undelivered, no runtime is ever issued a carried word. |
| `Ownership.EveryHandleHasOneOwner` | core-bridge/rust/kt-bridge/src/queue.rs:82-96 | Under that bound every client and server of the runtime in the table is carried by exactly one undelivered completion or is the JVM's, never both and never neither. |
| `Ownership.OneOwnerIff` | core-bridge/rust/kt-bridge/src/queue.rs:82-96 | Over any joint run, bounded or not: every state gives every word one owner if and only if no creation of the runtime completes such a cycle. |
| `Ownership.FullCycleBreaksOwnership` | core-bridge/rust/kt-bridge/src/queue.rs:82-96 | A run that completes the cycle, built removal by removal, gives one word two carriers. |
| `Ownership.CarriedWordFindsItsOwn` | core-bridge/rust/kt-bridge/src/queue.rs:84-96 | Under the bound, whatever the shared table holds under a carried word is the very entry its creation made under its own runtime. |
| `Ownership.DropSparesOtherRuntimes` | core-bridge/rust/kt-bridge/src/queue.rs:84-96 | A runtime's dropped completions, also those of a runtime freed long before whose slots others have refilled, leave every entry of every other runtime as it is. |
| `Ownership.BothSidesReleaseAlike` | core-bridge/src/main/kotlin/com/surrealdev/temporal/core/kt/Pump.kt:217-224 | Whichever side a completion is discarded on, the JVM's release and native code's drop take the same handle out of the table, and none for a failure or another kind. |
| `Ownership.NoHandleOutlivesTheQueue` | core-bridge/rust/kt-bridge/src/queue.rs:82-96 | Once the abandoned queue has been dropped the runtime's clients and servers in the table are exactly the JVM's: cancellation, a closed queue and a dropped queue leak none. |
| `Requests.RuntimeEntry.RegisterRequest` | core-bridge/rust/kt-bridge/src/runtime.rs:46-61 | Shutdown is checked first, then the duplicate; a rejection leaves the earlier registration in place. |
| `Requests.RuntimeEntry.RetireRequest` | core-bridge/rust/kt-bridge/src/runtime.rs:65-67 | Removes the id and says whether it was there. |
| `Requests.RuntimeEntry.CancelRequest` | core-bridge/rust/kt-bridge/src/runtime.rs:69-73 | Cancels the registered token and nothing else; an unknown id is harmless. |
| `Requests.RuntimeEntry.FinishRequest` | core-bridge/rust/kt-bridge/src/runtime.rs:223-227 | Enqueues if and only if this call retired the id; otherwise the result's handle is released. |
| `Requests.RuntimeEntry.DrainPendingForShutdown` | core-bridge/rust/kt-bridge/src/runtime.rs:76-91 | Every outstanding id is cancelled and answered once with the shutdown error, after what was queued; the table is empty and the queue closed. |
| `Tracker.CounterCoversEverything` | core-bridge/rust/kt-bridge/src/runtime.rs:196-232 | The tracker count is exactly the reservations, unfinished requests, live servers and scheduled cleanups; it is zero if and only if there are none. |
| `Tracker.FreeLeavesNothingRunning` | core-bridge/rust/kt-bridge/src/runtime.rs:164-168 | When the wait in `free_runtime` has returned no request task runs, every started server has been reaped, no cleanup is outstanding, and each later request is rejected. |
| `Tracker.StartedServersAreReaped` | core-bridge/rust/kt-bridge/src/ephemeral.rs:55-101 | A server started at any point of a run stays accounted for and is reaped by the time free returns. |
| `Tracker.WorkIsBounded` | core-bridge/rust/kt-bridge/src/runtime.rs:164-232 | Every request, server and cleanup of a run is accounted for, and the steps taken for them and for the free are bounded by their number. |
| `Tracker.FreeNeverBlocks` | core-bridge/rust/kt-bridge/src/runtime.rs:164-168 | Until `free_runtime` has returned something it waits for can take one of its remaining steps; with the bound, it returns once nothing new arrives. |
| `Tracker.EphemeralEntry.Shutdown` | core-bridge/rust/kt-bridge/src/ephemeral.rs:55-65 | The child is reaped by the first shutdown only, and its reservation goes with it. |
| `Tracker.EphemeralEntry.DropLast` | core-bridge/rust/kt-bridge/src/ephemeral.rs:86-100 | The cleanup is counted before the reservation is dropped: the count never dips below its start. |
| `Worker.StepKeepsInv` | core-bridge/rust/kt-bridge/src/worker.rs:230-286 | Each step of start, pumps, free, shutdowns and finalizers keeps who holds the core, who is started, the pump count and the finalization state consistent. |
| `Worker.RunsAreSafe` | core-bridge/rust/kt-bridge/src/worker.rs:632-726 | Over all interleavings: `live_pumps` equals pumps not left plus those still to spawn, and references are exactly what the phases say. |
| `Worker.FinalizeRunsOnceAndLast` | core-bridge/rust/kt-bridge/src/worker.rs:696-713 | `finalize_shutdown` runs at most once, only on a started worker whose three pumps have left and with no other clone of the core, and none can be taken afterwards. |
| `Worker.DrainingImpliesStarted` | core-bridge/rust/kt-bridge/src/worker.rs:635-659 | A draining state seen outside the shutdown critical section belongs to a started worker. |
| `Worker.FreeMissesNoPump` | core-bridge/rust/kt-bridge/src/worker.rs:250-286 | After `free` every poll task ever spawned has been aborted and none can be spawned. |
| `Worker.PolledPumpsDropFirst` | core-bridge/rust/kt-bridge/src/worker.rs:115-143 | A pump that has run keeps the pump counter up until it has dropped its clone of the core. |
| `Worker.CallsHoldWhileBorrowed` | core-bridge/rust/kt-bridge/src/worker.rs:86-93 | A call counts as a user of the core exactly from taking it to dropping it. |
| `Worker.QueuesAreExact` | core-bridge/rust/kt-bridge/src/worker.rs:632-681 | Nobody who waits for `shutdown_lock` is forgotten: shutdown calls are queued, inside, or withdrawn, and each expired grace leaves exactly one background finalizer, waiting for the pumps or for the lock until it has had it. |
| `Worker.ExpiredGraceIsFollowedUp` | core-bridge/rust/kt-bridge/src/worker.rs:662-681 | From the moment a grace expires the worker is finalized or somebody is bound to finalize it, until a finalizer gives up. |
| `Worker.HolderStepsAreBounded` | core-bridge/rust/kt-bridge/src/worker.rs:632-726 | Whoever takes `shutdown_lock` leaves it after at most nine steps, and three for every time it tries the unwrap again. |
| `Worker.CoreFinishesUnderTheLock` | core-bridge/rust/kt-bridge/src/worker.rs:632-713 | From the successful unwrap until Core has finished or the caller is gone the shutdown lock is held: no other shutdown or finalizer gets in. |
| `Worker.LockStepsAreExact` | core-bridge/rust/kt-bridge/src/worker.rs:230-286 | `start` keeps the state lock for five steps and `free` for one. |
| `Worker.OwnersCanGoOn` | core-bridge/rust/kt-bridge/src/worker.rs:632-726 | The owner of the state lock can always go on, and once that is free so can the owner of `shutdown_lock`. |
| `Worker.RunningIsNeverReentered` | core-bridge/rust/kt-bridge/src/worker.rs:635-648 | No step leads back to `Running`, and the number of finalize calls never falls. |
| `Worker.FinalizedIsFinalIff` | core-bridge/rust/kt-bridge/src/worker.rs:696-726 | A finalized worker stays finalized in every continuation if and only if no finalizer has just been told of another reference, or is between its last look at the state and owning the core, asleep between tries included, while a pump or call still holds it. |
| `Worker.ForceCloseIsFinalIff` | core-bridge/rust/kt-bridge/src/worker.rs:276-286 | Over all runs: a force-close is final if and only if at that moment no finalizer was in such a position. |
| `Worker.RetryingRevives` | core-bridge/rust/kt-bridge/src/worker.rs:714-719 | Force-closing under a finalizer that has found another reference lets it store `Draining`, and calls get the core again. |
| `Worker.ForceCloseCanBeRevived` | core-bridge/rust/kt-bridge/src/worker.rs:714-719 | A concrete run from a new worker reaches that: freed, and draining again. |
| `Worker.WorkerEntry.Start` | core-bridge/rust/kt-bridge/src/worker.rs:230-272 | Idempotent; a first start stores three and records three fresh pumps; draining and finalized workers refuse. |
| `Worker.WorkerEntry.Free` | core-bridge/rust/kt-bridge/src/worker.rs:276-286 | The state is stored as finalized, every recorded pump is aborted, and the core to shut down is returned if one was held; whether the state stays so is `Worker.ForceCloseIsFinalIff`. |
| `Worker.WorkerEntry.BeginShutdown` | core-bridge/rust/kt-bridge/src/worker.rs:635-648 | The swap at the head of shutdown, case by case. |
| `Slots.TunerAcceptsOnlyWellFormed` | core-bridge/rust/kt-bridge/src/worker.rs:467-525 | What the tuner builds for each kind: a JVM or Core supplier with the given limits, or a fixed one; a JVM supplier has 1 <= maximum, minimum <= maximum, and at least two slots when sticky; only caching workflow slots are sticky. |
| `Slots.TunerAcceptsIff` | core-bridge/rust/kt-bridge/src/worker.rs:467-540 | A worker is refused if and only if a slot kind has both or impossible bounds, caching workflows have fewer than two slots, or the targets are invalid. |
| `Slots.ReservingKeepsBounded` | core-bridge/rust/kt-bridge/src/jvm_slots.rs:136-160 | A grant keeps the maximum and leaves a sticky supplier's other queue room for one. |
| `Slots.EmptyQueueIsAlwaysServed` | core-bridge/rust/kt-bridge/src/jvm_slots.rs:143-150 | A sticky queue without a permit is granted one whatever pressure and ramp say. |
| `Slots.StickyNeedsTwo` | core-bridge/rust/kt-bridge/src/worker.rs:520-524 | The tuner's bound is exact: an empty sticky supplier grants anything if and only if its maximum is at least two. |
| `Slots.ReservationsNeverEnable` | core-bridge/rust/kt-bridge/src/jvm_slots.rs:136-160 | Another caller's reservation never turns a refusal into a grant. |
| `Slots.RunsAreSafe` | core-bridge/rust/kt-bridge/src/jvm_slots.rs:62-160 | For every accepted configuration and every run of reserve, drop, update, clock and wait steps: bounds, exact counters and informed waiters. |
| `Slots.PermitsAreBoundedAndFair` | core-bridge/rust/kt-bridge/src/jvm_slots.rs:136-169 | Held permits never exceed the maximum, the gate's counter is issued plus halfway-dropped permits, and a sticky queue holding none is served. |
| `Slots.BelowMinimumIsServedIff` | core-bridge/rust/kt-bridge/src/jvm_slots.rs:143-150 | In every reachable state with fewer permits out than the minimum, a request is granted whatever pressure and ramp say, unless the last slot is kept for the other queue. |
| `Slots.FromMinimumIsServedIff` | core-bridge/rust/kt-bridge/src/jvm_slots.rs:143-152 | From the minimum on a queue that is not an empty sticky one is served if and only if a slot is left for it, the gate is open, and the ramp has passed since the latest grant to anybody. |
| `Slots.GrantsHaveAReason` | core-bridge/rust/kt-bridge/src/jvm_slots.rs:136-160 | Every permit of a run was handed out below the minimum, to an empty sticky queue, or through an open gate a ramp after the latest grant, and never beyond the maximum. |
| `Slots.DropsTakeThreeSteps` | core-bridge/rust/kt-bridge/src/jvm_slots.rs:62-68 | Dropping a permit is its three effects, once each. |
| `Slots.WaitsAreBounded` | core-bridge/rust/kt-bridge/src/jvm_slots.rs:114-133 | No waiter spins: four steps for each time it was woken and four more; and no notification is kept for a waiter that has not registered. |
| `Slots.WaiterCanGoOn` | core-bridge/rust/kt-bridge/src/jvm_slots.rs:114-133 | A waiter that is not parked, or is parked with a notification or a due timer, can go on. |
| `Slots.WaitersMissNoEvent` | core-bridge/rust/kt-bridge/src/jvm_slots.rs:114-133 | A refused, un-notified waiter that would now succeed at its own time has a releaser or updater about to notify. |
| `Slots.ServableWaiterProceedsIff` | core-bridge/rust/kt-bridge/src/jvm_slots.rs:126-132 | Over all runs: a parked waiter that the passing of time has made servable can go on by itself if and only if the ramp was still running when it parked. |
| `Slots.TimerlessWaiterIsReachable` | core-bridge/rust/kt-bridge/src/jvm_slots.rs:131 | A concrete run reaches a servable, parked, timerless waiter nobody is about to notify. |
| `Slots.JvmSlots.TryReserveSlot` | core-bridge/rust/kt-bridge/src/jvm_slots.rs:136-160 | The in-place attempt grants exactly when the specification does and updates issued, reserved and the clock. |
| `Slots.JvmSlots.DropPermit` | core-bridge/rust/kt-bridge/src/jvm_slots.rs:62-68 | Uncounts one permit and its statistic and notifies once. |
| `Slots.JvmSlots.AvailableSlots` | core-bridge/rust/kt-bridge/src/jvm_slots.rs:167-169 | Maximum minus issued, and never an underflow. |
| `TaskStream.RunsAreSafe` | core-bridge/src/main/kotlin/com/surrealdev/temporal/core/kt/KtWorker.kt:25-65 | With any number of cancellable receivers: a queued task and a parked receiver imply a buffered wakeup or somebody obliged to recheck or resend; each task taken is held or returned by exactly one call. |
| `TaskStream.TakeYieldsTheNext` | core-bridge/src/main/kotlin/com/surrealdev/temporal/core/kt/KtWorker.kt:43-50 | Over all runs each take yields the task next in send order. |
| `TaskStream.TasksLeaveInOrder` | core-bridge/src/main/kotlin/com/surrealdev/temporal/core/kt/KtWorker.kt:43-50 | A call that comes away with a task later than another comes away with one sent later. |
| `TaskStream.ThrowingCallsTookNothing` | core-bridge/src/main/kotlin/com/surrealdev/temporal/core/kt/KtWorker.kt:51-61 | A call that ended by throwing, for closure or cancellation, took no task. |
| `TaskStream.CancelledCallEnds` | core-bridge/src/main/kotlin/com/surrealdev/temporal/core/kt/KtWorker.kt:51-57 | From the moment it is cancelled a call only ever passes its wakeup on and throws: at no later point of any run has it taken a task or parked again. |
| `TaskStream.OwnStepsAreBounded` | core-bridge/src/main/kotlin/com/surrealdev/temporal/core/kt/KtWorker.kt:43-64 | No call spins: at most five steps of its own for each time a wakeup took it back to the top, and five more. |
| `TaskStream.CallCanGoOn` | core-bridge/src/main/kotlin/com/surrealdev/temporal/core/kt/KtWorker.kt:43-64 | A call that has not ended and is not parked can always go on. |
| `TaskStream.PassedOnForATask` | core-bridge/src/main/kotlin/com/surrealdev/temporal/core/kt/KtWorker.kt:45-57 | A wakeup is passed on only by a call that had just seen a task it leaves behind. |
| `TaskStream.ClosedChannelOnlyDrains` | core-bridge/src/main/kotlin/com/surrealdev/temporal/core/kt/KtWorker.kt:38-41 | A closed channel parks nobody and takes no new wakeup. |
| `TaskStream.ClosureComesLast` | core-bridge/src/main/kotlin/com/surrealdev/temporal/core/kt/KtWorker.kt:58-62 | With sends and close on one thread, closure is reported only after every task has been taken. |
| `TaskStream.ClosureComesLastIff` | core-bridge/src/main/kotlin/com/surrealdev/temporal/core/kt/KtWorker.kt:32-64 | A run keeps the promise throughout if and only if no send adds its task after closure has been reported. |
| `TaskStream.CloseIsSafeIff` | core-bridge/src/main/kotlin/com/surrealdev/temporal/core/kt/KtWorker.kt:32-41 | From any reachable state every continuation of a close keeps the promise if and only if it holds now and no send is between its closed check and its add. |
| `TaskStream.OtherThreadCloseStrandsTask` | core-bridge/src/main/kotlin/com/surrealdev/temporal/core/kt/KtWorker.kt:32-41 | A concrete run with close on another thread reaches closure reported with a task left behind. |
| `TaskStream.Stream.Send` | core-bridge/src/main/kotlin/com/surrealdev/temporal/core/kt/KtWorker.kt:32-36 | The in-place send: dropped once closed, otherwise queued with a wakeup left behind unless the channel is closed. |
| `TaskStream.Stream.Receive` | core-bridge/src/main/kotlin/com/surrealdev/temporal/core/kt/KtWorker.kt:43-64 | One receive up to its suspension, in place. |
| `Pump.RunsAreSafe` | core-bridge/src/main/kotlin/com/surrealdev/temporal/core/kt/Pump.kt:97-245 | Over all interleavings of callers, dispatch, cancellation, close and pump death at most one party may resume each continuation and every registered one has a party bound to answer it. |
| `Pump.HandlesAreFreedOnce` | core-bridge/src/main/kotlin/com/surrealdev/temporal/core/kt/Pump.kt:197-224 | A dispatched handle is with an active caller or was freed exactly once; nothing else is freed. |
| `Pump.NoCallerIsStranded` | core-bridge/src/main/kotlin/com/surrealdev/temporal/core/kt/Pump.kt:160-168 | Once the pump thread has ended normally every issued request was resumed or cancelled, and whoever is still registered has yet to see the flags. |
| `Pump.CallersGetTheirCompletion` | core-bridge/src/main/kotlin/com/surrealdev/temporal/core/kt/Pump.kt:197-214 | Over all runs: a dispatched completion went to its caller or to one that was cancelled; while the pump runs nothing polled is lost before dispatch; a caller is failed only when its start threw, it was refused, or the pump is dead, and never after its completion was dispatched. |
| `Pump.StoppedHoldsNothing` | core-bridge/src/main/kotlin/com/surrealdev/temporal/core/kt/Pump.kt:138-169 | A pump thread that has stopped polling holds no record of its last batch. |
| `Pump.PumpRunsUntilPollingEnds` | core-bridge/src/main/kotlin/com/surrealdev/temporal/core/kt/Pump.kt:138-158 | Dispatching never stops the pump: it leaves its loop when polling ends and for nothing else. |
| `Pump.CancelledCallersGetNothing` | core-bridge/src/main/kotlin/com/surrealdev/temporal/core/kt/Pump.kt:209-214 | A cancelled caller is handed nothing any more, even what its continuation had just been resumed with. |
| `Pump.ClosedPumpRefuses` | core-bridge/src/main/kotlin/com/surrealdev/temporal/core/kt/Pump.kt:103-114 | Whoever looks at the flags after `close` is refused. |
| `Pump.FailureLooksFirst` | core-bridge/src/main/kotlin/com/surrealdev/temporal/core/kt/Pump.kt:117-125 | The failure path resumes only a continuation it has found active. |
| `Pump.CallersTakeSevenSteps` | core-bridge/src/main/kotlin/com/surrealdev/temporal/core/kt/Pump.kt:97-136 | A request takes at most seven steps of its own, cancellation and delivery included. |
| `Pump.ThreadStepsAreBounded` | core-bridge/src/main/kotlin/com/surrealdev/temporal/core/kt/Pump.kt:138-169 | The pump thread takes at most two steps for each completion polled, three for each straggler, and three to stop. |
| `Pump.ThreadCanGoOn` | core-bridge/src/main/kotlin/com/surrealdev/temporal/core/kt/Pump.kt:138-169 | Until it has ended the pump thread can go on, unless it has crashed or has nothing to dispatch. |
| `Pump.CollisionNeedsThrownStart` | core-bridge/src/main/kotlin/com/surrealdev/temporal/core/kt/Pump.kt:117-125 | Only a continuation whose `start` threw can be resumed by two parties. |
| `Pump.CrashNeedsOvertaking` | core-bridge/src/main/kotlin/com/surrealdev/temporal/core/kt/Pump.kt:233-245 | Failing a straggler kills the thread if and only if earlier in the run that request's failure path resumed it after the thread had found it active. |
| `Pump.CrashedIff` | core-bridge/src/main/kotlin/com/surrealdev/temporal/core/kt/Pump.kt:138-169 | Over all runs the pump thread is dead before its end if and only if that has happened. |
| `Pump.StrandedIff` | core-bridge/src/main/kotlin/com/surrealdev/temporal/core/kt/Pump.kt:233-245 | With the thread gone an issued request is left active if and only if the thread crashed, the request is still registered and its caller was not cancelled. |
| `Pump.StrandedForever` | core-bridge/src/main/kotlin/com/surrealdev/temporal/core/kt/Pump.kt:233-245 | Such a request stays registered and active until its own caller is cancelled. |
| `Pump.ThrownStartCanStrandACaller` | core-bridge/src/main/kotlin/com/surrealdev/temporal/core/kt/Pump.kt:117-125 | A concrete run in which the unguarded resume strands another caller. |
| `RoundTrip.RunsAreSafe` | core-bridge/rust/kt-bridge/src/runtime.rs:179-234 | In every joint run of native side and pump the pump keeps all its guarantees without assuming what native code delivers. |
| `RoundTrip.PumpStepsAreLegal` | core-bridge/src/main/kotlin/com/surrealdev/temporal/core/kt/Pump.kt:197-214 | Every terminal completion that reaches the pump is one it has in flight: the joint run is a run of the pump's own system. |
| `RoundTrip.InFlightIff` | core-bridge/src/main/kotlin/com/surrealdev/temporal/core/kt/Pump.kt:97-136 | A request is in flight if and only if it was accepted and its one completion is not made yet or still on the way. |
| `Pump.PumpTable.Issue` | core-bridge/src/main/kotlin/com/surrealdev/temporal/core/kt/Pump.kt:97-114 | Insert first, then look at the flags: issued if and only if the pump can still answer, otherwise removed and failed. |
| `Pump.PumpTable.Dispatch` | core-bridge/src/main/kotlin/com/surrealdev/temporal/core/kt/Pump.kt:209-214 | Removes, resumes the active continuation, and says exactly when the handle must be freed. |
| `Pump.PumpTable.FailPending` | core-bridge/src/main/kotlin/com/surrealdev/temporal/core/kt/Pump.kt:233-245 | Empties the table, fails every active continuation and leaves the others as they were. |
| `Streams.StreamShape` | core-bridge/rust/kt-bridge/src/worker.rs:143-227 | A pump's events are its tasks, at most one error and one panic report, then one end and nothing after; ended if and only if a poll was terminal; all addressed to its own stream. |
| `Streams.RunPump` | core-bridge/rust/kt-bridge/src/worker.rs:143-227 | The pump loop appends exactly the specified events, or nothing to a queue already closed. |
| `Streams.MixKeepsEachStream` | core-bridge/rust/kt-bridge/src/queue.rs:173-180 | In any interleaving of any number of pumps a stream's own events are a prefix of what its pump emits, in order. |
| `Streams.StreamsDoNotInterfere` | core-bridge/src/main/kotlin/com/surrealdev/temporal/core/kt/KtWorker.kt:96-122 | A consumer sees its own events and nothing else, whatever else is in the queue. |
| `Streams.UnknownEventsChangeNothing` | core-bridge/src/main/kotlin/com/surrealdev/temporal/core/kt/KtWorker.kt:96-130 | An event that names none of the three streams, or an unknown worker, changes nothing at all. |
| `Streams.PumpReportsItsCause` | core-bridge/rust/kt-bridge/src/worker.rs:143-227 | The status and message a pump reports last are those of the panic its polls end in, otherwise of the first poll error, otherwise nothing. |
| `Streams.EachConsumerGetsItsOwnStream` | core-bridge/src/main/kotlin/com/surrealdev/temporal/core/kt/KtWorker.kt:96-130 | Each consumer's stream is handed its own pump's tasks in poll order, and is closed exactly when that pump's end arrived, with that pump's own panic or first poll error. |
| `Streams.KtWorker.ChannelFor` | core-bridge/src/main/kotlin/com/surrealdev/temporal/core/kt/KtWorker.kt:124-130 | The lookup loop finds exactly the three stream codes. |
| `Streams.KtWorker.HandleEvent` | core-bridge/src/main/kotlin/com/surrealdev/temporal/core/kt/KtWorker.kt:96-122 | The handler in place equals the specification. |
| `Delivery.RunsAreSafe` | core-bridge/src/main/kotlin/com/surrealdev/temporal/core/kt/KtWorker.kt:25-65 | With the handler's queue operations interleaved with any receivers: the stream holds exactly what the handler has been through, and is closed by it alone with no send half way through. |
| `Delivery.StreamPartSteps` | core-bridge/src/main/kotlin/com/surrealdev/temporal/core/kt/KtWorker.kt:96-122 | Seen from the stream each step is one named operation of the stream's own system, or none. |
| `Delivery.HandlerStepsAreBounded` | core-bridge/src/main/kotlin/com/surrealdev/temporal/core/kt/KtWorker.kt:96-122 | The handler works through the queue with at most three operations an event, whatever the receivers do. |
| `Delivery.HandlerCanGoOn` | core-bridge/src/main/kotlin/com/surrealdev/temporal/core/kt/KtWorker.kt:96-122 | No receiver can keep it from the next operation. |
| `Delivery.ReceiversGetTheirOwnStream` | core-bridge/src/main/kotlin/com/surrealdev/temporal/core/kt/KtWorker.kt:43-122 | End to end: tasks taken are the first ones the stream's own pump polled, in order; closure is reported only when that pump has ended and all its tasks have been taken, and carries that pump's panic or first poll error. |
| `Telemetry.UsedIsPicked` | core-bridge/rust/kt-bridge/src/telemetry.rs:63-67 | The drained definitions are the table's own entries, distinct and in id order. |
| `Telemetry.UsedHasAll` | core-bridge/rust/kt-bridge/src/telemetry.rs:63-67 | No definition a drained sample names is missing. |
| `Telemetry.RecordingSlidesTheWindow` | core-bridge/rust/kt-bridge/src/telemetry.rs:153-166 | Recording keeps the buffer equal to the last 65536 samples and the drop count equal to the rest. |
| `Telemetry.DrainShowsTheWindow` | core-bridge/rust/kt-bridge/src/telemetry.rs:60-95 | A drain shows exactly the end of its window, its drop count and the definitions its samples use. |
| `Telemetry.DeclaringKeepsTheIndex` | core-bridge/rust/kt-bridge/src/telemetry.rs:36-52 | Asking again answers the same id, ids are never reused, and definitions never disappear. |
| `Telemetry.RunsAreExact` | core-bridge/rust/kt-bridge/src/lib.rs:153-163 | Over every run of recorders and readers: windows partition all samples in order; each batch shows its window, then every line Core's log buffer gave up to its drain, in order, behind at most one dropped-samples warning; no line is lost or repeated; readers get every batch once, in order, except the one retained. |
| `Telemetry.EverySampleIsRecorded` | core-bridge/rust/kt-bridge/src/telemetry.rs:153-166 | Those samples are exactly the ones the recorders recorded, in order. |
| `Telemetry.RetrieveDeliversIff` | core-bridge/rust/kt-bridge/src/lib.rs:47-62 | A call drains a new batch if and only if none is retained, and hands over the batch at hand if and only if its pointers and buffer are good for it; otherwise that batch stays retained. |
| `Telemetry.FirstDeclarationStays` | core-bridge/rust/kt-bridge/src/telemetry.rs:36-52 | Over every run an instrument exists if and only if it has been declared, under one id, with the description and unit of its first declaration. |
| `Telemetry.RetainedUntilCopied` | core-bridge/rust/kt-bridge/src/lib.rs:153-163 | A batch stays as it is until a call whose buffer is big enough. |
| `Telemetry.LastWriteWins` | core-bridge/rust/kt-bridge/src/telemetry.rs:103-119 | The last write of an attribute wins, other keys keep their value, and no key appears twice. |
| `Telemetry.ExtendAttributes` | core-bridge/rust/kt-bridge/src/telemetry.rs:103-119 | The loop computes that extension. |
| `Telemetry.BridgeMeter.Instrument` | core-bridge/rust/kt-bridge/src/telemetry.rs:36-58 | Returns the id of the one definition with that name and kind, adding it if needed. |
| `Telemetry.BridgeMeter.Record` | core-bridge/rust/kt-bridge/src/telemetry.rs:153-166 | Drops the oldest when full, then appends. |
| `Telemetry.BridgeMeter.Drain` | core-bridge/rust/kt-bridge/src/telemetry.rs:60-95 | Returns the specified batch and empties buffer and drop count only. |
| `Telemetry.WriteOut` | core-bridge/rust/kt-bridge/src/lib.rs:47-62 | Copies in place only when it fits, always reports the full length as a 32-bit word, rejects null pointers where they matter. |
| `Telemetry.RuntimeMetrics.RetrieveMetrics` | core-bridge/rust/kt-bridge/src/lib.rs:153-163 | The retained batch, or a new drain, is offered; it is forgotten exactly when it was copied. |
| `Telemetry.ReadMetrics` | core-bridge/src/main/kotlin/com/surrealdev/temporal/core/kt/KtBridge.kt:230-247 | The reader's loop ends within two native calls; it returns the batch if and only if that is shorter than 2^31 bytes, and otherwise leaves it retained. |

## Left out

- Handles.RunsStayGood: an operation that inserts does so only while an index below 2^32 is left; what happens beyond that is `Handles.FreshHandleResolvesIff`.
- Ownership.EveryHandleHasOneOwner: holds for runs in which a slot is emptied fewer than 2^24 - 1 times while a completion naming it is undelivered; `Ownership.OneOwnerIff` is the exact condition and `Ownership.FullCycleBreaksOwnership` a run beyond it.
- Ownership.LiveIsTheTable: a joint run gives the runtime's own word to that runtime only; another runtime is issued it no sooner than after 2^24 - 1 removals of its slot (`Handles.ReissueNeedsFullCycle`).
- TaskStream.ClosureComesLast: asks that no send is half way through when the stream is marked closed; `TaskStream.CloseIsSafeIff` is the exact condition.
- Delivery.ReceiversGetTheirOwnStream: the stream is fed by its event handler alone; a runtime that closes it from another thread is `TaskStream.CloseIsSafeIff`.
- Telemetry.DrainShowsTheWindow: the drop count is an unbounded number, not a 64-bit counter.
- Liveness and fairness: the theorems say that nobody is forgotten, that everyone obliged to act can, and after how many own steps they are through; not that a scheduler lets them.
- Queue.PollsAreBounded: spurious wakeups count as wakings, and a condition variable may deliver any number of them.
- RoundTrip.RunsAreSafe: the pump polls a record in the step that writes it out; a batch that has been written and not yet looked at is part of the pump's `batch`.
- Freeing a poller: its slab goes with it, after which its pointers denote nothing; the pump thread frees its own poller last.
- Delivered handles going stale: a handle the JVM was given may already have left the table with its runtime, which the step systems allow (`RemoveHandles`).
- Concurrency inside the class methods: each models one critical section or one call between suspensions; interleaving is the step systems' part. The environment of the poll wait loop is a sequence of wait outcomes.
- SDK-Core, Tokio, tonic and kotlinx: represented by small contracts (lock, condition variable, notify with registration, task tracker count, unique-reference unwrap, conflated channel with prompt cancellation).
- RPC dispatch, client connection options, TLS and identity defaults: tables and one-branch mappings.
- Protobuf encoding: a batch's bytes are an arbitrary function of the batch.
- Decoding of request options and entry-point null checks other than `write_out`: one-branch validations.
- FFM bindings, the ABI probe, library loading and platform detection: foreign calls.
- Process spawning, stdio redirection and the pid registry: a server start is one step, its reaping another.
- Resource sampling and the PID controller: the gate mask is an arbitrary input; the tuner's float targets are one flag.
- The other slot kinds sharing a gate: they reach a supplier only as extra notifications.
- Closing a runtime on the JVM side (its synthetic stream ends) and log or server-event routing beyond ignoring them per worker.
- OpenTelemetry replay, logging, build scripts.
- 64-bit counters (`wakes`, request ids, sample counts) are unbounded numbers.
