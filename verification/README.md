# Verified model of the WAIO core

WAIO runs asynchronous I/O for one file handle with any number of client
threads, one loop thread and one blocking I/O thread. They share a block of
slots, an intrusive queue and free list, counters, notification events and two
compare-and-swap words. This project models that core in Dafny and proves what
holds in every state of every run, and, where a promise does not hold, exactly
when it does and a run that breaks it.

`dafny verify dfyconfig.toml` checks the whole project.

## Modules

- `AiocbStatus`: the status of a request.
- `Protocol`: the threads as a step system. Every shared read, write,
  compare-and-swap or event call of `waio_submit_single_request`, `waio_cancel`,
  `waio_loop`, `waio_enqueue`, `waio_dequeue` and `waio_io` is one step; a thread
  that waits with nothing signalled, or would follow a null or dangling pointer,
  has no step. Fields marked as history are read by no step.
- `Ownership`, `Counters`, `CancelLock`: inductive invariants; `Invariant` joins
  them and carries them along every run; `Theorems` says what they mean.
  `CancelRuns`: what a caller of `waio_cancel` gets over a whole run, and
  `CancelProgress` within how many steps of the loop.
- `EndToEnd`: one outstanding request, no cancellation, no abort. `Progress`: the
  same system never blocks for good. `BoundedProgress`: within how many steps.
- `ThreadShutdown`: the bounded end of the I/O thread. `AbortRuns`: what `waio_free`
  sets going, from the abort to the end of both threads.
- `Dispatching`: the two dequeues of an iteration and the pass between them, over
  whole runs. `Events`: when each event is signalled. `GivingUp`: when a contended call gives up.
- `PoolSpec`: what queue and free list mean. `PoolRefinement`, `PoolCancel`: the
  pointer operations are those operations. `StaleTail`: the pool after the
  unlink of its last request. `DrainedPool`: the pool after a cancellation of
  everything. `SlotPass`: one pass over slots that clients are publishing in.
  `RequestPool`: the class that works on the node memory in place.
- `PoolRuns`: the pool inside every run of the protocol. `RequestTally`: how many
  requests are where, and which ones were taken. `InFlight`: what the node of the
  running request holds. `Completions`: when the completions are those of the
  dispatched requests. `OwnCalls`: when each call has the opcode of its request.
- `HandOff`: the fine steps of `cx_after_io` against `waio_suspend`.
  `SuspendCall`: `waio_suspend` in place, for what it opens and closes.
- `InitOnce`: `waio_xvtbls_init_once`. `HexCodec`: the hexadecimal routines.
- `Reaching`, `TwoClients`: building runs step by step. `Replacement`, `NodeReuse`,
  `EarlySubmission`, `CancelledRun`, `ResubmittedCancel`, `ReusedAiocb`, `FreedRun`:
  the runs that break a promise.

Which step stands for which lines: `SubmitStep` is
src/llapi/waio_submit_single_request.c:51-167, `EnterCancel` and `CancelCallStep`
src/waio_cancel.c:53-146, `FreeStep` src/waio_free.c:45-65, `LoopWaitStep`
src/llapi/waio_loop.c:59-77 with src/llapi/waio_thread_shutdown.c:46-112 and
src/waio_alloc.c:232-245, `LoopCancelStep` src/llapi/waio_loop.c:79-90
with src/waio_cancel.c:275-294, `LoopAckStep` src/llapi/waio_loop.c:92-112,
`LoopDequeueStep` src/llapi/waio_dequeue.c:29-59, `LoopQueueStep`
src/llapi/waio_loop.c:114-125 with src/llapi/waio_enqueue.c:33-98, `IoBeginStep`
src/llapi/waio_io.c:81-125 with src/waio_alloc.c:135-158, `IoCallStep`
src/llapi/waio_io.c:112-148, `IoHookStep` src/llapi/waio_io.c:150-151 with
src/waio_alloc.c:161-203, `IoCompleteStep` src/llapi/waio_io.c:153-185.

## What was found

- `waio_dequeue` never looks at `packet`. With two requests outstanding the
  second dispatch can replace the first; the first is then never run, and the
  I/O thread later finds no packet and ends (`Replacement.FirstIsLost`). This
  needs two outstanding requests (`RequestTally.ReplacementNeedsTwo`).
- `waio_dequeue` frees the node of the request it dispatches, and the next request
  taken from a slot is written into that node. If that happens while the first
  one runs, the second is credited with the first one's result and stays queued,
  and the first is nowhere, although nothing was replaced
  (`NodeReuse.RunningNodeIsReused`). The running node keeps its job exactly as
  long as nothing is taken (`InFlight.RunningNode`); while nothing is taken or
  dispatched with a packet in flight, every completion is the dispatched
  request's own (`Completions.CompletedAsDispatched`), and one outstanding
  request at a time is enough for that (`Completions.OneAtATimeIsOwn`).
- A request counts as complete in these results when its packet has been
  cleared. `cx_after_io` sets the status before that. A client that submits its
  next request on seeing SUCCESS can be too early: the first request loses its
  result, the second is lost and the I/O thread ends
  (`EarlySubmission.SuccessIsTooEarly`). What a status tells is
  `EndToEnd.TerminalIffComplete`. A wait in `waio_suspend` that was ended by the
  waiter's own event is late enough (`HandOff.OwnHandleMeansCleared`), but a caller
  cannot tell such a wait from the check before it: both return 0.
- Status is published before the result as well: `waio_suspend` can return 0 for an
  aiocb whose `iosb` is not there yet (`HandOff.ReturnsBeforeResult`).
- A single cancel of the last queued request leaves `qtail` on the freed node.
  Whatever is taken from the slots from then on is lost until the rest of the
  queue has been dispatched, and for ever if there is no rest
  (`StaleTail.LostAfterUnlink`, `StaleTail.LostForEver`).
- Cancelling everything leaves `queue` and `qtail`. The queue then leads from its
  first cancelled node into the whole free list: the next `waio_dequeue`
  dispatches a cancelled request and closes the drained nodes into a ring
  (`PoolCancel.CancelledIsDispatched`), and the ones after it dispatch the free
  nodes one by one, requests that have run before and nodes that were never used,
  whose packet names no aiocb, while nothing that is submitted is queued
  (`DrainedPool.OldFreeIsDispatched`, `DrainedPool.DispatchesThemAll`). With
  one request queued, a single new one is dispatched twice
  (`DrainedPool.DispatchedTwice`); when as many are taken before the next dequeue
  as had been queued, all but the last of those are lost
  (`DrainedPool.LostThenRejoined`).
- A submission sets the whole opaque block of its aiocb to 0, the event and the
  answer of a cancellation included. If the aiocb is being cancelled meanwhile,
  `waio_cancel` can return CANCELED whatever the loop answered
  (`ResubmittedCancel.AnswerIsLost`), before the loop has looked at it
  (`ResubmittedCancel.AnswersUnserved`), or never
  (`ResubmittedCancel.CallerIsStranded`). What a call returns, and when it is
  woken, exactly: `CancelRuns.CallerGetsItsAnswer`,
  `CancelRuns.VerdictIffNotCleared`, `CancelRuns.WokenIffNotCleared`.
- The same submission sets the request pointer to null. `cx_before_io` reads the
  opcode through it and follows it when the aiocb's earlier request is dispatched
  next (`ReusedAiocb.SubmittedTwice`); each call has its own opcode as long as no
  aiocb is submitted again while in use (`OwnCalls.CalledAsDispatched`).
- The loop cancels before it enqueues: a request still in its slot is answered
  CANCELED, then taken, dispatched and run (`CancelledRun.CancelledIsRun`). When
  exactly a request of a cancelled aiocb survives the iteration is
  `RequestPool.Pool.Iterate`.
- Cancelling one aiocb reads `packet` up to three times while the I/O thread may
  clear it, and follows it when it is null then (`RequestPool.Pool.CancelOne`);
  cancelling everything follows it without a test. The single cancel also closes
  whatever the word of the aiocb holds: the event of a suspended waiter, which the
  waiter closes again, or a -1 (`SuspendCall.ClosedTwice`).
- `waio_enqueue` tests `qfree` once, before its loop; it then follows a null
  pointer exactly when there are some free nodes, but fewer than the slots it
  finds published. The same holds after an unlink of the last request; when one
  more has been dispatched since, it never does, because it takes two nodes in
  turn (`RequestPool.Pool.Enqueue`).
- `waio_suspend` on two or more aiocbs, or on one with a user event, can block
  although a completion has ended, and in no other case: a word that a completion
  has taken gets no handle (`HandOff.MissedExactly`). A blocked waiter is signalled exactly when some
  finished completion had its handle installed (`HandOff.WokenExactly`).
- When `waio_cancel` cannot create or reset its event it returns with the lock
  held, and nobody gets the lock again (`CancelledRun.LockIsLeaked`,
  `CancelRuns.LeakedIffPrepareFailed`, `CancelRuns.LeakIsForever`).
- A request that `waio_free` interrupts ends CANCELLED only if the I/O thread tests
  the abort counter before the loop takes the abort off it
  (`AbortRuns.InterruptedCall`). Otherwise it ends SUCCESS, with no result
  (`FreedRun.AbortedShowsSuccess`).
- `waio_io` always passes status 0 to `cx_after_io`, so the other two cases of
  its switch (src/waio_alloc.c:189-199) are never taken: a request that ran
  becomes SUCCESS whatever its result.

## Model

| member | source | states |
|---|---|---|
| Theorems.NoLostWakeup | src/llapi/waio_loop.c:60-67 | in every state of every run: while the loop waits, a published slot, an uncollected completion, a cancellation or an abort is signalled or its producer is still before its set-event |
| Theorems.NoLostIoWakeup | src/llapi/waio_io.c:86-92 | the same for both waits of the I/O thread: dispatched work and acknowledgements |
| Theorems.QueueAccounting | src/llapi/waio_submit_single_request.c:81-85 | queue_counter plus the clients between publication and increment is the number of published slots, in every interleaving, outside the consumption of one slot |
| Theorems.DispatchConservation | src/llapi/waio_dequeue.c:35-55 | io_counter is packet + unacknowledged completions + replaced packets, with no discipline on clients; io_counter >= data_counter >= 0 between dispatches |
| Dispatching.AcknowledgementDispatches | src/llapi/waio_loop.c:98-107 | over every run: between the decrement and the reset of the I/O event an acknowledgement dispatches the head of the queue if and only if there is one; its node is free, it is counted in place of the completed one, the event has been set |
| Dispatching.IterationDispatches | src/llapi/waio_loop.c:120-125 | the same for the dequeue at the end of an iteration, before the reset of the request event |
| Dispatching.FullPoolTakesNothing | src/llapi/waio_enqueue.c:42-45 | with no node free the loop goes from the test to the last dequeue, slots and counter untouched; otherwise to the first slot |
| Dispatching.PassVisitsEverySlot | src/llapi/waio_enqueue.c:45-95 | a pass that has come to its end has had a turn for each of the four slots, and taken the request of each that was published at its turn |
| Theorems.StrictAlternation | src/llapi/waio_io.c:153-185 | data_counter is 0 or 1; each pass is acknowledged exactly once; the completion event is signalled only between the increment and the reset |
| Theorems.SlotOwnership | src/llapi/waio_submit_single_request.c:97-122 | no two clients write one slot; a published slot has an owner; the loop takes the whole job its owner reserved the slot for, after WAIT_1 |
| Theorems.EmptyPacketExactly | src/llapi/waio_io.c:112-125 | dispatch conservation at the packet test: there is no packet if and only if the dispatches still counted are as many as the replaced ones; without a replacement only on an abort |
| Theorems.ReplacementLeadsToEmptyPacket | src/llapi/waio_io.c:86-125 | over whole runs: after a replacement the I/O thread, from the top of its loop and with nothing new dispatched, always has a step, and within four steps it has passed its wait, found no packet and ended |
| Theorems.CancelHandOff | src/waio_cancel.c:61-146 | at most one cancellation is in progress; cancel_counter is 0 or 1 and nonzero only under the lock; the served aiocb is that of a client still inside its call, unless a submission has taken its event away, which never happens to one on a stack |
| Invariant.InvNext | src/llapi/waio_loop.c:53-126 | every step of every thread keeps the joint invariant of slots, counters, events and cancellation lock |
| CancelProgress.ServedWithin | src/llapi/waio_loop.c:59-90 | over every run: once a cancellation is counted the loop has served it and released the lock within 46 of its own steps, unless an abort stops it before that; the event of the cancellation ends its wait |
| CancelRuns.CallerGetsItsAnswer | src/waio_cancel.c:101-146 | over whole runs, when no other call names the aiocb: a call returns the verdict the loop wrote for that very request; or 0, if the aiocb was submitted after that; or 0 unserved, if it was submitted after the event was prepared; without such a submission always the verdict |
| CancelRuns.VerdictIffNotCleared | src/waio_cancel.c:284-290 | a call that was served returns the verdict written for it if and only if the aiocb was not submitted between, or the verdict is the 0 that a submission leaves |
| CancelRuns.WokenIffNotCleared | src/waio_cancel.c:136-140 | a caller that waits on its event when its request has been served is woken if and only if nobody has submitted its aiocb since the event was prepared; otherwise it waits in the rest of the run |
| CancelRuns.StackCallerGetsItsAnswer | src/waio_cancel.c:53-59 | a caller that cancels everything, whose aiocb is on its stack, always returns the verdict of its own request |
| CancelRuns.LoopReleasesWhatItServed | src/llapi/waio_loop.c:79-90 | over whole runs: from its decrement to its release the loop finds the same lock word, so it releases the lock it served |
| CancelRuns.LeakIsForever | src/waio_cancel.c:101-126 | once a preparation has failed, the lock is held in the rest of the run and no client gets past it again |
| CancelRuns.LeakedIffPrepareFailed | src/waio_cancel.c:101-126 | over whole runs: the lock is leaked if and only if some preparation failed before |
| EndToEnd.RunsWhatWasSubmitted | src/llapi/waio_io.c:112-151 | one request at a time, submitted when the packet of the one before is cleared: call k is request k with its opcode, buffer, size and offset, and completion k goes to the aiocb of request k with the result of call k; none missing, none twice |
| EndToEnd.NeverFindsEmptyPacket | src/llapi/waio_io.c:112-125 | one request at a time: the null-packet branch is never taken, no packet is replaced, the thread never ends |
| EndToEnd.NeverFaults | src/llapi/waio_enqueue.c:54-88 | one request at a time: no pointer followed by either thread, the tail included, is null or dangling |
| EndToEnd.NeverStranded | src/llapi/waio_loop.c:60-67 | when both threads wait with nothing signalled and no producer is under way, everything submitted is complete |
| EndToEnd.TerminalIffComplete | src/waio_alloc.c:181-203 | outside submissions the last aiocb is terminal if and only if everything is complete or cx_after_io is between setting the status and clearing the packet; it holds the result of its own call from the copy on |
| EndToEnd.StatusTells | src/waio_alloc.c:144-203 | outside submissions the last aiocb is PENDING if and only if the I/O thread is between turning to the request and cx_after_io, SUCCESS if and only if cx_after_io has set it, WAIT_1 otherwise |
| EndToEnd.NopReportsPending | src/llapi/waio_io.c:112-151 | one request at a time: a request with opcode 2 is completed with the 0x103 its packet was made with |
| Progress.NeverStuck | src/llapi/waio_loop.c:53-126 | one request at a time: each thread has a next step in every reachable state unless it waits with nothing signalled |
| Progress.NoDeadlock | src/llapi/waio_io.c:80-186 | when no thread of the library has a step, everything submitted is complete |
| BoundedProgress.CompletesWithin | src/llapi/waio_loop.c:53-126 | one request at a time: a published request is complete after at most 194 steps of the two library threads, and 30 more for each count or signal of a client meanwhile |
| Replacement.FirstIsLost | src/llapi/waio_dequeue.c:35-37 | a run from the initial state, without abort or cancellation, in which the first of two requests is never run and the I/O thread ends |
| NodeReuse.RunningNodeIsReused | src/llapi/waio_dequeue.c:40-42 | a run from the initial state, with no replacement, in which the result of the first request is reported for the second, the second is still queued, and the first is in no slot, node or packet |
| EarlySubmission.SuccessIsTooEarly | src/waio_alloc.c:183-203 | a run of clients that submit only on seeing SUCCESS on every earlier request, in which the first loses its result, the second is never run and the I/O thread ends |
| CancelledRun.CancelledIsRun | src/llapi/waio_loop.c:79-121 | a run from the initial state in which the caller has been told CANCELED and the request is in its system call |
| CancelledRun.LockIsLeaked | src/waio_cancel.c:101-126 | a run from the initial state in which a failed preparation leaves the lock taken |
| ResubmittedCancel.AnswerIsLost | src/llapi/waio_submit_single_request.c:73-74 | a run in which the loop answers ALLDONE, the aiocb is submitted, and the call returns CANCELED |
| ResubmittedCancel.CallerIsStranded | src/llapi/waio_submit_single_request.c:73-74 | a run in which the aiocb is submitted while the caller waits; the request is served and the lock released, and the caller waits on an event nobody can set |
| ResubmittedCancel.AnswersUnserved | src/waio_cancel.c:136-143 | a run in which the aiocb is submitted before the caller waits; it waits on a null handle and returns CANCELED while its request is still counted |
| ReusedAiocb.SubmittedTwice | src/waio_alloc.c:144-149 | a run in which an aiocb is submitted again while its request is dispatched, and cx_before_io follows a null request pointer |
| FreedRun.AbortedIsCancelled | src/llapi/waio_io.c:138-148 | a run from the initial state through waio_free in which both threads end, waio_free succeeds and the request it interrupted is CANCELLED |
| FreedRun.AbortedShowsSuccess | src/llapi/waio_loop.c:74-77 | the same, with the loop first to see the abort: the interrupted request is SUCCESS, its iosb still pending |
| AbortRuns.LoopStopsWithin | src/llapi/waio_loop.c:59-77 | over every run: once an abort is counted the loop is in its shutdown within 47 of its own steps, whatever the others do, and the abort event ends its wait |
| AbortRuns.FreeStopsTheLoop | src/waio_free.c:45-65 | while waio_free waits for the threads the abort event is signalled and the loop has stopped or stops within 47 of its steps |
| AbortRuns.FreeReportsTheEnd | src/waio_free.c:53-65 | waio_free returns 0 if and only if both threads have ended, and -EACCES otherwise |
| AbortRuns.LoopEndsLast | src/llapi/waio_thread_shutdown.c:93-108 | the loop thread ends only after the I/O thread |
| AbortRuns.AbortedIsCancelled | src/llapi/waio_thread_shutdown.c:28-42 | when the I/O thread ends with an abort counted the aiocb of its packet is CANCELLED; no other aiocb changes, and none when no abort is counted |
| AbortRuns.InterruptedCall | src/llapi/waio_io.c:138-151 | after a call the thread ends and the request is CANCELLED if and only if the abort is still counted; otherwise it goes on to cx_after_io |
| AbortRuns.LeftoverIsCancelled | src/waio_alloc.c:232-245 | a packet that is left when the loop ends is that of an aiocb that is CANCELLED |
| AbortRuns.CountedAbortEndsIo | src/llapi/waio_io.c:97-181 | while the abort stays counted the I/O thread ends at its seventh step at the latest, wherever it is |
| ThreadShutdown.StopStep | src/llapi/waio_io.c:97-101 | during a shutdown every step brings the I/O thread closer to its end or leaves it where it is, whatever the other threads do |
| ThreadShutdown.BoundedShutdown | src/llapi/waio_thread_shutdown.c:46-112 | from the signalled shutdown on: at most one more system call and at most eighteen steps of the I/O thread, even though abort_counter may be back at 0 |
| ThreadShutdown.ShutdownNeverWaits | src/llapi/waio_io.c:165-179 | the abort event satisfies every wait on the way; when the I/O thread has ended the loop's wait is over |
| ThreadShutdown.ShutdownIsSignalled | src/llapi/waio_loop.c:73-77 | the loop is in its shutdown only with the abort event signalled or about to be |
| Events.CancelEvent | src/llapi/waio_loop.c:79-90 | over every run: the cancellation event is signalled if and only if some waio_cancel has set it and the loop has not reset it since |
| Events.QueueEvent | src/llapi/waio_loop.c:123-125 | the same for the request event, which clients and the I/O thread set and the loop resets at the end of an iteration |
| Events.IoEvent | src/llapi/waio_dequeue.c:50-58 | the same for the I/O event, which each dispatch sets and an acknowledgement resets |
| Events.CompleteEvent | src/llapi/waio_io.c:165-185 | the same for the completion event, between the loop and the I/O thread |
| Events.AbortEvent | src/waio_free.c:46-49 | the abort event is signalled if and only if some waio_free has set it; nobody resets it |
| Events.SubmissionReturns | src/llapi/waio_submit_single_request.c:87-91 | a submission stops signalling if and only if it has found the event not signalled before, or its slot no longer its own |
| GivingUp.LockGivenUp | src/waio_cancel.c:61-99 | over every run: waio_cancel ends without having had the lock only after one attempt that found it taken, or after exactly 1026 |
| GivingUp.SlotsGivenUp | src/llapi/waio_submit_single_request.c:125-167 | a submission ends without a slot only after one pass that found all four reserved, or after exactly 129 |
| PoolSpec.ConsumeAllIs | src/llapi/waio_enqueue.c:45-95 | a pass over k published slots turns (Q, F) into (Q + F[..k], F[k..]) |
| PoolSpec.FifoRun | src/llapi/waio_dequeue.c:35-46 | over every run of enqueues and dequeues, what was dispatched followed by Q is what was taken from the slots, in order; nodes are neither lost nor duplicated |
| PoolRefinement.FreshRefines | src/waio_alloc.c:101-109 | the chain built by waio_alloc is the pool with every node free and none queued |
| PoolRefinement.TakeRefines | src/llapi/waio_enqueue.c:54-88 | beheading the free list and appending at the tail pointer is one consumption; qtail is the last of Q |
| PoolRefinement.HeadRefines | src/llapi/waio_dequeue.c:36-46 | detaching the head and pushing it on the free list is one dispatch; qtail is null when Q is empty |
| PoolRefinement.LinkEachIs | src/llapi/waio_enqueue.c:69-71 | with distinct aiocbs each request pointer is the node its job was given; statuses and results are untouched |
| PoolCancel.UnlinkHeadRefines | src/waio_cancel.c:236-239 | relinking at the head removes entry 0 and frees its node |
| PoolCancel.UnlinkAfterRefines | src/waio_cancel.c:246-250 | relinking behind the k-1st node removes entry k and frees its node, for every position |
| PoolCancel.TailAfterRemove | src/waio_cancel.c:236-251 | the unlink leaves the whole pool in order if and only if the removed entry was not the last |
| StaleTail.RequestLostAfterUnlink | src/waio_cancel.c:246-250 | after the last entry was removed, the next request is not on the queue and its node is linked to itself |
| StaleTail.DetachedExactly | src/waio_cancel.c:236-251 | the unlink puts the tail outside the queue, with no pointer leading into the queue from outside, if and only if the entry removed was the last |
| StaleTail.LostUntilDrained | src/llapi/waio_enqueue.c:82-88 | for every sequence of takes and dequeues on a stale queue: until its last entry is dispatched it holds exactly what is left of it, and nothing taken meanwhile |
| StaleTail.LostForEver | src/llapi/waio_enqueue.c:82-88 | after the unlink of the only entry, for every sequence of takes and dequeues: the queue stays empty and nothing can ever be dispatched |
| StaleTail.LostAfterUnlink | src/waio_cancel.c:246-250 | after the unlink of the last of several entries, for every such sequence: the others are dispatched in order, everything taken before the last of them is dispatched is lost |
| PoolCancel.DrainEnd | src/waio_cancel.c:191-211 | after the drain the free chain is reverse(Q) + F; the pool is in order if and only if Q was empty |
| PoolCancel.CancelledIsDispatched | src/llapi/waio_dequeue.c:35-42 | the first dequeue after a drain dispatches the first cancelled request and makes a ring of the drained nodes |
| DrainedPool.DrainLeads | src/waio_cancel.c:191-211 | after the drain the queue pointer leads through its first cancelled node into the whole old free list, and the tail is the head of the new one |
| DrainedPool.OldFreeIsDispatched | src/llapi/waio_dequeue.c:35-46 | for every sequence of takes and dequeues with fewer takes before the first dequeue than requests had been queued: the first dequeue dispatches the first cancelled request, the following ones the old free nodes in order with whatever they hold, and nothing taken meanwhile is on the queue |
| DrainedPool.DispatchedTwice | src/llapi/waio_enqueue.c:82-88 | with one request queued when everything is cancelled, a single request taken before the next two dequeues is dispatched by both |
| DrainedPool.LostThenRejoined | src/llapi/waio_enqueue.c:51-88 | when as many requests are taken before the next dequeue as had been queued, all but the last of those are lost; that one and every further one form the queue in order, with the tail in order |
| DrainedPool.DispatchesThemAll | src/llapi/waio_dequeue.c:35-46 | on a concrete block the three dequeues after a cancellation of everything dispatch the cancelled request, one that has already run, and a node never used |
| PoolRefinement.CoversAll | src/waio_alloc.c:101-109 | every node of the block is on one of the two lists |
| PoolCancel.CancelNext | src/waio_cancel.c:194-205 | one turn of the switch: statuses and both flags say what was found among the entries so far, repeated aiocbs included |
| RequestPool.Pool.constructor | src/waio_alloc.c:79-109 | as many nodes as fit the block, no more; one acyclic free chain of all of them; no packet, counters 0 |
| RequestPool.Pool.LinkAll | src/waio_alloc.c:105-106 | in place: node i leads to node i + 1, the last to null |
| RequestPool.Pool.TakeSlot | src/llapi/waio_enqueue.c:48-93 | the loop body in place, for any lists: its whole effect on links, node, slot, counter and request pointer |
| RequestPool.Pool.Enqueue | src/llapi/waio_enqueue.c:42-98 | while clients go on publishing: DEVICE_BUSY iff F is empty; a null pointer is followed iff 0 < F < the slots found published; otherwise each of them is consumed in index order and freed, the counter and the request pointers follow. With a stale tail the queue gains nothing; a null pointer is followed iff F < the slots found while the tail is where the unlink has put it, and never after a dispatch |
| RequestPool.Pool.Dequeue | src/llapi/waio_dequeue.c:29-58 | one dispatch; the packet is the head's node and carries the head's job; nothing when Q is empty; emptying Q puts a stale tail right |
| RequestPool.Pool.Unlink | src/waio_cancel.c:228-251 | removes the first entry of the aiocb, for every queue length and position; the pool is in order afterwards iff there was no match or it was not the last, and has a stale tail iff it was; a tail that was stale before stays stale |
| RequestPool.Pool.CancelOne | src/waio_cancel.c:223-272 | the same for the whole service, on a pool in order or with a stale tail, with the I/O thread clearing the packet before any of its reads; a null packet is followed exactly in two of these cases; the aiocb ends unpending, the verdict is CANCELED iff it was unfinished at the final check; no other aiocb changes; what the word holds is closed and left in it |
| RequestPool.Pool.DrainQueue | src/waio_cancel.c:191-211 | the drain loop ends, with every queued node on the free list, every unfinished entry cancelled and the two flags exact |
| RequestPool.Pool.CancelAll | src/waio_cancel.c:181-221 | a null packet is followed iff there is none; otherwise free chain reverse(Q) + F, unfinished entries cancelled, ALLDONE iff none was unfinished, CANCELED iff some was and none had finished |
| RequestPool.Pool.Iterate | src/llapi/waio_loop.c:79-121 | a whole iteration with a cancellation in it, for every pool in order, with clients publishing, all from the state before: a null pointer is followed iff the packet is cleared between two reads or waio_enqueue runs out of nodes; what waio_enqueue returns; the exact pool afterwards; waio_enqueue is called if and only if a request is counted; with nodes enough and the tail in order, what is dispatched followed by what is queued is what was queued, less the removed request, followed by what the slots held, one dispatched for a completion and one at the end, the packet that of the last; a request of the cancelled aiocb is dispatched or queued all the same iff `Survives`; the answer is CANCELED iff it was unfinished |
| RequestPool.SurvivesIff | src/llapi/waio_loop.c:79-121 | what such an iteration dispatches or leaves queued contains a request of the cancelled aiocb if and only if the queue held two of them, or one was found in a slot, with a free node for each one found and the tail in order by then |
| RequestPool.CancelledAndDispatched | src/llapi/waio_loop.c:79-121 | one iteration on a concrete pool with one published request: it is taken and dispatched, its slot freed, and the cancellation answered CANCELED if it is that very request, ALLDONE if not |
| SlotPass.PublishedIsFound | src/llapi/waio_enqueue.c:45-48 | whatever is published when a pass begins is found at its turn as it is, whatever clients publish meanwhile |
| PoolRuns.PoolRefined | src/llapi/waio_loop.c:114-121 | in every run in which no cancellation removes a queued request the pointers are at all times the pool that the takes and dispatches so far make |
| PoolRuns.FirstInFirstOut | src/llapi/waio_dequeue.c:35-46 | for any clients and interleaving: dispatched jobs followed by the queued ones are the jobs their owners reserved slots for, in the order of consumption; no node is lost |
| RequestTally.RequestConservation | src/llapi/waio_submit_single_request.c:81-85 | as a count, for any clients and interleaving: the requests submitted are as many as those in slots, queued, current, complete and replaced |
| RequestTally.SubmittedIsTakenOrWaiting | src/llapi/waio_enqueue.c:48-93 | by identity, for any clients and cancellations: each request was submitted exactly as often as it was taken by the loop or is in a published slot |
| RequestTally.ReplacementNeedsTwo | src/llapi/waio_dequeue.c:35-37 | every dispatch that replaces a packet happens with two or more requests whose packets are not cleared |
| RequestTally.OneAtATimeIsSafe | src/llapi/waio_dequeue.c:35-37 | in every run in which at most one request at a time is submitted and its packet not cleared, no packet is ever replaced, whichever clients submit |
| RequestTally.EmptyPacketNeedsTwo | src/llapi/waio_io.c:112-125 | unless an abort is signalled, the I/O thread finds no packet only after two requests were outstanding at once |
| InFlight.RunningNode | src/llapi/waio_dequeue.c:36-42 | for any clients and interleaving: qfree is the running node if and only if nothing was taken since its dispatch; the node holds the dispatched job until then and the first job taken from then on; it keeps its own iff nothing was taken or the first taken is the same again |
| InFlight.Credited | src/waio_alloc.c:181-185 | cx_after_io credits the dispatched request if and only if nothing was taken since its dispatch, or the first one taken has the same aiocb |
| Completions.CompletedAsDispatched | src/llapi/waio_io.c:112-151 | while nothing is taken or dispatched with a packet in flight: completion k goes to the aiocb of dispatched request k; unless an abort is signalled, call k has its buffer, size and offset and its result is the one reported; all but the running one are complete; dispatched requests are a prefix of those taken |
| Completions.OneAtATimeIsOwn | src/llapi/waio_io.c:112-151 | one outstanding request at a time, whichever clients submit, is enough for that |
| OwnCalls.CalledAsDispatched | src/waio_alloc.c:144-149 | for any clients that submit no aiocb again while a request of it is queued or running, while nothing is taken or dispatched with a packet in flight and no abort is signalled: call k is exactly dispatched request k, opcode included |
| HandOff.WokenExactly | src/waio_alloc.c:173-217 | for a blocked waiter on any list: its handle for an aiocb is signalled if and only if that completion has finished and the handle was installed, and so some handle is signalled iff some finished completion had its handle installed, also after a -1 was set back to 0 |
| HandOff.OwnHandleMeansCleared | src/waio_alloc.c:183-217 | a wait ended by the waiter's own handle finds status, result and cleared packet |
| HandOff.InstalledWillBeWoken | src/waio_suspend.c:77-88 | while the waiter is blocked its handle stays in the word, so that the completion cannot end without signalling it |
| HandOff.SingleWaitNeverMissed | src/waio_suspend.c:54-127 | waiting on one aiocb without a user event, no completion is ever missed |
| HandOff.StatusBeforeResult | src/waio_alloc.c:183-203 | the status is terminal without a result exactly before the copy, and with the packet still set exactly before it is cleared |
| HandOff.WakeupMissedInList | src/waio_suspend.c:83-90 | for every list of two or more aiocbs, and of one with a user event, a run in which the waiter blocks although one has completed, with nothing signalled |
| HandOff.MissedExactly | src/waio_suspend.c:54-127 | a waiter can miss a completion on a list of n aiocbs if and only if n > 1, or n = 1 and there is a user event |
| HandOff.ReturnsBeforeResult | src/waio_suspend.c:100-117 | a run in which the call returns for an aiocb without its result |
| HandOff.CallEnds | src/waio_suspend.c:97-170 | over every run: 0 only when an aiocb is done, EINTR only with a user event; no handle stays in a word unless an event could not be created |
| HandOff.DoneOnEntry | src/waio_suspend.c:97-121 | an aiocb that is done when the call begins: it does not wait, and returns 0 unless an event cannot be created |
| HandOff.DoneAfterWait | src/waio_suspend.c:143-170 | an aiocb that is done when the wait ends: the call returns 0, or EINTR for the user event |
| SuspendCall.Suspend | src/waio_suspend.c:30-170 | any list below the bound, completions at any time: every event created is closed exactly once and nothing else is, hsignal included; the exit for a failed creation is taken exactly at the first failure; on every other exit each word is 0 unless its completion began after the call had set it to 0, and so 0 if it was -1 before; on that one the words keep handles of this call, all closed; 0 only when an aiocb is SUCCESS, CANCELLED or FAILED, and whenever one was on entry, without a wait; otherwise the call has waited on the last user event of the list and on an event of its own for a completion that has not begun, and returns EINTR if and only if there is a user event and it is signalled, EAGAIN only when every aiocb is WAIT_1 or PENDING |
| SuspendCall.ClosedTwice | src/waio_cancel.c:256-257 | waio_suspend on one aiocb that is cancelled during its wait: the event it installed is closed twice; if a completion had taken the word, -1 is closed as a handle |
| SuspendCall.InstallAll | src/waio_suspend.c:54-94 | after the first loop the open events are exactly those in the words and exactly those in hwait; every aiocb is terminal, or its completion has taken the word, or the event in its word is in hwait; hsignal is that of the last aiocb that has one |
| SuspendCall.CloseAll | src/waio_suspend.c:134-135 | closing hwait closes every open event of the call once |
| SuspendCall.CloseWords | src/waio_suspend.c:109-116 | closing through the words closes every open event once and sets each word to 0, while completions go on |
| InitOnce.AtMostOnce | src/internal/waio_wxvtbls.c:222-273 | for any number of racing callers the initialiser runs at most once, nobody is told SUCCESS unless it succeeded, and nobody once it has failed |
| InitOnce.WinnerIsTold | src/internal/waio_wxvtbls.c:266-272 | the caller that runs the initialiser is told SUCCESS if and only if it succeeds, and then the completion is published |
| InitOnce.AfterCompletion | src/internal/waio_wxvtbls.c:218-220 | a caller that begins after completion is told SUCCESS |
| InitOnce.ToldFailure | src/internal/waio_wxvtbls.c:225-264 | a caller that is told failure has run the initialiser, which failed, or found a routine missing, or made exactly 0x2000 waits and found the flag still clear |
| InitOnce.NoWaitAfterCompletion | src/internal/waio_wxvtbls.c:252-255 | no caller begins a wait once the flag is set |
| InitOnce.NeverStuck | src/internal/waio_wxvtbls.c:200-274 | a call that has not ended always has a step |
| InitOnce.EveryCallEnds | src/internal/waio_wxvtbls.c:248-263 | every caller ends, after at most 0x2000 timed waits, whatever the others do |
| HexCodec.ParsePrint | src/ntapi/ntapi_tt_uintptr_to_hex_utf8.c:49-52 | the value of the printed numeral is the number, for any number of digits |
| HexCodec.PrintParse | src/ntapi/ntapi_tt_hex_utf8_to_uintptr.c:65-78 | the numeral of a parsed text is that text in upper case |
| HexCodec.ValueOfDigits | src/ntapi/ntapi_tt_hex_utf8_to_uintptr.c:65-84 | a text of the characters 0-9, A-F, a-f is accepted and its value is the sum of the digits they stand for, each times its power of 16 |
| HexCodec.HexCharacters | src/ntapi/ntapi_tt_hex_utf8_to_uintptr.c:42-53 | accepted are exactly the 22 characters of the two literals |
| HexCodec.PrintedDigits | src/ntapi/ntapi_tt_uintptr_to_hex_utf8.c:38-52 | the i-th character from the right is the one at (x / 16^i) % 16 in 0123456789ABCDEF |
| HexCodec.PrintUint | src/ntapi/ntapi_tt_uintptr_to_hex_utf8.c:25-53 | in place, for any byte count: the digits of the numeral, and nothing beyond them |
| HexCodec.ParseUint32 | src/ntapi/ntapi_tt_hex_utf8_to_uintptr.c:33-84 | fails iff some character is not a hex digit, leaving the output untouched; otherwise the value of the text |
| HexCodec.ParseUint64 | src/ntapi/ntapi_tt_hex_utf8_to_uintptr.c:87-113 | the same over sixteen characters; a bad second half leaves the output untouched too |
| HexCodec.ParseUint16 | src/ntapi/ntapi_tt_hex_utf8_to_uintptr.c:128-147 | the same over four characters; the truncation loses nothing |
| HexCodec.PrintThenParse16 | src/ntapi/ntapi_tt_uintptr_to_hex_utf8.c:56-64 | round trip for every 16-bit number, through the array code |
| HexCodec.PrintThenParse32 | src/ntapi/ntapi_tt_uintptr_to_hex_utf8.c:67-75 | round trip for every 32-bit number, through the array code |
| HexCodec.PrintThenParse64 | src/ntapi/ntapi_tt_uintptr_to_hex_utf8.c:78-86 | round trip for every 64-bit number, through the array code |
| HexCodec.ParseThenPrint64 | src/ntapi/ntapi_tt_hex_utf8_to_uintptr.c:87-113 | round trip for every text: accepted iff it is hexadecimal, and printed back in upper case |

## Left out

- RequestPool.Pool.CancelOne: the wait for the current request is a parameter (the aiocb as the I/O thread leaves it); only the reads of `packet` interleave with the I/O thread.
- RequestPool.Pool.Iterate: a single cancellation on a pool in order; an iteration that cancels everything is `RequestPool.Pool.CancelAll` followed by what `DrainedPool` says of the lists.
- RequestPool.Pool.Enqueue: clients count their requests meanwhile too; the counter here is what the pass itself takes from it.
- PoolRuns.FirstInFirstOut: stated up to the first cancellation that removes a queued request, because the unlink need not keep the pool in order.
- RequestTally.RequestConservation: the same, and so are the lemmas after it that count outstanding requests.
- InFlight.RunningNode: the same; an unlink also puts another node in front of the running one on the free list.
- Completions.CompletedAsDispatched: says nothing of the opcode, which is read through the aiocb and can be wiped by a client that submits the same aiocb again; the opcode is in OwnCalls.CalledAsDispatched. An abort leaves a call without a result, so calls and results are not tied from then on.
- Completions.OneAtATimeIsOwn: the same.
- HandOff.WokenExactly: one waiting thread; a cancellation that closes `hpending` meanwhile is not modelled.
- A submission zeroes the opaque block of its aiocb in one step; its event fields are in `Protocol`, `hpending` is not.
- In `Protocol` the service of a cancellation may leave any lists and statuses behind; what it really leaves is proved of `RequestPool`. `CancelledRun.CancelledIsRun` uses what it leaves.
- The threads of `Protocol`, `HandOff` and `InitOnce` are relations between states, one per shared access, because their steps interleave; the code that is alone with its memory (`RequestPool`, `HexCodec`) and `waio_suspend` are methods that work in place.
- The `hpending` word and the fallback flag of `cx_after_io` are in `HandOff` and not in `Protocol`. Copying a slot into a node, and writing the node's packet, is one step.
- The two consecutive abort tests after a pending call (src/llapi/waio_io.c:138-148) are one step.
- Node pointers are indices into the block; an aiocb is known by a number.
- Handles are never reused, and system calls other than the read, the write and the creation of events succeed.
- The legacy cancellation by terminating the I/O thread (src/llapi/waio_thread_shutdown_fallback.c), which ends a thread at an arbitrary instruction.
- During a shutdown, the calls that cancel the running request; only that a pending call returns once the abort event is signalled.
- Time-outs: `io_request_timeout` is 0, as `waio_alloc` leaves it. Application hooks other than those of src/waio_alloc.c.
- `waio_listio` with several entries, `hlistio` and `waio_fsync`: they need more than one outstanding request.
- `waio_error`, `waio_return`, `waio_fcntl`, `waio_ioctl`, `waio_init`: switches, dispatch and set-up with only easy claims.
- Integer width of the counters; the slot word is as wide as the compare-and-swap on it, as on 32-bit targets.
- Weak memory: every access is sequentially consistent.
- Symbol loading and the initialiser body of src/internal/waio_wxvtbls.c: its outcome is arbitrary.
