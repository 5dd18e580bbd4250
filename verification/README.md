# Verified model of the HCurl reactor, streams, header blocks and managed pool

HCurl runs libcurl multi handles on agent threads ("reactors"). Haskell threads talk to a reactor through a wait-free
queue of control messages; bodies move through bounded streams, response headers through a block buffer, and a managed
pool of reactors grows and shrinks with demand. This project models the four parts that have to be right under every
interleaving, and proves what they promise.

Two forms are used side by side. Code that changes state in place (the ring, the registry, the agent's context, the
stream, the header buffers, the pool's workers) is written as classes with real arrays, linked nodes and fields; each
method is proved against a function on values. Code whose difficulty is concurrency (producers, closers, flushers,
waiters, the pool's clients) is a transition system over those same functions: one atomic operation or one critical section
per step, any number of threads, any order. The main results are about every run of these systems.

## Assumptions

- libcurl: an easy handle, and with it its result and its streams, is submitted once (`Reactor.Fresh`, at the start of
  a call); libcurl reports completion only for handles that are in the multi (`easy in s.agent.added`, in
  `Reactor.AgentEnabled` for `CurlDone`).
- The upload half of the resume property needs a writer that runs every flush loop to its end before it writes again
  (`!abandoned`); `StreamProtocol.CarefulWriterHasResume` has it as a hypothesis, and `StreamProtocol.WriterHasResume`
  gives the exact condition without it.
- A stream's readers, writers and closers exist only after the call that submitted its transfer has returned OK, as
  `startTransferWith` arranges (`StreamReactor.Action.Started`).
- Atomic operations are sequentially consistent steps, a mutex makes its section one step, and allocation may fail at any
  call.

## Layout

| part | files |
|---|---|
| 64-bit words, the ID hash | Words, HashId |
| shared vocabulary and proof devices | Messages, Counting, Facets |
| the queue: steps of any number of producers, and the ring as a class | Mpsc, MpscRing |
| the reactor: admission word, queue and agent together; its notifications; how transfers end | Dispatch, Completion, Reactor, Wakeups, Endings |
| the agent's registry and context as classes | Registry, AgentContext |
| streams: critical sections, the class, the protocol, what its callers are told, the protocol over the reactor's queue | Stream, StreamRing, StreamProtocol, StreamAnswers, StreamReactor |
| wakers: ownership, and the two places that store them | Waker, WakerCells |
| header blocks: the machine, what its waiters find, the class | Headers, HeaderOutcome, HeaderData |
| the two terminal codes of one transfer | Verdicts |
| the pool: decisions, whole runs, what moves it, the cooldowns over policies, the class | Pool, PoolSafety, PoolDemand, PoolCooldowns, ManagedPool |
| transfer identifiers | TransferIds |

## Findings

Properties one would expect of the code and that do not hold, each with a concrete run and with the exact condition.

| property | fails | holds exactly when |
|---|---|---|
| A registered writer with libcurl paused has a RESUME queued (cbits/stream.c:505-526 does not look at `paused`, where 359-362 does) | `StreamProtocol.CarelessWriterStrands`: a flush loop abandoned after a refused RESUME, then another write; nothing of the protocol can move again | `StreamProtocol.WriterHasResume`: one was queued when the writer registered, on every run. A clear pause flag guarantees it on every run; a set flag excludes it only while libcurl was not resumed from elsewhere |
| A drain waits for the kill cooldown (src/HCurl/Internal/Agent.hs:257-258 reads the clock before it has the lock, 386 subtracts in Word64) | `PoolSafety.HastyPoolDrainsEarly`: one sustain tick, and a spawn between the reading and the tick | `PoolCooldowns.DrainsExactly`, over policies: no cooldown asked for, no room above the minimum, or two or more sustain ticks. For one drain, `PoolSafety.CooldownExactly`: the reading is not older than the start of the newest worker |
| A growing admission waits for the spawn cooldown (src/HCurl/Internal/Agent.hs:241 records no start for the first workers, and 805 records the tick's earlier reading when restoreMinimum starts one) | a pool just created, whose first workers are busy at once (in the proof of `PoolCooldowns.GrowthExactly`); and `PoolSafety.EagerPoolGrowsEarly`, a tick that waited for the lock replaces a dead worker | `PoolCooldowns.GrowthExactly`, over policies: no cooldown asked for, or a maximum of one worker. For one admission, `PoolSafety.GrowthWaits`: it is on time after a worker that an admission started, and early by at most its wait after one that a tick started |
| The headers and the stream of a transfer report the same terminal code (cbits/headers.c:341 overwrites, cbits/stream.c:625-628 keeps the first) | `Verdicts.TwoVerdicts`: a fatal error shuts the reactor down while a reader's flush finds the queue closed | `Verdicts.SidesOfTransfer`: they differ if and only if the reactor's code is not CURLE_ABORTED_BY_CALLBACK and it was the last to mark the headers but not the first to complete the stream, or the other way round |
| A refused enqueue means a full ring (third-party/include/waitfree-mpsc-queue/mpsc.c:55-60 counts a call before it refuses it) | `Mpsc.RefusedWithFreeSlot`: a second caller is refused while a first has not undone its increment | `Mpsc.RefusedExactly`: claimed slots and calls being refused together reach the capacity |

One result is an obligation on callers rather than a failure: `awaitOneShot` keeps waker ownership linear only where the
cell it registers in is locked or latches (`Waker.SafeIffGuarded`, with a run that goes wrong otherwise in
`Waker.Unguarded`). Both cells of the program do: `WakerCells` proves that streams are locked and header blocks latch.

## Model

| member | source | states |
|---|---|---|
| `HashId.UnhashAfterHash` | cbits/message_chan.c:129-137 | an explicit inverse of the three xor-shifts and two odd multiplications undoes the hash of every 64-bit ID |
| `HashId.HashAfterUnhash` | cbits/message_chan.c:129-137 | and the other way round: every 64-bit value is the hash of one ID |
| `HashId.HashInjective` | cbits/message_chan.c:129-137 | distinct IDs have distinct hashes, so they can collide only through the bucket mask |
| `Registry.BucketIsModulus` | cbits/message_chan.c:158-169 | with a power of two of buckets, masking the hash is reduction modulo the bucket count |
| `Registry.MoveAll` | cbits/message_chan.c:171-194 | every node of every old chain is re-linked into the new bucket of its ID, in place, none lost or repeated |
| `Registry.TransferRegistry.Find` | cbits/message_chan.c:158-169 | the answer is the mapped transfer of the ID, or null exactly if the ID is not mapped |
| `Registry.TransferRegistry.Resize` | cbits/message_chan.c:171-194 | the mapping and the nodes are unchanged, whether or not the allocation succeeds, and the bucket count stays a power of two |
| `Registry.TransferRegistry.Insert` | cbits/message_chan.c:196-209 | refused exactly for a closed registry or a mapped ID; otherwise the mapping gains just this entry and the count one, across a possible resize |
| `Registry.TransferRegistry.Remove` | cbits/message_chan.c:211-228 | takes exactly the mapped node of the ID out of its chain, and out of the mapping, or answers null |
| `Registry.TransferRegistry.Detach` | cbits/message_chan.c:525-534 | a whole bucket leaves the table as one chain; the mapping loses exactly its entries |
| `Registry.TransferRegistry.Destroy` | cbits/message_chan.c:151-156 | the emptied table is given up |
| `Mpsc.StepKeepsInv` | third-party/include/waitfree-mpsc-queue/mpsc.c:51-89 | every atomic operation of any producer or the consumer keeps the queue invariant: exact count word, tickets, slot contents |
| `Mpsc.RunKeepsInv` | third-party/include/waitfree-mpsc-queue/mpsc.c:51-89 | the invariant holds in every state of every run from a created queue |
| `Mpsc.AssertsHold` | third-party/include/waitfree-mpsc-queue/mpsc.c:62-87 | none of the three assertions of the C code fails in any reachable state |
| `Mpsc.SlotsExclusive` | third-party/include/waitfree-mpsc-queue/mpsc.c:62-66 | two producers past the ticket counter never write the same slot |
| `Mpsc.WrappedSlot` | third-party/include/waitfree-mpsc-queue/mpsc.c:62-66 | the slot of a ticket survives the wrap of `head` at 2^64, because the capacity is a power of two |
| `Mpsc.PollTakesOldest` | third-party/include/waitfree-mpsc-queue/mpsc.c:70-89 | a dequeue gets the object of the oldest untaken ticket, or nothing, never another |
| `Mpsc.EmptyAnswerIsEmpty` | third-party/include/waitfree-mpsc-queue/mpsc.c:70-82 | with no producer between ticket and publication, an empty answer means an empty queue |
| `Mpsc.DequeuesInTicketOrder` | third-party/include/waitfree-mpsc-queue/mpsc.c:51-89 | over every run, what was dequeued is exactly the objects of the oldest tickets, each once, in order |
| `Mpsc.EarlierCallFirst` | third-party/include/waitfree-mpsc-queue/mpsc.c:51-89 | an enqueue published before another began has the smaller ticket, and its object is dequeued first |
| `Mpsc.RefusedExactly` | third-party/include/waitfree-mpsc-queue/mpsc.c:55-60 | a call is refused if and only if claimed slots and calls being refused reach the capacity; with no other call being refused, if and only if every slot is claimed |
| `Mpsc.RefusedWithFreeSlot` | third-party/include/waitfree-mpsc-queue/mpsc.c:55-60 | a reachable state with a free slot whose next enqueue is refused |
| `MpscRing.Ring.Enqueue` | third-party/include/waitfree-mpsc-queue/mpsc.c:51-68 | run without interference on the real array: accepted exactly if there is room, and then the contents gain the object at the end |
| `MpscRing.Ring.Dequeue` | third-party/include/waitfree-mpsc-queue/mpsc.c:70-89 | run without interference: takes the first of the contents, or answers empty exactly if there is none |
| `Dispatch.SettleOnce` | cbits/message_chan.c:280-293 | settling an untouched submission stores its code, completes its streams, destroys its easy handle and fires its waker, each exactly once |
| `Dispatch.ExecuteOutcome` | cbits/message_chan.c:295-359 | a dequeued EXECUTE enters the registry without any outcome, or is completed exactly once without entering it; a transfer already registered under its ID, and every other handle, is untouched |
| `Dispatch.ExecuteFails` | cbits/message_chan.c:295-359 | every failing branch leaves the agent as it was but for the settled submission |
| `Dispatch.FinishOutcome` | cbits/message_chan.c:241-261 | whatever removes a registered transfer completes that one, exactly once, with the normalized code, and nothing else |
| `Dispatch.CompletionFindsOwner` | cbits/message_chan.c:263-278 | a completion for a handle in the multi finishes the transfer that owns the handle |
| `Completion.HandleKeepsProgress` | cbits/message_chan.c:453-478 | handling the next message keeps the whole account: each EXECUTE so far is done once or registered and untouched, and each handled CANCEL has ended its transfer |
| `Completion.FinishKeepsProgress` | cbits/message_chan.c:241-261 | finishing any one registered transfer keeps that account |
| `Completion.DrainKeepsProgress` | cbits/message_chan.c:539-549 | so does the shutdown drain, message by message |
| `AgentContext.ShutdownCompletesAll` | cbits/message_chan.c:517-551 | after the walk and the drain each EXECUTE accepted so far is done exactly once and the registry is gone |
| `AgentContext.Context.ExecuteTransfer` | cbits/message_chan.c:295-359 | the C control flow on the real registry and private pointers refines the agent's specification, in every branch |
| `AgentContext.Context.CompleteTransfer` | cbits/message_chan.c:263-278 | likewise for a completion reported by libcurl, including the check that the private pointer is the registered node |
| `AgentContext.Context.CancelTransfer` | cbits/message_chan.c:361-366 | likewise for CANCEL |
| `AgentContext.Context.ResumeTransfer` | cbits/message_chan.c:368-392 | likewise for RESUME: untouched unless the transfer is active and the pause call fails |
| `AgentContext.Context.FinishDetached` | cbits/message_chan.c:241-261 | the statements of the C function, in order, amount to one settling with the normalized code |
| `AgentContext.Context.FailUnregistered` | cbits/message_chan.c:280-293 | the statements of the C function, in order, amount to one settling, and touch no registered transfer |
| `AgentContext.Context.TakeOut` | cbits/message_chan.c:211-228 | removing a node leaves the context in the specification's state with exactly that node on its way out |
| `AgentContext.Context.FinishRegistered` | cbits/message_chan.c:525-535 | the bucket walk over linked chains finishes every registered transfer |
| `AgentContext.Context.DrainQueue` | cbits/message_chan.c:539-549 | the drain loop empties the ring and fails exactly the EXECUTEs in it |
| `AgentContext.Context.Shutdown` | cbits/message_chan.c:517-551 | the whole function refines the specified shutdown; a second call does nothing |
| `AgentContext.Context.CheckMessages` | cbits/message_chan.c:453-478 | the dispatch loop handles every queued message once, in order; if a STOP was among them, each EXECUTE ever accepted is done exactly once and the registry is gone |
| `Reactor.WordBits` | cbits/message_chan.c:79-116 | the packed word's closed bit and producer count are the C code's masks |
| `Reactor.StepKeepsInv` | cbits/message_chan.c:79-116 | every step of any producer, the agent, libcurl or the closer keeps the reactor's invariant: barrier, ownership, distinctness, progress |
| `Reactor.RunKeepsInv` | cbits/message_chan.c:79-116 | and so the invariant holds in every state of every run from a created reactor |
| `Reactor.ExactlyOnce` | cbits/message_chan.c:517-551 | once shutdown is over, under every interleaving, each EXECUTE whose enqueue returned OK has had its result set, its easy handle destroyed, its streams completed and its waker fired, each exactly once |
| `Reactor.NeverTwice` | cbits/message_chan.c:241-261 | at every moment an accepted EXECUTE is untouched or done exactly once, never in part and never twice |
| `Reactor.RefusedUntouched` | cbits/message_chan.c:398-451 | a message still owned by its caller has had nothing done to it |
| `Reactor.OutsidersUntouched` | cbits/message_chan.c:398-451 | objects of no accepted EXECUTE are never touched |
| `Reactor.CloseBarrier` | cbits/message_chan.c:104-116 | once message_sender_close has returned nobody is between enter and leave, nobody ever is again, and the accepted messages are final |
| `Reactor.NullMeansEmpty` | cbits/message_chan.c:539-549 | after the barrier a NULL dequeue means that the queue is really empty |
| `Reactor.NeverStranded` | cbits/message_chan.c:94-116 | while the closer sleeps some thread is inside or is about to signal, and the mutex it needs is free |
| `Reactor.LastLeaverSignals` | cbits/message_chan.c:94-102 | the last thread to leave a closed sender goes on to signal |
| `Reactor.NotifyFindsHandle` | cbits/message_chan.c:446-449 | a producer about to notify finds the async handle set and the agent up |
| `Wakeups.NotifyNeverLost` | cbits/message_chan.c:446-478 | no notification is lost: on every run, while the agent serves but is outside its loop and the oldest accepted message is in its slot, libuv's pending flag is set or the message's producer has yet to call uv_async_send |
| `Wakeups.StepKeepsInv` | cbits/message_chan.c:446-478 | every step, the start and the end of the agent's loop included, keeps that |
| `Reactor.AdmissionNeverBlocked` | cbits/message_chan.c:79-92 | the bound on threads inside the queue follows from the admission word |
| `Reactor.LaterCallLaterTicket` | cbits/message_chan.c:398-451 | a call begun after another returned gets a later ticket |
| `Reactor.CancelNeverOvertakes` | cbits/message_chan.c:361-366 | a CANCEL begun after its EXECUTE was accepted is handled after it, and once it is handled the transfer is done |
| `Reactor.RefusedForCause` | cbits/message_chan.c:398-451 | a call is refused only because the sender is closed or saturated, memory is short, or the queue refused it |
| `Endings.FinalCodeExactly` | cbits/message_chan.c:251-252 | a finished transfer reports its own code, or CURLE_ABORTED_BY_CALLBACK if one of its streams was closed or had its cancel sent |
| `Endings.EndsExactly` | cbits/message_chan.c:241-392 | what ends a registered transfer and the code that is stored: its CANCEL with CURLE_ABORTED_BY_CALLBACK, a RESUME that libcurl refuses and a completion with their own code, the walk of a shutdown with the shutdown's; nothing else ends one |
| `Endings.EndedStores` | cbits/message_chan.c:241-392 | over every run, the code of the step that ended the transfer is there in every later state |
| `Endings.RefusedStores` | cbits/message_chan.c:295-359 | the same for an EXECUTE that is refused when handled (unusable, out of memory, refused by libcurl) or drained at shutdown |
| `Endings.StoredOnlySo` | cbits/message_chan.c:241-392 | no code is stored in any other way |
| `Endings.CodesStay` | cbits/extras.c:110-124 | over every run a stored code never changes |
| `Endings.CancelStoresAborted` | cbits/message_chan.c:361-366 | a CANCEL that finds its transfer registered stores CURLE_ABORTED_BY_CALLBACK for good |
| `Endings.StopStoresAborted` | cbits/message_chan.c:471-474 | so does a STOP for everything it finds registered or queued |
| `Waker.ConsumedOnce` | src/HCurl/Internal/Waiter.hs:31-46 | every pointer offered is fired by C or freed by Haskell, never both and never twice, and exactly once when nobody holds it any more |
| `Waker.WaiterNeverLost` | src/HCurl/Internal/Waiter.hs:38-45 | a blocked thread's pointer is stored, in the hands of a C thread about to fire it, or fired; never freed |
| `Waker.StepKeepsInv` | src/HCurl/Internal/Waiter.hs:31-46 | under either guard every step of any thread keeps each pointer with one owner |
| `Waker.Unguarded` | src/HCurl/Internal/Waiter.hs:31-46 | without a lock or a latch a run exists in which one thread frees the waiter of another |
| `Waker.SafeIffGuarded` | src/HCurl/Internal/Waiter.hs:31-46 | ownership is linear on every run if and only if the cell is locked or latches |
| `WakerCells.HeaderWakersLinear` | cbits/headers.c:153-352 | the real header block is such a latching cell: over every run of lines, body start, completion, waiting, cancelling and destruction its wakers are consumed once, and a blocked thread's waker is stored with the block not ready, on its way, or fired |
| `WakerCells.StreamWakersLinear` | cbits/stream.c:155-397 | the real stream is such a locked cell: the same over every run of the stream protocol, destruction included |
| `Waker.EasyData.SetResult` | cbits/extras.c:110-124 | the first result stays, with the response code known then |
| `Waker.EasyData.Wake` | cbits/extras.c:126-136 | the caller's waker fires at most once, and only after a result |
| `Waker.EasyData.Destroy` | cbits/extras.c:37-49 | at the end the pointer was consumed exactly once, by the agent or here |
| `StreamRing.HcurlStream.OnDownload` | cbits/stream.c:179-246 | on the circular array: a block is taken, replayed after a pause, or rejected exactly as specified, an overflowing size included, and a waiter that is no longer justified is detached |
| `StreamRing.HcurlStream.OnUpload` | cbits/stream.c:399-447 | on the circular array: partial copies, freed slots, pause, end of file and abort as specified, an overflowing size included |
| `StreamRing.HcurlStream.TryRead` | cbits/stream.c:300-346 | takes the first chunk of the ring's contents, or answers with the right one of the three reasons |
| `StreamRing.HcurlStream.TryWrite` | cbits/stream.c:449-503 | adds a chunk at the end of the contents, or answers with the right reason and changes nothing |
| `StreamRing.HcurlStream.WaitRead` | cbits/stream.c:348-373 | registers exactly when the ring is empty, live, not paused and has no reader |
| `StreamRing.HcurlStream.WaitWrite` | cbits/stream.c:505-526 | registers exactly when the ring is full, live and has no writer, whatever `paused` is |
| `StreamRing.HcurlStream.CancelWaitRead` | cbits/stream.c:375-393 | gives the pointer back, and forgets it, exactly if it is the stored one |
| `StreamRing.HcurlStream.TakePause` | cbits/stream.c:269-281 | clears the pause flag exactly if the stream is live and paused, and says so |
| `StreamRing.HcurlStream.RestorePause` | cbits/stream.c:290-296 | sets it again exactly if the stream is still live |
| `StreamRing.HcurlStream.FinishUpload` | cbits/stream.c:536-560 | refines its specification, all answers included |
| `StreamRing.HcurlStream.Close` | cbits/stream.c:562-588 | drops the ring's contents, detaches both waiters and answers whether this thread must send CANCEL |
| `StreamRing.HcurlStream.Complete` | cbits/stream.c:615-638 | keeps a terminal code that is already there, clears the pause flag and detaches both waiters |
| `StreamRing.HcurlStream.Destroy` | cbits/stream.c:155-177 | drops the contents and hands out both waiters |
| `StreamProtocol.NoLostResume` | cbits/stream.c:265-298 | while libcurl's side of a live stream is stopped or about to be, the pause flag is set, a flusher is between clearing it and its answer, or a RESUME is queued; exactly one of these unless libcurl was resumed from elsewhere |
| `StreamProtocol.ReaderHasResume` | cbits/stream.c:348-373 | a registered reader of a stopped stream has a RESUME queued |
| `StreamProtocol.WriterHasResume` | cbits/stream.c:505-526 | on every run, a registered writer of a stopped stream has a RESUME queued if and only if one was when it registered; a clear pause flag then guarantees one, and decides it unless libcurl was resumed from elsewhere |
| `StreamProtocol.CarefulWriterHasResume` | src/HCurl/Internal/Body.hs:327-357 | a writer that abandoned no flush loop has one |
| `StreamProtocol.CarelessWriterStrands` | cbits/stream.c:505-526 | a run in which a writer that did is stranded for good |
| `StreamProtocol.StepKeepsInv` | cbits/stream.c:187-638 | every critical section of every thread, the unnormalized completion of a transfer that was never registered included, keeps the resume tokens, the conservation of bytes, the waiters' causes and the cancel token |
| `StreamProtocol.WaitersHaveCause` | cbits/stream.c:224-240 | in every state a read waiter means an empty ring, a write waiter a full one, and neither closed nor terminal |
| `StreamProtocol.NothingLost` | cbits/stream.c:187-246 | what came out is a prefix of what went in, and until close the ring holds exactly the rest, within its capacity |
| `StreamProtocol.EndAfterEverything` | cbits/stream.c:300-346 | a reader is told the end only after every accepted byte was returned, and nothing is accepted afterwards |
| `StreamProtocol.EofAfterEverything` | cbits/stream.c:399-447 | libcurl is told the end of the upload only when the writer has finished and every byte was handed over; after close it aborts |
| `StreamProtocol.AtMostOneCancel` | cbits/stream.c:562-602 | at most one CANCEL of a stream is ever accepted, and at most one thread is in the course of sending one |
| `StreamProtocol.OneVerdict` | cbits/stream.c:625-628 | the terminal code is written once, and closing is for ever |
| `StreamProtocol.OnlySetterClears` | cbits/stream.c:594-600 | only the thread that set cancel_sent clears it, and only after a refusal |
| `StreamProtocol.EndedIsTerminal` | cbits/stream.c:615-638 | a finished transfer leaves its stream terminal with nobody registered |
| `StreamAnswers.ReaderTold` | cbits/stream.c:300-346 | what each read is told on every run, exactly, in terms of the bytes accepted and returned: bytes while some are left, then the stored terminal code, and nothing after close |
| `StreamAnswers.ReaderWaits` | cbits/stream.c:348-373 | when a waiting reader is registered, told to flush, or told to read, exactly |
| `StreamAnswers.WriterTold` | cbits/stream.c:449-503 | what each write is told, exactly: the stored terminal code of a transfer that is over, and otherwise whether the block went in |
| `StreamAnswers.WriterWaits` | cbits/stream.c:505-526 | when a waiting writer is registered, exactly |
| `StreamAnswers.FinisherTold` | cbits/stream.c:536-560 | finishing succeeds on every upload that is not over, and asks for a flush exactly if libcurl may be stopped |
| `StreamAnswers.UploadTold` | cbits/stream.c:399-447 | what libcurl's request for bytes is answered, exactly: the next bytes, as many as fit of the oldest block; the end; a pause; an abort |
| `StreamAnswers.DownloadTold` | cbits/stream.c:187-246 | what a download block is answered, exactly: a live stream never rejects one for lack of room |
| `StreamAnswers.VerdictIsFirst` | cbits/stream.c:625-628 | the terminal code, on every run, is that of the first call that completed the stream |
| `StreamAnswers.ClosedIsAborted` | cbits/stream.c:604-613 | a completion that asks a closed or cancelled stream goes on with CURLE_ABORTED_BY_CALLBACK, any other with its own code |
| `StreamAnswers.PausedHasFlusher` | cbits/stream.c:265-298 | without an abandoned flush loop, a live paused stream that could go on (a download with room, an upload with bytes or its end) has a flusher, on every run |
| `StreamAnswers.NobodyForgets` | src/HCurl/Internal/Body.hs:264-384 | so whenever libcurl is stopped on such a stream and the client is idle, a RESUME is queued: no read, write or finish returns for good without one |
| `StreamAnswers.NoLostCancel` | cbits/stream.c:562-602 | on a stream without a terminal code, cancel_sent means that one CANCEL was accepted or one closer is sending it; otherwise the next close asks for one |
| `StreamReactor.StepKeepsInv` | cbits/stream.c:248-298 | every step of the stream, its clients, libcurl, the reactor and all other producers keeps the link between the stream's flags and the messages in the reactor's queue |
| `StreamReactor.NoLostResume` | cbits/message_chan.c:368-392 | through the real queue: while a live stream is stopped with no pause flag and no flusher, a RESUME of its transfer is in the queue ahead of the agent, and the transfer is registered and active |
| `StreamReactor.ReaderHasQueuedResume` | cbits/stream.c:348-373 | in particular behind every registered reader of a stopped stream |
| `StreamReactor.WriterHasQueuedResume` | src/HCurl/Internal/Body.hs:327-357 | behind a registered writer of a stopped stream the stream's own RESUME is in the reactor's queue if and only if one was when it registered, and it was if the pause flag was clear or the writer abandoned no flush loop |
| `StreamReactor.NobodyForgets` | src/HCurl/Internal/Body.hs:264-384 | through the real queue: a live stopped stream that could go on, with nobody flushing and no flush loop abandoned, has its RESUME in the reactor's queue |
| `StreamReactor.ResumeReachesCurl` | cbits/message_chan.c:368-392 | a handled RESUME of the stream that leaves its transfer running did reach libcurl |
| `StreamReactor.CancelEndsStream` | cbits/stream.c:562-602 | once the stream's accepted CANCEL has left the queue, the transfer is settled and the stream terminal |
| `StreamReactor.ShutdownEndsStream` | cbits/message_chan.c:517-551 | after shutdown every stream of an accepted transfer is terminal and nobody is registered on it |
| `StreamReactor.CallNeverBlocked` | cbits/stream.c:248-263 | the stream is ready for whatever answer the queue gives to its call |
| `StreamReactor.AgentNeverBlocked` | cbits/message_chan.c:453-478 | whenever the agent is not itself inside a callback or a completion, its step is possible together with the stream |
| `Headers.CompletedIsLatestBlock` | cbits/headers.c:175-241 | for every sequence of lines with successful appends, the completed buffer is one contiguous slice: the latest block that reached its blank line, with its trailers, up to the next status line; its status is parsed from the slice's first line |
| `Headers.LatestBlockIsUnique` | cbits/headers.c:175-241 | there is only one such slice |
| `Headers.CurrentIsOpenBlock` | cbits/headers.c:175-241 | the open buffer is exactly the lines since the latest status line |
| `Headers.ReadyExactly` | cbits/headers.c:175-241 | the response is ready exactly when a block qualified for publication, the body started or the transfer completed |
| `Headers.WaiterMeansNotReady` | cbits/headers.c:270-352 | in every state a registered waiter means not ready, whatever failed or arrived |
| `Headers.StatusRoundTrip` | cbits/headers.c:69-86 | the status of every line made of a version, a space, three digits and a rest is read back |
| `HeaderOutcome.StatusExactly` | cbits/headers.c:69-86 | for every line the status is its three digits behind the first run of spaces, or zero if they are not there |
| `HeaderOutcome.PublishedByClass` | cbits/headers.c:211-224 | which finished blocks are published, by class of status: protocol switch, successes but for a proxy's greeting in any case of letters, errors but for authentication challenges; not interim answers, redirects or unreadable ones |
| `HeaderOutcome.ResponseExactly` | cbits/headers.c:175-331 | a response is available exactly if a block was published, or the body started behind a block with a readable status |
| `HeaderOutcome.WaitTold` | cbits/headers.c:270-290 | what a waiter is told, exactly |
| `HeaderOutcome.CompletedExactly` | cbits/headers.c:333-352 | the transfer is over once it was completed, and the code is that of the last completion |
| `HeaderOutcome.TerminalBeforeResponse` | cbits/headers.c:243-268 | the end of the transfer is reported instead of a response exactly if it was completed and there was none, never behind a published block |
| `HeaderData.Parse` | cbits/headers.c:69-86 | the scanning loop computes the specified status for every line |
| `HeaderData.Contains` | cbits/headers.c:97-115 | the nested loops decide whether the needle occurs anywhere, ignoring ASCII case |
| `HeaderData.Buffer.Reserve` | cbits/headers.c:29-48 | growing keeps the contents and makes room, or fails and changes nothing, overflow included |
| `HeaderData.Buffer.Append` | cbits/headers.c:50-63 | the contents gain the data, or nothing changes |
| `HeaderData.HeaderData.OnLine` | cbits/headers.c:175-241 | the callback on two swapped growable buffers refines the header machine, failed appends and an overflowing size included |
| `HeaderData.HeaderData.Wait` | cbits/headers.c:270-290 | refines its specification |
| `HeaderData.HeaderData.MarkComplete` | cbits/headers.c:333-352 | refines its specification: overwrites the code, sets ready, detaches the waiter |
| `HeaderData.HeaderData.BodyStarted` | cbits/headers.c:307-331 | refines its specification: a response is available exactly if one was or a block is complete |
| `HeaderData.HeaderData.Snapshot` | cbits/headers.c:243-268 | a copy of the completed block, its status and the terminal code, or failure, and no change |
| `Verdicts.SidesDiffer` | cbits/stream.c:615-628 | over every interleaving of completions the headers and the stream differ if and only if the last to mark brought another code than the first to finish |
| `Verdicts.AgreeInTurn` | cbits/headers.c:333-352 | for completions one after another they agree if and only if the last code is the first |
| `Verdicts.SidesOfTransfer` | cbits/stream.c:615-638 | over every run of the download stream protocol with its headers, normalized completion or not, the exact condition in terms of the calls the program makes: one by the reactor, all others with CURLE_ABORTED_BY_CALLBACK |
| `Verdicts.TwoVerdicts` | cbits/stream.c:282-289 | a run in which the two codes differ |
| `Pool.ClampIsSane` | src/HCurl/Internal/Agent.hs:314-332 | whatever is asked for, the policy in force is sane and within the machine; agent bounds that are sane already are kept |
| `PoolDemand.ClampExactly` | src/HCurl/Internal/Agent.hs:314-332 | field by field: kept where sane, the nearer bound or the default otherwise |
| `PoolDemand.NanosExactly` | src/HCurl/Internal/Agent.hs:334-337 | microseconds become nanoseconds, saturating at both ends |
| `PoolSafety.StepKeepsInv` | src/HCurl/Internal/Agent.hs:365-454 | every step under the lock, and everything between, keeps the pool's invariant |
| `PoolSafety.CountsAreLeases` | src/HCurl/Internal/Agent.hs:673-690 | each worker's active count is its number of outstanding leases, IDs are distinct and below the next, and no more workers than the maximum are selectable |
| `PoolSafety.ReleasedOnce` | src/HCurl/Internal/Transfer.hs:73-77 | however often and from however many threads a transfer's release closure runs, its lease is given back at most once |
| `PoolSafety.NeverClamps` | src/HCurl/Internal/Agent.hs:818-832 | a release that happens finds its lease outstanding and its worker's count positive, so `max 0` never clamps |
| `PoolSafety.AveragesBounded` | src/HCurl/Internal/Agent.hs:374-382 | utilization stays in [0,1] and the load average within the range of its samples |
| `PoolDemand.DemandIsLeases` | src/HCurl/Internal/Agent.hs:369-377 | the demand that is sampled is the number of leases on selectable workers |
| `PoolDemand.TickSamples` | src/HCurl/Internal/Agent.hs:368-382 | each tick of an open pool moves the load by that demand, and each utilization by whether the worker has a lease |
| `PoolDemand.AveragesFollow` | src/HCurl/Internal/Agent.hs:378-382 | after n equal samples the distance of the average to the sample has shrunk by (1 - alpha)^n |
| `PoolSafety.LeaseGoesToOpen` | src/HCurl/Internal/Agent.hs:778-793 | a lease is granted on a worker that is not draining, least loaded or fresh |
| `PoolDemand.LeaseGoesToRunning` | src/HCurl/Internal/Agent.hs:339-347 | a worker found dead is never chosen |
| `PoolDemand.GrowsOnDemand` | src/HCurl/Internal/Agent.hs:778-793 | an admission starts a worker if and only if nobody is selectable, or everybody selectable is busy enough, there is room and the recorded cooldown is over; and the start succeeds |
| `PoolSafety.ClosingForEver` | src/HCurl/Internal/Agent.hs:447-454 | a draining or removed worker never gets a lease again and never comes back |
| `PoolSafety.RetiresOnlyIdle` | src/HCurl/Internal/Agent.hs:747-756 | although decision, stop and removal are separate steps, what is removed was stopped, is draining and has no lease, and nobody else is removed |
| `PoolDemand.ReleaseHandsBack` | src/HCurl/Internal/Agent.hs:818-832 | the releasing thread gets the worker to retire if and only if it is draining and this was its last lease |
| `PoolDemand.TickHandsOver` | src/HCurl/Internal/Agent.hs:447-454 | a tick hands over every worker without a lease that was draining, is found stopped, or is drained by it |
| `PoolDemand.ShutForEver` | src/HCurl/Internal/Agent.hs:758-768 | from the start of a close on, everybody drains, no lease is granted and nobody is started |
| `PoolSafety.VictimIsLeast` | src/HCurl/Internal/Agent.hs:396-412 | a drain marks one selectable worker with the least (active, utilization) and no other |
| `PoolSafety.DrainsAreSpaced` | src/HCurl/Internal/Agent.hs:388-412 | drains are at least mpSustainTicks ticks apart |
| `PoolDemand.DrainsWhenQuiet` | src/HCurl/Internal/Agent.hs:383-412 | a drain is the last of at least mpSustainTicks ticks in a row with more than the minimum selectable and a load of at most mpShrinkLoad for each of them |
| `PoolDemand.NewlyDraining` | src/HCurl/Internal/Agent.hs:396-412 | a running worker that starts to drain in a tick was drained by such a decision |
| `PoolDemand.QuietCounts` | src/HCurl/Internal/Agent.hs:383-412 | and a quiet tick behind the cooldown drains somebody or counts towards it |
| `PoolSafety.MinimumRestored` | src/HCurl/Internal/Agent.hs:426-439 | if no reactor dies during it and spawns succeed, a tick ends with at least the minimum selectable |
| `PoolSafety.GrowthWaits` | src/HCurl/Internal/Agent.hs:778-793 | an admission that starts a worker while another is selectable, also after its own look at who died, does so a spawn cooldown after the recorded start, below the maximum, with everyone busy enough; that is the true cooldown if an admission started the newest worker, and short by at most the wait of the tick that did |
| `PoolSafety.RecordOfStart` | src/HCurl/Internal/Agent.hs:795-808 | on every run, an admission records the true start of its worker, a tick is off by exactly the time it waited for the lock, and the first workers' start is not recorded; above the minimum the newest worker was started by an admission |
| `PoolCooldowns.GrowthExactly` | src/HCurl/Internal/Agent.hs:778-793 | for which policies the spawn cooldown holds on every run, from the true start: if and only if none is asked for or the maximum is one worker |
| `PoolCooldowns.DrainsExactly` | src/HCurl/Internal/Agent.hs:383-412 | for which policies the kill cooldown holds on every run, from the true start: if and only if none is asked for, the minimum is the maximum, or there are two or more sustain ticks |
| `PoolSafety.EagerPoolGrowsEarly` | src/HCurl/Internal/Agent.hs:426-439 | a run in which it does not, right after a restored minimum |
| `PoolSafety.CooldownExactly` | src/HCurl/Internal/Agent.hs:383-391 | on every run, a drain comes a kill cooldown after the newest worker really started if and only if the tick's reading is not older than that start |
| `PoolSafety.CooldownKept` | src/HCurl/Internal/Agent.hs:254-261 | with two or more sustain ticks every drain of every run comes a kill cooldown after the newest worker really started |
| `PoolSafety.HastyPoolDrainsEarly` | src/HCurl/Internal/Agent.hs:383-391 | with one sustain tick a run exists that does not |
| `ManagedPool.PickLeast` | src/HCurl/Internal/Agent.hs:396-412 | the loop over worker objects finds the first least open one |
| `ManagedPool.Refresh` | src/HCurl/Internal/Agent.hs:417-421 | the loop marks exactly the workers found stopped |
| `ManagedPool.Manager.Pick` | src/HCurl/Internal/Agent.hs:778-793 | admission on shared worker objects refines the specified admission |
| `ManagedPool.Manager.Acquire` | src/HCurl/Internal/Agent.hs:673-690 | likewise for admission with its increment |
| `ManagedPool.Manager.RestoreMinimum` | src/HCurl/Internal/Agent.hs:426-439 | likewise for the spawn loop |
| `ManagedPool.Manager.ReleaseWorker` | src/HCurl/Internal/Agent.hs:818-832 | likewise for a release |
| `ManagedPool.Manager.ControllerTick` | src/HCurl/Internal/Agent.hs:365-394 | likewise for a whole controller tick: measuring, deciding, draining, restoring |
| `ManagedPool.Manager.RemoveRetired` | src/HCurl/Internal/Agent.hs:747-756 | likewise for the removal |
| `ManagedPool.Manager.BeginClose` | src/HCurl/Internal/Agent.hs:758-762 | likewise for the first section of closing: everyone drains |
| `ManagedPool.Manager.FinishClose` | src/HCurl/Internal/Agent.hs:766-768 | likewise for the last: nobody is left |
| `TransferIds.IdsNeverRepeat` | src/HCurl/Internal/Agent.hs:834-842 | identifiers are never zero, never repeat and never wrap; a call fails exactly when all have been issued |
| `TransferIds.IdCounter.NewTransferId` | src/HCurl/Internal/Agent.hs:834-842 | the in-place counter gives the next of them |

## Left out

- libcurl and libuv themselves, with the socket and timer glue of cbits/curl_uv.c: their calls are events that may happen whenever the assumptions above allow.
- Weak memory: atomics are sequentially consistent steps.
- The version-conditional legacy branches of cbits/message_chan.c (lines 231-239 and what depends on them).
- Reference counts of the message sender (cbits/message_chan.c:45-77): the sender outlives every call.
- Freed memory: "destroyed" is an event that is counted, not a heap operation.
- Metrics, option setters, request validation, slist overlays, cbits/simple_string.c, the table of codes, run-once cells and the round robin: wrappers or small members.
- The Conduit adapter, benchmarks, examples, tests and build files.
- Fairness and timing: that a thread is eventually scheduled is not stated; that nobody is stranded is.
- Asynchronous exceptions other than those that interrupt `awaitOneShot`, a flush or retry loop, a lease's release, or retirement; in particular one that arrives inside a controller tick.
- src/HCurl/Internal/Agent.hs:844-845, `resumeRequest`: nothing calls it.
- MpscRing.Ring.Enqueue: the class runs one call at a time; interference between calls is the subject of Mpsc, whose steps use the same operations on the memory.
- MpscRing.Ring.Dequeue: the same.
- AgentContext.Context.CheckMessages: takes the messages accepted before it as given, with no producer at work meanwhile; producers and agent interleave in Reactor, over the same specification of the agent.
- AgentContext.Context.Shutdown: starts after the close barrier, whose steps are in Reactor.
- Reactor.StepKeepsInv: the agent may look at its queue at any time; that it does so only when notified is in Wakeups, over the same steps.
- StreamProtocol.NoLostResume: one stream at a time; a resume caused by the transfer's other stream is an event that may always happen. In StreamReactor it comes from a queued RESUME, or from the other stream's callback while the transfer is registered.
- StreamReactor.StepKeepsInv: the callbacks of a transfer may come whenever it is registered, and its completion may begin at any time but then blocks the agent until the step that settles it.
- StreamRing.HcurlStream.OnDownload: the `easy` pointer used to pause at once is not in the class, and marking the start of the body is a step of the header machine; a refused pause is an event of StreamProtocol.
- HeaderData.HeaderData.OnLine: lines are strings of characters, not bytes.
- WakerCells.HeaderWakersLinear: a thread interrupted after the destruction is told that its pointer is gone; that the destroyed memory is still there to be asked is not modelled.
- WakerCells.StreamWakersLinear: likewise.
- PoolSafety.AveragesBounded: over the reals; rounding of Double is not modelled.
- PoolSafety.MinimumRestored: the loop of restoreMinimum is given a list of rounds longer than the minimum, which is as many as it can need.
- Pool.ClampIsSane: a Double is a real or one value that stands for the infinities and NaN.
- PoolSafety.RetiresOnlyIdle: an interrupted retirement is dropped before its removal, and a later tick starts it again.
