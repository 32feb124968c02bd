# A verified model of the atomic blob store

The store keeps one file per key in a directory. Callers submit operations through a channel; a
coordinator thread keeps them first-in first-out per key, hands them to a bounded pool of workers, holds
back flushes, maintenance and close until they are due, and comes down in order. Each file is an envelope
with a CRC32C checksum, and it is only ever replaced by an atomic rename.

This project models three layers and proves properties across them.

* **The coordination protocol.** `Protocol.dfy` is a state machine with one step for each thing that a
  submitter, a worker or the coordinator does between two points at which threads can notice each other.
  A request is known by its position in the order in which requests were sent; sending happens under the
  lifecycle lock, so there is one such order. `Invariant.dfy` says what holds in every reachable state, the
  `Steps*.dfy` files prove that every step keeps it, and `Runs.dfy` lifts this to every interleaving.
  `Answers.dfy`, `Causes.dfy`, `Conservation.dfy`, `Barriers.dfy`, `Endings.dfy`, `Refinement.dfy`,
  `Progress.dfy`, `Stalls.dfy` and `Panic.dfy` hold the promises that follow. `Coordinator.dfy` is the coordinator as it is written, a class
  whose fields are updated in place; each of its methods is proved to take exactly steps of that machine,
  with other threads stepping in between, so all promises hold of it. `Workers.dfy` is the pool, and
  `Engine.dfy` the callers' side: check and send under the lock, close, and the join of the coordinator's
  thread. `Locking.dfy` justifies that check and send are one step: it makes the lock explicit and proves
  that nothing else becomes possible.
* **The envelope.** `Envelope.dfy` gives the file layout and what reading it has to answer as functions,
  with the laws of the layout; `EnvelopeIo.dfy` holds the loops over readers, channels and writers, proved
  against those functions. The checksum is CRC32C as in section 12.1 of RFC 3720, bit by bit
  (`Crc32c.dfy`), so its injectivity is proved, not assumed.
* **The files and the facades.** `FileNames.dfy` is the printer and the recogniser of file names.
  `Directory.dfy` is the directory as one operation works on it: the operation has a footprint, the names
  of its key; between any two of its calls others may do anything to all other names; every call may fail;
  and every state is remembered, with what has been flushed and synced. `Filesystem.dfy` and `Cleanup.dfy` are the step sequences of save, clear,
  quarantine, load, inspect and clean-up on it, and `Execution.dfy` shows that executing an operation
  keeps to its footprint and does what `Operations.dfy` allows, also where it is stopped half-way.
  `Sharing.dfy` puts the layers together: all jobs' steps in one directory, interleaved with each other,
  with other stores' and with all threads'. It proves that nobody enters another's footprint, and that an
  execution amounts to the two steps, opening and ending, that the protocol layer makes of it.
  `Blocking.dfy` is the caller's half of the streaming protocols.

Where an execution ends in a panic, the protocol allows it to have left the old or the new file.
A dropped reply channel is the reply `Dropped`, which a caller sees as `EngineFailed`.

## Model

| member | source | states |
|---|---|---|
| Runs.ReachableInv | src/engine/scheduler.rs:55-282 | every interleaving of submitters, workers and coordinator keeps the invariant: where each request is, one token per active key, nothing stranded, files equal to the replay of recorded effects |
| Runs.AnswersAreFinal | src/engine/scheduler.rs:66-275 | no later step of any run changes an answer |
| Answers.StepMarksUnanswered | src/engine/scheduler.rs:66-275 | whatever a step writes to a request, its answer or how far it has come, it writes to one that has no answer yet |
| Answers.AnsweredAtMostOnce | src/engine/scheduler.rs:66-275 | over any run, the times a request is answered are counted: once if it has an answer in the end and had none in the beginning, and otherwise never |
| Causes.FlushIsAnswered | src/engine/scheduler.rs:326-341 | an answered flush has `Ok`, unless a close was sent before it, and then `StoreClosed`; with `Ok`, everything sent before it is answered |
| Causes.MaintenanceIsAnswered | src/engine/scheduler.rs:125-149 | an answered clean-up has its report exactly if its job came to its end, a dropped channel exactly if the job panicked or was lost, `WorkerUnavailable` exactly if it could not be started, `StoreClosed` exactly if a close was sent before it, and nothing else |
| Causes.OperationIsAnswered | src/engine/scheduler.rs:93-124 | an answered operation has the very result its job ended with, exactly if it did; the other answers are those of a clean-up, each exactly for its cause |
| Causes.CloseIsAnswered | src/engine/scheduler.rs:222-268 | an answered close has `Ok` and the lifecycle is `Closed`, or `ShutdownFailure` and it is `ShutdownFailed` |
| Causes.NothingWasLost | src/engine/workers.rs:81-87 | in a run in which no step loses a job, no request's job was lost, so a dropped channel means a panic |
| Conservation.EachKeyInOrder | src/engine/scheduler.rs:66-92 | same-key FIFO as conservation: operations that left the queue, then the queue, then those held back, then those in the channel are exactly the key's accepted operations in the order sent |
| Conservation.OneTokenEach | src/engine/scheduler.rs:404-470 | each active key has exactly one job or completion under way and no other key has any; two jobs never share a key; active keys and workers stay within the bound and workers suffice for the jobs |
| Barriers.BarriersAreExact | src/engine/scheduler.rs:284-344 | a flush succeeds, and maintenance starts, only when all earlier requests are answered; as long as it is unanswered no later request has been let in or has touched a file |
| Barriers.MaintenanceIsAlone | src/engine/scheduler.rs:293-309 | while maintenance is active no key is active, all queues are empty and no step starts an operation |
| Barriers.FrontIsExact | src/engine/scheduler.rs:297-337 | when a held-back request is released, everything it has to wait for is over and nothing sent after it has been let in |
| Endings.NothingIsStranded | src/engine/scheduler.rs:66-161 | between events, below the bound every non-empty queue belongs to an active key, and whatever is held back waits for something under way |
| Endings.IdleStoreHoldsNothing | src/engine/scheduler.rs:60-276 | when the coordinator waits on an empty channel and no job is out, it holds nothing and every request is answered |
| Endings.DisconnectsExactlyWhenDrained | src/engine/scheduler.rs:60-282 | `recv` reports disconnection exactly when the last handle is gone and every request has been answered |
| Endings.CloseLosesNothing | src/engine/scheduler.rs:182-275 | when the coordinator has returned: queues, pending, active and channel are empty, every request is answered, exactly the requests sent after the first close were answered `StoreClosed`, every close got the same outcome, nothing can be sent any more |
| Endings.NothingIsSentBehindTheDrain | src/engine/scheduler.rs:222-268 | from the terminal write on nothing can be sent, no job is out, and the drain skips no completion |
| Endings.TurnedAwayOnlyAfterClose | src/engine/scheduler.rs:66-73 | in any state, a request answered `StoreClosed` was sent after a close |
| Refinement.RefinesThePlainStore | src/engine/scheduler.rs:55-276 | the files are those of a plain map on which the executed operations were called one at a time in the order sent, each doing what it may do to the file it found there |
| Refinement.AnswersArePlain | src/engine/scheduler.rs:404-470 | each answer is one the operation may give on the plain map at its turn; refused requests have no effect |
| Refinement.SavedIsLoaded | README.md:33-50 | end to end, through any interleaving, for payloads passed whole or in chunks: a load after a successful save of the key, with nothing in between that changed the file, gets exactly the saved payload or an I/O error; a streaming load cancelled by its reader has delivered a beginning of it |
| Refinement.ResultsMatchOperations | src/engine/operation.rs:128-149 | the result that reaches `deliver` belongs to its operation, so its last arm is never reached |
| Refinement.EveryEffectIsOldOrNew | README.md:85-93 | every executed operation, also one that panicked, left the complete old file or its complete replacement |
| Refinement.NothingChangesUnderAJob | src/format.rs:181-211 | from the moment a job opens its file until it is done no other operation changes that file, so both passes of a streaming load read the same bytes |
| Refinement.OperationsMayEnd | src/engine/operation.rs:51-125 | whatever file an operation finds, there is a result that it may end with |
| Refinement.EveryRequestToAStoreIsAnswered | src/engine/scheduler.rs:60-276 | the bound and the answers of Progress.EveryRequestIsAnswered hold of every store, with the callers of any streams stalled |
| Sharing.ApartIsExact | src/path.rs:8-14 | the names of one key, or of one store's clean-up, and those of another have none in common exactly if the suffixes differ or they are those of two different keys |
| Sharing.JobsKeepApart | src/engine/scheduler.rs:404-470 | two jobs with the workers at the same time never share a name of the directory |
| Sharing.ExecutionKeepsPromise | src/engine/operation.rs:51-125 | every next step of an execution that is as RunOwnedOperation's contract says obeys the rule for steps in a shared directory |
| Sharing.ExecutionEndsAsPromised | src/engine/operation.rs:51-125 | so does its end, and a panic wherever it stops the execution |
| Sharing.CleanupKeepsPromise | src/filesystem/mod.rs:1044-1123 | every next step of a clean-up that is as CleanupStaleFiles' contract says obeys the rule |
| Sharing.EndIsAStep | src/engine/operation.rs:51-125 | the end of an execution, whatever the interleaving was, is a step the protocol allows on the file it found when it opened |
| Sharing.SharedStepKeepsSound | src/engine/scheduler.rs:437-469 | every step in the directory or of the threads keeps: nobody touched the names of an operation under way, its file is old or new, and all other keys' files are those of the protocol |
| Sharing.JobsActAsOne | README.md:46-50 | however the system calls of all jobs, of other stores in the directory and of all threads are interleaved, the threads are in a state that the protocol's machine reaches |
| Sharing.NobodyInterferes | src/filesystem/mod.rs:782-791 | from opening to end nobody else touches the names of an operation, which is what its contract asks of others |
| Sharing.EveryFileIsPlainOrUnderWay | README.md:85-93 | at every moment each key's file is that of the plain map, or an operation on the key is running and the file is the old one or its complete replacement |
| Progress.StepCosts | src/engine/scheduler.rs:60-276 | every step of coordinator or worker lowers a potential, whatever fails |
| Progress.CoordinatorIsNeverStuck | src/engine/scheduler.rs:60-276 | unless it has stopped or waits on an empty channel that can be sent to, the coordinator can take a step even if the pool cannot grow |
| Progress.WorkerGoesOn | src/format.rs:76-138 | a worker whose caller does not stall can take a step: it opens its file, or comes to a result |
| Progress.OnlyStallsHoldUp | README.md:66-69 | where only steps that wait for a stalled caller are left, every request is answered, or is stalled itself, or is queued behind a stalled operation of its key or with the store at its bound, or is held back by a barrier: a slow stream holds up its key, its slot and barriers, and nothing else |
| Progress.UnansweredMeansWork | src/engine/scheduler.rs:60-276 | as long as a request is neither answered nor held up by a stalled caller, the coordinator or a worker can take a step that waits for no such caller |
| Progress.EveryRequestIsAnswered | src/engine/scheduler.rs:60-276 | without new requests, at most `Potential` steps are left from any reachable state; whichever callers stall, when no other step is left every request is answered or held up by a stalled caller; and if none stalls, every request is answered |
| Stalls.StallsHappen | src/format.rs:205-214 | the condition is needed: one streaming load whose reader does not acknowledge it stays unanswered with no other step left |
| Progress.BarrierOnlyWaitsLess | src/engine/scheduler.rs:93-124 | with a barrier first among what is held back, active plus queued operations never grow, and each completion received makes them fewer |
| Progress.BarrierIsReleased | src/engine/scheduler.rs:297-342 | a barrier at the front is released by the next round exactly when nothing is active or queued |
| Progress.DispatchTakesOne | src/engine/scheduler.rs:404-470 | each start of an operation takes exactly one operation from the queues, however it ends |
| Panic.FailQueued | src/engine/scheduler.rs:13-44 | after a coordinator panic exactly the requests carried by the channel are answered, each with the failure of its kind, and the channel is empty |
| Panic.PanicStrandsNobody | src/engine/scheduler.rs:13-44 | wherever the coordinator panics, an unanswered request is carried by the channel, held by the coordinator, or held by a job |
| Panic.CarriedIsUnanswered | src/engine/scheduler.rs:13-44 | what the channel carries is not answered yet |
| Panic.CarriedOnce | src/engine/scheduler.rs:13-44 | no two events carry the reply channel of the same request, so nobody is answered twice |
| Panic.UnwindingCommutes | src/engine/workers.rs:101-119 | steps of workers and submitters during the unwinding lead to what the unwinding makes of the state after the same steps |
| Panic.PanicMightHaveComeLater | src/engine/workers.rs:101-119 | whatever happens while the workers are joined, the outcome is that of a panic in a reachable state after it |
| Panic.JoiningGoesOn | src/engine/workers.rs:101-119 | while the workers are joined, each that has a job and whose caller does not stall can go on to its result |
| Panic.ComeDown | src/engine/mod.rs:286-299 | after unwinding, joining the workers, the `Failed` lifecycle and the emptied channel, every request has its answer: the one it had; a dropped channel exactly if the coordinator held it; or else `ShutdownFailure` for a close and `EngineFailed` for all others; files are those of a reachable state, and nothing can be sent |
| Coordination.Coordinator.DispatchIfIdle | src/engine/scheduler.rs:405-470 | takes exactly one machine step for the key: skip, or take its next operation from the queue and start it, or refuse it if a call of the pool fails; the pool is open, so the job is never lost |
| Coordination.Coordinator.StartNext | src/engine/scheduler.rs:416-469 | pool, queue, active keys, job or completion, and answer are exactly those of the started, refused or lost operation |
| Coordination.Coordinator.GiveUp | src/engine/scheduler.rs:423-436 | a refused operation is answered and its emptied queue forgotten |
| Coordination.Coordinator.HandOver | src/engine/scheduler.rs:437-469 | the key becomes active and gets its job, exactly if the pool is open, or else its completion |
| Coordination.Coordinator.DispatchAvailable | src/engine/scheduler.rs:473-488 | ends, and leaves no idle key with a queued operation unless the store is at its bound |
| Coordination.Coordinator.DispatchMaintenance | src/engine/scheduler.rs:347-402 | the maintenance request is running with a job; or, if a call of the pool fails, answered or dropped with a completion sent to the coordinator itself |
| Coordination.Coordinator.AdvancePendingIfReady | src/engine/scheduler.rs:285-344 | takes exactly the machine's rounds until nothing more may be released, and ends |
| Coordination.Coordinator.AdvanceRound | src/engine/scheduler.rs:297-342 | one round, by the kind of the front: each round that goes on has taken one request from what is held back; what the request is answered is said by Causes.FlushIsAnswered and Causes.MaintenanceIsAnswered |
| Coordination.Coordinator.TakeEvent | src/engine/scheduler.rs:60-149 | one event leaves the channel, with what its arm does first; exactly the machine's receiving step; which answer a clean-up gets by it is said by Causes.MaintenanceIsAnswered |
| Coordination.Coordinator.Recv | src/engine/scheduler.rs:60-65 | disconnection is reported only when the machine allows it |
| Coordination.Coordinator.OnSubmission | src/engine/scheduler.rs:66-92 | refused, held back, or queued and dispatched, as the machine's steps have it |
| Coordination.Coordinator.OnCompletion | src/engine/scheduler.rs:93-124 | the key is retried first, then others, the result delivered, then what is held back advances |
| Coordination.Coordinator.OnBarrier | src/engine/scheduler.rs:125-181 | maintenance and flush are refused, or held back and then advanced |
| Coordination.Coordinator.OnClose | src/engine/scheduler.rs:182-213 | the first close closes the lifecycle; closes are held back or answered from the final state |
| Coordination.Coordinator.CloseIfDue | src/engine/scheduler.rs:215-275 | stops the coordinator exactly through the machine's steps for a close that is due, with the good outcome if and only if none of the pool's threads had panicked |
| Coordination.Coordinator.AnswerPendingCloses | src/engine/scheduler.rs:230-243 | answers every close held back, and leaves nothing held back at all |
| Coordination.Coordinator.DrainChannel | src/engine/scheduler.rs:244-268 | ends, with the channel empty, because nothing can be sent any more |
| Coordination.Coordinator.OnDisconnect | src/engine/scheduler.rs:277-281 | the pool is taken down and the lifecycle closed |
| Coordination.Coordinator.RunScheduler | src/engine/scheduler.rs:48-282 | for every script of what other threads try, takes only machine steps, never one that loses a job, and comes to an end: it returns, holding nothing, with an empty channel and every request answered; or it waits at `recv` with nothing on its way, and unless a job is out every request is answered; on return after a close, the lifecycle is `Closed` and every close succeeded if no thread of the pool had panicked, and otherwise `ShutdownFailed` and every close says so |
| Workers.WorkerPool.Prepare | src/engine/workers.rs:36-79 | grows to the required number and never beyond the capacity, unless a thread cannot be started; what was started stays |
| Workers.WorkerPool.Execute | src/engine/workers.rs:81-87 | a job is taken exactly by an open pool |
| Workers.WorkerPool.Shutdown | src/engine/workers.rs:101-112 | joins every worker even after a panic, and is good exactly if none of them panicked |
| Engine.EngineHandle.Submit | src/engine/mod.rs:769-823 | with the look of `ensure_open` (mod.rs:191-204) first, and others going on between it and the lock: a request is sent exactly if the store is open at the last look, and then the coordinator is still listening, so sending does not fail; otherwise the error is `EngineFailed` after a panic and `StoreClosed` before |
| Engine.EngineHandle.Close | src/engine/mod.rs:651-722 | with both looks: a close is sent exactly if the lifecycle is open or closing at the last, to a coordinator that is listening; otherwise the final state, `Failed` among them, answers |
| Engine.EngineHandle.FinishClose | src/engine/mod.rs:704-733 | every closer gets the same outcome from a coordinator that has returned: success exactly if the pool came down well and the thread did not panic. After a panic a success means that the final state had been written; otherwise it is `ShutdownFailure`, or `EngineFailed` exactly if the close was dropped by the unwinding and its waiter looks before `Failed` is written |
| Engine.ADroppedCloseMayLookEarly | src/engine/mod.rs:704-717 | that last case occurs |
| Engine.CoordinatorJoin.Finish | src/engine/mod.rs:140-163 | the thread is joined once and its end remembered for every caller |
| Engine.AdmittedIsHeard | src/engine/mod.rs:777-799 | whoever finds the store open under the lock finds the coordinator listening |
| Engine.TicketStaysGood | src/engine/mod.rs:651-733 | what `close` left its caller with stays true whatever the threads do before the wait, also if the coordinator panics |
| Locking.GuardedRunsStayReachable | src/engine/mod.rs:777-799 | with the lock held from check to send, lock, check and send are one atomic step: every state reached with them as separate steps is reached by the machine |
| Locking.HolderIsHeard | src/engine/mod.rs:777-799 | a submitter past its check finds the coordinator listening, however long it takes to send |
| Locking.WithoutTheLockRequestsAreLost | src/engine/mod.rs:653-684 | the lock is needed: if it is not held at the send, a request may be sent that waits for ever, in every later run |
| Config.NewFormat | src/config.rs:36-61 | accepts exactly eight domain bytes, version 1 and a suffix of 2 to 32 characters, a dot and then `a-z`, `0-9`, `_`, `-`; otherwise names the first of domain, suffix and version that is wrong |
| Crc32c.AppendIsIncremental | src/format.rs:32-42 | the checksum of a concatenation is computed by appending to the checksum of the first part |
| Crc32c.AppendIsInjective | src/format.rs:372-377 | appending the same bytes to different checksums gives different checksums |
| Crc32c.ChangingOneByteChangesTheChecksum | src/format.rs:372-377 | one changed byte always changes the checksum |
| Crc32c.KnownCheckValue | FORMAT.md:11-13 | the checksum of the nine digits is the known check value of CRC32C |
| Envelope.DecodesExactlyTheEncoding | FORMAT.md:3-20 | a file decodes to a payload exactly when it is that payload's encoding and the payload is within the bound |
| Envelope.CorruptionIsDetected | src/format.rs:322-380 | changing any one byte of an envelope makes decoding fail |
| Envelope.HeaderCorruptionIsReported | src/format.rs:322-349 | a changed header byte is reported as domain, version, or length error |
| Envelope.BodyCorruptionIsReported | src/format.rs:355-379 | a changed payload or checksum byte is reported as a checksum mismatch |
| Envelope.NoEnvelopeExtendsAnother | FORMAT.md:15-17 | no accepted file is a proper prefix of another |
| Envelope.LimitsNeverBiteOn64Bits | src/engine/mod.rs:753-760 | with a maximum that `validate_maximum` accepts, `InvalidPayloadLength` is unreachable on 64-bit sizes |
| Envelope.LimitsBiteExactlyWhen | src/format.rs:347-353 | on any machine, the whole-payload decoder differs from the validator exactly on acceptable headers whose length cannot be addressed |
| Envelope.ChecksumBytesAreInjective | src/format.rs:40-42 | the four checksum bytes determine the checksum |
| Bytes.BigEndianDigit | src/format.rs:56-57 | byte `i` of `width` bytes is the number divided by 256 to the power `width - 1 - i`, modulo 256 |
| ByteBits.NumberCounts | src/format.rs:40-42 | eight bits spell the number in which each counts as its place says |
| Envelope.ChecksumByteByByte | src/format.rs:40-42 | the four checksum bytes are the word's bits in groups of eight, the highest first |
| Envelope.HeaderByteByByte | src/format.rs:45-59 | the header's 18 bytes: the domain, 0 and 1, and the size's eight bytes with the most significant first |
| Envelope.EncodingByteByByte | FORMAT.md:7-13 | every byte of an envelope at its offset, as the table of the format has it |
| Envelope.DecodingCaseByCase | FORMAT.md:15-17 | what decoding answers to each file: the first of domain, version, length, truncation, trailing bytes and checksum that is wrong, with the values found and expected, or else bytes 18 to 18+N |
| EnvelopeIo.EnvelopeHeader | src/format.rs:45-59 | the header of the layout, or `BlobTooLarge` |
| EnvelopeIo.EnvelopeParts | src/format.rs:32-42 | header, payload and checksum joined are the encoding |
| EnvelopeIo.EncodeEnvelope | src/format.rs:18-29 | the encoding, or `BlobTooLarge` |
| EnvelopeIo.WriteStreamEnvelope | src/format.rs:62-138 | with a writer that does not fail: succeeds exactly if the chunks before completion total the declared length, and then the bytes written are the encoding of the joined chunks, however they were cut; each error case is determined |
| EnvelopeIo.ValidateEnvelopeReader | src/format.rs:220-304 | the chunked validator answers, for every source and maximum, with the length or the error of decoding |
| EnvelopeIo.DecodeReaderWithUsizeLimit | src/format.rs:316-381 | the whole-payload decoder answers what the layout demands within the machine's sizes, for every source |
| EnvelopeIo.ReadHeader | src/format.rs:225-269 | the header checks in their order, with the error of the first that fails |
| EnvelopeIo.Reader.ReadSection | src/format.rs:384-399 | exactly the bytes asked for, or the error that names the section |
| EnvelopeIo.SendPayload | src/format.rs:182-211 | what was sent is always a prefix of the payload in chunks of 1 to 65536 bytes |
| EnvelopeIo.JoinedKeepsOrder | src/format.rs:182-211 | chunks are joined in the order in which they were sent |
| EnvelopeIo.LoadBlobIntoSender | src/format.rs:162-217 | nothing is sent unless the envelope validates; with the same file in both passes it succeeds exactly if the receiver stays and confirms, and then the chunks are exactly the payload |
| Operations.LegalIsOldOrNew | src/engine/operation.rs:51-125 | every outcome that an execution may have leaves the old file or the complete new one, and a result of the operation's kind |
| Operations.SaveOutcomes | README.md:85-93 | success means its own payload is in place; a failed commit means old or new; a failed sync after it means new; every other error means old; too large a payload is refused with both sizes |
| Operations.SaveStreamOutcomes | src/format.rs:76-138 | too many bytes, too few, or no completion marker leave the old file with the error that says so; the declared number of bytes is a save of them |
| Operations.LoadOutcomes | FORMAT.md:40-43 | only an absent file is answered by nothing; a payload is answered only for its own envelope within the bound; otherwise the decoding error of the file or a failed call |
| Operations.LoadStreamOutcomes | README.md:36-39 | nothing of an absent or invalid file is delivered, and a length is answered only with the whole payload delivered |
| Operations.ClearOutcomes | README.md:85-87 | success means no file; old or absent in any case; which errors come after the file has gone |
| Operations.QuarantineOutcomes | README.md:95-98 | success, or a failed sync after the rename, means a file was there and is gone from its name |
| Operations.InspectOutcomes | src/filesystem/mod.rs:311-335 | presence and size of the file, whatever is in it |
| Operations.InterruptionOutcomes | README.md:85-87 | an operation stopped anywhere leaves the old file or what its success would leave |
| Operations.LoadReturnsWhatWasSaved | README.md:33-44 | a load, whole or streamed, that finds what a successful save, whole or streamed, left returns the payload, however its chunks were cut |
| FileNames.HexIsInjective | src/path.rs:8-14 | two keys' hashes never share a file name |
| FileNames.RandomIdentifier | src/filesystem/mod.rs:338-350 | 64 characters, for each of the 32 random bytes the digit of its high half and then that of its low half out of `0123456789abcdef` |
| FileNames.HexSpells | src/path.rs:8-14 | a hash is spelled with the same digits in the same order |
| FileNames.NamesAreSpelled | FORMAT.md:22-36 | the canonical, staging and quarantine names, spelled out |
| FileNames.RecogniserIsExact | src/filesystem/mod.rs:1126-1146 | a name is accepted exactly if it is a staging name of the suffix |
| FileNames.CanonicalNamesAreNotOwned | src/filesystem/mod.rs:1126-1146 | no canonical name of any valid suffix is accepted |
| FileNames.QuarantineNamesAreNotOwned | src/filesystem/mod.rs:1126-1146 | no quarantine name of any valid suffix is accepted |
| FileNames.OwnedByOneSuffix | src/filesystem/mod.rs:1126-1146 | no name is accepted under two different valid suffixes |
| FileNames.StemOfCanonicalName | src/filesystem/mod.rs:782-785 | the file stem of a canonical path is the key's hash |
| FileNames.NamesAreExact | src/filesystem/mod.rs:782-791 | the names of a key are its canonical name and its staging and quarantine names with any identifier, and no others |
| FileNames.NamesBelongToOneKey | src/filesystem/mod.rs:782-791 | a name belongs to one key and one suffix only |
| FileNames.NamesAreApart | src/filesystem/mod.rs:786-791 | canonical, staging and quarantine names never coincide, whatever keys, suffixes and identifiers they are made of |
| FileNames.NamesAreInjective | src/filesystem/mod.rs:786-791 | staging names coincide only if key, suffix, kind and identifier do; so do quarantine names |
| Filesystem.CreateStaging | src/filesystem/mod.rs:572-638 | whatever others do to other names: the canonical file is untouched; complete means header, payload and checksum are in the staging file and it is flushed |
| Filesystem.CreateStreamingStaging | src/filesystem/mod.rs:641-689 | complete means the encoding of the streamed payload, flushed; an occupied name consumes no message |
| Filesystem.Commit | src/filesystem/mod.rs:815-839 | only a flushed file is renamed; success means the replacement is canonical and the directory synced since; an atomic-commit error means old or new |
| Filesystem.SaveBlob | src/filesystem/mod.rs:759-841 | whatever others do to other names: in every state on the way the canonical file is the complete old or the complete new one, never one that was not flushed, and the operation's own steps touch only names of its key; the result says which; success means the rename was synced; it fails only if a call failed, random bytes ran out, or the payload is too large; if no call failed it leaves no staging file |
| Filesystem.SaveBlobFromReceiver | src/filesystem/mod.rs:844-930 | the same for a stream; without a complete stream of the declared length the canonical file never changes, the stream's own error is returned unless a call failed, and the staging file is gone again |
| Filesystem.ClearBlob | src/filesystem/mod.rs:933-986 | in every state on the way the canonical file is the old one or absent, and the result says which; success means the rename was synced and no staging file is left, or that the directory was looked at and is there; the file is renamed only with a fresh time stamp; it fails only if a call failed or random bytes ran out |
| Filesystem.QuarantineBlob | src/filesystem/mod.rs:989-1041 | in every state on the way nothing has changed or the file stands under a fresh quarantine name; success, or a failed sync after the rename, names it, and with success the rename was synced; a missing file is reported only after the directory was found to be there |
| Filesystem.BytesAreAtOneName | src/filesystem/mod.rs:1010-1041 | the quarantined bytes are at exactly one of the two names |
| Filesystem.LoadBlob | src/format.rs:141-159 | the decoded file; absence, only after the directory was found to be there; its decoding error; or, only if a call failed, an I/O error; nothing is changed |
| Filesystem.LoadBlobStream | src/format.rs:162-217 | on success all chunks together are the decoded payload of the file; it is cancelled only if the receiver left or did not confirm, and I/O errors come only from failed calls |
| Filesystem.InspectBlob | src/filesystem/mod.rs:311-335 | presence and size of a regular file and its modification time if known; a file that is not regular is never reported as found, and only such a file is answered `UnexpectedFileType`; an I/O error only if a call failed |
| Cleanup.CleanupStaleFiles | src/filesystem/mod.rs:1044-1123 | the report accounts for each listed staging file exactly once: young ones are skipped, old regular ones removed unless deleting failed, others failed; and for each entry that cannot be read; whatever others do to other names |
| Cleanup.CleanupKeepsData | src/filesystem/mod.rs:1072-1075 | no step of the clean-up touches a canonical or quarantined file of any store in the directory |
| Cleanup.CleanupKeepsOtherStaging | src/filesystem/mod.rs:1072-1075 | no step of the clean-up touches a staging file of a store with another suffix |
| Execution.RunOwnedOperation | src/engine/operation.rs:51-125 | whatever others do to other names: result, delivered chunks and final file are legal for the operation, every state on the way is one it may be stopped in, none of its own steps touches a name that is not its key's, errors of failing calls are answered only if a call failed or random bytes ran out, success leaves no rename unsynced, and without a failing call no staging file is left |
| Blocking.SaveFrom | src/blocking.rs:52-109 | for every pattern of short reads the completion marker is sent exactly if the reader yields the declared bytes and then its end and no send fails; a reader that ends early is reported with both sizes, one that goes on with the declared size, one that fails as `InputIo`, and otherwise the worker's result is passed on |
| Blocking.StreamingSaveEndToEnd | src/blocking.rs:52-109 | unless the whole input was sent the file is unchanged, and the worker's length errors never occur |
| Blocking.LoadInto | src/blocking.rs:111-131 | chunks are written in order; the load is acknowledged exactly if all were |
| Blocking.StreamingLoadEndToEnd | README.md:36-39 | a success means that the writer holds exactly the decoded payload, an absent or invalid file produces no output, and whatever was written is a beginning of the payload; errors of the file reach the caller unless its writer or a call failed |

## Left out

- Coordination.Coordinator.RunScheduler: what the other threads try is a finite script, of any length and content, since the event loop need not end while callers keep sending; attempts that are not possible when their turn comes are passed over.
- Coordination.Coordinator.Others: threads step in between machine steps, not between two field updates of the coordinator, which no other thread can see.
- Engine.EngineHandle.Submit: the clean-up's check of its minimum age and the early look at a stream's declared length, which the worker repeats, are not modelled.
- Filesystem.LoadBlobStream: a failing seek is not told apart from a failing read.
- Filesystem.SaveBlob: random identifiers come from a finite supply, after which `random_identifier` fails, so that the retry loops end.
- Cleanup.CleanupStaleFiles: which entries can be read, are regular files, and are old enough is an input; how age is computed is not modelled.
- Panic.ComeDown: the panic is not a step of the machine; it may come in any reachable state, between two steps of the coordinator. A panic that poisons the lifecycle lock is not modelled.
- The Unix backend: its staging files belong to the atomic-write dependency, which is not part of this model; its clear and quarantine are the Windows sequences without the detour over a staging name.
- Sharing.JobsActAsOne: jobs are not run as methods there; each step of a job obeys the rule that Sharing.ExecutionKeepsPromise, Sharing.ExecutionEndsAsPromised and Sharing.CleanupKeepsPromise derive from the contracts of Execution.RunOwnedOperation and Cleanup.CleanupStaleFiles. A second store of the same suffix in one directory, which the repository excludes (README.md:132-135), is not allowed as a neighbour.
- Progress.EveryRequestIsAnswered: when the caller of a stream sends its next chunk, takes one, or acknowledges is not part of the state; instead any set of requests may be stalled for good. That a worker whose caller moves comes to its result is taken from the termination of Execution.RunOwnedOperation, as a step that is possible.
- Causes.MaintenanceIsAnswered: that a report is delivered, not what is in it; the report is that of Cleanup.CleanupStaleFiles.
- BLAKE3: a key is its 32-byte hash.
- Real system calls, permissions, directory handles, paths wider than one name, and how time stamps are kept.
- The asynchronous facade, which drives the same two streaming protocols.
- Fairness between keys: a completed key is retried first, and the next key follows the map's order, modelled as any order.
- Opening a store and creating its directory, test hooks, benchmark events, error texts, and unsupported platforms.
