# Verified core of the UB/Linqu simulator

A Dafny model of the parts of the simulator that keep state over whole runs, with proofs
about every run. `dafny verify dfyconfig.toml` checks everything.

| component | files |
|---|---|
| Guest command path: four bounded services, a shared runtime queue with a retry budget, command and completion queues | `SimCore`, `RuntimeQueue`, `Services`, `SurfaceSpec`, `SurfaceInvariant`, `SurfaceConservation`, `FlushReports`, `QueueStream`, `BackPressure`, `BackPressureRuns`, `EventLaws`, `ServiceLaws`, `ServiceHistories`, `FlushOrder`, `CommandLaws`, `Surface` |
| MMIO device in front of it: slot codec, ring memory, doorbell, completion ring | `Utf8`, `Codec`, `CodecLayout`, `CodecCanonical`, `RingMemory`, `Device`, `SlotFit`, `TaskLedger`, `RingLoss` |
| Local runtime engine and block store | `EngineSpec`, `EngineProofs`, `EngineAnswers`, `Engine`, `BlockStore` |
| N-node OBMM pool protocol and its import allocator | `PoolProtocol`, `PoolProofs`, `PoolHistory`, `PoolLiveness`, `ImportAllocator`, `ImportExact` |
| RPC demo: framing, duplicate suppression, CRC-32 | `RpcFraming`, `RpcLayout`, `RpcServer`, `RpcExchange`, `ShiftRegister`, `Crc32` |

Objects whose methods update fields are classes (`GuestSurface`, `ServiceStub`, `RuntimeQueue`,
`Endpoint`, `GuestRingMemory`, `RuntimeEngine`, `InMemoryBlockStore`, `Server`). Each method is
proved equal to a function on the object's state; what holds over all runs is proved about those
functions. The pool protocol is a transition system: the network is the set of all datagrams ever
sent, so loss, duplication and reordering are free, and a node may give up at any point.

Three promises fail on some inputs; each has its exact condition and a concrete failing input:

- The import allocator computes addresses modulo 2^64, for the demo's 2 MiB regions. Over any list of windows
  that end below 2^64, it is correct for every count if and only if each window has a base of at most
  2^64 - 4 MiB and an end below 2^64 - 2 MiB (`ImportExact.ExactlyBelowTop`). Over disjoint windows whose ends may
  wrap, it is correct and returns disjoint ranges for every count if and only if each window is such a one or has
  a base above 2^64 - 4 MiB and an exact end from 2^64 to below 2^64 + 2 MiB (`ImportExact.ExactlyBenign`).
  `ImportExact.TopWindowOverruns` is a window it runs past, `ImportExact.WrappedWindowStarves` one it wrongly
  finds full.
- The RPC server never evicts from its 256-entry table. It executes no request twice if and only if no key past
  the first 256 distinct ones arrives again (`RpcServer.AtMostOnceExactly`); `RpcServer.ExecutedTwice` is a trace
  in which one is.
- A completion that carries a task key needs at least 67 bytes and never fits the default 64-byte slot, and a
  refill of the completion ring takes it off the completion queue before it notices. A run whose descriptors
  carry no task key loses nothing (`SlotFit.NoTaskNoLoss`). A refill that exhausts no entry and has room for
  everything loses a completion if and only if something waiting for the queue carries a task key
  (`RingLoss.LosesExactlyTasks`); `RingLoss.TaskIsLost` is a guest's run that loses one.

## Model

| member | source | states |
|---|---|---|
| `PoolHistory.Agreement` | simulator/guest-linux/aarch64/ub_obmm_pool_demo.c:1000-1148 | In every reachable state, a finished round r was preceded, for each node j, by a verification of slot r by j whose record is the very record the owner wrote earlier and carries the owner's cookie |
| `PoolHistory.Serialisation` | simulator/guest-linux/aarch64/ub_obmm_pool_demo.c:1078-1148 | The rounds of any two nodes differ by at most one; all writes and verifications of the whole run are in slot order; no node writes, verifies or finishes a round twice |
| `PoolHistory.WriteAfterAllVerified` | simulator/guest-linux/aarch64/ub_obmm_pool_demo.c:1083-1112 | When an owner may write slot r > 0, every node has verified slot r - 1 |
| `PoolHistory.BarrierHolds` | simulator/guest-linux/aarch64/ub_obmm_pool_demo.c:818-958 | Once one node is past the READY wait, every node has imported every slot, each with the metadata its owner exported |
| `PoolHistory.DoneMeansAll` | simulator/guest-linux/aarch64/ub_obmm_pool_demo.c:1078-1148 | If one node completes do_rounds, all nodes have verified all slots |
| `PoolLiveness.SomeRunCompletes` | simulator/guest-linux/aarch64/ub_obmm_pool_demo.c:818-1148 | For every number of nodes and every initial memory there is a run in which all nodes complete, so every datagram a later step waits for is sent and addressed to the right node |
| `PoolLiveness.DoneStaysReachable` | simulator/guest-linux/aarch64/ub_obmm_pool_demo.c:818-1148 | From every reachable state in which no node has failed, a state in which all nodes are done can be reached |
| `PoolLiveness.UsefulStep` | simulator/guest-linux/aarch64/ub_obmm_pool_demo.c:818-1148 | In every such state some enabled action brings its node forward |
| `PoolLiveness.StepSent` | simulator/guest-linux/aarch64/ub_obmm_pool_demo.c:828-1138 | Every HELLO, READY, TURN, ACK and COMMIT that a program point implies has been sent, and every action keeps this |
| `PoolHistory.LookupsNeverMiss` | simulator/guest-linux/aarch64/ub_obmm_pool_demo.c:872-911 | Unguarded table lookups always find an entry, and an owner's check of its own slot always matches |
| `PoolHistory.CookieInjective` | simulator/guest-linux/aarch64/ub_obmm_pool_demo.c:768-771 | Two cookies are equal if and only if owner and slot are |
| `PoolHistory.RunHistory` | simulator/guest-linux/aarch64/ub_obmm_pool_demo.c:818-1148 | Every state of every run satisfies the invariant and has a history that mirrors all program points |
| `PoolHistory.StepHistory` | simulator/guest-linux/aarch64/ub_obmm_pool_demo.c:960-1148 | Every enabled action keeps that |
| `PoolProofs.StepInv` | simulator/guest-linux/aarch64/ub_obmm_pool_demo.c:818-1148 | Every enabled action keeps the protocol invariant, including what each datagram on the network testifies about its sender |
| `PoolProofs.PendingZero` | simulator/guest-linux/aarch64/ub_obmm_pool_demo.c:1026-1076 | When the ACK wait's pending counter reaches zero, every node has verified the slot |
| `PoolHistory.VerifyReadsOwner` | simulator/guest-linux/aarch64/ub_obmm_pool_demo.c:773-816 | A matching read returns exactly the record the owner wrote in this run, never stale memory |
| `ImportAllocator.AllocateImportPas` | simulator/guest-linux/aarch64/ub_obmm_pool_demo.c:564-590 | The loop returns what the specification places, and reports success exactly when that is as many as asked for |
| `ImportAllocator.PlaceSound` | simulator/guest-linux/aarch64/ub_obmm_pool_demo.c:559-590 | Whenever each window is filled as greedy would in exact arithmetic, every returned range is 2 MiB aligned and inside a window, and the ranges are pairwise disjoint when the windows are |
| `ImportAllocator.NoChoiceBeatsGreedy` | simulator/guest-linux/aarch64/ub_obmm_pool_demo.c:564-590 | No set of aligned, disjoint, in-window ranges is larger than the greedy capacity |
| `ImportAllocator.AllocatorCorrect` | simulator/guest-linux/aarch64/ub_obmm_pool_demo.c:564-590 | Then success gives correctly placed ranges, and failure means no choice of that many ranges exists, for every region size |
| `ImportAllocator.NoWrapIsGreedy` | simulator/guest-linux/aarch64/ub_obmm_pool_demo.c:559-590 | A window none of whose address computations reaches 2^64 is filled greedily, for every region size |
| `ImportExact.ExactlyBelowTop` | simulator/guest-linux/aarch64/ub_obmm_pool_demo.c:559-590 | For 2 MiB regions and any windows ending below 2^64, overlapping or not: correct for every count if and only if every window stays below the top |
| `ImportExact.ExactlyBenign` | simulator/guest-linux/aarch64/ub_obmm_pool_demo.c:559-590 | For 2 MiB regions and disjoint windows, wherever their sums wrap: correct with disjoint ranges for every count if and only if every window stays below the top or is a wrapping tip with at most one region |
| `ImportExact.TopWindowOverruns` | simulator/guest-linux/aarch64/ub_obmm_pool_demo.c:559-590 | A concrete window for which the second returned region lies outside it |
| `ImportExact.WrappedWindowStarves` | simulator/guest-linux/aarch64/ub_obmm_pool_demo.c:580-582 | A concrete window whose end wraps to zero: no region is placed although one fits |
| `SurfaceConservation.Conservation` | simulator/crates/sim-uapi/src/lib.rs:430-556 | Over every command sequence and for every completion queue: accepted = waiting anywhere + polled + dropped by refused doorbells |
| `SurfaceConservation.StepConserves` | simulator/crates/sim-uapi/src/lib.rs:558-633 | The same balance for one command; a doorbell refused for a full runtime queue drops exactly its batch minus the free slots |
| `SurfaceConservation.PollSettles` | simulator/crates/sim-uapi/src/lib.rs:481-504 | Right after a poll, everything accepted is in a command queue, in its completion queue, polled or dropped |
| `SurfaceInvariant.Routing` | simulator/crates/sim-uapi/src/lib.rs:387-398 | After every command sequence the tracker's keys are exactly the (source, handle) pairs queued in services, each bound to its command's queue; delivered handles are 1, 2, 3, ... per service, each in the right queue |
| `QueueStream.FirstInFirstOut` | simulator/crates/sim-uapi/src/lib.rs:261-268 | Over every command sequence and for every completion queue: the events polled so far, in order, followed by those waiting are exactly the events delivered to the queue, in order |
| `QueueStream.PolledRises` | simulator/crates/sim-uapi/src/lib.rs:481-504 | What is polled of one service from one queue has strictly rising handles |
| `QueueStream.PolledIsOwn` | simulator/crates/sim-uapi/src/lib.rs:481-504 | Whatever is polled of a service from a queue was bound to that queue when its command was accepted |
| `SurfaceInvariant.AlwaysIdle` | simulator/crates/sim-uapi/src/lib.rs:558-633 | Every command sequence keeps the surface invariant |
| `SurfaceInvariant.PollIdle` | simulator/crates/sim-uapi/src/lib.rs:481-504 | After a poll the runtime queue, all four service queues and the tracker are empty |
| `SurfaceSpec.PassShrinks` | simulator/crates/sim-uapi/src/lib.rs:318-385 | Each pass of the recursive flush strictly lowers the largest remaining retry budget, so it ends for every queue |
| `SurfaceInvariant.FlushInv` | simulator/crates/sim-uapi/src/lib.rs:318-385 | A whole flush keeps the invariant, the command queues and the set of completion queues |
| `FlushReports.FlushNeverErrors` | simulator/crates/sim-uapi/src/lib.rs:365-379 | Every failure of every pass of a flush names an existing completion queue, so no report is refused |
| `FlushReports.FlushReportsFailures` | simulator/crates/sim-uapi/src/lib.rs:365-379 | The "runtime_exhausted" completions a flush delivers are exactly its failures, in order, each to its own queue |
| `FlushReports.ReportText` | simulator/crates/sim-uapi/src/lib.rs:365-379 | Queue, source, task, code and time of each failure report, spelled out |
| `BackPressure.Bound` | simulator/crates/sim-uapi/src/lib.rs:318-385 | With at least one retry and at most twice its depth queued plus staged per service, a flush gets every entry accepted and emits no queue-full failure |
| `BackPressure.ExactBound` | simulator/crates/sim-runtime/src/lib.rs:150-179 | For work of one service and any retry budget: nothing fails if and only if folding the total into quotient plus remainder by depth + 1, once per retry, gives at most the depth |
| `BackPressure.ExactlyQuiet` | simulator/crates/sim-uapi/src/lib.rs:318-385 | The same of what is delivered: the flush adds no failure report if and only if that number is at most the depth |
| `BackPressureRuns.NeverQueueFull` | simulator/crates/sim-uapi/src/lib.rs:318-385 | In any run that submits through command queues only, with at least one retry and a runtime queue of at most twice each service's depth (as the defaults 32 and 16), no queue-full failure is ever delivered |
| `BackPressure.TwiceDepthIsTight` | simulator/crates/sim-services/src/lib.rs:89-94 | With one retry and work of one service, twice the depth never delivers a failure report; one entry more always does |
| `BackPressure.QuotientAndRemainder` | simulator/crates/sim-uapi/src/lib.rs:318-385 | The two functions of the exact bound are quotient and remainder |
| `FlushOrder.StagedInOrder` | simulator/crates/sim-uapi/src/lib.rs:276-300 | A staged batch is appended to the runtime queue in order, untried, each entry with its queue and its saturating ready time |
| `FlushOrder.RingAll` | simulator/crates/sim-uapi/src/lib.rs:450-479 | A doorbell without a batch size empties the command queue and stages all of it, if it fits |
| `FlushOrder.PollAll` | simulator/crates/sim-uapi/src/lib.rs:481-504 | A poll without a limit returns everything that waits once all is settled, and leaves the queue empty |
| `FlushOrder.UnservicedAnswers` | simulator/crates/sim-uapi/src/lib.rs:506-556 | A dispatch completes at once with success, remote access with a retryable failure, and block access without a block is refused |
| `FlushOrder.FlushInOrder` | simulator/crates/sim-uapi/src/lib.rs:318-385 | A flush with room for everything asks each service exactly its own entries, in the order of the queue, at rising times |
| `FlushOrder.StagedReadHits` | simulator/crates/sim-uapi/src/lib.rs:318-385 | A read staged anywhere behind a write of the same block is a hit |
| `Surface.GuestSurface.Run` | simulator/crates/sim-uapi/src/lib.rs:558-633 | execute: state and response equal the specification's, and the invariant is kept |
| `Surface.GuestSurface.ReportFailures` | simulator/crates/sim-uapi/src/lib.rs:365-379 | Returns the error of the first failure whose queue is missing, and none exactly when all exist |
| `Surface.GuestSurface.FlushRuntime` | simulator/crates/sim-uapi/src/lib.rs:318-385 | The recursive flush equals the specified one, terminates, and never returns the error it could |
| `Surface.GuestSurface.FlushServices` | simulator/crates/sim-uapi/src/lib.rs:302-316 | All four services are drained, every completion reaches its queue, and no error is returned |
| `Surface.GuestSurface.RouteCompletion` | simulator/crates/sim-uapi/src/lib.rs:387-394 | A tracked completion goes to its bound queue; an untracked one to some queue, or nowhere if there is none |
| `Surface.GuestSurface.RouteEvents` | simulator/crates/sim-uapi/src/lib.rs:302-316 | For a service's next completions the fallback queue is never used |
| `Surface.GuestSurface.RingDoorbell` | simulator/crates/sim-uapi/src/lib.rs:450-479 | The batch leaves the command queue; it is staged in order, or only its fitting prefix is and the rest is lost |
| `Surface.GuestSurface.PollCq` | simulator/crates/sim-uapi/src/lib.rs:481-504 | Flushes, then pops up to the limit off the front |
| `Surface.GuestSurface.SubmitDescriptor` | simulator/crates/sim-uapi/src/lib.rs:506-556 | One descriptor goes to its service, completes at once, or is refused |
| `Surface.GuestSurface.CreateCmdQueue` | simulator/crates/sim-uapi/src/lib.rs:400-428 | Depth, existence and ownership checks in the code's order; a new handle otherwise |
| `Surface.GuestSurface.EnqueueCmd` | simulator/crates/sim-uapi/src/lib.rs:430-448 | Existence, ownership and depth checks; appended otherwise |
| `CommandLaws.RunSane` | simulator/crates/sim-uapi/src/lib.rs:400-448 | Over every command sequence: queues are numbered from one without gaps, every command queue has a positive depth it keeps to and the owner of its completion queue, segments are within the size and table limits |
| `CommandLaws.StagesForItself` | simulator/crates/sim-uapi/src/lib.rs:450-504 | After every run, what an owner's doorbell stages is bound for completion queues of that owner, and nobody else can poll those |
| `CommandLaws.SegmentCreatedIff` | simulator/crates/sim-services/src/lib.rs:281-304 | After every run a segment is created, under a new handle, if and only if its size is positive and within the limit and the table has room |
| `RuntimeQueue.RuntimeQueue.Enqueue` | simulator/crates/sim-runtime/src/lib.rs:138-148 | Refused exactly when full; else appended with its ready time |
| `RuntimeQueue.RuntimeQueue.DrainReady` | simulator/crates/sim-runtime/src/lib.rs:150-165 | Splits the queue into ready and deferred entries in order; at u64::MAX everything is ready |
| `RuntimeQueue.RuntimeQueue.Retry` | simulator/crates/sim-runtime/src/lib.rs:167-179 | Requeued exactly while the retry budget lasts |
| `RuntimeQueue.DrainPartitions` | simulator/crates/sim-runtime/src/lib.rs:150-165 | Draining loses and invents no entry |
| `Services.ServiceStub.Submit` | simulator/crates/sim-services/src/lib.rs:84-183 | Refused exactly when the completion queue is full; otherwise the next handle, the table update and the completion of the specification, whose answers the ServiceLaws rows state |
| `Services.ServiceStub.PollReady` | simulator/crates/sim-services/src/lib.rs:17-30 | Delivers the longest ready prefix in order |
| `ServiceLaws.BlockAnswers` | simulator/crates/sim-services/src/lib.rs:96-183 | After any history of accepted requests and polls: writes succeed; a read hits, and a writeback finds its block, if and only if an earlier request wrote the block; handle, status and finishing time of each case |
| `ServiceLaws.AccessRegistered` | simulator/crates/sim-services/src/lib.rs:306-373 | An access succeeds if and only if the latest registration of its segment has at least that many bytes and the requester is its owner or one of the peers; the failures otherwise |
| `ServiceLaws.AccessMissing` | simulator/crates/sim-services/src/lib.rs:306-373 | An access to a segment never registered fails as missing |
| `ServiceLaws.FileAnswers` | simulator/crates/sim-services/src/lib.rs:454-521 | A read succeeds if and only if the path was written before, and pays the cold penalty exactly on the first read after the latest write |
| `ServiceLaws.PutAnswers` | simulator/crates/sim-services/src/lib.rs:596-636 | A put is refused if and only if it exceeds the batch limit; its latency follows its size |
| `ServiceLaws.GetStored` | simulator/crates/sim-services/src/lib.rs:638-677 | A get of a key that an accepted put stored succeeds, with the latency of the size stored last |
| `ServiceLaws.GetMissing` | simulator/crates/sim-services/src/lib.rs:638-677 | A get of any other key fails |
| `ServiceHistories.RunHistoric` | simulator/crates/sim-uapi/src/lib.rs:558-633 | After every command sequence each of the four services is in the state some history of accepted requests, polls and registrations leaves |
| `ServiceHistories.ReadsOwnWrites` | simulator/crates/sim-uapi/src/lib.rs:506-556 | In every run: once a write of a block is accepted, a read of it is a hit, whatever other commands come in between |
| `Services.AcceptConsecutive` | simulator/crates/sim-services/src/lib.rs:84-94 | Accepting keeps the queued handles consecutive up to the last one given out |
| `EngineProofs.ExactlyOnce` | simulator/crates/sim-runtime/src/lib.rs:603-830 | After any run an operation has reported exactly one completion if it left the in-flight list and none before; at most max_retries retries; the queue holds exactly the queued operations, once each, with equal attempts; polled plus waiting completions are the reported ones in order |
| `EngineProofs.QueueNeverFuller` | simulator/crates/sim-runtime/src/lib.rs:825-830 | The submission queue never holds more than the in-flight list, so the enqueue after ensure_capacity cannot fail |
| `EngineProofs.SubmittedLeaves` | simulator/crates/sim-runtime/src/lib.rs:675-805 | A submitted operation has left within max_retries + 1 advances spaced by min(latency, timeout), whatever else is submitted in between |
| `EngineProofs.Liveness` | simulator/crates/sim-runtime/src/lib.rs:675-805 | The same from any state, counting the attempts used |
| `EngineProofs.StepInv` | simulator/crates/sim-runtime/src/lib.rs:603-814 | Submitting, advancing and polling keep the engine invariant |
| `EngineAnswers.RunRefines` | simulator/crates/sim-runtime/src/lib.rs:603-830 | Over every run, in-flight attempts, completions waiting and handed out, and the whole event sink are those of a description that compares the time with submission plus latency and submission plus timeout |
| `EngineAnswers.DueReports` | simulator/crates/sim-runtime/src/lib.rs:703-746 | The first advance at or after submission plus latency reports success at exactly that time, even if the timeout has passed too, unless the external process fails the dispatch |
| `EngineAnswers.TimeoutReported` | simulator/crates/sim-runtime/src/lib.rs:748-801 | An operation is reported as timed out if and only if its attempt is late, not yet due, and has no retry left |
| `EngineAnswers.OtherwiseStays` | simulator/crates/sim-runtime/src/lib.rs:748-775 | Late with a retry left, it starts over at that time with one more attempt; neither late nor due, it stays as it is |
| `EngineAnswers.SubmittedSucceeds` | simulator/crates/sim-runtime/src/lib.rs:603-805 | From any reachable engine: an accepted operation, any commands whose advances all come before it is due or late, then an advance at or past its due time: it is reported exactly once, as a success at submission plus latency |
| `Engine.RuntimeEngine.SubmitOp` | simulator/crates/sim-runtime/src/lib.rs:603-673 | Refused exactly at capacity; else one queued operation and one queue record |
| `Engine.RuntimeEngine.AdvanceTo` | simulator/crates/sim-runtime/src/lib.rs:675-805 | Issue, complete, retry, fail and retain as specified; the EngineAnswers rows state what that reports |
| `Engine.RuntimeEngine.SweepAt` | simulator/crates/sim-runtime/src/lib.rs:703-801 | One operation completes, is retried, fails or waits |
| `Engine.RuntimeEngine.IssueDrained` | simulator/crates/sim-runtime/src/lib.rs:682-701 | Every drained record issues exactly its operation |
| `Engine.RuntimeEngine.PollCompletions` | simulator/crates/sim-runtime/src/lib.rs:807-814 | Advances, then hands out and clears the completions |
| `BlockStore.InMemoryBlockStore.StageInsert` | simulator/crates/sim-runtime/src/lib.rs:962-976 | FIFO insertion keeping the last capacity blocks; nothing for a resident block; set and deque stay in agreement |
| `BlockStore.InMemoryBlockStore.Evict` | simulator/crates/sim-runtime/src/lib.rs:978-999 | Removes and returns the oldest prefix |
| `BlockStore.InMemoryBlockStore.Trim` | simulator/crates/sim-runtime/src/lib.rs:962-976 | The while loop ends, with exactly the last capacity blocks |
| `BlockStore.InMemoryBlockStore.Lookup` | simulator/crates/sim-runtime/src/lib.rs:949-960 | Hits exactly for the blocks of the FIFO |
| `BlockStore.HistoryBounded` | simulator/crates/sim-runtime/src/lib.rs:962-976 | Over any insertion history the cache is within capacity, free of repeats, and holds the last block inserted |
| `BlockStore.InsertCases` | simulator/crates/sim-runtime/src/lib.rs:962-976 | A resident block changes nothing; a new one goes last and pushes out the oldest exactly when the store is full |
| `BlockStore.HoldsLastAdmitted` | simulator/crates/sim-runtime/src/lib.rs:962-999 | Over any history the store holds exactly the last capacity admissions, oldest first, so blocks leave in the order of their admission |
| `Utf8.RoundTrip` | simulator/crates/sim-qemu/src/types.rs:484-499 | Every string survives its bytes |
| `Codec.DescriptorRoundTrip` | simulator/crates/sim-qemu/src/types.rs:101-242 | Decoding undoes encoding for every descriptor that encodes, whatever the padding |
| `CodecLayout.DescriptorLayout` | simulator/crates/sim-qemu/src/types.rs:101-168 | The bytes of every encoded descriptor: kind, fields in order, opcode and flag values, zeros up to the slot size; refused exactly when longer |
| `CodecLayout.CompletionLayout` | simulator/crates/sim-qemu/src/types.rs:369-398 | The same for completions, with the source and status bytes |
| `CodecLayout.LeDigit` | simulator/crates/sim-qemu/src/types.rs:454-464 | Byte i of an integer field is its digit of weight 256^i |
| `CodecCanonical.DecodesExactlyEncodings` | simulator/crates/sim-qemu/src/types.rs:170-242 | A slot decodes to a descriptor if and only if it starts with that descriptor's encoding; every other slot is refused |
| `CodecCanonical.CompletionsExactly` | simulator/crates/sim-qemu/src/types.rs:400-432 | The same for completions |
| `CodecCanonical.TextBack` | simulator/crates/sim-qemu/src/types.rs:484-520 | Bytes accepted as text are the encoding of that text |
| `Codec.CompletionRoundTrip` | simulator/crates/sim-qemu/src/types.rs:369-432 | Decoding undoes encoding for every completion that encodes |
| `Codec.CompletionFits` | simulator/crates/sim-qemu/src/types.rs:369-398 | A completion encodes if and only if its code is at most 255 bytes and its size at most the slot |
| `Codec.TaskNeverFits64` | simulator/crates/sim-qemu/src/types.rs:540-583 | A completion with a task key needs at least 67 bytes and never fits 64 |
| `SlotFit.PolledFits` | simulator/crates/sim-qemu/src/types.rs:369-398 | After any command sequence, every polled completion without a task key fits 64 bytes |
| `SlotFit.RefillStopsAtFirstTask` | simulator/crates/sim-qemu/src/device.rs:338-361 | After any command sequence a refill with 64-byte slots writes exactly the polled completions before the first one with a task key |
| `SlotFit.NoTaskNoLoss` | simulator/crates/sim-qemu/src/device.rs:338-361 | If no command brings in a descriptor with a task key, every refill after the run writes everything it polls |
| `SlotFit.PolledWordSized` | simulator/crates/sim-qemu/src/device.rs:347-356 | After any run with machine-word descriptors, what a refill polls are machine words while clock and handles are below 2^64 |
| `SlotFit.DoorbellWordSized` | simulator/crates/sim-qemu/src/device.rs:250-264 | The same for what a doorbell polls after appending and ringing a batch |
| `RingLoss.RefillTakes` | simulator/crates/sim-qemu/src/device.rs:338-361 | The settled queue is what a refill polls followed by what stays queued, so what it polls and does not write is gone |
| `RingLoss.LosesExactlyTasks` | simulator/crates/sim-qemu/src/device.rs:338-361 | After any run, with room and no exhausted entry, a refill loses a completion if and only if something waiting for the queue carries a task key |
| `RingLoss.NothingExhausted` | simulator/crates/sim-uapi/src/lib.rs:318-385 | Work within twice each service's depth whose block requests name their block exhausts no entry |
| `RingLoss.TaskIsLost` | simulator/crates/sim-qemu/src/device.rs:338-361 | A concrete run: the refill polls one completion, writes none, and the queue is empty |
| `RingLoss.CulpritFits` | simulator/crates/sim-qemu/src/types.rs:101-168 | The descriptor of that run encodes into a 64-byte slot |
| `TaskLedger.SettledTasks` | simulator/crates/sim-uapi/src/lib.rs:481-489 | Without failures, settling brings every task-carrying item waiting for a queue into it, and no other |
| `EventLaws.RunRuled` | simulator/crates/sim-uapi/src/lib.rs:430-556 | Any property of completions that every way of making one from good descriptors satisfies holds of everything queued after any run of good commands |
| `SlotFit.RunModest` | simulator/crates/sim-services/src/lib.rs:96-680 | Over all runs every queued completion carries a code of at most 44 ASCII characters |
| `RingMemory.SlotIsMod` | simulator/crates/sim-qemu/src/device.rs:254-254 | The code's modulo is the ring position |
| `RingMemory.PopWindow` | simulator/crates/sim-qemu/src/device.rs:284-285 | Moving the head drops exactly the oldest slot of the window |
| `RingMemory.PushWindow` | simulator/crates/sim-qemu/src/device.rs:349-355 | Writing at the tail adds exactly one newest slot, and that slot was outside the window |
| `RingMemory.PublishWindow` | simulator/crates/sim-qemu/src/device.rs:120-146 | A tail write keeps the published slots as a prefix |
| `RingMemory.GuestRingMemory.WriteCqSlot` | simulator/crates/sim-qemu/src/memory.rs:57-68 | Range check, encoding, valid bit; nothing changes on an error |
| `RingMemory.GuestRingMemory.TakeCqSlot` | simulator/crates/sim-qemu/src/memory.rs:70-79 | Range and valid checks; the valid bit is cleared before decoding |
| `RingMemory.GuestRingMemory.WriteCmdSlot` | simulator/crates/sim-qemu/src/memory.rs:33-44 | The same for descriptors |
| `RingMemory.GuestRingMemory.TakeCmdSlot` | simulator/crates/sim-qemu/src/memory.rs:46-55 | The same for descriptors |
| `Device.Endpoint.MmioWriteCmdqTail` | simulator/crates/sim-qemu/src/device.rs:120-146 | Refused exactly when out of range or overflowing, and then nothing changes; otherwise only the window grows, at its end |
| `Device.Endpoint.MmioWriteCqHead` | simulator/crates/sim-qemu/src/device.rs:301-327 | Refused exactly when out of range or past the pending completions; otherwise the oldest ones are retired |
| `Device.Endpoint.PopCompletion` | simulator/crates/sim-qemu/src/device.rs:281-287 | The head slot is always valid and decodes to the oldest completion: "missing completion in cq ring" cannot happen |
| `Device.Endpoint.PushCompletion` | simulator/crates/sim-qemu/src/device.rs:348-356 | Appends to the FIFO exactly when the completion fits its slot |
| `Device.Endpoint.FlushCqRing` | simulator/crates/sim-qemu/src/device.rs:338-361 | The ring gains exactly the polled completions that precede the first unencodable one; a full ring does not poll |
| `Device.Endpoint.PollCq` | simulator/crates/sim-qemu/src/device.rs:268-289 | What is returned followed by what stays is the old ring followed by the polled completions |
| `Device.Endpoint.EnqueueBatch` | simulator/crates/sim-qemu/src/device.rs:246-257 | Descriptors are enqueued in publication order up to the first unreadable slot or the end of the command queue's room; after a failure the head slot is unreadable |
| `Device.Endpoint.MmioRingDoorbell` | simulator/crates/sim-qemu/src/device.rs:236-266 | A batch that stops early is enqueued but not rung; a complete one is rung and the completion ring refilled; what leaves the ring, what it gains, the counts and the interrupt |
| `Device.RingsOldest` | simulator/crates/sim-qemu/src/device.rs:263-265 | Ringing stages the oldest waiting descriptors: the published batch in order if no backlog was left |
| `Device.FullBatch` | simulator/crates/sim-qemu/src/device.rs:236-266 | A published, readable batch that fits both queues leaves the ring, is staged in publication order, and the ring gains what a poll then returns, as far as it can be written |
| `Device.Endpoint.MmioWrite` | simulator/crates/sim-qemu/src/device.rs:148-179 | What a write to each register does to ring positions, slots, completions, surface and both interrupt bits: a tail publishes, a head retires, the doorbell moves, rings and refills, an acknowledgement clears exactly the bits it names, every other register refuses; nothing else changes, except that a refusal raises the error bit |
| `RpcFraming.RoundTrip` | simulator/guest-linux/aarch64/ub_rpc_demo.c:519-726 | Parsing undoes building for every int id, op of at most 63 bytes without colon, and payload, up to the caller's buffers, also behind two stray bytes |
| `RpcFraming.RoundTripExactly` | simulator/guest-linux/aarch64/ub_rpc_demo.c:519-726 | With large buffers the round trip holds if and only if the op has no colon and at most 63 bytes |
| `RpcLayout.FrameText` | simulator/guest-linux/aarch64/ub_rpc_demo.c:519-547 | The text of a frame: literal tag, signed numeral, op or status, numeral of the payload length and payload, with colons between them |
| `RpcLayout.NumeralUnique` | simulator/guest-linux/aarch64/ub_rpc_demo.c:519-547 | A numeral without leading zeros is the one written for its value |
| `RpcLayout.RequestExample` | simulator/guest-linux/aarch64/ub_rpc_demo.c:519-532 | One whole request, literally |
| `RpcLayout.NumberFieldExactly` | simulator/guest-linux/aarch64/ub_rpc_demo.c:576-590 | A number field is white space, an optional sign and digits within a 64-bit long, then a colon; nothing else is accepted; the value is truncated to an int |
| `RpcLayout.OpFieldExactly` | simulator/guest-linux/aarch64/ub_rpc_demo.c:592-602 | An op or status field is at most 63 characters without a colon, then a colon; nothing else is accepted |
| `RpcFraming.NeverConfused` | simulator/guest-linux/aarch64/ub_rpc_demo.c:549-726 | A request never parses as a response, nor a response as a request |
| `RpcFraming.ParsePacket` | simulator/guest-linux/aarch64/ub_rpc_demo.c:549-726 | The parsers with their op scan compute the specified result for every packet and every buffer size, including zero |
| `RpcFraming.ResponseFits` | simulator/guest-linux/aarch64/ub_rpc_demo.c:974-976 | The server's responses always fit its buffer |
| `RpcServer.AtMostOnce` | simulator/guest-linux/aarch64/ub_rpc_demo.c:918-992 | With at most 256 distinct keys: each is executed once, every reply carries its first answer, rpc_count counts the keys |
| `RpcServer.AtMostOnceExactly` | simulator/guest-linux/aarch64/ub_rpc_demo.c:918-992 | No key is executed twice if and only if no key past the first 256 arrives again |
| `RpcServer.ExecutedTwice` | simulator/guest-linux/aarch64/ub_rpc_demo.c:918-992 | 257 distinct requests and the last one again: it is executed twice and rpc_count is 258 |
| `RpcServer.ExecutionsExact` | simulator/guest-linux/aarch64/ub_rpc_demo.c:918-992 | The first 256 keys are executed once, every other one at each arrival |
| `RpcServer.RepliesAreFirst` | simulator/guest-linux/aarch64/ub_rpc_demo.c:934-972 | Replies to the first 256 keys carry the first answer, others their own |
| `RpcServer.CountExact` | simulator/guest-linux/aarch64/ub_rpc_demo.c:981-987 | rpc_count in every run, also past 256 keys |
| `RpcServer.TableHoldsFirsts` | simulator/guest-linux/aarch64/ub_rpc_demo.c:965-971 | The table holds exactly the first 256 distinct keys in order with their first answers |
| `RpcServer.Server.Scan` | simulator/guest-linux/aarch64/ub_rpc_demo.c:918-932 | The scan finds the duplicate, or else the first free slot |
| `RpcServer.Server.Handle` | simulator/guest-linux/aarch64/ub_rpc_demo.c:918-990 | One request answers and updates table and count as specified |
| `RpcServer.Server.Run` | simulator/guest-linux/aarch64/ub_rpc_demo.c:882-992 | The loop serves arrivals in order and stops exactly at the expected count |
| `RpcExchange.Exchange` | simulator/guest-linux/aarch64/ub_rpc_demo.c:872-1060 | After any packets a framed request is answered, and the client parses the right id, "OK", and the first answer computed for that key |
| `Crc32.Crc32Ieee` | simulator/guest-linux/aarch64/ub_rpc_demo.c:793-812 | The nested loops compute the specified register |
| `Crc32.DetectsBitBursts` | simulator/guest-linux/aarch64/ub_rpc_demo.c:793-812 | Messages that differ only inside 32 consecutive bits have different checksums |
| `Crc32.DetectsByteBursts` | simulator/guest-linux/aarch64/ub_rpc_demo.c:793-812 | So do equal-length payloads that differ only inside four consecutive bytes |
| `Crc32.FiveByteBurstCollides` | simulator/guest-linux/aarch64/ub_rpc_demo.c:793-812 | Five bytes are too many: two payloads collide |
| `Crc32.CheckValue` | simulator/guest-linux/aarch64/ub_rpc_demo.c:793-812 | The checksum of "123456789" is 0xCBF43926, the published check value of this CRC |
| `Crc32.FeedIsFold` | simulator/guest-linux/aarch64/ub_rpc_demo.c:793-812 | Eight steps after adding a byte equal absorbing its bits one by one, lowest first |
| `ShiftRegister.DetectsWindow` | simulator/guest-linux/aarch64/ub_rpc_demo.c:793-812 | For any reversible shift register of n bits, messages that differ only in an n-bit window leave different registers |

## Left out

- Liveness of the pool protocol under loss: TURN and ACK are sent once and unmatched datagrams are discarded, so a lost one may stop a run; that completion stays possible is proved, that it happens is not promised.
- Pool node count and 16-bit fields: any N of at least 2 is covered, without the casts of node indices to uint16_t.
- Sockets, clocks, mmap and device nodes: replaced by a set of datagrams, shared memory as a map, and arbitrary give-up.
- The external dispatch process and its manifest: which dispatches fail, and with what code, is an arbitrary parameter of each advance.
- Identifier counters and clocks of the surface and the engine, and the product of the db limits, are unbounded; the completion time a service computes wraps at 2^64.
- Device.Endpoint.FlushCqRing: requires the identifiers and times of the polled completions to be 64-bit values, as do PollCq and MmioRingDoorbell; SlotFit.PolledWordSized and SlotFit.DoorbellWordSized show when runs meet this.
- Device.Endpoint: holds the surface as a value changed by the functions that GuestSurface is proved equal to, not as a second object; sharing one surface between several endpoints is not modelled.
- MMIO offset decoding, the status word and the error code register: they would only add easy members.
- Topology and health queries of the surface; DrainCq is PollCq without a limit.
- The op_id, kind and task of a runtime work item are never read, so they are not kept.
- The handlers of the RPC server: what a handler would answer is part of each arrival; rpc_count does not wrap at 2^32.
- ImportAllocator.AllocatorCorrect: for region sizes other than the demo's 2 MiB the exact condition on windows is not given, and neither is it for overlapping windows whose ends wrap.
- The shmem, dfs and db stubs differ from the block stub in their table and latencies only, so one class covers all four.
- default_cq takes whichever queue the map yields first; the model picks any.
- Route planning, workloads, configuration, reports, command-line tool, kernel driver and the other socket demos.
