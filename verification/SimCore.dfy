/** Types shared by the guest command path: descriptors, completions, errors. */
module SimCore {

  const U64_MAX: nat := 0xffff_ffff_ffff_ffff

  datatype Option<+T> = None | Some(value: T)

  /** The things a NotFound error names. */
  datatype Thing = CompletionQueue | CommandQueue | Endpoint

  /** The reasons an InvalidInput error gives; the sources spell each as a fixed message. */
  datatype Reason =
    | SegmentBytesZero            // segment bytes must be positive
    | SegmentTooLarge             // shmem segment exceeds size limit
    | SegmentTableFull            // shmem segment table full
    | CommandQueueDepthZero       // command queue depth must be positive
    | CommandQueueOwnerMismatch   // command queue owner mismatch
    | CommandQueueFull            // command queue full
    | CompletionQueueOwnerMismatch // completion queue owner mismatch
    | RuntimeQueueFull            // runtime queue full
    | UapiRuntimeQueueFull        // uapi runtime queue full
    | ServiceQueueFull(source: CompletionSource) // block, shmem, dfs or db queue full
    | MissingBlock                // missing block hash

  datatype SimError = NotImplemented | NotFound(thing: Thing) | InvalidInput(reason: Reason)

  datatype Result<+T, +E> = Ok(value: T) | Err(error: E)

  datatype TaskKey = TaskKey(logicalSystem: nat, levels: seq<nat>, scopeDepth: nat, taskId: nat)

  datatype IoOpcode = ReadBlock | WriteBlock | Dispatch | RemoteFetch | RemoteStore

  /** What a guest can ask for; GuestDescriptor and UapiDescriptor carry the same fields. */
  datatype Descriptor =
    | Io(opId: nat, task: Option<TaskKey>, entity: nat, opcode: IoOpcode, segment: Option<nat>, block: Option<string>)
    | BlockWriteback(target: string, task: Option<TaskKey>)
    | ShmemPut(task: Option<TaskKey>, requester: nat, segmentId: nat, bytes: nat)
    | ShmemGet(task: Option<TaskKey>, requester: nat, segmentId: nat, bytes: nat)
    | DfsRead(task: Option<TaskKey>, path: string)
    | DfsWrite(task: Option<TaskKey>, path: string, bytes: nat)
    | DbPut(task: Option<TaskKey>, key: string, bytes: nat)
    | DbGet(task: Option<TaskKey>, key: string)

  datatype CompletionSource =
    | ChipBackend | BlockService | ShmemService | DfsService | DbService | GuestUapi | RemoteNode

  datatype CompletionStatus =
    | Success
    | RetryableFailure(code: string)
    | FatalFailure(code: string)

  datatype CompletionEvent = CompletionEvent(
    opId: nat, task: Option<TaskKey>, source: CompletionSource, status: CompletionStatus, finishedAt: nat)

  function Min(a: nat, b: nat): nat { if a < b then a else b }

  /** u64::saturating_add */
  function SaturatingAdd(a: nat, b: nat): nat { Min(a + b, U64_MAX) }
}
