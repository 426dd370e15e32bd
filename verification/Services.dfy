/**
 The block, shmem, dfs and db stubs (sim-services).  The four share one shape: a bounded
 queue of completions with consecutive handles, and a table that decides status and
 latency of each request.
 */
module Services {
  import opened SimCore

  datatype SegmentMeta = SegmentMeta(owner: nat, bytes: nat)
  datatype FileMeta = FileMeta(bytes: nat, warm: bool)

  /** Per-service state: block -> dirty?, segments, files, rows. */
  datatype Table =
    | Blocks(blocks: map<string, bool>)
    | Segments(segments: map<nat, SegmentMeta>)
    | Files(files: map<string, FileMeta>)
    | Rows(rows: map<string, nat>)

  datatype Profile = Profile(
    readHit: nat, readMiss: nat, write: nat, writeback: nat,
    shmemLatency: nat, maxSegmentBytes: nat, maxSegments: nat, peerCount: nat,
    dfsMetadata: nat, dfsData: nat, dfsColdMetadata: nat, dfsColdData: nat,
    dbMetadata: nat, dbValue: nat, inlineValueLimit: nat, pipelineBatchLimit: nat)

  datatype QueuedCompletion = QueuedCompletion(readyAt: nat, event: CompletionEvent)

  datatype ServiceState = ServiceState(table: Table, completions: seq<QueuedCompletion>, nextOpId: nat)

  predicate IsService(src: CompletionSource) {
    src.BlockService? || src.ShmemService? || src.DfsService? || src.DbService?
  }

  function SourceOf(t: Table): CompletionSource {
    match t
    case Blocks(_) => BlockService
    case Segments(_) => ShmemService
    case Files(_) => DfsService
    case Rows(_) => DbService
  }

  /** The service a descriptor is queued at, if any. */
  function ServiceOf(d: Descriptor): (r: Option<CompletionSource>)
    ensures r.Some? ==> IsService(r.value)
  {
    match d
    case Io(_, _, _, opcode, _, block) =>
      if (opcode.ReadBlock? || opcode.WriteBlock?) && block.Some? then Some(BlockService) else None
    case BlockWriteback(_, _) => Some(BlockService)
    case ShmemPut(_, _, _, _) => Some(ShmemService)
    case ShmemGet(_, _, _, _) => Some(ShmemService)
    case DfsRead(_, _) => Some(DfsService)
    case DfsWrite(_, _, _) => Some(DfsService)
    case DbPut(_, _, _) => Some(DbService)
    case DbGet(_, _) => Some(DbService)
  }

  datatype Outcome = Outcome(status: CompletionStatus, latency: nat, table: Table)

  function CheckAccess(p: Profile, segments: map<nat, SegmentMeta>, segment: nat, requester: nat,
                       bytes: nat): CompletionStatus {
    if segment !in segments then RetryableFailure("missing_segment")
    else if bytes > segments[segment].bytes then RetryableFailure("short_segment")
    else if requester != segments[segment].owner && requester >= p.peerCount then FatalFailure("shmem_access_denied")
    else Success
  }

  /** Status, latency and new table for one accepted request. */
  function Respond(p: Profile, t: Table, d: Descriptor): (o: Outcome)
    requires ServiceOf(d) == Some(SourceOf(t))
    ensures SourceOf(o.table) == SourceOf(t)
  {
    match d
    case Io(_, _, _, opcode, _, block) =>
      if opcode.WriteBlock? then Outcome(Success, p.write, Blocks(t.blocks[block.value := true]))
      else if block.value in t.blocks then Outcome(Success, p.readHit, t)
      else Outcome(RetryableFailure("block_miss"), p.readMiss, t)
    case BlockWriteback(block, _) =>
      if block in t.blocks then Outcome(Success, p.writeback, Blocks(t.blocks[block := false]))
      else Outcome(RetryableFailure("writeback_missing_block"), p.writeback, t)
    case ShmemPut(_, requester, segment, bytes) =>
      Outcome(CheckAccess(p, t.segments, segment, requester, bytes), p.shmemLatency, t)
    case ShmemGet(_, requester, segment, bytes) =>
      Outcome(CheckAccess(p, t.segments, segment, requester, bytes), p.shmemLatency, t)
    case DfsWrite(_, path, bytes) =>
      Outcome(Success, p.dfsMetadata + p.dfsData, Files(t.files[path := FileMeta(bytes, false)]))
    case DfsRead(_, path) =>
      if path !in t.files then Outcome(RetryableFailure("missing_path"), p.dfsMetadata, t)
      else
        var penalty := if t.files[path].warm then 0 else p.dfsColdMetadata + p.dfsColdData;
        Outcome(Success, p.dfsMetadata + p.dfsData + penalty, Files(t.files[path := t.files[path].(warm := true)]))
    case DbPut(_, key, bytes) =>
      if bytes > p.inlineValueLimit * p.pipelineBatchLimit
      then Outcome(RetryableFailure("db_batch_limit_exceeded"), p.dbMetadata, t)
      else Outcome(Success, p.dbMetadata + (if bytes > p.inlineValueLimit then p.dbValue else 0),
                   Rows(t.rows[key := bytes]))
    case DbGet(_, key) =>
      if key !in t.rows then Outcome(RetryableFailure("db_missing_key"), p.dbMetadata, t)
      else Outcome(Success, p.dbMetadata + (if t.rows[key] > p.inlineValueLimit then p.dbValue else 0), t)
  }

  /** u64 addition of times; wraps as in a release build. */
  function AddTime(now: nat, latency: nat): (t: nat)
    ensures t <= U64_MAX
  {
    (now + latency) % (U64_MAX + 1)
  }

  /** The service after accepting one more request at time `now`. */
  function Accept(p: Profile, s: ServiceState, d: Descriptor, now: nat): (r: ServiceState)
    requires ServiceOf(d) == Some(SourceOf(s.table))
    ensures r.nextOpId == s.nextOpId + 1 && |r.completions| == |s.completions| + 1
    ensures SourceOf(r.table) == SourceOf(s.table)
  {
    var o, at := Respond(p, s.table, d), AddTime(now, Respond(p, s.table, d).latency);
    ServiceState(o.table,
                 s.completions
                 + [QueuedCompletion(at, CompletionEvent(s.nextOpId + 1, d.task, SourceOf(s.table), o.status, at))],
                 s.nextOpId + 1)
  }

  /** How many completions at the front are ready: drain_ready stops at the first that is not. */
  function ReadyCount(q: seq<QueuedCompletion>, now: nat): (k: nat)
    ensures k <= |q|
    ensures forall i :: 0 <= i < k ==> q[i].readyAt <= now
    ensures k < |q| ==> q[k].readyAt > now
  {
    if q == [] || q[0].readyAt > now then 0 else 1 + ReadyCount(q[1..], now)
  }

  function Events(q: seq<QueuedCompletion>): (r: seq<CompletionEvent>)
    ensures |r| == |q| && forall i :: 0 <= i < |q| ==> r[i] == q[i].event
  {
    seq(|q|, i requires 0 <= i < |q| => q[i].event)
  }

  /**
   The queue holds the latest handles, oldest first: the front completion is the one after
   the last delivered, the back one is the last handle given out.
   */
  ghost predicate Consecutive(s: ServiceState) {
    && |s.completions| <= s.nextOpId
    && forall i :: 0 <= i < |s.completions| ==>
         && s.completions[i].readyAt <= U64_MAX
         && s.completions[i].event.source == SourceOf(s.table)
         && s.completions[i].event.opId == Delivered(s) + 1 + i
  }

  /** How many handles have been delivered so far. */
  function Delivered(s: ServiceState): int { s.nextOpId - |s.completions| }

  lemma AcceptConsecutive(p: Profile, s: ServiceState, d: Descriptor, now: nat)
    requires ServiceOf(d) == Some(SourceOf(s.table)) && Consecutive(s)
    ensures Consecutive(Accept(p, s, d, now)) && Delivered(Accept(p, s, d, now)) == Delivered(s)
  {
  }

  class ServiceStub {
    const depth: nat
    const profile: Profile
    var table: Table
    var completions: seq<QueuedCompletion>
    var nextOpId: nat

    ghost function View(): ServiceState
      reads this
    {
      ServiceState(table, completions, nextOpId)
    }

    constructor (depth: nat, profile: Profile, table: Table)
      ensures this.depth == depth && this.profile == profile && View() == ServiceState(table, [], 0)
    {
      this.depth := depth;
      this.profile := profile;
      this.table := table;
      completions := [];
      nextOpId := 0;
    }

    method Submit(d: Descriptor, now: nat) returns (r: Option<nat>)
      requires ServiceOf(d) == Some(SourceOf(table))
      modifies this
      ensures |old(completions)| >= depth ==> r == None && View() == old(View())
      ensures |old(completions)| < depth ==>
                r == Some(nextOpId) && View() == Accept(profile, old(View()), d, now)
    {
      if |completions| >= depth {
        return None;
      }
      nextOpId := nextOpId + 1;
      var o := Respond(profile, table, d);
      var at := AddTime(now, o.latency);
      completions := completions
        + [QueuedCompletion(at, CompletionEvent(nextOpId, d.task, SourceOf(table), o.status, at))];
      table := o.table;
      r := Some(nextOpId);
    }

    method PollReady(now: nat) returns (ready: seq<CompletionEvent>)
      modifies this
      ensures ready == Events(old(completions)[..ReadyCount(old(completions), now)])
      ensures View() == old(View()).(completions := old(completions)[ReadyCount(old(completions), now)..])
    {
      ready := [];
      ghost var k := 0;
      while completions != [] && completions[0].readyAt <= now
        invariant 0 <= k <= |old(completions)|
        invariant completions == old(completions)[k..]
        invariant ready == Events(old(completions)[..k])
        invariant table == old(table) && nextOpId == old(nextOpId)
        invariant forall i :: 0 <= i < k ==> old(completions)[i].readyAt <= now
        decreases |completions|
      {
        ready := ready + [completions[0].event];
        assert old(completions)[..k + 1] == old(completions)[..k] + [completions[0]];
        completions := completions[1..];
        k := k + 1;
      }
      assert k < |old(completions)| ==> old(completions)[k].readyAt > now;
    }
  }
}
