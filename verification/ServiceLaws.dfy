/**
 What a service answers, told by its history: the requests it accepted, the polls it served
 and, for shared memory, the segments registered with it.  The tables do not occur.
 */
module ServiceLaws {
  import opened SimCore
  import opened Services

  datatype Event =
    | Asked(d: Descriptor, at: nat)
    | Drained(now: nat)
    | Registered(segment: nat, meta: SegmentMeta)

  predicate For(src: CompletionSource, ev: Event) {
    match ev
    case Asked(d, _) => ServiceOf(d) == Some(src)
    case Drained(_) => true
    case Registered(_, _) => src.ShmemService?
  }

  predicate AllFor(src: CompletionSource, h: seq<Event>) {
    IsService(src) && forall i :: 0 <= i < |h| ==> For(src, h[i])
  }

  function Empty(src: CompletionSource): (t: Table)
    requires IsService(src)
    ensures SourceOf(t) == src
  {
    match src
    case BlockService => Blocks(map[])
    case ShmemService => Segments(map[])
    case DfsService => Files(map[])
    case DbService => Rows(map[])
  }

  function Apply(p: Profile, s: ServiceState, ev: Event): (r: ServiceState)
    requires For(SourceOf(s.table), ev)
    ensures SourceOf(r.table) == SourceOf(s.table)
  {
    match ev
    case Asked(d, at) => Accept(p, s, d, at)
    case Drained(now) => s.(completions := s.completions[ReadyCount(s.completions, now)..])
    case Registered(segment, meta) => s.(table := Segments(s.table.segments[segment := meta]))
  }

  /** The service after a history. */
  function Replay(p: Profile, src: CompletionSource, h: seq<Event>): (s: ServiceState)
    requires AllFor(src, h)
    ensures SourceOf(s.table) == src
  {
    if h == [] then ServiceState(Empty(src), [], 0) else Apply(p, Replay(p, src, h[..|h| - 1]), h[|h| - 1])
  }

  function AskedCount(h: seq<Event>): nat {
    if h == [] then 0 else AskedCount(h[..|h| - 1]) + if h[|h| - 1].Asked? then 1 else 0
  }

  lemma {:induction false} Handles(p: Profile, src: CompletionSource, h: seq<Event>)
    requires AllFor(src, h)
    ensures Replay(p, src, h).nextOpId == AskedCount(h)
  {
    if h != [] { Handles(p, src, h[..|h| - 1]); }
  }

  /** What the service queues in answer to one more request. */
  function AnswerTo(p: Profile, s: ServiceState, d: Descriptor, now: nat): QueuedCompletion
    requires ServiceOf(d) == Some(SourceOf(s.table))
  {
    Accept(p, s, d, now).completions[|s.completions|]
  }

  /** After the history, request d at time now is answered with the next handle, this status, after this latency. */
  ghost predicate Answered(p: Profile, src: CompletionSource, h: seq<Event>, d: Descriptor, now: nat,
                           status: CompletionStatus, latency: nat)
    requires AllFor(src, h) && ServiceOf(d) == Some(src)
  {
    var at := AddTime(now, latency);
    AnswerTo(p, Replay(p, src, h), d, now)
      == QueuedCompletion(at, CompletionEvent(AskedCount(h) + 1, d.task, src, status, at))
  }

  // ----- Blocks ----------------------------------------------------------------------------

  predicate WritesBlock(ev: Event, block: string) {
    ev.Asked? && ev.d.Io? && ev.d.opcode.WriteBlock? && ev.d.block == Some(block)
  }

  ghost predicate BlockWritten(h: seq<Event>, block: string) {
    exists i :: 0 <= i < |h| && WritesBlock(h[i], block)
  }

  lemma BlockWrittenSnoc(h: seq<Event>, block: string)
    requires h != []
    ensures BlockWritten(h, block) <==> BlockWritten(h[..|h| - 1], block) || WritesBlock(h[|h| - 1], block)
  {
    var init := h[..|h| - 1];
    if BlockWritten(init, block) {
      var i :| 0 <= i < |init| && WritesBlock(init[i], block);
      assert WritesBlock(h[i], block);
    }
    if BlockWritten(h, block) {
      var i :| 0 <= i < |h| && WritesBlock(h[i], block);
      assert i < |init| ==> WritesBlock(init[i], block);
    }
  }

  lemma {:induction false} BlockTable(p: Profile, h: seq<Event>, block: string)
    requires AllFor(BlockService, h)
    ensures block in Replay(p, BlockService, h).table.blocks <==> BlockWritten(h, block)
  {
    if h != [] {
      BlockTable(p, h[..|h| - 1], block);
      BlockWrittenSnoc(h, block);
      assert For(BlockService, h[|h| - 1]);
    }
  }

  /** Writes succeed; a read hits, and a writeback finds its block, exactly if the block was written before. */
  lemma BlockAnswers(p: Profile, h: seq<Event>, d: Descriptor, now: nat)
    requires AllFor(BlockService, h) && ServiceOf(d) == Some(BlockService)
    ensures d.Io? && d.opcode.WriteBlock? ==> Answered(p, BlockService, h, d, now, Success, p.write)
    ensures d.Io? && d.opcode.ReadBlock? ==>
              if BlockWritten(h, d.block.value) then Answered(p, BlockService, h, d, now, Success, p.readHit)
              else Answered(p, BlockService, h, d, now, RetryableFailure("block_miss"), p.readMiss)
    ensures d.BlockWriteback? ==>
              Answered(p, BlockService, h, d, now,
                       if BlockWritten(h, d.target) then Success else RetryableFailure("writeback_missing_block"),
                       p.writeback)
  {
    Handles(p, BlockService, h);
    if d.Io? { BlockTable(p, h, d.block.value); } else { BlockTable(p, h, d.target); }
  }

  // ----- Shared memory ---------------------------------------------------------------------

  predicate Registers(ev: Event, segment: nat) { ev.Registered? && ev.segment == segment }

  ghost predicate EverRegistered(h: seq<Event>, segment: nat) {
    exists i :: 0 <= i < |h| && Registers(h[i], segment)
  }

  /** h[i] is the latest registration of a segment. */
  ghost predicate LastRegistered(h: seq<Event>, segment: nat, i: int) {
    0 <= i < |h| && Registers(h[i], segment) && forall j :: i < j < |h| ==> !Registers(h[j], segment)
  }

  lemma RegisteredSnoc(h: seq<Event>, segment: nat)
    requires h != []
    ensures EverRegistered(h, segment) <==>
              EverRegistered(h[..|h| - 1], segment) || Registers(h[|h| - 1], segment)
  {
    var init := h[..|h| - 1];
    if EverRegistered(init, segment) {
      var i :| 0 <= i < |init| && Registers(init[i], segment);
      assert Registers(h[i], segment);
    }
    if EverRegistered(h, segment) {
      var i :| 0 <= i < |h| && Registers(h[i], segment);
      assert i < |init| ==> Registers(init[i], segment);
    }
  }

  lemma LastRegisteredInit(h: seq<Event>, segment: nat, i: int)
    requires LastRegistered(h, segment, i) && i < |h| - 1
    ensures LastRegistered(h[..|h| - 1], segment, i) && !Registers(h[|h| - 1], segment)
  {
    var init := h[..|h| - 1];
    assert init[i] == h[i];
    forall j | i < j < |init| ensures !Registers(init[j], segment) { assert init[j] == h[j]; }
  }

  lemma {:induction false} SegmentTable(p: Profile, h: seq<Event>, segment: nat)
    requires AllFor(ShmemService, h)
    ensures segment in Replay(p, ShmemService, h).table.segments <==> EverRegistered(h, segment)
  {
    if h != [] {
      SegmentTable(p, h[..|h| - 1], segment);
      RegisteredSnoc(h, segment);
      assert For(ShmemService, h[|h| - 1]);
    }
  }

  lemma {:induction false} SegmentMetaIs(p: Profile, h: seq<Event>, segment: nat, i: int)
    requires AllFor(ShmemService, h) && LastRegistered(h, segment, i)
    ensures var t := Replay(p, ShmemService, h).table.segments; segment in t && t[segment] == h[i].meta
  {
    assert For(ShmemService, h[|h| - 1]);
    if i < |h| - 1 {
      LastRegisteredInit(h, segment, i);
      SegmentMetaIs(p, h[..|h| - 1], segment, i);
    }
  }

  predicate ShmemAccess(d: Descriptor) { d.ShmemPut? || d.ShmemGet? }

  /** An access to a segment never registered fails as missing. */
  lemma AccessMissing(p: Profile, h: seq<Event>, d: Descriptor, now: nat)
    requires AllFor(ShmemService, h) && ShmemAccess(d)
    requires !EverRegistered(h, d.segmentId)
    ensures Answered(p, ShmemService, h, d, now, RetryableFailure("missing_segment"), p.shmemLatency)
  {
    Handles(p, ShmemService, h);
    SegmentTable(p, h, d.segmentId);
  }

  /**
   An access succeeds exactly if the latest registration of its segment has at least that
   many bytes and the requester is its owner or one of the peers.
   */
  lemma AccessRegistered(p: Profile, h: seq<Event>, d: Descriptor, now: nat, i: int)
    requires AllFor(ShmemService, h) && ShmemAccess(d) && LastRegistered(h, d.segmentId, i)
    ensures var meta := h[i].meta;
      Answered(p, ShmemService, h, d, now,
               if meta.bytes < d.bytes then RetryableFailure("short_segment")
               else if d.requester == meta.owner || d.requester < p.peerCount then Success
               else FatalFailure("shmem_access_denied"),
               p.shmemLatency)
  {
    Handles(p, ShmemService, h);
    SegmentMetaIs(p, h, d.segmentId, i);
  }

  // ----- Files -----------------------------------------------------------------------------

  predicate WritesPath(ev: Event, path: string) { ev.Asked? && ev.d.DfsWrite? && ev.d.path == path }
  predicate ReadsPath(ev: Event, path: string) { ev.Asked? && ev.d.DfsRead? && ev.d.path == path }

  ghost predicate PathWritten(h: seq<Event>, path: string) {
    exists i :: 0 <= i < |h| && WritesPath(h[i], path)
  }

  /** The path was written and not read since. */
  ghost predicate Cold(h: seq<Event>, path: string) {
    exists i :: 0 <= i < |h| && WritesPath(h[i], path) && forall j :: i < j < |h| ==> !ReadsPath(h[j], path)
  }

  lemma PathWrittenSnoc(h: seq<Event>, path: string)
    requires h != []
    ensures PathWritten(h, path) <==> PathWritten(h[..|h| - 1], path) || WritesPath(h[|h| - 1], path)
  {
    var init := h[..|h| - 1];
    if PathWritten(init, path) {
      var i :| 0 <= i < |init| && WritesPath(init[i], path);
      assert WritesPath(h[i], path);
    }
    if PathWritten(h, path) {
      var i :| 0 <= i < |h| && WritesPath(h[i], path);
      assert i < |init| ==> WritesPath(init[i], path);
    }
  }

  lemma ColdSnoc(h: seq<Event>, path: string)
    requires h != []
    ensures Cold(h, path) <==>
              WritesPath(h[|h| - 1], path) || (Cold(h[..|h| - 1], path) && !ReadsPath(h[|h| - 1], path))
  {
    var init, ev := h[..|h| - 1], h[|h| - 1];
    if Cold(init, path) && !ReadsPath(ev, path) {
      var i :| 0 <= i < |init| && WritesPath(init[i], path) && forall j :: i < j < |init| ==> !ReadsPath(init[j], path);
      assert WritesPath(h[i], path);
      forall j | i < j < |h| ensures !ReadsPath(h[j], path) { assert j < |init| ==> h[j] == init[j]; }
    }
    if Cold(h, path) {
      var i :| 0 <= i < |h| && WritesPath(h[i], path) && forall j :: i < j < |h| ==> !ReadsPath(h[j], path);
      if i < |init| {
        assert WritesPath(init[i], path);
        forall j | i < j < |init| ensures !ReadsPath(init[j], path) { assert h[j] == init[j]; }
      }
    }
  }

  lemma {:induction false} FileTable(p: Profile, h: seq<Event>, path: string)
    requires AllFor(DfsService, h)
    ensures var t := Replay(p, DfsService, h).table.files;
      && (path in t <==> PathWritten(h, path)) && (path in t ==> (t[path].warm <==> !Cold(h, path)))
  {
    if h != [] {
      FileTable(p, h[..|h| - 1], path);
      PathWrittenSnoc(h, path);
      ColdSnoc(h, path);
      assert For(DfsService, h[|h| - 1]);
    }
  }

  /**
   Writes succeed; a read succeeds exactly if the path was written before, and pays the cold
   penalty exactly if it is the first read after the latest write.
   */
  lemma FileAnswers(p: Profile, h: seq<Event>, d: Descriptor, now: nat)
    requires AllFor(DfsService, h) && ServiceOf(d) == Some(DfsService)
    ensures d.DfsWrite? ==> Answered(p, DfsService, h, d, now, Success, p.dfsMetadata + p.dfsData)
    ensures d.DfsRead? && !PathWritten(h, d.path) ==>
              Answered(p, DfsService, h, d, now, RetryableFailure("missing_path"), p.dfsMetadata)
    ensures d.DfsRead? && PathWritten(h, d.path) ==>
              Answered(p, DfsService, h, d, now, Success,
                       p.dfsMetadata + p.dfsData
                         + if Cold(h, d.path) then p.dfsColdMetadata + p.dfsColdData else 0)
  {
    Handles(p, DfsService, h);
    FileTable(p, h, d.path);
  }

  // ----- Rows ------------------------------------------------------------------------------

  /** What one put may store: more is refused. */
  function PutLimit(p: Profile): nat { p.inlineValueLimit * p.pipelineBatchLimit }

  predicate Stores(p: Profile, ev: Event, key: string) {
    ev.Asked? && ev.d.DbPut? && ev.d.key == key && ev.d.bytes <= PutLimit(p)
  }

  ghost predicate EverStored(p: Profile, h: seq<Event>, key: string) {
    exists i :: 0 <= i < |h| && Stores(p, h[i], key)
  }

  /** h[i] is the latest put that stored the key. */
  ghost predicate LastStored(p: Profile, h: seq<Event>, key: string, i: int) {
    0 <= i < |h| && Stores(p, h[i], key) && forall j :: i < j < |h| ==> !Stores(p, h[j], key)
  }

  lemma StoredSnoc(p: Profile, h: seq<Event>, key: string)
    requires h != []
    ensures EverStored(p, h, key) <==> EverStored(p, h[..|h| - 1], key) || Stores(p, h[|h| - 1], key)
  {
    var init := h[..|h| - 1];
    if EverStored(p, init, key) {
      var i :| 0 <= i < |init| && Stores(p, init[i], key);
      assert Stores(p, h[i], key);
    }
    if EverStored(p, h, key) {
      var i :| 0 <= i < |h| && Stores(p, h[i], key);
      assert i < |init| ==> Stores(p, init[i], key);
    }
  }

  lemma LastStoredInit(p: Profile, h: seq<Event>, key: string, i: int)
    requires LastStored(p, h, key, i) && i < |h| - 1
    ensures LastStored(p, h[..|h| - 1], key, i) && !Stores(p, h[|h| - 1], key)
  {
    var init := h[..|h| - 1];
    assert init[i] == h[i];
    forall j | i < j < |init| ensures !Stores(p, init[j], key) { assert init[j] == h[j]; }
  }

  /** One event leaves a row alone unless it stores it. */
  lemma RowStep(p: Profile, s: ServiceState, ev: Event, key: string)
    requires s.table.Rows? && For(DbService, ev)
    ensures var t, t' := s.table.rows, Apply(p, s, ev).table.rows;
      && (key in t' <==> key in t || Stores(p, ev, key))
      && (key in t' ==> t'[key] == if Stores(p, ev, key) then ev.d.bytes else t[key])
  {
  }

  lemma {:induction false} RowTable(p: Profile, h: seq<Event>, key: string)
    requires AllFor(DbService, h)
    ensures key in Replay(p, DbService, h).table.rows <==> EverStored(p, h, key)
  {
    if h != [] {
      var init, ev := h[..|h| - 1], h[|h| - 1];
      RowTable(p, init, key);
      StoredSnoc(p, h, key);
      assert For(DbService, ev);
      RowStep(p, Replay(p, DbService, init), ev, key);
    }
  }

  lemma {:induction false} RowIs(p: Profile, h: seq<Event>, key: string, i: int)
    requires AllFor(DbService, h) && LastStored(p, h, key, i)
    ensures var t := Replay(p, DbService, h).table.rows; key in t && t[key] == h[i].d.bytes
  {
    var init, ev := h[..|h| - 1], h[|h| - 1];
    assert For(DbService, ev);
    RowStep(p, Replay(p, DbService, init), ev, key);
    if i < |h| - 1 {
      LastStoredInit(p, h, key, i);
      RowIs(p, init, key, i);
    }
  }

  function ValueLatency(p: Profile, bytes: nat): nat {
    p.dbMetadata + if bytes > p.inlineValueLimit then p.dbValue else 0
  }

  /** A put is refused exactly if it exceeds the limit; its latency follows its size. */
  lemma PutAnswers(p: Profile, h: seq<Event>, d: Descriptor, now: nat)
    requires AllFor(DbService, h) && d.DbPut?
    ensures if d.bytes <= PutLimit(p) then Answered(p, DbService, h, d, now, Success, ValueLatency(p, d.bytes))
            else Answered(p, DbService, h, d, now, RetryableFailure("db_batch_limit_exceeded"), p.dbMetadata)
  {
    Handles(p, DbService, h);
  }

  /** A get of a key that no put stored fails. */
  lemma GetMissing(p: Profile, h: seq<Event>, d: Descriptor, now: nat)
    requires AllFor(DbService, h) && d.DbGet? && !EverStored(p, h, d.key)
    ensures Answered(p, DbService, h, d, now, RetryableFailure("db_missing_key"), p.dbMetadata)
  {
    Handles(p, DbService, h);
    RowTable(p, h, d.key);
  }

  /** A get of a stored key succeeds; its latency follows the size the latest accepted put stored. */
  lemma GetStored(p: Profile, h: seq<Event>, d: Descriptor, now: nat, i: int)
    requires AllFor(DbService, h) && d.DbGet? && LastStored(p, h, d.key, i)
    ensures Answered(p, DbService, h, d, now, Success, ValueLatency(p, h[i].d.bytes))
  {
    Handles(p, DbService, h);
    RowIs(p, h, d.key, i);
  }
}
