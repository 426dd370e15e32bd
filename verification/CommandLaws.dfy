/**
 What the guest's handles mean over every run: queues and segments are numbered from one, a
 command queue belongs to the owner of its completion queue and never overflows, segments stay
 within the limits of the shared-memory service, and nobody stages work for a queue of another.
 */
module CommandLaws {
  import opened SimCore
  import opened Services
  import opened RuntimeQueue
  import opened SurfaceSpec
  import EL = EventLaws

  function Segments(s: State): map<nat, SegmentMeta> { s.services.shmem.table.segments }

  // ----- What settling leaves alone ----------------------------------------------------------

  /** Handle counters and segments are as before. */
  predicate SameHandles(s: State, s': State) {
    && s'.nextSegment == s.nextSegment && s'.nextCq == s.nextCq && s'.nextCmdq == s.nextCmdq
    && Segments(s') == Segments(s)
  }

  lemma {:induction false} RouteAllHandles(s: State, events: seq<CompletionEvent>)
    ensures SameHandles(s, RouteAll(s, events))
  {
    if events != [] { RouteAllHandles(s, events[..|events| - 1]); }
  }

  lemma DrainHandles(s: State, src: CompletionSource)
    requires IsService(src)
    ensures SameHandles(s, DrainService(s, src))
  {
    RouteAllHandles(Emptied(s, src), Events(s.services.Get(src).completions));
  }

  lemma FlushServicesHandles(s: State)
    ensures SameHandles(s, FlushServices(s))
  {
    var s1 := DrainService(s, BlockService);
    var s2 := DrainService(s1, ShmemService);
    var s3 := DrainService(s2, DfsService);
    DrainHandles(s, BlockService);
    DrainHandles(s1, ShmemService);
    DrainHandles(s2, DfsService);
    DrainHandles(s3, DbService);
  }

  /** Only creating a segment changes a segment table. */
  lemma AcceptSegments(p: Profile, sv: ServiceState, d: Descriptor, now: nat)
    requires sv.table.Segments? && ServiceOf(d) == Some(ShmemService)
    ensures Accept(p, sv, d, now).table == sv.table
  {
  }

  lemma SetSegments(ss: ServiceSet, src: CompletionSource, sv: ServiceState)
    requires IsService(src) && SourceOf(sv.table) == src && (src == ShmemService ==> sv.table == ss.shmem.table)
    ensures ss.Set(src, sv).shmem.table == ss.shmem.table
  {
  }

  lemma BoundHandles(cfg: Config, s: State, d: Descriptor, src: CompletionSource, cq: nat)
    requires ServiceOf(d) == Some(src)
    ensures SameHandles(s, SubmitToService(cfg, s, d, src, cq).0)
  {
    var sv := Accept(cfg.profile, s.services.Get(src), d, s.clock);
    if src == ShmemService { AcceptSegments(cfg.profile, s.services.shmem, d, s.clock); }
    SetSegments(s.services, src, sv);
  }

  lemma SubmitHandles(cfg: Config, s: State, d: Descriptor, cq: nat)
    ensures SameHandles(s, Submit(cfg, s, d, cq).0)
  {
    if ServiceOf(d).Some? { BoundHandles(cfg, Ticked(s), d, ServiceOf(d).value, cq); }
  }

  lemma {:induction false} DriveHandles(cfg: Config, p: Pass, ready: seq<Entry>)
    ensures SameHandles(p.s, Drive(cfg, p, ready).s)
  {
    if ready != [] {
      var p1, r := Drive(cfg, p, ready[..|ready| - 1]), ready[|ready| - 1];
      DriveHandles(cfg, p, ready[..|ready| - 1]);
      SubmitHandles(cfg, p1.s, r.payload.desc, r.payload.cq);
      FlushServicesHandles(Submit(cfg, p1.s, r.payload.desc, r.payload.cq).0);
    }
  }

  lemma {:induction false} ReportHandles(s: State, failures: seq<Failure>)
    ensures SameHandles(s, Report(s, failures))
  {
    if failures != [] { ReportHandles(s, failures[..|failures| - 1]); }
  }

  lemma {:induction false} FlushHandles(cfg: Config, s: State)
    ensures SameHandles(s, Flush(cfg, s))
    decreases Budget(cfg, s.runtime)
  {
    if s.runtime != [] {
      var p := FirstPass(cfg, s);
      DriveHandles(cfg, Pass(s.(runtime := []), [], []), s.runtime);
      ReportHandles(p.s.(runtime := p.kept), p.failures);
      PassShrinks(cfg, s);
      FlushHandles(cfg, AfterPass(p));
    }
  }

  lemma SettledHandles(cfg: Config, s: State)
    ensures SameHandles(s, Settled(cfg, s))
  {
    FlushHandles(cfg, s);
    FlushServicesHandles(Flush(cfg, s));
  }

  // ----- The invariant -------------------------------------------------------------------------

  ghost predicate Numbered(s: State) {
    && (forall c :: c in s.cqs <==> 1 <= c <= s.nextCq)
    && (forall q :: q in s.cmdqs <==> 1 <= q <= s.nextCmdq)
  }

  /** The queue has a depth, keeps to it, and belongs to the owner of its completion queue. */
  predicate QueueSane(q: CmdQueue, cqs: map<nat, Cq>) {
    q.depth > 0 && |q.pending| <= q.depth && q.cq in cqs && cqs[q.cq].owner == q.owner
  }

  ghost predicate QueuesSane(s: State) { forall q :: q in s.cmdqs ==> QueueSane(s.cmdqs[q], s.cqs) }

  ghost predicate SegmentsSane(cfg: Config, t: map<nat, SegmentMeta>, last: nat) {
    && |t| <= cfg.profile.maxSegments
    && forall g :: g in t ==> 1 <= g <= last && 1 <= t[g].bytes <= cfg.profile.maxSegmentBytes && t[g].owner == 0
  }

  ghost predicate Sane(cfg: Config, s: State) {
    Numbered(s) && QueuesSane(s) && SegmentsSane(cfg, Segments(s), s.nextSegment)
  }

  /** Command queues as before, completion queues with the owners they had. */
  lemma FrameSane(cfg: Config, s: State, s': State)
    requires Sane(cfg, s) && SameHandles(s, s') && s'.cmdqs == s.cmdqs && EL.SameOwners(s.cqs, s'.cqs)
    ensures Sane(cfg, s')
  {
  }

  lemma SegmentSane(cfg: Config, s: State, bytes: nat)
    requires Sane(cfg, s)
    ensures Sane(cfg, NewSegment(cfg, s, bytes).0)
    ensures NewSegment(cfg, s, bytes).1 ==
              if bytes == 0 then Failed(InvalidInput(SegmentBytesZero))
              else if bytes > cfg.profile.maxSegmentBytes then Failed(InvalidInput(SegmentTooLarge))
              else if |Segments(s)| == cfg.profile.maxSegments then Failed(InvalidInput(SegmentTableFull))
              else SegmentCreated(s.nextSegment + 1)
  {
    var t, t' := Segments(s), Segments(NewSegment(cfg, s, bytes).0);
    var id := s.nextSegment + 1;
    assert id !in t;
    if NewSegment(cfg, s, bytes).1.SegmentCreated? {
      assert t' == t[id := SegmentMeta(0, bytes)] && |t'| == |t| + 1;
    }
  }

  lemma SettledSane(cfg: Config, s: State)
    requires Sane(cfg, s)
    ensures Sane(cfg, Settled(cfg, s))
  {
    var s' := Settled(cfg, s);
    SettledHandles(cfg, s);
    EL.SettledFrame(cfg, s);
    FrameSane(cfg, s, s');
  }

  lemma PopSane(cfg: Config, s: State, cq: nat, owner: nat, max: Option<nat>)
    requires Sane(cfg, s)
    ensures Sane(cfg, Pop(s, cq, owner, max).0)
  {
    FrameSane(cfg, s, Pop(s, cq, owner, max).0);
  }

  lemma PollSane(cfg: Config, s: State, cq: nat, owner: nat, max: Option<nat>)
    requires Sane(cfg, s)
    ensures Sane(cfg, Poll(cfg, s, cq, owner, max).0)
  {
    SettledSane(cfg, s);
    PopSane(cfg, Settled(cfg, s), cq, owner, max);
  }

  lemma StageHandles(cfg: Config, s: State, cq: nat, descs: seq<Descriptor>)
    ensures var s' := Stage(cfg, s, cq, descs);
      SameHandles(s, s') && s'.cmdqs == s.cmdqs && s'.cqs == s.cqs
  {
  }

  lemma RingSane(cfg: Config, s: State, cmdq: nat, batch: nat)
    requires Sane(cfg, s) && cmdq in s.cmdqs && batch <= |s.cmdqs[cmdq].pending|
    ensures Sane(cfg, RingBatch(cfg, s, cmdq, batch).0)
  {
    var q, n := s.cmdqs[cmdq], Min(batch, Free(cfg, s));
    var s1 := Popped(s, cmdq, batch);
    assert Sane(cfg, s1);
    var s2 := Stage(cfg, s1, q.cq, q.pending[..n]);
    StageHandles(cfg, s1, q.cq, q.pending[..n]);
    FrameSane(cfg, s1, s2);
    FrameSane(cfg, s2, Ticked(s2));
  }

  lemma DirectSane(cfg: Config, s: State, d: Descriptor, pick: nat)
    requires Sane(cfg, s)
    ensures Sane(cfg, Direct(cfg, s, d, pick).0)
  {
    if pick in s.cqs {
      SubmitHandles(cfg, s, d, pick);
      EL.SubmitFrame(cfg, s, d, pick);
      FrameSane(cfg, s, Submit(cfg, s, d, pick).0);
      assert Direct(cfg, s, d, pick).0 == Submit(cfg, s, d, pick).0;
    }
  }

  lemma RegisterSane(cfg: Config, s: State, owner: nat)
    requires Sane(cfg, s)
    ensures Sane(cfg, NewCq(s, owner).0)
  {
    assert s.nextCq + 1 !in s.cqs;
  }

  lemma CmdQueueSane(cfg: Config, s: State, cq: nat, owner: nat, depth: nat)
    requires Sane(cfg, s)
    ensures Sane(cfg, NewCmdQueue(s, cq, owner, depth).0)
  {
    assert s.nextCmdq + 1 !in s.cmdqs;
  }

  lemma EnqueueSane(cfg: Config, s: State, cmdq: nat, owner: nat, d: Descriptor)
    requires Sane(cfg, s)
    ensures Sane(cfg, Enqueue(s, cmdq, owner, d).0)
  {
  }

  lemma StepSane(cfg: Config, s: State, cmd: Command)
    requires Sane(cfg, s)
    ensures Sane(cfg, Execute(cfg, s, cmd).0)
  {
    match cmd
    case CreateSegment(bytes) => SegmentSane(cfg, s, bytes);
    case RegisterCq(owner) => RegisterSane(cfg, s, owner);
    case CreateCmdQueue(cq, owner, depth) => CmdQueueSane(cfg, s, cq, owner, depth);
    case EnqueueCmd(cmdq, owner, d) => EnqueueSane(cfg, s, cmdq, owner, d);
    case RingDoorbell(cmdq, owner, max) =>
      if cmdq in s.cmdqs { RingSane(cfg, s, cmdq, Limit(max, |s.cmdqs[cmdq].pending|)); }
    case SubmitDirect(d, pick) => DirectSane(cfg, s, d, pick);
    case PollCq(cq, owner, max) => PollSane(cfg, s, cq, owner, max);
  }

  /** Over every command sequence. */
  lemma {:induction false} RunSane(cfg: Config, cmds: seq<Command>)
    ensures Sane(cfg, Exec(cfg, cmds))
  {
    if cmds != [] {
      RunSane(cfg, cmds[..|cmds| - 1]);
      StepSane(cfg, Exec(cfg, cmds[..|cmds| - 1]), cmds[|cmds| - 1]);
    }
  }

  // ----- What it means for the guest -----------------------------------------------------------

  /**
   Isolation: after every run, the work an owner's doorbell stages is bound for completion
   queues of that owner.  Doorbells by others are refused, and so are polls of the queue.
   */
  lemma StagesForItself(cfg: Config, cmds: seq<Command>, cmdq: nat, owner: nat, max: Option<nat>, i: nat)
    requires var s := Exec(cfg, cmds); |s.runtime| <= i < |Ring(cfg, s, cmdq, owner, max).0.runtime|
    ensures var s := Exec(cfg, cmds);
      var cq := Ring(cfg, s, cmdq, owner, max).0.runtime[i].payload.cq;
      && cq in s.cqs && s.cqs[cq].owner == owner
      && forall other, m :: other != owner ==>
           Pop(s, cq, other, m) == (s, Failed(InvalidInput(CompletionQueueOwnerMismatch)))
  {
    RunSane(cfg, cmds);
    var s := Exec(cfg, cmds);
    assert QueueSane(s.cmdqs[cmdq], s.cqs);
    var q := s.cmdqs[cmdq];
    var batch := Limit(max, |q.pending|);
    StageBound(cfg, Popped(s, cmdq, batch), q.cq, q.pending[..Min(batch, Free(cfg, s))], i);
  }

  lemma {:induction false} StageBound(cfg: Config, s: State, cq: nat, descs: seq<Descriptor>, i: nat)
    requires |s.runtime| <= i < |Stage(cfg, s, cq, descs).runtime|
    ensures Stage(cfg, s, cq, descs).runtime[i].payload.cq == cq
  {
    if descs != [] && i < |Stage(cfg, s, cq, descs[..|descs| - 1]).runtime| {
      StageBound(cfg, s, cq, descs[..|descs| - 1], i);
    }
  }

  /** After every run a segment can be created exactly if its size is within the limits and the table has room. */
  lemma SegmentCreatedIff(cfg: Config, cmds: seq<Command>, bytes: nat)
    ensures var s := Exec(cfg, cmds);
      (exists id :: NewSegment(cfg, s, bytes).1 == SegmentCreated(id) && id !in Segments(s)) <==>
      1 <= bytes <= cfg.profile.maxSegmentBytes && |Segments(s)| < cfg.profile.maxSegments
  {
    RunSane(cfg, cmds);
    var s := Exec(cfg, cmds);
    SegmentSane(cfg, s, bytes);
    assert s.nextSegment + 1 !in Segments(s);
  }
}
