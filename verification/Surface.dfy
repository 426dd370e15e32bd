/** LocalGuestUapiSurface (sim-uapi) as a class; every method is proved equal to its SurfaceSpec function. */
module Surface {
  import opened SimCore
  import opened Services
  import opened RuntimeQueue
  import opened SurfaceSpec
  import opened SurfaceInvariant

  function ErrorOr(error: Option<SimError>, other: SimError): SimError {
    if error.Some? then error.value else other
  }

  class GuestSurface {
    const cfg: Config
    const block: ServiceStub
    const shmem: ServiceStub
    const dfs: ServiceStub
    const db: ServiceStub
    var runtime: RuntimeQueue<Work>
    var clock: nat
    var nextSegment: nat
    var nextCq: nat
    var nextCmdq: nat
    var cqs: map<nat, Cq>
    var cmdqs: map<nat, CmdQueue>
    var routes: map<Route, nat>
    ghost var log: seq<Delivery>
    ghost var origin: map<Route, nat>

    ghost predicate Configured(stub: ServiceStub, src: CompletionSource)
      reads stub
    {
      stub.depth == Depth(cfg, src) && stub.profile == cfg.profile && SourceOf(stub.table) == src
    }

    ghost predicate Shape()
      reads this, block, shmem, dfs, db, runtime
    {
      && block != shmem && block != dfs && block != db && shmem != dfs && shmem != db && dfs != db
      && Configured(block, BlockService) && Configured(shmem, ShmemService)
      && Configured(dfs, DfsService) && Configured(db, DbService)
      && runtime.issueLatency == cfg.issueLatency && runtime.retryDelay == cfg.retryDelay
      && runtime.depth == cfg.runtimeDepth && runtime.maxRetries == cfg.maxRetries
    }

    ghost function View(): State
      reads this, block, shmem, dfs, db, runtime
      requires Shape()
    {
      State(Services4(block.View(), shmem.View(), dfs.View(), db.View()),
            clock, nextSegment, nextCq, nextCmdq, cqs, cmdqs, runtime.pending, routes, log, origin)
    }

    ghost predicate Valid()
      reads this, block, shmem, dfs, db, runtime
    {
      Shape() && Inv(cfg, View())
    }

    constructor (cfg: Config)
      ensures Shape() && this.cfg == cfg && View() == Initial()
      ensures fresh(runtime) && fresh(block) && fresh(shmem) && fresh(dfs) && fresh(db)
    {
      this.cfg := cfg;
      block := new ServiceStub(cfg.blockDepth, cfg.profile, Blocks(map[]));
      shmem := new ServiceStub(cfg.shmemDepth, cfg.profile, Segments(map[]));
      dfs := new ServiceStub(cfg.dfsDepth, cfg.profile, Files(map[]));
      db := new ServiceStub(cfg.dbDepth, cfg.profile, Rows(map[]));
      runtime := new RuntimeQueue<Work>(cfg.issueLatency, cfg.retryDelay, cfg.runtimeDepth, cfg.maxRetries);
      clock, nextSegment, nextCq, nextCmdq := 0, 0, 0, 0;
      cqs, cmdqs, routes := map[], map[], map[];
      log, origin := [], map[];
    }

    method NextServiceTime() returns (now: nat)
      requires Shape()
      modifies this
      ensures Shape() && runtime == old(runtime) && View() == Ticked(old(View())) && now == clock
    {
      clock := clock + 1;
      now := clock;
    }

    method EnqueueToCq(cq: nat, e: CompletionEvent) returns (error: Option<SimError>)
      requires Shape()
      modifies this
      ensures Shape() && runtime == old(runtime) && View() == Deliver(old(View()), cq, e)
      ensures error == if cq in old(cqs) then None else Some(NotFound(CompletionQueue))
    {
      if cq !in cqs {
        return Some(NotFound(CompletionQueue));
      }
      cqs := cqs[cq := cqs[cq].(events := cqs[cq].events + [e])];
      log := log + [Delivery(cq, e)];
      return None;
    }

    /** A completion goes to the queue its handle was bound to, else to whichever queue comes first. */
    method RouteCompletion(e: CompletionEvent) returns (error: Option<SimError>)
      requires Shape()
      modifies this
      ensures Shape() && runtime == old(runtime)
      ensures KeyOf(e) in old(routes) ==>
                (error == None <==> old(routes)[KeyOf(e)] in old(cqs)) && View() == RouteEvent(old(View()), e)
      ensures KeyOf(e) !in old(routes) && old(cqs) == map[] ==> error.Some? && View() == old(View())
      ensures KeyOf(e) !in old(routes) && old(cqs) != map[] ==>
                error == None && exists c :: c in old(cqs) && View() == Deliver(old(View()), c, e)
      ensures error.Some? ==> error == Some(NotFound(CompletionQueue))
    {
      var key := KeyOf(e);
      if key in routes {
        var cq := routes[key];
        routes := routes - {key};
        error := EnqueueToCq(cq, e);
      } else if cqs == map[] {
        error := Some(NotFound(CompletionQueue));
      } else {
        assert cqs.Keys != {};
        var cq :| cq in cqs.Keys;
        error := EnqueueToCq(cq, e);
      }
    }

    /**
     The undelivered completions of one service, oldest first: each finds its route, so the
     fallback never applies.
     */
    method RouteEvents(events: seq<CompletionEvent>, ghost src: CompletionSource) returns (error: Option<SimError>)
      requires Shape() && Wired(View()) && IsService(src)
      requires |Ids(log, src)| + |events| <= Given(View().services).Get(src)
      requires forall i :: 0 <= i < |events| ==> events[i].source == src && events[i].opId == |Ids(log, src)| + 1 + i
      modifies this
      ensures Shape() && runtime == old(runtime) && View() == RouteAll(old(View()), events) && error == None
    {
      ghost var s := View();
      error := None;
      var i := 0;
      while i < |events| && error == None
        invariant 0 <= i <= |events| && Shape() && runtime == old(runtime)
        invariant View() == RouteAll(s, events[..i]) && error == None
      {
        NextRoute(s, src, events, i);
        error := RouteCompletion(events[i]);
        i := i + 1;
      }
      assert events[..i] == events;
    }

    method TakeReady(stub: ServiceStub, ghost src: CompletionSource) returns (events: seq<CompletionEvent>)
      requires Shape() && Consecutive(stub.View()) && IsService(src) && stub == Stub(src)
      modifies stub
      ensures Shape() && View() == Emptied(old(View()), src) && events == Events(old(stub.completions))
    {
      events := stub.PollReady(U64_MAX);
      assert View().services == old(View()).services.Set(src, stub.View());
    }

    method DrainStub(stub: ServiceStub, ghost src: CompletionSource) returns (error: Option<SimError>)
      requires Valid() && IsService(src) && stub == Stub(src)
      modifies this, stub
      ensures Shape() && runtime == old(runtime)
      ensures View() == DrainService(old(View()), src) && error == None
    {
      RoutesReady(cfg, View(), src);
      var events := TakeReady(stub, src);
      error := RouteEvents(events, src);
    }

    method FlushServices() returns (error: Option<SimError>)
      requires Valid()
      modifies this, block, shmem, dfs, db
      ensures Valid() && runtime == old(runtime)
      ensures View() == SurfaceSpec.FlushServices(old(View())) && error == None
    {
      DrainServiceInv(cfg, View(), BlockService);
      error := DrainStub(block, BlockService);
      DrainServiceInv(cfg, View(), ShmemService);
      if error == None { error := DrainStub(shmem, ShmemService); }
      DrainServiceInv(cfg, View(), DfsService);
      if error == None { error := DrainStub(dfs, DfsService); }
      DrainServiceInv(cfg, View(), DbService);
      if error == None { error := DrainStub(db, DbService); }
    }

    ghost function Stub(src: CompletionSource): ServiceStub {
      match src case BlockService => block case ShmemService => shmem case DfsService => dfs case _ => db
    }

    /** Hand a descriptor to one service stub. */
    method Ask(stub: ServiceStub, d: Descriptor, ghost src: CompletionSource, now: nat) returns (handle: Option<nat>)
      requires Shape() && ServiceOf(d) == Some(src) && stub == Stub(src)
      modifies stub
      ensures Shape() && stub.depth == Depth(cfg, src)
      ensures handle == None <==> |old(stub.completions)| >= Depth(cfg, src)
      ensures handle == None ==> View() == old(View())
      ensures handle.Some? ==> handle.value == old(stub.nextOpId) + 1
      ensures handle.Some? ==>
                View() == old(View()).(services := old(View()).services.Set(src,
                    Accept(cfg.profile, old(stub.View()), d, now)))
    {
      handle := stub.Submit(d, now);
      assert View().services == old(View()).services.Set(src, stub.View());
    }

    method SubmitTo(stub: ServiceStub, d: Descriptor, src: CompletionSource, cq: nat, now: nat) returns (r: Submission)
      requires Shape() && ServiceOf(d) == Some(src) && stub == Stub(src) && now == clock
      modifies this, stub
      ensures Shape() && runtime == old(runtime)
      ensures View() == SubmitToService(cfg, old(View()), d, src, cq).0
      ensures r == SubmitToService(cfg, old(View()), d, src, cq).1
    {
      ghost var s := View();
      assert s.services.Get(src) == stub.View();
      var handle := Ask(stub, d, src, now);
      if handle == None {
        return Refused(QueueFull(src));
      }
      BindRoute(Route(src, handle.value), cq);
      assert View() == Bind(cfg, s, d, src, cq);
      return Accepted(handle.value);
    }

    method BindRoute(key: Route, cq: nat)
      requires Shape()
      modifies this
      ensures Shape() && runtime == old(runtime)
      ensures View() == old(View()).(routes := old(routes)[key := cq], origin := old(origin)[key := cq])
    {
      routes := routes[key := cq];
      origin := origin[key := cq];
    }

    method SubmitDescriptor(d: Descriptor, cq: nat) returns (r: Submission)
      requires Shape()
      modifies this, block, shmem, dfs, db
      ensures Shape() && runtime == old(runtime)
      ensures View() == SurfaceSpec.Submit(cfg, old(View()), d, cq).0
      ensures r == SurfaceSpec.Submit(cfg, old(View()), d, cq).1
    {
      var target := ServiceOf(d);
      if target.Some? {
        var now := NextServiceTime();
        if target.value == BlockService {
          r := SubmitTo(block, d, BlockService, cq, now);
        } else if target.value == ShmemService {
          r := SubmitTo(shmem, d, ShmemService, cq, now);
        } else if target.value == DfsService {
          r := SubmitTo(dfs, d, DfsService, cq, now);
        } else {
          r := SubmitTo(db, d, DbService, cq, now);
        }
      } else if d.opcode.ReadBlock? || d.opcode.WriteBlock? {
        r := Refused(MissingBlockHash);
      } else if d.opcode.Dispatch? {
        r := CompleteAtOnce(d, cq, clock);
      } else {
        var now := NextServiceTime();
        r := CompleteAtOnce(d, cq, now);
      }
    }

    method CompleteAtOnce(d: Descriptor, cq: nat, now: nat) returns (r: Submission)
      requires Shape() && d.Io? && now == clock
      modifies this
      ensures Shape() && runtime == old(runtime)
      ensures View() == SubmitAtOnce(old(View()), d, cq).0 && r == SubmitAtOnce(old(View()), d, cq).1
    {
      var error := EnqueueToCq(cq, ImmediateEvent(d, now));
      r := if error == None then Accepted(d.opId) else Refused(NoCompletionQueue);
    }

    /** One staged entry: submit it; drain the services when one is full, and retry while the budget lasts. */
    method DriveEntry(taken: RuntimeQueue<Work>, entry: Entry) returns (failed: Option<Failure>)
      requires Valid() && taken != runtime && entry.payload.cq in cqs
      requires taken.maxRetries == cfg.maxRetries && taken.retryDelay == cfg.retryDelay
      modifies this, block, shmem, dfs, db, taken
      ensures Shape() && runtime == old(runtime)
      ensures var p := DriveOne(cfg, Pass(old(View()), old(taken.pending), []), entry);
        View() == p.s && taken.pending == p.kept && p.failures == (if failed.Some? then [failed.value] else [])
    {
      SubmitInv(cfg, View(), entry.payload.desc, entry.payload.cq);
      var result := SubmitDescriptor(entry.payload.desc, entry.payload.cq);
      if result.Accepted? {
        return None;
      }
      if result.why.QueueFull? {
        var _ := FlushServices();
        var kept := taken.Retry(entry, U64_MAX);
        if kept {
          return None;
        }
      }
      return Some(Failure(entry.payload.cq, result.why));
    }

    /** One more entry of a pass, with the failures collected so far. */
    method DriveNext(taken: RuntimeQueue<Work>, entry: Entry, before: seq<Failure>) returns (failures: seq<Failure>)
      requires Valid() && taken != runtime && entry.payload.cq in cqs
      requires taken.maxRetries == cfg.maxRetries && taken.retryDelay == cfg.retryDelay
      modifies this, block, shmem, dfs, db, taken
      ensures Shape() && runtime == old(runtime)
      ensures Pass(View(), taken.pending, failures) == DriveOne(cfg, Pass(old(View()), old(taken.pending), before),
          entry)
    {
      DriveFrame(cfg, View(), taken.pending, before, entry);
      var failed := DriveEntry(taken, entry);
      failures := if failed.Some? then before + [failed.value] else before;
    }

    method DriveReady(taken: RuntimeQueue<Work>, ready: seq<Entry>) returns (failures: seq<Failure>)
      requires Valid() && taken != runtime && runtime.pending == [] && taken.pending == []
      requires taken.maxRetries == cfg.maxRetries && taken.retryDelay == cfg.retryDelay
      requires WorkLive(ready, cqs.Keys)
      modifies this, block, shmem, dfs, db, taken
      ensures Shape() && runtime == old(runtime)
      ensures Pass(View(), taken.pending, failures) == Drive(cfg, Pass(old(View()), [], []), ready)
    {
      ghost var p0 := Pass(View(), [], []);
      failures := [];
      var i := 0;
      while i < |ready|
        invariant 0 <= i <= |ready| && Shape() && runtime == old(runtime)
        invariant Pass(View(), taken.pending, failures) == Drive(cfg, p0, ready[..i])
      {
        DriveInv(cfg, p0, ready[..i]);
        DriveStep(cfg, p0, ready, i);
        failures := DriveNext(taken, ready[i], failures);
        i := i + 1;
      }
      assert ready[..i] == ready;
    }

    method ReportFailure(f: Failure) returns (error: Option<SimError>)
      requires Shape()
      modifies this
      ensures Shape() && runtime == old(runtime) && View() == ReportOne(old(View()), f) && cqs.Keys == old(cqs).Keys
      ensures error == if f.cq in old(cqs) then None else Some(NotFound(CompletionQueue))
    {
      var opId := NextServiceTime();
      error := EnqueueToCq(f.cq, FailureEvent(f, opId));
    }

    /** Reports each failure to its queue; the first whose queue is missing ends the flush with an error. */
    method ReportFailures(failures: seq<Failure>) returns (error: Option<SimError>)
      requires Shape()
      modifies this
      ensures Shape() && runtime == old(runtime)
      ensures error == if Reportable(failures, old(cqs).Keys) then None else Some(NotFound(CompletionQueue))
      ensures error == None ==> View() == Report(old(View()), failures)
    {
      ghost var s := View();
      error := None;
      var i := 0;
      while i < |failures| && error == None
        invariant 0 <= i <= |failures| && Shape() && runtime == old(runtime) && cqs.Keys == old(cqs).Keys
        invariant error == if Reportable(failures[..i], old(cqs).Keys) then None else Some(NotFound(CompletionQueue))
        invariant error == None ==> View() == Report(s, failures[..i])
      {
        LiveStep(failures, i, cqs.Keys);
        error := ReportFailure(failures[i]);
        i := i + 1;
      }
      assert failures[..|failures|] == failures;
      if error.Some? { LivePrefix(failures, i, old(cqs).Keys); }
    }

    /** One pass: take the queue out, submit every entry, put the retried ones back, report the failures. */
    method RunPass() returns (force: bool, error: Option<SimError>)
      requires Valid()
      modifies this, block, shmem, dfs, db, runtime
      ensures Shape() && runtime == old(runtime) && force && error == None
      ensures View() == AfterPass(FirstPass(cfg, old(View())))
    {
      ghost var s := View();
      var taken := runtime;
      runtime := new RuntimeQueue<Work>(cfg.issueLatency, cfg.retryDelay, cfg.runtimeDepth, cfg.maxRetries);
      var ready;
      ready, force := taken.DrainReady(U64_MAX);
      assert View() == s.(runtime := []) && ready == s.runtime;
      WithoutRuntimeInv(cfg, s);
      var failures := DriveReady(taken, ready);
      PassInv(cfg, s);
      runtime := taken;
      error := ReportFailures(failures);
    }

    /** flush_runtime(u64::MAX): passes over the staged entries until none is left; it never ends with an error. */
    method FlushRuntime() returns (error: Option<SimError>)
      requires Valid()
      modifies this, block, shmem, dfs, db, runtime
      ensures Valid() && runtime == old(runtime)
      ensures View() == Flush(cfg, old(View())) && error == None
      decreases Budget(cfg, runtime.pending)
    {
      ghost var s := View();
      PassInv(cfg, s);
      var force;
      force, error := RunPass();
      if error == None && force && runtime.pending != [] {
        PassShrinks(cfg, s);
        error := FlushRuntime();
      }
    }

    // ----- Commands ----------------------------------------------------------------------

    method RegisterCq(owner: nat) returns (r: Response)
      requires Shape()
      modifies this
      ensures Shape() && runtime == old(runtime)
      ensures View() == NewCq(old(View()), owner).0 && r == NewCq(old(View()), owner).1
    {
      nextCq := nextCq + 1;
      cqs := cqs[nextCq := Cq(owner, [])];
      r := CqRegistered(nextCq);
    }

    method CreateCmdQueue(cq: nat, owner: nat, depth: nat) returns (r: Response)
      requires Shape()
      modifies this
      ensures Shape() && runtime == old(runtime)
      ensures View() == NewCmdQueue(old(View()), cq, owner, depth).0
      ensures r == NewCmdQueue(old(View()), cq, owner, depth).1
    {
      if depth == 0 {
        return Failed(InvalidInput(CommandQueueDepthZero));
      }
      if cq !in cqs {
        return Failed(NotFound(CompletionQueue));
      }
      if cqs[cq].owner != owner {
        return Failed(InvalidInput(CommandQueueOwnerMismatch));
      }
      nextCmdq := nextCmdq + 1;
      cmdqs := cmdqs[nextCmdq := CmdQueue(cq, owner, depth, [])];
      r := CmdQueueCreated(nextCmdq);
    }

    method CreateSegment(bytes: nat) returns (r: Response)
      requires Shape()
      modifies this, shmem
      ensures Shape() && runtime == old(runtime)
      ensures View() == NewSegment(cfg, old(View()), bytes).0 && r == NewSegment(cfg, old(View()), bytes).1
    {
      if bytes == 0 {
        return Failed(InvalidInput(SegmentBytesZero));
      }
      nextSegment := nextSegment + 1;
      var t := shmem.table.segments;
      if bytes > cfg.profile.maxSegmentBytes {
        return Failed(InvalidInput(SegmentTooLarge));
      }
      if nextSegment !in t && |t| >= cfg.profile.maxSegments {
        return Failed(InvalidInput(SegmentTableFull));
      }
      shmem.table := Segments(t[nextSegment := SegmentMeta(0, bytes)]);
      r := SegmentCreated(nextSegment);
    }

    method EnqueueCmd(cmdq: nat, owner: nat, d: Descriptor) returns (r: Response)
      requires Shape()
      modifies this
      ensures Shape() && runtime == old(runtime)
      ensures View() == Enqueue(old(View()), cmdq, owner, d).0 && r == Enqueue(old(View()), cmdq, owner, d).1
    {
      if cmdq !in cmdqs {
        return Failed(NotFound(CommandQueue));
      }
      var q := cmdqs[cmdq];
      if q.owner != owner {
        return Failed(InvalidInput(CommandQueueOwnerMismatch));
      }
      if |q.pending| >= q.depth {
        return Failed(InvalidInput(CommandQueueFull));
      }
      q := q.(pending := q.pending + [d]);
      cmdqs := cmdqs[cmdq := q];
      r := CommandEnqueued(|q.pending|, q.depth - |q.pending|);
    }

    /** Pops a batch of descriptors off the front of a command queue. */
    method PopBatch(cmdq: nat, batch: nat) returns (staged: seq<Descriptor>)
      requires Shape() && cmdq in cmdqs && batch <= |cmdqs[cmdq].pending|
      modifies this
      ensures Shape() && runtime == old(runtime)
      ensures View() == Popped(old(View()), cmdq, batch) && staged == old(cmdqs)[cmdq].pending[..batch]
    {
      ghost var s := View();
      ghost var all := cmdqs[cmdq].pending;
      staged := [];
      assert all[0..] == all;
      for i := 0 to batch
        invariant Shape() && runtime == old(runtime)
        invariant View() == Popped(s, cmdq, i)
        invariant staged == all[..i]
      {
        var q := cmdqs[cmdq];
        assert q.pending == all[i..];
        staged := staged + [q.pending[0]];
        cmdqs := cmdqs[cmdq := q.(pending := q.pending[1..])];
        assert all[i..][1..] == all[i + 1..];
      }
    }

    /** Moves descriptors into the runtime queue one by one; stops with an error at the first that does not fit. */
    method StageAll(cq: nat, descs: seq<Descriptor>) returns (ok: bool)
      requires Shape() && |runtime.pending| <= cfg.runtimeDepth
      modifies this, runtime
      ensures Shape() && runtime == old(runtime)
      ensures var s, free := old(View()), Free(cfg, old(View()));
        && ok == (|descs| <= free)
        && View() == if ok then Stage(cfg, s, cq, descs) else Ticked(Stage(cfg, s, cq, descs[..free]))
    {
      ghost var s := View();
      ghost var free := Free(cfg, s);
      var i := 0;
      while i < |descs|
        invariant 0 <= i <= |descs| && i <= free && Shape() && runtime == old(runtime)
        invariant View() == Stage(cfg, s, cq, descs[..i])
        invariant |runtime.pending| == |s.runtime| + i
      {
        var now := NextServiceTime();
        var r := runtime.Enqueue(Work(cq, descs[i]), now);
        if r.Err? {
          assert descs[..i] == descs[..free];
          return false;
        }
        assert descs[..i + 1][..i] == descs[..i];
        i := i + 1;
      }
      assert descs[..i] == descs;
      return true;
    }

    method RingFor(cmdq: nat, batch: nat) returns (r: Response)
      requires Shape() && |runtime.pending| <= cfg.runtimeDepth
      requires cmdq in cmdqs && batch <= |cmdqs[cmdq].pending|
      modifies this, runtime
      ensures Shape() && runtime == old(runtime)
      ensures View() == RingBatch(cfg, old(View()), cmdq, batch).0
      ensures r == RingBatch(cfg, old(View()), cmdq, batch).1
    {
      var q := cmdqs[cmdq];
      var staged := PopBatch(cmdq, batch);
      ghost var free := Free(cfg, View());
      assert batch > free ==> staged[..free] == q.pending[..free];
      var ok := StageAll(q.cq, staged);
      r := if ok then DoorbellRung(|staged|, |q.pending| - batch) else Failed(InvalidInput(UapiRuntimeQueueFull));
    }

    method RingDoorbell(cmdq: nat, owner: nat, maxBatch: Option<nat>) returns (r: Response)
      requires Shape() && |runtime.pending| <= cfg.runtimeDepth
      modifies this, runtime
      ensures Shape() && runtime == old(runtime)
      ensures View() == Ring(cfg, old(View()), cmdq, owner, maxBatch).0
      ensures r == Ring(cfg, old(View()), cmdq, owner, maxBatch).1
    {
      if cmdq !in cmdqs {
        return Failed(NotFound(CommandQueue));
      }
      if cmdqs[cmdq].owner != owner {
        return Failed(InvalidInput(CommandQueueOwnerMismatch));
      }
      r := RingFor(cmdq, Limit(maxBatch, |cmdqs[cmdq].pending|));
    }

    /** Direct submission: the completion goes to whichever completion queue comes first. */
    method SubmitDirect(d: Descriptor) returns (r: Response, ghost pick: nat)
      requires Shape()
      modifies this, block, shmem, dfs, db
      ensures Shape() && runtime == old(runtime)
      ensures old(cqs) != map[] ==> pick in old(cqs)
      ensures View() == Direct(cfg, old(View()), d, pick).0 && r == Direct(cfg, old(View()), d, pick).1
    {
      pick := 0;
      if cqs == map[] {
          return Failed(NotFound(CompletionQueue)), pick;
      }
      assert cqs.Keys != {};
      var cq :| cq in cqs.Keys;
      pick := cq;
      var result := SubmitDescriptor(d, cq);
      match result {
        case Accepted(id) => r := Submitted(id);
        case Refused(NoCompletionQueue) => r := Failed(NotFound(CompletionQueue));
        case Refused(MissingBlockHash) => r := Failed(InvalidInput(MissingBlock));
        case Refused(QueueFull(src)) => r := Failed(InvalidInput(ServiceQueueFull(src)));
      }
    }

    /** Pops up to n events off the front of a completion queue. */
    method TakeEvents(cq: nat, n: nat) returns (events: seq<CompletionEvent>)
      requires Shape() && cq in cqs && n <= |cqs[cq].events|
      modifies this
      ensures Shape() && runtime == old(runtime)
      ensures View() == Taken(old(View()), cq, n) && events == old(cqs)[cq].events[..n]
    {
      ghost var s := View();
      ghost var all := cqs[cq].events;
      events := [];
      assert all[0..] == all;
      for i := 0 to n
        invariant Shape() && runtime == old(runtime)
        invariant View() == Taken(s, cq, i)
        invariant events == all[..i]
      {
        var q := cqs[cq];
        assert q.events == all[i..];
        events := events + [q.events[0]];
        cqs := cqs[cq := q.(events := q.events[1..])];
        assert all[i..][1..] == all[i + 1..];
      }
    }

    method PopCq(cq: nat, owner: nat, maxEntries: Option<nat>) returns (r: Response)
      requires Shape()
      modifies this
      ensures Shape() && runtime == old(runtime)
      ensures View() == Pop(old(View()), cq, owner, maxEntries).0 && r == Pop(old(View()), cq, owner, maxEntries).1
    {
      if cq !in cqs {
        return Failed(NotFound(CompletionQueue));
      }
      if cqs[cq].owner != owner {
        return Failed(InvalidInput(CompletionQueueOwnerMismatch));
      }
      var limit := Limit(maxEntries, |cqs[cq].events|);
      var events := TakeEvents(cq, limit);
      r := Completions(events, |cqs[cq].events|);
    }

    /** The two flushes of a poll; neither ever ends with an error. */
    method Settle() returns (error: Option<SimError>)
      requires Valid()
      modifies this, block, shmem, dfs, db, runtime
      ensures Valid() && runtime == old(runtime) && View() == Settled(cfg, old(View())) && error == None
    {
      error := FlushRuntime();
      if error == None {
        error := FlushServices();
      }
    }

    method PollCq(cq: nat, owner: nat, maxEntries: Option<nat>) returns (r: Response)
      requires Valid()
      modifies this, block, shmem, dfs, db, runtime
      ensures Shape() && runtime == old(runtime)
      ensures View() == Poll(cfg, old(View()), cq, owner, maxEntries).0
      ensures r == Poll(cfg, old(View()), cq, owner, maxEntries).1
    {
      var error := Settle();
      r := Failed(ErrorOr(error, NotFound(CompletionQueue)));
      if error == None {
        r := PopCq(cq, owner, maxEntries);
      }
    }

    method Perform(cmd: Command) returns (r: Response, ghost pick: nat)
      requires Valid() && |runtime.pending| <= cfg.runtimeDepth
      modifies this, block, shmem, dfs, db, runtime
      ensures Shape() && runtime == old(runtime)
      ensures (View(), r) == Execute(cfg, old(View()), WithPick(cmd, pick))
    {
      pick := 0;
      match cmd {
        case CreateSegment(bytes) => r := CreateSegment(bytes);
        case RegisterCq(owner) => r := RegisterCq(owner);
        case CreateCmdQueue(cq, owner, depth) => r := CreateCmdQueue(cq, owner, depth);
        case EnqueueCmd(cmdq, owner, d) => r := EnqueueCmd(cmdq, owner, d);
        case RingDoorbell(cmdq, owner, maxBatch) => r := RingDoorbell(cmdq, owner, maxBatch);
        case SubmitDirect(d, _) => r, pick := SubmitDirect(d);
        case PollCq(cq, owner, max) => r := PollCq(cq, owner, max);
      }
    }

    /** execute: every command keeps the invariant and does exactly what its specification says. */
    method Run(cmd: Command) returns (r: Response, ghost pick: nat)
      requires Shape() && Idle(cfg, View())
      modifies this, block, shmem, dfs, db, runtime
      ensures Shape() && runtime == old(runtime)
      ensures (View(), r) == Execute(cfg, old(View()), WithPick(cmd, pick))
      ensures Idle(cfg, View())
    {
      ghost var s := View();
      r, pick := Perform(cmd);
      StepIdle(cfg, s, WithPick(cmd, pick));
      assert View() == Execute(cfg, s, WithPick(cmd, pick)).0;
    }
  }
}
