/**
 Laws about completions that hold over every run of the surface: if the events made from good
 descriptors satisfy a law, then so does everything that is ever queued or polled.
 */
module EventLaws {
  import opened SimCore
  import opened Services
  import opened RuntimeQueue
  import opened SurfaceSpec

  /** A property of completions, of the descriptors they come from, and a bound on clocks and handles. */
  datatype Law = Law(ok: CompletionEvent -> bool, good: Descriptor -> bool, limit: Option<nat>)

  predicate Below(law: Law, n: nat) { law.limit.Some? ==> n < law.limit.value }

  predicate Counters(law: Law, s: State) {
    && Below(law, s.clock) && Below(law, s.services.block.nextOpId) && Below(law, s.services.shmem.nextOpId)
    && Below(law, s.services.dfs.nextOpId) && Below(law, s.services.db.nextOpId)
  }

  /** The completion a service queues for an accepted descriptor. */
  function ServiceEvent(p: Profile, t: Table, d: Descriptor, id: nat, at: nat): CompletionEvent
    requires ServiceOf(d) == Some(SourceOf(t))
  {
    CompletionEvent(id, d.task, SourceOf(t), Respond(p, t, d).status, at)
  }

  /** Every way of making a completion satisfies the law. */
  ghost predicate Lawful(law: Law) {
    && (forall p, t, d, id: nat, at: nat ::
          ServiceOf(d) == Some(SourceOf(t)) && law.good(d) && Below(law, id) && at <= U64_MAX ==>
          law.ok(ServiceEvent(p, t, d, id, at)))
    && (forall d: Descriptor, now: nat :: d.Io? && law.good(d) && Below(law, now) ==> law.ok(ImmediateEvent(d, now)))
    && (forall f: Failure, id: nat :: Below(law, id) ==> law.ok(FailureEvent(f, id)))
  }

  ghost predicate EventsOk(law: Law, events: seq<CompletionEvent>) { forall e :: e in events ==> law.ok(e) }

  ghost predicate QueueOk(law: Law, q: seq<QueuedCompletion>) { forall c :: c in q ==> law.ok(c.event) }

  ghost predicate CqsOk(law: Law, cqs: map<nat, Cq>) { forall c :: c in cqs ==> EventsOk(law, cqs[c].events) }

  ghost predicate ServicesOk(law: Law, ss: ServiceSet) {
    && QueueOk(law, ss.block.completions) && QueueOk(law, ss.shmem.completions)
    && QueueOk(law, ss.dfs.completions) && QueueOk(law, ss.db.completions)
  }

  /** While the counters are below the limit, everything waiting satisfies the law. */
  ghost predicate Obeys(law: Law, s: State) {
    Counters(law, s) ==> CqsOk(law, s.cqs) && ServicesOk(law, s.services)
  }

  ghost predicate WorkGood(law: Law, work: seq<Entry>) { forall r :: r in work ==> law.good(r.payload.desc) }

  ghost predicate CmdqsGood(law: Law, cmdqs: map<nat, CmdQueue>) {
    forall q :: q in cmdqs ==> forall d :: d in cmdqs[q].pending ==> law.good(d)
  }

  /** Counters only grow, so being below the limit now means having been below it before. */
  predicate Grows(s: State, s': State) {
    && s.clock <= s'.clock && s.services.block.nextOpId <= s'.services.block.nextOpId
    && s.services.shmem.nextOpId <= s'.services.shmem.nextOpId
    && s.services.dfs.nextOpId <= s'.services.dfs.nextOpId && s.services.db.nextOpId <= s'.services.db.nextOpId
  }

  lemma CountersBefore(law: Law, s: State, s': State)
    requires Grows(s, s') && Counters(law, s')
    ensures Counters(law, s)
  {
  }

  // ----- Deliveries and submissions --------------------------------------------------------

  lemma DeliverObeys(law: Law, s: State, cq: nat, e: CompletionEvent)
    requires Obeys(law, s) && (Counters(law, s) ==> law.ok(e))
    ensures Obeys(law, Deliver(s, cq, e)) && Grows(s, Deliver(s, cq, e))
  {
    if Counters(law, s) && cq in s.cqs { CqsAppend(law, s.cqs, cq, e); }
  }

  lemma CqsAppend(law: Law, cqs: map<nat, Cq>, cq: nat, e: CompletionEvent)
    requires CqsOk(law, cqs) && cq in cqs && law.ok(e)
    ensures CqsOk(law, cqs[cq := cqs[cq].(events := cqs[cq].events + [e])])
  {
    assert EventsOk(law, cqs[cq].events + [e]);
  }

  lemma AcceptOk(law: Law, p: Profile, sv: ServiceState, d: Descriptor, now: nat)
    requires Lawful(law) && law.good(d) && ServiceOf(d) == Some(SourceOf(sv.table)) && Below(law, sv.nextOpId + 1)
    requires QueueOk(law, sv.completions)
    ensures QueueOk(law, Accept(p, sv, d, now).completions)
  {
    var at := AddTime(now, Respond(p, sv.table, d).latency);
    assert law.ok(ServiceEvent(p, sv.table, d, sv.nextOpId + 1, at));
  }

  lemma SetGrows(law: Law, s: State, s': State, src: CompletionSource, sv: ServiceState)
    requires SourceOf(sv.table) == src == SourceOf(s.services.Get(src).table)
    requires sv.nextOpId == s.services.Get(src).nextOpId + 1
    requires s'.services == s.services.Set(src, sv) && s'.clock == s.clock
    ensures Grows(s, s') && (Counters(law, s') ==> Below(law, sv.nextOpId))
  {
  }

  lemma BoundObeys(law: Law, cfg: Config, s: State, d: Descriptor, src: CompletionSource, cq: nat)
    requires Lawful(law) && Obeys(law, s) && law.good(d) && ServiceOf(d) == Some(src)
    ensures var s' := SubmitToService(cfg, s, d, src, cq).0; Obeys(law, s') && Grows(s, s')
  {
    var s' := SubmitToService(cfg, s, d, src, cq).0;
    if |s.services.Get(src).completions| < Depth(cfg, src) {
      var sv := Accept(cfg.profile, s.services.Get(src), d, s.clock);
      SetGrows(law, s, s', src, sv);
      if Counters(law, s') {
        CountersBefore(law, s, s');
        SetOk(law, s.services, src, sv, cfg.profile, d, s.clock);
      }
    }
  }

  lemma SetOk(law: Law, ss: ServiceSet, src: CompletionSource, sv: ServiceState, p: Profile, d: Descriptor, now: nat)
    requires Lawful(law) && law.good(d) && ServiceOf(d) == Some(src) && ServicesOk(law, ss)
    requires sv == Accept(p, ss.Get(src), d, now) && Below(law, sv.nextOpId)
    ensures ServicesOk(law, ss.Set(src, sv))
  {
    AcceptOk(law, p, ss.Get(src), d, now);
  }

  lemma AtOnceObeys(law: Law, s: State, d: Descriptor, cq: nat)
    requires Lawful(law) && Obeys(law, s) && law.good(d) && d.Io?
    ensures var s' := SubmitAtOnce(s, d, cq).0; Obeys(law, s') && Grows(s, s')
  {
    if Counters(law, s) { assert law.ok(ImmediateEvent(d, s.clock)); }
    DeliverObeys(law, s, cq, ImmediateEvent(d, s.clock));
  }

  lemma TickObeys(law: Law, s: State)
    requires Obeys(law, s)
    ensures Obeys(law, Ticked(s)) && Grows(s, Ticked(s))
  {
  }

  lemma SubmitObeys(law: Law, cfg: Config, s: State, d: Descriptor, cq: nat)
    requires Lawful(law) && Obeys(law, s) && law.good(d)
    ensures var s' := Submit(cfg, s, d, cq).0; Obeys(law, s') && Grows(s, s')
  {
    TickObeys(law, s);
    if ServiceOf(d).Some? {
      BoundObeys(law, cfg, Ticked(s), d, ServiceOf(d).value, cq);
    } else {
      AtOnceObeys(law, s, d, cq);
      AtOnceObeys(law, Ticked(s), d, cq);
    }
  }

  // ----- Draining the services ---------------------------------------------------------------

  predicate SameCounters(s: State, s': State) { Grows(s, s') && Grows(s', s) }

  lemma {:induction false} RouteAllObeys(law: Law, s: State, events: seq<CompletionEvent>)
    requires Obeys(law, s) && (Counters(law, s) ==> EventsOk(law, events))
    ensures Obeys(law, RouteAll(s, events)) && SameCounters(s, RouteAll(s, events))
  {
    if events != [] {
      var s1, e := RouteAll(s, events[..|events| - 1]), events[|events| - 1];
      RouteAllObeys(law, s, events[..|events| - 1]);
      if KeyOf(e) in s1.routes {
        DeliverObeys(law, s1.(routes := s1.routes - {KeyOf(e)}), s1.routes[KeyOf(e)], e);
      }
    }
  }

  lemma EmptiedObeys(law: Law, s: State, src: CompletionSource)
    requires Obeys(law, s)
    ensures Obeys(law, Emptied(s, src)) && SameCounters(s, Emptied(s, src))
    ensures Counters(law, s) ==> EventsOk(law, Events(s.services.Get(src).completions))
  {
  }

  lemma DrainObeys(law: Law, s: State, src: CompletionSource)
    requires Obeys(law, s) && IsService(src)
    ensures Obeys(law, DrainService(s, src)) && SameCounters(s, DrainService(s, src))
  {
    EmptiedObeys(law, s, src);
    RouteAllObeys(law, Emptied(s, src), Events(s.services.Get(src).completions));
  }

  lemma FlushServicesObeys(law: Law, s: State)
    requires Obeys(law, s)
    ensures Obeys(law, FlushServices(s)) && SameCounters(s, FlushServices(s))
  {
    var s1 := DrainService(s, BlockService);
    var s2 := DrainService(s1, ShmemService);
    var s3 := DrainService(s2, DfsService);
    DrainObeys(law, s, BlockService);
    DrainObeys(law, s1, ShmemService);
    DrainObeys(law, s2, DfsService);
    DrainObeys(law, s3, DbService);
  }

  // ----- Flushing the runtime queue ----------------------------------------------------------

  lemma DriveOneObeys(law: Law, cfg: Config, p: Pass, r: Entry)
    requires Lawful(law) && Obeys(law, p.s) && WorkGood(law, p.kept) && law.good(r.payload.desc)
    ensures var p' := DriveOne(cfg, p, r); Obeys(law, p'.s) && Grows(p.s, p'.s) && WorkGood(law, p'.kept)
  {
    var (s', result) := Submit(cfg, p.s, r.payload.desc, r.payload.cq);
    SubmitObeys(law, cfg, p.s, r.payload.desc, r.payload.cq);
    FlushServicesObeys(law, s');
    var kept := DriveOne(cfg, p, r).kept;
    assert kept == p.kept || kept == p.kept + [Retried(r, U64_MAX, cfg.retryDelay)];
  }

  lemma {:induction false} DriveObeys(law: Law, cfg: Config, p: Pass, ready: seq<Entry>)
    requires Lawful(law) && Obeys(law, p.s) && WorkGood(law, p.kept) && WorkGood(law, ready)
    ensures var p' := Drive(cfg, p, ready); Obeys(law, p'.s) && Grows(p.s, p'.s) && WorkGood(law, p'.kept)
  {
    if ready != [] {
      DriveObeys(law, cfg, p, ready[..|ready| - 1]);
      DriveOneObeys(law, cfg, Drive(cfg, p, ready[..|ready| - 1]), ready[|ready| - 1]);
    }
  }

  lemma ReportOneObeys(law: Law, s: State, f: Failure)
    requires Lawful(law) && Obeys(law, s)
    ensures Obeys(law, ReportOne(s, f)) && Grows(s, ReportOne(s, f))
  {
    TickObeys(law, s);
    if Counters(law, Ticked(s)) { assert law.ok(FailureEvent(f, s.clock + 1)); }
    DeliverObeys(law, Ticked(s), f.cq, FailureEvent(f, s.clock + 1));
  }

  lemma {:induction false} ReportObeys(law: Law, s: State, failures: seq<Failure>)
    requires Lawful(law) && Obeys(law, s)
    ensures Obeys(law, Report(s, failures)) && Grows(s, Report(s, failures))
  {
    if failures != [] {
      ReportObeys(law, s, failures[..|failures| - 1]);
      ReportOneObeys(law, Report(s, failures[..|failures| - 1]), failures[|failures| - 1]);
    }
  }

  lemma PassObeys(law: Law, cfg: Config, s: State)
    requires Lawful(law) && Obeys(law, s) && WorkGood(law, s.runtime)
    ensures var s' := AfterPass(FirstPass(cfg, s)); Obeys(law, s') && Grows(s, s') && WorkGood(law, s'.runtime)
  {
    var p := FirstPass(cfg, s);
    DriveObeys(law, cfg, Pass(s.(runtime := []), [], []), s.runtime);
    ReportObeys(law, p.s.(runtime := p.kept), p.failures);
    ReportKeeps(p.s.(runtime := p.kept), p.failures);
  }

  lemma {:induction false} FlushObeys(law: Law, cfg: Config, s: State)
    requires Lawful(law) && Obeys(law, s) && WorkGood(law, s.runtime)
    ensures Obeys(law, Flush(cfg, s)) && Grows(s, Flush(cfg, s))
    decreases Budget(cfg, s.runtime)
  {
    if s.runtime != [] {
      PassObeys(law, cfg, s);
      PassShrinks(cfg, s);
      FlushObeys(law, cfg, AfterPass(FirstPass(cfg, s)));
    }
  }

  lemma SettledObeys(law: Law, cfg: Config, s: State)
    requires Lawful(law) && Obeys(law, s) && WorkGood(law, s.runtime)
    ensures Obeys(law, Settled(cfg, s)) && Grows(s, Settled(cfg, s))
  {
    FlushObeys(law, cfg, s);
    FlushServicesObeys(law, Flush(cfg, s));
  }

  // ----- Over every run ------------------------------------------------------------------------

  /** Every descriptor a command brings in is good. */
  predicate CommandGood(law: Law, cmd: Command) {
    (cmd.EnqueueCmd? ==> law.good(cmd.desc)) && (cmd.SubmitDirect? ==> law.good(cmd.desc))
  }

  ghost predicate CommandsGood(law: Law, cmds: seq<Command>) { forall c :: c in cmds ==> CommandGood(law, c) }

  /** The invariant of a run of good commands. */
  ghost predicate Ruled(law: Law, s: State) { Obeys(law, s) && WorkGood(law, s.runtime) && CmdqsGood(law, s.cmdqs) }

  lemma PopOk(law: Law, s: State, cq: nat, owner: nat, max: Option<nat>)
    requires Obeys(law, s)
    ensures var (s', r) := Pop(s, cq, owner, max);
      Obeys(law, s') && SameCounters(s, s') && (r.Completions? && Counters(law, s) ==> EventsOk(law, r.events))
  {
    if cq in s.cqs && Counters(law, s) {
      assert EventsOk(law, s.cqs[cq].events);
    }
  }

  lemma PollObeys(law: Law, cfg: Config, s: State, cq: nat, owner: nat, max: Option<nat>)
    requires Lawful(law) && Obeys(law, s) && WorkGood(law, s.runtime)
    ensures var (s', r) := Poll(cfg, s, cq, owner, max);
      Obeys(law, s') && Grows(s, s') && (r.Completions? && Counters(law, s') ==> EventsOk(law, r.events))
  {
    SettledObeys(law, cfg, s);
    PopOk(law, Settled(cfg, s), cq, owner, max);
    if Counters(law, Poll(cfg, s, cq, owner, max).0) {
      CountersBefore(law, Settled(cfg, s), Poll(cfg, s, cq, owner, max).0);
    }
  }

  // ----- What a poll leaves alone --------------------------------------------------------------

  ghost predicate SameOwners(cqs: map<nat, Cq>, cqs': map<nat, Cq>) {
    cqs'.Keys == cqs.Keys && forall c :: c in cqs ==> cqs'[c].owner == cqs[c].owner
  }

  /** Command queues, the staged work and who owns which completion queue. */
  ghost predicate SameFrame(s: State, s': State) {
    s'.cmdqs == s.cmdqs && s'.runtime == s.runtime && SameOwners(s.cqs, s'.cqs)
  }

  lemma DeliverFrame(s: State, cq: nat, e: CompletionEvent)
    ensures SameFrame(s, Deliver(s, cq, e))
  {
  }

  lemma {:induction false} RouteAllFrame(s: State, events: seq<CompletionEvent>)
    ensures SameFrame(s, RouteAll(s, events))
  {
    if events != [] {
      var s1, e := RouteAll(s, events[..|events| - 1]), events[|events| - 1];
      RouteAllFrame(s, events[..|events| - 1]);
      if KeyOf(e) in s1.routes {
        DeliverFrame(s1.(routes := s1.routes - {KeyOf(e)}), s1.routes[KeyOf(e)], e);
      }
    }
  }

  lemma FlushServicesFrame(s: State)
    ensures SameFrame(s, FlushServices(s))
  {
    var s1 := DrainService(s, BlockService);
    var s2 := DrainService(s1, ShmemService);
    var s3 := DrainService(s2, DfsService);
    RouteAllFrame(Emptied(s, BlockService), Events(s.services.Get(BlockService).completions));
    RouteAllFrame(Emptied(s1, ShmemService), Events(s1.services.Get(ShmemService).completions));
    RouteAllFrame(Emptied(s2, DfsService), Events(s2.services.Get(DfsService).completions));
    RouteAllFrame(Emptied(s3, DbService), Events(s3.services.Get(DbService).completions));
  }

  lemma AtOnceFrame(s: State, d: Descriptor, cq: nat)
    requires d.Io?
    ensures SameFrame(s, SubmitAtOnce(s, d, cq).0)
  {
    DeliverFrame(s, cq, ImmediateEvent(d, s.clock));
  }

  lemma SubmitFrame(cfg: Config, s: State, d: Descriptor, cq: nat)
    ensures SameFrame(s, Submit(cfg, s, d, cq).0)
  {
    if ServiceOf(d).Some? {
      BoundFrame(cfg, Ticked(s), d, ServiceOf(d).value, cq);
    } else {
      AtOnceFrame(s, d, cq);
      AtOnceFrame(Ticked(s), d, cq);
    }
  }

  lemma BoundFrame(cfg: Config, s: State, d: Descriptor, src: CompletionSource, cq: nat)
    requires ServiceOf(d) == Some(src)
    ensures SameFrame(s, SubmitToService(cfg, s, d, src, cq).0)
  {
  }

  lemma DriveOneFrame(cfg: Config, p: Pass, r: Entry)
    ensures SameFrame(p.s, DriveOne(cfg, p, r).s)
  {
    var s' := Submit(cfg, p.s, r.payload.desc, r.payload.cq).0;
    SubmitFrame(cfg, p.s, r.payload.desc, r.payload.cq);
    FlushServicesFrame(s');
  }

  lemma {:induction false} DriveFrames(cfg: Config, p: Pass, ready: seq<Entry>)
    ensures SameFrame(p.s, Drive(cfg, p, ready).s)
  {
    if ready != [] {
      DriveFrames(cfg, p, ready[..|ready| - 1]);
      DriveOneFrame(cfg, Drive(cfg, p, ready[..|ready| - 1]), ready[|ready| - 1]);
    }
  }

  lemma {:induction false} ReportFrame(s: State, failures: seq<Failure>)
    ensures SameFrame(s, Report(s, failures))
  {
    if failures != [] {
      var s1, f := Report(s, failures[..|failures| - 1]), failures[|failures| - 1];
      ReportFrame(s, failures[..|failures| - 1]);
      DeliverFrame(Ticked(s1), f.cq, FailureEvent(f, s1.clock + 1));
    }
  }

  lemma {:induction false} FlushFrame(cfg: Config, s: State)
    ensures SameFrame(s.(runtime := []), Flush(cfg, s))
    decreases Budget(cfg, s.runtime)
  {
    if s.runtime != [] {
      var p := FirstPass(cfg, s);
      DriveFrames(cfg, Pass(s.(runtime := []), [], []), s.runtime);
      ReportFrame(p.s.(runtime := p.kept), p.failures);
      PassShrinks(cfg, s);
      FlushFrame(cfg, AfterPass(p));
    }
  }

  /** Settling changes no command queue and no owner, and empties the runtime queue. */
  lemma SettledFrame(cfg: Config, s: State)
    ensures SameFrame(s.(runtime := []), Settled(cfg, s))
  {
    FlushFrame(cfg, s);
    FlushServicesFrame(Flush(cfg, s));
  }

  lemma PollFrame(cfg: Config, s: State, cq: nat, owner: nat, max: Option<nat>)
    ensures var s' := Poll(cfg, s, cq, owner, max).0; s'.cmdqs == s.cmdqs && s'.runtime == []
  {
    SettledFrame(cfg, s);
  }

  // ----- Every command ---------------------------------------------------------------------------

  lemma {:induction false} StageRuled(law: Law, cfg: Config, s: State, cq: nat, descs: seq<Descriptor>)
    requires Ruled(law, s) && forall d :: d in descs ==> law.good(d)
    ensures Ruled(law, Stage(cfg, s, cq, descs)) && Grows(s, Stage(cfg, s, cq, descs))
  {
    if descs != [] { StageRuled(law, cfg, s, cq, descs[..|descs| - 1]); }
  }

  lemma PoppedRuled(law: Law, s: State, cmdq: nat, batch: nat)
    requires Ruled(law, s) && cmdq in s.cmdqs && batch <= |s.cmdqs[cmdq].pending|
    ensures Ruled(law, Popped(s, cmdq, batch))
  {
    var q := s.cmdqs[cmdq].pending;
    assert forall d :: d in q[batch..] ==> d in q;
  }

  lemma RingRuled(law: Law, cfg: Config, s: State, cmdq: nat, batch: nat)
    requires Ruled(law, s) && cmdq in s.cmdqs && batch <= |s.cmdqs[cmdq].pending|
    ensures var s' := RingBatch(cfg, s, cmdq, batch).0; Ruled(law, s') && Grows(s, s')
  {
    var q, n := s.cmdqs[cmdq], Min(batch, Free(cfg, s));
    PoppedRuled(law, s, cmdq, batch);
    assert forall d :: d in q.pending[..n] ==> d in q.pending;
    StageRuled(law, cfg, Popped(s, cmdq, batch), q.cq, q.pending[..n]);
    TickObeys(law, Stage(cfg, Popped(s, cmdq, batch), q.cq, q.pending[..n]));
  }

  lemma EnqueueRuled(law: Law, s: State, cmdq: nat, owner: nat, d: Descriptor)
    requires Ruled(law, s) && law.good(d)
    ensures var s' := Enqueue(s, cmdq, owner, d).0; Ruled(law, s') && Grows(s, s')
  {
  }

  lemma DirectRuled(law: Law, cfg: Config, s: State, d: Descriptor, pick: nat)
    requires Lawful(law) && Ruled(law, s) && law.good(d)
    ensures var s' := Direct(cfg, s, d, pick).0; Ruled(law, s') && Grows(s, s')
  {
    if pick in s.cqs {
      SubmitObeys(law, cfg, s, d, pick);
      SubmitFrame(cfg, s, d, pick);
      assert Direct(cfg, s, d, pick).0 == Submit(cfg, s, d, pick).0;
    }
  }

  lemma SegmentRuled(law: Law, cfg: Config, s: State, bytes: nat)
    requires Ruled(law, s)
    ensures var s' := NewSegment(cfg, s, bytes).0; Ruled(law, s') && Grows(s, s')
  {
  }

  lemma RegisterRuled(law: Law, s: State, owner: nat)
    requires Ruled(law, s)
    ensures var s' := NewCq(s, owner).0; Ruled(law, s') && Grows(s, s')
  {
  }

  lemma CmdQueueRuled(law: Law, s: State, cq: nat, owner: nat, depth: nat)
    requires Ruled(law, s)
    ensures var s' := NewCmdQueue(s, cq, owner, depth).0; Ruled(law, s') && Grows(s, s')
  {
  }

  lemma StepRuled(law: Law, cfg: Config, s: State, cmd: Command)
    requires Lawful(law) && Ruled(law, s) && CommandGood(law, cmd)
    ensures var s' := Execute(cfg, s, cmd).0; Ruled(law, s') && Grows(s, s')
  {
    match cmd
    case CreateSegment(bytes) => SegmentRuled(law, cfg, s, bytes);
    case RegisterCq(owner) => RegisterRuled(law, s, owner);
    case CreateCmdQueue(cq, owner, depth) => CmdQueueRuled(law, s, cq, owner, depth);
    case EnqueueCmd(cmdq, owner, d) => EnqueueRuled(law, s, cmdq, owner, d);
    case RingDoorbell(cmdq, owner, max) =>
      if cmdq in s.cmdqs { RingRuled(law, cfg, s, cmdq, Limit(max, |s.cmdqs[cmdq].pending|)); }
    case SubmitDirect(d, pick) => DirectRuled(law, cfg, s, d, pick);
    case PollCq(cq, owner, max) =>
      PollObeys(law, cfg, s, cq, owner, max);
      PollFrame(cfg, s, cq, owner, max);
  }

  /** After every run of good commands, everything waiting satisfies the law. */
  lemma {:induction false} RunRuled(law: Law, cfg: Config, cmds: seq<Command>)
    requires Lawful(law) && CommandsGood(law, cmds)
    ensures Ruled(law, Exec(cfg, cmds))
  {
    if cmds != [] {
      RunRuled(law, cfg, cmds[..|cmds| - 1]);
      StepRuled(law, cfg, Exec(cfg, cmds[..|cmds| - 1]), cmds[|cmds| - 1]);
    }
  }

  /** And so does everything the next poll returns. */
  lemma PollRuled(law: Law, cfg: Config, cmds: seq<Command>, cq: nat, owner: nat, max: Option<nat>)
    requires Lawful(law) && CommandsGood(law, cmds)
    ensures var (s', r) := Poll(cfg, Exec(cfg, cmds), cq, owner, max);
      r.Completions? && Counters(law, s') ==> EventsOk(law, r.events)
  {
    RunRuled(law, cfg, cmds);
    PollObeys(law, cfg, Exec(cfg, cmds), cq, owner, max);
  }
}
