/**
 The services behind the surface have histories: in every run, whatever the commands, each of
 them is in the state its accepted requests, polls and registrations leave.  So the laws of
 ServiceLaws say what every request that reaches a service through the surface is answered.
 */
module ServiceHistories {
  import opened SimCore
  import opened Services
  import opened ServiceLaws
  import opened RuntimeQueue
  import opened SurfaceSpec

  /** One history for each service. */
  datatype Histories = Histories(block: seq<Event>, shmem: seq<Event>, dfs: seq<Event>, db: seq<Event>) {
    function Get(src: CompletionSource): seq<Event> {
      match src
      case BlockService => block
      case ShmemService => shmem
      case DfsService => dfs
      case _ => db
    }

    function Set(src: CompletionSource, h: seq<Event>): Histories {
      match src
      case BlockService => this.(block := h)
      case ShmemService => this.(shmem := h)
      case DfsService => this.(dfs := h)
      case _ => this.(db := h)
    }
  }

  /** The later histories continue the earlier ones. */
  predicate Continues(hs: Histories, hs': Histories) {
    hs.block <= hs'.block && hs.shmem <= hs'.shmem && hs.dfs <= hs'.dfs && hs.db <= hs'.db
  }

  /** The history leads to this state of the service. */
  predicate Leads(p: Profile, src: CompletionSource, h: seq<Event>, sv: ServiceState) {
    AllFor(src, h) && Replay(p, src, h) == sv
  }

  predicate Traced(p: Profile, hs: Histories, ss: ServiceSet) {
    && Leads(p, BlockService, hs.block, ss.block) && Leads(p, ShmemService, hs.shmem, ss.shmem)
    && Leads(p, DfsService, hs.dfs, ss.dfs) && Leads(p, DbService, hs.db, ss.db)
  }

  /** Setting one service and its history. */
  lemma SetTraced(p: Profile, hs: Histories, ss: ServiceSet, src: CompletionSource, h: seq<Event>, sv: ServiceState)
    requires Traced(p, hs, ss) && IsService(src) && Leads(p, src, h, sv) && hs.Get(src) <= h
    ensures SourceOf(sv.table) == src && Traced(p, hs.Set(src, h), ss.Set(src, sv)) && Continues(hs, hs.Set(src, h))
  {
  }

  lemma LeadsOn(p: Profile, src: CompletionSource, h: seq<Event>, sv: ServiceState, ev: Event)
    requires Leads(p, src, h, sv) && For(src, ev)
    ensures Leads(p, src, h + [ev], Apply(p, sv, ev))
  {
    assert (h + [ev])[..|h|] == h;
  }

  /** One more event at one service. */
  lemma OneEvent(p: Profile, hs: Histories, ss: ServiceSet, src: CompletionSource, ev: Event, sv: ServiceState)
    returns (hs': Histories)
    requires Traced(p, hs, ss) && IsService(src) && For(src, ev)
    requires SourceOf(ss.Get(src).table) == src && sv == Apply(p, ss.Get(src), ev)
    ensures hs' == hs.Set(src, hs.Get(src) + [ev])
    ensures Continues(hs, hs') && SourceOf(sv.table) == src && Traced(p, hs', ss.Set(src, sv))
  {
    var h := hs.Get(src);
    LeadsOn(p, src, h, ss.Get(src), ev);
    SetTraced(p, hs, ss, src, h + [ev], sv);
    hs' := hs.Set(src, h + [ev]);
  }

  predicate Timed(q: seq<QueuedCompletion>) { forall c :: c in q ==> c.readyAt <= U64_MAX }

  lemma {:induction false} ReplayTimed(p: Profile, src: CompletionSource, h: seq<Event>)
    requires AllFor(src, h)
    ensures Timed(Replay(p, src, h).completions)
  {
    if h != [] { ReplayTimed(p, src, h[..|h| - 1]); }
  }

  /** Polling a service at the largest time takes everything it has queued. */
  lemma EmptiedIsDrained(p: Profile, src: CompletionSource, h: seq<Event>, sv: ServiceState)
    requires Leads(p, src, h, sv)
    ensures Apply(p, sv, Drained(U64_MAX)) == sv.(completions := [])
  {
    ReplayTimed(p, src, h);
    assert ReadyCount(sv.completions, U64_MAX) == |sv.completions|;
  }

  // ----- Submitting and draining ---------------------------------------------------------------

  lemma SubmitServices(cfg: Config, s: State, d: Descriptor, cq: nat)
    ensures var (s', r) := Submit(cfg, s, d, cq);
      s'.services ==
        if ServiceOf(d).Some? && r.Accepted?
        then s.services.Set(ServiceOf(d).value,
                            Accept(cfg.profile, s.services.Get(ServiceOf(d).value), d, s.clock + 1))
        else s.services
  {
  }

  lemma SubmitTraced(cfg: Config, hs: Histories, s: State, d: Descriptor, cq: nat) returns (hs': Histories)
    requires Traced(cfg.profile, hs, s.services)
    ensures Continues(hs, hs') && Traced(cfg.profile, hs', Submit(cfg, s, d, cq).0.services)
    ensures ServiceOf(d).Some? && Submit(cfg, s, d, cq).1.Accepted? ==>
              hs' == hs.Set(ServiceOf(d).value, hs.Get(ServiceOf(d).value) + [Asked(d, s.clock + 1)])
    ensures ServiceOf(d) == None ==> hs' == hs
  {
    SubmitServices(cfg, s, d, cq);
    if ServiceOf(d).Some? && Submit(cfg, s, d, cq).1.Accepted? {
      var src := ServiceOf(d).value;
      var sv := Accept(cfg.profile, s.services.Get(src), d, s.clock + 1);
      hs' := OneEvent(cfg.profile, hs, s.services, src, Asked(d, s.clock + 1), sv);
    } else {
      hs' := hs;
    }
  }

  lemma {:induction false} RouteAllServices(s: State, events: seq<CompletionEvent>)
    ensures RouteAll(s, events).services == s.services
  {
    if events != [] { RouteAllServices(s, events[..|events| - 1]); }
  }

  lemma DrainTraced(cfg: Config, hs: Histories, s: State, src: CompletionSource) returns (hs': Histories)
    requires Traced(cfg.profile, hs, s.services) && IsService(src)
    ensures Continues(hs, hs') && Traced(cfg.profile, hs', DrainService(s, src).services)
  {
    var sv := s.services.Get(src);
    EmptiedIsDrained(cfg.profile, src, hs.Get(src), sv);
    hs' := OneEvent(cfg.profile, hs, s.services, src, Drained(U64_MAX), sv.(completions := []));
    RouteAllServices(Emptied(s, src), Events(sv.completions));
    assert DrainService(s, src).services == s.services.Set(src, sv.(completions := []));
  }

  lemma FlushServicesTraced(cfg: Config, hs: Histories, s: State) returns (hs': Histories)
    requires Traced(cfg.profile, hs, s.services)
    ensures Continues(hs, hs') && Traced(cfg.profile, hs', FlushServices(s).services)
  {
    var s1 := DrainService(s, BlockService);
    var s2 := DrainService(s1, ShmemService);
    var s3 := DrainService(s2, DfsService);
    hs' := DrainTraced(cfg, hs, s, BlockService);
    hs' := DrainTraced(cfg, hs', s1, ShmemService);
    hs' := DrainTraced(cfg, hs', s2, DfsService);
    hs' := DrainTraced(cfg, hs', s3, DbService);
  }

  // ----- Flushing the runtime queue --------------------------------------------------------------

  lemma DriveOneTraced(cfg: Config, hs: Histories, p: Pass, r: Entry) returns (hs': Histories)
    requires Traced(cfg.profile, hs, p.s.services)
    ensures Continues(hs, hs') && Traced(cfg.profile, hs', DriveOne(cfg, p, r).s.services)
  {
    var (s', result) := Submit(cfg, p.s, r.payload.desc, r.payload.cq);
    hs' := SubmitTraced(cfg, hs, p.s, r.payload.desc, r.payload.cq);
    if result.Refused? && result.why.QueueFull? {
      hs' := FlushServicesTraced(cfg, hs', s');
      assert DriveOne(cfg, p, r).s == FlushServices(s');
    } else {
      assert DriveOne(cfg, p, r).s == s';
    }
  }

  lemma {:induction false} DriveTraced(cfg: Config, hs: Histories, p: Pass, ready: seq<Entry>)
    returns (hs': Histories)
    requires Traced(cfg.profile, hs, p.s.services)
    ensures Continues(hs, hs') && Traced(cfg.profile, hs', Drive(cfg, p, ready).s.services)
  {
    hs' := hs;
    if ready != [] {
      hs' := DriveTraced(cfg, hs, p, ready[..|ready| - 1]);
      hs' := DriveOneTraced(cfg, hs', Drive(cfg, p, ready[..|ready| - 1]), ready[|ready| - 1]);
    }
  }

  lemma {:induction false} FlushTraced(cfg: Config, hs: Histories, s: State) returns (hs': Histories)
    requires Traced(cfg.profile, hs, s.services)
    ensures Continues(hs, hs') && Traced(cfg.profile, hs', Flush(cfg, s).services)
    decreases Budget(cfg, s.runtime)
  {
    hs' := hs;
    if s.runtime != [] {
      var p := FirstPass(cfg, s);
      hs' := DriveTraced(cfg, hs, Pass(s.(runtime := []), [], []), s.runtime);
      ReportKeeps(p.s.(runtime := p.kept), p.failures);
      PassShrinks(cfg, s);
      hs' := FlushTraced(cfg, hs', AfterPass(p));
    }
  }

  // ----- Over every run --------------------------------------------------------------------------

  lemma SegmentServices(cfg: Config, s: State, bytes: nat)
    ensures var (s', r) := NewSegment(cfg, s, bytes);
      var sv := s.services.shmem;
      var sv' := sv.(table := Segments(sv.table.segments[s.nextSegment + 1 := SegmentMeta(0, bytes)]));
      s'.services == if r.SegmentCreated? then s.services.Set(ShmemService, sv') else s.services
  {
  }

  lemma SegmentTraced(cfg: Config, hs: Histories, s: State, bytes: nat) returns (hs': Histories)
    requires Traced(cfg.profile, hs, s.services)
    ensures Continues(hs, hs') && Traced(cfg.profile, hs', NewSegment(cfg, s, bytes).0.services)
    ensures NewSegment(cfg, s, bytes).1.SegmentCreated? ==>
              hs' == hs.Set(ShmemService, hs.shmem + [Registered(s.nextSegment + 1, SegmentMeta(0, bytes))])
  {
    SegmentServices(cfg, s, bytes);
    var sv, id, meta := s.services.shmem, s.nextSegment + 1, SegmentMeta(0, bytes);
    if NewSegment(cfg, s, bytes).1.SegmentCreated? {
      var sv' := sv.(table := Segments(sv.table.segments[id := meta]));
      hs' := OneEvent(cfg.profile, hs, s.services, ShmemService, Registered(id, meta), sv');
    } else {
      hs' := hs;
    }
  }

  lemma PollTraced(cfg: Config, hs: Histories, s: State, cq: nat, owner: nat, max: Option<nat>)
    returns (hs': Histories)
    requires Traced(cfg.profile, hs, s.services)
    ensures Continues(hs, hs') && Traced(cfg.profile, hs', Poll(cfg, s, cq, owner, max).0.services)
  {
    hs' := FlushTraced(cfg, hs, s);
    hs' := FlushServicesTraced(cfg, hs', Flush(cfg, s));
    assert Poll(cfg, s, cq, owner, max).0.services == Settled(cfg, s).services;
  }

  lemma DirectTraced(cfg: Config, hs: Histories, s: State, d: Descriptor, pick: nat) returns (hs': Histories)
    requires Traced(cfg.profile, hs, s.services)
    ensures Continues(hs, hs') && Traced(cfg.profile, hs', Direct(cfg, s, d, pick).0.services)
    ensures ServiceOf(d).Some? && Direct(cfg, s, d, pick).1.Submitted? ==>
              hs' == hs.Set(ServiceOf(d).value, hs.Get(ServiceOf(d).value) + [Asked(d, s.clock + 1)])
  {
    hs' := hs;
    if pick in s.cqs {
      hs' := SubmitTraced(cfg, hs, s, d, pick);
      assert Direct(cfg, s, d, pick).0 == Submit(cfg, s, d, pick).0;
    }
  }

  lemma StepTraced(cfg: Config, hs: Histories, s: State, cmd: Command) returns (hs': Histories)
    requires Traced(cfg.profile, hs, s.services)
    ensures Continues(hs, hs') && Traced(cfg.profile, hs', Execute(cfg, s, cmd).0.services)
  {
    match cmd
    case CreateSegment(bytes) => hs' := SegmentTraced(cfg, hs, s, bytes);
    case SubmitDirect(d, pick) => hs' := DirectTraced(cfg, hs, s, d, pick);
    case PollCq(cq, owner, max) => hs' := PollTraced(cfg, hs, s, cq, owner, max);
    case _ =>
      hs' := hs;
      assert Execute(cfg, s, cmd).0.services == s.services;
  }

  lemma ExecSnoc(cfg: Config, cmds: seq<Command>, cmd: Command)
    ensures Exec(cfg, cmds + [cmd]) == Execute(cfg, Exec(cfg, cmds), cmd).0
  {
    assert (cmds + [cmd])[..|cmds|] == cmds;
  }

  lemma NextTraced(cfg: Config, hs: Histories, cmds: seq<Command>, cmd: Command) returns (hs': Histories)
    requires Traced(cfg.profile, hs, Exec(cfg, cmds).services)
    ensures Continues(hs, hs') && Traced(cfg.profile, hs', Exec(cfg, cmds + [cmd]).services)
  {
    var s := Exec(cfg, cmds);
    ExecSnoc(cfg, cmds, cmd);
    hs' := StepTraced(cfg, hs, s, cmd);
  }

  lemma Regroup(cmds: seq<Command>, more: seq<Command>)
    requires more != []
    ensures cmds + [more[0]] + more[1..] == cmds + more
  {
  }

  /** In every run, each command only continues what has happened to each service. */
  lemma {:induction false} RunTraced(cfg: Config, hs: Histories, cmds: seq<Command>, more: seq<Command>)
    returns (hs': Histories)
    requires Traced(cfg.profile, hs, Exec(cfg, cmds).services)
    ensures Continues(hs, hs') && Traced(cfg.profile, hs', Exec(cfg, cmds + more).services)
    decreases |more|
  {
    if more == [] {
      hs' := hs;
      assert cmds + more == cmds;
    } else {
      var hs1 := NextTraced(cfg, hs, cmds, more[0]);
      Regroup(cmds, more);
      hs' := RunTraced(cfg, hs1, cmds + [more[0]], more[1..]);
      assert hs.block <= hs'.block && hs.shmem <= hs'.shmem && hs.dfs <= hs'.dfs && hs.db <= hs'.db;
    }
  }

  lemma HistoryOf(cfg: Config, cmds: seq<Command>) returns (hs: Histories)
    ensures Traced(cfg.profile, hs, Exec(cfg, cmds).services)
  {
    var none := Histories([], [], [], []);
    assert Traced(cfg.profile, none, Initial().services);
    assert [] + cmds == cmds;
    hs := RunTraced(cfg, none, [], cmds);
  }

  /** After every run each service is in the state some history of it leaves. */
  lemma RunHistoric(cfg: Config, cmds: seq<Command>)
    ensures exists hs :: Traced(cfg.profile, hs, Exec(cfg, cmds).services)
  {
    var hs := HistoryOf(cfg, cmds);
  }

  // ----- Reading one's writes ----------------------------------------------------------------------

  /** A block written in a history is written in every continuation. */
  lemma StaysWritten(h: seq<Event>, h': seq<Event>, block: string)
    requires BlockWritten(h, block) && h <= h'
    ensures BlockWritten(h', block)
  {
    var i :| 0 <= i < |h| && WritesBlock(h[i], block);
    assert WritesBlock(h'[i], block);
  }

  lemma ReadHits(p: Profile, h: seq<Event>, sv: ServiceState, d: Descriptor, now: nat)
    requires Leads(p, BlockService, h, sv) && d.Io? && d.opcode.ReadBlock? && d.block.Some?
    requires BlockWritten(h, d.block.value)
    ensures var c := AnswerTo(p, sv, d, now);
      c.event.status == Success && c.readyAt == c.event.finishedAt == AddTime(now, p.readHit)
  {
    BlockAnswers(p, h, d, now);
  }

  /** After an accepted write the histories have it. */
  lemma WriteTraced(cfg: Config, hs: Histories, s: State, w: Descriptor, pick: nat, block: string)
    returns (hs': Histories)
    requires Traced(cfg.profile, hs, s.services) && Direct(cfg, s, w, pick).1.Submitted?
    requires w.Io? && w.opcode.WriteBlock? && w.block == Some(block)
    ensures Traced(cfg.profile, hs', Direct(cfg, s, w, pick).0.services) && BlockWritten(hs'.block, block)
  {
    hs' := DirectTraced(cfg, hs, s, w, pick);
    assert WritesBlock(hs'.block[|hs.block|], block);
  }

  /**
   In every run: once a write of a block has been accepted, whatever other commands follow, a
   read of that block is a hit.
   */
  lemma ReadsOwnWrites(cfg: Config, cmds: seq<Command>, w: Descriptor, pick: nat, more: seq<Command>, d: Descriptor,
                       now: nat)
    requires Direct(cfg, Exec(cfg, cmds), w, pick).1.Submitted? && w.Io? && w.opcode.WriteBlock? && w.block.Some?
    requires d.Io? && d.opcode.ReadBlock? && d.block == w.block
    ensures var c := AnswerTo(cfg.profile, Exec(cfg, cmds + [SubmitDirect(w, pick)] + more).services.block, d, now);
      c.event.status == Success && c.readyAt == c.event.finishedAt == AddTime(now, cfg.profile.readHit)
  {
    var written := cmds + [SubmitDirect(w, pick)];
    var hs := HistoryOf(cfg, cmds);
    hs := WriteTraced(cfg, hs, Exec(cfg, cmds), w, pick, w.block.value);
    ExecSnoc(cfg, cmds, SubmitDirect(w, pick));
    var hs' := RunTraced(cfg, hs, written, more);
    StaysWritten(hs.block, hs'.block, w.block.value);
    ReadHits(cfg.profile, hs'.block, Exec(cfg, written + more).services.block, d, now);
  }
}
