/** Exactly when refilling a completion ring of 64-byte slots loses a completion, and a run that does. */
module RingLoss {
  import opened SimCore
  import opened Services
  import opened RuntimeQueue
  import opened SurfaceSpec
  import opened SurfaceInvariant
  import opened SlotFit
  import opened TaskLedger
  import EventLaws
  import SC = SurfaceConservation
  import BP = BackPressure
  import Codec
  import Device

  lemma {:induction false} TasklessIffNone(events: seq<CompletionEvent>)
    ensures AllTaskless(events) <==> InEvents(events) == 0
  {
    if events != [] {
      var init, e := events[..|events| - 1], events[|events| - 1];
      TasklessIffNone(init);
      assert events == init + [e];
      assert AllTaskless(events) <==> AllTaskless(init) && Taskless(e);
    }
  }

  // ----- What a refill takes ---------------------------------------------------------------------

  /** Waiting for a completion queue anywhere behind the command queues. */
  function Waiting(s: State, c: nat): nat {
    SC.InRuntime(s.runtime, c) + SC.InServices(s.routes, c) + SC.InCq(s.cqs, c)
  }

  /** Settling moves all of it into the completion queue. */
  lemma SettledWaiting(cfg: Config, s: State, c: nat)
    requires Idle(cfg, s)
    ensures SC.InCq(Settled(cfg, s).cqs, c) == Waiting(s, c)
  {
    SC.SettledTotal(cfg, s, c);
    SettledIdle(cfg, s);
    EventLaws.SettledFrame(cfg, s);
    assert SC.RoutedTo(map[], c) == {};
  }

  /**
   A refill takes the polled completions off the settled queue for good: what it does not write into the
   ring, from the first unwritable one on, is neither in the ring nor in the queue any more.
   */
  lemma RefillTakes(cfg: Config, s: State, cq: nat, room: nat)
    requires cq in s.cqs && room > 0
    ensures var owner := s.cqs[cq].owner;
      var events, s' := Device.Polled(cfg, s, cq, owner, room), Device.AfterPoll(cfg, s, cq, owner, room);
      && cq in Settled(cfg, s).cqs && cq in s'.cqs
      && Settled(cfg, s).cqs[cq].events == events + s'.cqs[cq].events
      && |events| == Min(room, |Settled(cfg, s).cqs[cq].events|)
  {
    EventLaws.SettledFrame(cfg, s);
    var all := Settled(cfg, s).cqs[cq].events;
    assert all == all[..Min(room, |all|)] + all[Min(room, |all|)..];
  }

  /** A refill with room for everything polls everything. */
  lemma RefillTakesAll(cfg: Config, s: State, cq: nat, room: nat)
    requires Idle(cfg, s) && cq in s.cqs && room > 0 && room >= Waiting(s, cq)
    ensures var owner := s.cqs[cq].owner;
      && cq in Settled(cfg, s).cqs
      && Device.Polled(cfg, s, cq, owner, room) == Settled(cfg, s).cqs[cq].events
      && |Settled(cfg, s).cqs[cq].events| == Waiting(s, cq)
  {
    SettledWaiting(cfg, s, cq);
    RefillTakes(cfg, s, cq, room);
  }

  // ----- Exactly when it loses ---------------------------------------------------------------------

  /**
   If no entry is exhausted and the ring has room, a refill after any command sequence loses a completion
   if and only if something waiting for the queue carries a task.
   */
  lemma LosesExactlyTasks(cfg: Config, cmds: seq<Command>, cq: nat, room: nat)
    requires var s := Exec(cfg, cmds);
      FlushFailures(cfg, s) == [] && cq in s.cqs && room > 0 && room >= Waiting(s, cq)
    ensures var s := Exec(cfg, cmds);
      var events := Device.Polled(cfg, s, cq, s.cqs[cq].owner, room);
      Device.Writable(events, 64) < |events| <==> Tasked(s, cq) > 0
  {
    var s := Exec(cfg, cmds);
    var events := Device.Polled(cfg, s, cq, s.cqs[cq].owner, room);
    AlwaysIdle(cfg, cmds);
    RefillTakesAll(cfg, s, cq, room);
    SettledTasks(cfg, s, cq);
    TasklessIffNone(events);
    TasklessPrefixAll(events);
    RefillStopsAtFirstTask(cfg, cmds, cq, s.cqs[cq].owner, room);
  }

  // ----- When no entry is exhausted ------------------------------------------------------------------

  /** Block reads and writes name their block. */
  ghost predicate Formed(work: seq<Entry>) { forall r :: r in work ==> WellFormed(r.payload.desc) }

  predicate WellFormed(d: Descriptor) { d.Io? && (d.opcode.ReadBlock? || d.opcode.WriteBlock?) ==> d.block.Some? }

  ghost predicate OnlyFull(fs: seq<Failure>) { forall f :: f in fs ==> f.why.QueueFull? }

  lemma SubmitFormed(cfg: Config, s: State, d: Descriptor, cq: nat)
    requires WellFormed(d) && cq in s.cqs
    ensures var r := Submit(cfg, s, d, cq).1; r.Refused? ==> r.why.QueueFull?
  {
  }

  lemma DriveOneFormed(cfg: Config, p: Pass, r: Entry)
    requires WellFormed(r.payload.desc) && r.payload.cq in p.s.cqs && Formed(p.kept) && OnlyFull(p.failures)
    ensures var p' := DriveOne(cfg, p, r); Formed(p'.kept) && OnlyFull(p'.failures)
  {
    SubmitFormed(cfg, p.s, r.payload.desc, r.payload.cq);
    var p', r' := DriveOne(cfg, p, r), Retried(r, U64_MAX, cfg.retryDelay);
    assert p'.kept == p.kept || p'.kept == p.kept + [r'];
  }

  lemma {:induction false} DriveFormed(cfg: Config, p: Pass, ready: seq<Entry>)
    requires PassOk(cfg, p) && WorkLive(ready, p.s.cqs.Keys) && Formed(ready) && Formed(p.kept) && OnlyFull(p.failures)
    ensures var p' := Drive(cfg, p, ready); Formed(p'.kept) && OnlyFull(p'.failures)
  {
    if ready != [] {
      var init, r := ready[..|ready| - 1], ready[|ready| - 1];
      DriveFormed(cfg, p, init);
      DriveInv(cfg, p, init);
      DriveOneFormed(cfg, Drive(cfg, p, init), r);
    }
  }

  lemma PassFormed(cfg: Config, s: State)
    requires Inv(cfg, s) && Formed(s.runtime)
    ensures Formed(AfterPass(FirstPass(cfg, s)).runtime) && OnlyFull(FirstPass(cfg, s).failures)
  {
    var p := FirstPass(cfg, s);
    WithoutRuntimeInv(cfg, s);
    DriveFormed(cfg, Pass(s.(runtime := []), [], []), s.runtime);
    ReportKeeps(p.s.(runtime := p.kept), p.failures);
  }

  lemma {:induction false} FlushFormed(cfg: Config, s: State)
    requires Inv(cfg, s) && Formed(s.runtime)
    ensures OnlyFull(FlushFailures(cfg, s))
    decreases Budget(cfg, s.runtime)
  {
    if s.runtime != [] {
      PassFormed(cfg, s);
      PassInv(cfg, s);
      PassShrinks(cfg, s);
      FlushFormed(cfg, AfterPass(FirstPass(cfg, s)));
    }
  }

  /** Well-formed work within twice the depth of each service exhausts nothing. */
  lemma NothingExhausted(cfg: Config, s: State)
    requires Idle(cfg, s) && cfg.maxRetries >= 1 && BP.WithinTwice(cfg, s, s.runtime) && Formed(s.runtime)
    ensures FlushFailures(cfg, s) == []
  {
    BP.Bound(cfg, s);
    FlushFormed(cfg, s);
    if FlushFailures(cfg, s) != [] { HasMember(FlushFailures(cfg, s)); }
  }

  lemma HasMember(fs: seq<Failure>)
    requires fs != []
    ensures exists f :: f in fs
  {
    assert fs[0] in fs;
  }

  // ----- A run that loses a completion -----------------------------------------------------------------

  lemma ExecNext(cfg: Config, cmds: seq<Command>, cmd: Command)
    ensures Exec(cfg, cmds + [cmd]) == Execute(cfg, Exec(cfg, cmds), cmd).0
  {
    assert (cmds + [cmd])[..|cmds|] == cmds;
  }

  /** A block writeback with a task, as a guest can write it into a 64-byte command slot. */
  function Culprit(task: TaskKey): Descriptor { BlockWriteback([], Some(task)) }

  /** A guest registers, enqueues that one descriptor and rings the doorbell. */
  function LosingRun(task: TaskKey): seq<Command> {
    [RegisterCq(1)] + [CreateCmdQueue(1, 1, 1)] + [EnqueueCmd(1, 1, Culprit(task))] + [RingDoorbell(1, 1, None)]
  }

  lemma Registered(cfg: Config)
    ensures Exec(cfg, [RegisterCq(1)] + [CreateCmdQueue(1, 1, 1)]) ==
      Initial().(nextCq := 1, cqs := map[1 := Cq(1, [])], nextCmdq := 1, cmdqs := map[1 := CmdQueue(1, 1, 1, [])])
  {
    ExecNext(cfg, [], RegisterCq(1));
    ExecNext(cfg, [RegisterCq(1)], CreateCmdQueue(1, 1, 1));
    assert [] + [RegisterCq(1)] == [RegisterCq(1)];
  }

  lemma Staged(cfg: Config, task: TaskKey)
    requires cfg.runtimeDepth >= 1
    ensures var s := Exec(cfg, LosingRun(task));
      && s.runtime == [Record(Work(1, Culprit(task)), SaturatingAdd(1, cfg.issueLatency), 0)]
      && s.cqs == map[1 := Cq(1, [])] && s.routes == map[] && s.origin == map[] && s.services == Initial().services
  {
    var d := Culprit(task);
    var cmds := [RegisterCq(1)] + [CreateCmdQueue(1, 1, 1)];
    Registered(cfg);
    ExecNext(cfg, cmds, EnqueueCmd(1, 1, d));
    ExecNext(cfg, cmds + [EnqueueCmd(1, 1, d)], RingDoorbell(1, 1, None));
    var s2 := Exec(cfg, cmds + [EnqueueCmd(1, 1, d)]);
    assert s2.cmdqs[1].pending == [] + [d];
    assert [d][..1] == [d] && [d][..0] == [];
    assert Stage(cfg, Popped(s2, 1, 1), 1, [d]).runtime ==
      [] + [Record(Work(1, d), SaturatingAdd(1, cfg.issueLatency), 0)];
  }

  lemma OneEntry(r: Entry, task: TaskKey)
    requires r.payload == Work(1, Culprit(task))
    ensures SC.InRuntime([r], 1) == 1 && InWork([r], 1) == 1
  {
    var none: seq<Entry> := [];
    assert [r][..0] == none;
    assert SC.InRuntime(none, 1) == 0 && InWork(none, 1) == 0;
  }

  lemma OneTarget(r: Entry, task: TaskKey, src: CompletionSource)
    requires r.payload == Work(1, Culprit(task))
    ensures BP.CountFor([r], src) == if src == BlockService then 1 else 0
  {
    var none: seq<Entry> := [];
    assert [r][..0] == none;
    assert BP.CountFor(none, src) == 0;
  }

  lemma StagedCounts(cfg: Config, s: State, r: Entry, task: TaskKey)
    requires s.runtime == [r] && r.payload == Work(1, Culprit(task)) && r.attempts == 0
    requires s.cqs == map[1 := Cq(1, [])] && s.routes == map[] && s.services == Initial().services
    requires cfg.blockDepth >= 1
    ensures Waiting(s, 1) == 1 && Tasked(s, 1) > 0 && Formed(s.runtime) && BP.WithinTwice(cfg, s, s.runtime)
  {
    assert s.runtime[..0] == [];
    assert SC.RoutedTo(map[], 1) == {};
    OneEntry(r, task);
    forall src | IsService(src) ensures BP.Load(s, src) + BP.CountFor(s.runtime, src) <= 2 * Depth(cfg, src) {
      OneTarget(r, task, src);
    }
  }

  /**
   The loss, concretely: after that run a refill of a ring with one free slot polls the one completion, writes
   nothing, and leaves the completion queue empty.
   */
  lemma TaskIsLost(cfg: Config, task: TaskKey)
    requires cfg.runtimeDepth >= 1 && cfg.maxRetries >= 1 && cfg.blockDepth >= 1
    ensures var s := Exec(cfg, LosingRun(task));
      var events, s' := Device.Polled(cfg, s, 1, 1, 1), Device.AfterPoll(cfg, s, 1, 1, 1);
      && |events| == 1 && Device.Writable(events, 64) == 0
      && 1 in s'.cqs && s'.cqs[1].events == [] && Waiting(s, 1) == 1
  {
    var s := Exec(cfg, LosingRun(task));
    Staged(cfg, task);
    AlwaysIdle(cfg, LosingRun(task));
    StagedCounts(cfg, s, s.runtime[0], task);
    NothingExhausted(cfg, s);
    LosesExactlyTasks(cfg, LosingRun(task), 1, 1);
    RefillTakesAll(cfg, s, 1, 1);
    RefillTakes(cfg, s, 1, 1);
  }

  /** The guest can indeed write the descriptor into a 64-byte slot. */
  lemma CulpritFits(task: TaskKey)
    requires Codec.TaskOk(task)
    ensures Codec.EncodeDescriptor(Culprit(task), 64).Ok?
  {
    Codec.TaskBytes(Some(task), Codec.WriteString([], []));
  }
}
