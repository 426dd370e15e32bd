/** Conservation per completion queue: what was accepted for it is somewhere, or was polled, or was dropped. */
module SurfaceConservation {
  import opened SimCore
  import opened Services
  import opened RuntimeQueue
  import opened SurfaceSpec
  import opened SurfaceInvariant

  // ----- Where descriptors bound for a queue are -----------------------------------------

  /** Waiting in command queues 1..n. */
  function InCmdqs(cmdqs: map<nat, CmdQueue>, n: nat, c: nat): nat {
    if n == 0 then 0
    else InCmdqs(cmdqs, n - 1, c) + if n in cmdqs && cmdqs[n].cq == c then |cmdqs[n].pending| else 0
  }

  /** Staged in the runtime queue. */
  function InRuntime(work: seq<Entry>, c: nat): nat {
    if work == [] then 0
    else InRuntime(work[..|work| - 1], c) + if work[|work| - 1].payload.cq == c then 1 else 0
  }

  /** Queued in a service; the tracker names exactly those handles. */
  function InServices(routes: map<Route, nat>, c: nat): nat { |RoutedTo(routes, c)| }

  function RoutedTo(routes: map<Route, nat>, c: nat): set<Route> { set k | k in routes && routes[k] == c }

  /** Delivered and not yet polled. */
  function InCq(cqs: map<nat, Cq>, c: nat): nat { if c in cqs then |cqs[c].events| else 0 }

  function InSystem(s: State, c: nat): nat {
    InCmdqs(s.cmdqs, s.nextCmdq, c) + InRuntime(s.runtime, c) + InServices(s.routes, c) + InCq(s.cqs, c)
  }

  // ----- What one command accepts, hands out and drops, read off its response ------------

  function AcceptedFor(s: State, cmd: Command, r: Response, c: nat): nat {
    if cmd.EnqueueCmd? && r.CommandEnqueued? && cmd.cmdq in s.cmdqs && s.cmdqs[cmd.cmdq].cq == c then 1
    else if cmd.SubmitDirect? && r.Submitted? && cmd.pick == c then 1
    else 0
  }

  function PolledFrom(cmd: Command, r: Response, c: nat): nat {
    if cmd.PollCq? && r.Completions? && cmd.cq == c then |r.events| else 0
  }

  /** A doorbell refused for a full runtime queue loses its batch except for what still fitted. */
  function DroppedFor(cfg: Config, s: State, cmd: Command, r: Response, c: nat): nat {
    if cmd.RingDoorbell? && r == Failed(InvalidInput(UapiRuntimeQueueFull))
       && cmd.cmdq in s.cmdqs && s.cmdqs[cmd.cmdq].cq == c
    then
      var batch := Limit(cmd.maxBatch, |s.cmdqs[cmd.cmdq].pending|);
      if batch > Free(cfg, s) then batch - Free(cfg, s) else 0
    else 0
  }

  // ----- Counting lemmas -----------------------------------------------------------------

  lemma {:induction false} CmdqUpdate(cmdqs: map<nat, CmdQueue>, n: nat, c: nat, q: nat, v: CmdQueue)
    requires q in cmdqs && cmdqs[q].cq == v.cq && 1 <= q
    ensures InCmdqs(cmdqs[q := v], n, c)
         == InCmdqs(cmdqs, n, c) + if q <= n && v.cq == c then |v.pending| - |cmdqs[q].pending| else 0
  {
    if n > 0 { CmdqUpdate(cmdqs, n - 1, c, q, v); }
  }

  lemma {:induction false} CmdqFresh(cmdqs: map<nat, CmdQueue>, n: nat, c: nat, q: nat, v: CmdQueue)
    requires n < q
    ensures InCmdqs(cmdqs[q := v], n, c) == InCmdqs(cmdqs, n, c)
  {
    if n > 0 { CmdqFresh(cmdqs, n - 1, c, q, v); }
  }

  lemma RuntimeAppend(work: seq<Entry>, r: Entry, c: nat)
    ensures InRuntime(work + [r], c) == InRuntime(work, c) + if r.payload.cq == c then 1 else 0
  {
    assert (work + [r])[..|work|] == work;
  }

  lemma RouteAdd(routes: map<Route, nat>, k: Route, cq: nat, c: nat)
    requires k !in routes
    ensures InServices(routes[k := cq], c) == InServices(routes, c) + if cq == c then 1 else 0
  {
    var a, b := RoutedTo(routes, c), RoutedTo(routes[k := cq], c);
    assert b == if cq == c then a + {k} else a;
  }

  lemma RouteRemove(routes: map<Route, nat>, k: Route, c: nat)
    requires k in routes
    ensures InServices(routes, c) == InServices(routes - {k}, c) + if routes[k] == c then 1 else 0
  {
    var a, b := RoutedTo(routes - {k}, c), RoutedTo(routes, c);
    assert b == if routes[k] == c then a + {k} else a;
  }

  lemma DeliverCount(s: State, cq: nat, e: CompletionEvent, c: nat)
    requires cq in s.cqs
    ensures InCq(Deliver(s, cq, e).cqs, c) == InCq(s.cqs, c) + if cq == c then 1 else 0
  {
  }

  // ----- Moves inside the system preserve the total --------------------------------------

  lemma RouteEventTotal(s: State, e: CompletionEvent, c: nat)
    requires Wired(s) && IsService(e.source)
    requires e.opId == |Ids(s.log, e.source)| + 1 <= Given(s.services).Get(e.source)
    ensures InSystem(RouteEvent(s, e), c) == InSystem(s, c)
  {
    RouteEventWired(s, e);
    RouteRemove(s.routes, KeyOf(e), c);
    DeliverCount(s.(routes := s.routes - {KeyOf(e)}), s.routes[KeyOf(e)], e, c);
  }

  lemma {:induction false} RouteAllTotal(s: State, src: CompletionSource, events: seq<CompletionEvent>, c: nat)
    requires Wired(s) && IsService(src) && |Ids(s.log, src)| + |events| <= Given(s.services).Get(src)
    requires forall i :: 0 <= i < |events| ==> events[i].source == src && events[i].opId == |Ids(s.log, src)| + 1 + i
    ensures InSystem(RouteAll(s, events), c) == InSystem(s, c)
  {
    if events != [] {
      var init := events[..|events| - 1];
      RouteAllTotal(s, src, init, c);
      RouteAllWired(s, src, init);
      RouteEventTotal(RouteAll(s, init), events[|events| - 1], c);
    }
  }

  lemma DrainTotal(cfg: Config, s: State, src: CompletionSource, c: nat)
    requires Inv(cfg, s) && IsService(src)
    ensures InSystem(DrainService(s, src), c) == InSystem(s, c)
  {
    QueuedAt(cfg, s.services, s.log, src);
    GivenGet(s.services, src);
    assert Given(Emptied(s, src).services) == Given(s.services);
    RouteAllTotal(Emptied(s, src), src, Events(s.services.Get(src).completions), c);
  }

  lemma FlushServicesTotal(cfg: Config, s: State, c: nat)
    requires Inv(cfg, s)
    ensures InSystem(FlushServices(s), c) == InSystem(s, c)
  {
    DrainTotal(cfg, s, BlockService, c);
    DrainServiceInv(cfg, s, BlockService);
    var s1 := DrainService(s, BlockService);
    DrainTotal(cfg, s1, ShmemService, c);
    DrainServiceInv(cfg, s1, ShmemService);
    var s2 := DrainService(s1, ShmemService);
    DrainTotal(cfg, s2, DfsService, c);
    DrainServiceInv(cfg, s2, DfsService);
    DrainTotal(cfg, DrainService(s2, DfsService), DbService, c);
  }

  lemma BindTotal(cfg: Config, s: State, d: Descriptor, src: CompletionSource, cq: nat, c: nat)
    requires Inv(cfg, s) && ServiceOf(d) == Some(src)
    ensures InSystem(Bind(cfg, s, d, src, cq), c) == InSystem(s, c) + if cq == c then 1 else 0
  {
    GivenGet(s.services, src);
    RouteAdd(s.routes, Route(src, s.services.Get(src).nextOpId + 1), cq, c);
  }

  /** An accepted descriptor enters the system once, for the queue it names; a refused one does not. */
  lemma SubmitTotal(cfg: Config, s: State, d: Descriptor, cq: nat, c: nat)
    requires Inv(cfg, s) && cq in s.cqs
    ensures InSystem(Submit(cfg, s, d, cq).0, c)
         == InSystem(s, c) + if Submit(cfg, s, d, cq).1.Accepted? && cq == c then 1 else 0
  {
    if ServiceOf(d).Some? {
      Tick(cfg, s);
      BindTotal(cfg, Ticked(s), d, ServiceOf(d).value, cq, c);
    } else {
      AtOnceTotal(s, d, cq, c);
      AtOnceTotal(Ticked(s), d, cq, c);
    }
  }

  lemma AtOnceTotal(s: State, d: Descriptor, cq: nat, c: nat)
    requires cq in s.cqs && d.Io?
    ensures InSystem(SubmitAtOnce(s, d, cq).0, c) == InSystem(s, c) + if cq == c then 1 else 0
  {
    DeliverCount(s, cq, ImmediateEvent(d, s.clock), c);
  }

  function InFailures(failures: seq<Failure>, c: nat): nat {
    if failures == [] then 0
    else InFailures(failures[..|failures| - 1], c) + if failures[|failures| - 1].cq == c then 1 else 0
  }

  lemma FailureAppend(failures: seq<Failure>, f: Failure, c: nat)
    ensures InFailures(failures + [f], c) == InFailures(failures, c) + if f.cq == c then 1 else 0
  {
    assert (failures + [f])[..|failures|] == failures;
  }

  /** In the middle of a pass: in the system, kept for a retry, or waiting to be reported. */
  function InPass(p: Pass, c: nat): nat { InSystem(p.s, c) + InRuntime(p.kept, c) + InFailures(p.failures, c) }

  lemma RefuseTotal(cfg: Config, p: Pass, r: Entry, why: Refusal, c: nat)
    requires PassOk(cfg, p)
    ensures InPass(Refuse(cfg, p, r, why), c) == InPass(p, c) + if r.payload.cq == c then 1 else 0
  {
    FailureAppend(p.failures, Failure(r.payload.cq, why), c);
    RuntimeAppend(p.kept, Retried(r, U64_MAX, cfg.retryDelay), c);
    FlushServicesTotal(cfg, p.s, c);
  }

  lemma DriveOneTotal(cfg: Config, p: Pass, r: Entry, c: nat)
    requires PassOk(cfg, p) && r.payload.cq in p.s.cqs
    ensures InPass(DriveOne(cfg, p, r), c) == InPass(p, c) + if r.payload.cq == c then 1 else 0
  {
    var (s', result) := Submit(cfg, p.s, r.payload.desc, r.payload.cq);
    SubmitTotal(cfg, p.s, r.payload.desc, r.payload.cq, c);
    SubmitInv(cfg, p.s, r.payload.desc, r.payload.cq);
    if result.Refused? { RefuseTotal(cfg, p.(s := s'), r, result.why, c); }
  }

  lemma {:induction false} DriveTotal(cfg: Config, p: Pass, ready: seq<Entry>, c: nat)
    requires PassOk(cfg, p) && WorkLive(ready, p.s.cqs.Keys)
    ensures InPass(Drive(cfg, p, ready), c) == InPass(p, c) + InRuntime(ready, c)
  {
    if ready != [] {
      var init := ready[..|ready| - 1];
      DriveTotal(cfg, p, init, c);
      DriveInv(cfg, p, init);
      DriveOneTotal(cfg, Drive(cfg, p, init), ready[|ready| - 1], c);
    }
  }

  lemma {:induction false} ReportTotal(cfg: Config, s: State, failures: seq<Failure>, c: nat)
    requires Inv(cfg, s) && FailuresLive(failures, s.cqs.Keys)
    ensures InSystem(Report(s, failures), c) == InSystem(s, c) + InFailures(failures, c)
  {
    if failures != [] {
      var init, f := failures[..|failures| - 1], failures[|failures| - 1];
      ReportTotal(cfg, s, init, c);
      ReportInv(cfg, s, init);
      var s1 := Report(s, init);
      DeliverCount(Ticked(s1), f.cq, FailureEvent(f, s1.clock + 1), c);
    }
  }

  lemma PassTotal(cfg: Config, s: State, c: nat)
    requires Inv(cfg, s)
    ensures InSystem(AfterPass(FirstPass(cfg, s)), c) == InSystem(s, c)
  {
    var s0 := s.(runtime := []);
    DriveTotal(cfg, Pass(s0, [], []), s.runtime, c);
    PassInv(cfg, s);
    var p := FirstPass(cfg, s);
    ReportTotal(cfg, p.s.(runtime := p.kept), p.failures, c);
  }

  /** A flush moves work around but neither loses nor duplicates any. */
  lemma {:induction false} FlushTotal(cfg: Config, s: State, c: nat)
    requires Inv(cfg, s)
    ensures InSystem(Flush(cfg, s), c) == InSystem(s, c)
    decreases Budget(cfg, s.runtime)
  {
    if s.runtime != [] {
      PassTotal(cfg, s, c);
      PassInv(cfg, s);
      PassShrinks(cfg, s);
      FlushTotal(cfg, AfterPass(FirstPass(cfg, s)), c);
    }
  }

  // ----- One command ---------------------------------------------------------------------

  lemma {:induction false} StageTotal(cfg: Config, s: State, cq: nat, descs: seq<Descriptor>, c: nat)
    ensures InSystem(Stage(cfg, s, cq, descs), c) == InSystem(s, c) + if cq == c then |descs| else 0
  {
    if descs != [] {
      var s1, s2 := Stage(cfg, s, cq, descs[..|descs| - 1]), Stage(cfg, s, cq, descs);
      StageTotal(cfg, s, cq, descs[..|descs| - 1], c);
      RuntimeAppend(s1.runtime, s2.runtime[|s1.runtime|], c);
      assert s2.runtime == s1.runtime + [s2.runtime[|s1.runtime|]];
    }
  }

  lemma RingTotal(cfg: Config, s: State, cmdq: nat, owner: nat, maxBatch: Option<nat>, c: nat)
    requires Idle(cfg, s)
    ensures var cmd, (s', r) := RingDoorbell(cmdq, owner, maxBatch), Ring(cfg, s, cmdq, owner, maxBatch);
      InSystem(s', c) + DroppedFor(cfg, s, cmd, r, c) == InSystem(s, c)
  {
    if cmdq in s.cmdqs && s.cmdqs[cmdq].owner == owner {
      var q := s.cmdqs[cmdq];
      var batch, free := Limit(maxBatch, |q.pending|), Free(cfg, s);
      var s1, some := Popped(s, cmdq, batch), q.pending[..Min(batch, free)];
      CmdqUpdate(s.cmdqs, s.nextCmdq, c, cmdq, q.(pending := q.pending[batch..]));
      StageTotal(cfg, s1, q.cq, some, c);
    }
  }

  lemma SettledTotal(cfg: Config, s: State, c: nat)
    requires Inv(cfg, s)
    ensures InSystem(Settled(cfg, s), c) == InSystem(s, c)
  {
    FlushTotal(cfg, s, c);
    FlushInv(cfg, s);
    FlushServicesTotal(cfg, Flush(cfg, s), c);
  }

  lemma PollTotal(cfg: Config, s: State, cq: nat, owner: nat, max: Option<nat>, c: nat)
    requires Idle(cfg, s)
    ensures var cmd, (s', r) := PollCq(cq, owner, max), Poll(cfg, s, cq, owner, max);
      InSystem(s', c) + PolledFrom(cmd, r, c) == InSystem(s, c)
  {
    SettledTotal(cfg, s, c);
  }

  lemma NewCmdQueueTotal(s: State, cq: nat, owner: nat, depth: nat, c: nat)
    ensures InSystem(NewCmdQueue(s, cq, owner, depth).0, c) == InSystem(s, c)
  {
    CmdqFresh(s.cmdqs, s.nextCmdq, c, s.nextCmdq + 1, CmdQueue(cq, owner, depth, []));
  }

  lemma NewSegmentTotal(cfg: Config, s: State, bytes: nat, c: nat)
    ensures InSystem(NewSegment(cfg, s, bytes).0, c) == InSystem(s, c)
  {
    var s' := NewSegment(cfg, s, bytes).0;
    assert SameQueues(s, s') && s'.routes == s.routes && s'.cqs == s.cqs;
  }

  lemma RegisterTotal(cfg: Config, s: State, owner: nat, c: nat)
    requires HandlesBelow(s.cqs.Keys, s.nextCq)
    ensures InSystem(Execute(cfg, s, RegisterCq(owner)).0, c) == InSystem(s, c)
  {
    assert s.nextCq + 1 !in s.cqs.Keys;
  }

  lemma DirectTotal(cfg: Config, s: State, d: Descriptor, pick: nat, c: nat)
    requires Idle(cfg, s)
    ensures var (s', r) := Direct(cfg, s, d, pick);
      InSystem(s', c) == InSystem(s, c) + AcceptedFor(s, SubmitDirect(d, pick), r, c)
  {
    if pick in s.cqs {
      SubmitTotal(cfg, s, d, pick, c);
      DirectAnswer(cfg, s, d, pick);
    }
  }

  lemma DirectAnswer(cfg: Config, s: State, d: Descriptor, pick: nat)
    requires pick in s.cqs
    ensures Direct(cfg, s, d, pick).0 == Submit(cfg, s, d, pick).0
    ensures Direct(cfg, s, d, pick).1.Submitted? <==> Submit(cfg, s, d, pick).1.Accepted?
  {
  }

  lemma StepConserves(cfg: Config, s: State, cmd: Command, c: nat)
    requires Idle(cfg, s)
    ensures var (s', r) := Execute(cfg, s, cmd);
      InSystem(s', c) + PolledFrom(cmd, r, c) + DroppedFor(cfg, s, cmd, r, c)
        == InSystem(s, c) + AcceptedFor(s, cmd, r, c)
  {
    match cmd
    case CreateSegment(bytes) => NewSegmentTotal(cfg, s, bytes, c);
    case RegisterCq(owner) => RegisterTotal(cfg, s, owner, c);
    case CreateCmdQueue(cq, owner, depth) => NewCmdQueueTotal(s, cq, owner, depth, c);
    case EnqueueCmd(cmdq, owner, d) => EnqueueTotal(cfg, s, cmdq, owner, d, c);
    case RingDoorbell(cmdq, owner, maxBatch) => RingTotal(cfg, s, cmdq, owner, maxBatch, c);
    case SubmitDirect(d, pick) => DirectTotal(cfg, s, d, pick, c);
    case PollCq(cq, owner, max) => PollTotal(cfg, s, cq, owner, max, c);
  }

  lemma EnqueueTotal(cfg: Config, s: State, cmdq: nat, owner: nat, d: Descriptor, c: nat)
    requires Idle(cfg, s)
    ensures var (s', r) := Enqueue(s, cmdq, owner, d);
      InSystem(s', c) == InSystem(s, c) + AcceptedFor(s, EnqueueCmd(cmdq, owner, d), r, c)
  {
    if Enqueue(s, cmdq, owner, d).1.CommandEnqueued? {
      CmdqUpdate(s.cmdqs, s.nextCmdq, c, cmdq, s.cmdqs[cmdq].(pending := s.cmdqs[cmdq].pending + [d]));
    }
  }

  // ----- Whole runs ----------------------------------------------------------------------

  function TotalAccepted(cfg: Config, cmds: seq<Command>, c: nat): nat {
    if cmds == [] then 0
    else
      var init, cmd := cmds[..|cmds| - 1], cmds[|cmds| - 1];
      var s := Exec(cfg, init);
      TotalAccepted(cfg, init, c) + AcceptedFor(s, cmd, Execute(cfg, s, cmd).1, c)
  }

  function TotalPolled(cfg: Config, cmds: seq<Command>, c: nat): nat {
    if cmds == [] then 0
    else
      var init, cmd := cmds[..|cmds| - 1], cmds[|cmds| - 1];
      TotalPolled(cfg, init, c) + PolledFrom(cmd, Execute(cfg, Exec(cfg, init), cmd).1, c)
  }

  function TotalDropped(cfg: Config, cmds: seq<Command>, c: nat): nat {
    if cmds == [] then 0
    else
      var init, cmd := cmds[..|cmds| - 1], cmds[|cmds| - 1];
      var s := Exec(cfg, init);
      TotalDropped(cfg, init, c) + DroppedFor(cfg, s, cmd, Execute(cfg, s, cmd).1, c)
  }

  /**
   Conservation: over every command sequence and for every completion queue, descriptors
   accepted = still waiting (command queues, runtime queue, services, completion queue)
            + polled + dropped by refused doorbells.
   */
  lemma {:induction false} Conservation(cfg: Config, cmds: seq<Command>, c: nat)
    ensures TotalAccepted(cfg, cmds, c)
         == InSystem(Exec(cfg, cmds), c) + TotalPolled(cfg, cmds, c) + TotalDropped(cfg, cmds, c)
  {
    if cmds == [] {
      assert RoutedTo(map[], c) == {};
    } else {
      var init, cmd := cmds[..|cmds| - 1], cmds[|cmds| - 1];
      Conservation(cfg, init, c);
      AlwaysIdle(cfg, init);
      StepConserves(cfg, Exec(cfg, init), cmd, c);
    }
  }

  /** Right after a poll, whatever was accepted and has left the command queues is polled, pollable or dropped. */
  lemma PollSettles(cfg: Config, cmds: seq<Command>, poll: Command, c: nat)
    requires poll.PollCq?
    ensures var all := cmds + [poll];
      var s := Exec(cfg, all);
      TotalAccepted(cfg, all, c) == InCmdqs(s.cmdqs, s.nextCmdq, c) + InCq(s.cqs, c)
                                    + TotalPolled(cfg, all, c) + TotalDropped(cfg, all, c)
  {
    var all := cmds + [poll];
    assert all[..|all| - 1] == cmds;
    Conservation(cfg, all, c);
    AlwaysIdle(cfg, cmds);
    PollIdle(cfg, Exec(cfg, cmds), poll.cq, poll.owner, poll.maxEntries);
    assert RoutedTo(map[], c) == {};
  }
}
