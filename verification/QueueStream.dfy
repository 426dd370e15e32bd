/**
 Completion queues are first in, first out: what a guest has polled, followed by what waits, is
 what was delivered.
 */
module QueueStream {
  import opened SimCore
  import opened Services
  import opened RuntimeQueue
  import opened SurfaceSpec
  import opened SurfaceInvariant

  /** The events delivered to queue c, in order. */
  function Delivered(log: seq<Delivery>, c: nat): seq<CompletionEvent> {
    if log == [] then []
    else
      var d := log[|log| - 1];
      Delivered(log[..|log| - 1], c) + if d.cq == c then [d.event] else []
  }

  function Waiting(cqs: map<nat, Cq>, c: nat): seq<CompletionEvent> { if c in cqs then cqs[c].events else [] }

  /** The queue holds the delivered events except for those taken out before. */
  predicate Aligned(taken: seq<CompletionEvent>, s: State, c: nat) {
    taken + Waiting(s.cqs, c) == Delivered(s.log, c)
  }

  // ----- Deliveries keep queue and log aligned ---------------------------------------------------

  lemma DeliverAligned(t: seq<CompletionEvent>, s: State, c: nat, cq: nat, e: CompletionEvent)
    requires Aligned(t, s, c)
    ensures Aligned(t, Deliver(s, cq, e), c)
  {
    if cq in s.cqs {
      var log' := s.log + [Delivery(cq, e)];
      assert log'[..|s.log|] == s.log;
      if cq == c { assert t + (s.cqs[c].events + [e]) == t + s.cqs[c].events + [e]; }
    }
  }

  lemma {:induction false} RouteAllAligned(t: seq<CompletionEvent>, s: State, c: nat, events: seq<CompletionEvent>)
    requires Aligned(t, s, c)
    ensures Aligned(t, RouteAll(s, events), c)
  {
    if events != [] {
      var s1, e := RouteAll(s, events[..|events| - 1]), events[|events| - 1];
      RouteAllAligned(t, s, c, events[..|events| - 1]);
      if KeyOf(e) in s1.routes {
        DeliverAligned(t, s1.(routes := s1.routes - {KeyOf(e)}), c, s1.routes[KeyOf(e)], e);
      }
    }
  }

  lemma DrainAligned(t: seq<CompletionEvent>, s: State, c: nat, src: CompletionSource)
    requires Aligned(t, s, c) && IsService(src)
    ensures Aligned(t, DrainService(s, src), c)
  {
    RouteAllAligned(t, Emptied(s, src), c, Events(s.services.Get(src).completions));
  }

  lemma FlushServicesAligned(t: seq<CompletionEvent>, s: State, c: nat)
    requires Aligned(t, s, c)
    ensures Aligned(t, FlushServices(s), c)
  {
    var s1 := DrainService(s, BlockService);
    var s2 := DrainService(s1, ShmemService);
    var s3 := DrainService(s2, DfsService);
    DrainAligned(t, s, c, BlockService);
    DrainAligned(t, s1, c, ShmemService);
    DrainAligned(t, s2, c, DfsService);
    DrainAligned(t, s3, c, DbService);
  }

  lemma AtOnceAligned(t: seq<CompletionEvent>, s: State, c: nat, d: Descriptor, cq: nat)
    requires Aligned(t, s, c) && d.Io?
    ensures Aligned(t, SubmitAtOnce(s, d, cq).0, c)
  {
    DeliverAligned(t, s, c, cq, ImmediateEvent(d, s.clock));
  }

  lemma BoundAligned(t: seq<CompletionEvent>, cfg: Config, s: State, c: nat, d: Descriptor, src: CompletionSource,
                     cq: nat)
    requires Aligned(t, s, c) && ServiceOf(d) == Some(src)
    ensures Aligned(t, SubmitToService(cfg, s, d, src, cq).0, c)
  {
  }

  lemma SubmitAligned(t: seq<CompletionEvent>, cfg: Config, s: State, c: nat, d: Descriptor, cq: nat)
    requires Aligned(t, s, c)
    ensures Aligned(t, Submit(cfg, s, d, cq).0, c)
  {
    if ServiceOf(d).Some? {
      BoundAligned(t, cfg, Ticked(s), c, d, ServiceOf(d).value, cq);
    } else {
      AtOnceAligned(t, s, c, d, cq);
      AtOnceAligned(t, Ticked(s), c, d, cq);
    }
  }

  lemma DriveOneAligned(t: seq<CompletionEvent>, cfg: Config, p: Pass, c: nat, r: Entry)
    requires Aligned(t, p.s, c)
    ensures Aligned(t, DriveOne(cfg, p, r).s, c)
  {
    SubmitAligned(t, cfg, p.s, c, r.payload.desc, r.payload.cq);
    FlushServicesAligned(t, Submit(cfg, p.s, r.payload.desc, r.payload.cq).0, c);
  }

  lemma {:induction false} DriveAligned(t: seq<CompletionEvent>, cfg: Config, p: Pass, c: nat, ready: seq<Entry>)
    requires Aligned(t, p.s, c)
    ensures Aligned(t, Drive(cfg, p, ready).s, c)
  {
    if ready != [] {
      DriveAligned(t, cfg, p, c, ready[..|ready| - 1]);
      DriveOneAligned(t, cfg, Drive(cfg, p, ready[..|ready| - 1]), c, ready[|ready| - 1]);
    }
  }

  lemma {:induction false} ReportAligned(t: seq<CompletionEvent>, s: State, c: nat, failures: seq<Failure>)
    requires Aligned(t, s, c)
    ensures Aligned(t, Report(s, failures), c)
  {
    if failures != [] {
      var s1, f := Report(s, failures[..|failures| - 1]), failures[|failures| - 1];
      ReportAligned(t, s, c, failures[..|failures| - 1]);
      DeliverAligned(t, Ticked(s1), c, f.cq, FailureEvent(f, s1.clock + 1));
    }
  }

  lemma {:induction false} FlushAligned(t: seq<CompletionEvent>, cfg: Config, s: State, c: nat)
    requires Aligned(t, s, c)
    ensures Aligned(t, Flush(cfg, s), c)
    decreases Budget(cfg, s.runtime)
  {
    if s.runtime != [] {
      var p := FirstPass(cfg, s);
      DriveAligned(t, cfg, Pass(s.(runtime := []), [], []), c, s.runtime);
      ReportAligned(t, p.s.(runtime := p.kept), c, p.failures);
      PassShrinks(cfg, s);
      FlushAligned(t, cfg, AfterPass(p), c);
    }
  }

  lemma SettledAligned(t: seq<CompletionEvent>, cfg: Config, s: State, c: nat)
    requires Aligned(t, s, c)
    ensures Aligned(t, Settled(cfg, s), c)
  {
    FlushAligned(t, cfg, s, c);
    FlushServicesAligned(t, Flush(cfg, s), c);
  }

  // ----- Commands ----------------------------------------------------------------------------------

  /** The events a command's response hands out from queue c. */
  function PolledBy(cmd: Command, r: Response, c: nat): seq<CompletionEvent> {
    if cmd.PollCq? && cmd.cq == c && r.Completions? then r.events else []
  }

  lemma PopAligned(t: seq<CompletionEvent>, s: State, c: nat, cmd: Command)
    requires Aligned(t, s, c) && cmd.PollCq?
    ensures var (s', r) := Pop(s, cmd.cq, cmd.owner, cmd.maxEntries); Aligned(t + PolledBy(cmd, r, c), s', c)
  {
    var (s', r) := Pop(s, cmd.cq, cmd.owner, cmd.maxEntries);
    if r.Completions? && cmd.cq == c {
      var events, n := s.cqs[c].events, |r.events|;
      assert t + events[..n] + events[n..] == t + (events[..n] + events[n..]);
      assert events[..n] + events[n..] == events;
    } else {
      assert t + [] == t;
    }
  }

  lemma PollAligned(t: seq<CompletionEvent>, cfg: Config, s: State, c: nat, cmd: Command)
    requires Aligned(t, s, c) && cmd.PollCq?
    ensures var (s', r) := Execute(cfg, s, cmd); Aligned(t + PolledBy(cmd, r, c), s', c)
  {
    SettledAligned(t, cfg, s, c);
    PopAligned(t, Settled(cfg, s), c, cmd);
  }

  lemma DirectAligned(t: seq<CompletionEvent>, cfg: Config, s: State, c: nat, d: Descriptor, pick: nat)
    requires Aligned(t, s, c)
    ensures Aligned(t, Direct(cfg, s, d, pick).0, c)
  {
    if pick in s.cqs { SubmitAligned(t, cfg, s, c, d, pick); }
  }

  /** The other commands touch no completion queue, except that a new one starts empty. */
  lemma OtherAligned(t: seq<CompletionEvent>, cfg: Config, s: State, c: nat, cmd: Command)
    requires Aligned(t, s, c) && HandlesBelow(s.cqs.Keys, s.nextCq) && !cmd.PollCq? && !cmd.SubmitDirect?
    ensures Aligned(t, Execute(cfg, s, cmd).0, c)
  {
    var s' := Execute(cfg, s, cmd).0;
    assert s'.log == s.log && Waiting(s'.cqs, c) == Waiting(s.cqs, c);
  }

  lemma StepAligned(t: seq<CompletionEvent>, cfg: Config, s: State, c: nat, cmd: Command)
    requires Aligned(t, s, c) && HandlesBelow(s.cqs.Keys, s.nextCq)
    ensures var (s', r) := Execute(cfg, s, cmd); Aligned(t + PolledBy(cmd, r, c), s', c)
  {
    if cmd.PollCq? {
      PollAligned(t, cfg, s, c, cmd);
    } else {
      assert t + [] == t;
      if cmd.SubmitDirect? {
        DirectAligned(t, cfg, s, c, cmd.desc, cmd.pick);
      } else {
        OtherAligned(t, cfg, s, c, cmd);
      }
    }
  }

  // ----- Whole runs ----------------------------------------------------------------------------------

  /** Everything polled from queue c so far, in order. */
  function Polled(cfg: Config, cmds: seq<Command>, c: nat): seq<CompletionEvent> {
    if cmds == [] then []
    else
      var init, cmd := cmds[..|cmds| - 1], cmds[|cmds| - 1];
      Polled(cfg, init, c) + PolledBy(cmd, Execute(cfg, Exec(cfg, init), cmd).1, c)
  }

  /**
   First in, first out: over every command sequence and for every queue, the events polled so far followed by
   those waiting are exactly the events delivered to the queue, in order.
   */
  lemma {:induction false} FirstInFirstOut(cfg: Config, cmds: seq<Command>, c: nat)
    ensures var s := Exec(cfg, cmds); Polled(cfg, cmds, c) + Waiting(s.cqs, c) == Delivered(s.log, c)
  {
    if cmds != [] {
      var init := cmds[..|cmds| - 1];
      FirstInFirstOut(cfg, init, c);
      AlwaysIdle(cfg, init);
      StepAligned(Polled(cfg, init, c), cfg, Exec(cfg, init), c, cmds[|cmds| - 1]);
    }
  }

  // ----- What a guest sees of one service --------------------------------------------------------------

  lemma OrderedInit(log: seq<Delivery>, given: Handles)
    requires log != [] && InOrder(log, given)
    ensures InOrder(log[..|log| - 1], given)
  {
    var init := log[..|log| - 1];
    forall src | IsService(src) ensures Upto(Ids(init, src)) && |Ids(init, src)| <= given.Get(src) {
      IdsAppend(init, log[|log| - 1], src);
      assert log == init + [log[|log| - 1]];
      assert Upto(Ids(log, src)) && |Ids(log, src)| <= given.Get(src);
      assert forall k :: 0 <= k < |Ids(init, src)| ==> Ids(init, src)[k] == Ids(log, src)[k];
    }
  }

  /** The last delivered event of a service has the highest handle. */
  lemma LastId(log: seq<Delivery>, given: Handles)
    requires log != [] && InOrder(log, given) && IsService(log[|log| - 1].event.source)
    ensures var e := log[|log| - 1].event; e.opId == |Ids(log, e.source)| == |Ids(log[..|log| - 1], e.source)| + 1
  {
    var init, d := log[..|log| - 1], log[|log| - 1];
    IdsAppend(init, d, d.event.source);
    assert log == init + [d];
    var ids := Ids(log, d.event.source);
    assert Upto(ids) && ids[|ids| - 1] == d.event.opId;
  }

  lemma {:induction false} IdsBound(log: seq<Delivery>, given: Handles, c: nat, i: nat)
    requires InOrder(log, given) && i < |Delivered(log, c)| && IsService(Delivered(log, c)[i].source)
    ensures Delivered(log, c)[i].opId <= |Ids(log, Delivered(log, c)[i].source)|
  {
    var init, d := log[..|log| - 1], log[|log| - 1];
    var e := Delivered(log, c)[i];
    assert log == init + [d];
    OrderedInit(log, given);
    IdsAppend(init, d, e.source);
    if i < |Delivered(init, c)| {
      IdsBound(init, given, c, i);
    } else {
      LastId(log, given);
    }
  }

  lemma {:induction false} DeliveredRises(log: seq<Delivery>, given: Handles, c: nat, i: nat, j: nat)
    requires InOrder(log, given) && i < j < |Delivered(log, c)|
    requires IsService(Delivered(log, c)[i].source) && Delivered(log, c)[i].source == Delivered(log, c)[j].source
    ensures Delivered(log, c)[i].opId < Delivered(log, c)[j].opId
  {
    var init := log[..|log| - 1];
    OrderedInit(log, given);
    if j < |Delivered(init, c)| {
      DeliveredRises(init, given, c, i, j);
    } else {
      IdsBound(init, given, c, i);
      LastId(log, given);
    }
  }

  lemma {:induction false} DeliveredFrom(log: seq<Delivery>, c: nat, i: nat)
    requires i < |Delivered(log, c)|
    ensures Delivery(c, Delivered(log, c)[i]) in log
  {
    var init := log[..|log| - 1];
    if i < |Delivered(init, c)| { DeliveredFrom(init, c, i); }
  }

  /**
   What a guest polls of one service from its queue: strictly rising handles, each bound to that very queue
   when its command was accepted.
   */
  lemma PolledRises(cfg: Config, cmds: seq<Command>, c: nat, i: nat, j: nat)
    requires i < j < |Polled(cfg, cmds, c)| && IsService(Polled(cfg, cmds, c)[i].source)
    requires Polled(cfg, cmds, c)[i].source == Polled(cfg, cmds, c)[j].source
    ensures Polled(cfg, cmds, c)[i].opId < Polled(cfg, cmds, c)[j].opId
  {
    var s := Exec(cfg, cmds);
    FirstInFirstOut(cfg, cmds, c);
    AlwaysIdle(cfg, cmds);
    var all := Delivered(s.log, c);
    assert Polled(cfg, cmds, c)[i] == all[i] && Polled(cfg, cmds, c)[j] == all[j];
    DeliveredRises(s.log, Given(s.services), c, i, j);
  }

  lemma PolledIsOwn(cfg: Config, cmds: seq<Command>, c: nat, i: nat)
    requires i < |Polled(cfg, cmds, c)| && IsService(Polled(cfg, cmds, c)[i].source)
    ensures var s, k := Exec(cfg, cmds), KeyOf(Polled(cfg, cmds, c)[i]); k in s.origin && s.origin[k] == c
  {
    var s := Exec(cfg, cmds);
    FirstInFirstOut(cfg, cmds, c);
    AlwaysIdle(cfg, cmds);
    assert Polled(cfg, cmds, c)[i] == Delivered(s.log, c)[i];
    DeliveredFrom(s.log, c, i);
  }
}
