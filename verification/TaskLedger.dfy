/**
 Where completions that carry a task are, and exactly when a refill of the completion ring with
 64-byte slots loses some: they never fit a slot.
 */
module TaskLedger {
  import opened SimCore
  import opened Services
  import opened RuntimeQueue
  import opened SurfaceSpec
  import opened SurfaceInvariant

  function Mark(t: Option<TaskKey>): nat { if t.Some? then 1 else 0 }

  /** Task-carrying events of a queue. */
  function InEvents(events: seq<CompletionEvent>): nat {
    if events == [] then 0 else InEvents(events[..|events| - 1]) + Mark(events[|events| - 1].task)
  }

  function InCq(cqs: map<nat, Cq>, c: nat): nat { if c in cqs then InEvents(cqs[c].events) else 0 }

  /** Task-carrying events that a history of bindings directs to c. */
  function Bound(events: seq<CompletionEvent>, origin: map<Route, nat>, c: nat): nat {
    if events == [] then 0
    else
      var e := events[|events| - 1];
      Bound(events[..|events| - 1], origin, c) + if KeyOf(e) in origin && origin[KeyOf(e)] == c then Mark(e.task) else 0
  }

  function InService(sv: ServiceState, origin: map<Route, nat>, c: nat): nat {
    Bound(Events(sv.completions), origin, c)
  }

  function InServices(ss: ServiceSet, origin: map<Route, nat>, c: nat): nat {
    InService(ss.block, origin, c) + InService(ss.shmem, origin, c)
    + InService(ss.dfs, origin, c) + InService(ss.db, origin, c)
  }

  function InWork(work: seq<Entry>, c: nat): nat {
    if work == [] then 0
    else
      var r := work[|work| - 1].payload;
      InWork(work[..|work| - 1], c) + if r.cq == c then Mark(r.desc.task) else 0
  }

  /** Task-carrying items past the runtime queue, and all of them. */
  function Issued(s: State, c: nat): nat { InCq(s.cqs, c) + InServices(s.services, s.origin, c) }

  function Tasked(s: State, c: nat): nat { Issued(s, c) + InWork(s.runtime, c) }

  // ----- Counting ------------------------------------------------------------------------------

  lemma EventsAppend(events: seq<CompletionEvent>, e: CompletionEvent)
    ensures InEvents(events + [e]) == InEvents(events) + Mark(e.task)
  {
    assert (events + [e])[..|events|] == events;
  }

  lemma WorkAppend(work: seq<Entry>, r: Entry, c: nat)
    ensures InWork(work + [r], c) == InWork(work, c) + if r.payload.cq == c then Mark(r.payload.desc.task) else 0
  {
    assert (work + [r])[..|work|] == work;
  }

  lemma BoundAppend(events: seq<CompletionEvent>, e: CompletionEvent, origin: map<Route, nat>, c: nat)
    requires KeyOf(e) in origin
    ensures Bound(events + [e], origin, c)
         == Bound(events, origin, c) + if origin[KeyOf(e)] == c then Mark(e.task) else 0
  {
    assert (events + [e])[..|events|] == events;
  }

  /** A new binding does not concern events with other keys. */
  lemma {:induction false} BoundFrame(events: seq<CompletionEvent>, origin: map<Route, nat>, k: Route, cq: nat, c: nat)
    requires forall e :: e in events ==> KeyOf(e) != k
    ensures Bound(events, origin[k := cq], c) == Bound(events, origin, c)
  {
    if events != [] { BoundFrame(events[..|events| - 1], origin, k, cq, c); }
  }

  lemma DeliverTasks(s: State, cq: nat, e: CompletionEvent, c: nat)
    requires cq in s.cqs
    ensures InCq(Deliver(s, cq, e).cqs, c) == InCq(s.cqs, c) + if cq == c then Mark(e.task) else 0
  {
    EventsAppend(s.cqs[cq].events, e);
  }

  // ----- Draining ------------------------------------------------------------------------------

  lemma RouteTasks(s: State, e: CompletionEvent, c: nat)
    requires RoutesFaithful(s.routes, s.origin, s.cqs.Keys) && KeyOf(e) in s.routes
    ensures KeyOf(e) in s.origin
    ensures InCq(RouteEvent(s, e).cqs, c) == InCq(s.cqs, c) + if s.origin[KeyOf(e)] == c then Mark(e.task) else 0
    ensures RouteEvent(s, e).origin == s.origin && RouteEvent(s, e).services == s.services
  {
    DeliverTasks(s.(routes := s.routes - {KeyOf(e)}), s.routes[KeyOf(e)], e, c);
  }

  lemma NextFaithful(s: State, src: CompletionSource, events: seq<CompletionEvent>, n: nat)
    requires Wired(s) && IsService(src) && |Ids(s.log, src)| + |events| <= Given(s.services).Get(src)
    requires forall j :: 0 <= j < |events| ==> events[j].source == src && events[j].opId == |Ids(s.log, src)| + 1 + j
    requires |events| == n + 1
    ensures var s' := RouteAll(s, events[..n]);
      && RoutesFaithful(s'.routes, s'.origin, s'.cqs.Keys) && KeyOf(events[n]) in s'.routes
      && RouteAll(s, events) == RouteEvent(s', events[n])
  {
    RouteAllWired(s, src, events[..n]);
    NextRoute(s, src, events, n);
  }

  lemma {:induction false} RouteAllTasks(s: State, src: CompletionSource, events: seq<CompletionEvent>, c: nat)
    requires Wired(s) && IsService(src) && |Ids(s.log, src)| + |events| <= Given(s.services).Get(src)
    requires forall j :: 0 <= j < |events| ==> events[j].source == src && events[j].opId == |Ids(s.log, src)| + 1 + j
    ensures var s' := RouteAll(s, events);
      InCq(s'.cqs, c) == InCq(s.cqs, c) + Bound(events, s.origin, c) && s'.origin == s.origin
          && s'.services == s.services
  {
    if events != [] {
      var n := |events| - 1;
      var s1, e := RouteAll(s, events[..n]), events[n];
      RouteAllTasks(s, src, events[..n], c);
      NextFaithful(s, src, events, n);
      RouteTasks(s1, e, c);
    }
  }

  lemma EmptiedTasks(s: State, src: CompletionSource, c: nat)
    requires IsService(src)
    ensures InServices(Emptied(s, src).services, s.origin, c) + InService(s.services.Get(src), s.origin, c)
         == InServices(s.services, s.origin, c)
  {
  }

  lemma DrainTasks(cfg: Config, s: State, src: CompletionSource, c: nat)
    requires Inv(cfg, s) && IsService(src)
    ensures Issued(DrainService(s, src), c) == Issued(s, c) && DrainService(s, src).origin == s.origin
  {
    RoutesReady(cfg, s, src);
    RouteAllTasks(Emptied(s, src), src, Events(s.services.Get(src).completions), c);
    EmptiedTasks(s, src, c);
  }

  lemma FlushServicesTasks(cfg: Config, s: State, c: nat)
    requires Inv(cfg, s)
    ensures Issued(FlushServices(s), c) == Issued(s, c)
  {
    var s1 := DrainService(s, BlockService);
    var s2 := DrainService(s1, ShmemService);
    var s3 := DrainService(s2, DfsService);
    DrainServiceInv(cfg, s, BlockService);
    DrainServiceInv(cfg, s1, ShmemService);
    DrainServiceInv(cfg, s2, DfsService);
    DrainTasks(cfg, s, BlockService, c);
    DrainTasks(cfg, s1, ShmemService, c);
    DrainTasks(cfg, s2, DfsService, c);
    DrainTasks(cfg, s3, DbService, c);
  }

  // ----- Submitting ----------------------------------------------------------------------------

  /** Queued events carry older handles than the next one. */
  lemma OlderKeys(cfg: Config, s: State, src: CompletionSource, x: CompletionSource)
    requires Inv(cfg, s) && IsService(src) && IsService(x)
    ensures forall e :: e in Events(s.services.Get(x).completions) ==>
      KeyOf(e) != Route(src, s.services.Get(src).nextOpId + 1)
  {
    QueuedAt(cfg, s.services, s.log, x);
    assert Consecutive(s.services.Get(x));
  }

  lemma AcceptTasks(p: Profile, sv: ServiceState, d: Descriptor, now: nat, origin: map<Route, nat>, cq: nat, c: nat)
    requires ServiceOf(d) == Some(SourceOf(sv.table))
    requires var k := Route(SourceOf(sv.table), sv.nextOpId + 1); k in origin && origin[k] == cq
    ensures InService(Accept(p, sv, d, now), origin, c)
         == InService(sv, origin, c) + if cq == c then Mark(d.task) else 0
  {
    var sv' := Accept(p, sv, d, now);
    var e := sv'.completions[|sv.completions|].event;
    assert Events(sv'.completions) == Events(sv.completions) + [e];
    BoundAppend(Events(sv.completions), e, origin, c);
  }

  lemma OriginGrows(cfg: Config, s: State, src: CompletionSource, cq: nat, c: nat)
    requires Inv(cfg, s) && IsService(src)
    ensures var k := Route(src, s.services.Get(src).nextOpId + 1);
      InServices(s.services, s.origin[k := cq], c) == InServices(s.services, s.origin, c)
  {
    SourceFrame(cfg, s, src, BlockService, cq, c);
    SourceFrame(cfg, s, src, ShmemService, cq, c);
    SourceFrame(cfg, s, src, DfsService, cq, c);
    SourceFrame(cfg, s, src, DbService, cq, c);
  }

  lemma SetTasks(ss: ServiceSet, src: CompletionSource, sv: ServiceState, origin: map<Route, nat>, c: nat)
    requires IsService(src) && SourceOf(sv.table) == src
    ensures InServices(ss.Set(src, sv), origin, c) + InService(ss.Get(src), origin, c)
         == InServices(ss, origin, c) + InService(sv, origin, c)
  {
  }

  lemma BindTasks(cfg: Config, s: State, d: Descriptor, src: CompletionSource, cq: nat, c: nat, o: map<Route, nat>)
    requires ServiceOf(d) == Some(src) && o == s.origin[Route(src, s.services.Get(src).nextOpId + 1) := cq]
    requires InServices(s.services, o, c) == InServices(s.services, s.origin, c)
    ensures Issued(Bind(cfg, s, d, src, cq), c) == Issued(s, c) + if cq == c then Mark(d.task) else 0
  {
    var sv := s.services.Get(src);
    var sv' := Accept(cfg.profile, sv, d, s.clock);
    AcceptTasks(cfg.profile, sv, d, s.clock, o, cq, c);
    SetTasks(s.services, src, sv', o, c);
  }

  lemma ToServiceTasks(cfg: Config, s: State, d: Descriptor, src: CompletionSource, cq: nat, c: nat)
    requires Inv(cfg, s) && ServiceOf(d) == Some(src)
    ensures var (s', r) := SubmitToService(cfg, s, d, src, cq);
      Issued(s', c) == Issued(s, c) + if r.Accepted? && cq == c then Mark(d.task) else 0
  {
    OriginGrows(cfg, s, src, cq, c);
    BindTasks(cfg, s, d, src, cq, c, s.origin[Route(src, s.services.Get(src).nextOpId + 1) := cq]);
  }

  lemma SourceFrame(cfg: Config, s: State, src: CompletionSource, x: CompletionSource, cq: nat, c: nat)
    requires Inv(cfg, s) && IsService(src) && IsService(x)
    ensures var k := Route(src, s.services.Get(src).nextOpId + 1);
      InService(s.services.Get(x), s.origin[k := cq], c) == InService(s.services.Get(x), s.origin, c)
  {
    OlderKeys(cfg, s, src, x);
    BoundFrame(Events(s.services.Get(x).completions), s.origin, Route(src, s.services.Get(src).nextOpId + 1), cq, c);
  }

  lemma AtOnceTasks(s: State, d: Descriptor, cq: nat, c: nat)
    requires d.Io? && cq in s.cqs
    ensures Issued(SubmitAtOnce(s, d, cq).0, c) == Issued(s, c) + if cq == c then Mark(d.task) else 0
    ensures SubmitAtOnce(s, d, cq).1.Accepted?
  {
    DeliverTasks(s, cq, ImmediateEvent(d, s.clock), c);
  }

  lemma OtherTasks(cfg: Config, s: State, d: Descriptor, cq: nat, c: nat)
    requires ServiceOf(d) == None && cq in s.cqs
    ensures var (s', r) := Submit(cfg, s, d, cq);
      Issued(s', c) == Issued(s, c) + if r.Accepted? && cq == c then Mark(d.task) else 0
  {
    AtOnceTasks(s, d, cq, c);
    AtOnceTasks(Ticked(s), d, cq, c);
  }

  lemma SubmitTasks(cfg: Config, s: State, d: Descriptor, cq: nat, c: nat)
    requires Inv(cfg, s) && cq in s.cqs
    ensures var (s', r) := Submit(cfg, s, d, cq);
      Issued(s', c) == Issued(s, c) + if r.Accepted? && cq == c then Mark(d.task) else 0
  {
    if ServiceOf(d).Some? {
      Tick(cfg, s);
      ToServiceTasks(cfg, Ticked(s), d, ServiceOf(d).value, cq, c);
    } else {
      OtherTasks(cfg, s, d, cq, c);
    }
  }

  // ----- Flushing, where no entry fails ----------------------------------------------------------

  lemma DriveOneFailures(cfg: Config, p: Pass, r: Entry)
    ensures p.failures <= DriveOne(cfg, p, r).failures
  {
  }

  lemma DriveOneTasks(cfg: Config, p: Pass, r: Entry, c: nat)
    requires PassOk(cfg, p) && r.payload.cq in p.s.cqs && DriveOne(cfg, p, r).failures == []
    ensures var p' := DriveOne(cfg, p, r);
      Issued(p'.s, c) + InWork(p'.kept, c)
        == Issued(p.s, c) + InWork(p.kept, c) + if r.payload.cq == c then Mark(r.payload.desc.task) else 0
  {
    var (s', result) := Submit(cfg, p.s, r.payload.desc, r.payload.cq);
    SubmitTasks(cfg, p.s, r.payload.desc, r.payload.cq, c);
    SubmitInv(cfg, p.s, r.payload.desc, r.payload.cq);
    FlushServicesTasks(cfg, s', c);
    WorkAppend(p.kept, Retried(r, U64_MAX, cfg.retryDelay), c);
    if result.Refused? { KeptOrFailed(cfg, p.(s := s'), r, result.why); }
  }

  /** A refused entry that did not fail was drained for and kept. */
  lemma KeptOrFailed(cfg: Config, p: Pass, r: Entry, why: Refusal)
    requires Refuse(cfg, p, r, why).failures == []
    ensures Refuse(cfg, p, r, why) == Pass(FlushServices(p.s), p.kept + [Retried(r, U64_MAX, cfg.retryDelay)], [])
  {
  }

  lemma {:induction false} DriveTasks(cfg: Config, p: Pass, ready: seq<Entry>, c: nat)
    requires PassOk(cfg, p) && WorkLive(ready, p.s.cqs.Keys) && Drive(cfg, p, ready).failures == []
    ensures var p' := Drive(cfg, p, ready);
      Issued(p'.s, c) + InWork(p'.kept, c) == Issued(p.s, c) + InWork(p.kept, c) + InWork(ready, c)
  {
    if ready != [] {
      var init, r := ready[..|ready| - 1], ready[|ready| - 1];
      var p1 := Drive(cfg, p, init);
      DriveOneFailures(cfg, p1, r);
      DriveTasks(cfg, p, init, c);
      DriveInv(cfg, p, init);
      DriveOneTasks(cfg, p1, r, c);
    }
  }

  lemma PassTasks(cfg: Config, s: State, c: nat)
    requires Inv(cfg, s) && FirstPass(cfg, s).failures == []
    ensures Tasked(AfterPass(FirstPass(cfg, s)), c) == Tasked(s, c)
  {
    var s0 := s.(runtime := []);
    WithoutRuntimeInv(cfg, s);
    DriveTasks(cfg, Pass(s0, [], []), s.runtime, c);
    assert Issued(s0, c) == Issued(s, c);
  }

  /** A flush without failures moves every task-carrying item and loses none. */
  lemma {:induction false} FlushTasks(cfg: Config, s: State, c: nat)
    requires Inv(cfg, s) && FlushFailures(cfg, s) == []
    ensures Tasked(Flush(cfg, s), c) == Tasked(s, c)
    decreases Budget(cfg, s.runtime)
  {
    if s.runtime != [] {
      PassShrinks(cfg, s);
      PassInv(cfg, s);
      PassTasks(cfg, s, c);
      FlushTasks(cfg, AfterPass(FirstPass(cfg, s)), c);
    }
  }

  lemma SettledTasks(cfg: Config, s: State, c: nat)
    requires Inv(cfg, s) && FlushFailures(cfg, s) == []
    ensures InCq(Settled(cfg, s).cqs, c) == Tasked(s, c)
  {
    FlushTasks(cfg, s, c);
    FlushInv(cfg, s);
    FlushServicesTasks(cfg, Flush(cfg, s), c);
    FlushServicesInv(cfg, Flush(cfg, s));
  }
}
