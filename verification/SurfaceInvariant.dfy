/** The invariant of the guest command path and its preservation by every command. */
module SurfaceInvariant {
  import opened SimCore
  import opened Services
  import opened RuntimeQueue
  import opened SurfaceSpec

  /** Handles of one service's events in the delivery log, in order of delivery. */
  function Ids(log: seq<Delivery>, src: CompletionSource): (r: seq<nat>)
    ensures |r| <= |log|
  {
    if log == [] then []
    else
      var rest, last := Ids(log[..|log| - 1], src), log[|log| - 1].event;
      if last.source == src then rest + [last.opId] else rest
  }

  lemma IdsAppend(log: seq<Delivery>, d: Delivery, src: CompletionSource)
    ensures Ids(log + [d], src) == if d.event.source == src then Ids(log, src) + [d.event.opId] else Ids(log, src)
  {
    assert (log + [d])[..|log|] == log;
  }

  /** The last handle each service gave out. */
  datatype Handles = Handles(block: nat, shmem: nat, dfs: nat, db: nat) {
    function Get(src: CompletionSource): nat {
      match src
      case BlockService => block
      case ShmemService => shmem
      case DfsService => dfs
      case _ => db
    }
  }

  function Given(ss: ServiceSet): Handles {
    Handles(ss.block.nextOpId, ss.shmem.nextOpId, ss.dfs.nextOpId, ss.db.nextOpId)
  }

  lemma GivenGet(ss: ServiceSet, src: CompletionSource)
    ensures Given(ss).Get(src) == ss.Get(src).nextOpId
  {
  }

  /** The tracker holds exactly the handles given out and not yet delivered. */
  ghost predicate RoutesExact(routes: map<Route, nat>, log: seq<Delivery>, given: Handles) {
    forall k :: k in routes <==> IsService(k.source) && |Ids(log, k.source)| < k.opId <= given.Get(k.source)
  }

  ghost predicate OriginExact(origin: map<Route, nat>, given: Handles) {
    forall k :: k in origin <==> IsService(k.source) && 1 <= k.opId <= given.Get(k.source)
  }

  ghost predicate RoutesFaithful(routes: map<Route, nat>, origin: map<Route, nat>, live: set<nat>) {
    forall k :: k in routes ==> k in origin && routes[k] == origin[k] && routes[k] in live
  }

  /** Each service's handles were delivered as 1, 2, 3, ... without gap or repeat. */
  ghost predicate InOrder(log: seq<Delivery>, given: Handles) {
    forall src :: IsService(src) ==> Upto(Ids(log, src)) && |Ids(log, src)| <= given.Get(src)
  }

  ghost predicate Upto(ids: seq<nat>) { forall i :: 0 <= i < |ids| ==> ids[i] == i + 1 }

  /** Every delivered service event sits in the queue of the command that caused it. */
  ghost predicate LogFaithful(log: seq<Delivery>, origin: map<Route, nat>, live: set<nat>) {
    forall d :: d in log ==> d.cq in live && (IsService(d.event.source) ==>
      KeyOf(d.event) in origin && origin[KeyOf(d.event)] == d.cq)
  }

  /** Command queues and staged work refer to existing completion queues. */
  ghost predicate CmdqsLive(cmdqs: map<nat, CmdQueue>, next: nat, live: set<nat>) {
    forall q :: q in cmdqs ==> 1 <= q <= next && cmdqs[q].cq in live && |cmdqs[q].pending| <= cmdqs[q].depth
  }
  ghost predicate WorkLive(work: seq<Entry>, live: set<nat>) {
    forall r :: r in work ==> r.payload.cq in live
  }
  ghost predicate HandlesBelow(live: set<nat>, next: nat) { forall c :: c in live ==> 1 <= c <= next }

  ghost predicate Wired(s: State) {
    var given, live := Given(s.services), s.cqs.Keys;
    && RoutesExact(s.routes, s.log, given) && OriginExact(s.origin, given)
    && RoutesFaithful(s.routes, s.origin, live)
    && InOrder(s.log, given) && LogFaithful(s.log, s.origin, live)
    && HandlesBelow(live, s.nextCq) && CmdqsLive(s.cmdqs, s.nextCmdq, live) && WorkLive(s.runtime, live)
  }

  /** The service holds exactly its undelivered completions, within its depth. */
  ghost predicate QueueOk(depth: nat, sv: ServiceState, delivered: nat) {
    Consecutive(sv) && |sv.completions| <= depth && Delivered(sv) == delivered
  }

  ghost predicate Queued(cfg: Config, ss: ServiceSet, log: seq<Delivery>) {
    && QueueOk(cfg.blockDepth, ss.block, |Ids(log, BlockService)|)
    && QueueOk(cfg.shmemDepth, ss.shmem, |Ids(log, ShmemService)|)
    && QueueOk(cfg.dfsDepth, ss.dfs, |Ids(log, DfsService)|)
    && QueueOk(cfg.dbDepth, ss.db, |Ids(log, DbService)|)
  }

  lemma QueuedAt(cfg: Config, ss: ServiceSet, log: seq<Delivery>, src: CompletionSource)
    requires Queued(cfg, ss, log) && IsService(src)
    ensures QueueOk(Depth(cfg, src), ss.Get(src), |Ids(log, src)|)
  {
  }

  ghost predicate Inv(cfg: Config, s: State) { Wired(s) && Queued(cfg, s.services, s.log) }

  /** Between commands: nothing staged has been attempted yet. */
  ghost predicate Idle(cfg: Config, s: State) {
    Inv(cfg, s) && |s.runtime| <= cfg.runtimeDepth && Untried(s.runtime)
  }
  ghost predicate Untried(work: seq<Entry>) { forall r :: r in work ==> r.attempts == 0 }

  // ----- Deliveries ----------------------------------------------------------------------

  /** Appending a delivery to a faithful log. */
  lemma LogAppend(log: seq<Delivery>, d: Delivery, origin: map<Route, nat>, live: set<nat>)
    requires LogFaithful(log, origin, live) && d.cq in live
    requires IsService(d.event.source) ==> KeyOf(d.event) in origin && origin[KeyOf(d.event)] == d.cq
    ensures LogFaithful(log + [d], origin, live)
  {
  }

  /** Events that no service produced leave all service bookkeeping alone. */
  lemma DeliverOther(cfg: Config, s: State, cq: nat, e: CompletionEvent)
    requires Inv(cfg, s) && cq in s.cqs && !IsService(e.source)
    ensures var s' := Deliver(s, cq, e); Inv(cfg, s') && s'.cqs.Keys == s.cqs.Keys
  {
    var s', d := Deliver(s, cq, e), Delivery(cq, e);
    assert s'.cqs.Keys == s.cqs.Keys;
    LogAppend(s.log, d, s.origin, s.cqs.Keys);
    SameIds(s.log, d, s.routes, Given(s.services));
  }

  lemma SameIds(log: seq<Delivery>, d: Delivery, routes: map<Route, nat>, given: Handles)
    requires !IsService(d.event.source)
    ensures forall src :: IsService(src) ==> Ids(log + [d], src) == Ids(log, src)
    ensures RoutesExact(routes, log, given) ==> RoutesExact(routes, log + [d], given)
    ensures InOrder(log, given) ==> InOrder(log + [d], given)
  {
    forall src | IsService(src) ensures Ids(log + [d], src) == Ids(log, src) {
      IdsAppend(log, d, src);
    }
  }

  /** Delivering the next handle of a service moves it from the tracker to the log. */
  lemma NextId(log: seq<Delivery>, d: Delivery, routes: map<Route, nat>, given: Handles)
    requires IsService(d.event.source) && d.event.opId == |Ids(log, d.event.source)| + 1 <= given.Get(d.event.source)
    requires RoutesExact(routes, log, given) && InOrder(log, given)
    ensures |Ids(log + [d], d.event.source)| == |Ids(log, d.event.source)| + 1
    ensures forall src :: src != d.event.source ==> Ids(log + [d], src) == Ids(log, src)
    ensures KeyOf(d.event) in routes
    ensures RoutesExact(routes - {KeyOf(d.event)}, log + [d], given) && InOrder(log + [d], given)
  {
    forall src ensures src != d.event.source ==> Ids(log + [d], src) == Ids(log, src) { IdsAppend(log, d, src); }
    IdsAppend(log, d, d.event.source);
    NextExact(log, d, routes, given);
    NextOrder(log, d, given);
  }

  lemma NextExact(log: seq<Delivery>, d: Delivery, routes: map<Route, nat>, given: Handles)
    requires IsService(d.event.source) && d.event.opId == |Ids(log, d.event.source)| + 1
    requires RoutesExact(routes, log, given)
    ensures RoutesExact(routes - {KeyOf(d.event)}, log + [d], given)
  {
    var routes', log' := routes - {KeyOf(d.event)}, log + [d];
    forall k: Route
      ensures k in routes' <==> IsService(k.source) && |Ids(log', k.source)| < k.opId <= given.Get(k.source)
    {
      IdsAppend(log, d, k.source);
      assert k in routes <==> IsService(k.source) && |Ids(log, k.source)| < k.opId <= given.Get(k.source);
    }
  }

  lemma NextOrder(log: seq<Delivery>, d: Delivery, given: Handles)
    requires IsService(d.event.source) && d.event.opId == |Ids(log, d.event.source)| + 1 <= given.Get(d.event.source)
    requires InOrder(log, given)
    ensures InOrder(log + [d], given)
  {
    forall src | IsService(src) ensures Upto(Ids(log + [d], src)) && |Ids(log + [d], src)| <= given.Get(src) {
      IdsAppend(log, d, src);
      assert Upto(Ids(log, src)) && |Ids(log, src)| <= given.Get(src);
    }
  }

  lemma RouteEventWired(s: State, e: CompletionEvent)
    requires Wired(s) && IsService(e.source)
    requires e.opId == |Ids(s.log, e.source)| + 1 <= Given(s.services).Get(e.source)
    ensures var s' := RouteEvent(s, e);
      && Wired(s')
      && |Ids(s'.log, e.source)| == |Ids(s.log, e.source)| + 1
      && (forall src :: src != e.source ==> Ids(s'.log, src) == Ids(s.log, src))
      && KeyOf(e) in s.routes && s.routes[KeyOf(e)] in s.cqs
      && SameButDeliveries(s, s')
  {
    var key, s' := KeyOf(e), RouteEvent(s, e);
    assert key in s.routes;
    var d := Delivery(s.routes[key], e);
    assert s.routes[key] in s.cqs.Keys;
    assert s'.log == s.log + [d] && s'.cqs.Keys == s.cqs.Keys;
    NextId(s.log, d, s.routes, Given(s.services));
    LogAppend(s.log, d, s.origin, s.cqs.Keys);
  }

  /** Only tracker, event queues and log differ. */
  predicate SameButDeliveries(s: State, s': State) {
    s' == s.(routes := s'.routes, cqs := s'.cqs, log := s'.log) && s'.cqs.Keys == s.cqs.Keys
  }

  /** The undelivered handles of a service, all routed in one go. */
  lemma {:induction false} RouteAllWired(s: State, src: CompletionSource, events: seq<CompletionEvent>)
    requires Wired(s) && IsService(src) && |Ids(s.log, src)| + |events| <= Given(s.services).Get(src)
    requires forall i :: 0 <= i < |events| ==> events[i].source == src && events[i].opId == |Ids(s.log, src)| + 1 + i
    ensures var s' := RouteAll(s, events);
      && Wired(s')
      && |Ids(s'.log, src)| == |Ids(s.log, src)| + |events|
      && (forall x :: x != src ==> Ids(s'.log, x) == Ids(s.log, x))
      && SameButDeliveries(s, s')
  {
    if events != [] {
      RouteAllWired(s, src, events[..|events| - 1]);
      RouteEventWired(RouteAll(s, events[..|events| - 1]), events[|events| - 1]);
    }
  }

  /** Routing event i after the ones before it: its route is known and leads to a live queue. */
  lemma NextRoute(s: State, src: CompletionSource, events: seq<CompletionEvent>, i: nat)
    requires Wired(s) && IsService(src) && |Ids(s.log, src)| + |events| <= Given(s.services).Get(src)
    requires forall j :: 0 <= j < |events| ==> events[j].source == src && events[j].opId == |Ids(s.log, src)| + 1 + j
    requires i < |events|
    ensures var s', k := RouteAll(s, events[..i]), KeyOf(events[i]);
      && k in s'.routes && s'.routes[k] in s'.cqs
      && RouteAll(s, events[..i + 1]) == RouteEvent(s', events[i])
  {
    RouteAllWired(s, src, events[..i]);
    HasRoute(RouteAll(s, events[..i]), events[i]);
    assert events[..i + 1][..i] == events[..i];
  }

  lemma HasRoute(s: State, e: CompletionEvent)
    requires Wired(s) && IsService(e.source)
    requires e.opId == |Ids(s.log, e.source)| + 1 <= Given(s.services).Get(e.source)
    ensures KeyOf(e) in s.routes && s.routes[KeyOf(e)] in s.cqs
  {
  }

  lemma EmptiedWired(s: State, src: CompletionSource)
    requires Wired(s) && IsService(src)
    ensures Wired(Emptied(s, src)) && Given(Emptied(s, src).services) == Given(s.services)
  {
  }

  /** Once a service is emptied, each of its completions is the next one its route waits for. */
  lemma RoutesReady(cfg: Config, s: State, src: CompletionSource)
    requires Inv(cfg, s) && IsService(src)
    ensures Consecutive(s.services.Get(src)) && Wired(Emptied(s, src))
    ensures var events, n := Events(s.services.Get(src).completions), |Ids(s.log, src)|;
      && n + |events| <= Given(Emptied(s, src).services).Get(src)
      && forall i :: 0 <= i < |events| ==> events[i].source == src && events[i].opId == n + 1 + i
  {
    QueuedAt(cfg, s.services, s.log, src);
    GivenGet(s.services, src);
    GivenGet(Emptied(s, src).services, src);
    EmptiedWired(s, src);
  }

  lemma DrainServiceInv(cfg: Config, s: State, src: CompletionSource)
    requires Inv(cfg, s) && IsService(src)
    ensures var s' := DrainService(s, src);
      && Inv(cfg, s') && SameButDeliveries(Emptied(s, src), s')
  {
    var s1, events := Emptied(s, src), Events(s.services.Get(src).completions);
    QueuedAt(cfg, s.services, s.log, src);
    GivenGet(s.services, src);
    EmptiedWired(s, src);
    RouteAllWired(s1, src, events);
    var s' := RouteAll(s1, events);
    QueuedDrain(cfg, s, src, s'.log);
  }

  lemma QueuedDrain(cfg: Config, s: State, src: CompletionSource, log: seq<Delivery>)
    requires Queued(cfg, s.services, s.log) && IsService(src)
    requires |Ids(log, src)| == s.services.Get(src).nextOpId
    requires forall x :: x != src ==> Ids(log, x) == Ids(s.log, x)
    ensures Queued(cfg, Emptied(s, src).services, log)
  {
  }

  predicate AllDrained(ss: ServiceSet) {
    ss.block.completions == [] && ss.shmem.completions == [] && ss.dfs.completions == [] && ss.db.completions == []
  }

  /** Flushing the services empties all four, gives out no handle and touches nothing else. */
  lemma FlushServicesInv(cfg: Config, s: State)
    requires Inv(cfg, s)
    ensures var s' := FlushServices(s);
      && Inv(cfg, s') && AllDrained(s'.services) && Given(s'.services) == Given(s.services)
      && SameButDeliveries(s.(services := s'.services), s')
  {
    DrainServiceInv(cfg, s, BlockService);
    var s1 := DrainService(s, BlockService);
    DrainServiceInv(cfg, s1, ShmemService);
    var s2 := DrainService(s1, ShmemService);
    DrainServiceInv(cfg, s2, DfsService);
    var s3 := DrainService(s2, DfsService);
    DrainServiceInv(cfg, s3, DbService);
  }

  // ----- Submitting ----------------------------------------------------------------------

  /** Binding the next handle of a service to a live queue. */
  lemma BindRoute(routes: map<Route, nat>, log: seq<Delivery>, given: Handles, given': Handles, src: CompletionSource,
                  cq: nat)
    requires RoutesExact(routes, log, given) && InOrder(log, given) && IsService(src)
    requires forall x :: IsService(x) ==> given'.Get(x) == given.Get(x) + (if x == src then 1 else 0)
    ensures RoutesExact(routes[Route(src, given'.Get(src)) := cq], log, given') && InOrder(log, given')
  {
    assert Upto(Ids(log, src)) && |Ids(log, src)| <= given.Get(src);
  }

  lemma BindOrigin(s: State, given': Handles, src: CompletionSource, cq: nat)
    requires OriginExact(s.origin, Given(s.services)) && IsService(src) && cq in s.cqs
    requires RoutesFaithful(s.routes, s.origin, s.cqs.Keys) && LogFaithful(s.log, s.origin, s.cqs.Keys)
    requires forall x :: IsService(x) ==> given'.Get(x) == Given(s.services).Get(x) + (if x == src then 1 else 0)
    ensures var key := Route(src, given'.Get(src));
      && OriginExact(s.origin[key := cq], given')
      && RoutesFaithful(s.routes[key := cq], s.origin[key := cq], s.cqs.Keys)
      && LogFaithful(s.log, s.origin[key := cq], s.cqs.Keys)
  {
    assert Route(src, given'.Get(src)) !in s.origin;
  }

  /** Submitting touches neither the command queues nor the staged work. */
  predicate SameQueues(s: State, s': State) {
    && s'.runtime == s.runtime && s'.cqs.Keys == s.cqs.Keys
    && s'.cmdqs == s.cmdqs && s'.nextCq == s.nextCq && s'.nextCmdq == s.nextCmdq
  }

  lemma BindInv(cfg: Config, s: State, d: Descriptor, src: CompletionSource, cq: nat)
    requires Inv(cfg, s) && ServiceOf(d) == Some(src) && cq in s.cqs
    requires |s.services.Get(src).completions| < Depth(cfg, src)
    ensures Inv(cfg, Bind(cfg, s, d, src, cq)) && SameQueues(s, Bind(cfg, s, d, src, cq))
  {
    var sv' := Accept(cfg.profile, s.services.Get(src), d, s.clock);
    QueuedAt(cfg, s.services, s.log, src);
    AcceptConsecutive(cfg.profile, s.services.Get(src), d, s.clock);
    GivenGet(s.services, src);
    QueuedSet(cfg, s.services, s.log, src, sv');
    GivenSet(s.services, src, sv');
    var given' := Given(s.services.Set(src, sv'));
    BindRoute(s.routes, s.log, Given(s.services), given', src, cq);
    BindOrigin(s, given', src, cq);
    assert given'.Get(src) == s.services.Get(src).nextOpId + 1;
  }

  lemma GivenSet(ss: ServiceSet, src: CompletionSource, sv: ServiceState)
    requires IsService(src) && SourceOf(sv.table) == src
    ensures forall x :: IsService(x) ==>
      Given(ss.Set(src, sv)).Get(x) == if x == src then sv.nextOpId else Given(ss).Get(x)
  {
  }

  lemma QueuedSet(cfg: Config, ss: ServiceSet, log: seq<Delivery>, src: CompletionSource, sv: ServiceState)
    requires Queued(cfg, ss, log) && IsService(src) && SourceOf(sv.table) == src
    requires QueueOk(Depth(cfg, src), sv, |Ids(log, src)|)
    ensures Queued(cfg, ss.Set(src, sv), log)
  {
  }

  lemma Tick(cfg: Config, s: State)
    requires Inv(cfg, s)
    ensures Inv(cfg, Ticked(s)) && SameQueues(s, Ticked(s))
  {
  }

  lemma ServiceSubmitInv(cfg: Config, s: State, d: Descriptor, src: CompletionSource, cq: nat)
    requires Inv(cfg, s) && cq in s.cqs && ServiceOf(d) == Some(src)
    ensures Inv(cfg, SubmitToService(cfg, s, d, src, cq).0) && SameQueues(s, SubmitToService(cfg, s, d, src, cq).0)
  {
    if |s.services.Get(src).completions| < Depth(cfg, src) {
      BindInv(cfg, s, d, src, cq);
    }
  }

  lemma AtOnceInv(cfg: Config, s: State, d: Descriptor, cq: nat)
    requires Inv(cfg, s) && cq in s.cqs && d.Io?
    ensures Inv(cfg, SubmitAtOnce(s, d, cq).0) && SameQueues(s, SubmitAtOnce(s, d, cq).0)
  {
    DeliverOther(cfg, s, cq, ImmediateEvent(d, s.clock));
  }

  lemma SubmitInv(cfg: Config, s: State, d: Descriptor, cq: nat)
    requires Inv(cfg, s) && cq in s.cqs
    ensures Inv(cfg, Submit(cfg, s, d, cq).0) && SameQueues(s, Submit(cfg, s, d, cq).0)
    ensures Submit(cfg, s, d, cq).1 != Refused(NoCompletionQueue)
  {
    Tick(cfg, s);
    if ServiceOf(d).Some? {
      ServiceSubmitInv(cfg, Ticked(s), d, ServiceOf(d).value, cq);
    } else if d.opcode.Dispatch? {
      AtOnceInv(cfg, s, d, cq);
    } else if d.opcode.RemoteFetch? || d.opcode.RemoteStore? {
      AtOnceInv(cfg, Ticked(s), d, cq);
    }
  }

  // ----- Flushing ------------------------------------------------------------------------

  /** During a pass the state is sound and everything still to be reported or retried names a live queue. */
  ghost predicate PassOk(cfg: Config, p: Pass) {
    && Inv(cfg, p.s) && p.s.runtime == []
    && WorkLive(p.kept, p.s.cqs.Keys) && FailuresLive(p.failures, p.s.cqs.Keys)
  }
  ghost predicate FailuresLive(failures: seq<Failure>, live: set<nat>) {
    forall f :: f in failures ==> f.cq in live && f.why != NoCompletionQueue
  }

  lemma RefuseInv(cfg: Config, p: Pass, r: Entry, why: Refusal)
    requires PassOk(cfg, p) && r.payload.cq in p.s.cqs && why != NoCompletionQueue
    ensures PassOk(cfg, Refuse(cfg, p, r, why)) && SameQueues(p.s, Refuse(cfg, p, r, why).s)
  {
    if why.QueueFull? {
      FlushServicesInv(cfg, p.s);
      assert Refuse(cfg, p, r, why).s == FlushServices(p.s);
    }
  }

  lemma DriveOneInv(cfg: Config, p: Pass, r: Entry)
    requires PassOk(cfg, p) && r.payload.cq in p.s.cqs
    ensures PassOk(cfg, DriveOne(cfg, p, r)) && SameQueues(p.s, DriveOne(cfg, p, r).s)
  {
    SubmitInv(cfg, p.s, r.payload.desc, r.payload.cq);
    var (s', result) := Submit(cfg, p.s, r.payload.desc, r.payload.cq);
    assert PassOk(cfg, p.(s := s'));
    if result.Refused? {
      RefuseInv(cfg, p.(s := s'), r, result.why);
      assert DriveOne(cfg, p, r) == Refuse(cfg, p.(s := s'), r, result.why);
    } else {
      assert DriveOne(cfg, p, r) == p.(s := s');
    }
  }

  lemma DriveStep(cfg: Config, p: Pass, ready: seq<Entry>, i: nat)
    requires i < |ready|
    ensures Drive(cfg, p, ready[..i + 1]) == DriveOne(cfg, Drive(cfg, p, ready[..i]), ready[i])
  {
    assert ready[..i + 1][..i] == ready[..i];
  }

  /** Every failure names an existing queue. */
  ghost predicate Reportable(failures: seq<Failure>, live: set<nat>) { forall f :: f in failures ==> f.cq in live }

  lemma LiveStep(failures: seq<Failure>, i: nat, live: set<nat>)
    requires i < |failures|
    ensures Reportable(failures[..i + 1], live) <==> Reportable(failures[..i], live) && failures[i].cq in live
    ensures forall s :: Report(s, failures[..i + 1]) == ReportOne(Report(s, failures[..i]), failures[i])
  {
    assert failures[..i + 1] == failures[..i] + [failures[i]] && failures[..i + 1][..i] == failures[..i];
  }

  lemma LivePrefix(failures: seq<Failure>, i: nat, live: set<nat>)
    requires i <= |failures| && !Reportable(failures[..i], live)
    ensures !Reportable(failures, live)
  {
    var f :| f in failures[..i] && f.cq !in live;
    assert f in failures;
  }

  /** Failures already collected do not influence how an entry is driven. */
  lemma DriveFrame(cfg: Config, s: State, kept: seq<Entry>, failures: seq<Failure>, r: Entry)
    ensures var p, p' := DriveOne(cfg, Pass(s, kept, []), r), DriveOne(cfg, Pass(s, kept, failures), r);
      p'.s == p.s && p'.kept == p.kept && p'.failures == failures + p.failures
  {
  }

  lemma WithoutRuntimeInv(cfg: Config, s: State)
    requires Inv(cfg, s)
    ensures Inv(cfg, s.(runtime := []))
  {
  }

  lemma {:induction false} DriveInv(cfg: Config, p: Pass, ready: seq<Entry>)
    requires PassOk(cfg, p) && WorkLive(ready, p.s.cqs.Keys)
    ensures PassOk(cfg, Drive(cfg, p, ready)) && SameQueues(p.s, Drive(cfg, p, ready).s)
  {
    if ready != [] {
      DriveInv(cfg, p, ready[..|ready| - 1]);
      DriveOneInv(cfg, Drive(cfg, p, ready[..|ready| - 1]), ready[|ready| - 1]);
    }
  }

  lemma {:induction false} ReportInv(cfg: Config, s: State, failures: seq<Failure>)
    requires Inv(cfg, s) && FailuresLive(failures, s.cqs.Keys)
    ensures Inv(cfg, Report(s, failures)) && SameQueues(s, Report(s, failures))
  {
    if failures != [] {
      ReportInv(cfg, s, failures[..|failures| - 1]);
      ReportOneInv(cfg, Report(s, failures[..|failures| - 1]), failures[|failures| - 1]);
    }
  }

  lemma ReportOneInv(cfg: Config, s: State, f: Failure)
    requires Inv(cfg, s) && f.cq in s.cqs
    ensures Inv(cfg, ReportOne(s, f)) && SameQueues(s, ReportOne(s, f))
  {
    TickDeliver(cfg, s, f.cq, FailureEvent(f, s.clock + 1));
  }

  lemma TickDeliver(cfg: Config, s: State, cq: nat, e: CompletionEvent)
    requires Inv(cfg, s) && cq in s.cqs && !IsService(e.source)
    ensures Inv(cfg, Deliver(Ticked(s), cq, e)) && SameQueues(s, Deliver(Ticked(s), cq, e))
  {
    Tick(cfg, s);
    DeliverOther(cfg, Ticked(s), cq, e);
  }

  lemma PassInv(cfg: Config, s: State)
    requires Inv(cfg, s)
    ensures PassOk(cfg, FirstPass(cfg, s)) && SameQueues(s.(runtime := []), FirstPass(cfg, s).s)
    ensures var s' := AfterPass(FirstPass(cfg, s)); Inv(cfg, s') && SameQueues(s.(runtime := s'.runtime), s')
  {
    DriveInv(cfg, Pass(s.(runtime := []), [], []), s.runtime);
    var p := FirstPass(cfg, s);
    ReportInv(cfg, p.s.(runtime := p.kept), p.failures);
  }

  lemma {:induction false} FlushInv(cfg: Config, s: State)
    requires Inv(cfg, s)
    ensures Inv(cfg, Flush(cfg, s)) && SameQueues(s.(runtime := []), Flush(cfg, s))
    decreases Budget(cfg, s.runtime)
  {
    if s.runtime != [] {
      PassInv(cfg, s);
      PassShrinks(cfg, s);
      FlushInv(cfg, AfterPass(FirstPass(cfg, s)));
    }
  }

  // ----- Commands ------------------------------------------------------------------------

  lemma {:induction false} StageIdle(cfg: Config, s: State, cq: nat, descs: seq<Descriptor>)
    requires Idle(cfg, s) && cq in s.cqs && |s.runtime| + |descs| <= cfg.runtimeDepth
    ensures Idle(cfg, Stage(cfg, s, cq, descs))
    ensures |Stage(cfg, s, cq, descs).runtime| == |s.runtime| + |descs|
  {
    if descs != [] {
      StageIdle(cfg, s, cq, descs[..|descs| - 1]);
    }
  }

  lemma PoppedIdle(cfg: Config, s: State, cmdq: nat, batch: nat)
    requires Idle(cfg, s) && cmdq in s.cmdqs && batch <= |s.cmdqs[cmdq].pending|
    ensures Idle(cfg, Popped(s, cmdq, batch))
  {
    var s' := Popped(s, cmdq, batch);
    assert CmdqsLive(s'.cmdqs, s'.nextCmdq, s'.cqs.Keys);
  }

  lemma RingIdle(cfg: Config, s: State, cmdq: nat, owner: nat, maxBatch: Option<nat>)
    requires Idle(cfg, s)
    ensures Idle(cfg, Ring(cfg, s, cmdq, owner, maxBatch).0)
  {
    if cmdq in s.cmdqs && s.cmdqs[cmdq].owner == owner {
      var q := s.cmdqs[cmdq];
      var batch, free := Limit(maxBatch, |q.pending|), Free(cfg, s);
      var s1, some := Popped(s, cmdq, batch), q.pending[..Min(batch, free)];
      PoppedIdle(cfg, s, cmdq, batch);
      StageIdle(cfg, s1, q.cq, some);
      var s2 := Stage(cfg, s1, q.cq, some);
      Tick(cfg, s2);
      assert Ring(cfg, s, cmdq, owner, maxBatch).0 == if batch <= free then s2 else Ticked(s2);
    }
  }

  predicate NothingPending(s: State) { s.runtime == [] && AllDrained(s.services) && s.routes == map[] }

  lemma SettledIdle(cfg: Config, s: State)
    requires Idle(cfg, s)
    ensures Idle(cfg, Settled(cfg, s)) && NothingPending(Settled(cfg, s))
    ensures SameQueues(s.(runtime := []), Settled(cfg, s))
  {
    FlushInv(cfg, s);
    FlushServicesInv(cfg, Flush(cfg, s));
    NothingRouted(cfg, Settled(cfg, s));
  }

  /** Taking events out of a completion queue affects nothing else. */
  lemma TakenIdle(cfg: Config, s: State, cq: nat, n: nat)
    requires Idle(cfg, s) && cq in s.cqs && n <= |s.cqs[cq].events|
    ensures Idle(cfg, Taken(s, cq, n))
  {
    assert Taken(s, cq, n).cqs.Keys == s.cqs.Keys;
  }

  /** After a poll, successful or not, nothing is left in the runtime queue, in any service or in the tracker. */
  lemma PollIdle(cfg: Config, s: State, cq: nat, owner: nat, max: Option<nat>)
    requires Idle(cfg, s)
    ensures Idle(cfg, Poll(cfg, s, cq, owner, max).0) && NothingPending(Poll(cfg, s, cq, owner, max).0)
  {
    SettledIdle(cfg, s);
    var s1 := Settled(cfg, s);
    if Poll(cfg, s, cq, owner, max).1.Completions? {
      TakenIdle(cfg, s1, cq, Limit(max, |s1.cqs[cq].events|));
    }
  }

  lemma NothingRouted(cfg: Config, s: State)
    requires Inv(cfg, s) && AllDrained(s.services)
    ensures s.routes == map[]
  {
    forall k: Route | IsService(k.source) ensures k !in s.routes {
      QueuedAt(cfg, s.services, s.log, k.source);
      GivenGet(s.services, k.source);
    }
  }

  lemma SegmentIdle(cfg: Config, s: State, bytes: nat)
    requires Idle(cfg, s)
    ensures Idle(cfg, NewSegment(cfg, s, bytes).0)
  {
    var s1 := s.(nextSegment := s.nextSegment + 1);
    CountedIdle(cfg, s);
    if NewSegment(cfg, s, bytes).1.SegmentCreated? {
      var t := s.services.shmem.table.segments[s.nextSegment + 1 := SegmentMeta(0, bytes)];
      SegmentsIdle(cfg, s1, t);
      assert NewSegment(cfg, s, bytes).0 == WithSegments(s1, t);
    } else {
      assert NewSegment(cfg, s, bytes).0 == if bytes == 0 then s else s1;
    }
  }

  lemma CountedIdle(cfg: Config, s: State)
    requires Idle(cfg, s)
    ensures Idle(cfg, s.(nextSegment := s.nextSegment + 1))
  {
  }

  lemma SegmentsIdle(cfg: Config, s: State, t: map<nat, SegmentMeta>)
    requires Idle(cfg, s)
    ensures Idle(cfg, WithSegments(s, t))
  {
    var sv := s.services.shmem.(table := Segments(t));
    QueuedAt(cfg, s.services, s.log, ShmemService);
    QueuedSet(cfg, s.services, s.log, ShmemService, sv);
    assert Given(WithSegments(s, t).services) == Given(s.services);
  }

  lemma RegisterIdle(cfg: Config, s: State, owner: nat)
    requires Idle(cfg, s)
    ensures Idle(cfg, Execute(cfg, s, RegisterCq(owner)).0)
  {
    var s' := Execute(cfg, s, RegisterCq(owner)).0;
    assert s'.cqs.Keys == s.cqs.Keys + {s.nextCq + 1};
  }

  lemma NewCmdQueueIdle(cfg: Config, s: State, cq: nat, owner: nat, depth: nat)
    requires Idle(cfg, s)
    ensures Idle(cfg, NewCmdQueue(s, cq, owner, depth).0)
  {
    var s' := NewCmdQueue(s, cq, owner, depth).0;
    assert CmdqsLive(s'.cmdqs, s'.nextCmdq, s'.cqs.Keys);
  }

  lemma EnqueueIdle(cfg: Config, s: State, cmdq: nat, owner: nat, d: Descriptor)
    requires Idle(cfg, s)
    ensures Idle(cfg, Enqueue(s, cmdq, owner, d).0)
  {
    var s' := Enqueue(s, cmdq, owner, d).0;
    assert CmdqsLive(s'.cmdqs, s'.nextCmdq, s'.cqs.Keys);
  }

  lemma DirectIdle(cfg: Config, s: State, d: Descriptor, pick: nat)
    requires Idle(cfg, s)
    ensures Idle(cfg, Direct(cfg, s, d, pick).0)
  {
    if pick in s.cqs {
      SubmitInv(cfg, s, d, pick);
      assert Direct(cfg, s, d, pick).0 == Submit(cfg, s, d, pick).0;
    }
  }

  lemma StepIdle(cfg: Config, s: State, cmd: Command)
    requires Idle(cfg, s)
    ensures Idle(cfg, Execute(cfg, s, cmd).0)
  {
    match cmd
    case CreateSegment(bytes) => SegmentIdle(cfg, s, bytes);
    case RegisterCq(owner) => RegisterIdle(cfg, s, owner);
    case CreateCmdQueue(cq, owner, depth) => NewCmdQueueIdle(cfg, s, cq, owner, depth);
    case EnqueueCmd(cmdq, owner, d) => EnqueueIdle(cfg, s, cmdq, owner, d);
    case RingDoorbell(cmdq, owner, maxBatch) => RingIdle(cfg, s, cmdq, owner, maxBatch);
    case SubmitDirect(d, pick) => DirectIdle(cfg, s, d, pick);
    case PollCq(cq, owner, max) => PollIdle(cfg, s, cq, owner, max);
  }

  /** Every command sequence leads to a state satisfying the invariant. */
  lemma {:induction false} AlwaysIdle(cfg: Config, cmds: seq<Command>)
    ensures Idle(cfg, Exec(cfg, cmds))
  {
    if cmds != [] {
      AlwaysIdle(cfg, cmds[..|cmds| - 1]);
      StepIdle(cfg, Exec(cfg, cmds[..|cmds| - 1]), cmds[|cmds| - 1]);
    }
  }

  /** Some queued completion of the route's service carries the route's handle. */
  ghost predicate IsQueued(ss: ServiceSet, k: Route) {
    exists i :: 0 <= i < |ss.Get(k.source).completions| && KeyOf(ss.Get(k.source).completions[i].event) == k
  }

  /**
   Routing: after any command sequence, the tracker's keys are exactly the (source, handle)
   pairs queued in the services; each points at the queue its command named; and every
   service event ever delivered went to that queue, handle after handle.
   */
  lemma Routing(cfg: Config, cmds: seq<Command>)
    ensures var s := Exec(cfg, cmds);
      && (forall k :: k in s.routes <==> IsService(k.source) && IsQueued(s.services, k))
      && RoutesFaithful(s.routes, s.origin, s.cqs.Keys)
      && LogFaithful(s.log, s.origin, s.cqs.Keys) && InOrder(s.log, Given(s.services))
  {
    var s := Exec(cfg, cmds);
    AlwaysIdle(cfg, cmds);
    forall k: Route | IsService(k.source) ensures k in s.routes <==> IsQueued(s.services, k) {
      RouteIsQueued(cfg, s, k);
    }
  }

  lemma RouteIsQueued(cfg: Config, s: State, k: Route)
    requires Inv(cfg, s) && IsService(k.source)
    ensures k in s.routes <==> IsQueued(s.services, k)
  {
    QueuedAt(cfg, s.services, s.log, k.source);
    GivenGet(s.services, k.source);
    var q := s.services.Get(k.source).completions;
    if k in s.routes {
      assert KeyOf(q[k.opId - |Ids(s.log, k.source)| - 1].event) == k;
    }
  }
}
