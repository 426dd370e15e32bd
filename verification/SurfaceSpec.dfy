/**
 What LocalGuestUapiSurface (sim-uapi) does, as functions on its state.

 The runtime queue is only ever flushed at time u64::MAX, so every flush here is forced:
 all staged entries are taken at once and every queued service completion is ready.
 */
module SurfaceSpec {
  import opened SimCore
  import opened Services
  import opened RuntimeQueue

  datatype Config = Config(
    profile: Profile, blockDepth: nat, shmemDepth: nat, dfsDepth: nat, dbDepth: nat,
    issueLatency: nat, retryDelay: nat, runtimeDepth: nat, maxRetries: nat)

  function Depth(cfg: Config, src: CompletionSource): nat {
    match src
    case BlockService => cfg.blockDepth
    case ShmemService => cfg.shmemDepth
    case DfsService => cfg.dfsDepth
    case _ => cfg.dbDepth
  }

  datatype Services4 = Services4(block: ServiceState, shmem: ServiceState, dfs: ServiceState, db: ServiceState) {
    function Get(src: CompletionSource): ServiceState {
      match src
      case BlockService => block
      case ShmemService => shmem
      case DfsService => dfs
      case _ => db
    }

    function Set(src: CompletionSource, sv: ServiceState): Services4 {
      match src
      case BlockService => this.(block := sv)
      case ShmemService => this.(shmem := sv)
      case DfsService => this.(dfs := sv)
      case _ => this.(db := sv)
    }

    predicate Typed() {
      && block.table.Blocks? && shmem.table.Segments? && dfs.table.Files? && db.table.Rows?
    }
  }

  type ServiceSet = ss: Services4 | ss.Typed()
    witness Services4(ServiceState(Blocks(map[]), [], 0), ServiceState(Segments(map[]), [], 0),
                      ServiceState(Files(map[]), [], 0), ServiceState(Rows(map[]), [], 0))

  datatype Cq = Cq(owner: nat, events: seq<CompletionEvent>)
  datatype CmdQueue = CmdQueue(cq: nat, owner: nat, depth: nat, pending: seq<Descriptor>)
  datatype Work = Work(cq: nat, desc: Descriptor)
  datatype Route = Route(source: CompletionSource, opId: nat)
  datatype Delivery = Delivery(cq: nat, event: CompletionEvent)

  type Entry = Record<Work>

  /**
   The surface.  `log` (every event ever put into a completion queue, in order) and `origin`
   (the completion queue each service handle was bound to) are history: no operation reads them.
   */
  datatype State = State(
    services: ServiceSet,
    clock: nat, nextSegment: nat, nextCq: nat, nextCmdq: nat,
    cqs: map<nat, Cq>, cmdqs: map<nat, CmdQueue>,
    runtime: seq<Entry>,
    routes: map<Route, nat>,
    log: seq<Delivery>, origin: map<Route, nat>)

  function Initial(): State {
    State(Services4(ServiceState(Blocks(map[]), [], 0), ServiceState(Segments(map[]), [], 0),
                    ServiceState(Files(map[]), [], 0), ServiceState(Rows(map[]), [], 0)),
          0, 0, 0, 0, map[], map[], [], map[], [], map[])
  }

  // ----- Submitting one descriptor -------------------------------------------------------

  datatype Refusal = QueueFull(source: CompletionSource) | MissingBlockHash | NoCompletionQueue

  datatype Submission = Accepted(opId: nat) | Refused(why: Refusal)

  function Code(r: Refusal): string {
    match r
    case QueueFull(src) =>
      (match src
       case BlockService => "block queue full"
       case ShmemService => "shmem queue full"
       case DfsService => "dfs queue full"
       case _ => "db queue full")
    case MissingBlockHash => "missing block hash"
    case NoCompletionQueue => "runtime_issue_failed"
  }

  /** enqueue_to_cq on an existing queue. */
  function Deliver(s: State, cq: nat, e: CompletionEvent): State {
    if cq in s.cqs
    then s.(cqs := s.cqs[cq := s.cqs[cq].(events := s.cqs[cq].events + [e])], log := s.log + [Delivery(cq, e)])
    else s
  }

  /** The service takes the descriptor and the tracker binds the new handle to cq. */
  function Bind(cfg: Config, s: State, d: Descriptor, src: CompletionSource, cq: nat): State
    requires ServiceOf(d) == Some(src)
  {
    var key := Route(src, s.services.Get(src).nextOpId + 1);
    s.(services := s.services.Set(src, Accept(cfg.profile, s.services.Get(src), d, s.clock)),
       routes := s.routes[key := cq], origin := s.origin[key := cq])
  }

  /** next_service_time */
  function Ticked(s: State): State { s.(clock := s.clock + 1) }

  function SubmitToService(cfg: Config, s: State, d: Descriptor, src: CompletionSource, cq: nat): (State, Submission)
    requires ServiceOf(d) == Some(src)
  {
    if |s.services.Get(src).completions| >= Depth(cfg, src) then (s, Refused(QueueFull(src)))
    else (Bind(cfg, s, d, src, cq), Accepted(s.services.Get(src).nextOpId + 1))
  }

  /** A request that completes at once, without a service. */
  function SubmitAtOnce(s: State, d: Descriptor, cq: nat): (State, Submission)
    requires d.Io?
  {
    if cq in s.cqs then (Deliver(s, cq, ImmediateEvent(d, s.clock)), Accepted(d.opId))
    else (s, Refused(NoCompletionQueue))
  }

  function ImmediateEvent(d: Descriptor, now: nat): (e: CompletionEvent)
    requires d.Io?
    ensures !IsService(e.source)
  {
    if d.opcode.Dispatch?
    then CompletionEvent(d.opId, d.task, GuestUapi, Success, d.opId)
    else CompletionEvent(d.opId, d.task, RemoteNode, RetryableFailure("remote_transport_not_available"), now)
  }

  /** submit_descriptor_to_cq */
  function Submit(cfg: Config, s: State, d: Descriptor, cq: nat): (State, Submission) {
    var target := ServiceOf(d);
    if target.Some? then SubmitToService(cfg, Ticked(s), d, target.value, cq)
    else if d.opcode.Dispatch? then SubmitAtOnce(s, d, cq)
    else if d.opcode.RemoteFetch? || d.opcode.RemoteStore? then SubmitAtOnce(Ticked(s), d, cq)
    else (s, Refused(MissingBlockHash))
  }

  // ----- Draining the services -----------------------------------------------------------

  function KeyOf(e: CompletionEvent): Route { Route(e.source, e.opId) }

  /** route_completion_to_cq for a completion whose route is known. */
  function RouteEvent(s: State, e: CompletionEvent): State {
    if KeyOf(e) in s.routes
    then Deliver(s.(routes := s.routes - {KeyOf(e)}), s.routes[KeyOf(e)], e)
    else s
  }

  function RouteAll(s: State, events: seq<CompletionEvent>): State {
    if events == [] then s
    else RouteEvent(RouteAll(s, events[..|events| - 1]), events[|events| - 1])
  }

  function Emptied(s: State, src: CompletionSource): State {
    s.(services := s.services.Set(src, s.services.Get(src).(completions := [])))
  }

  function DrainService(s: State, src: CompletionSource): State
    requires IsService(src)
  {
    RouteAll(Emptied(s, src), Events(s.services.Get(src).completions))
  }

  function FlushServices(s: State): State {
    DrainService(DrainService(DrainService(DrainService(s, BlockService), ShmemService), DfsService), DbService)
  }

  // ----- Flushing the runtime queue ------------------------------------------------------

  datatype Failure = Failure(cq: nat, why: Refusal)

  /** One pass over the staged entries: the state, the entries kept for a retry, the failures. */
  datatype Pass = Pass(s: State, kept: seq<Entry>, failures: seq<Failure>)

  /** A full service is drained and the entry retried while its budget lasts; anything else fails the entry. */
  function Refuse(cfg: Config, p: Pass, r: Entry, why: Refusal): Pass {
    if !why.QueueFull? then p.(failures := p.failures + [Failure(r.payload.cq, why)])
    else if r.attempts < cfg.maxRetries
    then Pass(FlushServices(p.s), p.kept + [Retried(r, U64_MAX, cfg.retryDelay)], p.failures)
    else Pass(FlushServices(p.s), p.kept, p.failures + [Failure(r.payload.cq, why)])
  }

  function DriveOne(cfg: Config, p: Pass, r: Entry): Pass {
    var (s', result) := Submit(cfg, p.s, r.payload.desc, r.payload.cq);
    if result.Accepted? then p.(s := s') else Refuse(cfg, p.(s := s'), r, result.why)
  }

  function Drive(cfg: Config, p: Pass, ready: seq<Entry>): Pass {
    if ready == [] then p
    else DriveOne(cfg, Drive(cfg, p, ready[..|ready| - 1]), ready[|ready| - 1])
  }

  function FailureEvent(f: Failure, opId: nat): CompletionEvent {
    CompletionEvent(opId, None, GuestUapi, RetryableFailure("runtime_exhausted_" + Code(f.why)), U64_MAX)
  }

  function ReportOne(s: State, f: Failure): State {
    Deliver(Ticked(s), f.cq, FailureEvent(f, s.clock + 1))
  }

  function Report(s: State, failures: seq<Failure>): State {
    if failures == [] then s
    else ReportOne(Report(s, failures[..|failures| - 1]), failures[|failures| - 1])
  }

  function FirstPass(cfg: Config, s: State): Pass {
    Drive(cfg, Pass(s.(runtime := []), [], []), s.runtime)
  }

  function AfterPass(p: Pass): State { Report(p.s.(runtime := p.kept), p.failures) }

  /** How many passes an entry can still take part in. */
  function Remaining(cfg: Config, r: Entry): nat {
    if r.attempts <= cfg.maxRetries then cfg.maxRetries - r.attempts + 1 else 1
  }

  /** The largest remaining budget in a queue. */
  function Budget(cfg: Config, q: seq<Entry>): (b: nat)
    ensures forall r :: r in q ==> Remaining(cfg, r) <= b
    ensures q != [] ==> b > 0
  {
    if q == [] then 0
    else
      var b, m := Budget(cfg, q[..|q| - 1]), Remaining(cfg, q[|q| - 1]);
      if b < m then m else b
  }

  lemma {:induction false} BudgetBelow(cfg: Config, q: seq<Entry>, b: nat)
    requires forall r :: r in q ==> Remaining(cfg, r) <= b
    ensures Budget(cfg, q) <= b
  {
    if q != [] { BudgetBelow(cfg, q[..|q| - 1], b); }
  }

  /** Whatever a pass keeps has one attempt less to go. */
  lemma {:induction false} DriveKeeps(cfg: Config, p: Pass, ready: seq<Entry>, b: nat)
    requires forall r :: r in p.kept ==> Remaining(cfg, r) < b
    requires forall r :: r in ready ==> Remaining(cfg, r) <= b
    ensures forall r :: r in Drive(cfg, p, ready).kept ==> Remaining(cfg, r) < b
  {
    if ready != [] {
      DriveKeeps(cfg, p, ready[..|ready| - 1], b);
      DriveOneKeeps(cfg, Drive(cfg, p, ready[..|ready| - 1]), ready[|ready| - 1], b);
    }
  }

  lemma DriveOneKeeps(cfg: Config, p: Pass, r: Entry, b: nat)
    requires forall x :: x in p.kept ==> Remaining(cfg, x) < b
    requires Remaining(cfg, r) <= b
    ensures forall x :: x in DriveOne(cfg, p, r).kept ==> Remaining(cfg, x) < b
  {
    var kept := DriveOne(cfg, p, r).kept;
    assert kept == p.kept || kept == p.kept + [Retried(r, U64_MAX, cfg.retryDelay)];
  }

  lemma {:induction false} ReportKeeps(s: State, failures: seq<Failure>)
    ensures Report(s, failures).runtime == s.runtime && Report(s, failures).services == s.services
  {
    if failures != [] { ReportKeeps(s, failures[..|failures| - 1]); }
  }

  /** Why flush_runtime's recursion ends: the largest remaining budget falls with every pass. */
  lemma PassShrinks(cfg: Config, s: State)
    requires s.runtime != []
    ensures Budget(cfg, AfterPass(FirstPass(cfg, s)).runtime) < Budget(cfg, s.runtime)
  {
    var b, p := Budget(cfg, s.runtime), FirstPass(cfg, s);
    DriveKeeps(cfg, Pass(s.(runtime := []), [], []), s.runtime, b);
    ReportKeeps(p.s.(runtime := p.kept), p.failures);
    BudgetBelow(cfg, p.kept, b - 1);
  }

  /** flush_runtime(u64::MAX) */
  function Flush(cfg: Config, s: State): (r: State)
    ensures r.runtime == []
    decreases Budget(cfg, s.runtime)
  {
    var s' := AfterPass(FirstPass(cfg, s));
    if s.runtime == [] then s
    else if s'.runtime == [] then s'
    else
      PassShrinks(cfg, s);
      Flush(cfg, s')
  }

  /** The failures all passes of one flush report, in order. */
  function FlushFailures(cfg: Config, s: State): seq<Failure>
    decreases Budget(cfg, s.runtime)
  {
    var p := FirstPass(cfg, s);
    if s.runtime == [] then []
    else
      PassShrinks(cfg, s);
      p.failures + FlushFailures(cfg, AfterPass(p))
  }

  // ----- Commands ------------------------------------------------------------------------

  /** `pick` is the queue default_cq happens to find; map iteration order is arbitrary. */
  datatype Command =
    | CreateSegment(bytes: nat)
    | RegisterCq(owner: nat)
    | CreateCmdQueue(cq: nat, owner: nat, depth: nat)
    | EnqueueCmd(cmdq: nat, owner: nat, desc: Descriptor)
    | RingDoorbell(cmdq: nat, owner: nat, maxBatch: Option<nat>)
    | SubmitDirect(desc: Descriptor, pick: nat)
    | PollCq(cq: nat, owner: nat, maxEntries: Option<nat>)

  function WithPick(cmd: Command, pick: nat): Command {
    if cmd.SubmitDirect? then cmd.(pick := pick) else cmd
  }

  datatype Response =
    | SegmentCreated(segment: nat)
    | CqRegistered(cq: nat)
    | CmdQueueCreated(cmdq: nat)
    | CommandEnqueued(depth: nat, remainingCapacity: nat)
    | DoorbellRung(submitted: nat, pending: nat)
    | Submitted(opId: nat)
    | Completions(events: seq<CompletionEvent>, remaining: nat)
    | Failed(error: SimError)

  function Limit(max: Option<nat>, available: nat): (n: nat)
    ensures n <= available
  {
    if max.Some? then Min(max.value, available) else available
  }

  function Stage(cfg: Config, s: State, cq: nat, descs: seq<Descriptor>): (r: State)
    ensures r == s.(clock := r.clock, runtime := r.runtime)
  {
    if descs == [] then s
    else
      var s' := Stage(cfg, s, cq, descs[..|descs| - 1]);
      var now := s'.clock + 1;
      var work := Work(cq, descs[|descs| - 1]);
      s'.(clock := now, runtime := s'.runtime + [Record(work, SaturatingAdd(now, cfg.issueLatency), 0)])
  }

  function Popped(s: State, cmdq: nat, batch: nat): State
    requires cmdq in s.cmdqs && batch <= |s.cmdqs[cmdq].pending|
  {
    s.(cmdqs := s.cmdqs[cmdq := s.cmdqs[cmdq].(pending := s.cmdqs[cmdq].pending[batch..])])
  }

  /** Room left in the runtime queue. */
  function Free(cfg: Config, s: State): nat {
    if |s.runtime| < cfg.runtimeDepth then cfg.runtimeDepth - |s.runtime| else 0
  }

  /** The batch leaves the command queue; what does not fit the runtime queue is lost. */
  function RingBatch(cfg: Config, s: State, cmdq: nat, batch: nat): (State, Response)
    requires cmdq in s.cmdqs && batch <= |s.cmdqs[cmdq].pending|
  {
    var q := s.cmdqs[cmdq];
    var free := Free(cfg, s);
    var s1 := Popped(s, cmdq, batch);
    if batch <= free
    then (Stage(cfg, s1, q.cq, q.pending[..batch]), DoorbellRung(batch, |q.pending| - batch))
    else (Ticked(Stage(cfg, s1, q.cq, q.pending[..free])), Failed(InvalidInput(UapiRuntimeQueueFull)))
  }

  function Ring(cfg: Config, s: State, cmdq: nat, owner: nat, maxBatch: Option<nat>): (State, Response) {
    if cmdq !in s.cmdqs then (s, Failed(NotFound(CommandQueue)))
    else if s.cmdqs[cmdq].owner != owner then (s, Failed(InvalidInput(CommandQueueOwnerMismatch)))
    else RingBatch(cfg, s, cmdq, Limit(maxBatch, |s.cmdqs[cmdq].pending|))
  }

  /** Everything staged has been submitted and everything queued has been delivered. */
  function Settled(cfg: Config, s: State): State { FlushServices(Flush(cfg, s)) }

  function Taken(s: State, cq: nat, n: nat): State
    requires cq in s.cqs && n <= |s.cqs[cq].events|
  {
    s.(cqs := s.cqs[cq := s.cqs[cq].(events := s.cqs[cq].events[n..])])
  }

  /** Popping completions off a queue, once everything is settled. */
  function Pop(s: State, cq: nat, owner: nat, maxEntries: Option<nat>): (State, Response) {
    if cq !in s.cqs then (s, Failed(NotFound(CompletionQueue)))
    else if s.cqs[cq].owner != owner then (s, Failed(InvalidInput(CompletionQueueOwnerMismatch)))
    else
      var events := s.cqs[cq].events;
      var n := Limit(maxEntries, |events|);
      (Taken(s, cq, n), Completions(events[..n], |events| - n))
  }

  function Poll(cfg: Config, s: State, cq: nat, owner: nat, maxEntries: Option<nat>): (State, Response) {
    Pop(Settled(cfg, s), cq, owner, maxEntries)
  }

  function WithSegments(s: State, t: map<nat, SegmentMeta>): State {
    s.(services := s.services.Set(ShmemService, s.services.shmem.(table := Segments(t))))
  }

  function NewSegment(cfg: Config, s: State, bytes: nat): (State, Response) {
    if bytes == 0 then (s, Failed(InvalidInput(SegmentBytesZero)))
    else
      var id := s.nextSegment + 1;
      var s1, t := s.(nextSegment := id), s.services.shmem.table.segments;
      if bytes > cfg.profile.maxSegmentBytes then (s1, Failed(InvalidInput(SegmentTooLarge)))
      else if id !in t && |t| >= cfg.profile.maxSegments then (s1, Failed(InvalidInput(SegmentTableFull)))
      else (WithSegments(s1, t[id := SegmentMeta(0, bytes)]), SegmentCreated(id))
  }

  function NewCq(s: State, owner: nat): (State, Response) {
    (s.(nextCq := s.nextCq + 1, cqs := s.cqs[s.nextCq + 1 := Cq(owner, [])]), CqRegistered(s.nextCq + 1))
  }

  function NewCmdQueue(s: State, cq: nat, owner: nat, depth: nat): (State, Response) {
    if depth == 0 then (s, Failed(InvalidInput(CommandQueueDepthZero)))
    else if cq !in s.cqs then (s, Failed(NotFound(CompletionQueue)))
    else if s.cqs[cq].owner != owner then (s, Failed(InvalidInput(CommandQueueOwnerMismatch)))
    else
      var id := s.nextCmdq + 1;
      (s.(nextCmdq := id, cmdqs := s.cmdqs[id := CmdQueue(cq, owner, depth, [])]), CmdQueueCreated(id))
  }

  function Enqueue(s: State, cmdq: nat, owner: nat, d: Descriptor): (State, Response) {
    if cmdq !in s.cmdqs then (s, Failed(NotFound(CommandQueue)))
    else if s.cmdqs[cmdq].owner != owner then (s, Failed(InvalidInput(CommandQueueOwnerMismatch)))
    else if |s.cmdqs[cmdq].pending| >= s.cmdqs[cmdq].depth then (s, Failed(InvalidInput(CommandQueueFull)))
    else
      var q := s.cmdqs[cmdq];
      var q' := q.(pending := q.pending + [d]);
      (s.(cmdqs := s.cmdqs[cmdq := q']), CommandEnqueued(|q'.pending|, q.depth - |q'.pending|))
  }

  function Direct(cfg: Config, s: State, d: Descriptor, pick: nat): (State, Response) {
    if pick !in s.cqs then (s, Failed(NotFound(CompletionQueue)))
    else
      var (s', r) := Submit(cfg, s, d, pick);
      (s', match r
           case Accepted(id) => Submitted(id)
           case Refused(NoCompletionQueue) => Failed(NotFound(CompletionQueue))
           case Refused(MissingBlockHash) => Failed(InvalidInput(MissingBlock))
           case Refused(QueueFull(src)) => Failed(InvalidInput(ServiceQueueFull(src))))
  }

  /** LocalGuestUapiSurface::execute */
  function Execute(cfg: Config, s: State, cmd: Command): (State, Response) {
    match cmd
    case CreateSegment(bytes) => NewSegment(cfg, s, bytes)
    case RegisterCq(owner) => NewCq(s, owner)
    case CreateCmdQueue(cq, owner, depth) => NewCmdQueue(s, cq, owner, depth)
    case EnqueueCmd(cmdq, owner, d) => Enqueue(s, cmdq, owner, d)
    case RingDoorbell(cmdq, owner, maxBatch) => Ring(cfg, s, cmdq, owner, maxBatch)
    case SubmitDirect(d, pick) => Direct(cfg, s, d, pick)
    case PollCq(cq, owner, max) => Poll(cfg, s, cq, owner, max)
  }

  /** The state after a whole command sequence. */
  function Exec(cfg: Config, cmds: seq<Command>): State {
    if cmds == [] then Initial() else Execute(cfg, Exec(cfg, cmds[..|cmds| - 1]), cmds[|cmds| - 1]).0
  }
}
