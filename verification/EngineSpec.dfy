/** LocalRuntimeEngine (sim-runtime): what submitting, advancing and polling do. */
module EngineSpec {
  import opened SimCore
  import opened RuntimeQueue

  datatype Kind = DispatchOp | HostToDeviceCopy | DeviceToHostCopy

  datatype OpState = Queued | Issued | Completed | Failed

  datatype Op = Op(
    id: nat, kind: Kind, task: TaskKey, state: OpState,
    submittedAt: nat, issuedAt: Option<nat>, readyAt: nat, timeoutAt: nat, attempts: nat)

  datatype SimEvent =
    | DispatchSubmitted(at: nat, task: TaskKey)
    | CompletionObserved(at: nat, completion: CompletionEvent)
    | RuntimeRetried(at: nat, opId: nat, attempt: nat)
    | RuntimeFailed(at: nat, opId: nat)

  datatype Policy = Policy(
    external: bool, dispatchLatency: nat, copyLatency: nat, timeout: nat, maxInflight: nat, maxRetries: nat)

  /** `polled` is history: the completions handed out so far. */
  datatype Engine = Engine(
    now: nat, nextOpId: nat, inflight: seq<Op>, queue: seq<Record<nat>>,
    completed: seq<CompletionEvent>, sink: seq<SimEvent>, polled: seq<CompletionEvent>)

  function Initial(): Engine { Engine(0, 0, [], [], [], [], []) }

  function Latency(p: Policy, kind: Kind): nat {
    if kind.DispatchOp? then p.dispatchLatency else p.copyLatency
  }

  /** How long after its submission an attempt is certainly over. */
  function Grace(p: Policy, kind: Kind): nat { Min(Latency(p, kind), p.timeout) }

  /** The submission-queue record of a queued operation. */
  function RecordOf(op: Op): Record<nat> { Record(op.id, op.submittedAt, op.attempts) }

  // ----- Submitting ----------------------------------------------------------------------

  function NewOp(e: Engine, kind: Kind, task: TaskKey): Op {
    Op(e.nextOpId + 1, kind, task, Queued, e.now, None, 0, 0, 0)
  }

  function Submit(p: Policy, e: Engine, kind: Kind, task: TaskKey): (Engine, Result<nat, SimError>) {
    if |e.inflight| >= p.maxInflight then (e, Err(InvalidInput(RuntimeQueueFull)))
    else
      var op := NewOp(e, kind, task);
      (e.(nextOpId := op.id, inflight := e.inflight + [op], queue := e.queue + [RecordOf(op)],
          sink := if kind.DispatchOp? then e.sink + [DispatchSubmitted(e.now, task)] else e.sink),
       Ok(op.id))
  }

  // ----- Advancing -----------------------------------------------------------------------

  function Issue(p: Policy, op: Op, now: nat): Op {
    op.(state := Issued, issuedAt := Some(now),
        readyAt := op.submittedAt + Latency(p, op.kind), timeoutAt := op.submittedAt + p.timeout)
  }

  /** A queued operation is issued once its record is ready. */
  function IssueIfReady(p: Policy, op: Op, now: nat): Op {
    if op.state.Queued? && IsReady(RecordOf(op), now) then Issue(p, op, now) else op
  }

  function IssueReady(p: Policy, ops: seq<Op>, now: nat): (r: seq<Op>)
    ensures |r| == |ops| && forall i :: 0 <= i < |ops| ==> r[i] == IssueIfReady(p, ops[i], now)
  {
    seq(|ops|, i requires 0 <= i < |ops| => IssueIfReady(p, ops[i], now))
  }

  /** `broken` says for which dispatches the external process fails, and how. */
  function Outcome(p: Policy, op: Op, broken: map<nat, string>): CompletionStatus {
    if p.external && op.kind.DispatchOp? && op.id in broken then FatalFailure(broken[op.id]) else Success
  }

  function Completion(op: Op, status: CompletionStatus, at: nat): CompletionEvent {
    CompletionEvent(op.id, Some(op.task), ChipBackend, status, at)
  }

  function Finished(p: Policy, op: Op, now: nat, broken: map<nat, string>): CompletionEvent {
    var status := Outcome(p, op, broken);
    Completion(op, status, if status.Success? then op.readyAt else now)
  }

  function TimedOut(op: Op, now: nat): CompletionEvent { Completion(op, FatalFailure("timeout_exhausted"), now) }

  function Requeued(op: Op, now: nat): Op {
    op.(attempts := op.attempts + 1, state := Queued, submittedAt := now, issuedAt := None, readyAt := 0,
        timeoutAt := 0)
  }

  /** What the sweep has produced so far. */
  datatype Swept = Swept(ops: seq<Op>, queue: seq<Record<nat>>, completed: seq<CompletionEvent>, sink: seq<SimEvent>)

  function Finish(w: Swept, op: Op, c: CompletionEvent, at: nat): Swept {
    var failed := if c.status.Success? then [] else [RuntimeFailed(at, op.id)];
    Swept(w.ops + [op.(state := if c.status.Success? then Completed else Failed)], w.queue, w.completed + [c],
          w.sink + failed + [CompletionObserved(c.finishedAt, c)])
  }

  /** One operation: completes when ready, else retries or fails when timed out, else waits. */
  function SweepOne(p: Policy, w: Swept, op: Op, now: nat, broken: map<nat, string>): Swept {
    if op.state.Issued? && op.readyAt <= now then Finish(w, op, Finished(p, op, now, broken), now)
    else if op.state.Issued? && op.timeoutAt <= now then
      if op.attempts < p.maxRetries then
        var op' := Requeued(op, now);
        Swept(w.ops + [op'], w.queue + [RecordOf(op')], w.completed,
              w.sink + [RuntimeRetried(now, op.id, op'.attempts)])
      else Finish(w, op, TimedOut(op, now), now)
    else w.(ops := w.ops + [op])
  }

  function Sweep(p: Policy, w: Swept, ops: seq<Op>, now: nat, broken: map<nat, string>): Swept {
    if ops == [] then w
    else SweepOne(p, Sweep(p, w, ops[..|ops| - 1], now, broken), ops[|ops| - 1], now, broken)
  }

  predicate Alive(op: Op) { op.state.Queued? || op.state.Issued? }

  function Retain(ops: seq<Op>): seq<Op> {
    if ops == [] then []
    else if Alive(ops[|ops| - 1]) then Retain(ops[..|ops| - 1]) + [ops[|ops| - 1]] else Retain(ops[..|ops| - 1])
  }

  function SweepFrom(p: Policy, e: Engine, now: nat, broken: map<nat, string>): Swept {
    Sweep(p, Swept([], Deferred(e.queue, now), e.completed, e.sink), IssueReady(p, e.inflight, now), now, broken)
  }

  function Advance(p: Policy, e: Engine, now: nat, broken: map<nat, string>): Engine {
    var w := SweepFrom(p, e, now, broken);
    e.(now := now, inflight := Retain(w.ops), queue := w.queue, completed := w.completed, sink := w.sink)
  }

  function Poll(p: Policy, e: Engine, now: nat, broken: map<nat, string>): Engine {
    var e' := Advance(p, e, now, broken);
    e'.(completed := [], polled := e'.polled + e'.completed)
  }

  // ----- Runs ----------------------------------------------------------------------------

  datatype Command =
    | SubmitOp(kind: Kind, task: TaskKey)
    | AdvanceTo(now: nat, broken: map<nat, string>)
    | PollCompletions(now: nat, broken: map<nat, string>)

  /** Times are u64 values. */
  predicate Legal(c: Command) { !c.SubmitOp? ==> c.now <= U64_MAX }

  function Step(p: Policy, e: Engine, c: Command): Engine {
    match c
    case SubmitOp(kind, task) => Submit(p, e, kind, task).0
    case AdvanceTo(now, broken) => Advance(p, e, now, broken)
    case PollCompletions(now, broken) => Poll(p, e, now, broken)
  }

  function Run(p: Policy, e: Engine, cmds: seq<Command>): Engine
    decreases |cmds|
  {
    if cmds == [] then e else Run(p, Step(p, e, cmds[0]), cmds[1..])
  }
}
