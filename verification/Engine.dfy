/** LocalRuntimeEngine (sim-runtime) as a class, proved against EngineSpec. */
module Engine {
  import opened SimCore
  import opened RuntimeQueue
  import opened EngineSpec
  import opened EngineProofs

  lemma {:induction false} RecordHasOp(ops: seq<Op>, x: Record<nat>) returns (k: nat)
    requires QueuedAs(ops, x) > 0
    ensures k < |ops| && Mirrors(ops[k], x)
  {
    if Mirrors(ops[|ops| - 1], x) { k := |ops| - 1; } else { k := RecordHasOp(ops[..|ops| - 1], x); }
  }

  lemma {:induction false} OpHasRecord(ops: seq<Op>, k: nat)
    requires k < |ops| && ops[k].state.Queued?
    ensures QueuedAs(ops, RecordOf(ops[k])) > 0
  {
    if k < |ops| - 1 { OpHasRecord(ops[..|ops| - 1], k); }
  }

  lemma {:induction false} OccursIn(q: seq<Record<nat>>, x: Record<nat>)
    ensures Occurs(q, x) > 0 <==> x in q
  {
    if q != [] {
      OccursIn(q[..|q| - 1], x);
      assert q == q[..|q| - 1] + [q[|q| - 1]];
    }
  }

  lemma {:induction false} ReadyIn(q: seq<Record<nat>>, now: nat, x: Record<nat>)
    requires x in q && IsReady(x, now)
    ensures x in Ready(q, now)
  {
    if q[|q| - 1] != x { ReadyIn(q[..|q| - 1], now, x); }
  }

  /** Operation k after the drained records `done` have been issued. */
  function IssuedBy(p: Policy, op: Op, done: seq<Record<nat>>, now: nat): Op {
    if op.state.Queued? && RecordOf(op) in done then Issue(p, op, now) else op
  }

  /** A drained record names exactly one in-flight operation, and that one is queued. */
  lemma DrainedNames(q: seq<Record<nat>>, ops: seq<Op>, last: nat, now: nat, x: Record<nat>) returns (k: nat)
    requires Synced(q, ops) && Rising(ops, last) && x in Ready(q, now)
    ensures k < |ops| && ops[k].state.Queued? && RecordOf(ops[k]) == x
    ensures forall j :: 0 <= j < |ops| && ops[j].id == x.payload ==> j == k
  {
    OccursIn(q, x);
    k := RecordHasOp(ops, x);
  }

  /** Issuing all drained records issues exactly the ready queued operations. */
  lemma AllDrained(p: Policy, q: seq<Record<nat>>, ops: seq<Op>, now: nat, k: nat)
    requires Synced(q, ops) && k < |ops|
    ensures IssuedBy(p, ops[k], Ready(q, now), now) == IssueIfReady(p, ops[k], now)
  {
    if ops[k].state.Queued? && IsReady(RecordOf(ops[k]), now) {
      OpHasRecord(ops, k);
      OccursIn(q, RecordOf(ops[k]));
      ReadyIn(q, now, RecordOf(ops[k]));
    }
  }

  class RuntimeEngine {
    const policy: Policy
    const submissions: RuntimeQueue<nat>
    var now: nat
    var nextOpId: nat
    var inflight: seq<Op>
    var completed: seq<CompletionEvent>
    var sink: seq<SimEvent>
    ghost var polled: seq<CompletionEvent>

    ghost predicate Shape()
      reads this, submissions
    {
      && submissions.issueLatency == 0 && submissions.retryDelay == 0
      && submissions.depth == policy.maxInflight && submissions.maxRetries == policy.maxRetries
    }

    ghost function View(): EngineSpec.Engine
      reads this, submissions
    {
      EngineSpec.Engine(now, nextOpId, inflight, submissions.pending, completed, sink, polled)
    }

    ghost predicate Valid()
      reads this, submissions
    {
      Shape() && Inv(policy, View())
    }

    constructor (policy: Policy)
      ensures this.policy == policy && Valid() && View() == Initial() && fresh(submissions)
    {
      this.policy := policy;
      submissions := new RuntimeQueue<nat>(0, 0, policy.maxInflight, policy.maxRetries);
      now, nextOpId := 0, 0;
      inflight, completed, sink, polled := [], [], [], [];
      new;
      InitialInv(policy);
    }

    method SubmitOp(kind: Kind, task: TaskKey) returns (r: Result<nat, SimError>)
      requires Valid()
      modifies this, submissions
      ensures Valid()
      ensures View() == Submit(policy, old(View()), kind, task).0 && r == Submit(policy, old(View()), kind, task).1
    {
      SubmitInv(policy, View(), kind, task);
      if |inflight| >= policy.maxInflight {
        return Err(InvalidInput(RuntimeQueueFull));
      }
      QueueNeverFuller(submissions.pending, inflight);
      nextOpId := nextOpId + 1;
      inflight := inflight + [Op(nextOpId, kind, task, Queued, now, None, 0, 0, 0)];
      var queued := submissions.Enqueue(nextOpId, now);
      assert queued.Ok?;
      if kind.DispatchOp? {
        sink := sink + [DispatchSubmitted(now, task)];
      }
      r := Ok(nextOpId);
    }

    /** The first queued in-flight operation with this handle, if any. */
    method FindQueued(id: nat) returns (k: Option<nat>)
      ensures k.Some? ==> k.value < |inflight| && inflight[k.value].id == id && inflight[k.value].state.Queued?
      ensures k == None ==> forall i :: 0 <= i < |inflight| ==> !(inflight[i].id == id && inflight[i].state.Queued?)
    {
      var i := 0;
      while i < |inflight|
        invariant 0 <= i <= |inflight|
        invariant forall j :: 0 <= j < i ==> !(inflight[j].id == id && inflight[j].state.Queued?)
      {
        if inflight[i].id == id && inflight[i].state.Queued? {
          return Some(i);
        }
        i := i + 1;
      }
      return None;
    }

    /** drive_ready with the issuing closure: every drained record issues its operation. */
    method IssueDrained(ready: seq<Record<nat>>, ghost q: seq<Record<nat>>)
      requires Synced(q, inflight) && Rising(inflight, nextOpId) && ready == Ready(q, now)
      modifies this`inflight
      ensures inflight == IssueReady(policy, old(inflight), now)
    {
      ghost var ops := inflight;
      var i := 0;
      while i < |ready|
        invariant 0 <= i <= |ready| && |inflight| == |ops|
        invariant forall k :: 0 <= k < |ops| ==> inflight[k] == IssuedBy(policy, ops[k], ready[..i], now)
      {
        ghost var k := DrainedNames(q, ops, nextOpId, now, ready[i]);
        assert ready[..i + 1] == ready[..i] + [ready[i]];
        var found := FindQueued(ready[i].payload);
        if found.Some? {
          assert found.value == k;
          inflight := inflight[found.value := Issue(policy, inflight[found.value], now)];
        } else {
          assert ready[i] in ready[..i];
        }
        i := i + 1;
      }
      assert ready[..i] == ready;
      forall k | 0 <= k < |ops| ensures inflight[k] == IssueIfReady(policy, ops[k], now) {
        AllDrained(policy, q, ops, now, k);
      }
    }

    /** One step of the sweep: the operation at index i completes, is retried, fails or stays. */
    method SweepAt(i: nat, broken: map<nat, string>, ghost w: Swept)
      requires Shape() && now <= U64_MAX && i < |inflight| && |w.ops| == i && inflight[..i] == w.ops
      requires submissions.pending == w.queue && completed == w.completed && sink == w.sink
      modifies this`inflight, this`completed, this`sink, submissions
      ensures Shape() && |inflight| == |old(inflight)|
      ensures var w' := SweepOne(policy, w, old(inflight)[i], now, broken);
        && inflight[..i + 1] == w'.ops && inflight[i + 1..] == old(inflight)[i + 1..]
        && submissions.pending == w'.queue && completed == w'.completed && sink == w'.sink
    {
      var op := inflight[i];
      if op.state.Issued? && op.readyAt <= now {
        var c := Finished(policy, op, now, broken);
        Conclude(i, c);
      } else if op.state.Issued? && op.timeoutAt <= now {
        var kept := submissions.Retry(Record(op.id, now, op.attempts), now);
        if kept {
          inflight := inflight[i := Requeued(op, now)];
          sink := sink + [RuntimeRetried(now, op.id, op.attempts + 1)];
        } else {
          Conclude(i, TimedOut(op, now));
        }
      }
    }

    method Conclude(i: nat, c: CompletionEvent)
      requires i < |inflight|
      modifies this`inflight, this`completed, this`sink
      ensures var op := old(inflight)[i];
        inflight == old(inflight)[i := op.(state := if c.status.Success? then Completed else Failed)]
      ensures completed == old(completed) + [c]
      ensures sink == old(sink) + (if c.status.Success? then [] else [RuntimeFailed(now, old(inflight)[i].id)])
                      + [CompletionObserved(c.finishedAt, c)]
    {
      var op := inflight[i];
      if !c.status.Success? {
        sink := sink + [RuntimeFailed(now, op.id)];
      }
      inflight := inflight[i := op.(state := if c.status.Success? then Completed else Failed)];
      sink := sink + [CompletionObserved(c.finishedAt, c)];
      completed := completed + [c];
    }

    method SweepAll(broken: map<nat, string>)
      requires Shape() && now <= U64_MAX
      modifies this`inflight, this`completed, this`sink, submissions
      ensures Shape()
      ensures var w := Sweep(policy, Swept([], old(submissions.pending), old(completed), old(sink)), old(inflight),
          now, broken);
        inflight == w.ops && submissions.pending == w.queue && completed == w.completed && sink == w.sink
    {
      ghost var ops := inflight;
      ghost var w0 := Swept([], submissions.pending, completed, sink);
      var i := 0;
      while i < |inflight|
        invariant 0 <= i <= |inflight| == |ops| && Shape()
        invariant var w := Sweep(policy, w0, ops[..i], now, broken);
          |w.ops| == i && inflight[..i] == w.ops && submissions.pending == w.queue && completed == w.completed
              && sink == w.sink
        invariant inflight[i..] == ops[i..]
      {
        ghost var w := Sweep(policy, w0, ops[..i], now, broken);
        assert inflight[i] == ops[i];
        SweepAt(i, broken, w);
        assert ops[..i + 1][..i] == ops[..i];
        i := i + 1;
      }
      assert ops[..i] == ops && inflight[..i] == inflight;
    }

    method RetainAlive()
      modifies this`inflight
      ensures inflight == Retain(old(inflight))
    {
      var kept := [];
      var i := 0;
      while i < |inflight|
        invariant 0 <= i <= |inflight| && inflight == old(inflight)
        invariant kept == Retain(inflight[..i])
      {
        if Alive(inflight[i]) {
          kept := kept + [inflight[i]];
        }
        assert inflight[..i + 1][..i] == inflight[..i];
        i := i + 1;
      }
      assert inflight[..i] == inflight;
      inflight := kept;
    }

    method AdvanceTo(to: nat, broken: map<nat, string>)
      requires Valid() && to <= U64_MAX
      modifies this, submissions
      ensures Valid() && View() == Advance(policy, old(View()), to, broken)
    {
      AdvanceInv(policy, View(), to, broken);
      DriveAndSweep(to, broken);
    }

    method DriveAndSweep(to: nat, broken: map<nat, string>)
      requires Shape() && to <= U64_MAX && Synced(submissions.pending, inflight) && Rising(inflight, nextOpId)
      modifies this, submissions
      ensures Shape() && View() == Advance(policy, old(View()), to, broken)
    {
      ghost var q := submissions.pending;
      now := to;
      var ready, _ := submissions.DrainReady(to);
      IssueDrained(ready, q);
      SweepAll(broken);
      RetainAlive();
    }

    method PollCompletions(to: nat, broken: map<nat, string>) returns (events: seq<CompletionEvent>)
      requires Valid() && to <= U64_MAX
      modifies this, submissions
      ensures Valid() && View() == Poll(policy, old(View()), to, broken)
      ensures events == Advance(policy, old(View()), to, broken).completed
    {
      AdvanceTo(to, broken);
      DrainedInv(policy, View());
      events := completed;
      polled := polled + completed;
      completed := [];
    }
  }
}
