/** The engine's two structures agree, every operation completes exactly once, and soon enough. */
module EngineProofs {
  import opened SimCore
  import opened RuntimeQueue
  import opened EngineSpec

  // ----- The submission queue mirrors the queued operations -------------------------------

  function Occurs(q: seq<Record<nat>>, x: Record<nat>): nat {
    if q == [] then 0 else Occurs(q[..|q| - 1], x) + if q[|q| - 1] == x then 1 else 0
  }

  predicate Mirrors(op: Op, x: Record<nat>) { op.state.Queued? && RecordOf(op) == x }

  /** How many queued operations have the record x. */
  function QueuedAs(ops: seq<Op>, x: Record<nat>): nat {
    if ops == [] then 0 else QueuedAs(ops[..|ops| - 1], x) + if Mirrors(ops[|ops| - 1], x) then 1 else 0
  }

  /** The queue holds exactly the queued in-flight operations, once each, with equal attempt counts. */
  ghost predicate Synced(queue: seq<Record<nat>>, ops: seq<Op>) {
    forall x :: Occurs(queue, x) == QueuedAs(ops, x)
  }

  lemma OccursAppend(q: seq<Record<nat>>, r: Record<nat>, x: Record<nat>)
    ensures Occurs(q + [r], x) == Occurs(q, x) + if r == x then 1 else 0
  {
    assert (q + [r])[..|q|] == q;
  }

  lemma QueuedAppend(ops: seq<Op>, op: Op, x: Record<nat>)
    ensures QueuedAs(ops + [op], x) == QueuedAs(ops, x) + if Mirrors(op, x) then 1 else 0
  {
    assert (ops + [op])[..|ops|] == ops;
  }

  lemma {:induction false} DeferredCount(q: seq<Record<nat>>, now: nat, x: Record<nat>)
    ensures Occurs(Deferred(q, now), x) == if IsReady(x, now) then 0 else Occurs(q, x)
  {
    if q != [] {
      DeferredCount(q[..|q| - 1], now, x);
      OccursAppend(Deferred(q[..|q| - 1], now), q[|q| - 1], x);
    }
  }

  lemma {:induction false} IssuedCount(p: Policy, ops: seq<Op>, now: nat, x: Record<nat>)
    ensures QueuedAs(IssueReady(p, ops, now), x) == if IsReady(x, now) then 0 else QueuedAs(ops, x)
  {
    if ops != [] {
      var init, op := ops[..|ops| - 1], ops[|ops| - 1];
      IssuedCount(p, init, now, x);
      assert IssueReady(p, ops, now)[..|init|] == IssueReady(p, init, now);
    }
  }

  /** Sweeping one operation adds a record exactly when it leaves the operation queued anew. */
  lemma SweepOneCount(p: Policy, w: Swept, op: Op, now: nat, broken: map<nat, string>, x: Record<nat>)
    ensures var w' := SweepOne(p, w, op, now, broken);
      Occurs(w'.queue, x) + (if Mirrors(op, x) then 1 else 0) + QueuedAs(w.ops, x)
        == Occurs(w.queue, x) + QueuedAs(w'.ops, x)
  {
    var w' := SweepOne(p, w, op, now, broken);
    QueuedAppend(w.ops, w'.ops[|w.ops|], x);
    OccursAppend(w.queue, RecordOf(Requeued(op, now)), x);
  }

  lemma {:induction false} SweepCount(p: Policy, w: Swept, ops: seq<Op>, now: nat, broken: map<nat, string>,
                                      x: Record<nat>)
    ensures var w' := Sweep(p, w, ops, now, broken);
      Occurs(w'.queue, x) + QueuedAs(ops, x) + QueuedAs(w.ops, x) == Occurs(w.queue, x) + QueuedAs(w'.ops, x)
  {
    if ops != [] {
      var init := ops[..|ops| - 1];
      SweepCount(p, w, init, now, broken, x);
      SweepOneCount(p, Sweep(p, w, init, now, broken), ops[|ops| - 1], now, broken, x);
    }
  }

  lemma {:induction false} RetainCount(ops: seq<Op>, x: Record<nat>)
    ensures QueuedAs(Retain(ops), x) == QueuedAs(ops, x)
  {
    if ops != [] {
      RetainCount(ops[..|ops| - 1], x);
      QueuedAppend(Retain(ops[..|ops| - 1]), ops[|ops| - 1], x);
    }
  }

  /** Draining, issuing, retrying and retaining keep both structures equal. */
  lemma AdvanceSynced(p: Policy, e: Engine, now: nat, broken: map<nat, string>)
    requires Synced(e.queue, e.inflight)
    ensures Synced(Advance(p, e, now, broken).queue, Advance(p, e, now, broken).inflight)
  {
    var ops, w := IssueReady(p, e.inflight, now), SweepFrom(p, e, now, broken);
    forall x ensures Occurs(w.queue, x) == QueuedAs(Retain(w.ops), x) {
      DeferredCount(e.queue, now, x);
      IssuedCount(p, e.inflight, now, x);
      SweepCount(p, Swept([], Deferred(e.queue, now), e.completed, e.sink), ops, now, broken, x);
      RetainCount(w.ops, x);
    }
  }

  // ----- In-flight operations -------------------------------------------------------------

  ghost predicate OpOk(p: Policy, op: Op) {
    && Alive(op) && op.attempts <= p.maxRetries
    && (op.state.Issued? ==>
          op.readyAt == op.submittedAt + Latency(p, op.kind) && op.timeoutAt == op.submittedAt + p.timeout)
  }

  /** Handles rise along the in-flight list, so none occurs twice. */
  ghost predicate Rising(ops: seq<Op>, last: nat) {
    && (forall i, j :: 0 <= i < j < |ops| ==> ops[i].id < ops[j].id)
    && (forall i :: 0 <= i < |ops| ==> 1 <= ops[i].id <= last)
  }

  ghost predicate OpsOk(p: Policy, ops: seq<Op>) { forall i :: 0 <= i < |ops| ==> OpOk(p, ops[i]) }

  /** Completions the sink has seen for one operation. */
  function DoneCount(sink: seq<SimEvent>, id: nat): nat {
    if sink == [] then 0 else DoneCount(sink[..|sink| - 1], id) + if IsDone(sink[|sink| - 1], id) then 1 else 0
  }
  predicate IsDone(ev: SimEvent, id: nat) { ev.CompletionObserved? && ev.completion.opId == id }

  /** Retries the sink has seen for one operation. */
  function RetryCount(sink: seq<SimEvent>, id: nat): nat {
    if sink == [] then 0 else RetryCount(sink[..|sink| - 1], id) + if IsRetry(sink[|sink| - 1], id) then 1 else 0
  }
  predicate IsRetry(ev: SimEvent, id: nat) { ev.RuntimeRetried? && ev.opId == id }

  lemma SinkAppend(sink: seq<SimEvent>, ev: SimEvent, id: nat)
    ensures DoneCount(sink + [ev], id) == DoneCount(sink, id) + if IsDone(ev, id) then 1 else 0
    ensures RetryCount(sink + [ev], id) == RetryCount(sink, id) + if IsRetry(ev, id) then 1 else 0
  {
    assert (sink + [ev])[..|sink|] == sink;
  }

  predicate InFlight(ops: seq<Op>, id: nat) { exists i :: 0 <= i < |ops| && ops[i].id == id }

  lemma InFlightAppend(ops: seq<Op>, op: Op, id: nat)
    ensures InFlight(ops + [op], id) <==> InFlight(ops, id) || id == op.id
  {
    assert (ops + [op])[|ops|] == op;
    if InFlight(ops, id) {
      var i :| 0 <= i < |ops| && ops[i].id == id;
      assert (ops + [op])[i] == ops[i];
    }
  }

  /** An operation in flight has no completion yet and as many retries as attempts; one that left has exactly one. */
  ghost predicate Tallied(p: Policy, e: Engine) {
    forall id :: IdTallied(p, e.inflight, e.sink, e.nextOpId, id)
  }
  ghost predicate IdTallied(p: Policy, ops: seq<Op>, sink: seq<SimEvent>, last: nat, id: nat) {
    && DoneCount(sink, id) == (if 1 <= id <= last && !InFlight(ops, id) then 1 else 0)
    && RetryCount(sink, id) <= p.maxRetries && (id > last ==> RetryCount(sink, id) == 0)
    && forall i :: 0 <= i < |ops| && ops[i].id == id ==> RetryCount(sink, id) == ops[i].attempts
  }

  /** The completions in the sink, in order. */
  function Completions(sink: seq<SimEvent>): seq<CompletionEvent> {
    if sink == [] then []
    else
      var rest, ev := Completions(sink[..|sink| - 1]), sink[|sink| - 1];
      if ev.CompletionObserved? then rest + [ev.completion] else rest
  }

  ghost predicate Inv(p: Policy, e: Engine) {
    && Synced(e.queue, e.inflight)
    && |e.inflight| <= p.maxInflight && OpsOk(p, e.inflight) && Rising(e.inflight, e.nextOpId)
    && Tallied(p, e)
    && e.polled + e.completed == Completions(e.sink)
    && e.now <= U64_MAX
  }

  function Records(ops: seq<Op>): (r: seq<Record<nat>>)
    ensures |r| <= |ops|
  {
    if ops == [] then []
    else
      var rest, op := Records(ops[..|ops| - 1]), ops[|ops| - 1];
      if op.state.Queued? then rest + [RecordOf(op)] else rest
  }

  lemma {:induction false} OccursIsMultiplicity(q: seq<Record<nat>>, x: Record<nat>)
    ensures Occurs(q, x) == multiset(q)[x]
  {
    if q != [] {
      OccursIsMultiplicity(q[..|q| - 1], x);
      assert q == q[..|q| - 1] + [q[|q| - 1]];
    }
  }

  lemma {:induction false} RecordsCount(ops: seq<Op>, x: Record<nat>)
    ensures Occurs(Records(ops), x) == QueuedAs(ops, x)
  {
    if ops != [] {
      RecordsCount(ops[..|ops| - 1], x);
      OccursAppend(Records(ops[..|ops| - 1]), RecordOf(ops[|ops| - 1]), x);
    }
  }

  /** Why the enqueue inside submit cannot fail once ensure_capacity has passed. */
  lemma QueueNeverFuller(queue: seq<Record<nat>>, ops: seq<Op>)
    requires Synced(queue, ops)
    ensures |queue| <= |ops|
  {
    forall x ensures multiset(queue)[x] == multiset(Records(ops))[x] {
      OccursIsMultiplicity(queue, x);
      OccursIsMultiplicity(Records(ops), x);
      RecordsCount(ops, x);
    }
    assert multiset(queue) == multiset(Records(ops));
    assert |multiset(queue)| == |queue| && |multiset(Records(ops))| == |Records(ops)|;
  }

  lemma SubmitSynced(e: Engine, op: Op)
    requires Synced(e.queue, e.inflight) && op.state.Queued?
    ensures Synced(e.queue + [RecordOf(op)], e.inflight + [op])
  {
    forall x ensures Occurs(e.queue + [RecordOf(op)], x) == QueuedAs(e.inflight + [op], x) {
      OccursAppend(e.queue, RecordOf(op), x);
      QueuedAppend(e.inflight, op, x);
    }
  }

  /** A submission is no news about any operation. */
  lemma SubmissionQuiet(sink: seq<SimEvent>, ev: SimEvent, id: nat)
    requires ev.DispatchSubmitted?
    ensures DoneCount(sink + [ev], id) == DoneCount(sink, id) && RetryCount(sink + [ev], id) == RetryCount(sink, id)
    ensures Completions(sink + [ev]) == Completions(sink)
  {
    SinkAppend(sink, ev, id);
    assert (sink + [ev])[..|sink|] == sink;
  }

  lemma SubmitTallied(p: Policy, ops: seq<Op>, op: Op, sink: seq<SimEvent>, sink': seq<SimEvent>, last: nat, id: nat)
    requires IdTallied(p, ops, sink, last, id) && Rising(ops, last) && op.id == last + 1 && op.attempts == 0
    requires DoneCount(sink', id) == DoneCount(sink, id) && RetryCount(sink', id) == RetryCount(sink, id)
    ensures IdTallied(p, ops + [op], sink', last + 1, id)
  {
    InFlightAppend(ops, op, id);
    forall i | 0 <= i < |ops + [op]| && (ops + [op])[i].id == id
      ensures RetryCount(sink', id) == (ops + [op])[i].attempts
    {
      if i < |ops| { assert (ops + [op])[i] == ops[i]; }
    }
  }

  lemma SubmitOps(p: Policy, ops: seq<Op>, op: Op, last: nat)
    requires OpsOk(p, ops) && Rising(ops, last) && OpOk(p, op) && op.id == last + 1
    ensures OpsOk(p, ops + [op]) && Rising(ops + [op], last + 1)
  {
  }

  lemma SubmitInv(p: Policy, e: Engine, kind: Kind, task: TaskKey)
    requires Inv(p, e)
    ensures Inv(p, Submit(p, e, kind, task).0)
  {
    if |e.inflight| < p.maxInflight {
      var e', op := Submit(p, e, kind, task).0, NewOp(e, kind, task);
      SubmitSynced(e, op);
      SubmitOps(p, e.inflight, op, e.nextOpId);
      SubmissionQuiet(e.sink, DispatchSubmitted(e.now, task), 0);
      forall id ensures IdTallied(p, e'.inflight, e'.sink, e'.nextOpId, id) {
        assert IdTallied(p, e.inflight, e.sink, e.nextOpId, id);
        SubmissionQuiet(e.sink, DispatchSubmitted(e.now, task), id);
        SubmitTallied(p, e.inflight, op, e.sink, e'.sink, e.nextOpId, id);
      }
    }
  }

  // ----- The sweep, operation by operation -------------------------------------------------

  /** What the sweep makes of one operation. */
  function Judged(p: Policy, op: Op, now: nat, broken: map<nat, string>): Op {
    SweepOne(p, Swept([], [], [], []), op, now, broken).ops[0]
  }

  lemma SweepOneOps(p: Policy, w: Swept, op: Op, now: nat, broken: map<nat, string>)
    ensures SweepOne(p, w, op, now, broken).ops == w.ops + [Judged(p, op, now, broken)]
  {
  }

  lemma {:induction false} SweepOps(p: Policy, w: Swept, ops: seq<Op>, now: nat, broken: map<nat, string>)
    requires w.ops == []
    ensures var r := Sweep(p, w, ops, now, broken).ops;
      |r| == |ops| && forall i :: 0 <= i < |ops| ==> r[i] == Judged(p, ops[i], now, broken)
  {
    if ops != [] {
      var init := ops[..|ops| - 1];
      SweepOps(p, w, init, now, broken);
      SweepOneOps(p, Sweep(p, w, init, now, broken), ops[|ops| - 1], now, broken);
    }
  }

  /** Each swept operation reports a completion exactly if it ends, a retry exactly if it is queued anew. */
  lemma SweepOneTally(p: Policy, w: Swept, op: Op, now: nat, broken: map<nat, string>, id: nat)
    requires Alive(op)
    ensures var w', op' := SweepOne(p, w, op, now, broken), Judged(p, op, now, broken);
      && DoneCount(w'.sink, id) == DoneCount(w.sink, id) + (if op.id == id && !Alive(op') then 1 else 0)
      && RetryCount(w'.sink, id) == RetryCount(w.sink, id) + (if op.id == id then op'.attempts - op.attempts else 0)
  {
    var w' := SweepOne(p, w, op, now, broken);
    if op.state.Issued? && op.readyAt <= now {
      FinishTally(w, op, Finished(p, op, now, broken), now, id);
    } else if op.state.Issued? && op.timeoutAt <= now {
      if op.attempts < p.maxRetries {
        SinkAppend(w.sink, RuntimeRetried(now, op.id, op.attempts + 1), id);
      } else {
        FinishTally(w, op, TimedOut(op, now), now, id);
      }
    }
  }

  lemma FinishTally(w: Swept, op: Op, c: CompletionEvent, at: nat, id: nat)
    requires c.opId == op.id
    ensures DoneCount(Finish(w, op, c, at).sink, id) == DoneCount(w.sink, id) + if op.id == id then 1 else 0
    ensures RetryCount(Finish(w, op, c, at).sink, id) == RetryCount(w.sink, id)
    ensures Completions(Finish(w, op, c, at).sink) == Completions(w.sink) + [c]
  {
    var failed := RuntimeFailed(at, op.id);
    var done := CompletionObserved(c.finishedAt, c);
    SinkAppend(w.sink, failed, id);
    SinkAppend(w.sink + [failed], done, id);
    SinkAppend(w.sink, done, id);
    assert w.sink + [] + [done] == w.sink + [done];
    assert (w.sink + [done])[..|w.sink|] == w.sink;
    assert (w.sink + [failed])[..|w.sink|] == w.sink;
    assert (w.sink + [failed] + [done])[..|w.sink| + 1] == w.sink + [failed];
  }

  /** Operation id's share in a sweep over operations with distinct handles. */
  lemma {:induction false} SweepTally(p: Policy, w: Swept, ops: seq<Op>, last: nat, now: nat,
                                      broken: map<nat, string>, id: nat)
    requires OpsOk(p, ops) && Rising(ops, last)
    ensures var w' := Sweep(p, w, ops, now, broken);
      && (!InFlight(ops, id) ==>
            DoneCount(w'.sink, id) == DoneCount(w.sink, id) && RetryCount(w'.sink, id) == RetryCount(w.sink, id))
      && (forall i :: 0 <= i < |ops| && ops[i].id == id ==>
            && DoneCount(w'.sink, id) == DoneCount(w.sink, id)
                 + (if Alive(Judged(p, ops[i], now, broken)) then 0 else 1)
            && RetryCount(w'.sink, id) == RetryCount(w.sink, id)
                 + Judged(p, ops[i], now, broken).attempts - ops[i].attempts)
  {
    if ops != [] {
      var init, op := ops[..|ops| - 1], ops[|ops| - 1];
      SweepTally(p, w, init, last, now, broken, id);
      SweepOneTally(p, Sweep(p, w, init, now, broken), op, now, broken, id);
      assert ops == init + [op];
      InFlightAppend(init, op, id);
      assert op.id == id ==> !InFlight(init, id);
    }
  }

  lemma {:induction false} SweepCompletions(p: Policy, w: Swept, ops: seq<Op>, now: nat, broken: map<nat, string>,
                                            before: seq<CompletionEvent>)
    requires before + w.completed == Completions(w.sink)
    ensures before + Sweep(p, w, ops, now, broken).completed == Completions(Sweep(p, w, ops, now, broken).sink)
  {
    if ops != [] {
      SweepCompletions(p, w, ops[..|ops| - 1], now, broken, before);
      CompletionsStep(p, Sweep(p, w, ops[..|ops| - 1], now, broken), ops[|ops| - 1], now, broken, before);
    }
  }

  lemma CompletionsStep(p: Policy, w: Swept, op: Op, now: nat, broken: map<nat, string>, before: seq<CompletionEvent>)
    requires before + w.completed == Completions(w.sink)
    ensures before + SweepOne(p, w, op, now, broken).completed == Completions(SweepOne(p, w, op, now, broken).sink)
  {
    if op.state.Issued? && op.readyAt <= now {
      FinishTally(w, op, Finished(p, op, now, broken), now, op.id);
    } else if op.state.Issued? && op.timeoutAt <= now {
      if op.attempts < p.maxRetries {
        var ev := RuntimeRetried(now, op.id, op.attempts + 1);
        assert (w.sink + [ev])[..|w.sink|] == w.sink;
      } else {
        FinishTally(w, op, TimedOut(op, now), now, op.id);
      }
    }
  }

  // ----- Retaining -------------------------------------------------------------------------

  lemma {:induction false} RetainMembers(ops: seq<Op>)
    ensures |Retain(ops)| <= |ops|
    ensures forall j :: 0 <= j < |Retain(ops)| ==> Alive(Retain(ops)[j]) && Retain(ops)[j] in ops
  {
    if ops != [] {
      RetainMembers(ops[..|ops| - 1]);
      assert ops == ops[..|ops| - 1] + [ops[|ops| - 1]];
    }
  }

  lemma {:induction false} RetainRising(ops: seq<Op>, last: nat)
    requires Rising(ops, last)
    ensures Rising(Retain(ops), last)
  {
    if ops != [] {
      var init, op := ops[..|ops| - 1], ops[|ops| - 1];
      RetainRising(init, last);
      RetainMembers(init);
      forall j | 0 <= j < |Retain(init)| ensures Retain(init)[j].id < op.id { assert Retain(init)[j] in init; }
      if Alive(op) { AppendRising(Retain(init), op, last); }
    }
  }

  lemma AppendRising(ops: seq<Op>, op: Op, last: nat)
    requires Rising(ops, last) && 1 <= op.id <= last && forall j :: 0 <= j < |ops| ==> ops[j].id < op.id
    ensures Rising(ops + [op], last)
  {
  }

  lemma {:induction false} RetainFlight(ops: seq<Op>, last: nat, id: nat)
    requires Rising(ops, last)
    ensures forall i :: 0 <= i < |ops| && ops[i].id == id ==> (InFlight(Retain(ops), id) <==> Alive(ops[i]))
    ensures !InFlight(ops, id) ==> !InFlight(Retain(ops), id)
  {
    if ops != [] {
      var init, op := ops[..|ops| - 1], ops[|ops| - 1];
      RetainFlight(init, last, id);
      assert ops == init + [op];
      InFlightAppend(init, op, id);
      InFlightAppend(Retain(init), op, id);
      assert op.id == id ==> !InFlight(init, id);
    }
  }

  lemma RetainFacts(ops: seq<Op>, last: nat, id: nat)
    requires Rising(ops, last)
    ensures Rising(Retain(ops), last) && |Retain(ops)| <= |ops|
    ensures forall j :: 0 <= j < |Retain(ops)| ==> Alive(Retain(ops)[j]) && Retain(ops)[j] in ops
    ensures forall i :: 0 <= i < |ops| && ops[i].id == id ==> (InFlight(Retain(ops), id) <==> Alive(ops[i]))
    ensures !InFlight(ops, id) ==> !InFlight(Retain(ops), id)
  {
    RetainMembers(ops);
    RetainRising(ops, last);
    RetainFlight(ops, last, id);
  }

  // ----- Every command keeps the invariant --------------------------------------------------

  lemma IssueOk(p: Policy, ops: seq<Op>, last: nat, now: nat, id: nat)
    requires OpsOk(p, ops) && Rising(ops, last)
    ensures var r := IssueReady(p, ops, now); OpsOk(p, r) && Rising(r, last) && (InFlight(r, id) <==> InFlight(ops, id))
  {
    var r := IssueReady(p, ops, now);
    if InFlight(ops, id) {
      var i :| 0 <= i < |ops| && ops[i].id == id;
      assert r[i].id == id;
    }
    if InFlight(r, id) {
      var i :| 0 <= i < |r| && r[i].id == id;
      assert ops[i].id == id;
    }
  }

  lemma JudgedOk(p: Policy, op: Op, now: nat, broken: map<nat, string>)
    requires OpOk(p, op)
    ensures var op' := Judged(p, op, now, broken);
      op'.id == op.id && op'.kind == op.kind && (Alive(op') ==> OpOk(p, op'))
  {
  }

  /** The operations after the sweep, before finished ones are dropped. */
  lemma SweptOk(p: Policy, e: Engine, now: nat, broken: map<nat, string>)
    requires OpsOk(p, e.inflight) && Rising(e.inflight, e.nextOpId)
    ensures var ops := SweepFrom(p, e, now, broken).ops;
      && |ops| == |e.inflight| && Rising(ops, e.nextOpId)
      && forall i :: 0 <= i < |ops| ==>
           && ops[i] == Judged(p, IssueIfReady(p, e.inflight[i], now), now, broken)
           && ops[i].id == e.inflight[i].id && (Alive(ops[i]) ==> OpOk(p, ops[i]))
  {
    IssueOk(p, e.inflight, e.nextOpId, now, 0);
    var ops := IssueReady(p, e.inflight, now);
    SweepOps(p, Swept([], Deferred(e.queue, now), e.completed, e.sink), ops, now, broken);
    forall i | 0 <= i < |ops| ensures
      var op := Judged(p, ops[i], now, broken); op.id == e.inflight[i].id && (Alive(op) ==> OpOk(p, op))
    {
      assert OpOk(p, ops[i]);
      JudgedOk(p, ops[i], now, broken);
    }
  }

  lemma AdvanceOps(p: Policy, e: Engine, now: nat, broken: map<nat, string>)
    requires OpsOk(p, e.inflight) && Rising(e.inflight, e.nextOpId)
    ensures var e' := Advance(p, e, now, broken);
      OpsOk(p, e'.inflight) && Rising(e'.inflight, e'.nextOpId) && |e'.inflight| <= |e.inflight|
  {
    SweptOk(p, e, now, broken);
    RetainFacts(SweepFrom(p, e, now, broken).ops, e.nextOpId, 0);
  }

  /** Where operation id goes in one advance. */
  lemma AdvanceTracks(p: Policy, e: Engine, now: nat, broken: map<nat, string>, i: nat)
    requires OpsOk(p, e.inflight) && Rising(e.inflight, e.nextOpId) && i < |e.inflight|
    ensures var op' := Judged(p, IssueIfReady(p, e.inflight[i], now), now, broken);
      var e' := Advance(p, e, now, broken);
      && (InFlight(e'.inflight, e.inflight[i].id) <==> Alive(op'))
      && (forall j :: 0 <= j < |e'.inflight| && e'.inflight[j].id == e.inflight[i].id ==> e'.inflight[j] == op')
  {
    var ops := SweepFrom(p, e, now, broken).ops;
    SweptOk(p, e, now, broken);
    RetainFacts(ops, e.nextOpId, e.inflight[i].id);
    var kept := Retain(ops);
    forall j | 0 <= j < |kept| && kept[j].id == e.inflight[i].id ensures kept[j] == ops[i] {
      var k :| 0 <= k < |ops| && ops[k] == kept[j];
      assert ops[k].id == ops[i].id;
    }
  }

  /** An advance does not bring an operation into flight. */
  lemma AdvanceNoNew(p: Policy, e: Engine, now: nat, broken: map<nat, string>, id: nat)
    requires OpsOk(p, e.inflight) && Rising(e.inflight, e.nextOpId) && !InFlight(e.inflight, id)
    ensures !InFlight(Advance(p, e, now, broken).inflight, id)
  {
    SweptOk(p, e, now, broken);
    var ops := SweepFrom(p, e, now, broken).ops;
    forall i | 0 <= i < |ops| ensures ops[i].id != id {
      assert e.inflight[i].id == ops[i].id;
    }
    RetainFacts(ops, e.nextOpId, id);
  }

  lemma AdvanceSink(p: Policy, e: Engine, now: nat, broken: map<nat, string>, id: nat)
    requires OpsOk(p, e.inflight) && Rising(e.inflight, e.nextOpId)
    ensures var sink := Advance(p, e, now, broken).sink;
      && (!InFlight(e.inflight, id) ==>
            DoneCount(sink, id) == DoneCount(e.sink, id) && RetryCount(sink, id) == RetryCount(e.sink, id))
      && (forall i :: 0 <= i < |e.inflight| && e.inflight[i].id == id ==>
            var op' := Judged(p, IssueIfReady(p, e.inflight[i], now), now, broken);
            && DoneCount(sink, id) == DoneCount(e.sink, id) + (if Alive(op') then 0 else 1)
            && RetryCount(sink, id) == RetryCount(e.sink, id) + op'.attempts - e.inflight[i].attempts)
  {
    var ops := IssueReady(p, e.inflight, now);
    IssueOk(p, e.inflight, e.nextOpId, now, id);
    SweepTally(p, Swept([], Deferred(e.queue, now), e.completed, e.sink), ops, e.nextOpId, now, broken, id);
    forall i | 0 <= i < |e.inflight|
      ensures ops[i].id == e.inflight[i].id && ops[i].attempts == e.inflight[i].attempts
    {
    }
  }

  lemma JudgedAttempts(p: Policy, op: Op, now: nat, broken: map<nat, string>)
    requires OpOk(p, op)
    ensures Judged(p, IssueIfReady(p, op, now), now, broken).attempts <= p.maxRetries
  {
  }

  lemma AdvanceTally(p: Policy, e: Engine, now: nat, broken: map<nat, string>, id: nat)
    requires OpsOk(p, e.inflight) && Rising(e.inflight, e.nextOpId)
    requires IdTallied(p, e.inflight, e.sink, e.nextOpId, id)
    ensures var e' := Advance(p, e, now, broken); IdTallied(p, e'.inflight, e'.sink, e'.nextOpId, id)
  {
    AdvanceSink(p, e, now, broken, id);
    if InFlight(e.inflight, id) {
      var i :| 0 <= i < |e.inflight| && e.inflight[i].id == id;
      AdvanceTracks(p, e, now, broken, i);
      JudgedAttempts(p, e.inflight[i], now, broken);
    } else {
      AdvanceNoNew(p, e, now, broken, id);
    }
  }

  lemma AdvanceInv(p: Policy, e: Engine, now: nat, broken: map<nat, string>)
    requires Inv(p, e) && now <= U64_MAX
    ensures Inv(p, Advance(p, e, now, broken))
  {
    AdvanceSynced(p, e, now, broken);
    AdvanceOps(p, e, now, broken);
    var e' := Advance(p, e, now, broken);
    forall id ensures IdTallied(p, e'.inflight, e'.sink, e'.nextOpId, id) {
      assert IdTallied(p, e.inflight, e.sink, e.nextOpId, id);
      AdvanceTally(p, e, now, broken, id);
    }
    SweepCompletions(p, Swept([], Deferred(e.queue, now), e.completed, e.sink), IssueReady(p, e.inflight, now), now,
        broken, e.polled);
  }

  lemma StepInv(p: Policy, e: Engine, c: Command)
    requires Inv(p, e) && Legal(c)
    ensures Inv(p, Step(p, e, c))
  {
    match c
    case SubmitOp(kind, task) => SubmitInv(p, e, kind, task);
    case AdvanceTo(now, broken) => AdvanceInv(p, e, now, broken);
    case PollCompletions(now, broken) =>
      AdvanceInv(p, e, now, broken);
      var e' := Advance(p, e, now, broken);
      assert e'.polled + e'.completed + [] == e'.polled + e'.completed;
      DrainedInv(p, e');
  }

  lemma DrainedInv(p: Policy, e: Engine)
    requires Inv(p, e)
    ensures Inv(p, e.(completed := [], polled := e.polled + e.completed))
  {
    assert e.polled + e.completed + [] == e.polled + e.completed;
    forall id ensures IdTallied(p, e.inflight, e.sink, e.nextOpId, id) {}
  }

  lemma InitialInv(p: Policy)
    ensures Inv(p, Initial())
  {
  }

  lemma {:induction false} RunInv(p: Policy, e: Engine, cmds: seq<Command>)
    requires Inv(p, e) && forall c :: c in cmds ==> Legal(c)
    ensures Inv(p, Run(p, e, cmds))
    decreases |cmds|
  {
    if cmds != [] {
      StepInv(p, e, cmds[0]);
      RunInv(p, Step(p, e, cmds[0]), cmds[1..]);
    }
  }

  /**
   Exactly once: after any run, each operation ever submitted is either still in flight and
   has reported no completion, or has left and reported exactly one; nothing else reported
   any; nobody was retried more than max_retries times; and the completions handed out by
   polls followed by those still waiting are precisely the reported ones, in order.
   */
  lemma ExactlyOnce(p: Policy, cmds: seq<Command>, id: nat)
    requires forall c :: c in cmds ==> Legal(c)
    ensures var e := Run(p, Initial(), cmds);
      && DoneCount(e.sink, id) == (if 1 <= id <= e.nextOpId && !InFlight(e.inflight, id) then 1 else 0)
      && RetryCount(e.sink, id) <= p.maxRetries
      && e.polled + e.completed == Completions(e.sink)
      && Synced(e.queue, e.inflight) && |e.queue| <= |e.inflight| <= p.maxInflight
  {
    InitialInv(p);
    RunInv(p, Initial(), cmds);
    var e := Run(p, Initial(), cmds);
    assert IdTallied(p, e.inflight, e.sink, e.nextOpId, id);
    QueueNeverFuller(e.queue, e.inflight);
  }

  // ----- Bounded liveness --------------------------------------------------------------------

  /** How many more well-spaced advances an operation can survive. */
  ghost predicate LeavesWithin(p: Policy, ops: seq<Op>, id: nat, last: nat, n: nat) {
    forall i :: 0 <= i < |ops| && ops[i].id == id ==>
      ops[i].submittedAt <= last && p.maxRetries + 1 <= ops[i].attempts + n
  }

  /** An advance late enough ends the attempt: the operation leaves or starts its next attempt now. */
  lemma AttemptEnds(p: Policy, op: Op, now: nat, broken: map<nat, string>)
    requires OpOk(p, op) && now >= op.submittedAt + Grace(p, op.kind)
    ensures var op' := Judged(p, IssueIfReady(p, op, now), now, broken);
      op'.kind == op.kind && (Alive(op') ==> op'.submittedAt == now && op'.attempts == op.attempts + 1 <= p.maxRetries)
  {
  }

  /** The time of an advancing command. */
  predicate Advances(c: Command) { !c.SubmitOp? }

  /** Every advance comes at least `gap` after the one before it, the first at least `gap` after `last`. */
  predicate Spaced(cmds: seq<Command>, last: nat, gap: nat)
    decreases |cmds|
  {
    cmds == [] ||
    if Advances(cmds[0]) then last + gap <= cmds[0].now && Spaced(cmds[1..], cmds[0].now, gap)
    else Spaced(cmds[1..], last, gap)
  }

  function AdvanceCount(cmds: seq<Command>): nat {
    if cmds == [] then 0 else (if Advances(cmds[0]) then 1 else 0) + AdvanceCount(cmds[1..])
  }

  ghost predicate KindIs(ops: seq<Op>, id: nat, kind: Kind) {
    forall i :: 0 <= i < |ops| && ops[i].id == id ==> ops[i].kind == kind
  }

  lemma AdvanceLeaves(p: Policy, e: Engine, now: nat, broken: map<nat, string>, id: nat, kind: Kind, last: nat, n: nat)
    requires OpsOk(p, e.inflight) && Rising(e.inflight, e.nextOpId) && KindIs(e.inflight, id, kind)
    requires LeavesWithin(p, e.inflight, id, last, n + 1) && now >= last + Grace(p, kind)
    ensures var e' := Advance(p, e, now, broken);
      LeavesWithin(p, e'.inflight, id, now, n) && KindIs(e'.inflight, id, kind)
  {
    var e' := Advance(p, e, now, broken);
    forall j | 0 <= j < |e'.inflight| && e'.inflight[j].id == id
      ensures e'.inflight[j].submittedAt <= now && p.maxRetries + 1 <= e'.inflight[j].attempts + n
      ensures e'.inflight[j].kind == kind
    {
      assert InFlight(e'.inflight, id);
      if !InFlight(e.inflight, id) { AdvanceNoNew(p, e, now, broken, id); }
      var i :| 0 <= i < |e.inflight| && e.inflight[i].id == id;
      AdvanceTracks(p, e, now, broken, i);
      AttemptEnds(p, e.inflight[i], now, broken);
    }
  }

  /**
   Bounded liveness: an operation leaves the in-flight list within max_retries + 1 advances
   (fewer for each attempt already spent) if each of them comes at least min(latency, timeout)
   after the one before, the first counted from the operation's submission.
   */
  lemma {:induction false} Liveness(p: Policy, e: Engine, cmds: seq<Command>, id: nat, kind: Kind, last: nat, n: nat)
    requires Inv(p, e) && (forall c :: c in cmds ==> Legal(c)) && id <= e.nextOpId
    requires LeavesWithin(p, e.inflight, id, last, n) && KindIs(e.inflight, id, kind)
    requires Spaced(cmds, last, Grace(p, kind)) && AdvanceCount(cmds) >= n
    ensures !InFlight(Run(p, e, cmds).inflight, id)
    decreases |cmds|
  {
    if cmds == [] {
      forall i | 0 <= i < |e.inflight| ensures e.inflight[i].id != id { assert OpOk(p, e.inflight[i]); }
    } else {
      var c, e' := cmds[0], Step(p, e, cmds[0]);
      StepInv(p, e, c);
      if Advances(c) {
        if n == 0 {
          GoneStays(p, e, c, id);
          Liveness(p, e', cmds[1..], id, kind, c.now, 0);
        } else {
          AdvanceLeaves(p, e, c.now, c.broken, id, kind, last, n - 1);
          Liveness(p, e', cmds[1..], id, kind, c.now, n - 1);
        }
      } else {
        Liveness(p, e', cmds[1..], id, kind, last, n);
      }
    }
  }

  /** With no budget left the operation is not in flight, and it does not come back. */
  lemma GoneStays(p: Policy, e: Engine, c: Command, id: nat)
    requires Inv(p, e) && Legal(c) && Advances(c) && LeavesWithin(p, e.inflight, id, U64_MAX, 0)
    ensures !InFlight(Step(p, e, c).inflight, id)
  {
    forall i | 0 <= i < |e.inflight| ensures e.inflight[i].id != id { assert OpOk(p, e.inflight[i]); }
    AdvanceNoNew(p, e, c.now, c.broken, id);
  }

  /** The liveness theorem for an operation just submitted. */
  lemma SubmittedLeaves(p: Policy, e: Engine, kind: Kind, task: TaskKey, cmds: seq<Command>)
    requires Inv(p, e) && |e.inflight| < p.maxInflight && forall c :: c in cmds ==> Legal(c)
    requires Spaced(cmds, e.now, Grace(p, kind)) && AdvanceCount(cmds) >= p.maxRetries + 1
    ensures var (e', r) := Submit(p, e, kind, task);
      r.Ok? && !InFlight(Run(p, e', cmds).inflight, r.value)
  {
    var (e', r) := Submit(p, e, kind, task);
    SubmitInv(p, e, kind, task);
    Liveness(p, e', cmds, r.value, kind, e.now, p.maxRetries + 1);
  }
}
