/**
 What the engine answers, told by submission time, latency, timeout and attempts alone.

 EngineSpec follows the code: records are drained and issued, issued operations are swept,
 finished ones are dropped. Here an operation is one attempt with a starting time, and an
 advance decides its fate by comparing the time with two deadlines. The engine refines this
 description over every run.
 */
module EngineAnswers {
  import opened SimCore
  import opened RuntimeQueue
  import opened EngineSpec
  import opened EngineProofs

  datatype Attempt = Attempt(id: nat, kind: Kind, task: TaskKey, since: nat, tries: nat)

  datatype Fate = Ends(status: CompletionStatus, at: nat) | Restarts | Stays

  function Due(p: Policy, a: Attempt): nat { a.since + Latency(p, a.kind) }

  predicate Breaks(p: Policy, a: Attempt, broken: map<nat, string>) {
    p.external && a.kind.DispatchOp? && a.id in broken
  }

  /** Being due is checked before being late, whichever deadline passed first. */
  function FateOf(p: Policy, a: Attempt, now: nat, broken: map<nat, string>): Fate {
    if now >= Due(p, a) then
      if Breaks(p, a, broken) then Ends(FatalFailure(broken[a.id]), now) else Ends(Success, Due(p, a))
    else if now >= a.since + p.timeout then
      if a.tries < p.maxRetries then Restarts else Ends(FatalFailure("timeout_exhausted"), now)
    else Stays
  }

  function Report(a: Attempt, status: CompletionStatus, at: nat): CompletionEvent {
    CompletionEvent(a.id, Some(a.task), ChipBackend, status, at)
  }

  function ReportOf(p: Policy, a: Attempt, now: nat, broken: map<nat, string>): seq<CompletionEvent> {
    match FateOf(p, a, now, broken)
    case Ends(status, at) => [Report(a, status, at)]
    case _ => []
  }

  function NewsOf(p: Policy, a: Attempt, now: nat, broken: map<nat, string>): seq<SimEvent> {
    match FateOf(p, a, now, broken)
    case Ends(status, at) =>
      (if status.Success? then [] else [RuntimeFailed(now, a.id)]) + [CompletionObserved(at, Report(a, status, at))]
    case Restarts => [RuntimeRetried(now, a.id, a.tries + 1)]
    case Stays => []
  }

  function LeftOf(p: Policy, a: Attempt, now: nat, broken: map<nat, string>): seq<Attempt> {
    match FateOf(p, a, now, broken)
    case Ends(_, _) => []
    case Restarts => [a.(since := now, tries := a.tries + 1)]
    case Stays => [a]
  }

  function Reports(p: Policy, s: seq<Attempt>, now: nat, broken: map<nat, string>): seq<CompletionEvent> {
    if s == [] then [] else Reports(p, s[..|s| - 1], now, broken) + ReportOf(p, s[|s| - 1], now, broken)
  }

  function News(p: Policy, s: seq<Attempt>, now: nat, broken: map<nat, string>): seq<SimEvent> {
    if s == [] then [] else News(p, s[..|s| - 1], now, broken) + NewsOf(p, s[|s| - 1], now, broken)
  }

  function Left(p: Policy, s: seq<Attempt>, now: nat, broken: map<nat, string>): seq<Attempt> {
    if s == [] then [] else Left(p, s[..|s| - 1], now, broken) + LeftOf(p, s[|s| - 1], now, broken)
  }

  // ----- The whole engine in these terms ----------------------------------------------------

  datatype Ledger = Ledger(
    now: nat, last: nat, attempts: seq<Attempt>, waiting: seq<CompletionEvent>, handed: seq<CompletionEvent>,
    news: seq<SimEvent>)

  function LedgerAdvance(p: Policy, l: Ledger, now: nat, broken: map<nat, string>): Ledger {
    Ledger(now, l.last, Left(p, l.attempts, now, broken), l.waiting + Reports(p, l.attempts, now, broken), l.handed,
           l.news + News(p, l.attempts, now, broken))
  }

  function LedgerStep(p: Policy, l: Ledger, c: Command): Ledger {
    match c
    case SubmitOp(kind, task) =>
      if |l.attempts| >= p.maxInflight then l
      else l.(last := l.last + 1, attempts := l.attempts + [Attempt(l.last + 1, kind, task, l.now, 0)],
              news := l.news + if kind.DispatchOp? then [DispatchSubmitted(l.now, task)] else [])
    case AdvanceTo(now, broken) => LedgerAdvance(p, l, now, broken)
    case PollCompletions(now, broken) =>
      var l' := LedgerAdvance(p, l, now, broken);
      l'.(waiting := [], handed := l'.handed + l'.waiting)
  }

  function LedgerRun(p: Policy, l: Ledger, cmds: seq<Command>): Ledger
    decreases |cmds|
  {
    if cmds == [] then l else LedgerRun(p, LedgerStep(p, l, cmds[0]), cmds[1..])
  }

  // ----- The engine refines it ----------------------------------------------------------------

  function AttemptOf(op: Op): Attempt { Attempt(op.id, op.kind, op.task, op.submittedAt, op.attempts) }

  function Attempts(ops: seq<Op>): (r: seq<Attempt>)
    ensures |r| == |ops| && forall i :: 0 <= i < |ops| ==> r[i] == AttemptOf(ops[i])
  {
    seq(|ops|, i requires 0 <= i < |ops| => AttemptOf(ops[i]))
  }

  function View(e: Engine): Ledger {
    Ledger(e.now, e.nextOpId, Attempts(e.inflight), e.completed, e.polled, e.sink)
  }

  /** One operation: issuing it if its record is ready and sweeping it is deciding its fate. */
  lemma OneFate(p: Policy, w: Swept, op: Op, now: nat, broken: map<nat, string>)
    requires OpOk(p, op) && now <= U64_MAX
    ensures var op', a := IssueIfReady(p, op, now), AttemptOf(op);
      var w' := SweepOne(p, w, op', now, broken);
      && w'.completed == w.completed + ReportOf(p, a, now, broken)
      && w'.sink == w.sink + NewsOf(p, a, now, broken)
      && Attempts(Retain(w'.ops)) == Attempts(Retain(w.ops)) + LeftOf(p, a, now, broken)
  {
    var op', a := IssueIfReady(p, op, now), AttemptOf(op);
    var w' := SweepOne(p, w, op', now, broken);
    FateStatus(p, w, op, op', now, broken);
    assert w'.ops[..|w.ops|] == w.ops;
  }

  lemma FateStatus(p: Policy, w: Swept, op: Op, op': Op, now: nat, broken: map<nat, string>)
    requires OpOk(p, op) && now <= U64_MAX && op' == IssueIfReady(p, op, now)
    ensures var a, w' := AttemptOf(op), SweepOne(p, w, op', now, broken);
      && w'.completed == w.completed + ReportOf(p, a, now, broken)
      && w'.sink == w.sink + NewsOf(p, a, now, broken)
      && exists x :: w'.ops == w.ops + [x]
           && (if Alive(x) then LeftOf(p, a, now, broken) == [AttemptOf(x)] else LeftOf(p, a, now, broken) == [])
  {
    var a, w' := AttemptOf(op), SweepOne(p, w, op', now, broken);
    var x := Judged(p, op', now, broken);
    SweepOneOps(p, w, op', now, broken);
    if now >= Due(p, a) {
      assert op'.state.Issued? && op'.readyAt == Due(p, a);
    } else if now >= a.since + p.timeout {
      assert op'.state.Issued? && op'.timeoutAt == a.since + p.timeout;
    }
  }

  /** The sweep from w to w' did to the attempts s what their fates say. */
  ghost predicate Reflects(p: Policy, w: Swept, w': Swept, s: seq<Attempt>, now: nat, broken: map<nat, string>) {
    && w'.completed == w.completed + Reports(p, s, now, broken)
    && w'.sink == w.sink + News(p, s, now, broken)
    && Attempts(Retain(w'.ops)) == Left(p, s, now, broken)
  }

  lemma ReflectsOne(p: Policy, w: Swept, w1: Swept, w2: Swept, s: seq<Attempt>, a: Attempt, now: nat,
                    broken: map<nat, string>)
    requires Reflects(p, w, w1, s, now, broken)
    requires w2.completed == w1.completed + ReportOf(p, a, now, broken)
    requires w2.sink == w1.sink + NewsOf(p, a, now, broken)
    requires Attempts(Retain(w2.ops)) == Attempts(Retain(w1.ops)) + LeftOf(p, a, now, broken)
    ensures Reflects(p, w, w2, s + [a], now, broken)
  {
    assert (s + [a])[..|s|] == s;
  }

  lemma OneMoreFate(p: Policy, w: Swept, w1: Swept, init: seq<Op>, op: Op, now: nat, broken: map<nat, string>)
    requires Reflects(p, w, w1, Attempts(init), now, broken) && OpOk(p, op) && now <= U64_MAX
    ensures Reflects(p, w, SweepOne(p, w1, IssueIfReady(p, op, now), now, broken), Attempts(init + [op]), now, broken)
  {
    assert Attempts(init + [op]) == Attempts(init) + [AttemptOf(op)];
    OneFate(p, w1, op, now, broken);
    var w2 := SweepOne(p, w1, IssueIfReady(p, op, now), now, broken);
    ReflectsOne(p, w, w1, w2, Attempts(init), AttemptOf(op), now, broken);
  }

  lemma SweepSnoc(p: Policy, w: Swept, init: seq<Op>, op: Op, now: nat, broken: map<nat, string>)
    ensures Sweep(p, w, IssueReady(p, init + [op], now), now, broken)
         == SweepOne(p, Sweep(p, w, IssueReady(p, init, now), now, broken), IssueIfReady(p, op, now), now, broken)
  {
    assert IssueReady(p, init + [op], now)[..|init|] == IssueReady(p, init, now);
  }

  lemma {:induction false} SweptFates(p: Policy, w: Swept, ops: seq<Op>, now: nat, broken: map<nat, string>)
    requires OpsOk(p, ops) && now <= U64_MAX && w.ops == []
    ensures Reflects(p, w, Sweep(p, w, IssueReady(p, ops, now), now, broken), Attempts(ops), now, broken)
  {
    if ops != [] {
      var init, op := ops[..|ops| - 1], ops[|ops| - 1];
      assert ops == init + [op];
      SweptFates(p, w, init, now, broken);
      OneMoreFate(p, w, Sweep(p, w, IssueReady(p, init, now), now, broken), init, op, now, broken);
      SweepSnoc(p, w, init, op, now, broken);
    }
  }

  lemma AdvanceRefines(p: Policy, e: Engine, now: nat, broken: map<nat, string>)
    requires Inv(p, e) && now <= U64_MAX
    ensures View(Advance(p, e, now, broken)) == LedgerAdvance(p, View(e), now, broken)
  {
    SweptFates(p, Swept([], Deferred(e.queue, now), e.completed, e.sink), e.inflight, now, broken);
  }

  lemma StepRefines(p: Policy, e: Engine, c: Command)
    requires Inv(p, e) && Legal(c)
    ensures View(Step(p, e, c)) == LedgerStep(p, View(e), c)
  {
    match c
    case SubmitOp(kind, task) =>
      if |e.inflight| < p.maxInflight {
        assert Attempts(e.inflight + [NewOp(e, kind, task)])
            == Attempts(e.inflight) + [AttemptOf(NewOp(e, kind, task))];
        assert e.sink + [] == e.sink;
      }
    case AdvanceTo(now, broken) => AdvanceRefines(p, e, now, broken);
    case PollCompletions(now, broken) => AdvanceRefines(p, e, now, broken);
  }

  /** Over every run the engine holds, reports and emits what the description says. */
  lemma {:induction false} RunRefines(p: Policy, e: Engine, cmds: seq<Command>)
    requires Inv(p, e) && forall c :: c in cmds ==> Legal(c)
    ensures View(Run(p, e, cmds)) == LedgerRun(p, View(e), cmds)
    decreases |cmds|
  {
    if cmds != [] {
      StepInv(p, e, cmds[0]);
      StepRefines(p, e, cmds[0]);
      RunRefines(p, Step(p, e, cmds[0]), cmds[1..]);
    }
  }

  // ----- One operation among the others -------------------------------------------------------

  /** The reports about operation id, in order. */
  function About(s: seq<CompletionEvent>, id: nat): seq<CompletionEvent> {
    if s == [] then []
    else About(s[..|s| - 1], id) + if s[|s| - 1].opId == id then [s[|s| - 1]] else []
  }

  lemma {:induction false} AboutConcat(a: seq<CompletionEvent>, b: seq<CompletionEvent>, id: nat)
    ensures About(a + b, id) == About(a, id) + About(b, id)
  {
    if b == [] {
      assert a + b == a;
    } else {
      AboutConcat(a, b[..|b| - 1], id);
      assert (a + b)[..|a + b| - 1] == a + b[..|b| - 1];
    }
  }

  /** Attempts of operations in flight: handles rise. */
  ghost predicate Distinct(s: seq<Attempt>) { forall i, j :: 0 <= i < j < |s| ==> s[i].id < s[j].id }

  lemma AboutReport(p: Policy, a: Attempt, now: nat, broken: map<nat, string>, id: nat)
    ensures var r := ReportOf(p, a, now, broken); About(r, id) == if a.id == id then r else []
  {
    var r := ReportOf(p, a, now, broken);
    if r != [] { assert r[..0] == []; }
  }

  lemma {:induction false} ReportsAbout(p: Policy, s: seq<Attempt>, now: nat, broken: map<nat, string>, id: nat)
    requires Distinct(s)
    ensures (forall i :: 0 <= i < |s| ==> s[i].id != id) ==> About(Reports(p, s, now, broken), id) == []
    ensures forall i :: 0 <= i < |s| && s[i].id == id ==>
              About(Reports(p, s, now, broken), id) == ReportOf(p, s[i], now, broken)
  {
    if s != [] {
      var init, a := s[..|s| - 1], s[|s| - 1];
      ReportsAbout(p, init, now, broken, id);
      var before, r := Reports(p, init, now, broken), ReportOf(p, a, now, broken);
      AboutConcat(before, r, id);
      AboutReport(p, a, now, broken, id);
      forall i | 0 <= i < |s| && s[i].id == id ensures About(before + r, id) == ReportOf(p, s[i], now, broken) {
        if i < |init| { assert init[i] == s[i]; }
      }
    }
  }

  /** The reports an advance adds about an operation in flight are the ones its attempt earns. */
  lemma AdvanceReports(p: Policy, e: Engine, now: nat, broken: map<nat, string>, i: nat)
    requires Inv(p, e) && now <= U64_MAX && i < |e.inflight|
    ensures var op := e.inflight[i];
      About(Advance(p, e, now, broken).completed, op.id)
        == About(e.completed, op.id) + ReportOf(p, AttemptOf(op), now, broken)
  {
    AdvanceRefines(p, e, now, broken);
    var s, id := Attempts(e.inflight), e.inflight[i].id;
    AboutConcat(e.completed, Reports(p, s, now, broken), id);
    ReportsAbout(p, s, now, broken, id);
    assert s[i] == AttemptOf(e.inflight[i]);
  }

  /** Nothing waits to be handed out about an operation still in flight. */
  lemma NothingWaits(p: Policy, e: Engine, i: nat)
    requires Inv(p, e) && i < |e.inflight|
    ensures About(e.completed, e.inflight[i].id) == []
  {
    var id := e.inflight[i].id;
    assert IdTallied(p, e.inflight, e.sink, e.nextOpId, id);
    DoneIsAbout(e.sink, id);
    AboutConcat(e.polled, e.completed, id);
  }

  lemma {:induction false} DoneIsAbout(sink: seq<SimEvent>, id: nat)
    ensures |About(EngineProofs.Completions(sink), id)| == DoneCount(sink, id)
  {
    if sink != [] {
      DoneIsAbout(sink[..|sink| - 1], id);
      var ev, rest := sink[|sink| - 1], EngineProofs.Completions(sink[..|sink| - 1]);
      if ev.CompletionObserved? { assert (rest + [ev.completion])[..|rest|] == rest; }
    }
  }

  /**
   The first advance at or after submission time plus latency reports success, finished at
   exactly that time, even when the timeout has passed as well; only a dispatch whose
   external process fails reports that failure instead, at the time of the advance.
   */
  lemma DueReports(p: Policy, e: Engine, now: nat, broken: map<nat, string>, i: nat)
    requires Inv(p, e) && now <= U64_MAX && i < |e.inflight|
    requires now >= e.inflight[i].submittedAt + Latency(p, e.inflight[i].kind)
    ensures var op, e' := e.inflight[i], Advance(p, e, now, broken);
      && !InFlight(e'.inflight, op.id)
      && About(e'.completed, op.id) ==
           if p.external && op.kind.DispatchOp? && op.id in broken
           then [CompletionEvent(op.id, Some(op.task), ChipBackend, FatalFailure(broken[op.id]), now)]
           else [CompletionEvent(op.id, Some(op.task), ChipBackend, Success,
                                 op.submittedAt + Latency(p, op.kind))]
  {
    AdvanceReports(p, e, now, broken, i);
    NothingWaits(p, e, i);
    LeavesIfEnds(p, e, now, broken, i);
  }

  /** An operation whose attempt ends is in flight no more; one whose attempt does not end stays. */
  lemma LeavesIfEnds(p: Policy, e: Engine, now: nat, broken: map<nat, string>, i: nat)
    requires Inv(p, e) && now <= U64_MAX && i < |e.inflight|
    ensures var op, e' := e.inflight[i], Advance(p, e, now, broken);
      InFlight(e'.inflight, op.id) <==> !FateOf(p, AttemptOf(op), now, broken).Ends?
  {
    AdvanceTracks(p, e, now, broken, i);
    FateStatus(p, Swept([], [], [], []), e.inflight[i], IssueIfReady(p, e.inflight[i], now), now, broken);
  }

  predicate TimeoutReport(c: CompletionEvent) { c.status == FatalFailure("timeout_exhausted") }

  /**
   An operation is reported as timed out exactly when its attempt is late and not yet due and
   no retry is left. (A broken external process may choose the same code for its own failure.)
   */
  lemma TimeoutReported(p: Policy, e: Engine, now: nat, broken: map<nat, string>, i: nat)
    requires Inv(p, e) && now <= U64_MAX && i < |e.inflight|
    requires forall id :: id in broken ==> broken[id] != "timeout_exhausted"
    ensures var op, r := e.inflight[i], About(Advance(p, e, now, broken).completed, e.inflight[i].id);
      && ((exists c :: c in r && TimeoutReport(c)) <==>
            && op.submittedAt + p.timeout <= now < op.submittedAt + Latency(p, op.kind)
            && op.attempts >= p.maxRetries)
      && forall c :: c in r && TimeoutReport(c) ==> c.finishedAt == now
  {
    AdvanceReports(p, e, now, broken, i);
    NothingWaits(p, e, i);
    var op, r := e.inflight[i], About(Advance(p, e, now, broken).completed, e.inflight[i].id);
    var a := AttemptOf(op);
    if op.submittedAt + p.timeout <= now < Due(p, a) && op.attempts >= p.maxRetries {
      assert TimeoutReport(Report(a, FatalFailure("timeout_exhausted"), now));
      assert Report(a, FatalFailure("timeout_exhausted"), now) in r;
    }
  }

  /** Late, not yet due, with a retry left: the operation starts over now. Neither late nor due: nothing happens. */
  lemma OtherwiseStays(p: Policy, e: Engine, now: nat, broken: map<nat, string>, i: nat)
    requires Inv(p, e) && now <= U64_MAX && i < |e.inflight|
    requires now < e.inflight[i].submittedAt + Latency(p, e.inflight[i].kind)
    requires now < e.inflight[i].submittedAt + p.timeout || e.inflight[i].attempts < p.maxRetries
    ensures var op, e' := e.inflight[i], Advance(p, e, now, broken);
      && About(e'.completed, op.id) == []
      && exists j :: 0 <= j < |e'.inflight| && AttemptOf(e'.inflight[j]) ==
           if now < op.submittedAt + p.timeout then AttemptOf(op)
           else Attempt(op.id, op.kind, op.task, now, op.attempts + 1)
  {
    AdvanceReports(p, e, now, broken, i);
    NothingWaits(p, e, i);
    LeavesIfEnds(p, e, now, broken, i);
    var op, e' := e.inflight[i], Advance(p, e, now, broken);
    var j :| 0 <= j < |e'.inflight| && e'.inflight[j].id == op.id;
    AdvanceTracks(p, e, now, broken, i);
    FateStatus(p, Swept([], [], [], []), op, IssueIfReady(p, op, now), now, broken);
    assert LeftOf(p, AttemptOf(op), now, broken) == [AttemptOf(e'.inflight[j])];
  }

  // ----- From submission to completion ------------------------------------------------------

  /** Every advance is legal and comes before `deadline`. */
  predicate Early(cmds: seq<Command>, deadline: nat) {
    forall c :: c in cmds ==> Legal(c) && (Advances(c) ==> c.now < deadline)
  }

  ghost predicate Holds(e: Engine, a: Attempt) { a in Attempts(e.inflight) }

  lemma {:induction false} LeftKeeps(p: Policy, s: seq<Attempt>, now: nat, broken: map<nat, string>, a: Attempt)
    requires a in s && FateOf(p, a, now, broken).Stays?
    ensures a in Left(p, s, now, broken)
  {
    if a != s[|s| - 1] { LeftKeeps(p, s[..|s| - 1], now, broken, a); }
  }

  lemma {:induction false} EarlyKeeps(p: Policy, e: Engine, cmds: seq<Command>, a: Attempt)
    requires Inv(p, e) && Holds(e, a)
    requires Early(cmds, a.since + Grace(p, a.kind))
    ensures Inv(p, Run(p, e, cmds)) && Holds(Run(p, e, cmds), a)
    decreases |cmds|
  {
    if cmds != [] {
      var c := cmds[0];
      StepInv(p, e, c);
      StepRefines(p, e, c);
      if Advances(c) { LeftKeeps(p, Attempts(e.inflight), c.now, c.broken, a); }
      EarlyKeeps(p, Step(p, e, c), cmds[1..], a);
    }
  }

  lemma HeldAt(e: Engine, a: Attempt) returns (i: nat)
    requires Holds(e, a)
    ensures i < |e.inflight| && AttemptOf(e.inflight[i]) == a
  {
    i :| 0 <= i < |e.inflight| && Attempts(e.inflight)[i] == a;
  }

  lemma DueSucceeds(p: Policy, e: Engine, a: Attempt, now: nat, broken: map<nat, string>)
    requires Inv(p, e) && Holds(e, a) && Due(p, a) <= now <= U64_MAX && !Breaks(p, a, broken)
    ensures About(Advance(p, e, now, broken).completed, a.id) == [Report(a, Success, Due(p, a))]
  {
    var i := HeldAt(e, a);
    DueReports(p, e, now, broken, i);
  }

  /** An accepted operation gets the next handle and starts its first attempt now. */
  lemma SubmitHolds(p: Policy, e: Engine, a: Attempt)
    requires Inv(p, e) && |e.inflight| < p.maxInflight
    requires a.id == e.nextOpId + 1 && a.since == e.now && a.tries == 0
    ensures var (e', r) := Submit(p, e, a.kind, a.task); r == Ok(a.id) && Inv(p, e') && Holds(e', a)
  {
    SubmitInv(p, e, a.kind, a.task);
    var e' := Submit(p, e, a.kind, a.task).0;
    assert Attempts(e'.inflight)[|e.inflight|] == a;
  }

  lemma HeldSucceeds(p: Policy, e: Engine, a: Attempt, between: seq<Command>, now: nat, broken: map<nat, string>)
    requires Inv(p, e) && Holds(e, a) && Early(between, a.since + Grace(p, a.kind))
    requires Due(p, a) <= now <= U64_MAX && !Breaks(p, a, broken)
    ensures About(Advance(p, Run(p, e, between), now, broken).completed, a.id) == [Report(a, Success, Due(p, a))]
  {
    EarlyKeeps(p, e, between, a);
    DueSucceeds(p, Run(p, e, between), a, now, broken);
  }

  ghost predicate Reachable(p: Policy, e: Engine) {
    exists cmds :: (forall c :: c in cmds ==> Legal(c)) && e == Run(p, Initial(), cmds)
  }

  lemma ReachableInv(p: Policy, e: Engine)
    requires Reachable(p, e)
    ensures Inv(p, e)
  {
    var cmds :| (forall c :: c in cmds ==> Legal(c)) && e == Run(p, Initial(), cmds);
    InitialInv(p);
    RunInv(p, Initial(), cmds);
  }

  /**
   From any reachable engine e: an accepted operation, then any commands whose advances all
   come before it is due or late, then an advance at or after it is due. It is reported
   exactly once, as a success at its submission time plus its latency.
   */
  lemma SubmittedSucceeds(p: Policy, e: Engine, a: Attempt, between: seq<Command>, now: nat, broken: map<nat, string>)
    requires Reachable(p, e) && |e.inflight| < p.maxInflight
    requires a.id == e.nextOpId + 1 && a.since == e.now && a.tries == 0
    requires Early(between, a.since + Grace(p, a.kind))
    requires Due(p, a) <= now <= U64_MAX && !Breaks(p, a, broken)
    ensures var (e', r) := Submit(p, e, a.kind, a.task);
      && r == Ok(a.id)
      && About(Advance(p, Run(p, e', between), now, broken).completed, a.id) == [Report(a, Success, Due(p, a))]
  {
    ReachableInv(p, e);
    SubmitHolds(p, e, a);
    HeldSucceeds(p, Submit(p, e, a.kind, a.task).0, a, between, now, broken);
  }
}
