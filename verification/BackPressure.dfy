/** How much staged work a flush absorbs before service queues push back for good. */
module BackPressure {
  import opened SimCore
  import opened Services
  import opened RuntimeQueue
  import opened SurfaceSpec
  import opened SurfaceInvariant
  import FlushReports

  predicate Targets(r: Entry, src: CompletionSource) { ServiceOf(r.payload.desc) == Some(src) }

  /** Entries bound for one service. */
  function CountFor(work: seq<Entry>, src: CompletionSource): nat {
    if work == [] then 0
    else CountFor(work[..|work| - 1], src) + if Targets(work[|work| - 1], src) then 1 else 0
  }

  lemma CountAppend(work: seq<Entry>, r: Entry, src: CompletionSource)
    ensures CountFor(work + [r], src) == CountFor(work, src) + if Targets(r, src) then 1 else 0
  {
    assert (work + [r])[..|work|] == work;
  }

  /** Completions waiting in a service. */
  function Load(s: State, src: CompletionSource): nat { |s.services.Get(src).completions| }

  /** Handles a service has given out. */
  function Handed(s: State, src: CompletionSource): nat { s.services.Get(src).nextOpId }

  ghost predicate NoQueueFull(failures: seq<Failure>) { forall f :: f in failures ==> !f.why.QueueFull? }

  // ----- What one entry does to one service ----------------------------------------------

  /** A service with room takes the entry; the others do not notice. */
  lemma AcceptEffect(cfg: Config, p: Pass, r: Entry, y: CompletionSource, src: CompletionSource)
    requires Targets(r, y) && Load(p.s, y) < Depth(cfg, y) && IsService(src)
    ensures var p' := DriveOne(cfg, p, r);
      && p'.kept == p.kept && p'.failures == p.failures
      && Load(p'.s, src) == Load(p.s, src) + (if y == src then 1 else 0)
      && Handed(p'.s, src) == Handed(p.s, src) + (if y == src then 1 else 0)
  {
    assert Submit(cfg, p.s, r.payload.desc, r.payload.cq).0 == Bind(cfg, Ticked(p.s), r.payload.desc, y, r.payload.cq);
  }

  /** A full service refuses the entry, and then all four services are drained. */
  lemma RefuseEffect(cfg: Config, p: Pass, r: Entry, y: CompletionSource, src: CompletionSource)
    requires PassOk(cfg, p) && Targets(r, y) && Load(p.s, y) >= Depth(cfg, y) && IsService(src)
    ensures var p' := DriveOne(cfg, p, r);
      && p'.kept == (if r.attempts < cfg.maxRetries then p.kept + [Retried(r, U64_MAX, cfg.retryDelay)] else p.kept)
      && p'.failures == (if r.attempts < cfg.maxRetries then p.failures
                         else p.failures + [Failure(r.payload.cq, QueueFull(y))])
      && Load(p'.s, src) == 0 && Handed(p'.s, src) == Handed(p.s, src)
  {
    Tick(cfg, p.s);
    FlushServicesInv(cfg, Ticked(p.s));
    GivenGet(p.s.services, src);
    GivenGet(FlushServices(Ticked(p.s)).services, src);
    assert Submit(cfg, p.s, r.payload.desc, r.payload.cq) == (Ticked(p.s), Refused(QueueFull(y)));
  }

  /** An entry that needs no service leaves all of them alone. */
  lemma OtherEffect(cfg: Config, p: Pass, r: Entry)
    requires ServiceOf(r.payload.desc) == None
    ensures var p' := DriveOne(cfg, p, r);
      && p'.kept == p.kept && p'.s.services == p.s.services
      && (p'.failures == p.failures
          || exists f :: p'.failures == p.failures + [f] && !f.why.QueueFull?)
  {
    var (s', result) := Submit(cfg, p.s, r.payload.desc, r.payload.cq);
    AtOnceServices(p.s, r.payload.desc, r.payload.cq);
    AtOnceServices(Ticked(p.s), r.payload.desc, r.payload.cq);
    assert s'.services == p.s.services;
    if result.Refused? {
      assert DriveOne(cfg, p, r) == Refuse(cfg, p.(s := s'), r, result.why);
    }
  }

  lemma AtOnceServices(s: State, d: Descriptor, cq: nat)
    requires d.Io?
    ensures SubmitAtOnce(s, d, cq).0.services == s.services
    ensures SubmitAtOnce(s, d, cq).1.Refused? ==> !SubmitAtOnce(s, d, cq).1.why.QueueFull?
  {
  }

  // ----- First pass: at most one refusal per service -------------------------------------

  /** Bookkeeping of a pass that started from s0 and has processed `done`. */
  ghost predicate OneRefusal(cfg: Config, s0: State, p: Pass, done: seq<Entry>, src: CompletionSource) {
    var refused, depth := CountFor(p.kept, src), Depth(cfg, src);
    && refused <= 1
    && Handed(p.s, src) + refused == Handed(s0, src) + CountFor(done, src)
    && Load(p.s, src) + (if refused == 1 then depth + 1 else 0) <= Load(s0, src) + CountFor(done, src)
  }

  ghost predicate WithinTwice(cfg: Config, s: State, work: seq<Entry>) {
    forall src :: IsService(src) ==> Load(s, src) + CountFor(work, src) <= 2 * Depth(cfg, src)
  }

  ghost predicate Steady(cfg: Config, s0: State, p: Pass, done: seq<Entry>) {
    NoQueueFull(p.failures) && forall src :: IsService(src) ==> OneRefusal(cfg, s0, p, done, src)
  }

  lemma OneRefusalStep(cfg: Config, s0: State, p: Pass, done: seq<Entry>, r: Entry, src: CompletionSource)
    requires PassOk(cfg, p) && IsService(src) && r.attempts < cfg.maxRetries
    requires OneRefusal(cfg, s0, p, done, src)
    requires Load(s0, src) + CountFor(done + [r], src) <= 2 * Depth(cfg, src)
    ensures OneRefusal(cfg, s0, DriveOne(cfg, p, r), done + [r], src)
  {
    var p' := DriveOne(cfg, p, r);
    CountAppend(done, r, src);
    OneEffect(cfg, p, r, src);
    assert CountFor(p'.kept, src) <= 1;
  }

  /** One entry, seen from one service. */
  lemma OneEffect(cfg: Config, p: Pass, r: Entry, src: CompletionSource)
    requires PassOk(cfg, p) && IsService(src) && r.attempts < cfg.maxRetries
    ensures var p' := DriveOne(cfg, p, r);
      var hit, full := Targets(r, src), Load(p.s, src) >= Depth(cfg, src);
      && Handed(p'.s, src) == Handed(p.s, src) + (if hit && !full then 1 else 0)
      && CountFor(p'.kept, src) == CountFor(p.kept, src) + (if hit && full then 1 else 0)
      && (hit ==> Load(p'.s, src) == if full then 0 else Load(p.s, src) + 1)
      && (!hit ==> Load(p'.s, src) == Load(p.s, src) || Load(p'.s, src) == 0)
  {
    var target := ServiceOf(r.payload.desc);
    if target == None {
      OtherEffect(cfg, p, r);
    } else if Load(p.s, target.value) < Depth(cfg, target.value) {
      AcceptEffect(cfg, p, r, target.value, src);
    } else {
      RefuseEffect(cfg, p, r, target.value, src);
      CountAppend(p.kept, Retried(r, U64_MAX, cfg.retryDelay), src);
    }
  }

  lemma FailuresStep(cfg: Config, p: Pass, r: Entry)
    requires PassOk(cfg, p) && NoQueueFull(p.failures)
    requires r.attempts < cfg.maxRetries || (ServiceOf(r.payload.desc).Some? ==>
               Load(p.s, ServiceOf(r.payload.desc).value) < Depth(cfg, ServiceOf(r.payload.desc).value))
    ensures NoQueueFull(DriveOne(cfg, p, r).failures)
  {
    var target := ServiceOf(r.payload.desc);
    if target == None {
      OtherEffect(cfg, p, r);
    } else if Load(p.s, target.value) < Depth(cfg, target.value) {
      AcceptEffect(cfg, p, r, target.value, target.value);
    } else {
      RefuseEffect(cfg, p, r, target.value, target.value);
    }
  }

  lemma {:induction false} PassSteady(cfg: Config, p: Pass, ready: seq<Entry>)
    requires PassOk(cfg, p) && WorkLive(ready, p.s.cqs.Keys) && p.kept == [] && p.failures == []
    requires cfg.maxRetries >= 1 && Untried(ready) && WithinTwice(cfg, p.s, ready)
    ensures Steady(cfg, p.s, Drive(cfg, p, ready), ready)
  {
    if ready != [] {
      var init, r := ready[..|ready| - 1], ready[|ready| - 1];
      var p1 := Drive(cfg, p, init);
      PassSteady(cfg, p, init);
      DriveInv(cfg, p, init);
      FailuresStep(cfg, p1, r);
      assert init + [r] == ready;
      forall src | IsService(src) ensures OneRefusal(cfg, p.s, Drive(cfg, p, ready), ready, src) {
        assert OneRefusal(cfg, p.s, p1, init, src);
        OneRefusalStep(cfg, p.s, p1, init, r, src);
      }
    }
  }

  // ----- A pass with room for everything --------------------------------------------------

  ghost predicate Roomy(cfg: Config, s: State, work: seq<Entry>) {
    forall src :: IsService(src) ==> Load(s, src) + CountFor(work, src) <= Depth(cfg, src)
  }

  /** Bookkeeping of a pass without refusals. */
  ghost predicate NoRefusal(s0: State, p: Pass, done: seq<Entry>) {
    && p.kept == [] && NoQueueFull(p.failures)
    && forall src :: IsService(src) ==>
         && Load(p.s, src) == Load(s0, src) + CountFor(done, src)
         && Handed(p.s, src) == Handed(s0, src) + CountFor(done, src)
  }

  lemma NoRefusalStep(cfg: Config, s0: State, p: Pass, done: seq<Entry>, r: Entry)
    requires PassOk(cfg, p) && NoRefusal(s0, p, done) && Roomy(cfg, s0, done + [r])
    ensures NoRefusal(s0, DriveOne(cfg, p, r), done + [r])
  {
    var target := ServiceOf(r.payload.desc);
    forall src | IsService(src)
      ensures CountFor(done + [r], src) == CountFor(done, src) + if Targets(r, src) then 1 else 0
    {
      CountAppend(done, r, src);
    }
    if target == None {
      OtherEffect(cfg, p, r);
    } else {
      forall src | IsService(src)
        ensures Load(DriveOne(cfg, p, r).s, src) == Load(p.s, src) + if target.value == src then 1 else 0
        ensures Handed(DriveOne(cfg, p, r).s, src) == Handed(p.s, src) + if target.value == src then 1 else 0
      {
        AcceptEffect(cfg, p, r, target.value, src);
      }
      AcceptEffect(cfg, p, r, target.value, target.value);
    }
  }

  lemma RoomyPrefix(cfg: Config, s: State, work: seq<Entry>)
    requires work != [] && Roomy(cfg, s, work)
    ensures Roomy(cfg, s, work[..|work| - 1])
  {
  }

  lemma {:induction false} PassRoomy(cfg: Config, p: Pass, ready: seq<Entry>)
    requires PassOk(cfg, p) && WorkLive(ready, p.s.cqs.Keys) && p.kept == [] && p.failures == []
    requires Roomy(cfg, p.s, ready)
    ensures NoRefusal(p.s, Drive(cfg, p, ready), ready)
  {
    if ready != [] {
      var init, r := ready[..|ready| - 1], ready[|ready| - 1];
      RoomyPrefix(cfg, p.s, ready);
      PassRoomy(cfg, p, init);
      DriveInv(cfg, p, init);
      assert init + [r] == ready;
      NoRefusalStep(cfg, p.s, Drive(cfg, p, init), init, r);
    }
  }

  /** A flush whose first pass meets no refusal is over after it. */
  lemma RoomyFlush(cfg: Config, s: State)
    requires Inv(cfg, s) && Roomy(cfg, s, s.runtime)
    ensures NoQueueFull(FlushFailures(cfg, s))
    ensures forall src :: IsService(src) ==> Handed(Flush(cfg, s), src) == Handed(s, src) + CountFor(s.runtime, src)
  {
    if s.runtime != [] {
      var s0, p := s.(runtime := []), FirstPass(cfg, s);
      PassInv(cfg, s);
      WithoutRuntime(cfg, s);
      PassRoomy(cfg, Pass(s0, [], []), s.runtime);
      ReportKeeps(p.s.(runtime := p.kept), p.failures);
      assert FlushFailures(cfg, AfterPass(p)) == [];
    }
  }

  // ----- The bound -------------------------------------------------------------------------

  /** After a steady first pass the retried entries all fit. */
  lemma SecondPassRoomy(cfg: Config, s: State, p: Pass)
    requires Steady(cfg, s, p, s.runtime) && WithinTwice(cfg, s, s.runtime) && PassOk(cfg, p)
    ensures Roomy(cfg, AfterPass(p), AfterPass(p).runtime)
    ensures forall src :: IsService(src) ==>
      Handed(AfterPass(p), src) + CountFor(AfterPass(p).runtime, src) == Handed(s, src) + CountFor(s.runtime, src)
  {
    ReportKeeps(p.s.(runtime := p.kept), p.failures);
    forall src | IsService(src)
      ensures Load(AfterPass(p), src) + CountFor(p.kept, src) <= Depth(cfg, src)
      ensures Handed(AfterPass(p), src) + CountFor(p.kept, src) == Handed(s, src) + CountFor(s.runtime, src)
    {
      assert OneRefusal(cfg, s, p, s.runtime, src);
      QueuedAt(cfg, p.s.services, p.s.log, src);
    }
  }

  /**
   Back-pressure bound: if for every service the completions already queued plus the
   entries staged for it number at most twice its depth, a flush submits every staged
   entry and reports no queue-full failure.
   */
  lemma Bound(cfg: Config, s: State)
    requires Idle(cfg, s) && cfg.maxRetries >= 1 && WithinTwice(cfg, s, s.runtime)
    ensures NoQueueFull(FlushFailures(cfg, s))
    ensures forall src :: IsService(src) ==> Handed(Flush(cfg, s), src) == Handed(s, src) + CountFor(s.runtime, src)
  {
    if s.runtime != [] {
      var s0, p := s.(runtime := []), FirstPass(cfg, s);
      PassInv(cfg, s);
      WithoutRuntime(cfg, s);
      PassSteady(cfg, Pass(s0, [], []), s.runtime);
      assert Steady(cfg, s, p, s.runtime) by { SteadyFrom(cfg, s0, s, p, s.runtime); }
      SecondPassRoomy(cfg, s, p);
      RoomyFlush(cfg, AfterPass(p));
      PassShrinks(cfg, s);
    }
  }

  lemma SteadyFrom(cfg: Config, s0: State, s: State, p: Pass, done: seq<Entry>)
    requires s0.services == s.services && Steady(cfg, s0, p, done)
    ensures Steady(cfg, s, p, done)
  {
    forall src | IsService(src) ensures OneRefusal(cfg, s, p, done, src) {
      assert OneRefusal(cfg, s0, p, done, src);
    }
  }

  // ----- The exact condition for work of one service ---------------------------------------

  ghost predicate OnlyFor(work: seq<Entry>, src: CompletionSource, attempts: nat) {
    forall r :: r in work ==> Targets(r, src) && r.attempts == attempts
  }

  /** How many completions are queued after `total` entries for a service that is drained whenever it is full. */
  function Leftover(total: nat, depth: nat): (r: nat)
    ensures r <= depth
  {
    if total == 0 || Leftover(total - 1, depth) >= depth then 0 else Leftover(total - 1, depth) + 1
  }

  /** How many of them were refused. */
  function Refusals(total: nat, depth: nat): nat {
    if total == 0 then 0 else Refusals(total - 1, depth) + if Leftover(total - 1, depth) >= depth then 1 else 0
  }

  /** They are remainder and quotient by depth + 1. */
  lemma {:induction false} QuotientAndRemainder(total: nat, depth: nat)
    ensures total == Refusals(total, depth) * (depth + 1) + Leftover(total, depth)
  {
    if total > 0 {
      QuotientAndRemainder(total - 1, depth);
      var q := Refusals(total - 1, depth);
      assert (q + 1) * (depth + 1) == q * (depth + 1) + (depth + 1);
    }
  }

  lemma {:induction false} NoRefusalYet(total: nat, depth: nat)
    requires total <= depth
    ensures Leftover(total, depth) == total && Refusals(total, depth) == 0
  {
    if total > 0 { NoRefusalYet(total - 1, depth); }
  }

  /** What is left to place after so many passes: each pass folds the total into quotient plus remainder. */
  function Folded(total: nat, depth: nat, passes: nat): nat
    decreases passes
  {
    if passes == 0 then total else Folded(Refusals(total, depth) + Leftover(total, depth), depth, passes - 1)
  }

  lemma {:induction false} FoldedSmall(total: nat, depth: nat, passes: nat)
    requires total <= depth
    ensures Folded(total, depth, passes) == total
    decreases passes
  {
    if passes > 0 {
      NoRefusalYet(total, depth);
      FoldedSmall(total, depth, passes - 1);
    }
  }

  /** The state of a pass over entries with retries left, all for one service, after `total` of them. */
  ghost predicate Cycled(cfg: Config, p: Pass, src: CompletionSource, attempts: nat, total: nat) {
    && p.failures == [] && OnlyFor(p.kept, src, attempts + 1)
    && Load(p.s, src) == Leftover(total, Depth(cfg, src)) && |p.kept| == Refusals(total, Depth(cfg, src))
  }

  /** Every depth + 1 entries cost one refusal; the rest stays queued. */
  lemma {:induction false} Cycle(cfg: Config, p: Pass, ready: seq<Entry>, src: CompletionSource, attempts: nat,
                                 total: nat)
    requires PassOk(cfg, p) && WorkLive(ready, p.s.cqs.Keys) && p.kept == [] && p.failures == []
    requires IsService(src) && OnlyFor(ready, src, attempts) && attempts < cfg.maxRetries
    requires total == Load(p.s, src) + |ready|
    ensures Cycled(cfg, Drive(cfg, p, ready), src, attempts, total)
  {
    if ready == [] {
      QueuedAt(cfg, p.s.services, p.s.log, src);
      NoRefusalYet(total, Depth(cfg, src));
    } else {
      var init, r := ready[..|ready| - 1], ready[|ready| - 1];
      Cycle(cfg, p, init, src, attempts, total - 1);
      DriveInv(cfg, p, init);
      CycleOn(cfg, Drive(cfg, p, init), r, src, attempts, total);
      DriveLast(cfg, p, ready);
    }
  }

  lemma DriveLast(cfg: Config, p: Pass, ready: seq<Entry>)
    requires ready != []
    ensures Drive(cfg, p, ready) == DriveOne(cfg, Drive(cfg, p, ready[..|ready| - 1]), ready[|ready| - 1])
    ensures |ready| == |ready[..|ready| - 1]| + 1
  {
  }

  lemma CycleOn(cfg: Config, p: Pass, r: Entry, src: CompletionSource, attempts: nat, total: nat)
    requires PassOk(cfg, p) && IsService(src) && Targets(r, src) && r.attempts == attempts < cfg.maxRetries
    requires total > 0 && Cycled(cfg, p, src, attempts, total - 1)
    ensures Cycled(cfg, DriveOne(cfg, p, r), src, attempts, total)
  {
    if Load(p.s, src) < Depth(cfg, src) {
      AcceptEffect(cfg, p, r, src, src);
      CycledMore(cfg, p, DriveOne(cfg, p, r), src, attempts, total);
    } else {
      RefuseEffect(cfg, p, r, src, src);
      CycledFull(cfg, p, DriveOne(cfg, p, r), src, attempts, total, Retried(r, U64_MAX, cfg.retryDelay));
    }
  }

  lemma CycledMore(cfg: Config, p: Pass, p': Pass, src: CompletionSource, attempts: nat, total: nat)
    requires total > 0 && Cycled(cfg, p, src, attempts, total - 1) && Load(p.s, src) < Depth(cfg, src)
    requires p'.kept == p.kept && p'.failures == p.failures && Load(p'.s, src) == Load(p.s, src) + 1
    ensures Cycled(cfg, p', src, attempts, total)
  {
  }

  lemma CycledFull(cfg: Config, p: Pass, p': Pass, src: CompletionSource, attempts: nat, total: nat, r: Entry)
    requires total > 0 && Cycled(cfg, p, src, attempts, total - 1) && Load(p.s, src) >= Depth(cfg, src)
    requires p'.kept == p.kept + [r] && p'.failures == p.failures && Load(p'.s, src) == 0
    requires Targets(r, src) && r.attempts == attempts + 1
    ensures Cycled(cfg, p', src, attempts, total)
  {
  }

  /** Without retries left, all entries fit or some fails. */
  ghost predicate Last(cfg: Config, p: Pass, src: CompletionSource, total: nat) {
    && p.kept == [] && (p.failures == [] <==> total <= Depth(cfg, src))
    && (p.failures == [] ==> Load(p.s, src) == total)
  }

  lemma {:induction false} LastChance(cfg: Config, p: Pass, ready: seq<Entry>, src: CompletionSource)
    requires PassOk(cfg, p) && WorkLive(ready, p.s.cqs.Keys) && p.kept == [] && p.failures == []
    requires IsService(src) && OnlyFor(ready, src, cfg.maxRetries)
    ensures Last(cfg, Drive(cfg, p, ready), src, Load(p.s, src) + |ready|)
  {
    if ready == [] {
      QueuedAt(cfg, p.s.services, p.s.log, src);
    } else {
      var init, r := ready[..|ready| - 1], ready[|ready| - 1];
      LastChance(cfg, p, init, src);
      DriveInv(cfg, p, init);
      LastOn(cfg, Drive(cfg, p, init), r, src, Load(p.s, src) + |init|);
      DriveLast(cfg, p, ready);
    }
  }

  lemma LastOn(cfg: Config, p: Pass, r: Entry, src: CompletionSource, total: nat)
    requires PassOk(cfg, p) && IsService(src) && Targets(r, src) && r.attempts == cfg.maxRetries
    requires Last(cfg, p, src, total)
    ensures Last(cfg, DriveOne(cfg, p, r), src, total + 1)
  {
    if Load(p.s, src) < Depth(cfg, src) {
      AcceptEffect(cfg, p, r, src, src);
    } else {
      RefuseEffect(cfg, p, r, src, src);
    }
  }

  lemma WithoutRuntime(cfg: Config, s: State)
    requires Inv(cfg, s)
    ensures PassOk(cfg, Pass(s.(runtime := []), [], []))
  {
  }

  /** One pass with retries left: no failure, and quotient plus remainder go into the next. */
  lemma RetryPass(cfg: Config, s: State, src: CompletionSource, attempts: nat, total: nat, next: nat)
    requires Inv(cfg, s) && IsService(src) && OnlyFor(s.runtime, src, attempts) && attempts < cfg.maxRetries
    requires total == Load(s, src) + |s.runtime|
    requires next == Refusals(total, Depth(cfg, src)) + Leftover(total, Depth(cfg, src))
    ensures var p, s' := FirstPass(cfg, s), AfterPass(FirstPass(cfg, s));
      && p.failures == [] && Inv(cfg, s') && OnlyFor(s'.runtime, src, attempts + 1)
      && Load(s', src) + |s'.runtime| == next
  {
    PassInv(cfg, s);
    WithoutRuntime(cfg, s);
    var p0, p := Pass(s.(runtime := []), [], []), FirstPass(cfg, s);
    Cycle(cfg, p0, s.runtime, src, attempts, total);
    CycledNext(cfg, p, src, attempts, total, next);
    assert AfterPass(p) == p.s.(runtime := p.kept);
  }

  lemma CycledNext(cfg: Config, p: Pass, src: CompletionSource, attempts: nat, total: nat, next: nat)
    requires Cycled(cfg, p, src, attempts, total)
    requires next == Refusals(total, Depth(cfg, src)) + Leftover(total, Depth(cfg, src))
    ensures Load(p.s, src) + |p.kept| == next && p.failures == [] && OnlyFor(p.kept, src, attempts + 1)
  {
  }

  /** The last pass fails an entry unless all fit; nothing follows it. */
  lemma FinalPass(cfg: Config, s: State, src: CompletionSource)
    requires Inv(cfg, s) && IsService(src) && OnlyFor(s.runtime, src, cfg.maxRetries)
    ensures var p, s' := FirstPass(cfg, s), AfterPass(FirstPass(cfg, s));
      s'.runtime == [] && (p.failures == [] <==> Load(s, src) + |s.runtime| <= Depth(cfg, src))
  {
    var p := FirstPass(cfg, s);
    PassInv(cfg, s);
    WithoutRuntime(cfg, s);
    LastChance(cfg, Pass(s.(runtime := []), [], []), s.runtime, src);
    ReportKeeps(p.s.(runtime := p.kept), p.failures);
  }

  lemma FailuresByPass(cfg: Config, s: State)
    ensures s.runtime == [] ==> FlushFailures(cfg, s) == []
    ensures s.runtime != [] ==>
      FlushFailures(cfg, s) == FirstPass(cfg, s).failures + FlushFailures(cfg, AfterPass(FirstPass(cfg, s)))
  {
  }

  lemma FoldedStep(total: nat, depth: nat, passes: nat, next: nat, result: nat)
    requires passes > 0 && next == Refusals(total, depth) + Leftover(total, depth)
    requires result == Folded(total, depth, passes)
    ensures result == Folded(next, depth, passes - 1)
  {
  }

  lemma {:induction false} ExactPasses(cfg: Config, s: State, src: CompletionSource, attempts: nat,
                                       total: nat, depth: nat, passes: nat, result: nat)
    requires Inv(cfg, s) && IsService(src) && OnlyFor(s.runtime, src, attempts) && attempts + passes == cfg.maxRetries
    requires total == Load(s, src) + |s.runtime| && depth == Depth(cfg, src) && result == Folded(total, depth, passes)
    ensures FlushFailures(cfg, s) == [] <==> result <= depth
    decreases passes
  {
    if s.runtime == [] {
      QueuedAt(cfg, s.services, s.log, src);
      FoldedSmall(total, depth, passes);
      FailuresByPass(cfg, s);
    } else if passes > 0 {
      var next := Refusals(total, depth) + Leftover(total, depth);
      FoldedStep(total, depth, passes, next, result);
      RetryPass(cfg, s, src, attempts, total, next);
      ExactPasses(cfg, AfterPass(FirstPass(cfg, s)), src, attempts + 1, next, depth, passes - 1, result);
      FailuresByPass(cfg, s);
    } else {
      FinalFailures(cfg, s, src);
    }
  }

  lemma FinalFailures(cfg: Config, s: State, src: CompletionSource)
    requires Inv(cfg, s) && IsService(src) && OnlyFor(s.runtime, src, cfg.maxRetries) && s.runtime != []
    ensures FlushFailures(cfg, s) == [] <==> Load(s, src) + |s.runtime| <= Depth(cfg, src)
  {
    FinalPass(cfg, s, src);
    FailuresByPass(cfg, s);
    FailuresByPass(cfg, AfterPass(FirstPass(cfg, s)));
  }

  /**
   The exact bound for work of one service, whatever the retry budget: fold the total into quotient
   plus remainder by depth + 1 once per retry; a flush fails nothing if and only if the result fits the depth.
   */
  lemma ExactBound(cfg: Config, s: State, src: CompletionSource, result: nat)
    requires Idle(cfg, s) && IsService(src) && OnlyFor(s.runtime, src, 0)
    requires result == Folded(Load(s, src) + |s.runtime|, Depth(cfg, src), cfg.maxRetries)
    ensures FlushFailures(cfg, s) == [] <==> result <= Depth(cfg, src)
  {
    ExactPasses(cfg, s, src, 0, Load(s, src) + |s.runtime|, Depth(cfg, src), cfg.maxRetries, result);
  }

  /** The same, read off what is delivered. */
  lemma ExactlyQuiet(cfg: Config, s: State, src: CompletionSource, result: nat)
    requires Idle(cfg, s) && IsService(src) && OnlyFor(s.runtime, src, 0)
    requires result == Folded(Load(s, src) + |s.runtime|, Depth(cfg, src), cfg.maxRetries)
    ensures FlushReports.ReportsIn(Flush(cfg, s).log) == FlushReports.ReportsIn(s.log) <==> result <= Depth(cfg, src)
  {
    ExactBound(cfg, s, src, result);
    FlushReports.NothingFailed(cfg, s);
  }

  /** With one retry, twice the depth is safe and one more is not: the smallest overload that fails. */
  lemma TwiceDepthIsTight(cfg: Config, s: State, src: CompletionSource)
    requires Idle(cfg, s) && IsService(src) && OnlyFor(s.runtime, src, 0) && cfg.maxRetries == 1
    ensures Load(s, src) + |s.runtime| <= 2 * Depth(cfg, src) ==>
      FlushReports.ReportsIn(Flush(cfg, s).log) == FlushReports.ReportsIn(s.log)
    ensures Load(s, src) + |s.runtime| == 2 * Depth(cfg, src) + 1 ==>
      FlushReports.ReportsIn(Flush(cfg, s).log) != FlushReports.ReportsIn(s.log)
  {
    var total, depth := Load(s, src) + |s.runtime|, Depth(cfg, src);
    ExactlyQuiet(cfg, s, src, Folded(total, depth, 1));
    if total <= 2 * depth + 1 { OneFold(total, depth); }
  }

  lemma OneFold(total: nat, depth: nat)
    requires total <= 2 * depth + 1
    ensures Folded(total, depth, 1) <= depth <==> total <= 2 * depth
  {
    AroundTwice(total, depth);
    assert Folded(total, depth, 1) == Folded(Refusals(total, depth) + Leftover(total, depth), depth, 0);
  }

  lemma AroundTwice(total: nat, depth: nat)
    requires total <= 2 * depth + 1
    ensures Refusals(total, depth) + Leftover(total, depth) <= depth <==> total <= 2 * depth
  {
    QuotientAndRemainder(total, depth);
    AtMostOne(total, depth, Refusals(total, depth), Leftover(total, depth));
  }

  lemma AtMostOne(total: nat, depth: nat, q: nat, r: nat)
    requires total == q * (depth + 1) + r && r <= depth && total <= 2 * depth + 1
    ensures q + r <= depth <==> total <= 2 * depth
  {
    if q >= 2 { Twice(q, depth); }
  }

  lemma Twice(q: nat, depth: nat)
    requires q >= 2
    ensures q * (depth + 1) >= 2 * depth + 2
  {
    assert q * (depth + 1) == 2 * (depth + 1) + (q - 2) * (depth + 1);
  }
}
