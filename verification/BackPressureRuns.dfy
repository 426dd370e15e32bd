/** The back-pressure bound over whole runs: which configurations never exhaust an entry on a full service. */
module BackPressureRuns {
  import opened SimCore
  import opened Services
  import opened RuntimeQueue
  import opened SurfaceSpec
  import opened SurfaceInvariant
  import opened FlushReports
  import opened BackPressure

  /** The runtime queue holds at most twice the depth of each service, and a refused entry is retried. */
  ghost predicate Balanced(cfg: Config) {
    cfg.maxRetries >= 1 && forall src :: IsService(src) ==> cfg.runtimeDepth <= 2 * Depth(cfg, src)
  }

  /** A report that an entry was exhausted on a full service. */
  ghost predicate QueueFullReport(e: CompletionEvent) {
    e.source == GuestUapi && exists src: CompletionSource :: e.status == FullStatus(src)
  }

  function FullStatus(src: CompletionSource): CompletionStatus { FailureEvent(Failure(0, QueueFull(src)), 0).status }

  /** The codes tell full services from other refusals. */
  lemma CodesDiffer(f: Failure, opId: nat, src: CompletionSource)
    requires !f.why.QueueFull?
    ensures FailureEvent(f, opId).status != FullStatus(src)
  {
    var a, b := Code(f.why), Code(QueueFull(src));
    assert |a| != |b|;
    var pre := "runtime_exhausted_";
    assert |pre + a| != |pre + b|;
  }

  lemma NotFull(d: Delivery, f: Failure)
    requires Matches(d, f) && !f.why.QueueFull?
    ensures !QueueFullReport(d.event)
  {
    forall src: CompletionSource ensures d.event.status != FullStatus(src) { CodesDiffer(f, d.event.opId, src); }
  }

  ghost predicate NoneFull(ds: seq<Delivery>) { forall d :: d in ds ==> !QueueFullReport(d.event) }

  lemma {:induction false} ExtendsNoneFull(base: seq<Delivery>, all: seq<Delivery>, fs: seq<Failure>)
    requires Extends(base, all, fs) && NoQueueFull(fs) && NoneFull(base)
    ensures NoneFull(all)
  {
    if fs != [] {
      var d, f := all[|all| - 1], fs[|fs| - 1];
      ExtendsNoneFull(base, all[..|all| - 1], fs[..|fs| - 1]);
      NotFull(d, f);
      assert all == all[..|all| - 1] + [d];
    }
  }

  lemma {:induction false} InReports(log: seq<Delivery>, d: Delivery)
    requires d in log && IsReport(d)
    ensures d in ReportsIn(log)
  {
    if d != log[|log| - 1] {
      assert log == log[..|log| - 1] + [log[|log| - 1]];
      InReports(log[..|log| - 1], d);
    }
  }

  lemma {:induction false} CountAtMost(work: seq<Entry>, src: CompletionSource)
    ensures CountFor(work, src) <= |work|
  {
    if work != [] { CountAtMost(work[..|work| - 1], src); }
  }

  /** Between commands of a run without direct submissions nothing waits in a service. */
  ghost predicate Calm(cfg: Config, s: State) {
    Idle(cfg, s) && AllDrained(s.services) && NoneFull(ReportsIn(s.log))
  }

  lemma CalmWithin(cfg: Config, s: State)
    requires Balanced(cfg) && Calm(cfg, s)
    ensures WithinTwice(cfg, s, s.runtime)
  {
    forall src | IsService(src) ensures Load(s, src) + CountFor(s.runtime, src) <= 2 * Depth(cfg, src) {
      CountAtMost(s.runtime, src);
    }
  }

  lemma SettledCalm(cfg: Config, s: State)
    requires Balanced(cfg) && Calm(cfg, s)
    ensures Calm(cfg, Settled(cfg, s))
  {
    CalmWithin(cfg, s);
    Bound(cfg, s);
    SettledIdle(cfg, s);
    SettledReports(cfg, s);
    ExtendsNoneFull(ReportsIn(s.log), ReportsIn(Settled(cfg, s).log), FlushFailures(cfg, s));
  }

  lemma PollCalm(cfg: Config, s: State, cq: nat, owner: nat, max: Option<nat>)
    requires Balanced(cfg) && Calm(cfg, s)
    ensures Calm(cfg, Poll(cfg, s, cq, owner, max).0)
  {
    SettledCalm(cfg, s);
    PollIdle(cfg, s, cq, owner, max);
  }

  /** The other commands deliver nothing and hand nothing to a service. */
  lemma OtherCalm(cfg: Config, s: State, cmd: Command)
    requires !cmd.PollCq? && !cmd.SubmitDirect?
    ensures var s' := Execute(cfg, s, cmd).0; s'.log == s.log && (AllDrained(s.services) ==> AllDrained(s'.services))
  {
  }

  lemma StepCalm(cfg: Config, s: State, cmd: Command)
    requires Balanced(cfg) && Calm(cfg, s) && !cmd.SubmitDirect?
    ensures Calm(cfg, Execute(cfg, s, cmd).0)
  {
    if cmd.PollCq? {
      PollCalm(cfg, s, cmd.cq, cmd.owner, cmd.maxEntries);
    } else {
      OtherCalm(cfg, s, cmd);
      StepIdle(cfg, s, cmd);
    }
  }

  lemma {:induction false} RunCalm(cfg: Config, cmds: seq<Command>)
    requires Balanced(cfg) && forall c :: c in cmds ==> !c.SubmitDirect?
    ensures Calm(cfg, Exec(cfg, cmds))
  {
    if cmds == [] {
      AlwaysIdle(cfg, []);
    } else {
      RunCalm(cfg, cmds[..|cmds| - 1]);
      StepCalm(cfg, Exec(cfg, cmds[..|cmds| - 1]), cmds[|cmds| - 1]);
    }
  }

  /**
   In a balanced configuration (the defaults, runtime depth 32, service depth 16 and one retry, are one), a run
   that submits through command queues only never delivers a queue-full failure.
   */
  lemma NeverQueueFull(cfg: Config, cmds: seq<Command>, d: Delivery)
    requires Balanced(cfg) && forall c :: c in cmds ==> !c.SubmitDirect?
    requires d in Exec(cfg, cmds).log
    ensures !QueueFullReport(d.event)
  {
    RunCalm(cfg, cmds);
    if QueueFullReport(d.event) { InReports(Exec(cfg, cmds).log, d); }
  }
}
