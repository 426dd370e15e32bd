/** What a flush reports: the "runtime_exhausted" completions it delivers are exactly its failures. */
module FlushReports {
  import opened SimCore
  import opened Services
  import opened RuntimeQueue
  import opened SurfaceSpec
  import opened SurfaceInvariant

  /** Only failure reports are retryable failures of the surface itself. */
  predicate IsReport(d: Delivery) { d.event.source == GuestUapi && d.event.status.RetryableFailure? }

  /** The failure reports ever delivered, in order. */
  function ReportsIn(log: seq<Delivery>): seq<Delivery> {
    if log == [] then []
    else
      var init, d := ReportsIn(log[..|log| - 1]), log[|log| - 1];
      if IsReport(d) then init + [d] else init
  }

  lemma ReportsAppend(log: seq<Delivery>, d: Delivery)
    ensures ReportsIn(log + [d]) == if IsReport(d) then ReportsIn(log) + [d] else ReportsIn(log)
  {
    assert (log + [d])[..|log|] == log;
  }

  /** The delivery reports the failure to the failure's queue. */
  predicate Matches(d: Delivery, f: Failure) { d == Delivery(f.cq, FailureEvent(f, d.event.opId)) }

  /** `all` is `base` followed by one report for each failure, in order. */
  predicate Extends(base: seq<Delivery>, all: seq<Delivery>, fs: seq<Failure>) {
    if fs == [] then all == base
    else
      all != [] && Matches(all[|all| - 1], fs[|fs| - 1]) && Extends(base, all[..|all| - 1], fs[..|fs| - 1])
  }

  lemma {:induction false} ExtendsSize(base: seq<Delivery>, all: seq<Delivery>, fs: seq<Failure>)
    requires Extends(base, all, fs)
    ensures |all| == |base| + |fs| && base <= all
  {
    if fs != [] { ExtendsSize(base, all[..|all| - 1], fs[..|fs| - 1]); }
  }

  lemma {:induction false} ExtendsAt(base: seq<Delivery>, all: seq<Delivery>, fs: seq<Failure>, i: nat)
    requires Extends(base, all, fs) && i < |fs|
    ensures |all| == |base| + |fs| && Matches(all[|base| + i], fs[i])
  {
    ExtendsSize(base, all, fs);
    if i < |fs| - 1 { ExtendsAt(base, all[..|all| - 1], fs[..|fs| - 1], i); }
  }

  lemma {:induction false} ExtendsConcat(a: seq<Delivery>, b: seq<Delivery>, c: seq<Delivery>,
                                         fs: seq<Failure>, gs: seq<Failure>)
    requires Extends(a, b, fs) && Extends(b, c, gs)
    ensures Extends(a, c, fs + gs)
  {
    if gs == [] {
      assert fs + gs == fs;
    } else {
      ExtendsConcat(a, b, c[..|c| - 1], fs, gs[..|gs| - 1]);
      assert (fs + gs)[..|fs + gs| - 1] == fs + gs[..|gs| - 1];
    }
  }

  // ----- Everything else is quiet --------------------------------------------------------------

  lemma DeliverQuiet(s: State, cq: nat, e: CompletionEvent)
    requires !IsReport(Delivery(cq, e))
    ensures ReportsIn(Deliver(s, cq, e).log) == ReportsIn(s.log)
  {
    ReportsAppend(s.log, Delivery(cq, e));
  }

  lemma {:induction false} RouteAllQuiet(s: State, events: seq<CompletionEvent>)
    requires forall e :: e in events ==> IsService(e.source)
    ensures ReportsIn(RouteAll(s, events).log) == ReportsIn(s.log)
  {
    if events != [] {
      var s1, e := RouteAll(s, events[..|events| - 1]), events[|events| - 1];
      RouteAllQuiet(s, events[..|events| - 1]);
      if KeyOf(e) in s1.routes {
        DeliverQuiet(s1.(routes := s1.routes - {KeyOf(e)}), s1.routes[KeyOf(e)], e);
      }
    }
  }

  lemma DrainQuiet(cfg: Config, s: State, src: CompletionSource)
    requires Inv(cfg, s) && IsService(src)
    ensures ReportsIn(DrainService(s, src).log) == ReportsIn(s.log)
  {
    QueuedAt(cfg, s.services, s.log, src);
    RouteAllQuiet(Emptied(s, src), Events(s.services.Get(src).completions));
  }

  lemma FlushServicesQuiet(cfg: Config, s: State)
    requires Inv(cfg, s)
    ensures ReportsIn(FlushServices(s).log) == ReportsIn(s.log)
  {
    var s1 := DrainService(s, BlockService);
    var s2 := DrainService(s1, ShmemService);
    var s3 := DrainService(s2, DfsService);
    DrainServiceInv(cfg, s, BlockService);
    DrainServiceInv(cfg, s1, ShmemService);
    DrainServiceInv(cfg, s2, DfsService);
    DrainQuiet(cfg, s, BlockService);
    DrainQuiet(cfg, s1, ShmemService);
    DrainQuiet(cfg, s2, DfsService);
    DrainQuiet(cfg, s3, DbService);
  }

  lemma AtOnceQuiet(s: State, d: Descriptor, cq: nat)
    requires d.Io?
    ensures ReportsIn(SubmitAtOnce(s, d, cq).0.log) == ReportsIn(s.log)
  {
    DeliverQuiet(s, cq, ImmediateEvent(d, s.clock));
  }

  lemma SubmitQuiet(cfg: Config, s: State, d: Descriptor, cq: nat)
    ensures ReportsIn(Submit(cfg, s, d, cq).0.log) == ReportsIn(s.log)
  {
    if ServiceOf(d).Some? {
      BoundQuiet(cfg, Ticked(s), d, ServiceOf(d).value, cq);
    } else {
      AtOnceQuiet(s, d, cq);
      AtOnceQuiet(Ticked(s), d, cq);
    }
  }

  lemma BoundQuiet(cfg: Config, s: State, d: Descriptor, src: CompletionSource, cq: nat)
    requires ServiceOf(d) == Some(src)
    ensures SubmitToService(cfg, s, d, src, cq).0.log == s.log
  {
  }

  lemma DriveOneQuiet(cfg: Config, p: Pass, r: Entry)
    requires PassOk(cfg, p) && r.payload.cq in p.s.cqs
    ensures ReportsIn(DriveOne(cfg, p, r).s.log) == ReportsIn(p.s.log)
  {
    var (s', result) := Submit(cfg, p.s, r.payload.desc, r.payload.cq);
    SubmitQuiet(cfg, p.s, r.payload.desc, r.payload.cq);
    SubmitInv(cfg, p.s, r.payload.desc, r.payload.cq);
    FlushServicesQuiet(cfg, s');
    DriveOneState(cfg, p, r);
  }

  lemma DriveOneState(cfg: Config, p: Pass, r: Entry)
    ensures var s' := Submit(cfg, p.s, r.payload.desc, r.payload.cq).0;
      DriveOne(cfg, p, r).s == s' || DriveOne(cfg, p, r).s == FlushServices(s')
  {
  }

  lemma {:induction false} DriveQuiet(cfg: Config, p: Pass, ready: seq<Entry>)
    requires PassOk(cfg, p) && WorkLive(ready, p.s.cqs.Keys)
    ensures ReportsIn(Drive(cfg, p, ready).s.log) == ReportsIn(p.s.log)
  {
    if ready != [] {
      var init, r := ready[..|ready| - 1], ready[|ready| - 1];
      DriveQuiet(cfg, p, init);
      DriveInv(cfg, p, init);
      DriveOneQuiet(cfg, Drive(cfg, p, init), r);
    }
  }

  // ----- Failures are reported -------------------------------------------------------------------

  /** The later log reports exactly these failures after what the earlier one reported. */
  predicate Reported(log: seq<Delivery>, log': seq<Delivery>, fs: seq<Failure>) {
    Extends(ReportsIn(log), ReportsIn(log'), fs)
  }

  lemma ReportOneReports(s: State, log: seq<Delivery>, fs: seq<Failure>)
    requires fs != [] && fs[|fs| - 1].cq in s.cqs && Reported(log, s.log, fs[..|fs| - 1])
    ensures var s' := ReportOne(s, fs[|fs| - 1]); s'.cqs.Keys == s.cqs.Keys && Reported(log, s'.log, fs)
  {
    var f := fs[|fs| - 1];
    var d, all := Delivery(f.cq, FailureEvent(f, s.clock + 1)), ReportsIn(s.log);
    ReportsAppend(s.log, d);
    assert (all + [d])[..|all|] == all;
  }

  lemma {:induction false} ReportReports(s: State, failures: seq<Failure>)
    requires Reportable(failures, s.cqs.Keys)
    ensures Reported(s.log, Report(s, failures).log, failures) && Report(s, failures).cqs.Keys == s.cqs.Keys
  {
    if failures != [] {
      ReportReports(s, failures[..|failures| - 1]);
      ReportOneReports(Report(s, failures[..|failures| - 1]), s.log, failures);
    }
  }

  lemma PassReports(cfg: Config, s: State)
    requires Inv(cfg, s)
    ensures Reported(s.log, AfterPass(FirstPass(cfg, s)).log, FirstPass(cfg, s).failures)
  {
    var s0, p := s.(runtime := []), FirstPass(cfg, s);
    PassInv(cfg, s);
    WithoutRuntimeInv(cfg, s);
    DriveQuiet(cfg, Pass(s0, [], []), s.runtime);
    ReportReports(p.s.(runtime := p.kept), p.failures);
  }

  /** The failure reports a flush delivers are exactly its failures, in order, each to its own queue. */
  lemma {:induction false} FlushReportsFailures(cfg: Config, s: State)
    requires Inv(cfg, s)
    ensures Reported(s.log, Flush(cfg, s).log, FlushFailures(cfg, s))
    decreases Budget(cfg, s.runtime)
  {
    if s.runtime != [] {
      var s', p := AfterPass(FirstPass(cfg, s)), FirstPass(cfg, s);
      PassShrinks(cfg, s);
      PassInv(cfg, s);
      PassReports(cfg, s);
      FlushReportsFailures(cfg, s');
      ExtendsConcat(ReportsIn(s.log), ReportsIn(s'.log), ReportsIn(Flush(cfg, s).log), p.failures,
          FlushFailures(cfg, s'));
    }
  }

  lemma SettledReports(cfg: Config, s: State)
    requires Inv(cfg, s)
    ensures Reported(s.log, Settled(cfg, s).log, FlushFailures(cfg, s))
  {
    FlushReportsFailures(cfg, s);
    FlushInv(cfg, s);
    FlushServicesQuiet(cfg, Flush(cfg, s));
  }

  /** Every failure of a flush names an existing queue, so no report is refused and the flush ends without an error. */
  lemma {:induction false} FlushNeverErrors(cfg: Config, s: State)
    requires Inv(cfg, s)
    ensures FailuresLive(FlushFailures(cfg, s), s.cqs.Keys)
    decreases Budget(cfg, s.runtime)
  {
    if s.runtime != [] {
      PassShrinks(cfg, s);
      PassInv(cfg, s);
      FlushNeverErrors(cfg, AfterPass(FirstPass(cfg, s)));
    }
  }

  /** A flush reports nothing if and only if nothing failed. */
  lemma NothingFailed(cfg: Config, s: State)
    requires Inv(cfg, s)
    ensures FlushFailures(cfg, s) == [] <==> ReportsIn(Flush(cfg, s).log) == ReportsIn(s.log)
  {
    FlushReportsFailures(cfg, s);
    ExtendsSize(ReportsIn(s.log), ReportsIn(Flush(cfg, s).log), FlushFailures(cfg, s));
  }

  // ----- What a report says ------------------------------------------------------------------

  lemma FullTexts()
    ensures "runtime_exhausted_" + "block queue full" == "runtime_exhausted_block queue full"
    ensures "runtime_exhausted_" + "shmem queue full" == "runtime_exhausted_shmem queue full"
    ensures "runtime_exhausted_" + "dfs queue full" == "runtime_exhausted_dfs queue full"
    ensures "runtime_exhausted_" + "db queue full" == "runtime_exhausted_db queue full"
  {
  }

  lemma MissingText()
    ensures "runtime_exhausted_" + "missing block hash" == "runtime_exhausted_missing block hash"
  {
  }

  /** Where a report goes and what it carries, in full. */
  lemma ReportText(d: Delivery, f: Failure)
    requires Matches(d, f) && f.why != NoCompletionQueue && (f.why.QueueFull? ==> IsService(f.why.source))
    ensures d.cq == f.cq && d.event.task == None && d.event.source == GuestUapi && d.event.finishedAt == U64_MAX
    ensures d.event.status == RetryableFailure(
              if f.why == MissingBlockHash then "runtime_exhausted_missing block hash"
              else if f.why.source.BlockService? then "runtime_exhausted_block queue full"
              else if f.why.source.ShmemService? then "runtime_exhausted_shmem queue full"
              else if f.why.source.DfsService? then "runtime_exhausted_dfs queue full"
              else "runtime_exhausted_db queue full")
  {
    FullTexts();
    MissingText();
  }
}
