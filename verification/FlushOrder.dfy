/**
 In which order staged work reaches the services.  A doorbell appends its batch to the runtime
 queue in order; a flush with room for everything hands each entry to its own service, in the
 order of the queue, at rising times.  With ServiceLaws this says what a whole batch is answered.
 */
module FlushOrder {
  import opened SimCore
  import opened Services
  import opened ServiceLaws
  import opened ServiceHistories
  import opened RuntimeQueue
  import opened SurfaceSpec
  import opened SurfaceInvariant
  import BP = BackPressure

  // ----- Staging ---------------------------------------------------------------------------

  /** A staged batch is appended in order: entry i belongs to the queue's owner, is untried and ready in time. */
  lemma {:induction false} StagedInOrder(cfg: Config, s: State, cq: nat, descs: seq<Descriptor>)
    ensures var s' := Stage(cfg, s, cq, descs);
      && s'.clock == s.clock + |descs| && |s'.runtime| == |s.runtime| + |descs| && s.runtime <= s'.runtime
      && s' == s.(clock := s'.clock, runtime := s'.runtime)
      && forall i :: 0 <= i < |descs| ==>
           s'.runtime[|s.runtime| + i]
             == Record(Work(cq, descs[i]), SaturatingAdd(s.clock + 1 + i, cfg.issueLatency), 0)
  {
    if descs != [] { StagedInOrder(cfg, s, cq, descs[..|descs| - 1]); }
  }

  /** A doorbell without a batch size takes everything that waits, if it fits. */
  lemma RingAll(cfg: Config, s: State, cmdq: nat, owner: nat)
    requires cmdq in s.cmdqs && s.cmdqs[cmdq].owner == owner && |s.cmdqs[cmdq].pending| <= Free(cfg, s)
    ensures var (s', r) := Ring(cfg, s, cmdq, owner, None);
      var q := s.cmdqs[cmdq];
      && r == DoorbellRung(|q.pending|, 0)
      && cmdq in s'.cmdqs && s'.cmdqs[cmdq] == q.(pending := [])
      && |s'.runtime| == |s.runtime| + |q.pending|
      && forall i :: 0 <= i < |q.pending| ==> s'.runtime[|s.runtime| + i].payload == Work(q.cq, q.pending[i])
  {
    var q := s.cmdqs[cmdq];
    var s1 := Popped(s, cmdq, |q.pending|);
    assert q.pending[..|q.pending|] == q.pending && q.pending[|q.pending|..] == [];
    StagedInOrder(cfg, s1, q.cq, q.pending);
  }

  /** A poll without a limit returns everything that waits and leaves the queue empty. */
  lemma PollAll(cfg: Config, s: State, cq: nat, owner: nat)
    requires var s' := Settled(cfg, s); cq in s'.cqs && s'.cqs[cq].owner == owner
    ensures var (s', r) := Poll(cfg, s, cq, owner, None);
      && r == Completions(Settled(cfg, s).cqs[cq].events, 0)
      && cq in s'.cqs && s'.cqs[cq].events == []
  {
    var events := Settled(cfg, s).cqs[cq].events;
    assert events[..|events|] == events && events[|events|..] == [];
  }

  // ----- Work no service takes -------------------------------------------------------------

  /**
   A dispatch is answered at once with success, remote access with a retryable failure at the
   next service time, both at the back of their queue; block access without a block is refused.
   */
  lemma UnservicedAnswers(cfg: Config, s: State, d: Descriptor, cq: nat)
    requires ServiceOf(d) == None && cq in s.cqs
    ensures var (s', r) := Submit(cfg, s, d, cq);
      && s'.services == s.services
      && (d.opcode.Dispatch? ==>
            && r == Accepted(d.opId) && s'.clock == s.clock
            && Delivers(s, s', cq, CompletionEvent(d.opId, d.task, GuestUapi, Success, d.opId)))
      && (d.opcode.RemoteFetch? || d.opcode.RemoteStore? ==>
            && r == Accepted(d.opId) && s'.clock == s.clock + 1
            && Delivers(s, s', cq, CompletionEvent(d.opId, d.task, RemoteNode,
                                                   RetryableFailure("remote_transport_not_available"), s.clock + 1)))
      && (d.opcode.ReadBlock? || d.opcode.WriteBlock? ==> d.block == None && r == Refused(MissingBlockHash) && s' == s)
  {
  }

  /** One queue has gained one event, at the back. */
  predicate Delivers(s: State, s': State, cq: nat, e: CompletionEvent)
    requires cq in s.cqs
  {
    s'.cqs == s.cqs[cq := Cq(s.cqs[cq].owner, s.cqs[cq].events + [e])] && s'.log == s.log + [Delivery(cq, e)]
  }

  // ----- A flush in order ------------------------------------------------------------------

  /** Descriptors that are stamped with the next service time. */
  predicate Ticks(d: Descriptor) { ServiceOf(d).Some? || d.opcode.RemoteFetch? || d.opcode.RemoteStore? }

  function ClockAfter(work: seq<Entry>, clock: nat): nat {
    if work == [] then clock
    else ClockAfter(work[..|work| - 1], clock) + if Ticks(work[|work| - 1].payload.desc) then 1 else 0
  }

  /** What a service is asked by the staged entries, in their order, at their times. */
  function AskedOf(work: seq<Entry>, src: CompletionSource, clock: nat): seq<Event> {
    if work == [] then []
    else
      var rest, d := AskedOf(work[..|work| - 1], src, clock), work[|work| - 1].payload.desc;
      if ServiceOf(d) == Some(src) then rest + [Asked(d, ClockAfter(work, clock))] else rest
  }

  function Ordered(hs: Histories, work: seq<Entry>, clock: nat): Histories {
    Histories(hs.block + AskedOf(work, BlockService, clock), hs.shmem + AskedOf(work, ShmemService, clock),
              hs.dfs + AskedOf(work, DfsService, clock), hs.db + AskedOf(work, DbService, clock))
  }

  predicate HasRoom(cfg: Config, s: State, d: Descriptor) {
    ServiceOf(d).Some? ==> BP.Load(s, ServiceOf(d).value) < Depth(cfg, ServiceOf(d).value)
  }

  lemma SubmitWithRoom(cfg: Config, s: State, d: Descriptor, cq: nat)
    requires HasRoom(cfg, s, d)
    ensures var (s', r) := Submit(cfg, s, d, cq);
      && s'.clock == s.clock + (if Ticks(d) then 1 else 0)
      && (ServiceOf(d).Some? ==> r.Accepted?) && (r.Refused? ==> !r.why.QueueFull?)
  {
  }

  /** An entry that meets no full queue is only submitted. */
  lemma DriveIsSubmit(cfg: Config, p: Pass, r: Entry)
    requires HasRoom(cfg, p.s, r.payload.desc)
    ensures DriveOne(cfg, p, r).s == Submit(cfg, p.s, r.payload.desc, r.payload.cq).0
  {
    SubmitWithRoom(cfg, p.s, r.payload.desc, r.payload.cq);
  }

  /** What one more descriptor at a time makes of the histories. */
  function AskedMore(hs: Histories, d: Descriptor, now: nat): Histories {
    if ServiceOf(d).Some?
    then hs.Set(ServiceOf(d).value, hs.Get(ServiceOf(d).value) + [Asked(d, now)]) else hs
  }

  lemma SubmitInOrder(cfg: Config, hs: Histories, s: State, d: Descriptor, cq: nat, hs': Histories, ss: ServiceSet)
    requires Traced(cfg.profile, hs, s.services) && HasRoom(cfg, s, d)
    requires hs' == AskedMore(hs, d, s.clock + 1) && ss == Submit(cfg, s, d, cq).0.services
    ensures Traced(cfg.profile, hs', ss)
  {
    SubmitWithRoom(cfg, s, d, cq);
    var hs1 := SubmitTraced(cfg, hs, s, d, cq);
    assert hs1 == hs';
  }

  lemma OrderedSnoc(hs: Histories, work: seq<Entry>, r: Entry, clock: nat)
    ensures var d, before, after := r.payload.desc, Ordered(hs, work, clock), Ordered(hs, work + [r], clock);
      var now := ClockAfter(work, clock) + if Ticks(d) then 1 else 0;
      && ClockAfter(work + [r], clock) == now
      && after == AskedMore(before, d, now)
  {
    assert (work + [r])[..|work|] == work;
  }

  lemma RoomAfter(cfg: Config, s0: State, p: Pass, init: seq<Entry>, r: Entry)
    requires BP.NoRefusal(s0, p, init) && BP.Roomy(cfg, s0, init + [r])
    ensures HasRoom(cfg, p.s, r.payload.desc)
  {
    if ServiceOf(r.payload.desc).Some? {
      var src := ServiceOf(r.payload.desc).value;
      BP.CountAppend(init, r, src);
      assert IsService(src);
    }
  }

  lemma RoomForLast(cfg: Config, p: Pass, ready: seq<Entry>, init: seq<Entry>, r: Entry)
    requires PassOk(cfg, p) && WorkLive(ready, p.s.cqs.Keys) && p.kept == [] && p.failures == []
    requires BP.Roomy(cfg, p.s, ready) && ready == init + [r]
    ensures BP.Roomy(cfg, p.s, init) && WorkLive(init, p.s.cqs.Keys)
    ensures HasRoom(cfg, Drive(cfg, p, init).s, r.payload.desc)
  {
    assert ready[..|ready| - 1] == init;
    BP.RoomyPrefix(cfg, p.s, ready);
    BP.PassRoomy(cfg, p, init);
    RoomAfter(cfg, p.s, Drive(cfg, p, init), init, r);
  }

  /** One entry whose service has room is taken by it, at the next time, and by no other. */
  lemma NextInOrder(cfg: Config, hs: Histories, s: State, init: seq<Entry>, r: Entry, clock: nat, ss: ServiceSet)
    requires Traced(cfg.profile, Ordered(hs, init, clock), s.services) && s.clock == ClockAfter(init, clock)
    requires HasRoom(cfg, s, r.payload.desc) && ss == Submit(cfg, s, r.payload.desc, r.payload.cq).0.services
    ensures Traced(cfg.profile, Ordered(hs, init + [r], clock), ss)
  {
    var before, after, d := Ordered(hs, init, clock), Ordered(hs, init + [r], clock), r.payload.desc;
    OrderedSnoc(hs, init, r, clock);
    assert after == AskedMore(before, d, s.clock + 1);
    SubmitInOrder(cfg, before, s, d, r.payload.cq, after, ss);
  }

  lemma NextClock(cfg: Config, s: State, init: seq<Entry>, r: Entry, clock: nat)
    requires HasRoom(cfg, s, r.payload.desc) && s.clock == ClockAfter(init, clock)
    ensures Submit(cfg, s, r.payload.desc, r.payload.cq).0.clock == ClockAfter(init + [r], clock)
  {
    SubmitWithRoom(cfg, s, r.payload.desc, r.payload.cq);
    assert (init + [r])[..|init|] == init;
  }

  lemma NothingAsked(hs: Histories, clock: nat)
    ensures Ordered(hs, [], clock) == hs
  {
  }

  /** A pass with room for everything. */
  lemma {:induction false} DriveInOrder(cfg: Config, hs: Histories, p: Pass, ready: seq<Entry>)
    requires Traced(cfg.profile, hs, p.s.services) && PassOk(cfg, p) && WorkLive(ready, p.s.cqs.Keys)
    requires p.kept == [] && p.failures == [] && BP.Roomy(cfg, p.s, ready)
    ensures var p' := Drive(cfg, p, ready);
      Traced(cfg.profile, Ordered(hs, ready, p.s.clock), p'.s.services) && p'.s.clock == ClockAfter(ready, p.s.clock)
  {
    if ready == [] {
      NothingAsked(hs, p.s.clock);
    } else {
      var init, r := ready[..|ready| - 1], ready[|ready| - 1];
      assert init + [r] == ready;
      RoomForLast(cfg, p, ready, init, r);
      DriveInOrder(cfg, hs, p, init);
      var p1, s' := Drive(cfg, p, init), Drive(cfg, p, ready).s;
      DriveIsSubmit(cfg, p1, r);
      NextClock(cfg, p1.s, init, r, p.s.clock);
      NextInOrder(cfg, hs, p1.s, init, r, p.s.clock, s'.services);
    }
  }

  /** A flush with room for everything asks each service its entries, in the order of the queue. */
  lemma FlushInOrder(cfg: Config, hs: Histories, s: State)
    requires Inv(cfg, s) && BP.Roomy(cfg, s, s.runtime) && Traced(cfg.profile, hs, s.services)
    ensures Traced(cfg.profile, Ordered(hs, s.runtime, s.clock), Flush(cfg, s).services)
  {
    if s.runtime == [] {
      assert Ordered(hs, s.runtime, s.clock) == hs;
    } else {
      var s0, p := s.(runtime := []), FirstPass(cfg, s);
      PassInv(cfg, s);
      BP.WithoutRuntime(cfg, s);
      BP.PassRoomy(cfg, Pass(s0, [], []), s.runtime);
      DriveInOrder(cfg, hs, Pass(s0, [], []), s.runtime);
      ReportKeeps(p.s.(runtime := p.kept), p.failures);
    }
  }

  /**
   A write of a block staged ahead of a read of it, with any other work around them: the read
   is a hit, whatever the services held before.
   */
  lemma StagedReadHits(cfg: Config, hs: Histories, s: State, i: nat, j: nat, block: string)
    requires Inv(cfg, s) && BP.Roomy(cfg, s, s.runtime) && Traced(cfg.profile, hs, s.services)
    requires i < j < |s.runtime|
    requires Writes(s.runtime[i].payload.desc, block) && Reads(s.runtime[j].payload.desc, block)
    ensures var work := s.runtime[..j];
      var asked := hs.block + AskedOf(work, BlockService, s.clock);
      && AllFor(BlockService, asked)
      && Answered(cfg.profile, BlockService, asked, s.runtime[j].payload.desc, ClockAfter(work, s.clock) + 1,
                  Success, cfg.profile.readHit)
  {
    var work := s.runtime[..j];
    var before := AskedOf(work, BlockService, s.clock);
    AskedFor(work, BlockService, s.clock);
    AskedHas(work, i, block, s.clock);
    WrittenAfter(hs.block, before, block);
    BlockAnswers(cfg.profile, hs.block + before, s.runtime[j].payload.desc, ClockAfter(work, s.clock) + 1);
  }

  lemma WrittenAfter(h: seq<Event>, more: seq<Event>, block: string)
    requires BlockWritten(more, block)
    ensures BlockWritten(h + more, block)
  {
    var k :| 0 <= k < |more| && WritesBlock(more[k], block);
    assert WritesBlock((h + more)[|h| + k], block);
  }

  predicate Writes(d: Descriptor, block: string) { d.Io? && d.opcode.WriteBlock? && d.block == Some(block) }
  predicate Reads(d: Descriptor, block: string) { d.Io? && d.opcode.ReadBlock? && d.block == Some(block) }

  lemma {:induction false} AskedFor(work: seq<Entry>, src: CompletionSource, clock: nat)
    requires IsService(src)
    ensures AllFor(src, AskedOf(work, src, clock))
  {
    if work != [] { AskedFor(work[..|work| - 1], src, clock); }
  }

  lemma {:induction false} AskedHas(work: seq<Entry>, i: nat, block: string, clock: nat)
    requires i < |work| && Writes(work[i].payload.desc, block)
    ensures BlockWritten(AskedOf(work, BlockService, clock), block)
  {
    var init, asked := work[..|work| - 1], AskedOf(work, BlockService, clock);
    if i < |init| {
      AskedHas(init, i, block, clock);
      StaysWritten(AskedOf(init, BlockService, clock), asked, block);
    } else {
      assert WritesBlock(asked[|asked| - 1], block);
    }
  }
}
