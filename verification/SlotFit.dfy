/** Which completions the simulator can produce fit the default 64-byte slot (sim-qemu/src/types.rs). */
module SlotFit {
  import opened SimCore
  import Utf8
  import Services
  import SS = SurfaceSpec
  import Codec
  import Device
  import opened EventLaws

  /** Completion codes short enough for a taskless completion in a 64-byte slot. */
  predicate Modest(s: CompletionStatus) {
    !s.Success? ==> Utf8.Ascii(s.code) && |s.code| <= 44
  }

  lemma TasklessFits(e: CompletionEvent)
    requires e.task.None? && Modest(e.status)
    ensures Codec.SlotFits(e, 64)
    ensures Codec.EventOk(e) ==> Codec.EncodeCompletion(e, 64).Ok?
  {
    if !e.status.Success? { Utf8.AsciiSize(e.status.code); }
    if Codec.EventOk(e) { Codec.CompletionFits(e, 64); }
  }

  // ----- Who produces codes ----------------------------------------------------------------

  lemma AccessModest(p: Services.Profile, t: map<nat, Services.SegmentMeta>, segment: nat, requester: nat, bytes: nat)
    ensures Modest(Services.CheckAccess(p, t, segment, requester, bytes))
  {
  }

  lemma BlockModest(p: Services.Profile, t: Services.Table, d: Descriptor)
    requires Services.ServiceOf(d) == Some(Services.SourceOf(t)) && t.Blocks?
    ensures Modest(Services.Respond(p, t, d).status)
  {
  }

  lemma FilesModest(p: Services.Profile, t: Services.Table, d: Descriptor)
    requires Services.ServiceOf(d) == Some(Services.SourceOf(t)) && t.Files?
    ensures Modest(Services.Respond(p, t, d).status)
  {
  }

  lemma RowsModest(p: Services.Profile, t: Services.Table, d: Descriptor)
    requires Services.ServiceOf(d) == Some(Services.SourceOf(t)) && t.Rows?
    ensures Modest(Services.Respond(p, t, d).status)
  {
  }

  lemma RespondModest(p: Services.Profile, t: Services.Table, d: Descriptor)
    requires Services.ServiceOf(d) == Some(Services.SourceOf(t))
    ensures Modest(Services.Respond(p, t, d).status)
  {
    if t.Blocks? { BlockModest(p, t, d); }
    else if t.Files? { FilesModest(p, t, d); }
    else if t.Rows? { RowsModest(p, t, d); }
    else { AccessModest(p, t.segments, d.segmentId, d.requester, d.bytes); }
  }

  lemma ImmediateModest(d: Descriptor, now: nat)
    requires d.Io?
    ensures Modest(SS.ImmediateEvent(d, now).status)
  {
  }

  lemma FullModest(src: CompletionSource)
    ensures Utf8.Ascii(SS.Code(SS.QueueFull(src))) && |SS.Code(SS.QueueFull(src))| <= 20
  {
  }

  lemma CodeModest(r: SS.Refusal)
    ensures Utf8.Ascii(SS.Code(r)) && |SS.Code(r)| <= 20
  {
    if r.QueueFull? { FullModest(r.source); }
  }

  lemma FailureModest(f: SS.Failure, opId: nat)
    ensures SS.FailureEvent(f, opId).task.None? && Modest(SS.FailureEvent(f, opId).status)
  {
    CodeModest(f.why);
  }

  // ----- Laws over every run -----------------------------------------------------------------

  predicate ModestEvent(e: CompletionEvent) { Modest(e.status) }

  predicate AnyDescriptor(d: Descriptor) { true }

  predicate Taskless(e: CompletionEvent) { e.task.None? }

  predicate WithoutTask(d: Descriptor) { d.task.None? }

  function ModestLaw(): Law { Law(ModestEvent, AnyDescriptor, None) }

  function TasklessLaw(): Law { Law(Taskless, WithoutTask, None) }

  /** Descriptors hold machine words; clocks and handles have not passed 2^64. */
  function WordLaw(): Law { Law(Codec.EventOk, Codec.DescriptorOk, Some(Codec.Pow256(8))) }

  lemma ModestLawful()
    ensures Lawful(ModestLaw())
  {
    var law := ModestLaw();
    forall p, t, d, id: nat, at: nat | Services.ServiceOf(d) == Some(Services.SourceOf(t))
      ensures law.ok(ServiceEvent(p, t, d, id, at))
    {
      RespondModest(p, t, d);
    }
    forall d: Descriptor, now: nat | d.Io? ensures law.ok(SS.ImmediateEvent(d, now)) { ImmediateModest(d, now); }
    forall f: SS.Failure, id: nat ensures law.ok(SS.FailureEvent(f, id)) { FailureModest(f, id); }
  }

  lemma TasklessLawful()
    ensures Lawful(TasklessLaw())
  {
  }

  lemma WordLawful()
    ensures Lawful(WordLaw())
  {
    var law := WordLaw();
    MaxWord();
    forall d: Descriptor, now: nat | d.Io? && law.good(d) && Below(law, now)
      ensures law.ok(SS.ImmediateEvent(d, now))
    {
      assert Codec.Fits64(d.opId) && Codec.OptTaskOk(d.task);
    }
  }

  lemma MaxWord()
    ensures Codec.Pow256(8) == U64_MAX + 1
  {
    assert Codec.Pow256(2) == 0x1_0000 && Codec.Pow256(4) == 0x1_0000_0000;
    assert Codec.Pow256(6) == 0x1_0000_0000_0000;
  }

  /** Over all runs everything queued carries a short ASCII code. */
  lemma RunModest(cfg: SS.Config, cmds: seq<SS.Command>)
    ensures var s := SS.Exec(cfg, cmds); CqsOk(ModestLaw(), s.cqs) && ServicesOk(ModestLaw(), s.services)
  {
    ModestLawful();
    RunRuled(ModestLaw(), cfg, cmds);
  }

  /** After any command sequence, every taskless completion a poll returns fits a 64-byte slot. */
  lemma PolledFits(cfg: SS.Config, cmds: seq<SS.Command>, cq: nat, owner: nat, max: Option<nat>, e: CompletionEvent)
    requires var r := SS.Poll(cfg, SS.Exec(cfg, cmds), cq, owner, max).1; r.Completions? && e in r.events
    requires e.task.None?
    ensures Codec.SlotFits(e, 64)
  {
    ModestPoll(cfg, cmds, cq, owner, max);
    TasklessFits(e);
  }

  ghost predicate ModestEvents(events: seq<CompletionEvent>) { forall e :: e in events ==> ModestEvent(e) }

  lemma ModestPoll(cfg: SS.Config, cmds: seq<SS.Command>, cq: nat, owner: nat, max: Option<nat>)
    ensures var r := SS.Poll(cfg, SS.Exec(cfg, cmds), cq, owner, max).1; r.Completions? ==> ModestEvents(r.events)
  {
    ModestLawful();
    PollRuled(ModestLaw(), cfg, cmds, cq, owner, max);
    var r := SS.Poll(cfg, SS.Exec(cfg, cmds), cq, owner, max).1;
    if r.Completions? {
      forall e | e in r.events ensures ModestEvent(e) { assert ModestLaw().ok(e); }
    }
  }

  // ----- What a refill of the completion ring keeps -------------------------------------------

  function TasklessPrefix(events: seq<CompletionEvent>): nat {
    if events == [] || events[0].task.Some? then 0 else 1 + TasklessPrefix(events[1..])
  }

  lemma {:induction false} WritesTasklessPrefix(events: seq<CompletionEvent>)
    requires ModestEvents(events)
    ensures Device.Writable(events, 64) == TasklessPrefix(events)
  {
    if events != [] {
      assert ModestEvent(events[0]);
      if events[0].task.None? { TasklessFits(events[0]); }
      WritesTasklessPrefix(events[1..]);
    }
  }

  lemma PolledModest(cfg: SS.Config, cmds: seq<SS.Command>, cq: nat, owner: nat, room: nat)
    ensures ModestEvents(Device.Polled(cfg, SS.Exec(cfg, cmds), cq, owner, room))
  {
    ModestPoll(cfg, cmds, cq, owner, Some(room));
  }

  /**
   With 64-byte slots, a refill of the completion ring after any command sequence writes exactly
   the polled completions before the first one that carries a task.
   */
  lemma RefillStopsAtFirstTask(cfg: SS.Config, cmds: seq<SS.Command>, cq: nat, owner: nat, room: nat)
    ensures var events := Device.Polled(cfg, SS.Exec(cfg, cmds), cq, owner, room);
      Device.Writable(events, 64) == TasklessPrefix(events)
  {
    PolledModest(cfg, cmds, cq, owner, room);
    WritesTasklessPrefix(Device.Polled(cfg, SS.Exec(cfg, cmds), cq, owner, room));
  }

  ghost predicate AllTaskless(events: seq<CompletionEvent>) { forall e :: e in events ==> Taskless(e) }

  lemma {:induction false} TasklessPrefixAll(events: seq<CompletionEvent>)
    ensures TasklessPrefix(events) == |events| <==> AllTaskless(events)
  {
    if events != [] {
      TasklessPrefixAll(events[1..]);
      assert events == [events[0]] + events[1..];
      assert AllTaskless(events) <==> Taskless(events[0]) && AllTaskless(events[1..]);
    }
  }

  /** If no command brings in a descriptor with a task, no refill of any completion ring loses a completion. */
  lemma NoTaskNoLoss(cfg: SS.Config, cmds: seq<SS.Command>, cq: nat, owner: nat, room: nat)
    requires CommandsGood(TasklessLaw(), cmds)
    ensures var events := Device.Polled(cfg, SS.Exec(cfg, cmds), cq, owner, room);
      Device.Writable(events, 64) == |events|
  {
    var events := Device.Polled(cfg, SS.Exec(cfg, cmds), cq, owner, room);
    TasklessLawful();
    PollRuled(TasklessLaw(), cfg, cmds, cq, owner, Some(room));
    forall e | e in events ensures Taskless(e) { assert TasklessLaw().ok(e); }
    TasklessPrefixAll(events);
    RefillStopsAtFirstTask(cfg, cmds, cq, owner, room);
  }

  // ----- Words ---------------------------------------------------------------------------------

  /**
   After any commands with machine-word descriptors, what a refill polls are machine words while
   clock and handles stay below 2^64: the precondition of the completion ring's methods.
   */
  lemma PolledWordSized(cfg: SS.Config, cmds: seq<SS.Command>, cq: nat, owner: nat, room: nat)
    requires CommandsGood(WordLaw(), cmds)
    requires Counters(WordLaw(), Device.AfterPoll(cfg, SS.Exec(cfg, cmds), cq, owner, room))
    ensures Device.WordSized(Device.Polled(cfg, SS.Exec(cfg, cmds), cq, owner, room))
  {
    WordLawful();
    RunRuled(WordLaw(), cfg, cmds);
    WordsFrom(cfg, SS.Exec(cfg, cmds), cq, owner, room);
  }

  lemma WordsFrom(cfg: SS.Config, s: SS.State, cq: nat, owner: nat, room: nat)
    requires Lawful(WordLaw()) && Ruled(WordLaw(), s)
    requires Counters(WordLaw(), Device.AfterPoll(cfg, s, cq, owner, room))
    ensures Device.WordSized(Device.Polled(cfg, s, cq, owner, room))
  {
    PollObeys(WordLaw(), cfg, s, cq, owner, Some(room));
    var events := Device.Polled(cfg, s, cq, owner, room);
    forall e | e in events ensures Codec.EventOk(e) { assert WordLaw().ok(e); }
  }

  lemma AppendedRuled(law: Law, s: SS.State, cmdq: nat, ds: seq<Descriptor>)
    requires Ruled(law, s) && forall d :: d in ds ==> law.good(d)
    ensures Ruled(law, Device.Appended(s, cmdq, ds))
  {
  }

  /** The same for what a doorbell polls after appending and ringing a batch. */
  lemma DoorbellWordSized(cfg: SS.Config, cmds: seq<SS.Command>, cmdq: nat, owner: nat, ds: seq<Descriptor>,
                          cq: nat, room: nat)
    requires CommandsGood(WordLaw(), cmds) && forall d :: d in ds ==> Codec.DescriptorOk(d)
    requires var s := Device.AfterRing(cfg, Device.Appended(SS.Exec(cfg, cmds), cmdq, ds), cmdq, owner, |ds|);
      Counters(WordLaw(), Device.AfterPoll(cfg, s, cq, owner, room))
    ensures var s := Device.AfterRing(cfg, Device.Appended(SS.Exec(cfg, cmds), cmdq, ds), cmdq, owner, |ds|);
      Device.WordSized(Device.Polled(cfg, s, cq, owner, room))
  {
    WordLawful();
    RunRuled(WordLaw(), cfg, cmds);
    RungRuled(cfg, SS.Exec(cfg, cmds), cmdq, owner, ds);
    WordsFrom(cfg, Device.AfterRing(cfg, Device.Appended(SS.Exec(cfg, cmds), cmdq, ds), cmdq, owner, |ds|), cq, owner,
        room);
  }

  lemma RungRuled(cfg: SS.Config, s: SS.State, cmdq: nat, owner: nat, ds: seq<Descriptor>)
    requires Lawful(WordLaw()) && Ruled(WordLaw(), s) && forall d :: d in ds ==> Codec.DescriptorOk(d)
    ensures Ruled(WordLaw(), Device.AfterRing(cfg, Device.Appended(s, cmdq, ds), cmdq, owner, |ds|))
  {
    var law := WordLaw();
    forall d | d in ds ensures law.good(d) {}
    AppendedRuled(law, s, cmdq, ds);
    StepRuled(law, cfg, Device.Appended(s, cmdq, ds), SS.RingDoorbell(cmdq, owner, Some(|ds|)));
  }
}
