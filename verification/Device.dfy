/** One endpoint of LinquDeviceModel (sim-qemu/src/device.rs): MMIO rings in front of the guest surface. */
module Device {
  import opened SimCore
  import opened Utf8
  import opened Codec
  import opened RingMemory
  import SS = SurfaceSpec

  datatype DeviceError =
    | Ring(error: RingError)
    | Backend(cause: SimError)
    | TailOutOfRange | QueueOverflow | HeadOutOfRange | HeadExceedsPending
    | ReadOnlyRegister

  datatype Register =
    | CmdqHead | CmdqTail | CqHead | CqTail | Status | Doorbell | LastError | IrqStatus | IrqAck

  predicate ReadOnly(reg: Register) {
    reg.CmdqHead? || reg.CqTail? || reg.Status? || reg.LastError? || reg.IrqStatus?
  }

  /** The two bits of an interrupt acknowledgement. */
  predicate AcksCompletion(value: nat) { value % 2 == 1 }
  predicate AcksError(value: nat) { (value / 2) % 2 == 1 }

  /** The answer to a new command tail: in range, and publishing no more slots than are free. */
  function TailAnswer(tail: nat, count: nat, newTail: nat, depth: nat): Result<(), DeviceError>
  {
    if newTail >= depth || tail >= depth then Err(TailOutOfRange)
    else if count + Distance(tail, newTail, depth) > depth then Err(QueueOverflow) else Ok(())
  }

  /** The answer to a new completion head: in range, and retiring no more completions than there are. */
  function HeadAnswer(head: nat, count: nat, newHead: nat, depth: nat): Result<(), DeviceError>
  {
    if newHead >= depth || head >= depth then Err(HeadOutOfRange)
    else if Distance(head, newHead, depth) > count then Err(HeadExceedsPending) else Ok(())
  }

  /** What a write of the completion head leaves of the ring: out-of-range heads change nothing. */
  function Retired<T>(events: seq<T>, head: nat, newHead: nat, depth: nat): seq<T> {
    if head < depth && newHead < depth && Distance(head, newHead, depth) <= |events|
    then events[Distance(head, newHead, depth)..] else events
  }

  /** The slots w are valid and decode to the given events, in order. */
  ghost predicate Holds(slots: seq<seq<byte>>, valid: seq<bool>, w: seq<nat>, events: seq<CompletionEvent>) {
    && |w| == |events|
    && (w == [] ||
        (w[0] < |slots| && w[0] < |valid| && valid[w[0]] && DecodeCompletion(slots[w[0]]) == Ok(events[0])
         && Holds(slots, valid, w[1..], events[1..])))
  }

  /** Slots outside the window do not matter. */
  lemma {:induction false} HoldsElsewhere(slots: seq<seq<byte>>, valid: seq<bool>, w: seq<nat>,
                                          events: seq<CompletionEvent>,
                                          slots': seq<seq<byte>>, valid': seq<bool>)
    requires Holds(slots, valid, w, events) && |slots'| == |slots| && |valid'| == |valid|
    requires forall i :: 0 <= i < |w| && w[i] < |slots| ==> slots'[w[i]] == slots[w[i]]
    requires forall i :: 0 <= i < |w| && w[i] < |valid| ==> valid'[w[i]] == valid[w[i]]
    ensures Holds(slots', valid', w, events)
  {
    if w != [] { HoldsElsewhere(slots, valid, w[1..], events[1..], slots', valid'); }
  }

  lemma {:induction false} HoldsAppend(slots: seq<seq<byte>>, valid: seq<bool>, w: seq<nat>,
                                       events: seq<CompletionEvent>,
                                       s: nat, e: CompletionEvent)
    requires Holds(slots, valid, w, events)
    requires s < |slots| && s < |valid| && valid[s] && DecodeCompletion(slots[s]) == Ok(e)
    ensures Holds(slots, valid, w + [s], events + [e])
  {
    if w != [] {
      HoldsAppend(slots, valid, w[1..], events[1..], s, e);
      assert (w + [s])[1..] == w[1..] + [s] && (events + [e])[1..] == events[1..] + [e];
    }
  }

  lemma {:induction false} HoldsDrop(slots: seq<seq<byte>>, valid: seq<bool>, w: seq<nat>,
                                     events: seq<CompletionEvent>, n: nat)
    requires Holds(slots, valid, w, events) && n <= |w|
    ensures Holds(slots, valid, w[n..], events[n..])
  {
    if n > 0 {
      HoldsDrop(slots, valid, w[1..], events[1..], n - 1);
      assert w[1..][n - 1..] == w[n..] && events[1..][n - 1..] == events[n..];
    }
  }

  /** Taking the oldest completion: it is there, it decodes, and the others stay readable. */
  lemma TakeOldest(slots: seq<seq<byte>>, valid: seq<bool>, w: seq<nat>, events: seq<CompletionEvent>)
    requires Holds(slots, valid, w, events) && w != [] && w[0] !in w[1..]
    ensures w[0] < |slots| && w[0] < |valid| && valid[w[0]] && DecodeCompletion(slots[w[0]]) == Ok(events[0])
    ensures Holds(slots, valid[w[0] := false], w[1..], events[1..])
  {
    HoldsElsewhere(slots, valid, w[1..], events[1..], slots, valid[w[0] := false]);
  }

  /** Writing a completion into a slot outside the window appends it. */
  lemma PutNewest(slots: seq<seq<byte>>, valid: seq<bool>, w: seq<nat>, events: seq<CompletionEvent>,
                  s: nat, e: CompletionEvent, slotBytes: nat)
    requires Holds(slots, valid, w, events) && s < |slots| && s < |valid| && s !in w
    requires EventOk(e) && EncodeCompletion(e, slotBytes).Ok?
    ensures Holds(slots[s := EncodeCompletion(e, slotBytes).value], valid[s := true], w + [s], events + [e])
  {
    CompletionRoundTrip(e, slotBytes);
    var slots', valid' := slots[s := EncodeCompletion(e, slotBytes).value], valid[s := true];
    HoldsElsewhere(slots, valid, w, events, slots', valid');
    HoldsAppend(slots', valid', w, events, s, e);
  }

  /** How many leading events can be written into slots; the first that cannot stops the flush. */
  function Writable(events: seq<CompletionEvent>, slotBytes: nat): (k: nat)
    ensures k <= |events|
  {
    if events == [] || !SlotFits(events[0], slotBytes) then 0 else 1 + Writable(events[1..], slotBytes)
  }

  lemma {:induction false} WritableStep(events: seq<CompletionEvent>, slotBytes: nat, i: nat)
    requires i < |events| && i <= Writable(events, slotBytes)
    ensures Writable(events, slotBytes) > i <==> SlotFits(events[i], slotBytes)
  {
    if i > 0 { WritableStep(events[1..], slotBytes, i - 1); }
  }

  lemma Snoc<T>(a: seq<T>, b: seq<T>, i: nat)
    requires i < |b|
    ensures a + b[..i] + [b[i]] == a + b[..i + 1]
  {
  }

  lemma Shift<T>(all: seq<T>, taken: seq<T>, x: T, left: seq<T>, rest: seq<T>)
    requires all == taken + left && left == [x] + rest
    ensures all == taken + [x] + rest
  {
  }

  /** The descriptors at the front of a command window, up to the first slot that is unwritten or malformed. */
  function Readable(slots: seq<seq<byte>>, valid: seq<bool>, w: seq<nat>): (ds: seq<Descriptor>)
    ensures |ds| <= |w|
  {
    if w == [] || w[0] >= |slots| || w[0] >= |valid| || !valid[w[0]] || DecodeDescriptor(slots[w[0]]).Err? then []
    else [DecodeDescriptor(slots[w[0]]).value] + Readable(slots, valid, w[1..])
  }

  lemma {:induction false} ReadableElsewhere(slots: seq<seq<byte>>, valid: seq<bool>, w: seq<nat>, s: nat)
    requires s < |valid| && s !in w
    ensures Readable(slots, valid[s := false], w) == Readable(slots, valid, w)
  {
    if w != [] { ReadableElsewhere(slots, valid, w[1..], s); }
  }

  /** Taking the slot at the head of a window: what is readable afterwards, before and after the head moves. */
  lemma TakeHead(slots: seq<seq<byte>>, valid: seq<bool>, w: seq<nat>)
    requires w != [] && w[0] < |slots| && w[0] < |valid| && w[0] !in w[1..]
    ensures Readable(slots, valid[w[0] := false], w) == []
    ensures Readable(slots, valid, w) != [] ==>
              Readable(slots, valid[w[0] := false], w[1..]) == Readable(slots, valid, w)[1..]
  {
    ReadableElsewhere(slots, valid, w[1..], w[0]);
  }

  /** Room a command queue still offers to an owner. */
  function Room(s: SS.State, cmdq: nat, owner: nat): nat {
    if cmdq in s.cmdqs && s.cmdqs[cmdq].owner == owner && |s.cmdqs[cmdq].pending| < s.cmdqs[cmdq].depth
    then s.cmdqs[cmdq].depth - |s.cmdqs[cmdq].pending| else 0
  }

  /** The surface after descriptors were appended to a command queue. */
  function Appended(s: SS.State, cmdq: nat, ds: seq<Descriptor>): SS.State {
    if ds == [] || cmdq !in s.cmdqs then s
    else s.(cmdqs := s.cmdqs[cmdq := s.cmdqs[cmdq].(pending := s.cmdqs[cmdq].pending + ds)])
  }

  /** enqueue_cmd appends exactly while there is room. */
  lemma AppendOne(s: SS.State, cmdq: nat, owner: nat, d: Descriptor)
    ensures var (s', r) := SS.Enqueue(s, cmdq, owner, d);
      && (r.Failed? <==> Room(s, cmdq, owner) == 0)
      && (!r.Failed? ==> s' == Appended(s, cmdq, [d]) && Room(s', cmdq, owner) == Room(s, cmdq, owner) - 1)
  {
  }

  lemma AppendMore(s: SS.State, cmdq: nat, ds: seq<Descriptor>, d: Descriptor)
    ensures Appended(Appended(s, cmdq, ds), cmdq, [d]) == Appended(s, cmdq, ds + [d])
  {
    if cmdq in s.cmdqs {
      var q := s.cmdqs[cmdq].pending;
      assert q + ds + [d] == q + (ds + [d]) && (ds == [] ==> ds + [d] == [d]);
      assert Appended(Appended(s, cmdq, ds), cmdq, [d]).cmdqs == Appended(s, cmdq, ds + [d]).cmdqs;
    }
  }

  /** i descriptors have gone over: what is left of the window and of its descriptors, and the surface. */
  ghost predicate Moved(w: seq<nat>, ds: seq<Descriptor>, s: SS.State, cmdq: nat, owner: nat, i: nat,
                        left: seq<nat>, rest: seq<Descriptor>, s': SS.State)
  {
    && i <= |w| && i <= |ds| && left == w[i..] && rest == ds[i..]
    && s' == Appended(s, cmdq, ds[..i]) && Room(s', cmdq, owner) + i == Room(s, cmdq, owner)
  }

  lemma MovedStep(w: seq<nat>, ds: seq<Descriptor>, s: SS.State, cmdq: nat, owner: nat, i: nat,
                  left: seq<nat>, rest: seq<Descriptor>, s': SS.State, s'': SS.State)
    requires Moved(w, ds, s, cmdq, owner, i, left, rest, s') && left != [] && rest != []
    requires s'' == Appended(s', cmdq, [rest[0]]) && Room(s'', cmdq, owner) + 1 == Room(s', cmdq, owner)
    ensures Moved(w, ds, s, cmdq, owner, i + 1, left[1..], rest[1..], s'')
  {
    AppendMore(s, cmdq, ds[..i], ds[i]);
    assert ds[..i + 1] == ds[..i] + [ds[i]];
  }

  /** The surface after a doorbell for n descriptors, and what went wrong. */
  function AfterRing(cfg: SS.Config, s: SS.State, cmdq: nat, owner: nat, n: nat): SS.State {
    SS.Ring(cfg, s, cmdq, owner, Some(n)).0
  }

  function DoorbellError(cfg: SS.Config, s: SS.State, cmdq: nat, owner: nat, n: nat): Option<SimError> {
    var r := SS.Ring(cfg, s, cmdq, owner, Some(n)).1;
    if r.Failed? then Some(r.error) else None
  }

  /** The oldest n of a command queue's descriptors leave it. */
  lemma PoppedAppended(s: SS.State, cmdq: nat, ds: seq<Descriptor>, n: nat)
    requires cmdq in s.cmdqs && n <= |s.cmdqs[cmdq].pending + ds|
    ensures var q := s.cmdqs[cmdq];
      && Appended(s, cmdq, ds).cmdqs[cmdq] == q.(pending := q.pending + ds)
      && SS.Popped(Appended(s, cmdq, ds), cmdq, n) ==
           s.(cmdqs := s.cmdqs[cmdq := q.(pending := (q.pending + ds)[n..])])
  {
    var q := s.cmdqs[cmdq];
    if ds == [] { assert q.pending + ds == q.pending; }
    assert SS.Popped(Appended(s, cmdq, ds), cmdq, n).cmdqs == s.cmdqs[cmdq := q.(pending := (q.pending + ds)[n..])];
  }

  /**
   Appending a batch and ringing for as many stages the oldest waiting descriptors: the batch
   itself, in publication order, when nothing was left behind by an earlier failed doorbell.
   */
  lemma RingsOldest(cfg: SS.Config, s: SS.State, cmdq: nat, owner: nat, ds: seq<Descriptor>)
    requires cmdq in s.cmdqs && s.cmdqs[cmdq].owner == owner && |ds| <= SS.Free(cfg, s)
    ensures DoorbellError(cfg, Appended(s, cmdq, ds), cmdq, owner, |ds|) == None
    ensures var q := s.cmdqs[cmdq];
      var all := q.pending + ds;
      && AfterRing(cfg, Appended(s, cmdq, ds), cmdq, owner, |ds|) ==
           SS.Stage(cfg, s.(cmdqs := s.cmdqs[cmdq := q.(pending := all[|ds|..])]), q.cq, all[..|ds|])
      && (q.pending == [] ==> all[..|ds|] == ds && s.(cmdqs := s.cmdqs[cmdq := q.(pending := all[|ds|..])]) == s)
  {
    var q := s.cmdqs[cmdq];
    PoppedAppended(s, cmdq, ds, |ds|);
    if q.pending == [] {
      assert q.pending + ds == ds;
      assert ds[|ds|..] == [] && q.(pending := []) == q;
      assert s.cmdqs[cmdq := q] == s.cmdqs;
    }
  }

  /** What polling hands to a completion ring with the given number of free slots. */
  function Polled(cfg: SS.Config, s: SS.State, cq: nat, owner: nat, room: nat): seq<CompletionEvent> {
    var r := SS.Poll(cfg, s, cq, owner, Some(room)).1;
    if room > 0 && r.Completions? then r.events else []
  }

  function PollError(cfg: SS.Config, s: SS.State, cq: nat, owner: nat, room: nat): Option<SimError> {
    var r := SS.Poll(cfg, s, cq, owner, Some(room)).1;
    if room > 0 && r.Failed? then Some(r.error) else None
  }

  function AfterPoll(cfg: SS.Config, s: SS.State, cq: nat, owner: nat, room: nat): SS.State {
    if room > 0 then SS.Poll(cfg, s, cq, owner, Some(room)).0 else s
  }

  /** The counts a doorbell answers with. */
  function DoorbellCounts(cfg: SS.Config, s: SS.State, cmdq: nat, owner: nat, n: nat): (nat, nat) {
    var r := SS.Ring(cfg, s, cmdq, owner, Some(n)).1;
    if r.DoorbellRung? then (r.submitted, r.pending) else (0, 0)
  }

  /** Ringing for n and refilling the ring meets no error. */
  predicate Clean(cfg: SS.Config, s: SS.State, cmdq: nat, cq: nat, owner: nat, n: nat, room: nat, slotBytes: nat) {
    var s' := AfterRing(cfg, s, cmdq, owner, n);
    var events := Polled(cfg, s', cq, owner, room);
    && DoorbellError(cfg, s, cmdq, owner, n) == None && PollError(cfg, s', cq, owner, room) == None
    && Writable(events, slotBytes) == |events|
  }

  /** Ringing for n and refilling the ring: the new surface, and the completions the ring gains. */
  function Refilled(cfg: SS.Config, s: SS.State, cmdq: nat, cq: nat, owner: nat, n: nat, room: nat, slotBytes: nat):
      (SS.State, seq<CompletionEvent>)
  {
    var s' := AfterRing(cfg, s, cmdq, owner, n);
    if DoorbellError(cfg, s, cmdq, owner, n).Some? then (s', [])
    else
      var events := Polled(cfg, s', cq, owner, room);
      (AfterPoll(cfg, s', cq, owner, room), events[..Writable(events, slotBytes)])
  }

  /** How many of the n requested descriptors a doorbell moves over before it stops. */
  function Moves(s: SS.State, cmdq: nat, owner: nat, published: seq<Descriptor>, n: nat): (k: nat)
    ensures k <= n && k <= |published|
  {
    Min(n, Min(|published|, Room(s, cmdq, owner)))
  }

  /**
   What a doorbell does: the descriptors it moves over, the surface it leaves, the completions
   the ring gains, whether it succeeds, the counts a batch that is not empty then answers with,
   and whether it raises the completion interrupt when the ring is not empty.
   */
  datatype Effect = Effect(moved: nat, surface: SS.State, gained: seq<CompletionEvent>, clean: bool,
                           counts: (nat, nat), raises: bool)

  function RefillEffect(cfg: SS.Config, s: SS.State, cmdq: nat, cq: nat, owner: nat, k: nat, room: nat,
                        slotBytes: nat): Effect
  {
    var (s', gained) := Refilled(cfg, s, cmdq, cq, owner, k, room, slotBytes);
    var clean := Clean(cfg, s, cmdq, cq, owner, k, room, slotBytes);
    Effect(k, s', gained, clean, DoorbellCounts(cfg, s, cmdq, owner, k), clean && room > 0)
  }

  /** After k of n descriptors went over to s: a full batch is rung and the ring refilled, a short one is left. */
  function Finished(cfg: SS.Config, s: SS.State, cmdq: nat, cq: nat, owner: nat, k: nat, n: nat, room: nat,
                    slotBytes: nat): Effect
  {
    if k < n then Effect(k, s, [], false, (0, 0), false)
    else if n == 0 then Effect(k, s, [], true, (0, 0), false)
    else RefillEffect(cfg, s, cmdq, cq, owner, k, room, slotBytes)
  }

  /** A doorbell for n of the published descriptors. */
  function Rung(cfg: SS.Config, s: SS.State, cmdq: nat, cq: nat, owner: nat, published: seq<Descriptor>, n: nat,
                room: nat, slotBytes: nat): Effect
  {
    var k := Moves(s, cmdq, owner, published, n);
    Finished(cfg, Appended(s, cmdq, published[..k]), cmdq, cq, owner, k, n, room, slotBytes)
  }

  /**
   A batch that is published and readable and fits both queues goes all the way: it leaves the
   ring, is staged in publication order for the command queue's completion queue, and the
   completion ring gains what a poll of its free slots then returns, as far as it can be written.
   */
  lemma FullBatch(cfg: SS.Config, s: SS.State, cmdq: nat, cq: nat, owner: nat, published: seq<Descriptor>, n: nat,
                  room: nat, slotBytes: nat)
    requires 0 < n <= |published| && n <= Room(s, cmdq, owner) && n <= SS.Free(cfg, s)
    requires cmdq in s.cmdqs && s.cmdqs[cmdq].pending == []
    ensures var f := Rung(cfg, s, cmdq, cq, owner, published, n, room, slotBytes);
      var staged := SS.Stage(cfg, s, s.cmdqs[cmdq].cq, published[..n]);
      var events := Polled(cfg, staged, cq, owner, room);
      && f.moved == n && f.surface == AfterPoll(cfg, staged, cq, owner, room)
      && f.gained == events[..Writable(events, slotBytes)]
      && (f.clean <==> PollError(cfg, staged, cq, owner, room) == None && Writable(events, slotBytes) == |events|)
  {
    var ds := published[..n];
    RingsOldest(cfg, s, cmdq, owner, ds);
    assert (s.cmdqs[cmdq].pending + ds)[..|ds|] == ds;
  }

  /** All of an endpoint a register write could touch: ring positions, slots, interrupt bits, completions, surface. */
  datatype Snapshot = Snapshot(
    tail: nat, window: seq<nat>, cmdSlots: seq<seq<byte>>, cmdValid: seq<bool>, head: nat,
    contents: seq<CompletionEvent>, cqSlots: seq<seq<byte>>, cqValid: seq<bool>,
    completionIrq: bool, errorIrq: bool, surface: SS.State)

  /** A new command tail: the window grows up to it, or nothing changes. */
  ghost predicate TailWritten(s: Snapshot, s': Snapshot, newTail: nat, r: Result<(), DeviceError>) {
    var depth := |s.cmdSlots|;
    && r == TailAnswer(s.tail, |s.window|, newTail, depth)
    && (r.Err? ==> s' == s)
    && (r.Ok? ==> s.window <= s'.window && |s'.window| == |s.window| + Distance(s.tail, newTail, depth)
                  && s' == s.(tail := newTail, window := s'.window))
  }

  /** A new completion head: the completions before it are retired, or nothing changes. */
  predicate HeadWritten(s: Snapshot, s': Snapshot, newHead: nat, r: Result<(), DeviceError>) {
    var depth := |s.cqSlots|;
    && r == HeadAnswer(s.head, |s.contents|, newHead, depth)
    && s' == if r.Err? then s else s.(head := newHead, contents := Retired(s.contents, s.head, newHead, depth))
  }

  /** A doorbell: what was moved has left the command ring, and the rest is as the effect says. */
  predicate DoorbellWritten(s: Snapshot, f: Effect, s': Snapshot, ok: bool) {
    && (ok <==> f.clean)
    && f.moved <= |s.window| && s'.window == s.window[f.moved..] && s'.tail == s.tail && s'.cmdSlots == s.cmdSlots
    && s'.surface == f.surface
    && s'.contents == s.contents + f.gained && s'.head == s.head
    && s'.completionIrq == (s.completionIrq || (f.raises && s'.contents != [])) && s'.errorIrq == s.errorIrq
  }

  /** An acknowledgement: the two interrupt bits it names are cleared, and nothing else changes. */
  predicate Acknowledged(s: Snapshot, s': Snapshot, value: nat) {
    s' == s.(completionIrq := s.completionIrq && !AcksCompletion(value), errorIrq := s.errorIrq && !AcksError(value))
  }

  /** What a write to each register does; f is what a doorbell would do. */
  ghost predicate Dispatched(s: Snapshot, f: Effect, s': Snapshot, reg: Register, value: nat,
                             r: Result<(), DeviceError>)
  {
    if reg.CmdqTail? then TailWritten(s, s', value, r)
    else if reg.CqHead? then HeadWritten(s, s', value, r)
    else if reg.Doorbell? then DoorbellWritten(s, f, s', r.Ok?)
    else if reg.IrqAck? then r == Ok(()) && Acknowledged(s, s', value)
    else r == Err(ReadOnlyRegister) && s' == s
  }

  /** Identifiers and times of the events in a queue are machine words. */
  ghost predicate WordSized(events: seq<CompletionEvent>) { forall e :: e in events ==> EventOk(e) }

  class Endpoint {
    const memory: GuestRingMemory
    const cfg: SS.Config
    const entity: nat
    const cq: nat
    const cmdq: nat
    var cmdqHead: nat
    var cmdqTail: nat
    var cmdqCount: nat
    var cqHead: nat
    var cqTail: nat
    var cqCount: nat
    var completionIrq: bool  // the COMPLETION bit of the interrupt status
    var errorIrq: bool       // the ERROR bit
    var surface: SS.State  // changed only by the functions GuestSurface is proved equal to
    ghost var contents: seq<CompletionEvent>  // the completion ring as the FIFO it implements

    function CqDepth(): nat reads memory`cqSlots { |memory.cqSlots| }
    function CmdDepth(): nat reads memory`cmdSlots { |memory.cmdSlots| }

    ghost predicate CqOk()
      reads this`cqHead, this`cqTail, this`cqCount, this`contents, memory
    {
      && memory.Valid() && RingOk(cqHead, cqTail, cqCount, CqDepth())
      && Holds(memory.cqSlots, memory.cqValid, CqWindow(), contents)
    }

    ghost predicate CmdOk()
      reads this`cmdqHead, this`cmdqTail, this`cmdqCount, memory
    {
      memory.Valid() && RingOk(cmdqHead, cmdqTail, cmdqCount, CmdDepth())
    }

    ghost predicate Valid()
      reads this`cqHead, this`cqTail, this`cqCount, this`contents, this`cmdqHead, this`cmdqTail, this`cmdqCount, memory
    {
      CqOk() && CmdOk()
    }

    function CqWindow(): seq<nat>
      reads this`cqHead, this`cqTail, this`cqCount, memory`cqSlots
      requires RingOk(cqHead, cqTail, cqCount, CqDepth())
    {
      Window(cqHead, cqCount, CqDepth())
    }

    function CmdWindow(): seq<nat>
      reads this`cmdqHead, this`cmdqTail, this`cmdqCount, memory`cmdSlots
      requires RingOk(cmdqHead, cmdqTail, cmdqCount, CmdDepth())
    {
      Window(cmdqHead, cmdqCount, CmdDepth())
    }

    ghost function Now(): Snapshot
      reads this, memory
      requires CmdOk()
    {
      Snapshot(cmdqTail, CmdWindow(), memory.cmdSlots, memory.cmdValid, cqHead, contents, memory.cqSlots,
               memory.cqValid, completionIrq, errorIrq, surface)
    }

    constructor (cmdDepth: nat, cqDepth: nat, slotBytes: nat, cfg: SS.Config, surface: SS.State, entity: nat, cq: nat,
                 cmdq: nat)
      ensures Valid() && contents == [] && CmdWindow() == [] && fresh(memory)
      ensures this.cfg == cfg && this.surface == surface && this.entity == entity && this.cq == cq && this.cmdq == cmdq
      ensures memory.slotBytes == slotBytes && CmdDepth() == cmdDepth && CqDepth() == cqDepth
    {
      memory := new GuestRingMemory(cmdDepth, cqDepth, slotBytes);
      this.cfg, this.surface, this.entity, this.cq, this.cmdq := cfg, surface, entity, cq, cmdq;
      cmdqHead, cmdqTail, cmdqCount, cqHead, cqTail, cqCount := 0, 0, 0, 0, 0, 0;
      completionIrq, errorIrq := false, false;
      contents := [];
    }

    // ----- Register writes ---------------------------------------------------------------

    /** Publishing descriptors: the window grows at its tail, never past the depth. */
    method MmioWriteCmdqTail(newTail: nat) returns (r: Result<(), DeviceError>)
      requires Valid()
      modifies this`cmdqTail, this`cmdqCount
      ensures Valid() && TailWritten(old(Now()), Now(), newTail, r)
    {
      var depth := |memory.cmdSlots|;
      if newTail >= depth {
        return Err(TailOutOfRange);
      }
      var advance := if newTail >= cmdqTail then newTail - cmdqTail else depth - cmdqTail + newTail;
      if cmdqCount + advance > depth {
        return Err(QueueOverflow);
      }
      PublishWindow(cmdqHead, cmdqTail, cmdqCount, newTail, depth);
      cmdqTail := newTail;
      cmdqCount := cmdqCount + advance;
      return Ok(());
    }

    /** Retiring completions by moving the head: the oldest ones go, the rest stay in order. */
    method MmioWriteCqHead(newHead: nat) returns (r: Result<(), DeviceError>)
      requires CqOk()
      modifies this`cqHead, this`cqCount, this`contents
      ensures CqOk() && r == HeadAnswer(old(cqHead), old(cqCount), newHead, CqDepth())
      ensures r.Err? ==> contents == old(contents) && cqHead == old(cqHead)
      ensures r.Ok? ==> cqHead == newHead && |old(contents)| == old(cqCount)
                          && contents == old(contents)[Distance(old(cqHead), newHead, CqDepth())..]
    {
      var depth := |memory.cqSlots|;
      if newHead >= depth {
        return Err(HeadOutOfRange);
      }
      var advance := if newHead >= cqHead then newHead - cqHead else depth - cqHead + newHead;
      if advance > cqCount {
        return Err(HeadExceedsPending);
      }
      RetireTo(newHead, advance);
      return Ok(());
    }

    method RetireTo(newHead: nat, advance: nat)
      requires CqOk() && newHead < CqDepth() && advance == Distance(cqHead, newHead, CqDepth()) && advance <= cqCount
      modifies this`cqHead, this`cqCount, this`contents
      ensures CqOk() && cqHead == newHead && |old(contents)| == old(cqCount) && contents == old(contents)[advance..]
    {
      ghost var w := CqWindow();
      RetireWindow(cqHead, cqTail, cqCount, newHead, CqDepth());
      HoldsDrop(memory.cqSlots, memory.cqValid, w, contents, advance);
      Retire(advance);
      assert cqHead == newHead && CqWindow() == w[advance..];
    }

    /** Steps the head over the n oldest completions. */
    method Retire(n: nat)
      requires RingOk(cqHead, cqTail, cqCount, CqDepth()) && n <= cqCount && n < CqDepth() && n <= |contents|
      modifies this`cqHead, this`cqCount, this`contents
      ensures cqHead == Slot(old(cqHead), n, CqDepth()) && cqCount == old(cqCount) - n && contents == old(contents)[n..]
    {
      for i := 0 to n
        invariant cqHead == Slot(old(cqHead), i, CqDepth()) && cqCount == old(cqCount) - i && contents == old(contents)
      {
        cqHead := NextSlot(cqHead, |memory.cqSlots|);
        cqCount := cqCount - 1;
      }
      contents := contents[n..];
    }

    method WriteCmdDescriptor(slot: nat, d: Descriptor) returns (r: Result<(), DeviceError>)
      requires Valid()
      modifies memory`cmdSlots, memory`cmdValid
      ensures Valid() && CmdWindow() == old(CmdWindow()) && contents == old(contents)
      ensures CmdDepth() == old(CmdDepth())
      ensures r.Ok? <==> slot < CmdDepth() && EncodeDescriptor(d, memory.slotBytes).Ok?
      ensures r.Ok? ==> memory.cmdSlots == old(memory.cmdSlots)[slot := EncodeDescriptor(d, memory.slotBytes).value]
      ensures r.Ok? ==> memory.cmdValid == old(memory.cmdValid)[slot := true]
      ensures r.Err? ==> memory.cmdSlots == old(memory.cmdSlots) && memory.cmdValid == old(memory.cmdValid)
    {
      var done := memory.WriteCmdSlot(slot, d);
      r := if done.Ok? then Ok(()) else Err(Ring(done.error));
    }

    // ----- Completions -------------------------------------------------------------------

    /** Takes the oldest completion; "missing completion in cq ring" cannot happen. */
    method PopCompletion() returns (e: CompletionEvent)
      requires CqOk() && cqCount > 0
      modifies this`cqHead, this`cqCount, this`contents, memory`cqValid
      ensures CqOk() && old(contents) == [e] + contents && cqCount == old(cqCount) - 1
    {
      var slot, depth := cqHead, |memory.cqSlots|;
      ghost var w := CqWindow();
      PopWindow(cqHead, cqTail, cqCount, depth);
      forall j | 1 <= j < |w| ensures w[j] != slot { WindowDistinct(cqHead, cqCount, depth, 0, j); }
      TakeOldest(memory.cqSlots, memory.cqValid, w, contents);
      var taken := memory.TakeCqSlot(slot);
      cqHead := NextSlot(cqHead, depth);
      cqCount := cqCount - 1;
      e := taken.value;
      contents := contents[1..];
    }

    /** Writes one completion at the tail, if it can be encoded. */
    method PushCompletion(e: CompletionEvent) returns (error: Option<RingError>)
      requires CqOk() && cqCount < CqDepth() && EventOk(e)
      modifies this`cqTail, this`cqCount, this`contents, memory`cqSlots, memory`cqValid
      ensures CqOk() && CqDepth() == old(CqDepth()) && (error == None <==> SlotFits(e, memory.slotBytes))
      ensures error == None ==> contents == old(contents) + [e] && cqCount == old(cqCount) + 1
      ensures error.Some? ==> contents == old(contents) && cqCount == old(cqCount)
    {
      var slot, depth := cqTail, |memory.cqSlots|;
      CompletionFits(e, memory.slotBytes);
      PushWindow(cqHead, cqTail, cqCount, depth);
      ghost var w, slots, valid := CqWindow(), memory.cqSlots, memory.cqValid;
      var done := memory.WriteCqSlot(slot, e);
      if done.Err? {
        return Some(done.error);
      }
      PutNewest(slots, valid, w, contents, slot, e, memory.slotBytes);
      cqTail := NextSlot(cqTail, depth);
      cqCount := cqCount + 1;
      contents := contents + [e];
      return None;
    }

    /** Writes events at the tail until one cannot be encoded. */
    method PushAll(events: seq<CompletionEvent>) returns (error: Option<RingError>)
      requires CqOk() && cqCount + |events| <= CqDepth() && WordSized(events)
      modifies this`cqTail, this`cqCount, this`contents, memory`cqSlots, memory`cqValid
      ensures CqOk() && CqDepth() == old(CqDepth())
      ensures error == None <==> Writable(events, memory.slotBytes) == |events|
      ensures contents == old(contents) + events[..Writable(events, memory.slotBytes)]
    {
      var i := 0;
      while i < |events|
        invariant 0 <= i <= |events| && CqOk() && CqDepth() == old(CqDepth()) && cqCount == old(cqCount) + i
        invariant contents == old(contents) + events[..i] && i <= Writable(events, memory.slotBytes)
      {
        WritableStep(events, memory.slotBytes, i);
        error := PushCompletion(events[i]);
        if error.Some? {
          return error;
        }
        Snoc(old(contents), events, i);
        i := i + 1;
      }
      return None;
    }

    /** Takes the n oldest completions. */
    method PopAll(n: nat) returns (events: seq<CompletionEvent>)
      requires CqOk() && n <= cqCount
      modifies this`cqHead, this`cqCount, this`contents, memory`cqValid
      ensures CqOk() && old(contents) == events + contents && |events| == n
    {
      events := [];
      for i := 0 to n
        invariant CqOk() && cqCount == old(cqCount) - i && old(contents) == events + contents && |events| == i
      {
        ghost var before := contents;
        var e := PopCompletion();
        Shift(old(contents), events, e, before, contents);
        events := events + [e];
      }
    }

    // ----- The surface behind the rings --------------------------------------------------

    function CqRoom(): nat
      reads this, memory
    {
      if cqCount < CqDepth() then CqDepth() - cqCount else 0
    }

    method PollSurface(room: nat) returns (error: Option<SimError>, events: seq<CompletionEvent>)
      requires room > 0
      modifies this`surface
      ensures surface == AfterPoll(cfg, old(surface), cq, entity, room)
      ensures events == Polled(cfg, old(surface), cq, entity, room) && |events| <= room
      ensures error == PollError(cfg, old(surface), cq, entity, room) && (error.Some? ==> events == [])
    {
      var (s, r) := SS.Poll(cfg, surface, cq, entity, Some(room));
      surface := s;
      if r.Failed? {
        return Some(r.error), [];
      }
      return None, r.events;
    }

    /** Writes polled completions into the ring and raises the interrupt. */
    method FillRing(events: seq<CompletionEvent>) returns (r: Result<(), DeviceError>)
      requires CqOk() && cqCount + |events| <= CqDepth() && WordSized(events)
      modifies this`cqTail, this`cqCount, this`contents, this`completionIrq, memory`cqSlots, memory`cqValid
      ensures CqOk() && CqDepth() == old(CqDepth())
      ensures contents == old(contents) + events[..Writable(events, memory.slotBytes)]
      ensures r.Ok? <==> Writable(events, memory.slotBytes) == |events|
      ensures r.Ok? ==> contents == old(contents) + events
      ensures completionIrq == (old(completionIrq) || (r.Ok? && contents != []))
    {
      var error := PushAll(events);
      if error.Some? {
        return Err(Ring(error.value));
      }
      if cqCount > 0 {
        completionIrq := true;
      }
      return Ok(());
    }

    /** Moves completions from the surface's queue into the free slots of the ring. */
    method FlushCqRing() returns (r: Result<(), DeviceError>)
      requires CqOk() && WordSized(Polled(cfg, surface, cq, entity, CqRoom()))
      modifies this`cqTail, this`cqCount, this`contents, this`completionIrq, this`surface, memory`cqSlots,
          memory`cqValid
      ensures CqOk() && CqDepth() == old(CqDepth())
      ensures surface == AfterPoll(cfg, old(surface), cq, entity, old(CqRoom()))
      ensures var events := Polled(cfg, old(surface), cq, entity, old(CqRoom()));
        && contents == old(contents) + events[..Writable(events, memory.slotBytes)]
        && (r.Ok? <==> PollError(cfg, old(surface), cq, entity, old(CqRoom())) == None
                         && Writable(events, memory.slotBytes) == |events|)
        && (r.Ok? ==> contents == old(contents) + events)
      ensures completionIrq == (old(completionIrq) || (r.Ok? && old(CqRoom()) > 0 && contents != []))
    {
      var available := CqRoom();
      r := Ok(());
      if available > 0 {
        var error, events := PollSurface(available);
        if error.Some? {
          r := Err(Backend(error.value));
        } else {
          r := FillRing(events);
        }
      }
    }

    /** poll_cq: refill the ring, then take completions off its front. */
    method PollCq(maxEntries: Option<nat>) returns (r: Result<seq<CompletionEvent>, DeviceError>)
      requires CqOk() && WordSized(Polled(cfg, surface, cq, entity, CqRoom()))
      modifies this`cqHead, this`cqTail, this`cqCount, this`contents, this`completionIrq, this`surface
      modifies memory`cqSlots, memory`cqValid
      ensures CqOk() && CqDepth() == old(CqDepth())
      ensures surface == AfterPoll(cfg, old(surface), cq, entity, old(CqRoom()))
      ensures r.Ok? ==> r.value + contents == old(contents) + Polled(cfg, old(surface), cq, entity, old(CqRoom()))
      ensures r.Ok? ==> |r.value| == SS.Limit(maxEntries, |r.value + contents|)
      ensures var events := Polled(cfg, old(surface), cq, entity, old(CqRoom()));
        var k := Writable(events, memory.slotBytes);
        (k < |events| ==> r.Err?) && (r.Err? ==> contents == old(contents) + events[..k])
    {
      ghost var polled := Polled(cfg, surface, cq, entity, CqRoom());
      var flushed := FlushCqRing();
      if flushed.Ok? {
        assert contents == old(contents) + polled;
        var events := PopUpTo(maxEntries);
        r := Ok(events);
      } else {
        r := Err(flushed.error);
      }
    }

    method PopUpTo(maxEntries: Option<nat>) returns (events: seq<CompletionEvent>)
      requires CqOk()
      modifies this`cqHead, this`cqCount, this`contents, memory`cqValid
      ensures CqOk() && old(contents) == events + contents && |events| == SS.Limit(maxEntries, |old(contents)|)
    {
      HoldsLength();
      events := PopAll(SS.Limit(maxEntries, cqCount));
    }

    lemma HoldsLength()
      requires CqOk()
      ensures |contents| == cqCount
    {
    }

    // ----- Doorbell ----------------------------------------------------------------------

    /** The descriptors the guest has published and that can be read, oldest first. */
    function Published(): seq<Descriptor>
      reads this`cmdqHead, this`cmdqTail, this`cmdqCount, memory
      requires CmdOk()
    {
      Readable(memory.cmdSlots, memory.cmdValid, CmdWindow())
    }

    /** Moves the oldest published descriptor to the surface's command queue. */
    method EnqueueOldest() returns (error: Option<DeviceError>)
      requires CmdOk() && cmdqCount > 0
      modifies this`cmdqHead, this`cmdqCount, this`surface, memory`cmdValid
      ensures CmdOk()
      ensures error == None <==> old(Published()) != [] && Room(old(surface), cmdq, entity) > 0
      ensures error == None ==>
                && CmdWindow() == old(CmdWindow())[1..] && Published() == old(Published())[1..]
                && surface == Appended(old(surface), cmdq, [old(Published())[0]])
                && Room(surface, cmdq, entity) == Room(old(surface), cmdq, entity) - 1
      ensures error.Some? ==> CmdWindow() == old(CmdWindow()) && Published() == [] && surface == old(surface)
    {
      var slot, depth := cmdqHead, |memory.cmdSlots|;
      ghost var w := CmdWindow();
      PopWindow(cmdqHead, cmdqTail, cmdqCount, depth);
      forall j | 1 <= j < |w| ensures w[j] != slot { WindowDistinct(cmdqHead, cmdqCount, depth, 0, j); }
      TakeHead(memory.cmdSlots, memory.cmdValid, w);
      var taken := memory.TakeCmdSlot(slot);
      if taken.Err? {
        return Some(Ring(taken.error));
      }
      AppendOne(surface, cmdq, entity, taken.value);
      var (s, answer) := SS.Enqueue(surface, cmdq, entity, taken.value);
      if answer.Failed? {
        return Some(Backend(answer.error));
      }
      surface := s;
      cmdqHead := NextSlot(cmdqHead, depth);
      cmdqCount := cmdqCount - 1;
      return None;
    }

    /** The batch loop of a doorbell: descriptors go over in publication order until one is unreadable or refused. */
    method EnqueueBatch(n: nat) returns (enqueued: nat, error: Option<DeviceError>)
      requires CmdOk() && n <= cmdqCount
      modifies this`cmdqHead, this`cmdqCount, this`surface, memory`cmdValid
      ensures CmdOk() && enqueued == Min(n, Min(|old(Published())|, Room(old(surface), cmdq, entity)))
      ensures surface == Appended(old(surface), cmdq, old(Published())[..enqueued])
      ensures CmdWindow() == old(CmdWindow())[enqueued..]
      ensures error == None <==> enqueued == n
      ensures Published() == if error == None then old(Published())[enqueued..] else []
    {
      ghost var w, ds, s, room := CmdWindow(), Published(), surface, Room(surface, cmdq, entity);
      enqueued, error := 0, None;
      while enqueued < n && error == None
        invariant CmdOk() && enqueued <= n && (error.Some? ==> enqueued < n)
        invariant error == None ==> Moved(w, ds, s, cmdq, entity, enqueued, CmdWindow(), Published(), surface)
        invariant error.Some? ==> Stopped(w, ds, s, room, enqueued)
        decreases error == None, n - enqueued
      {
        ghost var left, rest, s' := CmdWindow(), Published(), surface;
        error := EnqueueOldest();
        if error == None {
          MovedStep(w, ds, s, cmdq, entity, enqueued, left, rest, s', surface);
          enqueued := enqueued + 1;
        }
      }
    }

    /** The batch loop met a slot it could not read, or the command queue refused a descriptor. */
    ghost predicate Stopped(w: seq<nat>, ds: seq<Descriptor>, s: SS.State, room: nat, i: nat)
      reads this, memory
      requires CmdOk()
    {
      && i <= |w| && i <= |ds| && i <= room && (i == |ds| || i == room)
      && CmdWindow() == w[i..] && Published() == [] && surface == Appended(s, cmdq, ds[..i])
    }

    method RingSurface(n: nat) returns (error: Option<SimError>, counts: (nat, nat))
      modifies this`surface
      ensures surface == AfterRing(cfg, old(surface), cmdq, entity, n)
      ensures error == DoorbellError(cfg, old(surface), cmdq, entity, n)
      ensures counts == DoorbellCounts(cfg, old(surface), cmdq, entity, n)
    {
      var (s, answer) := SS.Ring(cfg, surface, cmdq, entity, Some(n));
      surface := s;
      if answer.Failed? {
        return Some(answer.error), (0, 0);
      }
      return None, (answer.submitted, answer.pending);
    }

    /** The surface, the completion ring and its interrupt are as an effect leaves them. */
    ghost predicate Does(f: Effect, before: seq<CompletionEvent>, irq: bool)
      reads this`surface, this`contents, this`completionIrq
    {
      && surface == f.surface && contents == before + f.gained
      && completionIrq == (irq || (f.raises && contents != []))
    }

    /** Rings the surface's doorbell for n descriptors and refills the completion ring. */
    method RingAndRefill(n: nat, ghost f: Effect) returns (r: Result<(nat, nat), DeviceError>)
      requires CqOk() && WordSized(Polled(cfg, AfterRing(cfg, surface, cmdq, entity, n), cq, entity, CqRoom()))
      requires f == RefillEffect(cfg, surface, cmdq, cq, entity, n, CqRoom(), memory.slotBytes)
      modifies this`cqTail, this`cqCount, this`contents, this`completionIrq, this`surface, memory`cqSlots,
          memory`cqValid
      ensures CqOk() && Does(f, old(contents), old(completionIrq))
      ensures (r.Ok? <==> f.clean) && (r.Ok? ==> r.value == f.counts)
    {
      var error, counts := RingSurface(n);
      if error.Some? {
        return Err(Backend(error.value));
      }
      var flushed := FlushCqRing();
      r := if flushed.Ok? then Ok(counts) else Err(flushed.error);
    }

    /** What follows the batch loop; f is what the doorbell does in all. */
    method FinishDoorbell(n: nat, enqueued: nat, error: Option<DeviceError>, ghost f: Effect)
      returns (r: Result<(nat, nat), DeviceError>)
      requires CqOk() && CmdOk() && enqueued <= n && (error == None <==> enqueued == n)
      requires WordSized(Polled(cfg, AfterRing(cfg, surface, cmdq, entity, enqueued), cq, entity, CqRoom()))
      requires f == Finished(cfg, surface, cmdq, cq, entity, enqueued, n, CqRoom(), memory.slotBytes)
      modifies this`cqTail, this`cqCount, this`contents, this`completionIrq, this`surface, memory`cqSlots,
          memory`cqValid
      ensures CqOk() && CmdOk() && CmdWindow() == old(CmdWindow())
      ensures Does(f, old(contents), old(completionIrq)) && (r.Ok? <==> f.clean)
      ensures r.Ok? ==> r.value == if n == 0 then (0, cmdqCount) else f.counts
    {
      if error.Some? {
        assert f == Effect(enqueued, surface, [], false, (0, 0), false);
        r := Err(error.value);
      } else if enqueued == 0 {
        assert f == Effect(enqueued, surface, [], true, (0, 0), false);
        r := Ok((0, cmdqCount));
      } else {
        r := RingAndRefill(enqueued, f);
      }
    }

    /** The command ring has lost as many of its oldest slots as an effect moves. */
    ghost predicate Advances(f: Effect, window: seq<nat>)
      reads this`cmdqHead, this`cmdqTail, this`cmdqCount, memory
      requires CmdOk()
    {
      f.moved <= |window| && CmdWindow() == window[f.moved..]
    }

    /** How many descriptors a doorbell asks for: the batch, or all, and no more than are pending. */
    function Asked(batch: Option<nat>): (n: nat)
      reads this
      ensures n <= cmdqCount
    {
      SS.Limit(batch, cmdqCount)
    }

    /** What the doorbell does in the present state. */
    function DoorbellEffect(batch: Option<nat>): Effect
      reads this, memory
      requires CmdOk()
    {
      Rung(cfg, surface, cmdq, cq, entity, Published(), Asked(batch), CqRoom(), memory.slotBytes)
    }

    /** What is polled for after ringing the doorbell for a batch are machine words. */
    ghost predicate BatchWordSized(batch: Option<nat>)
      reads this, memory
      requires CmdOk()
    {
      var k := Moves(surface, cmdq, entity, Published(), Asked(batch));
      WordSized(Polled(cfg, AfterRing(cfg, Appended(surface, cmdq, Published()[..k]), cmdq, entity, k), cq, entity,
          CqRoom()))
    }

    /**
     The doorbell.  If a slot of the batch is unreadable or refused, the earlier ones stay enqueued
     and are not rung; otherwise the whole batch is rung and the completion ring refilled.
     */
    method MmioRingDoorbell(batch: Option<nat>) returns (r: Result<(nat, nat), DeviceError>)
      requires CqOk() && CmdOk() && BatchWordSized(batch)
      modifies this`cmdqHead, this`cmdqCount, this`surface, memory`cmdValid
      modifies this`cqTail, this`cqCount, this`contents, this`completionIrq, memory`cqSlots, memory`cqValid
      ensures CqOk() && CmdOk()
      ensures Does(old(DoorbellEffect(batch)), old(contents), old(completionIrq))
      ensures Advances(old(DoorbellEffect(batch)), old(CmdWindow())) && (r.Ok? <==> old(DoorbellEffect(batch)).clean)
      ensures r.Ok? ==>
                r.value == if old(Asked(batch)) == 0 then (0, cmdqCount) else old(DoorbellEffect(batch)).counts
    {
      var n := Asked(batch);
      ghost var k, room := Moves(surface, cmdq, entity, Published(), n), CqRoom();
      ghost var s := Appended(surface, cmdq, Published()[..k]);
      ghost var f := DoorbellEffect(batch);
      assert f == Finished(cfg, s, cmdq, cq, entity, k, n, room, memory.slotBytes);
      var enqueued, error := EnqueueBatch(n);
      assert enqueued == k && surface == s && CqRoom() == room;
      r := FinishDoorbell(n, enqueued, error, f);
    }

    method WriteHead(value: nat) returns (r: Result<(), DeviceError>)
      requires Valid()
      modifies this`cqHead, this`cqCount, this`contents
      ensures Valid() && HeadWritten(old(Now()), Now(), value, r)
    {
      HoldsLength();
      r := MmioWriteCqHead(value);
    }

    method WriteDoorbell(batch: nat) returns (r: Result<(), DeviceError>)
      requires Valid() && BatchWordSized(Some(batch))
      modifies this`cmdqHead, this`cmdqCount, this`surface, memory`cmdValid
      modifies this`cqTail, this`cqCount, this`contents, this`completionIrq, memory`cqSlots, memory`cqValid
      ensures Valid() && DoorbellWritten(old(Now()), old(DoorbellEffect(Some(batch))), Now(), r.Ok?)
    {
      ghost var s, f := Now(), DoorbellEffect(Some(batch));
      var rung := MmioRingDoorbell(Some(batch));
      r := if rung.Ok? then Ok(()) else Err(rung.error);
      ghost var s' := Now();
      assert s'.window == s.window[f.moved..] && s'.surface == f.surface && s'.contents == s.contents + f.gained;
      assert DoorbellWritten(s, f, s', r.Ok?);
    }

    method MmioWriteIrqAck(value: nat)
      requires Valid()
      modifies this`completionIrq, this`errorIrq
      ensures Valid() && Acknowledged(old(Now()), Now(), value)
    {
      completionIrq := completionIrq && !AcksCompletion(value);
      errorIrq := errorIrq && !AcksError(value);
    }

    /** A refused write raises the error interrupt. */
    method SetLastError(r: Result<(), DeviceError>)
      requires Valid()
      modifies this`errorIrq
      ensures Valid() && Now() == old(Now()).(errorIrq := old(errorIrq) || r.Err?)
    {
      if r.Err? {
        errorIrq := true;
      }
    }

    method WriteRegister(reg: Register, value: nat) returns (r: Result<(), DeviceError>)
      requires Valid() && (reg.Doorbell? ==> BatchWordSized(Some(value)))
      modifies this, memory
      ensures Valid() && Dispatched(old(Now()), old(DoorbellEffect(Some(value))), Now(), reg, value, r)
    {
      if reg.CmdqTail? {
        r := MmioWriteCmdqTail(value);
      } else if reg.CqHead? {
        r := WriteHead(value);
      } else if reg.Doorbell? {
        r := WriteDoorbell(value);
      } else if reg.IrqAck? {
        MmioWriteIrqAck(value);
        r := Ok(());
      } else {
        r := Err(ReadOnlyRegister);
      }
    }

    /**
     Every register write, register by register: the tail publishes descriptors, the head
     retires completions, the doorbell moves, rings and refills, an acknowledgement clears the
     two interrupt bits it names, and every other register refuses.  Nothing else changes,
     except that a refusal raises the error interrupt.
     */
    method MmioWrite(reg: Register, value: nat) returns (r: Result<(), DeviceError>)
      requires Valid() && (reg.Doorbell? ==> BatchWordSized(Some(value)))
      modifies this, memory
      ensures Valid()
      ensures exists s :: Dispatched(old(Now()), old(DoorbellEffect(Some(value))), s, reg, value, r)
                          && Now() == s.(errorIrq := s.errorIrq || r.Err?)
    {
      r := WriteRegister(reg, value);
      SetLastError(r);
    }
  }
}
