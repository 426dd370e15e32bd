/** Guest ring memory (sim-qemu/src/memory.rs) and the arithmetic of its head/tail/count rings. */
module RingMemory {
  import opened SimCore
  import opened Utf8
  import opened Codec

  datatype RingError = SlotOutOfRange | MissingEntry | BadSlot(error: CodecError)

  // ----- Ring arithmetic -------------------------------------------------------------------

  /** The i-th slot from `head` on a ring. */
  function Slot(head: nat, i: nat, depth: nat): (s: nat)
    requires head < depth && i <= depth
    ensures s < depth
  {
    if head + i < depth then head + i else head + i - depth
  }

  /** The code's `(x + 1) % depth`, and in general `% depth` below twice the depth. */
  lemma SlotIsMod(head: nat, i: nat, depth: nat)
    requires head < depth && i <= depth
    ensures (head + i) % depth == Slot(head, i, depth)
  {
    var x := head + i;
    if x >= depth {
      assert x == depth * 1 + (x - depth);
      Uniquely(x, depth, 1, x - depth);
    } else {
      Uniquely(x, depth, 0, x);
    }
  }

  lemma Uniquely(x: int, d: int, q: int, r: int)
    requires d > 0 && 0 <= r < d && x == d * q + r
    ensures x % d == r
  {
    var k: int := x / d - q;
    assert k > 0 ==> d * k >= d;
    assert k < 0 ==> d * k <= -d;
    assert x == d * (x / d) + x % d;
    assert d * k == r - x % d;
  }

  /** The next position on a ring. */
  method NextSlot(pos: nat, depth: nat) returns (next: nat)
    requires pos < depth
    ensures next == Slot(pos, 1, depth)
  {
    SlotIsMod(pos, 1, depth);
    next := (pos + 1) % depth;
  }

  /** head, tail and count describe a window of `count` slots starting at head and ending before tail. */
  predicate RingOk(head: nat, tail: nat, count: nat, depth: nat) {
    && count <= depth
    && if depth == 0 then head == 0 && tail == 0 else head < depth && tail < depth && tail == Slot(head, count, depth)
  }

  /** The slots of the window, oldest first. */
  function Window(head: nat, count: nat, depth: nat): (w: seq<nat>)
    requires count <= depth && (depth > 0 ==> head < depth)
    ensures |w| == count && forall i :: 0 <= i < count ==> w[i] == Slot(head, i, depth)
  {
    seq(count, i requires 0 <= i < count => Slot(head, i, depth))
  }

  /** No slot occurs twice in a window. */
  lemma WindowDistinct(head: nat, count: nat, depth: nat, i: nat, j: nat)
    requires head < depth && count <= depth && i < j < count
    ensures Slot(head, i, depth) != Slot(head, j, depth)
  {
  }

  /** Popping moves the head one slot on and drops the oldest slot of the window. */
  lemma PopWindow(head: nat, tail: nat, count: nat, depth: nat)
    requires RingOk(head, tail, count, depth) && count > 0
    ensures var head' := Slot(head, 1, depth);
      && RingOk(head', tail, count - 1, depth)
      && Window(head', count - 1, depth) == Window(head, count, depth)[1..]
  {
  }

  /** Pushing at the tail adds that slot as the newest of the window, and it was outside before. */
  lemma PushWindow(head: nat, tail: nat, count: nat, depth: nat)
    requires RingOk(head, tail, count, depth) && count < depth
    ensures var tail' := Slot(tail, 1, depth);
      && RingOk(head, tail', count + 1, depth)
      && Window(head, count + 1, depth) == Window(head, count, depth) + [tail]
      && tail !in Window(head, count, depth)
  {
    forall i | 0 <= i < count ensures Slot(head, i, depth) != tail {
      WindowDistinct(head, count + 1, depth, i, count);
    }
  }

  /** How far a register write moves a position around the ring. */
  function Distance(from: nat, to: nat, depth: nat): nat
    requires from < depth && to < depth
  {
    if to >= from then to - from else depth - from + to
  }

  /** Publishing up to a new tail keeps the old window as a prefix. */
  lemma PublishWindow(head: nat, tail: nat, count: nat, newTail: nat, depth: nat)
    requires RingOk(head, tail, count, depth) && newTail < depth
    requires count + Distance(tail, newTail, depth) <= depth
    ensures var count' := count + Distance(tail, newTail, depth);
      RingOk(head, newTail, count', depth) && Window(head, count, depth) <= Window(head, count', depth)
  {
  }

  /** Retiring up to a new head drops exactly the oldest slots. */
  lemma RetireWindow(head: nat, tail: nat, count: nat, newHead: nat, depth: nat)
    requires RingOk(head, tail, count, depth) && newHead < depth && Distance(head, newHead, depth) <= count
    ensures var n := Distance(head, newHead, depth);
      RingOk(newHead, tail, count - n, depth) && Window(newHead, count - n, depth) == Window(head, count, depth)[n..]
  {
  }

  // ----- The slots -------------------------------------------------------------------------

  class GuestRingMemory {
    const slotBytes: nat
    var cmdSlots: seq<seq<byte>>
    var cmdValid: seq<bool>
    var cqSlots: seq<seq<byte>>
    var cqValid: seq<bool>

    ghost predicate Valid()
      reads this
    {
      |cmdSlots| == |cmdValid| && |cqSlots| == |cqValid|
    }

    constructor (cmdDepth: nat, cqDepth: nat, slotBytes: nat)
      ensures Valid() && this.slotBytes == slotBytes && |cmdSlots| == cmdDepth && |cqSlots| == cqDepth
      ensures forall i :: 0 <= i < cmdDepth ==> !cmdValid[i]
      ensures forall i :: 0 <= i < cqDepth ==> !cqValid[i]
    {
      this.slotBytes := slotBytes;
      cmdSlots := seq(cmdDepth, i => Zeros(slotBytes));
      cmdValid := seq(cmdDepth, i => false);
      cqSlots := seq(cqDepth, i => Zeros(slotBytes));
      cqValid := seq(cqDepth, i => false);
    }

    method WriteCmdSlot(slot: nat, d: Descriptor) returns (r: Result<(), RingError>)
      requires Valid()
      modifies this`cmdSlots, this`cmdValid
      ensures Valid() && |cmdSlots| == |old(cmdSlots)|
      ensures slot >= |cmdSlots| ==> r == Err(SlotOutOfRange)
      ensures slot < |cmdSlots| ==> (r.Ok? <==> EncodeDescriptor(d, slotBytes).Ok?)
      ensures r.Err? ==> cmdSlots == old(cmdSlots) && cmdValid == old(cmdValid)
      ensures r.Ok? ==> cmdSlots == old(cmdSlots)[slot := EncodeDescriptor(d, slotBytes).value]
      ensures r.Ok? ==> cmdValid == old(cmdValid)[slot := true]
    {
      if slot >= |cmdSlots| {
        return Err(SlotOutOfRange);
      }
      var bytes := EncodeDescriptor(d, slotBytes);
      if bytes.Err? {
        return Err(BadSlot(bytes.error));
      }
      cmdSlots := cmdSlots[slot := bytes.value];
      cmdValid := cmdValid[slot := true];
      return Ok(());
    }

    method TakeCmdSlot(slot: nat) returns (r: Result<Descriptor, RingError>)
      requires Valid()
      modifies this`cmdValid
      ensures Valid()
      ensures slot >= |cmdSlots| ==> r == Err(SlotOutOfRange) && cmdValid == old(cmdValid)
      ensures slot < |cmdSlots| && !old(cmdValid)[slot] ==> r == Err(MissingEntry) && cmdValid == old(cmdValid)
      ensures slot < |cmdSlots| && old(cmdValid)[slot] ==>
                cmdValid == old(cmdValid)[slot := false] && r == Decoded(DecodeDescriptor(cmdSlots[slot]))
    {
      if slot >= |cmdSlots| {
        return Err(SlotOutOfRange);
      }
      if !cmdValid[slot] {
        return Err(MissingEntry);
      }
      cmdValid := cmdValid[slot := false];
      r := Decoded(DecodeDescriptor(cmdSlots[slot]));
    }

    method WriteCqSlot(slot: nat, e: CompletionEvent) returns (r: Result<(), RingError>)
      requires Valid()
      modifies this`cqSlots, this`cqValid
      ensures Valid() && |cqSlots| == |old(cqSlots)|
      ensures slot >= |cqSlots| ==> r == Err(SlotOutOfRange)
      ensures slot < |cqSlots| ==> (r.Ok? <==> EncodeCompletion(e, slotBytes).Ok?)
      ensures r.Err? ==> cqSlots == old(cqSlots) && cqValid == old(cqValid)
      ensures r.Ok? ==> cqSlots == old(cqSlots)[slot := EncodeCompletion(e, slotBytes).value]
      ensures r.Ok? ==> cqValid == old(cqValid)[slot := true]
    {
      if slot >= |cqSlots| {
        return Err(SlotOutOfRange);
      }
      var bytes := EncodeCompletion(e, slotBytes);
      if bytes.Err? {
        return Err(BadSlot(bytes.error));
      }
      cqSlots := cqSlots[slot := bytes.value];
      cqValid := cqValid[slot := true];
      return Ok(());
    }

    method TakeCqSlot(slot: nat) returns (r: Result<CompletionEvent, RingError>)
      requires Valid()
      modifies this`cqValid
      ensures Valid()
      ensures slot >= |cqSlots| ==> r == Err(SlotOutOfRange) && cqValid == old(cqValid)
      ensures slot < |cqSlots| && !old(cqValid)[slot] ==> r == Err(MissingEntry) && cqValid == old(cqValid)
      ensures slot < |cqSlots| && old(cqValid)[slot] ==>
                cqValid == old(cqValid)[slot := false] && r == Decoded(DecodeCompletion(cqSlots[slot]))
    {
      if slot >= |cqSlots| {
        return Err(SlotOutOfRange);
      }
      if !cqValid[slot] {
        return Err(MissingEntry);
      }
      cqValid := cqValid[slot := false];
      r := Decoded(DecodeCompletion(cqSlots[slot]));
    }
  }

  function Decoded<T>(o: Result<T, CodecError>): Result<T, RingError> {
    if o.Ok? then Ok(o.value) else Err(BadSlot(o.error))
  }
}
