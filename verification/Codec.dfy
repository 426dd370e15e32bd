/**
 Slot codec of the guest rings (sim-qemu/src/types.rs): descriptors and completions as
 little-endian fields, padded with zeros to the slot size.

 Encoders take the bytes that follow (`tail`) and put the field in front of them; a
 cursor is the sequence of bytes not read yet.
 */
module Codec {
  import opened SimCore
  import opened Utf8

  datatype CodecError =
    | SlotUnderflow | PayloadExceedsSlot | StringTooLong | InvalidUtf8
    | InvalidTaskFlag | InvalidSegmentFlag | InvalidStringFlag
    | InvalidOpcode | InvalidKind | InvalidSource | InvalidStatus | RemoteNotSupported

  /** A value together with the rest of the cursor. */
  datatype Parsed<+T> = Got(value: T, rest: seq<byte>) | Bad(error: CodecError) {
    predicate IsFailure() { Bad? }
    function PropagateFailure<U>(): Parsed<U>
      requires Bad?
    {
      Bad(error)
    }
    function Extract(): (T, seq<byte>)
      requires Got?
    {
      (value, rest)
    }
  }

  // ----- Fixed-width integers --------------------------------------------------------------

  function Pow256(n: nat): nat { if n == 0 then 1 else 256 * Pow256(n - 1) }

  function LeBytes(v: nat, n: nat): (r: seq<byte>)
    ensures |r| == n
  {
    if n == 0 then [] else [v % 256] + LeBytes(v / 256, n - 1)
  }

  function FromLe(b: seq<byte>): nat { if b == [] then 0 else b[0] + 256 * FromLe(b[1..]) }

  lemma {:induction false} LeRoundTrip(v: nat, n: nat)
    requires v < Pow256(n)
    ensures FromLe(LeBytes(v, n)) == v
  {
    if n > 0 {
      LeRoundTrip(v / 256, n - 1);
      assert LeBytes(v, n)[1..] == LeBytes(v / 256, n - 1);
    }
  }

  predicate Fits32(v: nat) { v < Pow256(4) }
  predicate Fits64(v: nat) { v < Pow256(8) }

  function Take(b: seq<byte>, n: nat): Parsed<seq<byte>> {
    if n > |b| then Bad(SlotUnderflow) else Got(b[..n], b[n..])
  }

  function ReadUint(b: seq<byte>, n: nat): Parsed<nat> {
    var (bytes, rest) :- Take(b, n);
    Got(FromLe(bytes), rest)
  }

  function ReadU8(b: seq<byte>): Parsed<byte> {
    var (bytes, rest) :- Take(b, 1);
    Got(bytes[0], rest)
  }

  function WriteUint(v: nat, n: nat, tail: seq<byte>): seq<byte> { LeBytes(v, n) + tail }

  function WriteU8(v: byte, tail: seq<byte>): seq<byte> { [v] + tail }

  lemma UintTrip(v: nat, n: nat, tail: seq<byte>)
    requires v < Pow256(n)
    ensures ReadUint(WriteUint(v, n, tail), n) == Got(v, tail)
  {
    LeRoundTrip(v, n);
    assert WriteUint(v, n, tail)[..n] == LeBytes(v, n) && WriteUint(v, n, tail)[n..] == tail;
  }

  lemma U8Trip(v: byte, tail: seq<byte>)
    ensures ReadU8(WriteU8(v, tail)) == Got(v, tail)
  {
    assert WriteU8(v, tail)[1..] == tail;
  }

  // ----- Strings ---------------------------------------------------------------------------

  predicate ShortString(s: string) { |Encode(s)| <= 255 }

  function WriteString(s: string, tail: seq<byte>): seq<byte>
    requires ShortString(s)
  {
    WriteU8(|Encode(s)|, Encode(s) + tail)
  }

  function ReadString(b: seq<byte>): Parsed<string> {
    var (n, b1) :- ReadU8(b);
    var (bytes, rest) :- Take(b1, n);
    var s := Utf8.Decode(bytes);
    if s == None then Bad(InvalidUtf8) else Got(s.value, rest)
  }

  lemma StringTrip(s: string, tail: seq<byte>)
    requires ShortString(s)
    ensures ReadString(WriteString(s, tail)) == Got(s, tail)
  {
    U8Trip(|Encode(s)|, Encode(s) + tail);
    Utf8.RoundTrip(s);
    assert (Encode(s) + tail)[..|Encode(s)|] == Encode(s) && (Encode(s) + tail)[|Encode(s)|..] == tail;
  }

  // ----- Optional fields -------------------------------------------------------------------

  function WriteOptString(s: Option<string>, tail: seq<byte>): seq<byte>
    requires s.Some? ==> ShortString(s.value)
  {
    if s.Some? then WriteU8(1, WriteString(s.value, tail)) else WriteU8(0, tail)
  }

  function ReadOptString(b: seq<byte>): Parsed<Option<string>> {
    var (flag, b1) :- ReadU8(b);
    if flag == 0 then Got(None, b1)
    else if flag == 1 then
      var (s, rest) :- ReadString(b1);
      Got(Some(s), rest)
    else Bad(InvalidStringFlag)
  }

  lemma OptStringTrip(s: Option<string>, tail: seq<byte>)
    requires s.Some? ==> ShortString(s.value)
    ensures ReadOptString(WriteOptString(s, tail)) == Got(s, tail)
  {
    if s.Some? {
      U8Trip(1, WriteString(s.value, tail));
      StringTrip(s.value, tail);
    } else {
      U8Trip(0, tail);
    }
  }

  function WriteOptSegment(s: Option<nat>, tail: seq<byte>): seq<byte> {
    if s.Some? then WriteU8(1, WriteUint(s.value, 8, tail)) else WriteU8(0, tail)
  }

  function ReadOptSegment(b: seq<byte>): Parsed<Option<nat>> {
    var (flag, b1) :- ReadU8(b);
    if flag == 0 then Got(None, b1)
    else if flag == 1 then
      var (v, rest) :- ReadUint(b1, 8);
      Got(Some(v), rest)
    else Bad(InvalidSegmentFlag)
  }

  lemma OptSegmentTrip(s: Option<nat>, tail: seq<byte>)
    requires s.Some? ==> Fits64(s.value)
    ensures ReadOptSegment(WriteOptSegment(s, tail)) == Got(s, tail)
  {
    if s.Some? {
      U8Trip(1, WriteUint(s.value, 8, tail));
      UintTrip(s.value, 8, tail);
    } else {
      U8Trip(0, tail);
    }
  }

  // ----- Tasks -----------------------------------------------------------------------------

  predicate LevelsOk(levels: seq<nat>) { forall i :: 0 <= i < |levels| ==> Fits32(levels[i]) }

  predicate TaskOk(t: TaskKey) {
    Fits32(t.logicalSystem) && |t.levels| == 8 && LevelsOk(t.levels) && Fits32(t.scopeDepth) && Fits64(t.taskId)
  }

  function WriteLevels(levels: seq<nat>, tail: seq<byte>): seq<byte> {
    if levels == [] then tail else WriteUint(levels[0], 4, WriteLevels(levels[1..], tail))
  }

  function ReadLevels(b: seq<byte>, n: nat): Parsed<seq<nat>>
    decreases n
  {
    if n == 0 then Got([], b)
    else
      var (v, b1) :- ReadUint(b, 4);
      var (vs, rest) :- ReadLevels(b1, n - 1);
      Got([v] + vs, rest)
  }

  lemma {:induction false} LevelsTrip(levels: seq<nat>, tail: seq<byte>)
    requires LevelsOk(levels)
    ensures ReadLevels(WriteLevels(levels, tail), |levels|) == Got(levels, tail)
  {
    if levels != [] {
      UintTrip(levels[0], 4, WriteLevels(levels[1..], tail));
      LevelsTrip(levels[1..], tail);
      assert levels == [levels[0]] + levels[1..];
    }
  }

  function WriteTask(t: Option<TaskKey>, tail: seq<byte>): seq<byte> {
    if t.Some? then
      WriteU8(1, WriteUint(t.value.logicalSystem, 4,
        WriteLevels(t.value.levels, WriteUint(t.value.scopeDepth, 4, WriteUint(t.value.taskId, 8, tail)))))
    else WriteU8(0, tail)
  }

  function ReadTask(b: seq<byte>): Parsed<Option<TaskKey>> {
    var (flag, b1) :- ReadU8(b);
    if flag == 0 then Got(None, b1)
    else if flag == 1 then
      var (system, b2) :- ReadUint(b1, 4);
      var (levels, b3) :- ReadLevels(b2, 8);
      var (depth, b4) :- ReadUint(b3, 4);
      var (id, rest) :- ReadUint(b4, 8);
      Got(Some(TaskKey(system, levels, depth, id)), rest)
    else Bad(InvalidTaskFlag)
  }

  predicate OptTaskOk(t: Option<TaskKey>) { t.Some? ==> TaskOk(t.value) }

  lemma TaskTrip(t: Option<TaskKey>, tail: seq<byte>)
    requires OptTaskOk(t)
    ensures ReadTask(WriteTask(t, tail)) == Got(t, tail)
  {
    if t.Some? {
      var k := t.value;
      var b4 := WriteUint(k.taskId, 8, tail);
      var b3 := WriteUint(k.scopeDepth, 4, b4);
      var b2 := WriteLevels(k.levels, b3);
      U8Trip(1, WriteUint(k.logicalSystem, 4, b2));
      UintTrip(k.logicalSystem, 4, b2);
      LevelsTrip(k.levels, b3);
      UintTrip(k.scopeDepth, 4, b4);
      UintTrip(k.taskId, 8, tail);
    } else {
      U8Trip(0, tail);
    }
  }

  // ----- Descriptors -----------------------------------------------------------------------

  /** The field ranges Rust's types guarantee. */
  predicate DescriptorOk(d: Descriptor) {
    && OptTaskOk(d.task)
    && match d
       case Io(opId, _, entity, _, segment, _) => Fits64(opId) && Fits32(entity)
           && (segment.Some? ==> Fits64(segment.value))
       case ShmemPut(_, requester, segment, bytes) => Fits32(requester) && Fits64(segment) && Fits64(bytes)
       case ShmemGet(_, requester, segment, bytes) => Fits32(requester) && Fits64(segment) && Fits64(bytes)
       case DfsWrite(_, _, bytes) => Fits64(bytes)
       case DbPut(_, _, bytes) => Fits64(bytes)
       case _ => true
  }

  /** What refuses to be encoded whatever the slot size. */
  function Encodable(d: Descriptor): (r: Option<CodecError>) {
    match d
    case Io(_, _, _, opcode, _, block) =>
      if opcode.RemoteFetch? || opcode.RemoteStore? then Some(RemoteNotSupported)
      else if block.Some? && !ShortString(block.value) then Some(StringTooLong) else None
    case BlockWriteback(block, _) => if ShortString(block) then None else Some(StringTooLong)
    case DfsRead(_, path) => if ShortString(path) then None else Some(StringTooLong)
    case DfsWrite(_, path, _) => if ShortString(path) then None else Some(StringTooLong)
    case DbPut(_, key, _) => if ShortString(key) then None else Some(StringTooLong)
    case DbGet(_, key) => if ShortString(key) then None else Some(StringTooLong)
    case _ => None
  }

  function OpcodeByte(o: IoOpcode): byte
    requires !o.RemoteFetch? && !o.RemoteStore?
  {
    match o case ReadBlock => 1 case WriteBlock => 2 case Dispatch => 3
  }

  function WriteDescriptor(d: Descriptor, tail: seq<byte>): seq<byte>
    requires Encodable(d) == None
  {
    match d
    case Io(opId, task, entity, opcode, segment, block) =>
      WriteU8(1, WriteUint(opId, 8, WriteTask(task, WriteUint(entity, 4,
        WriteU8(OpcodeByte(opcode), WriteOptSegment(segment, WriteOptString(block, tail)))))))
    case BlockWriteback(block, task) => WriteU8(2, WriteTask(task, WriteString(block, tail)))
    case ShmemPut(task, requester, segment, bytes) =>
      WriteU8(3, WriteTask(task, WriteUint(requester, 4, WriteUint(segment, 8, WriteUint(bytes, 8, tail)))))
    case ShmemGet(task, requester, segment, bytes) =>
      WriteU8(4, WriteTask(task, WriteUint(requester, 4, WriteUint(segment, 8, WriteUint(bytes, 8, tail)))))
    case DfsRead(task, path) => WriteU8(5, WriteTask(task, WriteString(path, tail)))
    case DfsWrite(task, path, bytes) => WriteU8(6, WriteTask(task, WriteString(path, WriteUint(bytes, 8, tail))))
    case DbPut(task, key, bytes) => WriteU8(7, WriteTask(task, WriteString(key, WriteUint(bytes, 8, tail))))
    case DbGet(task, key) => WriteU8(8, WriteTask(task, WriteString(key, tail)))
  }

  function ReadIo(b: seq<byte>): Parsed<Descriptor> {
    var (opId, b1) :- ReadUint(b, 8);
    var (task, b2) :- ReadTask(b1);
    var (entity, b3) :- ReadUint(b2, 4);
    var (code, b4) :- ReadU8(b3);
    if code < 1 || code > 3 then Bad(InvalidOpcode)
    else
      var opcode := if code == 1 then ReadBlock else if code == 2 then WriteBlock else Dispatch;
      var (segment, b5) :- ReadOptSegment(b4);
      var (block, rest) :- ReadOptString(b5);
      Got(Io(opId, task, entity, opcode, segment, block), rest)
  }

  function ReadShmem(b: seq<byte>, put: bool): Parsed<Descriptor> {
    var (task, b1) :- ReadTask(b);
    var (requester, b2) :- ReadUint(b1, 4);
    var (segment, b3) :- ReadUint(b2, 8);
    var (bytes, rest) :- ReadUint(b3, 8);
    Got(if put then ShmemPut(task, requester, segment, bytes) else ShmemGet(task, requester, segment, bytes), rest)
  }

  /** Task, name and, for writes, a byte count. */
  function ReadNamed(b: seq<byte>, sized: bool): Parsed<(Option<TaskKey>, string, nat)> {
    var (task, b1) :- ReadTask(b);
    var (name, b2) :- ReadString(b1);
    if !sized then Got((task, name, 0), b2)
    else
      var (bytes, rest) :- ReadUint(b2, 8);
      Got((task, name, bytes), rest)
  }

  function ReadDescriptor(b: seq<byte>): Parsed<Descriptor> {
    var (kind, b1) :- ReadU8(b);
    if kind == 1 then ReadIo(b1)
    else if kind == 3 || kind == 4 then ReadShmem(b1, kind == 3)
    else if kind == 2 || 5 <= kind <= 8 then
      var (f, rest) :- ReadNamed(b1, kind == 6 || kind == 7);
      Got(FromNamed(kind, f.0, f.1, f.2), rest)
    else Bad(InvalidKind)
  }

  function FromNamed(kind: byte, task: Option<TaskKey>, name: string, bytes: nat): Descriptor {
    if kind == 2 then BlockWriteback(name, task)
    else if kind == 5 then DfsRead(task, name)
    else if kind == 6 then DfsWrite(task, name, bytes)
    else if kind == 7 then DbPut(task, name, bytes)
    else DbGet(task, name)
  }

  lemma IoTrip(d: Descriptor, tail: seq<byte>)
    requires d.Io? && DescriptorOk(d) && Encodable(d) == None
    ensures ReadDescriptor(WriteDescriptor(d, tail)) == Got(d, tail)
  {
    var b6 := WriteOptString(d.block, tail);
    var b5 := WriteOptSegment(d.segment, b6);
    var b4 := WriteU8(OpcodeByte(d.opcode), b5);
    var b3 := WriteUint(d.entity, 4, b4);
    var b2 := WriteTask(d.task, b3);
    U8Trip(1, WriteUint(d.opId, 8, b2));
    UintTrip(d.opId, 8, b2);
    TaskTrip(d.task, b3);
    UintTrip(d.entity, 4, b4);
    U8Trip(OpcodeByte(d.opcode), b5);
    OptSegmentTrip(d.segment, b6);
    OptStringTrip(d.block, tail);
  }

  lemma ShmemTrip(task: Option<TaskKey>, requester: nat, segment: nat, bytes: nat, tail: seq<byte>, put: bool)
    requires OptTaskOk(task) && Fits32(requester) && Fits64(segment) && Fits64(bytes)
    ensures ReadShmem(WriteTask(task, WriteUint(requester, 4, WriteUint(segment, 8, WriteUint(bytes, 8, tail)))), put)
         == Got(if put then ShmemPut(task, requester, segment, bytes)
             else ShmemGet(task, requester, segment, bytes), tail)
  {
    var b3 := WriteUint(bytes, 8, tail);
    var b2 := WriteUint(segment, 8, b3);
    TaskTrip(task, WriteUint(requester, 4, b2));
    UintTrip(requester, 4, b2);
    UintTrip(segment, 8, b3);
    UintTrip(bytes, 8, tail);
  }

  lemma NamedTrip(task: Option<TaskKey>, name: string, tail: seq<byte>)
    requires OptTaskOk(task) && ShortString(name)
    ensures ReadNamed(WriteTask(task, WriteString(name, tail)), false) == Got((task, name, 0), tail)
  {
    TaskTrip(task, WriteString(name, tail));
    StringTrip(name, tail);
  }

  lemma SizedTrip(task: Option<TaskKey>, name: string, bytes: nat, tail: seq<byte>)
    requires OptTaskOk(task) && ShortString(name) && Fits64(bytes)
    ensures ReadNamed(WriteTask(task, WriteString(name, WriteUint(bytes, 8, tail))), true)
        == Got((task, name, bytes), tail)
  {
    TaskTrip(task, WriteString(name, WriteUint(bytes, 8, tail)));
    StringTrip(name, WriteUint(bytes, 8, tail));
    UintTrip(bytes, 8, tail);
  }

  /** The kind byte selects the reader for the rest. */
  lemma NamedDispatch(kind: byte, b: seq<byte>, f: (Option<TaskKey>, string, nat), rest: seq<byte>)
    requires (kind == 2 || 5 <= kind <= 8) && ReadNamed(b, kind == 6 || kind == 7) == Got(f, rest)
    ensures ReadDescriptor(WriteU8(kind, b)) == Got(FromNamed(kind, f.0, f.1, f.2), rest)
  {
    U8Trip(kind, b);
  }

  lemma NamedKindTrip(kind: byte, task: Option<TaskKey>, name: string, tail: seq<byte>)
    requires (kind == 2 || kind == 5 || kind == 8) && OptTaskOk(task) && ShortString(name)
    ensures ReadDescriptor(WriteU8(kind, WriteTask(task, WriteString(name, tail))))
        == Got(FromNamed(kind, task, name, 0), tail)
  {
    NamedTrip(task, name, tail);
    NamedDispatch(kind, WriteTask(task, WriteString(name, tail)), (task, name, 0), tail);
  }

  lemma SizedKindTrip(kind: byte, task: Option<TaskKey>, name: string, bytes: nat, tail: seq<byte>)
    requires (kind == 6 || kind == 7) && OptTaskOk(task) && ShortString(name) && Fits64(bytes)
    ensures ReadDescriptor(WriteU8(kind, WriteTask(task, WriteString(name, WriteUint(bytes, 8, tail)))))
         == Got(FromNamed(kind, task, name, bytes), tail)
  {
    SizedTrip(task, name, bytes, tail);
    NamedDispatch(kind, WriteTask(task, WriteString(name, WriteUint(bytes, 8, tail))), (task, name, bytes), tail);
  }

  lemma ShmemDescriptorTrip(d: Descriptor, tail: seq<byte>)
    requires DescriptorOk(d) && (d.ShmemPut? || d.ShmemGet?)
    ensures ReadDescriptor(WriteDescriptor(d, tail)) == Got(d, tail)
  {
    ShmemTrip(d.task, d.requester, d.segmentId, d.bytes, tail, d.ShmemPut?);
    U8Trip(if d.ShmemPut? then 3 else 4,
           WriteTask(d.task, WriteUint(d.requester, 4, WriteUint(d.segmentId, 8, WriteUint(d.bytes, 8, tail)))));
  }

  lemma DescriptorTrip(d: Descriptor, tail: seq<byte>)
    requires DescriptorOk(d) && Encodable(d) == None
    ensures ReadDescriptor(WriteDescriptor(d, tail)) == Got(d, tail)
  {
    match d
    case Io(_, _, _, _, _, _) => IoTrip(d, tail);
    case ShmemPut(_, _, _, _) => ShmemDescriptorTrip(d, tail);
    case ShmemGet(_, _, _, _) => ShmemDescriptorTrip(d, tail);
    case BlockWriteback(block, task) => NamedKindTrip(2, task, block, tail);
    case DfsRead(task, path) => NamedKindTrip(5, task, path, tail);
    case DbGet(task, key) => NamedKindTrip(8, task, key, tail);
    case DfsWrite(task, path, bytes) => SizedKindTrip(6, task, path, bytes, tail);
    case DbPut(task, key, bytes) => SizedKindTrip(7, task, key, bytes, tail);
  }

  // ----- Completions -----------------------------------------------------------------------

  predicate EventOk(e: CompletionEvent) { Fits64(e.opId) && OptTaskOk(e.task) && Fits64(e.finishedAt) }

  predicate CodeOk(s: CompletionStatus) { !s.Success? ==> ShortString(s.code) }

  function SourceByte(s: CompletionSource): byte {
    match s
    case ChipBackend => 1 case BlockService => 2 case ShmemService => 3 case DfsService => 4
    case DbService => 5 case GuestUapi => 6 case RemoteNode => 7
  }

  function SourceFrom(b: byte): Option<CompletionSource> {
    if b == 1 then Some(ChipBackend) else if b == 2 then Some(BlockService) else if b == 3 then Some(ShmemService)
    else if b == 4 then Some(DfsService) else if b == 5 then Some(DbService) else if b == 6 then Some(GuestUapi)
    else if b == 7 then Some(RemoteNode) else None
  }

  function WriteStatus(s: CompletionStatus, tail: seq<byte>): seq<byte>
    requires CodeOk(s)
  {
    match s
    case Success => WriteU8(1, tail)
    case RetryableFailure(code) => WriteU8(2, WriteString(code, tail))
    case FatalFailure(code) => WriteU8(3, WriteString(code, tail))
  }

  function ReadStatus(b: seq<byte>): Parsed<CompletionStatus> {
    var (kind, b1) :- ReadU8(b);
    if kind == 1 then Got(Success, b1)
    else if kind == 2 || kind == 3 then
      var (code, rest) :- ReadString(b1);
      Got(if kind == 2 then RetryableFailure(code) else FatalFailure(code), rest)
    else Bad(InvalidStatus)
  }

  function WriteCompletion(e: CompletionEvent, tail: seq<byte>): seq<byte>
    requires CodeOk(e.status)
  {
    WriteUint(e.opId, 8, WriteTask(e.task, WriteU8(SourceByte(e.source),
        WriteStatus(e.status, WriteUint(e.finishedAt, 8, tail)))))
  }

  function ReadSource(b: seq<byte>): Parsed<CompletionSource> {
    var (s, rest) :- ReadU8(b);
    var source := SourceFrom(s);
    if source == None then Bad(InvalidSource) else Got(source.value, rest)
  }

  function ReadCompletion(b: seq<byte>): Parsed<CompletionEvent> {
    var (opId, b1) :- ReadUint(b, 8);
    var (task, b2) :- ReadTask(b1);
    var (source, b3) :- ReadSource(b2);
    var (status, b4) :- ReadStatus(b3);
    var (at, rest) :- ReadUint(b4, 8);
    Got(CompletionEvent(opId, task, source, status, at), rest)
  }

  lemma SourceTrip(s: CompletionSource, tail: seq<byte>)
    ensures ReadSource(WriteU8(SourceByte(s), tail)) == Got(s, tail)
  {
    U8Trip(SourceByte(s), tail);
  }

  lemma StatusTrip(s: CompletionStatus, tail: seq<byte>)
    requires CodeOk(s)
    ensures ReadStatus(WriteStatus(s, tail)) == Got(s, tail)
  {
    match s
    case Success => U8Trip(1, tail);
    case RetryableFailure(code) => U8Trip(2, WriteString(code, tail)); StringTrip(code, tail);
    case FatalFailure(code) => U8Trip(3, WriteString(code, tail)); StringTrip(code, tail);
  }

  lemma CompletionTrip(e: CompletionEvent, tail: seq<byte>)
    requires EventOk(e) && CodeOk(e.status)
    ensures ReadCompletion(WriteCompletion(e, tail)) == Got(e, tail)
  {
    var b4 := WriteUint(e.finishedAt, 8, tail);
    var b3 := WriteStatus(e.status, b4);
    var b2 := WriteU8(SourceByte(e.source), b3);
    UintTrip(e.opId, 8, WriteTask(e.task, b2));
    TaskTrip(e.task, b2);
    SourceTrip(e.source, b3);
    StatusTrip(e.status, b4);
    UintTrip(e.finishedAt, 8, tail);
  }

  // ----- Slots -----------------------------------------------------------------------------

  function Zeros(n: nat): (r: seq<byte>)
    ensures |r| == n
  {
    seq(n, i => 0)
  }

  /** pad_slot: refuse what is too long, fill the rest with zeros. */
  function PadSlot(buf: seq<byte>, slotBytes: nat): Result<seq<byte>, CodecError> {
    if |buf| > slotBytes then Err(PayloadExceedsSlot) else Ok(buf + Zeros(slotBytes - |buf|))
  }

  function EncodeDescriptor(d: Descriptor, slotBytes: nat): Result<seq<byte>, CodecError> {
    if Encodable(d).Some? then Err(Encodable(d).value) else PadSlot(WriteDescriptor(d, []), slotBytes)
  }

  function DecodeDescriptor(slot: seq<byte>): Result<Descriptor, CodecError> {
    var p := ReadDescriptor(slot);
    if p.Got? then Ok(p.value) else Err(p.error)
  }

  function EncodeCompletion(e: CompletionEvent, slotBytes: nat): Result<seq<byte>, CodecError> {
    if !CodeOk(e.status) then Err(StringTooLong) else PadSlot(WriteCompletion(e, []), slotBytes)
  }

  function DecodeCompletion(slot: seq<byte>): Result<CompletionEvent, CodecError> {
    var p := ReadCompletion(slot);
    if p.Got? then Ok(p.value) else Err(p.error)
  }

  lemma UintTail(v: nat, n: nat, a: seq<byte>, b: seq<byte>)
    ensures WriteUint(v, n, a + b) == WriteUint(v, n, a) + b
  {
  }

  lemma U8Tail(v: byte, a: seq<byte>, b: seq<byte>)
    ensures WriteU8(v, a + b) == WriteU8(v, a) + b
  {
  }

  lemma StringTail(s: string, a: seq<byte>, b: seq<byte>)
    requires ShortString(s)
    ensures WriteString(s, a + b) == WriteString(s, a) + b
  {
    assert Encode(s) + (a + b) == Encode(s) + a + b;
  }

  lemma {:induction false} LevelsTail(levels: seq<nat>, a: seq<byte>, b: seq<byte>)
    ensures WriteLevels(levels, a + b) == WriteLevels(levels, a) + b
  {
    if levels != [] {
      LevelsTail(levels[1..], a, b);
      UintTail(levels[0], 4, WriteLevels(levels[1..], a), b);
    }
  }

  lemma TaskTail(t: Option<TaskKey>, a: seq<byte>, b: seq<byte>)
    ensures WriteTask(t, a + b) == WriteTask(t, a) + b
  {
    if t.Some? {
      var k := t.value;
      var a4 := WriteUint(k.taskId, 8, a);
      var a3 := WriteUint(k.scopeDepth, 4, a4);
      var a2 := WriteLevels(k.levels, a3);
      UintTail(k.taskId, 8, a, b);
      UintTail(k.scopeDepth, 4, a4, b);
      LevelsTail(k.levels, a3, b);
      UintTail(k.logicalSystem, 4, a2, b);
      U8Tail(1, WriteUint(k.logicalSystem, 4, a2), b);
    } else {
      U8Tail(0, a, b);
    }
  }

  lemma StatusTail(s: CompletionStatus, a: seq<byte>, b: seq<byte>)
    requires CodeOk(s)
    ensures WriteStatus(s, a + b) == WriteStatus(s, a) + b
  {
    if s.Success? {
      U8Tail(1, a, b);
    } else {
      StringTail(s.code, a, b);
      U8Tail(if s.RetryableFailure? then 2 else 3, WriteString(s.code, a), b);
    }
  }

  lemma CompletionTail(e: CompletionEvent, tail: seq<byte>)
    requires CodeOk(e.status)
    ensures WriteCompletion(e, tail) == WriteCompletion(e, []) + tail
  {
    var a4 := WriteUint(e.finishedAt, 8, []);
    var a3 := WriteStatus(e.status, a4);
    var a2 := WriteU8(SourceByte(e.source), a3);
    assert [] + tail == tail;
    UintTail(e.finishedAt, 8, [], tail);
    StatusTail(e.status, a4, tail);
    U8Tail(SourceByte(e.source), a3, tail);
    TaskTail(e.task, a2, tail);
    UintTail(e.opId, 8, WriteTask(e.task, a2), tail);
  }

  lemma NamedTail(kind: byte, task: Option<TaskKey>, name: string, a: seq<byte>, tail: seq<byte>)
    requires ShortString(name)
    ensures WriteU8(kind, WriteTask(task, WriteString(name, a + tail)))
         == WriteU8(kind, WriteTask(task, WriteString(name, a))) + tail
  {
    StringTail(name, a, tail);
    TaskTail(task, WriteString(name, a), tail);
    U8Tail(kind, WriteTask(task, WriteString(name, a)), tail);
  }

  lemma IoTail(d: Descriptor, tail: seq<byte>)
    requires d.Io? && Encodable(d) == None
    ensures WriteDescriptor(d, tail) == WriteDescriptor(d, []) + tail
  {
    assert [] + tail == tail;
    var a6 := WriteOptString(d.block, []);
    if d.block.Some? {
      StringTail(d.block.value, [], tail);
      U8Tail(1, WriteString(d.block.value, []), tail);
    } else {
      U8Tail(0, [], tail);
    }
    var a5 := WriteOptSegment(d.segment, a6);
    if d.segment.Some? {
      UintTail(d.segment.value, 8, a6, tail);
      U8Tail(1, WriteUint(d.segment.value, 8, a6), tail);
    } else {
      U8Tail(0, a6, tail);
    }
    var a4 := WriteU8(OpcodeByte(d.opcode), a5);
    U8Tail(OpcodeByte(d.opcode), a5, tail);
    var a3 := WriteUint(d.entity, 4, a4);
    UintTail(d.entity, 4, a4, tail);
    TaskTail(d.task, a3, tail);
    UintTail(d.opId, 8, WriteTask(d.task, a3), tail);
    U8Tail(1, WriteUint(d.opId, 8, WriteTask(d.task, a3)), tail);
  }

  lemma ShmemTail(d: Descriptor, tail: seq<byte>)
    requires d.ShmemPut? || d.ShmemGet?
    ensures WriteDescriptor(d, tail) == WriteDescriptor(d, []) + tail
  {
    assert [] + tail == tail;
    var a3 := WriteUint(d.bytes, 8, []);
    var a2 := WriteUint(d.segmentId, 8, a3);
    var a1 := WriteUint(d.requester, 4, a2);
    UintTail(d.bytes, 8, [], tail);
    UintTail(d.segmentId, 8, a3, tail);
    UintTail(d.requester, 4, a2, tail);
    TaskTail(d.task, a1, tail);
    U8Tail(if d.ShmemPut? then 3 else 4, WriteTask(d.task, a1), tail);
  }

  lemma DescriptorTail(d: Descriptor, tail: seq<byte>)
    requires Encodable(d) == None
    ensures WriteDescriptor(d, tail) == WriteDescriptor(d, []) + tail
  {
    assert [] + tail == tail;
    match d
    case Io(_, _, _, _, _, _) => IoTail(d, tail);
    case ShmemPut(_, _, _, _) => ShmemTail(d, tail);
    case ShmemGet(_, _, _, _) => ShmemTail(d, tail);
    case BlockWriteback(block, task) => NamedTail(2, task, block, [], tail);
    case DfsRead(task, path) => NamedTail(5, task, path, [], tail);
    case DbGet(task, key) => NamedTail(8, task, key, [], tail);
    case DfsWrite(task, path, bytes) =>
      UintTail(bytes, 8, [], tail);
      NamedTail(6, task, path, WriteUint(bytes, 8, []), tail);
    case DbPut(task, key, bytes) =>
      UintTail(bytes, 8, [], tail);
      NamedTail(7, task, key, WriteUint(bytes, 8, []), tail);
  }

  /** Whatever the slot size and so whatever the padding, a descriptor that encodes decodes to itself. */
  lemma DescriptorRoundTrip(d: Descriptor, slotBytes: nat)
    requires DescriptorOk(d) && EncodeDescriptor(d, slotBytes).Ok?
    ensures |EncodeDescriptor(d, slotBytes).value| == slotBytes
    ensures DecodeDescriptor(EncodeDescriptor(d, slotBytes).value) == Ok(d)
  {
    var pad := Zeros(slotBytes - |WriteDescriptor(d, [])|);
    DescriptorTail(d, pad);
    DescriptorTrip(d, pad);
  }

  lemma CompletionRoundTrip(e: CompletionEvent, slotBytes: nat)
    requires EventOk(e) && EncodeCompletion(e, slotBytes).Ok?
    ensures |EncodeCompletion(e, slotBytes).value| == slotBytes
    ensures DecodeCompletion(EncodeCompletion(e, slotBytes).value) == Ok(e)
  {
    var pad := Zeros(slotBytes - |WriteCompletion(e, [])|);
    CompletionTail(e, pad);
    CompletionTrip(e, pad);
  }

  // ----- What fits -------------------------------------------------------------------------

  function CodeSize(s: CompletionStatus): nat { if s.Success? then 0 else 1 + |Encode(s.code)| }

  function TaskSize(t: Option<TaskKey>): nat { if t.Some? then 49 else 1 }

  function CompletionSize(e: CompletionEvent): nat { 18 + TaskSize(e.task) + CodeSize(e.status) }

  predicate SlotFits(e: CompletionEvent, slotBytes: nat) { CodeOk(e.status) && CompletionSize(e) <= slotBytes }

  lemma {:induction false} LevelsSize(levels: seq<nat>, tail: seq<byte>)
    ensures |WriteLevels(levels, tail)| == 4 * |levels| + |tail|
  {
    if levels != [] { LevelsSize(levels[1..], tail); }
  }

  lemma TaskBytes(t: Option<TaskKey>, tail: seq<byte>)
    requires OptTaskOk(t)
    ensures |WriteTask(t, tail)| == TaskSize(t) + |tail|
  {
    if t.Some? {
      LevelsSize(t.value.levels, WriteUint(t.value.scopeDepth, 4, WriteUint(t.value.taskId, 8, tail)));
    }
  }

  /** A completion encodes exactly when its code is short enough for a length byte and it fits the slot. */
  lemma CompletionFits(e: CompletionEvent, slotBytes: nat)
    requires EventOk(e)
    ensures EncodeCompletion(e, slotBytes).Ok? <==> SlotFits(e, slotBytes)
  {
    if CodeOk(e.status) {
      var b2 := WriteU8(SourceByte(e.source), WriteStatus(e.status, WriteUint(e.finishedAt, 8, [])));
      TaskBytes(e.task, b2);
      StatusBytes(e.status, WriteUint(e.finishedAt, 8, []));
    }
  }

  lemma StatusBytes(s: CompletionStatus, tail: seq<byte>)
    requires CodeOk(s)
    ensures |WriteStatus(s, tail)| == 1 + CodeSize(s) + |tail|
  {
  }

  /** A completion carrying a task needs at least 67 bytes, so it never fits the default 64-byte slot. */
  lemma TaskNeverFits64(e: CompletionEvent)
    requires EventOk(e) && e.task.Some?
    ensures CompletionSize(e) >= 67 && EncodeCompletion(e, 64).Err?
  {
    CompletionFits(e, 64);
  }
}
