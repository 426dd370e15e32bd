/** The wire layout of the ring slots: which field stands where, and the byte that names each case. */
module CodecLayout {
  import opened SimCore
  import opened Utf8
  import opened Codec

  /** A slot is the concatenation of its fields. */
  function Flat(parts: seq<seq<byte>>): seq<byte> {
    if parts == [] then [] else parts[0] + Flat(parts[1..])
  }

  /** Text is prefixed with its length in bytes. */
  function Text(s: string): seq<byte>
    requires ShortString(s)
  {
    [|Encode(s)|] + Encode(s)
  }

  // ----- Little-endian integers ------------------------------------------------------------

  lemma {:induction false} Pow256Positive(n: nat)
    ensures Pow256(n) > 0
  {
    if n > 0 { Pow256Positive(n - 1); }
  }

  lemma Multiples(d: nat, k: int)
    ensures k >= 1 ==> d * k >= d
    ensures k <= -1 ==> d * k + d <= 0
  {
  }

  lemma QuotientIs(d: nat, q: nat, r: nat, q': nat, r': nat)
    requires d * q + r == d * q' + r' && r < d && r' < d
    ensures q == q'
  {
    Multiples(d, q - q');
    assert d * (q - q') == r' - r;
  }

  lemma Regroup(a: nat, m: nat, q: nat, r: nat, low: nat)
    requires a == m * q + r
    ensures 256 * a + low == (256 * m) * q + (256 * r + low)
  {
    assert 256 * (m * q) == (256 * m) * q;
  }

  lemma DivideTwice(v: nat, m: nat)
    requires m > 0
    ensures v / 256 / m == v / (256 * m)
  {
    var a, low := v / 256, v % 256;
    var q, r := a / m, a % m;
    Regroup(a, m, q, r, low);
    Divided(v, 256 * m, q, 256 * r + low);
  }

  lemma Divided(v: nat, d: nat, q: nat, r: nat)
    requires d > 0 && v == d * q + r && r < d
    ensures v / d == q
  {
    QuotientIs(d, q, r, v / d, v % d);
  }

  /** Byte i of an integer is its digit of weight 256^i. */
  lemma {:induction false} LeDigit(v: nat, n: nat, i: nat)
    requires i < n
    ensures Pow256(i) > 0 && LeBytes(v, n)[i] == v / Pow256(i) % 256
  {
    Pow256Positive(i);
    if i > 0 {
      LeDigit(v / 256, n - 1, i - 1);
      DivideTwice(v, Pow256(i - 1));
    }
  }

  // ----- The fields of each entity ---------------------------------------------------------

  function LevelParts(levels: seq<nat>): seq<seq<byte>> {
    if levels == [] then [] else [LeBytes(levels[0], 4)] + LevelParts(levels[1..])
  }

  /** A flag, then the logical system, the levels, the scope depth and the task number. */
  function TaskBytes(t: Option<TaskKey>): seq<byte> {
    if t == None then [0]
    else [1] + LeBytes(t.value.logicalSystem, 4) + Flat(LevelParts(t.value.levels)) + LeBytes(t.value.scopeDepth, 4)
           + LeBytes(t.value.taskId, 8)
  }

  function OptSegment(s: Option<nat>): seq<byte> { if s == None then [0] else [1] + LeBytes(s.value, 8) }

  function OptText(s: Option<string>): seq<byte>
    requires s.Some? ==> ShortString(s.value)
  {
    if s == None then [0] else [1] + Text(s.value)
  }

  function DescriptorParts(d: Descriptor): seq<seq<byte>>
    requires Encodable(d) == None
  {
    match d
    case Io(opId, task, entity, opcode, segment, block) =>
      [[1], LeBytes(opId, 8), TaskBytes(task), LeBytes(entity, 4),
       [if opcode.ReadBlock? then 1 else if opcode.WriteBlock? then 2 else 3], OptSegment(segment), OptText(block)]
    case BlockWriteback(block, task) => [[2], TaskBytes(task), Text(block)]
    case ShmemPut(task, requester, segment, bytes) =>
      [[3], TaskBytes(task), LeBytes(requester, 4), LeBytes(segment, 8), LeBytes(bytes, 8)]
    case ShmemGet(task, requester, segment, bytes) =>
      [[4], TaskBytes(task), LeBytes(requester, 4), LeBytes(segment, 8), LeBytes(bytes, 8)]
    case DfsRead(task, path) => [[5], TaskBytes(task), Text(path)]
    case DfsWrite(task, path, bytes) => [[6], TaskBytes(task), Text(path), LeBytes(bytes, 8)]
    case DbPut(task, key, bytes) => [[7], TaskBytes(task), Text(key), LeBytes(bytes, 8)]
    case DbGet(task, key) => [[8], TaskBytes(task), Text(key)]
  }

  function SourceCode(s: CompletionSource): byte {
    if s.ChipBackend? then 1 else if s.BlockService? then 2 else if s.ShmemService? then 3
    else if s.DfsService? then 4 else if s.DbService? then 5 else if s.GuestUapi? then 6 else 7
  }

  function StatusBytes(s: CompletionStatus): seq<byte>
    requires CodeOk(s)
  {
    if s.Success? then [1] else [if s.RetryableFailure? then 2 else 3] + Text(s.code)
  }

  function CompletionParts(e: CompletionEvent): seq<seq<byte>>
    requires CodeOk(e.status)
  {
    [LeBytes(e.opId, 8), TaskBytes(e.task), [SourceCode(e.source)], StatusBytes(e.status), LeBytes(e.finishedAt, 8)]
  }

  // ----- The encoders write exactly these fields -------------------------------------------

  lemma {:induction false} LevelLayout(levels: seq<nat>, tail: seq<byte>)
    ensures WriteLevels(levels, tail) == Flat(LevelParts(levels)) + tail
  {
    if levels != [] {
      LevelLayout(levels[1..], tail);
      var first, rest := LeBytes(levels[0], 4), LevelParts(levels[1..]);
      assert ([first] + rest)[1..] == rest;
      assert first + (Flat(rest) + tail) == first + Flat(rest) + tail;
    }
  }

  lemma TaskLayout(t: Option<TaskKey>, tail: seq<byte>)
    ensures WriteTask(t, tail) == TaskBytes(t) + tail
  {
    if t.Some? {
      var last := WriteUint(t.value.scopeDepth, 4, WriteUint(t.value.taskId, 8, tail));
      LevelLayout(t.value.levels, last);
    }
  }

  lemma FlatThree(a: seq<byte>, b: seq<byte>, c: seq<byte>)
    ensures Flat([a, b, c]) == a + (b + c)
  {
    assert [a, b, c][1..] == [b, c] && [b, c][1..] == [c] && [c][1..] == [];
    assert Flat([c]) == c + [] == c;
    assert Flat([b, c]) == b + c;
  }

  lemma FlatMore(a: seq<byte>, rest: seq<seq<byte>>, all: seq<seq<byte>>)
    requires all == [a] + rest
    ensures Flat(all) == a + Flat(rest)
  {
    assert all[1..] == rest;
  }

  lemma NamedLayout(kind: byte, task: Option<TaskKey>, name: string)
    requires ShortString(name)
    ensures WriteU8(kind, WriteTask(task, WriteString(name, []))) == Flat([[kind], TaskBytes(task), Text(name)])
  {
    FlatThree([kind], TaskBytes(task), Text(name));
    TaskLayout(task, WriteString(name, []));
    assert WriteString(name, []) == Text(name);
  }

  lemma SizedLayout(kind: byte, task: Option<TaskKey>, name: string, bytes: nat)
    requires ShortString(name)
    ensures WriteU8(kind, WriteTask(task, WriteString(name, WriteUint(bytes, 8, []))))
         == Flat([[kind], TaskBytes(task), Text(name), LeBytes(bytes, 8)])
  {
    var size := LeBytes(bytes, 8);
    FlatMore([kind], [TaskBytes(task), Text(name), size], [[kind], TaskBytes(task), Text(name), size]);
    FlatThree(TaskBytes(task), Text(name), size);
    assert WriteUint(bytes, 8, []) == size;
    TaskLayout(task, WriteString(name, size));
    assert WriteString(name, size) == Text(name) + size;
  }

  lemma ShmemLayout(kind: byte, task: Option<TaskKey>, requester: nat, segment: nat, bytes: nat)
    ensures WriteU8(kind, WriteTask(task, WriteUint(requester, 4, WriteUint(segment, 8, WriteUint(bytes, 8, [])))))
         == Flat([[kind], TaskBytes(task), LeBytes(requester, 4), LeBytes(segment, 8), LeBytes(bytes, 8)])
  {
    var a, b, c := LeBytes(requester, 4), LeBytes(segment, 8), LeBytes(bytes, 8);
    FlatMore([kind], [TaskBytes(task), a, b, c], [[kind], TaskBytes(task), a, b, c]);
    FlatMore(TaskBytes(task), [a, b, c], [TaskBytes(task), a, b, c]);
    FlatThree(a, b, c);
    assert WriteUint(bytes, 8, []) == c;
    TaskLayout(task, a + (b + c));
  }

  lemma IoLayout(d: Descriptor)
    requires d.Io? && Encodable(d) == None
    ensures WriteDescriptor(d, []) == Flat(DescriptorParts(d))
  {
    var id, task, entity := LeBytes(d.opId, 8), TaskBytes(d.task), LeBytes(d.entity, 4);
    var code: seq<byte> := [OpcodeByte(d.opcode)];
    var segment, block := OptSegment(d.segment), OptText(d.block);
    FlatMore([1], [id, task, entity, code, segment, block], [[1], id, task, entity, code, segment, block]);
    FlatMore(id, [task, entity, code, segment, block], [id, task, entity, code, segment, block]);
    FlatMore(task, [entity, code, segment, block], [task, entity, code, segment, block]);
    FlatMore(entity, [code, segment, block], [entity, code, segment, block]);
    FlatThree(code, segment, block);
    OptLayout(d.segment, d.block);
    TaskLayout(d.task, entity + (code + (segment + block)));
  }

  lemma OptLayout(segment: Option<nat>, block: Option<string>)
    requires block.Some? ==> ShortString(block.value)
    ensures WriteOptSegment(segment, WriteOptString(block, [])) == OptSegment(segment) + OptText(block)
  {
    var tail := WriteOptString(block, []);
    assert tail == OptText(block) by {
      if block.Some? { assert WriteString(block.value, []) == Text(block.value); }
    }
  }

  /** What pad_slot makes of some bytes. */
  predicate Padded(bytes: seq<byte>, slotBytes: nat, r: Result<seq<byte>, CodecError>) {
    if |bytes| <= slotBytes
    then r.Ok? && |r.value| == slotBytes && bytes <= r.value
         && forall i :: |bytes| <= i < slotBytes ==> r.value[i] == 0
    else r == Err(PayloadExceedsSlot)
  }

  /** An encoded descriptor is its fields, in this order, and zeros up to the slot size. */
  lemma DescriptorLayout(d: Descriptor, slotBytes: nat)
    requires Encodable(d) == None
    ensures Padded(Flat(DescriptorParts(d)), slotBytes, EncodeDescriptor(d, slotBytes))
  {
    match d
    case Io(_, _, _, _, _, _) => IoLayout(d);
    case BlockWriteback(block, task) => NamedLayout(2, task, block);
    case ShmemPut(task, requester, segment, bytes) => ShmemLayout(3, task, requester, segment, bytes);
    case ShmemGet(task, requester, segment, bytes) => ShmemLayout(4, task, requester, segment, bytes);
    case DfsRead(task, path) => NamedLayout(5, task, path);
    case DfsWrite(task, path, bytes) => SizedLayout(6, task, path, bytes);
    case DbPut(task, key, bytes) => SizedLayout(7, task, key, bytes);
    case DbGet(task, key) => NamedLayout(8, task, key);
  }

  lemma StatusLayout(s: CompletionStatus, tail: seq<byte>)
    requires CodeOk(s)
    ensures WriteStatus(s, tail) == StatusBytes(s) + tail
  {
    if !s.Success? { assert WriteString(s.code, tail) == Text(s.code) + tail; }
  }

  /** An encoded completion is its fields, in this order, and zeros up to the slot size. */
  lemma CompletionLayout(e: CompletionEvent, slotBytes: nat)
    requires CodeOk(e.status)
    ensures Padded(Flat(CompletionParts(e)), slotBytes, EncodeCompletion(e, slotBytes))
  {
    var id, task, source: seq<byte> := LeBytes(e.opId, 8), TaskBytes(e.task), [SourceCode(e.source)];
    var status, at := StatusBytes(e.status), LeBytes(e.finishedAt, 8);
    FlatMore(id, [task, source, status, at], [id, task, source, status, at]);
    FlatMore(task, [source, status, at], [task, source, status, at]);
    FlatThree(source, status, at);
    assert WriteUint(e.finishedAt, 8, []) == at;
    StatusLayout(e.status, at);
    TaskLayout(e.task, source + (status + at));
  }
}
