/**
 The decoders accept exactly what the encoders write: a slot decodes to a value if and only if
 it starts with the encoding of that value.  So no two byte forms mean the same, and every
 other slot is refused.
 */
module CodecCanonical {
  import opened SimCore
  import opened Utf8
  import opened Codec

  // ----- Integers and bytes ----------------------------------------------------------------

  lemma {:induction false} LeBack(b: seq<byte>)
    ensures FromLe(b) < Pow256(|b|) && LeBytes(FromLe(b), |b|) == b
  {
    if b != [] {
      LeBack(b[1..]);
      assert FromLe(b) % 256 == b[0] && FromLe(b) / 256 == FromLe(b[1..]);
      assert b == [b[0]] + b[1..];
    }
  }

  lemma UintBack(b: seq<byte>, n: nat)
    requires ReadUint(b, n).Got?
    ensures var r := ReadUint(b, n); r.value < Pow256(n) && WriteUint(r.value, n, r.rest) == b
  {
    LeBack(b[..n]);
    assert b == b[..n] + b[n..];
  }

  lemma U8Back(b: seq<byte>)
    requires ReadU8(b).Got?
    ensures var r := ReadU8(b); WriteU8(r.value, r.rest) == b
  {
  }

  // ----- Text ------------------------------------------------------------------------------

  lemma TwoBack(b: seq<byte>, v: int)
    requires |b| >= 2 && 0xC0 <= b[0] < 0xE0 && Continuation(b[1]) && v == Join(b[0] - 0xC0, b[1] - 0x80) >= 0x80
    ensures Scalar(v) && v < 0x800 && EncodeChar(v as char) == [b[0], b[1]]
  {
    assert v / 64 == b[0] - 0xC0 && v % 64 == b[1] - 0x80;
  }

  lemma ThreeBack(b: seq<byte>, v: int)
    requires |b| >= 3 && 0xE0 <= b[0] < 0xF0 && Continuation(b[1]) && Continuation(b[2])
    requires v == Join(Join(b[0] - 0xE0, b[1] - 0x80), b[2] - 0x80) >= 0x800 && Scalar(v)
    ensures v < 0x10000 && EncodeChar(v as char) == [b[0], b[1], b[2]]
  {
    var h := Join(b[0] - 0xE0, b[1] - 0x80);
    assert v / 64 == h && v % 64 == b[2] - 0x80;
    assert h / 64 == b[0] - 0xE0 && h % 64 == b[1] - 0x80;
  }

  lemma FourBack(b: seq<byte>, v: int)
    requires |b| >= 4 && 0xF0 <= b[0] < 0xF8 && Continuation(b[1]) && Continuation(b[2]) && Continuation(b[3])
    requires v == Join(Join(Join(b[0] - 0xF0, b[1] - 0x80), b[2] - 0x80), b[3] - 0x80) >= 0x10000 && Scalar(v)
    ensures EncodeChar(v as char) == [b[0], b[1], b[2], b[3]]
  {
    var g := Join(b[0] - 0xF0, b[1] - 0x80);
    var h := Join(g, b[2] - 0x80);
    assert v / 64 == h && v % 64 == b[3] - 0x80;
    assert h / 64 == g && h % 64 == b[2] - 0x80;
    assert g / 64 == b[0] - 0xF0 && g % 64 == b[1] - 0x80;
  }

  lemma CharBack(b: seq<byte>)
    requires b != [] && DecodeChar(b).Some?
    ensures var (c, k) := DecodeChar(b).value; EncodeChar(c) == b[..k]
  {
    var (c, k) := DecodeChar(b).value;
    if k == 2 {
      TwoBack(b, c as int);
    } else if k == 3 {
      ThreeBack(b, c as int);
    } else if k == 4 {
      FourBack(b, c as int);
    }
  }

  lemma EncodeCons(c: char, s: string)
    ensures Encode([c] + s) == EncodeChar(c) + Encode(s)
  {
    assert ([c] + s)[1..] == s;
  }

  /** str::from_utf8 accepts only the bytes of a string. */
  lemma {:induction false} TextBack(b: seq<byte>)
    requires Utf8.Decode(b).Some?
    ensures Encode(Utf8.Decode(b).value) == b
    decreases |b|
  {
    if b != [] {
      var (c, k) := DecodeChar(b).value;
      var rest := b[k..];
      CharBack(b);
      TextBack(rest);
      EncodeCons(c, Utf8.Decode(rest).value);
      assert b == b[..k] + rest;
    }
  }

  lemma StringBack(b: seq<byte>)
    requires ReadString(b).Got?
    ensures var r := ReadString(b); ShortString(r.value) && WriteString(r.value, r.rest) == b
  {
    var n, b1 := b[0], b[1..];
    TextBack(b1[..n]);
    assert b1 == b1[..n] + b1[n..];
  }

  // ----- Optional fields -------------------------------------------------------------------

  lemma OptStringBack(b: seq<byte>)
    requires ReadOptString(b).Got?
    ensures var r := ReadOptString(b);
      (r.value.Some? ==> ShortString(r.value.value)) && WriteOptString(r.value, r.rest) == b
  {
    U8Back(b);
    if b[0] == 1 { StringBack(b[1..]); }
  }

  lemma OptSegmentBack(b: seq<byte>)
    requires ReadOptSegment(b).Got?
    ensures var r := ReadOptSegment(b);
      (r.value.Some? ==> Fits64(r.value.value)) && WriteOptSegment(r.value, r.rest) == b
  {
    U8Back(b);
    if b[0] == 1 { UintBack(b[1..], 8); }
  }

  lemma {:induction false} LevelsBack(b: seq<byte>, n: nat)
    requires ReadLevels(b, n).Got?
    ensures var r := ReadLevels(b, n); |r.value| == n && LevelsOk(r.value) && WriteLevels(r.value, r.rest) == b
  {
    if n > 0 {
      UintBack(b, 4);
      LevelsBack(ReadUint(b, 4).rest, n - 1);
    }
  }

  lemma TaskBack(b: seq<byte>)
    requires ReadTask(b).Got?
    ensures var r := ReadTask(b); OptTaskOk(r.value) && WriteTask(r.value, r.rest) == b
  {
    U8Back(b);
    if b[0] == 1 {
      var b1 := b[1..];
      UintBack(b1, 4);
      var b2 := ReadUint(b1, 4).rest;
      LevelsBack(b2, 8);
      var b3 := ReadLevels(b2, 8).rest;
      UintBack(b3, 4);
      UintBack(ReadUint(b3, 4).rest, 8);
    }
  }

  // ----- Descriptors -----------------------------------------------------------------------

  lemma IoBack(b: seq<byte>)
    requires ReadIo(b).Got?
    ensures var r := ReadIo(b);
      r.value.Io? && DescriptorOk(r.value) && Encodable(r.value) == None && WriteDescriptor(r.value, r.rest) == [1] + b
  {
    UintBack(b, 8);
    var b1 := ReadUint(b, 8).rest;
    TaskBack(b1);
    var b2 := ReadTask(b1).rest;
    UintBack(b2, 4);
    var b3 := ReadUint(b2, 4).rest;
    U8Back(b3);
    var code, b4 := ReadU8(b3).value, ReadU8(b3).rest;
    OptSegmentBack(b4);
    var b5 := ReadOptSegment(b4).rest;
    OptStringBack(b5);
    var d, rest := ReadIo(b).value, ReadIo(b).rest;
    assert OpcodeByte(d.opcode) == code;
    assert WriteOptSegment(d.segment, WriteOptString(d.block, rest)) == b4;
    assert WriteUint(d.entity, 4, WriteU8(OpcodeByte(d.opcode), b4)) == b2;
    assert WriteUint(d.opId, 8, WriteTask(d.task, b2)) == b;
  }

  lemma ShmemBack(b: seq<byte>, put: bool)
    requires ReadShmem(b, put).Got?
    ensures var r := ReadShmem(b, put);
      && (if put then r.value.ShmemPut? else r.value.ShmemGet?) && DescriptorOk(r.value)
      && WriteDescriptor(r.value, r.rest) == [if put then 3 else 4] + b
  {
    TaskBack(b);
    var b1 := ReadTask(b).rest;
    UintBack(b1, 4);
    var b2 := ReadUint(b1, 4).rest;
    UintBack(b2, 8);
    UintBack(ReadUint(b2, 8).rest, 8);
  }

  lemma NamedBack(b: seq<byte>, sized: bool)
    requires ReadNamed(b, sized).Got?
    ensures var r := ReadNamed(b, sized);
      var (task, name, bytes) := r.value;
      && OptTaskOk(task) && ShortString(name) && Fits64(bytes)
      && WriteTask(task, WriteString(name, if sized then WriteUint(bytes, 8, r.rest) else r.rest)) == b
  {
    TaskBack(b);
    var b1 := ReadTask(b).rest;
    StringBack(b1);
    if sized { UintBack(ReadString(b1).rest, 8); }
    assert Fits64(0);
  }

  lemma NamedKindBack(kind: byte, b: seq<byte>)
    requires (kind == 2 || 5 <= kind <= 8) && ReadNamed(b, kind == 6 || kind == 7).Got?
    ensures var r := ReadNamed(b, kind == 6 || kind == 7);
      var d := FromNamed(kind, r.value.0, r.value.1, r.value.2);
      DescriptorOk(d) && Encodable(d) == None && WriteDescriptor(d, r.rest) == [kind] + b
  {
    NamedBack(b, kind == 6 || kind == 7);
  }

  lemma DescriptorBack(b: seq<byte>)
    requires ReadDescriptor(b).Got?
    ensures var r := ReadDescriptor(b);
      DescriptorOk(r.value) && Encodable(r.value) == None && WriteDescriptor(r.value, r.rest) == b
  {
    U8Back(b);
    var kind, b1 := b[0], b[1..];
    if kind == 1 {
      IoBack(b1);
    } else if kind == 3 || kind == 4 {
      ShmemBack(b1, kind == 3);
    } else {
      NamedKindBack(kind, b1);
    }
  }

  lemma Prefixed(bytes: seq<byte>, tail: seq<byte>, slot: seq<byte>)
    requires slot == bytes + tail
    ensures bytes <= slot
  {
  }

  lemma DecodedIsEncoded(slot: seq<byte>, d: Descriptor)
    requires DecodeDescriptor(slot) == Ok(d)
    ensures DescriptorOk(d) && Encodable(d) == None && WriteDescriptor(d, []) <= slot
  {
    DescriptorBack(slot);
    var rest := ReadDescriptor(slot).rest;
    DescriptorTail(d, rest);
    Prefixed(WriteDescriptor(d, []), rest, slot);
  }

  lemma EncodedDecodes(slot: seq<byte>, d: Descriptor, bytes: seq<byte>)
    requires DescriptorOk(d) && Encodable(d) == None && bytes == WriteDescriptor(d, []) && bytes <= slot
    ensures DecodeDescriptor(slot) == Ok(d)
  {
    var tail := slot[|bytes|..];
    assert slot == bytes + tail;
    DescriptorTail(d, tail);
    DescriptorTrip(d, tail);
  }

  /** A slot decodes to a descriptor exactly if it starts with the descriptor's encoding. */
  lemma DecodesExactlyEncodings(slot: seq<byte>, d: Descriptor)
    ensures DecodeDescriptor(slot) == Ok(d) <==>
              DescriptorOk(d) && Encodable(d) == None && WriteDescriptor(d, []) <= slot
  {
    if DecodeDescriptor(slot) == Ok(d) {
      DecodedIsEncoded(slot, d);
    }
    if DescriptorOk(d) && Encodable(d) == None && WriteDescriptor(d, []) <= slot {
      EncodedDecodes(slot, d, WriteDescriptor(d, []));
    }
  }

  // ----- Completions -----------------------------------------------------------------------

  lemma SourceBack(b: seq<byte>)
    requires ReadSource(b).Got?
    ensures var r := ReadSource(b); WriteU8(SourceByte(r.value), r.rest) == b
  {
    U8Back(b);
  }

  lemma StatusBack(b: seq<byte>)
    requires ReadStatus(b).Got?
    ensures var r := ReadStatus(b); CodeOk(r.value) && WriteStatus(r.value, r.rest) == b
  {
    U8Back(b);
    if b[0] != 1 { StringBack(b[1..]); }
  }

  lemma CompletionBack(b: seq<byte>)
    requires ReadCompletion(b).Got?
    ensures var r := ReadCompletion(b);
      EventOk(r.value) && CodeOk(r.value.status) && WriteCompletion(r.value, r.rest) == b
  {
    UintBack(b, 8);
    var b1 := ReadUint(b, 8).rest;
    TaskBack(b1);
    var b2 := ReadTask(b1).rest;
    SourceBack(b2);
    var b3 := ReadSource(b2).rest;
    StatusBack(b3);
    UintBack(ReadStatus(b3).rest, 8);
  }

  lemma DecodedCompletion(slot: seq<byte>, e: CompletionEvent)
    requires DecodeCompletion(slot) == Ok(e)
    ensures EventOk(e) && CodeOk(e.status) && WriteCompletion(e, []) <= slot
  {
    CompletionBack(slot);
    var rest := ReadCompletion(slot).rest;
    CompletionTail(e, rest);
    Prefixed(WriteCompletion(e, []), rest, slot);
  }

  lemma EncodedCompletion(slot: seq<byte>, e: CompletionEvent, bytes: seq<byte>)
    requires EventOk(e) && CodeOk(e.status) && bytes == WriteCompletion(e, []) && bytes <= slot
    ensures DecodeCompletion(slot) == Ok(e)
  {
    var tail := slot[|bytes|..];
    assert slot == bytes + tail;
    CompletionTail(e, tail);
    CompletionTrip(e, tail);
  }

  /** A slot decodes to a completion exactly if it starts with the completion's encoding. */
  lemma CompletionsExactly(slot: seq<byte>, e: CompletionEvent)
    ensures DecodeCompletion(slot) == Ok(e) <==> EventOk(e) && CodeOk(e.status) && WriteCompletion(e, []) <= slot
  {
    if DecodeCompletion(slot) == Ok(e) {
      DecodedCompletion(slot, e);
    }
    if EventOk(e) && CodeOk(e.status) && WriteCompletion(e, []) <= slot {
      EncodedCompletion(slot, e, WriteCompletion(e, []));
    }
  }
}
