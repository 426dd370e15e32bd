/** crc32_ieee (ub_rpc_demo.c): the reflected CRC-32 of IEEE 802.3, and the burst errors it detects. */
module Crc32 {
  import opened ShiftRegister

  const POLY: bv32 := 0xedb88320

  /** One step of the shift register. */
  function Step(c: bv32): bv32 { if c & 1 != 0 then (c >> 1) ^ POLY else c >> 1 }

  function Xor(a: bv32, b: bv32): bv32 { a ^ b }

  function Bit(b: bool): bv32 { if b then 1 else 0 }

  function Absorb(c: bv32, b: bool): bv32 { Step(Xor(c, Bit(b))) }

  function Push(w: bv32, b: bool): bv32 { (w << 1) | Bit(b) }

  function Ieee(): Machine<bv32> { Machine(0, Step, Xor, Absorb, Push) }

  /** The register after the bytes of data. */
  function Feed(c: bv32, data: seq<bv8>): bv32 {
    if data == [] then c else Iterate(Step, Xor(Feed(c, data[..|data| - 1]), data[|data| - 1] as bv32), 8)
  }

  function Crc(data: seq<bv8>): bv32 { Xor(Feed(0xffffffff, data), 0xffffffff) }

  method Crc32Ieee(data: seq<bv8>) returns (crc: bv32)
    ensures crc == Crc(data)
  {
    crc := 0xffffffff;
    for i := 0 to |data|
      invariant crc == Feed(0xffffffff, data[..i])
    {
      crc := Xor(crc, data[i] as bv32);
      ghost var start := crc;
      for bit := 0 to 8
        invariant crc == Iterate(Step, start, bit)
      {
        if crc & 1 != 0 {
          crc := (crc >> 1) ^ POLY;
        } else {
          crc := crc >> 1;
        }
      }
      assert data[..i + 1][..i] == data[..i];
    }
    assert data[..|data|] == data;
    crc := Xor(crc, 0xffffffff);
  }

  // ----- The laws of the register ----------------------------------------------------------

  lemma StepInjective(a: bv32, b: bv32)
    requires Step(a) == Step(b)
    ensures a == b
  {
  }

  lemma AbsorbInjective(a: bv32, b: bv32, bit: bool)
    requires Absorb(a, bit) == Absorb(b, bit)
    ensures a == b
  {
    StepInjective(Xor(a, Bit(bit)), Xor(b, Bit(bit)));
    XorCancelsLeft(a, b, Bit(bit));
  }

  lemma XorCancelsLeft(a: bv32, b: bv32, c: bv32)
    requires Xor(a, c) == Xor(b, c)
    ensures a == b
  {
  }

  lemma XorCancels(c: bv32, a: bv32, b: bv32)
    requires Xor(c, a) == Xor(c, b)
    ensures a == b
  {
  }

  lemma XorZero(c: bv32)
    ensures Xor(c, 0) == c
  {
  }

  lemma IeeeReversible()
    ensures Reversible(Ieee())
  {
    forall a: bv32, b | Step(a) == Step(b) ensures a == b { StepInjective(a, b); }
    forall a: bv32, b, bit | Absorb(a, bit) == Absorb(b, bit) ensures a == b { AbsorbInjective(a, b, bit); }
    forall c: bv32, a, b | Xor(c, a) == Xor(c, b) ensures a == b { XorCancels(c, a, b); }
    forall c: bv32 ensures Xor(c, 0) == c { XorZero(c); }
  }

  /** Pushing a bit q below w and adding the result p: the low bit and the rest, apart. */
  lemma PushParts(c: bv32, w: bv32, p: bv32, q: bv32, d: bv32, e: bv32)
    requires w & 0x80000000 == 0 && q & 0xfffffffe == 0
    requires p == (w << 1) | q && d == c ^ p && e == c ^ q
    ensures d & 1 == e & 1 && d >> 1 == (e >> 1) ^ w
  {
  }

  lemma XorIs(c: bv32, p: bv32, d: bv32)
    requires d == Xor(c, p)
    ensures d == c ^ p
  {
  }

  lemma PushIs(w: bv32, p: bv32, b: bool, q: bv32)
    requires p == Push(w, b) && q == Bit(b)
    ensures p == (w << 1) | q && q & 0xfffffffe == 0
  {
  }

  lemma AddedParts(c: bv32, w: bv32, b: bool, p: bv32, q: bv32, d: bv32, e: bv32)
    requires w & 0x80000000 == 0 && p == Push(w, b) && q == Bit(b) && d == Xor(c, p) && e == Xor(c, q)
    ensures d & 1 == e & 1 && d >> 1 == (e >> 1) ^ w
  {
    XorIs(c, p, d);
    XorIs(c, q, e);
    PushIs(w, p, b, q);
    PushParts(c, w, p, q, d, e);
  }

  /** The step is linear: what is added above the low bit comes out one place lower. */
  lemma StepAdds(c: bv32, w: bv32, d: bv32, s: bv32, t: bv32)
    requires d & 1 == c & 1 && d >> 1 == (c >> 1) ^ w && s == Step(c) && t == Step(d)
    ensures s ^ w == t
  {
    StepAddsAt(c, w, d);
  }

  lemma StepAddsAt(c: bv32, w: bv32, d: bv32)
    requires d & 1 == c & 1 && d >> 1 == (c >> 1) ^ w
    ensures Step(c) ^ w == Step(d)
  {
  }

  lemma StepOverAt(c: bv32, w: bv32, b: bool, p: bv32, q: bv32, d: bv32, e: bv32, s: bv32, t: bv32)
    requires w & 0x80000000 == 0 && p == Push(w, b) && q == Bit(b) && d == Xor(c, p) && e == Xor(c, q)
    requires s == Step(e) && t == Step(d)
    ensures s ^ w == t
  {
    AddedParts(c, w, b, p, q, d, e);
    StepAdds(e, w, d, s, t);
  }

  lemma AbsorbIs(c: bv32, b: bool, q: bv32, e: bv32, s: bv32)
    requires q == Bit(b) && e == Xor(c, q) && s == Absorb(c, b)
    ensures s == Step(e)
  {
  }

  lemma StepOver(c: bv32, w: bv32, b: bool, s: bv32, p: bv32, d: bv32, t: bv32, l: bv32)
    requires w & 0x80000000 == 0
    requires s == Absorb(c, b) && l == Xor(s, w) && p == Push(w, b) && d == Xor(c, p) && t == Step(d)
    ensures l == t
  {
    var q := Bit(b);
    var e := Xor(c, q);
    AbsorbIs(c, b, q, e, s);
    StepOverAt(c, w, b, p, q, d, e, s, t);
    XorIs(s, w, l);
  }

  lemma PushLossless(w: bv32, v: bv32, b: bool, d: bool)
    requires w & 0x80000000 == 0 && v & 0x80000000 == 0 && Push(w, b) == Push(v, d)
    ensures w == v && b == d
  {
  }

  // ----- Words of fewer than 32 bits leave the top bit clear -------------------------------

  function Low(n: nat): bv32 { if n == 0 then 0 else (Low(n - 1) << 1) | 1 }

  lemma PushBelow(w: bv32, l: bv32, b: bool)
    requires w & !l == 0
    ensures Push(w, b) & !((l << 1) | 1) == 0
  {
  }

  lemma {:induction false} LowMonotone(n: nat, m: nat)
    requires n <= m
    ensures Low(n) & !Low(m) == 0
  {
    if n > 0 { LowMonotone(n - 1, m - 1); }
  }

  lemma LowThirtyOne()
    ensures Low(31) == 0x7fffffff
  {
    assert Low(1) == 0x1;
    assert Low(2) == 0x3;
    assert Low(3) == 0x7;
    assert Low(4) == 0xf;
    assert Low(5) == 0x1f;
    assert Low(6) == 0x3f;
    assert Low(7) == 0x7f;
    assert Low(8) == 0xff;
    assert Low(9) == 0x1ff;
    assert Low(10) == 0x3ff;
    assert Low(11) == 0x7ff;
    assert Low(12) == 0xfff;
    assert Low(13) == 0x1fff;
    assert Low(14) == 0x3fff;
    assert Low(15) == 0x7fff;
    assert Low(16) == 0xffff;
    assert Low(17) == 0x1ffff;
    assert Low(18) == 0x3ffff;
    assert Low(19) == 0x7ffff;
    assert Low(20) == 0xfffff;
    assert Low(21) == 0x1fffff;
    assert Low(22) == 0x3fffff;
    assert Low(23) == 0x7fffff;
    assert Low(24) == 0xffffff;
    assert Low(25) == 0x1ffffff;
    assert Low(26) == 0x3ffffff;
    assert Low(27) == 0x7ffffff;
    assert Low(28) == 0xfffffff;
    assert Low(29) == 0x1fffffff;
    assert Low(30) == 0x3fffffff;
  }

  function Fits(w: bv32, n: nat): bool { w & !Low(n) == 0 }

  lemma PushFits(w: bv32, b: bool, n: nat)
    requires Fits(w, n)
    ensures Fits(Push(w, b), n + 1)
  {
    PushBelow(w, Low(n), b);
  }

  lemma WordIsLow(x: seq<bool>)
    ensures Fits(Word(Ieee(), x), |x|)
  {
    var push, fits: (bv32, nat) -> bool := Ieee().push, Fits;
    forall w, b, n: nat | fits(w, n) ensures fits(push(w, b), n + 1) { PushFits(w, b, n); }
    WordFits(Ieee(), fits, x);
  }

  lemma SubMask(w: bv32, l: bv32)
    requires w & !l == 0 && l & !0x7fffffff == 0
    ensures w & 0x80000000 == 0
  {
  }

  lemma TopClear(x: seq<bool>)
    requires |x| < 32
    ensures Word(Ieee(), x) & 0x80000000 == 0
  {
    WordIsLow(x);
    LowMonotone(|x|, 31);
    LowThirtyOne();
    SubMask(Word(Ieee(), x), Low(|x|));
  }

  lemma IeeeShifts()
    ensures Shifts(Ieee(), 32) && Lossless(Ieee(), 32)
  {
    var m := Ieee();
    forall c, b, y {:trigger m.absorb(c, b), Word(m, y)} | |y| < 32
      ensures m.add(m.absorb(c, b), Word(m, y)) == m.step(m.add(c, m.push(Word(m, y), b)))
    {
      TopClear(y);
      var w := Word(m, y);
      var s, p := Absorb(c, b), Push(w, b);
      var d := Xor(c, p);
      StepOver(c, w, b, s, p, d, Step(d), Xor(s, w));
    }
    forall x, y, b, d {:trigger m.push(Word(m, x), b), m.push(Word(m, y), d)} |
        |x| == |y| < 32 && m.push(Word(m, x), b) == m.push(Word(m, y), d)
      ensures Word(m, x) == Word(m, y) && b == d
    {
      TopClear(x);
      TopClear(y);
      PushLossless(Word(m, x), Word(m, y), b, d);
    }
  }

  // ----- Bytes are their bits, lowest first ------------------------------------------------

  function ByteBits(d: bv8): (x: seq<bool>)
    ensures |x| == 8
  {
    [d & 1 != 0, d & 2 != 0, d & 4 != 0, d & 8 != 0, d & 16 != 0, d & 32 != 0, d & 64 != 0, d & 128 != 0]
  }

  function Bits(data: seq<bv8>): (x: seq<bool>)
    ensures |x| == 8 * |data|
  {
    if data == [] then [] else Bits(data[..|data| - 1]) + ByteBits(data[|data| - 1])
  }

  function Push4(w: bv32, b3: bool, b2: bool, b1: bool, b0: bool): bv32 { Push(Push(Push(Push(w, b3), b2), b1), b0) }

  lemma Pushed(d: bv8)
    ensures Push4(Push4(0, d & 128 != 0, d & 64 != 0, d & 32 != 0, d & 16 != 0),
                  d & 8 != 0, d & 4 != 0, d & 2 != 0, d & 1 != 0) == d as bv32
  {
  }

  lemma WordOfEight(b0: bool, b1: bool, b2: bool, b3: bool, b4: bool, b5: bool, b6: bool, b7: bool)
    ensures Word(Ieee(), [b0, b1, b2, b3, b4, b5, b6, b7]) == Push4(Push4(0, b7, b6, b5, b4), b3, b2, b1, b0)
  {
    WordEight(Ieee(), b0, b1, b2, b3, b4, b5, b6, b7);
  }

  lemma ByteWord(d: bv8)
    ensures Word(Ieee(), ByteBits(d)) == d as bv32
  {
    WordOfEight(d & 1 != 0, d & 2 != 0, d & 4 != 0, d & 8 != 0, d & 16 != 0, d & 32 != 0, d & 64 != 0, d & 128 != 0);
    Pushed(d);
  }

  lemma {:induction false} FeedIsFold(c: bv32, data: seq<bv8>)
    ensures Feed(c, data) == Fold(Absorb, c, Bits(data))
  {
    if data != [] {
      var init, d := data[..|data| - 1], data[|data| - 1];
      FeedIsFold(c, init);
      FoldConcat(Absorb, c, Bits(init), ByteBits(d));
      IeeeReversible();
      IeeeShifts();
      FoldIsIterate(Ieee(), 32, Feed(c, init), ByteBits(d));
      ByteWord(d);
    }
  }

  // ----- Burst detection -------------------------------------------------------------------

  /** Two messages that differ only inside 32 consecutive bits have different checksums. */
  lemma DetectsBitBursts(a: seq<bv8>, b: seq<bv8>, p: seq<bool>, x: seq<bool>, y: seq<bool>, s: seq<bool>)
    requires Bits(a) == p + x + s && Bits(b) == p + y + s
    requires |x| == |y| <= 32 && x != y
    ensures Crc(a) != Crc(b)
  {
    FeedIsFold(0xffffffff, a);
    FeedIsFold(0xffffffff, b);
    IeeeReversible();
    IeeeShifts();
    DetectsWindow(Ieee(), 32, 0xffffffff, p, x, y, s);
    DifferentAfterXor(Feed(0xffffffff, a), Feed(0xffffffff, b));
  }

  lemma DifferentAfterXor(a: bv32, b: bv32)
    requires a != b
    ensures Xor(a, 0xffffffff) != Xor(b, 0xffffffff)
  {
  }

  lemma {:induction false} BitsConcat(a: seq<bv8>, b: seq<bv8>)
    ensures Bits(a + b) == Bits(a) + Bits(b)
  {
    if b == [] {
      assert a + b == a;
    } else {
      var init, d := b[..|b| - 1], b[|b| - 1];
      BitsConcat(a, init);
      assert (a + b)[..|a + b| - 1] == a + init;
      assert (a + b)[|a + b| - 1] == d;
      assert Bits(a + b) == Bits(a) + Bits(init) + ByteBits(d);
    }
  }

  lemma ByteBitsInjective(d: bv8, e: bv8)
    requires ByteBits(d) == ByteBits(e)
    ensures d == e
  {
    ByteWord(d);
    ByteWord(e);
  }

  lemma {:induction false} BitsInjective(a: seq<bv8>, b: seq<bv8>)
    requires |a| == |b| && Bits(a) == Bits(b)
    ensures a == b
  {
    if a != [] {
      var n := |a| - 1;
      assert Bits(a)[..8 * n] == Bits(a[..n]) && Bits(b)[..8 * n] == Bits(b[..n]);
      assert Bits(a)[8 * n..] == ByteBits(a[n]) && Bits(b)[8 * n..] == ByteBits(b[n]);
      BitsInjective(a[..n], b[..n]);
      ByteBitsInjective(a[n], b[n]);
      assert a == a[..n] + [a[n]] && b == b[..n] + [b[n]];
    }
  }

  /** In particular, payloads that differ only inside four consecutive bytes. */
  lemma DetectsByteBursts(p: seq<bv8>, x: seq<bv8>, y: seq<bv8>, s: seq<bv8>)
    requires |x| == |y| <= 4 && x != y
    ensures Crc(p + x + s) != Crc(p + y + s)
  {
    BitsConcat(p + x, s);
    BitsConcat(p + y, s);
    BitsConcat(p, x);
    BitsConcat(p, y);
    if Bits(x) == Bits(y) {
      BitsInjective(x, y);
    }
    DetectsBitBursts(p + x + s, p + y + s, Bits(p), Bits(x), Bits(y), Bits(s));
  }

  // ----- Known values ----------------------------------------------------------------------

  function Eight(c: bv32): bv32 { Step(Step(Step(Step(Step(Step(Step(Step(c)))))))) }

  lemma EightSteps<R>(step: R -> R, c: R)
    ensures Iterate(step, c, 8) == step(step(step(step(step(step(step(step(c))))))))
  {
    assert Iterate(step, c, 2) == step(step(c));
    assert Iterate(step, c, 4) == step(step(step(step(c))));
    assert Iterate(step, c, 6) == step(step(step(step(step(step(c))))));
  }

  lemma NextByte(data: seq<bv8>, i: nat, c: bv32, r: bv32)
    requires i < |data| && Feed(0xffffffff, data[..i]) == c && Eight(Xor(c, data[i] as bv32)) == r
    ensures Feed(0xffffffff, data[..i + 1]) == r
  {
    EightSteps(Step, Xor(c, data[i] as bv32));
    assert data[..i + 1][..i] == data[..i];
  }

  lemma OneMore(data: seq<bv8>, d: bv8, c: bv32, r: bv32)
    requires Feed(0xffffffff, data) == c && Eight(Xor(c, d as bv32)) == r
    ensures Feed(0xffffffff, data + [d]) == r
  {
    assert (data + [d])[..|data|] == data;
    NextByte(data + [d], |data|, c, r);
    assert (data + [d])[..|data| + 1] == data + [d];
  }

  lemma ThreeMore(data: seq<bv8>, part: seq<bv8>, c0: bv32, c1: bv32, c2: bv32, c3: bv32)
    requires |part| == 3 && Feed(0xffffffff, data) == c0
    requires Eight(Xor(c0, part[0] as bv32)) == c1 && Eight(Xor(c1, part[1] as bv32)) == c2
             && Eight(Xor(c2, part[2] as bv32)) == c3
    ensures Feed(0xffffffff, data + part) == c3
  {
    var d1 := data + [part[0]];
    var d2 := d1 + [part[1]];
    OneMore(data, part[0], c0, c1);
    OneMore(d1, part[1], c1, c2);
    OneMore(d2, part[2], c2, c3);
    assert d2 + [part[2]] == data + part;
  }

  /** The published check value: the checksum of the digits "123456789". */
  lemma CheckValue(a: seq<bv8>, b: seq<bv8>, c: seq<bv8>)
    requires a == [0x31, 0x32, 0x33] && b == [0x34, 0x35, 0x36] && c == [0x37, 0x38, 0x39]
    ensures Crc(a + b + c) == 0xcbf43926
  {
    assert [] + a == a;
    ThreeMore([], a, 0xffffffff, 0x7c231048, 0xb0acbb32, 0x77b79c2d);
    ThreeMore(a, b, 0x77b79c2d, 0x641c1f5c, 0x340ac5e3, 0xf68d2c9e);
    ThreeMore(a + b, c, 0xf68d2c9e, 0xaffc9660, 0x651f2550, 0x340bc6d9);
  }

  lemma Burst(data: seq<bv8>)
    requires data == [0x41, 0x06, 0x71, 0xdb, 0x01]
    ensures Feed(0xffffffff, data[..5]) == 0x39dd08e2
  {
    assert data[..0] == [];
    NextByte(data, 0, 0xffffffff, 0x2c266174);
    NextByte(data, 1, 0x2c266174, 0xbe273671);
    NextByte(data, 2, 0xbe273671, 0x00be2736);
    NextByte(data, 3, 0x00be2736, 0xdebb20e2);
    NextByte(data, 4, 0xdebb20e2, 0x39dd08e2);
  }

  lemma Quiet(data: seq<bv8>)
    requires data == [0x00, 0x00, 0x00, 0x00, 0x00]
    ensures Feed(0xffffffff, data[..5]) == 0x39dd08e2
  {
    assert data[..0] == [];
    NextByte(data, 0, 0xffffffff, 0x2dfd1072);
    NextByte(data, 1, 0x2dfd1072, 0xbe26ed00);
    NextByte(data, 2, 0xbe26ed00, 0x00be26ed);
    NextByte(data, 3, 0x00be26ed, 0xdebb20e3);
    NextByte(data, 4, 0xdebb20e3, 0x39dd08e2);
  }

  /** Five bytes are too many: these two payloads collide. */
  lemma FiveByteBurstCollides(a: seq<bv8>, b: seq<bv8>)
    requires a == [0x41, 0x06, 0x71, 0xdb, 0x01] && b == [0x00, 0x00, 0x00, 0x00, 0x00]
    ensures Crc(a) == Crc(b)
  {
    Burst(a);
    Quiet(b);
    assert a[..5] == a && b[..5] == b;
  }
}
