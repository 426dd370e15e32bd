/** UTF-8 as Rust strings use it: encoding of scalar values and the strict decoder behind str::from_utf8. */
module Utf8 {
  import opened SimCore

  type byte = n: int | 0 <= n < 256

  function EncodeChar(c: char): (r: seq<byte>)
    ensures 1 <= |r| <= 4
  {
    var v := c as int;
    if v < 0x80 then [v]
    else if v < 0x800 then [0xC0 + v / 64, 0x80 + v % 64]
    else if v < 0x10000 then [0xE0 + v / 64 / 64, 0x80 + v / 64 % 64, 0x80 + v % 64]
    else [0xF0 + v / 64 / 64 / 64, 0x80 + v / 64 / 64 % 64, 0x80 + v / 64 % 64, 0x80 + v % 64]
  }

  /** Appends six more bits. */
  function Join(high: int, low: int): int { high * 64 + low }

  predicate Continuation(b: byte) { 0x80 <= b < 0xC0 }

  predicate Scalar(v: int) { 0 <= v < 0xD800 || 0xE000 <= v < 0x11_0000 }

  /** The scalar value at the front and how many bytes it takes; overlong forms and surrogates are refused. */
  function DecodeChar(b: seq<byte>): (r: Option<(char, nat)>)
    requires b != []
    ensures r.Some? ==> 1 <= r.value.1 <= |b|
  {
    if b[0] < 0x80 then Some((b[0] as char, 1))
    else if 0xC0 <= b[0] < 0xE0 && |b| >= 2 && Continuation(b[1]) then
      var v := Join(b[0] - 0xC0, b[1] - 0x80);
      if v >= 0x80 then Some((v as char, 2)) else None
    else if 0xE0 <= b[0] < 0xF0 && |b| >= 3 && Continuation(b[1]) && Continuation(b[2]) then
      var v := Join(Join(b[0] - 0xE0, b[1] - 0x80), b[2] - 0x80);
      if v >= 0x800 && Scalar(v) then Some((v as char, 3)) else None
    else if 0xF0 <= b[0] < 0xF8 && |b| >= 4 && Continuation(b[1]) && Continuation(b[2]) && Continuation(b[3]) then
      var v := Join(Join(Join(b[0] - 0xF0, b[1] - 0x80), b[2] - 0x80), b[3] - 0x80);
      if v >= 0x10000 && Scalar(v) then Some((v as char, 4)) else None
    else None
  }

  /** String::as_bytes */
  function Encode(s: string): seq<byte> {
    if s == [] then [] else EncodeChar(s[0]) + Encode(s[1..])
  }

  /** str::from_utf8 */
  function Decode(b: seq<byte>): Option<string>
    decreases |b|
  {
    if b == [] then Some([])
    else
      var c := DecodeChar(b);
      if c == None then None
      else
        var rest := Decode(b[c.value.1..]);
        if rest == None then None else Some([c.value.0] + rest.value)
  }

  lemma SixBits(v: nat)
    ensures Join(v / 64, v % 64) == v
  {
  }

  lemma CharRoundTrip(c: char, rest: seq<byte>)
    ensures DecodeChar(EncodeChar(c) + rest) == Some((c, |EncodeChar(c)|))
  {
    var v := c as int;
    if v < 0x80 {
      assert (EncodeChar(c) + rest)[0] == v;
    } else if v < 0x800 {
      TwoBytes(c, rest);
    } else if v < 0x10000 {
      ThreeBytes(c, rest);
    } else {
      FourBytes(c, rest);
    }
  }

  lemma TwoBytes(c: char, rest: seq<byte>)
    requires 0x80 <= c as int < 0x800
    ensures DecodeChar(EncodeChar(c) + rest) == Some((c, 2))
  {
    var v, b := c as int, EncodeChar(c) + rest;
    assert b[0] == 0xC0 + v / 64 && b[1] == 0x80 + v % 64;
    SixBits(v);
  }

  lemma ThreeBytes(c: char, rest: seq<byte>)
    requires 0x800 <= c as int < 0x10000
    ensures DecodeChar(EncodeChar(c) + rest) == Some((c, 3))
  {
    var v, b := c as int, EncodeChar(c) + rest;
    var h := v / 64;
    assert b[0] == 0xE0 + h / 64 && b[1] == 0x80 + h % 64 && b[2] == 0x80 + v % 64;
    SixBits(h);
    SixBits(v);
  }

  lemma FourBytes(c: char, rest: seq<byte>)
    requires 0x10000 <= c as int
    ensures DecodeChar(EncodeChar(c) + rest) == Some((c, 4))
  {
    var v, b := c as int, EncodeChar(c) + rest;
    var h := v / 64;
    var g := h / 64;
    assert b[0] == 0xF0 + g / 64 && b[1] == 0x80 + g % 64 && b[2] == 0x80 + h % 64 && b[3] == 0x80 + v % 64;
    SixBits(g);
    SixBits(h);
    SixBits(v);
  }

  /** Every Rust string survives the trip through its bytes. */
  lemma {:induction false} RoundTrip(s: string)
    ensures Decode(Encode(s)) == Some(s)
  {
    if s != [] {
      CharRoundTrip(s[0], Encode(s[1..]));
      RoundTrip(s[1..]);
      var b := Encode(s);
      assert b[|EncodeChar(s[0])|..] == Encode(s[1..]);
      assert s == [s[0]] + s[1..];
    }
  }

  predicate Ascii(s: string) { forall i :: 0 <= i < |s| ==> s[i] as int < 0x80 }

  lemma {:induction false} AsciiSize(s: string)
    requires Ascii(s)
    ensures |Encode(s)| == |s|
  {
    if s != [] { AsciiSize(s[1..]); }
  }
}
