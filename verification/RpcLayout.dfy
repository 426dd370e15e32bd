/** The text of an RPC frame, character by character, and what the number parser makes of odd input. */
module RpcLayout {
  import opened SimCore
  import opened RpcFraming

  /** A decimal numeral: digits only, no leading zero. */
  predicate IsNumeral(s: string) { s != [] && AllDigits(s) && (s[0] == '0' ==> |s| == 1) }

  /** The numbers in a frame are written as numerals of their values. */
  lemma {:induction false} WritesNumeral(n: nat)
    ensures IsNumeral(DecNat(n)) && Value(DecNat(n)) == n
  {
    DecNatValue(n);
    if n >= 10 { WritesNumeral(n / 10); NotZero(n / 10); }
  }

  lemma {:induction false} NotZero(n: nat)
    requires n > 0
    ensures DecNat(n)[0] != '0'
  {
    if n >= 10 { NotZero(n / 10); }
  }

  /** A numeral with leading digit d is worth at least that digit. */
  lemma {:induction false} NumeralPositive(s: string)
    requires IsNumeral(s) && s[0] != '0'
    ensures Value(s) > 0
  {
    if |s| > 1 {
      assert s[..|s| - 1][0] == s[0];
      NumeralPositive(s[..|s| - 1]);
    }
  }

  /** No other numeral has that value. */
  lemma {:induction false} NumeralUnique(s: string)
    requires IsNumeral(s)
    ensures s == DecNat(Value(s))
  {
    if |s| > 1 {
      var init, last := s[..|s| - 1], s[|s| - 1];
      NumeralUnique(init);
      NumeralPositive(init);
      assert s == init + [last];
      assert Value(s) == 10 * Value(init) + DigitValue(last);
      assert Value(s) / 10 == Value(init) && Value(s) % 10 == DigitValue(last);
    }
  }

  /** A frame is the tag, then id, op or status, payload length and payload, with colons between them. */
  lemma FrameText(k: Kind, id: int, op: string, payload: string)
    ensures Frame(k, id, op, payload) ==
              (if k.Req? then "RPC:" else "RPC_RSP:") + Signed(id) + ":" + op + ":" + DecNat(|payload|) + ":" + payload
  {
    assert Dec(id) == Signed(id);
    Colons(Tag(k), Signed(id), op, DecNat(|payload|), payload);
  }

  /** A minus sign if need be, and the numeral of the magnitude. */
  function Signed(id: int): string { (if id < 0 then "-" else "") + DecNat(if id < 0 then -id else id) }

  lemma Colons(tag: string, id: string, op: string, length: string, payload: string)
    ensures tag + (id + ([':'] + (op + ([':'] + (length + ([':'] + payload))))))
         == tag + id + ":" + op + ":" + length + ":" + payload
  {
  }

  lemma OneDigit(n: nat)
    requires n < 10
    ensures DecNat(n) == [DigitChar(n)]
  {
  }

  /** A whole request, as it goes over the wire. */
  lemma RequestExample()
    ensures Build(Req, 64, 7, "ECHO", "hi") == Some("RPC:7:ECHO:2:hi")
  {
    FrameText(Req, 7, "ECHO", "hi");
    OneDigit(7);
    OneDigit(2);
    assert DecNat(7) == "7" && DecNat(2) == "2";
    assert Frame(Req, 7, "ECHO", "hi") == "RPC:7:ECHO:2:hi";
  }

  /** A whole response. */
  lemma ResponseExample()
    ensures Build(Rsp, 64, -5, "OK", "") == Some("RPC_RSP:-5:OK:0:")
  {
    FrameText(Rsp, -5, "OK", "");
    OneDigit(5);
    OneDigit(0);
    assert DecNat(5) == "5" && DecNat(0) == "0";
    assert Frame(Rsp, -5, "OK", "") == "RPC_RSP:-5:OK:0:";
  }

  // ----- Numbers the other side may send -----------------------------------------------------

  predicate AllSpaces(s: string) { forall i :: 0 <= i < |s| ==> IsSpace(s[i]) }

  lemma {:induction false} SpacesRun(pad: string, rest: string)
    requires AllSpaces(pad) && (rest == [] || !IsSpace(rest[0]))
    ensures SpaceRun(pad + rest) == |pad|
  {
    if pad == [] {
      assert pad + rest == rest;
    } else {
      SpacesRun(pad[1..], rest);
      assert (pad + rest)[1..] == pad[1..] + rest;
    }
  }

  predicate IsSign(s: string) { |s| <= 1 && (|s| == 1 ==> s[0] == '-' || s[0] == '+') }
  predicate Minus(s: string) { |s| == 1 && s[0] == '-' }

  /** What is left of a string once white space is skipped, and then its sign. */
  lemma StrtolFrom(s: string, t: string, u: string, ds: string, rest: string)
    requires t == s[SpaceRun(s)..] && t != []
    requires u == if t[0] == '-' || t[0] == '+' then t[1..] else t
    requires u == ds + rest && ds != [] && AllDigits(ds) && (rest == [] || !IsDigit(rest[0]))
    ensures var v: int := if t[0] == '-' then 0 - Value(ds) else Value(ds);
      Strtol(s) == if -LONG_MAX - 1 <= v <= LONG_MAX then Some((v, rest)) else None
  {
    DigitsRun(ds, rest);
    assert u[..|ds|] == ds && u[|ds|..] == rest;
  }

  /**
   strtol: leading white space, an optional sign and digits convert to the number they write,
   leading zeros or not, unless it overflows a 64-bit long; the rest is left over.
   */
  lemma StrtolReads(s: string, pad: string, sign: string, ds: string, rest: string, v: int)
    requires s == pad + (sign + (ds + rest)) && AllSpaces(pad) && IsSign(sign)
    requires ds != [] && AllDigits(ds) && (rest == [] || !IsDigit(rest[0]))
    requires v == if Minus(sign) then 0 - Value(ds) else Value(ds)
    ensures Strtol(s) == if -LONG_MAX - 1 <= v <= LONG_MAX then Some((v, rest)) else None
  {
    var u := ds + rest;
    var t := sign + u;
    assert u[0] == ds[0] && IsDigit(u[0]);
    if sign == [] { assert t == u; } else { assert t[0] == sign[0] && t[1..] == u; }
    SpacesRun(pad, t);
    assert (pad + t)[|pad|..] == t;
    StrtolFrom(s, t, u, ds, rest);
  }

  /** Nothing converts where no digit follows the white space and the sign. */
  lemma StrtolRefuses(pad: string, sign: string, rest: string)
    requires AllSpaces(pad) && IsSign(sign) && sign != []
    requires rest == [] || !IsDigit(rest[0])
    ensures Strtol(pad + (sign + rest)) == None
  {
    var t := sign + rest;
    SpacesRun(pad, t);
    assert (pad + t)[|pad|..] == t && t[1..] == rest;
  }

  /** A number as strtol reads it: white space, a sign, digits, and no overflow of a 64-bit long. */
  predicate Number(pad: string, sign: string, ds: string, v: int) {
    && AllSpaces(pad) && IsSign(sign) && ds != [] && AllDigits(ds)
    && v == (if Minus(sign) then 0 - Value(ds) else Value(ds)) && -LONG_MAX - 1 <= v <= LONG_MAX
  }

  ghost predicate Numeric(num: string, v: int) {
    exists pad, sign, ds :: num == pad + (sign + ds) && Number(pad, sign, ds, v)
  }

  lemma {:induction false} SpacesFront(s: string)
    ensures AllSpaces(s[..SpaceRun(s)])
  {
    if s != [] && IsSpace(s[0]) {
      SpacesFront(s[1..]);
      assert s[..SpaceRun(s)] == [s[0]] + s[1..][..SpaceRun(s[1..])];
    }
  }

  lemma SignSplits(t: string) returns (sign: string, u: string)
    requires t != []
    ensures u == (if t[0] == '-' || t[0] == '+' then t[1..] else t) && t == sign + u
    ensures IsSign(sign) && (Minus(sign) <==> t[0] == '-')
  {
    if t[0] == '-' || t[0] == '+' {
      sign, u := [t[0]], t[1..];
    } else {
      sign, u := [], t;
    }
  }

  lemma StrtolParts(s: string, t: string, u: string, n: nat, v: int, rest: string)
    requires Strtol(s) == Some((v, rest)) && t == s[SpaceRun(s)..] && t != []
    requires u == (if t[0] == '-' || t[0] == '+' then t[1..] else t) && n == DigitRun(u)
    ensures n > 0 && -LONG_MAX - 1 <= v <= LONG_MAX && rest == u[n..]
    ensures v == if t[0] == '-' then 0 - Value(u[..n]) else Value(u[..n])
  {
  }

  lemma StrtolNotEmpty(s: string)
    requires Strtol(s).Some?
    ensures s[SpaceRun(s)..] != []
  {
  }

  lemma Halves(s: string, k: nat)
    requires k <= |s|
    ensures s == s[..k] + s[k..]
  {
  }

  /** The digits of a number and what follows them. */
  lemma DigitsOff(u: string, n: nat)
    requires n == DigitRun(u)
    ensures AllDigits(u[..n]) && u == u[..n] + u[n..]
  {
    Halves(u, n);
  }

  /** What strtol reads once white space is skipped. */
  lemma StrtolBack(s: string, t: string, v: int, rest: string) returns (sign: string, ds: string)
    requires Strtol(s) == Some((v, rest)) && t == s[SpaceRun(s)..] && t != []
    ensures IsSign(sign) && ds != [] && AllDigits(ds) && t == sign + (ds + rest)
    ensures v == (if Minus(sign) then 0 - Value(ds) else Value(ds)) && -LONG_MAX - 1 <= v <= LONG_MAX
  {
    var u: string;
    sign, u := SignSplits(t);
    var n := DigitRun(u);
    DigitsOff(u, n);
    ds := u[..n];
    StrtolParts(s, t, u, n, v, rest);
  }

  lemma SpacesOff(s: string, k: nat)
    requires k == SpaceRun(s)
    ensures AllSpaces(s[..k]) && s == s[..k] + s[k..]
  {
    SpacesFront(s);
    Halves(s, k);
  }

  /** Whatever converts is such a number. */
  lemma StrtolSplits(s: string, v: int, rest: string) returns (pad: string, sign: string, ds: string)
    requires Strtol(s) == Some((v, rest))
    ensures Number(pad, sign, ds, v) && s == pad + (sign + (ds + rest))
  {
    var k := SpaceRun(s);
    SpacesOff(s, k);
    StrtolNotEmpty(s);
    pad := s[..k];
    sign, ds := StrtolBack(s, s[k..], v, rest);
  }

  lemma Joined(pad: string, sign: string, ds: string, rest: string)
    ensures pad + (sign + (ds + rest)) == pad + (sign + ds) + rest
  {
  }

  lemma FieldConverts(s: string, n: int, rest: string) returns (v: int)
    requires NumberField(s) == Some((n, rest))
    ensures Strtol(s) == Some((v, [':'] + rest)) && n == ToInt(v)
  {
    var left: string;
    v, left := Strtol(s).value.0, Strtol(s).value.1;
    assert left == [left[0]] + left[1..];
  }

  lemma NumericIs(s: string, pad: string, sign: string, ds: string, v: int, rest: string)
    requires Number(pad, sign, ds, v) && s == pad + (sign + (ds + ([':'] + rest)))
    ensures exists num :: Numeric(num, v) && s == num + ([':'] + rest)
  {
    Joined(pad, sign, ds, [':'] + rest);
    assert Numeric(pad + (sign + ds), v);
  }

  lemma FieldIsNumber(s: string, n: int, rest: string)
    requires NumberField(s) == Some((n, rest))
    ensures exists num, v :: Numeric(num, v) && s == num + ([':'] + rest) && n == ToInt(v)
  {
    var v := FieldConverts(s, n, rest);
    var pad, sign, ds := StrtolSplits(s, v, [':'] + rest);
    NumericIs(s, pad, sign, ds, v, rest);
    var num :| Numeric(num, v) && s == num + ([':'] + rest);
  }

  lemma ConvertsToField(s: string, v: int, tail: string, rest: string)
    requires Strtol(s) == Some((v, tail)) && tail == [':'] + rest
    ensures NumberField(s) == Some((ToInt(v), rest))
  {
    assert tail[0] == ':' && tail[1..] == rest;
  }

  lemma NumberConverts(s: string, pad: string, sign: string, ds: string, v: int, tail: string)
    requires Number(pad, sign, ds, v) && tail != [] && tail[0] == ':' && s == pad + (sign + (ds + tail))
    ensures Strtol(s) == Some((v, tail))
  {
    StrtolReads(s, pad, sign, ds, tail, v);
  }

  lemma SplitIsField(s: string, pad: string, sign: string, ds: string, v: int, rest: string)
    requires Number(pad, sign, ds, v) && s == pad + (sign + (ds + ([':'] + rest)))
    ensures NumberField(s) == Some((ToInt(v), rest))
  {
    NumberConverts(s, pad, sign, ds, v, [':'] + rest);
    ConvertsToField(s, v, [':'] + rest, rest);
  }

  lemma NumberIsField(s: string, num: string, v: int, rest: string)
    requires Numeric(num, v) && s == num + ([':'] + rest)
    ensures NumberField(s) == Some((ToInt(v), rest))
  {
    var pad, sign, ds :| num == pad + (sign + ds) && Number(pad, sign, ds, v);
    Joined(pad, sign, ds, [':'] + rest);
    SplitIsField(s, pad, sign, ds, v, rest);
  }

  /** A number field is a number and a colon, and nothing else is one; its value is truncated to an int. */
  lemma NumberFieldExactly(s: string, n: int, rest: string)
    ensures NumberField(s) == Some((n, rest)) <==>
              exists num, v :: Numeric(num, v) && s == num + ([':'] + rest) && n == ToInt(v)
  {
    if NumberField(s) == Some((n, rest)) { FieldIsNumber(s, n, rest); }
    if num, v :| Numeric(num, v) && s == num + ([':'] + rest) && n == ToInt(v) { NumberIsField(s, num, v, rest); }
  }

  /** An op or status field is at most 63 characters without a colon, and a colon; nothing else is one. */
  lemma OpFieldExactly(s: string, op: string, rest: string)
    ensures OpField(s) == Some((op, rest)) <==> OpOk(op) && s == op + ([':'] + rest)
  {
    if OpField(s) == Some((op, rest)) {
      assert s == s[..|op|] + ([s[|op|]] + s[|op| + 1..]);
    }
    if OpOk(op) && s == op + ([':'] + rest) { OpTrip(op, rest); }
  }
}
