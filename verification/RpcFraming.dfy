/**
 Text framing of the RPC demo (ub_rpc_demo.c): "RPC:<id>:<op>:<len>:<payload>" requests and
 "RPC_RSP:<id>:<status>:<len>:<payload>" responses.  The two formats differ in their tag only.
 A string is the bytes of a C string up to its terminator; a received packet may hold NUL bytes.
 */
module RpcFraming {
  import opened SimCore

  datatype Kind = Req | Rsp

  function Tag(k: Kind): string { if k.Req? then "RPC:" else "RPC_RSP:" }

  /**
   id, op or status, announced length (a size_t) and payload, as copied out; a buffer of size zero
   is left unwritten.
   */
  datatype Message = Message(id: int, op: Option<string>, length: nat, payload: Option<string>)

  /** A string cut to a buffer with room for its terminator. */
  function Fitted(s: string, size: nat): (r: Option<string>)
    ensures size > |s| ==> r == Some(s)
  {
    if size == 0 then None else
    assert size > |s| ==> s[..|s|] == s;
    Some(s[..Min(|s|, size - 1)])
  }

  const INT_MAX: int := 0x7fffffff
  const LONG_MAX: int := 0x7fff_ffff_ffff_ffff
  const OP_MAX: nat := 63

  predicate IsInt(v: int) { -INT_MAX - 1 <= v <= INT_MAX }

  // ----- Decimal numbers -------------------------------------------------------------------

  predicate IsDigit(c: char) { '0' <= c <= '9' }

  function DigitChar(d: nat): char
    requires d < 10
  {
    '0' + d as char
  }

  function DigitValue(c: char): nat
    requires IsDigit(c)
  {
    c as nat - '0' as nat
  }

  /** %zu */
  function DecNat(n: nat): (s: string)
    ensures s != []
  {
    if n < 10 then [DigitChar(n)] else DecNat(n / 10) + [DigitChar(n % 10)]
  }

  /** %d */
  function Dec(v: int): string { if v < 0 then ['-'] + DecNat(-v) else DecNat(v) }

  function Value(ds: string): nat
    requires forall i :: 0 <= i < |ds| ==> IsDigit(ds[i])
  {
    if ds == [] then 0 else 10 * Value(ds[..|ds| - 1]) + DigitValue(ds[|ds| - 1])
  }

  predicate IsSpace(c: char) { c == ' ' || '\t' <= c <= '\r' }

  function SpaceRun(s: string): (n: nat)
    ensures n <= |s|
  {
    if s == [] || !IsSpace(s[0]) then 0 else 1 + SpaceRun(s[1..])
  }

  function DigitRun(s: string): (n: nat)
    ensures n <= |s| && forall i :: 0 <= i < n ==> IsDigit(s[i])
  {
    if s == [] || !IsDigit(s[0]) then 0 else 1 + DigitRun(s[1..])
  }

  /**
   strtol in base 10 with a 64-bit long: the value and the rest of the string, unless nothing
   converts or it overflows.
   */
  function Strtol(s: string): Option<(int, string)> {
    var t := s[SpaceRun(s)..];
    var u := if t != [] && (t[0] == '-' || t[0] == '+') then t[1..] else t;
    var n := DigitRun(u);
    if n == 0 then None
    else
      var v: int := if t[0] == '-' then 0 - Value(u[..n]) else Value(u[..n]);
      if v < -LONG_MAX - 1 || v > LONG_MAX then None else Some((v, u[n..]))
  }

  /** The conversion of a long to int. */
  function ToInt(v: int): int { (v + INT_MAX + 1) % (2 * (INT_MAX + 1)) - INT_MAX - 1 }

  /** The conversion of an int to size_t. */
  function ToSize(v: int): nat
    requires IsInt(v)
  {
    if v < 0 then v + 2 * (LONG_MAX + 1) else v
  }

  lemma ToIntKeeps(v: int)
    ensures IsInt(ToInt(v)) && (IsInt(v) ==> ToInt(v) == v)
  {
  }

  // ----- Building --------------------------------------------------------------------------

  /** Everything behind the tag. */
  function Fields(id: int, op: string, payload: string): string {
    Dec(id) + ([':'] + (op + ([':'] + (DecNat(|payload|) + ([':'] + payload)))))
  }

  function Frame(k: Kind, id: int, op: string, payload: string): string {
    Tag(k) + Fields(id, op, payload)
  }

  /** rpc_build_request and rpc_build_response: the text and its terminator must fit the buffer. */
  function Build(k: Kind, bufLen: nat, id: int, op: string, payload: string): Option<string> {
    if |Frame(k, id, op, payload)| < bufLen then Some(Frame(k, id, op, payload)) else None
  }

  // ----- Parsing ---------------------------------------------------------------------------

  /** What C string functions see of a received packet. */
  function Cut(pkt: string): (s: string)
    ensures '\0' !in s && s <= pkt
  {
    if pkt == [] || pkt[0] == '\0' then [] else [pkt[0]] + Cut(pkt[1..])
  }

  /** The tag stands at the front, or behind two stray bytes. */
  function Body(k: Kind, s: string): Option<string> {
    if Tag(k) <= s then Some(s[|Tag(k)|..])
    else if |s| >= |Tag(k)| + 2 && Tag(k) <= s[2..] then Some(s[2 + |Tag(k)|..])
    else None
  }

  /** A number followed by a colon. */
  function NumberField(s: string): (f: Option<(int, string)>)
    ensures f.Some? ==> IsInt(f.value.0)
  {
    var r := Strtol(s);
    if r == None || r.value.1 == [] || r.value.1[0] != ':' then None else Some((ToInt(r.value.0), r.value.1[1..]))
  }

  /** Length of the op or status: up to a colon, the end, or the size of the buffer. */
  function OpRun(s: string): (n: nat)
    ensures n <= |s| && n <= OP_MAX && (n < |s| && n < OP_MAX ==> s[n] == ':')
    ensures ':' !in s[..n]
  {
    OpRunFrom(s, 0)
  }

  function OpRunFrom(s: string, i: nat): (n: nat)
    requires i <= |s| && i <= OP_MAX && ':' !in s[..i]
    ensures i <= n <= |s| && n <= OP_MAX && (n < |s| && n < OP_MAX ==> s[n] == ':')
    ensures ':' !in s[..n]
    decreases |s| - i
  {
    if i < |s| && s[i] != ':' && i < OP_MAX then OpRunFrom(s, i + 1) else i
  }

  function OpField(s: string): Option<(string, string)> {
    var n := OpRun(s);
    if n == |s| || s[n] != ':' then None else Some((s[..n], s[n + 1..]))
  }

  function Parse(k: Kind, pkt: string, opLen: nat, cap: nat): Option<Message>
  {
    var body := Body(k, Cut(pkt));
    if body == None then None else ParseFields(body.value, opLen, cap)
  }

  function ParseFields(body: string, opLen: nat, cap: nat): Option<Message>
  {
    var id := NumberField(body);
    if id == None then None else
    var op := OpField(id.value.1);
    if op == None then None else
    var len := NumberField(op.value.1);
    if len == None then None else
    Some(Copied(id.value.0, op.value.0, len.value.0, len.value.1, opLen, cap))
  }

  /** The out-parameters: op and payload cut to the caller's buffers. */
  function Copied(id: int, op: string, length: int, rest: string, opLen: nat, cap: nat): Message
    requires IsInt(length)
  {
    Message(id, Fitted(op, opLen), ToSize(length), Fitted(rest[..Min(ToSize(length), |rest|)], cap))
  }

  /** rpc_parse_request and rpc_parse_response, with their scan for the op or status. */
  method ParsePacket(k: Kind, pkt: string, opLen: nat, cap: nat) returns (r: Option<Message>)
    ensures r == Parse(k, pkt, opLen, cap)
  {
    var body := Body(k, Cut(pkt));
    if body == None {
      return None;
    }
    var id := NumberField(body.value);
    if id == None {
      return None;
    }
    var p := id.value.1;
    var i := 0;
    while i < |p| && p[i] != ':' && i < OP_MAX
      invariant i <= |p| && i <= OP_MAX && ':' !in p[..i]
      invariant OpRunFrom(p, i) == OpRun(p)
    {
      i := i + 1;
    }
    if i == |p| || p[i] != ':' {
      return None;
    }
    var len := NumberField(p[i + 1..]);
    if len == None {
      return None;
    }
    return Some(Copied(id.value.0, p[..i], len.value.0, len.value.1, opLen, cap));
  }

  // ----- Numbers survive -------------------------------------------------------------------

  predicate AllDigits(s: string) { forall i :: 0 <= i < |s| ==> IsDigit(s[i]) }

  lemma {:induction false} DecNatValue(n: nat)
    ensures AllDigits(DecNat(n)) && Value(DecNat(n)) == n
  {
    if n >= 10 {
      DecNatValue(n / 10);
      var init := DecNat(n / 10);
      assert DecNat(n)[..|init|] == init;
    }
  }

  lemma {:induction false} DigitsRun(ds: string, rest: string)
    requires AllDigits(ds) && (rest == [] || !IsDigit(rest[0]))
    ensures DigitRun(ds + rest) == |ds|
  {
    if ds == [] {
      assert ds + rest == rest;
    } else {
      DigitsRun(ds[1..], rest);
      assert (ds + rest)[1..] == ds[1..] + rest;
    }
  }

  lemma StrtolNat(n: nat, rest: string)
    requires n <= LONG_MAX && (rest == [] || !IsDigit(rest[0]))
    ensures Strtol(DecNat(n) + rest) == Some((n, rest))
  {
    DecNatValue(n);
    DigitsRun(DecNat(n), rest);
    var s := DecNat(n) + rest;
    assert s[0] == DecNat(n)[0] && IsDigit(s[0]);
    assert s[..|DecNat(n)|] == DecNat(n) && s[|DecNat(n)|..] == rest && s[0..] == s;
  }

  lemma StrtolNegative(n: nat, rest: string)
    requires n <= LONG_MAX && (rest == [] || !IsDigit(rest[0]))
    ensures Strtol(['-'] + (DecNat(n) + rest)) == Some((0 - n, rest))
  {
    DecNatValue(n);
    DigitsRun(DecNat(n), rest);
    var u := DecNat(n) + rest;
    var s := ['-'] + u;
    assert s[1..] == u && s[0..] == s;
    assert u[..|DecNat(n)|] == DecNat(n) && u[|DecNat(n)|..] == rest;
  }

  lemma StrtolDec(v: int, rest: string)
    requires IsInt(v) && (rest == [] || !IsDigit(rest[0]))
    ensures Strtol(Dec(v) + rest) == Some((v, rest))
  {
    if v < 0 {
      assert Dec(v) + rest == ['-'] + (DecNat(-v) + rest);
      StrtolNegative(-v, rest);
    } else {
      StrtolNat(v, rest);
    }
  }

  lemma NumberTrip(v: int, rest: string)
    requires IsInt(v)
    ensures NumberField(Dec(v) + ([':'] + rest)) == Some((v, rest))
  {
    StrtolDec(v, [':'] + rest);
    ToIntKeeps(v);
    assert ([':'] + rest)[1..] == rest;
  }

  // ----- Fields survive --------------------------------------------------------------------

  predicate OpOk(op: string) { ':' !in op && |op| <= OP_MAX }

  lemma {:induction false} OpRunsTo(op: string, rest: string, i: nat)
    requires OpOk(op) && i <= |op| && ':' !in (op + ([':'] + rest))[..i]
    ensures OpRunFrom(op + ([':'] + rest), i) == |op|
    decreases |op| - i
  {
    var s := op + ([':'] + rest);
    if i < |op| {
      assert s[i] == op[i] && s[..i + 1] == s[..i] + [s[i]];
      OpRunsTo(op, rest, i + 1);
    }
  }

  lemma OpTrip(op: string, rest: string)
    requires OpOk(op)
    ensures OpField(op + ([':'] + rest)) == Some((op, rest))
  {
    var s := op + ([':'] + rest);
    OpRunsTo(op, rest, 0);
    assert s[..|op|] == op && s[|op| + 1..] == rest;
  }

  lemma {:induction false} CutAll(s: string)
    requires '\0' !in s
    ensures Cut(s) == s
  {
    if s != [] { CutAll(s[1..]); }
  }

  /** Two stray bytes never make a tag themselves. */
  lemma BodyTrip(k: Kind, pre: string, t: string)
    requires |pre| == 0 || |pre| == 2
    ensures Body(k, pre + (Tag(k) + t)) == Some(t)
  {
    var u := Tag(k) + t;
    var s := pre + u;
    assert u[|Tag(k)|..] == t;
    if |pre| == 0 {
      assert s == u;
    } else {
      assert s[2..] == u && s[2 + |Tag(k)|..] == t;
      assert s[2] == 'R' && Tag(k)[2] == 'C';
    }
  }

  lemma {:induction false} NoNul(n: nat)
    ensures '\0' !in DecNat(n)
  {
    if n >= 10 { NoNul(n / 10); }
  }

  predicate CString(s: string) { '\0' !in s }

  lemma FrameIsCString(k: Kind, id: int, op: string, payload: string)
    requires CString(op) && CString(payload)
    ensures CString(Frame(k, id, op, payload))
  {
    NoNul(|payload|);
    NoNul(if id < 0 then -id else id);
    assert CString(Tag(k)) && CString(Dec(id)) && CString(DecNat(|payload|));
  }

  // ----- Main results ----------------------------------------------------------------------

  lemma LengthTrip(payload: string)
    requires |payload| <= INT_MAX
    ensures NumberField(DecNat(|payload|) + ([':'] + payload)) == Some((|payload| as int, payload))
  {
    NumberTrip(|payload|, payload);
  }

  lemma CopiedAll(id: int, op: string, payload: string, opLen: nat, cap: nat)
    requires |payload| <= INT_MAX
    ensures Copied(id, op, |payload|, payload, opLen, cap)
         == Message(id, Fitted(op, opLen), |payload|, Fitted(payload, cap))
  {
    assert payload[..|payload|] == payload;
  }

  lemma FieldsTrip(id: int, op: string, payload: string, opLen: nat, cap: nat)
    requires IsInt(id) && OpOk(op) && |payload| <= INT_MAX
    ensures ParseFields(Fields(id, op, payload), opLen, cap)
         == Some(Message(id, Fitted(op, opLen), |payload|, Fitted(payload, cap)))
  {
    var t := DecNat(|payload|) + ([':'] + payload);
    NumberTrip(id, op + ([':'] + t));
    OpTrip(op, t);
    LengthTrip(payload);
    CopiedAll(id, op, payload, opLen, cap);
  }

  /**
   Parsing undoes building, whatever the buffers: op and payload come back cut only to the
   caller's buffers, and two stray bytes in front change nothing.
   */
  lemma RoundTrip(k: Kind, bufLen: nat, id: int, op: string, payload: string, pre: string, opLen: nat, cap: nat)
    requires IsInt(id) && OpOk(op) && CString(op) && CString(payload) && CString(pre)
    requires |pre| == 0 || |pre| == 2
    requires bufLen <= INT_MAX && Build(k, bufLen, id, op, payload).Some?
    ensures Parse(k, pre + Build(k, bufLen, id, op, payload).value, opLen, cap)
         == Some(Message(id, Fitted(op, opLen), |payload|, Fitted(payload, cap)))
  {
    var pkt := Build(k, bufLen, id, op, payload).value;
    FrameIsCString(k, id, op, payload);
    CutAll(pre + pkt);
    BodyTrip(k, pre, Fields(id, op, payload));
    FieldsTrip(id, op, payload, opLen, cap);
  }

  /** Whatever a packet holds, an accepted op has no colon and at most 63 bytes. */
  lemma ParsedOpOk(k: Kind, pkt: string, opLen: nat, cap: nat)
    requires Parse(k, pkt, opLen, cap).Some? && Parse(k, pkt, opLen, cap).value.op.Some?
    ensures OpOk(Parse(k, pkt, opLen, cap).value.op.value)
  {
  }

  lemma RoundTripFits(k: Kind, bufLen: nat, id: int, op: string, payload: string, opLen: nat, cap: nat)
    requires IsInt(id) && CString(op) && CString(payload) && OpOk(op) && opLen > OP_MAX && cap > |payload|
    requires bufLen <= INT_MAX && Build(k, bufLen, id, op, payload).Some?
    ensures Parse(k, Build(k, bufLen, id, op, payload).value, opLen, cap)
         == Some(Message(id, Some(op), |payload|, Some(payload)))
  {
    RoundTrip(k, bufLen, id, op, payload, [], opLen, cap);
    assert [] + Build(k, bufLen, id, op, payload).value == Build(k, bufLen, id, op, payload).value;
  }

  /** With buffers large enough, the round trip succeeds exactly for colon-free ops of at most 63 bytes. */
  lemma RoundTripExactly(k: Kind, bufLen: nat, id: int, op: string, payload: string, opLen: nat, cap: nat)
    requires IsInt(id) && CString(op) && CString(payload) && opLen > OP_MAX && cap > |payload|
    requires bufLen <= INT_MAX && Build(k, bufLen, id, op, payload).Some?
    ensures (Parse(k, Build(k, bufLen, id, op, payload).value, opLen, cap)
             == Some(Message(id, Some(op), |payload|, Some(payload)))) <==> OpOk(op)
  {
    var pkt := Build(k, bufLen, id, op, payload).value;
    if OpOk(op) { RoundTripFits(k, bufLen, id, op, payload, opLen, cap); }
    NoOtherOp(k, pkt, opLen, cap, op);
  }

  lemma NoOtherOp(k: Kind, pkt: string, opLen: nat, cap: nat, op: string)
    ensures Parse(k, pkt, opLen, cap).Some? && Parse(k, pkt, opLen, cap).value.op == Some(op) ==> OpOk(op)
  {
    if Parse(k, pkt, opLen, cap).Some? && Parse(k, pkt, opLen, cap).value.op.Some? { ParsedOpOk(k, pkt, opLen, cap); }
  }

  /** Requests are never taken for responses, nor responses for requests. */
  lemma NeverConfused(k: Kind, other: Kind, id: int, op: string, payload: string, pre: string, opLen: nat, cap: nat)
    requires k != other && CString(op) && CString(payload) && CString(pre)
    requires |pre| == 0 || |pre| == 2
    ensures Parse(other, pre + Frame(k, id, op, payload), opLen, cap) == None
  {
    var f := Frame(k, id, op, payload);
    FrameIsCString(k, id, op, payload);
    CutAll(pre + f);
    WrongTag(k, other, pre, Fields(id, op, payload));
  }

  lemma WrongTag(k: Kind, other: Kind, pre: string, t: string)
    requires k != other && (|pre| == 0 || |pre| == 2)
    ensures Body(other, pre + (Tag(k) + t)) == None
  {
    var u := Tag(k) + t;
    var s := pre + u;
    assert u[0] == 'R' && u[2] == 'C' && u[3] == Tag(k)[3];
    if |pre| == 0 {
      assert s == u;
    } else {
      assert s[2..] == u && s[2] == 'R';
    }
  }

  // ----- Responses always fit --------------------------------------------------------------

  lemma {:induction false} DecNatLength(n: nat, digits: nat)
    requires digits > 0 && n < Pow10(digits)
    ensures |DecNat(n)| <= digits
  {
    if n >= 10 { DecNatLength(n / 10, digits - 1); }
  }

  function Pow10(n: nat): nat { if n == 0 then 1 else 10 * Pow10(n - 1) }

  /** The server's responses ("OK", payload below 512 bytes) always fit its 1024-byte buffer. */
  lemma ResponseFits(id: int, payload: string)
    requires IsInt(id) && |payload| < 512
    ensures Build(Rsp, 1024, id, "OK", payload).Some?
  {
    DecNatLength(|payload|, 3);
    DecNatLength(if id < 0 then -id else id, 10);
  }
}
