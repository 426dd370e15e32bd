/** One RPC end to end (ub_rpc_demo.c): client frame, server parse, table, server frame, client parse. */
module RpcExchange {
  import opened SimCore
  import opened RpcFraming
  import opened RpcServer

  /** A received packet, its sender, and what a handler would answer to it now. */
  datatype Datagram = Datagram(peer: string, bytes: string, answer: string)

  /** The request in a packet; packets that do not parse are skipped by the server. */
  function Request(d: Datagram): Option<Arrival> {
    var m := Parse(Req, d.bytes, 64, 512);
    if m == None || m.value.op == None then None
    else Some(Arrival(Key(d.peer, m.value.id, m.value.op.value), d.answer))
  }

  function Requests(ds: seq<Datagram>): seq<Arrival> {
    if ds == [] then []
    else
      var init, r := Requests(ds[..|ds| - 1]), Request(ds[|ds| - 1]);
      if r == None then init else init + [r.value]
  }

  /** What the server sends back to a packet that follows the packets ds. */
  function Response(ds: seq<Datagram>, d: Datagram): Option<string> {
    var r := Request(d);
    if r == None then None
    else Build(Rsp, 1024, r.value.key.id, "OK", Reply(After(Requests(ds)), r.value))
  }

  /** Handlers fill a 512-byte C string. */
  predicate AnswerOk(s: string) { CString(s) && |s| < 512 }

  ghost predicate AnswersOk(trace: seq<Arrival>) { forall i :: 0 <= i < |trace| ==> AnswerOk(trace[i].answer) }

  lemma {:induction false} CachedOk(trace: seq<Arrival>)
    requires AnswersOk(trace)
    ensures forall i :: 0 <= i < |After(trace).cached| ==> AnswerOk(After(trace).cached[i].payload)
  {
    if trace != [] { CachedOk(trace[..|trace| - 1]); }
  }

  lemma {:induction false} RequestsOk(ds: seq<Datagram>)
    requires forall i :: 0 <= i < |ds| ==> AnswerOk(ds[i].answer)
    ensures AnswersOk(Requests(ds))
  {
    if ds != [] { RequestsOk(ds[..|ds| - 1]); }
  }

  /** A client's request frame reaches the server as that request. */
  lemma Arrives(d: Datagram, id: int, op: string, payload: string)
    requires IsInt(id) && OpOk(op) && CString(op) && CString(payload)
    requires Build(Req, 1024, id, op, payload) == Some(d.bytes)
    ensures Request(d) == Some(Arrival(Key(d.peer, id, op), d.answer))
  {
    RoundTrip(Req, 1024, id, op, payload, [], 64, 512);
    assert [] + d.bytes == d.bytes;
    assert op[..|op|] == op;
  }

  /** A server's response frame gives the client the id it asked with, "OK" and the payload. */
  lemma Returns(id: int, reply: string)
    requires IsInt(id) && AnswerOk(reply)
    ensures Build(Rsp, 1024, id, "OK", reply).Some?
    ensures Parse(Rsp, Build(Rsp, 1024, id, "OK", reply).value, 64, 512)
        == Some(Message(id, Some("OK"), |reply|, Some(reply)))
  {
    ResponseFits(id, reply);
    RoundTrip(Rsp, 1024, id, "OK", reply, [], 64, 512);
    var b := Build(Rsp, 1024, id, "OK", reply).value;
    assert [] + b == b && "OK"[..2] == "OK" && reply[..|reply|] == reply;
  }

  /**
   After any packets, a request is always answered, the answer parses at the client, and it is
   the answer first computed for that request if the request is among the first 256 distinct ones.
   */
  lemma Exchange(ds: seq<Datagram>, d: Datagram, id: int, op: string, payload: string)
    requires IsInt(id) && OpOk(op) && CString(op) && CString(payload)
    requires Build(Req, 1024, id, op, payload) == Some(d.bytes)
    requires AnswerOk(d.answer) && forall i :: 0 <= i < |ds| ==> AnswerOk(ds[i].answer)
    ensures Response(ds, d).Some?
    ensures var k, all := Key(d.peer, id, op), Requests(ds + [d]);
      var reply := if k in Kept(all) then FirstAnswer(all, k) else d.answer;
      Parse(Rsp, Response(ds, d).value, 64, 512) == Some(Message(id, Some("OK"), |reply|, Some(reply)))
  {
    Arrives(d, id, op, payload);
    var a, trace := Request(d).value, Requests(ds);
    var all := trace + [a];
    assert (ds + [d])[..|ds|] == ds;
    assert Requests(ds + [d]) == all;
    assert all[..|trace|] == trace;
    RepliesAreFirst(all, |trace|);
    RequestsOk(ds);
    CachedOk(trace);
    Returns(id, Reply(After(trace), a));
  }
}
