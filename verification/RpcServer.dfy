/**
 Duplicate suppression of the RPC server (run_rpc_server in ub_rpc_demo.c): a table of 256
 answered requests, never evicted.  What a handler would answer if it ran at an arrival is
 part of the arrival, since handlers read clocks, counters and /proc.
 */
module RpcServer {
  import opened SimCore

  const MAX_SEEN: nat := 256

  datatype Key = Key(peer: string, id: int, op: string)
  datatype Arrival = Arrival(key: Key, answer: string)
  datatype Entry = Entry(key: Key, payload: string)

  /** Answered requests in table order, and rpc_count. */
  datatype State = State(cached: seq<Entry>, count: nat)

  /** Position of a key in the table, or the table's length. */
  function Find(cached: seq<Entry>, k: Key): (i: nat)
    ensures i <= |cached| && (i < |cached| ==> cached[i].key == k)
    ensures forall j :: 0 <= j < i ==> cached[j].key != k
  {
    if cached == [] || cached[0].key == k then 0 else 1 + Find(cached[1..], k)
  }

  predicate Hit(s: State, k: Key) { Find(s.cached, k) < |s.cached| }

  function Reply(s: State, a: Arrival): string {
    if Hit(s, a.key) then s.cached[Find(s.cached, a.key)].payload else a.answer
  }

  function Serve(s: State, a: Arrival): State {
    if Hit(s, a.key) then s
    else State(if |s.cached| < MAX_SEEN then s.cached + [Entry(a.key, a.answer)] else s.cached, s.count + 1)
  }

  /** The server after a sequence of arrivals. */
  function After(trace: seq<Arrival>): State {
    if trace == [] then State([], 0) else Serve(After(trace[..|trace| - 1]), trace[|trace| - 1])
  }

  function ReplyAt(trace: seq<Arrival>, i: nat): string
    requires i < |trace|
  {
    Reply(After(trace[..i]), trace[i])
  }

  // ----- The server loop -------------------------------------------------------------------

  class Server {
    const seen: array<Option<Entry>>
    var count: nat
    ghost var cached: seq<Entry>

    ghost predicate Valid()
      reads this, seen
    {
      && seen.Length == MAX_SEEN && |cached| <= MAX_SEEN
      && (forall i :: 0 <= i < |cached| ==> seen[i] == Some(cached[i]))
      && (forall i :: |cached| <= i < MAX_SEEN ==> seen[i] == None)
    }

    ghost function View(): State
      reads this
    {
      State(cached, count)
    }

    constructor ()
      ensures Valid() && View() == After([]) && fresh(seen)
    {
      seen := new Option<Entry>[MAX_SEEN](_ => None);
      count := 0;
      cached := [];
    }

    /** Scans for the request; also finds the first free slot (MAX_SEEN if the table is full). */
    method Scan(k: Key) returns (duplicate: bool, slot: nat)
      requires Valid()
      ensures duplicate == Hit(View(), k)
      ensures slot == if duplicate then Find(cached, k) else |cached|
    {
      slot, duplicate := MAX_SEEN, false;
      var i := 0;
      while i < MAX_SEEN && !duplicate
        invariant 0 <= i <= MAX_SEEN
        invariant !duplicate ==> slot == if i <= |cached| then MAX_SEEN else |cached|
        invariant !duplicate ==> forall j :: 0 <= j < i && j < |cached| ==> cached[j].key != k
        invariant duplicate ==> slot < |cached| && cached[slot].key == k
        invariant duplicate ==> forall j :: 0 <= j < slot ==> cached[j].key != k
        decreases !duplicate, MAX_SEEN - i
      {
        if seen[i] == None {
          if slot == MAX_SEEN {
            slot := i;
          }
          i := i + 1;
        } else if seen[i].value.key == k {
          slot, duplicate := i, true;
        } else {
          i := i + 1;
        }
      }
    }

    /** One request: answered from the table, or executed and remembered while there is room. */
    method Handle(a: Arrival) returns (reply: string, executed: bool)
      requires Valid()
      modifies this`count, this`cached, seen
      ensures Valid() && View() == Serve(old(View()), a)
      ensures reply == Reply(old(View()), a) && executed == !Hit(old(View()), a.key)
    {
      var duplicate, slot := Scan(a.key);
      if duplicate {
        return seen[slot].value.payload, false;
      }
      if slot < MAX_SEEN {
        seen[slot] := Some(Entry(a.key, a.answer));
        cached := cached + [Entry(a.key, a.answer)];
      }
      count := count + 1;
      return a.answer, true;
    }

    /** The loop: requests in arrival order until the expected number has been executed (0: no limit). */
    method Run(trace: seq<Arrival>, expected: nat) returns (handled: nat, replies: seq<string>)
      requires Valid() && View() == After([])
      modifies this`count, this`cached, seen
      ensures Valid() && handled <= |trace| && View() == After(trace[..handled])
      ensures |replies| == handled && forall i :: 0 <= i < handled ==> replies[i] == ReplyAt(trace, i)
      ensures handled < |trace| ==> expected > 0 && count == expected
      ensures expected > 0 ==> count <= expected
    {
      handled, replies := 0, [];
      while handled < |trace| && !(expected > 0 && count >= expected)
        invariant 0 <= handled <= |trace| && Valid() && View() == After(trace[..handled])
        invariant |replies| == handled && forall i :: 0 <= i < handled ==> replies[i] == ReplyAt(trace, i)
        invariant expected > 0 ==> count <= expected
      {
        assert trace[..handled + 1][..handled] == trace[..handled];
        var reply, executed := Handle(trace[handled]);
        replies := replies + [reply];
        handled := handled + 1;
      }
    }
  }

  // ----- What the table holds --------------------------------------------------------------

  /** The distinct keys of a trace in order of first arrival. */
  function Firsts(trace: seq<Arrival>): seq<Key> {
    if trace == [] then []
    else
      var ks, k := Firsts(trace[..|trace| - 1]), trace[|trace| - 1].key;
      if k in ks then ks else ks + [k]
  }

  /** The first 256 distinct keys. */
  function Kept(trace: seq<Arrival>): seq<Key> { Firsts(trace)[..Min(MAX_SEEN, |Firsts(trace)|)] }

  /** The answer computed when a key first arrived. */
  function FirstAnswer(trace: seq<Arrival>, k: Key): string {
    if trace == [] then []
    else if k in Firsts(trace[..|trace| - 1]) then FirstAnswer(trace[..|trace| - 1], k)
    else trace[|trace| - 1].answer
  }

  function Occurrences(trace: seq<Arrival>, k: Key): nat {
    if trace == [] then 0
    else Occurrences(trace[..|trace| - 1], k) + if trace[|trace| - 1].key == k then 1 else 0
  }

  function Executions(trace: seq<Arrival>, k: Key): nat {
    if trace == [] then 0
    else
      var init, a := trace[..|trace| - 1], trace[|trace| - 1];
      Executions(init, k) + if a.key == k && !Hit(After(init), k) then 1 else 0
  }

  /** Arrivals whose key is not among the given ones. */
  function Outside(trace: seq<Arrival>, ks: seq<Key>): nat {
    if trace == [] then 0
    else Outside(trace[..|trace| - 1], ks) + if trace[|trace| - 1].key in ks then 0 else 1
  }

  ghost predicate Holds(cached: seq<Entry>, trace: seq<Arrival>) {
    && |cached| == |Kept(trace)|
    && forall i :: 0 <= i < |cached| ==> cached[i] == Entry(Kept(trace)[i], FirstAnswer(trace, Kept(trace)[i]))
  }

  lemma {:induction false} OccursIffFirst(trace: seq<Arrival>, k: Key)
    ensures Occurrences(trace, k) > 0 <==> k in Firsts(trace)
  {
    if trace != [] { OccursIffFirst(trace[..|trace| - 1], k); }
  }

  /** How one more arrival changes the kept keys. */
  lemma KeptStep(trace: seq<Arrival>)
    requires trace != []
    ensures var init, k := trace[..|trace| - 1], trace[|trace| - 1].key;
      Kept(trace) == if k !in Firsts(init) && |Kept(init)| < MAX_SEEN then Kept(init) + [k] else Kept(init)
  {
  }

  lemma HitIffKept(cached: seq<Entry>, trace: seq<Arrival>, k: Key)
    requires Holds(cached, trace)
    ensures Find(cached, k) < |cached| <==> k in Kept(trace)
  {
    var i := Find(cached, k);
    if k in Kept(trace) {
      var j :| 0 <= j < |Kept(trace)| && Kept(trace)[j] == k;
      assert cached[j].key == k;
    }
    if i < |cached| {
      assert Kept(trace)[i] == k;
    }
  }

  /** The table always holds exactly the first 256 distinct keys, each with its first answer. */
  lemma {:induction false} TableHoldsFirsts(trace: seq<Arrival>)
    ensures Holds(After(trace).cached, trace)
  {
    if trace != [] {
      var init, a := trace[..|trace| - 1], trace[|trace| - 1];
      TableHoldsFirsts(init);
      HitIffKept(After(init).cached, init, a.key);
      KeptStep(trace);
      forall i | 0 <= i < |Kept(init)| ensures FirstAnswer(trace, Kept(init)[i]) == FirstAnswer(init, Kept(init)[i]) {
        assert Kept(init)[i] in Firsts(init);
      }
    }
  }

  // ----- At most once ----------------------------------------------------------------------

  /** Every key among the first 256 is executed once; any other is executed at every arrival. */
  lemma {:induction false} ExecutionsExact(trace: seq<Arrival>, k: Key)
    ensures Executions(trace, k) == if k in Kept(trace) then 1 else Occurrences(trace, k)
  {
    if trace != [] {
      var init := trace[..|trace| - 1];
      ExecutionsExact(init, k);
      TableHoldsFirsts(init);
      HitIffKept(After(init).cached, init, k);
      KeptStep(trace);
      OccursIffFirst(init, k);
    }
  }

  ghost predicate NoneTwice(trace: seq<Arrival>) { forall k :: Executions(trace, k) <= 1 }

  ghost predicate LateKeysOnce(trace: seq<Arrival>) {
    forall k :: Occurrences(trace, k) > 1 ==> k in Kept(trace)
  }

  /** The server executes no request twice exactly when no key past the first 256 arrives again. */
  lemma AtMostOnceExactly(trace: seq<Arrival>)
    ensures NoneTwice(trace) <==> LateKeysOnce(trace)
  {
    if NoneTwice(trace) {
      forall k | Occurrences(trace, k) > 1 ensures k in Kept(trace) {
        ExecutionsExact(trace, k);
        assert Executions(trace, k) <= 1;
      }
    }
    if LateKeysOnce(trace) {
      forall k ensures Executions(trace, k) <= 1 { ExecutionsExact(trace, k); }
    }
  }

  lemma {:induction false} FirstAnswerStable(trace: seq<Arrival>, i: nat, k: Key)
    requires i <= |trace| && k in Firsts(trace[..i])
    ensures k in Firsts(trace) && FirstAnswer(trace, k) == FirstAnswer(trace[..i], k)
  {
    if i == |trace| {
      assert trace[..i] == trace;
    } else {
      assert trace[..|trace| - 1][..i] == trace[..i];
      FirstAnswerStable(trace[..|trace| - 1], i, k);
    }
  }

  lemma {:induction false} KeptStable(trace: seq<Arrival>, i: nat)
    requires i <= |trace|
    ensures Kept(trace[..i]) <= Kept(trace) && Firsts(trace[..i]) <= Firsts(trace)
  {
    if i == |trace| {
      assert trace[..i] == trace;
    } else {
      assert trace[..|trace| - 1][..i] == trace[..i];
      KeptStable(trace[..|trace| - 1], i);
      KeptStep(trace);
    }
  }

  /** Every reply to one of the first 256 keys carries that key's first answer; other replies carry their own. */
  lemma RepliesAreFirst(trace: seq<Arrival>, i: nat)
    requires i < |trace|
    ensures ReplyAt(trace, i)
         == if trace[i].key in Kept(trace) then FirstAnswer(trace, trace[i].key) else trace[i].answer
  {
    var init, k := trace[..i], trace[i].key;
    var upto := trace[..i + 1];
    assert upto[..i] == init;
    TableHoldsFirsts(init);
    HitIffKept(After(init).cached, init, k);
    KeptStable(trace, i);
    KeptStable(trace, i + 1);
    KeptStep(upto);
    FirstAnswerStable(trace, i + 1, k);
    LateStaysLate(trace, i + 1, k);
    if k in Kept(init) { assert k in Firsts(init); }
  }

  /** A key that was not kept when it arrived is never kept. */
  lemma LateStaysLate(trace: seq<Arrival>, i: nat, k: Key)
    requires i <= |trace| && k in Firsts(trace[..i])
    ensures k in Kept(trace) <==> k in Kept(trace[..i])
  {
    KeptStable(trace, i);
    FirstsDistinct(trace);
    var fs, gs := Firsts(trace[..i]), Firsts(trace);
    var j :| 0 <= j < |fs| && fs[j] == k;
    assert gs[j] == k;
    if k in Kept(trace) {
      var n :| 0 <= n < |Kept(trace)| && Kept(trace)[n] == k;
      assert gs[n] == k;
      assert n == j;
      assert Kept(trace[..i])[j] == k;
    }
  }

  lemma {:induction false} FirstsDistinct(trace: seq<Arrival>)
    ensures forall i, j :: 0 <= i < j < |Firsts(trace)| ==> Firsts(trace)[i] != Firsts(trace)[j]
  {
    if trace != [] { FirstsDistinct(trace[..|trace| - 1]); }
  }

  lemma {:induction false} OutsideUnseen(trace: seq<Arrival>, ks: seq<Key>, k: Key)
    requires k !in Firsts(trace)
    ensures Outside(trace, ks + [k]) == Outside(trace, ks)
  {
    if trace != [] { OutsideUnseen(trace[..|trace| - 1], ks, k); }
  }

  /** rpc_count: one for each kept key, one for every arrival of any other. */
  lemma {:induction false} CountExact(trace: seq<Arrival>)
    ensures After(trace).count == |Kept(trace)| + Outside(trace, Kept(trace))
  {
    if trace != [] {
      var init, k := trace[..|trace| - 1], trace[|trace| - 1].key;
      CountExact(init);
      TableHoldsFirsts(init);
      HitIffKept(After(init).cached, init, k);
      KeptStep(trace);
      if k !in Firsts(init) { OutsideUnseen(init, Kept(init), k); }
    }
  }

  lemma {:induction false} NothingOutside(trace: seq<Arrival>, ks: seq<Key>)
    requires forall k :: k in Firsts(trace) ==> k in ks
    ensures Outside(trace, ks) == 0
  {
    if trace != [] {
      var init := trace[..|trace| - 1];
      assert Firsts(init) <= Firsts(trace) && trace[|trace| - 1].key in Firsts(trace);
      NothingOutside(init, ks);
    }
  }

  /** With at most 256 distinct keys: one execution per key, first answers throughout, and rpc_count counts the keys. */
  lemma AtMostOnce(trace: seq<Arrival>)
    requires |Firsts(trace)| <= MAX_SEEN
    ensures forall k :: k in Firsts(trace) ==> Executions(trace, k) == 1
    ensures forall i :: 0 <= i < |trace| ==> ReplyAt(trace, i) == FirstAnswer(trace, trace[i].key)
    ensures After(trace).count == |Firsts(trace)|
  {
    assert Kept(trace) == Firsts(trace);
    forall k | k in Firsts(trace) ensures Executions(trace, k) == 1 { ExecutionsExact(trace, k); }
    forall i | 0 <= i < |trace| ensures ReplyAt(trace, i) == FirstAnswer(trace, trace[i].key) {
      RepliesAreFirst(trace, i);
      KeptStable(trace, i + 1);
      assert trace[..i + 1][..i] == trace[..i];
      assert trace[i].key in Firsts(trace[..i + 1]);
    }
    CountExact(trace);
    NothingOutside(trace, Kept(trace));
  }

  // ----- Past the table's size --------------------------------------------------------------

  function Numbered(id: nat): Key { Key([], id, []) }

  /** n requests with distinct keys. */
  function Distinct(n: nat): (trace: seq<Arrival>)
    ensures |trace| == n
  {
    if n == 0 then [] else Distinct(n - 1) + [Arrival(Numbered(n - 1), [])]
  }

  lemma {:induction false} DistinctFirsts(n: nat)
    ensures |Firsts(Distinct(n))| == n && forall i :: 0 <= i < n ==> Firsts(Distinct(n))[i] == Numbered(i)
  {
    if n > 0 {
      DistinctFirsts(n - 1);
      assert Distinct(n)[..n - 1] == Distinct(n - 1);
    }
  }

  /** 257 distinct requests, and then the last one again. */
  function Overflowing(): seq<Arrival> { Distinct(MAX_SEEN + 1) + [Arrival(Numbered(MAX_SEEN), [])] }

  /** The request that found no slot is executed again when it is retransmitted. */
  lemma ExecutedTwice()
    ensures Executions(Overflowing(), Numbered(MAX_SEEN)) == 2 && After(Overflowing()).count == MAX_SEEN + 2
  {
    var init, trace, k := Distinct(MAX_SEEN + 1), Overflowing(), Numbered(MAX_SEEN);
    assert trace[..|trace| - 1] == init && trace[|trace| - 1].key == k;
    DistinctFirsts(MAX_SEEN + 1);
    assert Firsts(init)[MAX_SEEN] == k;
    assert Firsts(trace) == Firsts(init) && k !in Kept(trace);
    LateOccurrences(init, k);
    ExecutionsExact(trace, k);
    CountExact(trace);
    OverflowingOutside();
  }

  lemma LateOccurrences(init: seq<Arrival>, k: Key)
    requires init == Distinct(MAX_SEEN + 1) && k == Numbered(MAX_SEEN)
    ensures Occurrences(init, k) == 1
  {
    assert init[..MAX_SEEN] == Distinct(MAX_SEEN);
    DistinctFirsts(MAX_SEEN);
    OccursIffFirst(Distinct(MAX_SEEN), k);
  }

  lemma OverflowingOutside()
    ensures Outside(Overflowing(), Kept(Overflowing())) == 2
  {
    var d, init, trace, k := Distinct(MAX_SEEN), Distinct(MAX_SEEN + 1), Overflowing(), Numbered(MAX_SEEN);
    assert trace[..|trace| - 1] == init && init[..MAX_SEEN] == d;
    DistinctFirsts(MAX_SEEN);
    DistinctFirsts(MAX_SEEN + 1);
    assert Firsts(trace) == Firsts(init);
    forall x | x in Firsts(d) ensures x in Kept(trace) {
      var i :| 0 <= i < MAX_SEEN && Firsts(d)[i] == x;
      assert Kept(trace)[i] == x;
    }
    NothingOutside(d, Kept(trace));
  }
}
