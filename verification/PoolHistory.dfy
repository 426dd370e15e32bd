/** What the event history of every pool run looks like, and the theorems read off it. */
module PoolHistory {
  import opened PoolProtocol
  import opened PoolProofs

  predicate IsWrite(e: Event, r: nat) { e.Wrote? && e.node == r && e.round == r }
  predicate IsVerify(e: Event, i: nat, r: nat) { e.Verified? && e.node == i && e.round == r }
  predicate IsFinish(e: Event, i: nat, r: nat) { e.Finished? && e.node == i && e.round == r }
  predicate TouchesSlot(e: Event) { e.Wrote? || e.Verified? }

  ghost predicate DidWrite(log: seq<Event>, r: nat) {
    exists k :: 0 <= k < |log| && IsWrite(log[k], r)
  }
  ghost predicate DidVerify(log: seq<Event>, i: nat, r: nat) {
    exists k :: 0 <= k < |log| && IsVerify(log[k], i, r)
  }
  ghost predicate DidFinish(log: seq<Event>, i: nat, r: nat) {
    exists k :: 0 <= k < |log| && IsFinish(log[k], i, r)
  }

  // ----- Properties of a history, each closed under appending one justified event -----

  /** Slots are written and verified in slot order, across all nodes. */
  ghost predicate Serial(log: seq<Event>) {
    forall a, b :: 0 <= a < b < |log| && TouchesSlot(log[a]) && TouchesSlot(log[b]) ==> log[a].round <= log[b].round
  }

  /** A verified record is the very record the owner wrote earlier in this run. */
  ghost predicate Fresh(log: seq<Event>) {
    forall b :: 0 <= b < |log| && log[b].Verified? ==> WroteBefore(log, b, log[b].round, log[b].record)
  }
  ghost predicate WroteBefore(log: seq<Event>, b: nat, r: nat, rec: SlotRecord)
    requires b <= |log|
  {
    exists a :: 0 <= a < b && log[a] == Wrote(r, r, rec)
  }

  /** A round is finished by anyone only after all n nodes verified its slot. */
  ghost predicate Agreed(n: nat, log: seq<Event>) {
    forall b, j :: 0 <= b < |log| && log[b].Finished? && 0 <= j < n ==> DidVerify(log[..b], j, log[b].round)
  }

  /** No node writes, verifies or finishes the same round twice. */
  ghost predicate Once(log: seq<Event>) {
    forall a, b :: 0 <= a < b < |log| ==> !SameStep(log[a], log[b])
  }
  predicate SameStep(x: Event, y: Event) {
    && x.node == y.node && x.round == y.round
    && x.Wrote? == y.Wrote? && x.Verified? == y.Verified?
  }

  /** Every written record carries the owner's cookie. */
  ghost predicate Stamped(log: seq<Event>) {
    forall e :: e in log && e.Wrote? ==> e.node == e.round && Matches(e.record, e.round, e.round)
  }

  // ----- The history mirrors the program points ---------------------------------------

  ghost predicate Mirrors(c: Config, s: State) {
    && |s.nodes| == c.n
    && (forall e :: e in s.log ==> e.node < c.n)
    && (forall r :: 0 <= r < c.n ==> (DidWrite(s.log, r) <==> HasWritten(s.nodes[r], r)))
    && (forall i, r :: 0 <= i < c.n && 0 <= r ==> (DidVerify(s.log, i, r) <==> HasVerified(s.nodes[i], r)))
    && (forall i, r :: 0 <= i < c.n && 0 <= r ==> (DidFinish(s.log, i, r) <==> s.nodes[i].round > r))
  }

  /** A written slot still holds what its owner wrote. */
  ghost predicate MemoryKept(c: Config, s: State) {
    forall e :: e in s.log && e.Wrote? && e.round < |c.metas| ==>
      c.metas[e.round] in s.mem && s.mem[c.metas[e.round]] == e.record
  }

  ghost predicate History(c: Config, s: State) {
    && Inv(c, s) && Mirrors(c, s) && MemoryKept(c, s)
    && Serial(s.log) && Fresh(s.log) && Agreed(c.n, s.log) && Once(s.log) && Stamped(s.log)
  }

  lemma InitHistory(c: Config, s: State)
    requires Init(c, s)
    ensures History(c, s)
  {
    InitInv(c, s);
  }

  // ----- Why the next event is justified ----------------------------------------------

  lemma TouchedIsWritten(c: Config, s: State, e: Event)
    requires Mirrors(c, s) && Stamped(s.log) && e in s.log && TouchesSlot(e)
    ensures e.node < c.n && HasWritten(s.nodes[e.node], e.round)
  {
    var k :| 0 <= k < |s.log| && s.log[k] == e;
    if e.Verified? {
      assert IsVerify(s.log[k], e.node, e.round) && DidVerify(s.log, e.node, e.round);
    } else {
      assert IsWrite(s.log[k], e.round) && DidWrite(s.log, e.round);
    }
  }

  lemma NotAhead(nj: Node, i: nat, ni: Node, r: nat)
    requires PairOk(nj, i, ni) && HasWritten(nj, r) && !HasVerified(ni, ni.round)
    ensures r <= ni.round
  {
  }

  /** Whoever has touched slot q has finished round q - 1, so everybody has verified slot q - 1. */
  lemma NoSlotAhead(c: Config, s: State, i: nat, e: Event)
    requires Inv(c, s) && Mirrors(c, s) && Stamped(s.log)
    requires i < c.n && e in s.log && TouchesSlot(e)
    requires !HasVerified(s.nodes[i], s.nodes[i].round)
    ensures e.round <= s.nodes[i].round
  {
    TouchedIsWritten(c, s, e);
    NotAhead(s.nodes[e.node], i, s.nodes[i], e.round);
  }

  lemma Append(log: seq<Event>, e: Event, i: nat, r: nat)
    ensures DidWrite(log + [e], r) <==> DidWrite(log, r) || IsWrite(e, r)
    ensures DidVerify(log + [e], i, r) <==> DidVerify(log, i, r) || IsVerify(e, i, r)
    ensures DidFinish(log + [e], i, r) <==> DidFinish(log, i, r) || IsFinish(e, i, r)
  {
    var log' := log + [e];
    assert log'[|log|] == e;
    assert forall k :: 0 <= k < |log| ==> log'[k] == log[k];
  }

  /** The events ev are exactly the program-point facts about round r that become true when nd turns into nd'. */
  ghost predicate Mirrored(i: nat, nd: Node, nd': Node, ev: seq<Event>, r: nat) {
    && |ev| <= 1
    && (|ev| == 1 ==> ev[0].node == i && ev[0].round == nd.round)
    && (HasVerified(nd', r) <==> HasVerified(nd, r) || (|ev| == 1 && IsVerify(ev[0], i, r)))
    && (nd'.round > r <==> nd.round > r || (|ev| == 1 && IsFinish(ev[0], i, r)))
    && (r == i ==> (HasWritten(nd', r) <==> HasWritten(nd, r) || (|ev| == 1 && IsWrite(ev[0], r))))
    && (r != i ==> !(|ev| == 1 && IsWrite(ev[0], r)))
  }

  lemma HandleMirrors(c: Config, i: nat, nd: Node, m: Msg, r: nat)
    requires ControlOk(c, i, nd)
    ensures var done := nd.phase == WaitCommit && m == Commit(nd.round, i, nd.round);
      Mirrored(i, nd, Handle(c, i, nd, m), if done then [Finished(i, nd.round)] else [], r)
  {
  }

  lemma NodeMirrors(c: Config, s: State, a: Action, r: nat)
    requires Enabled(c, s, a) && ControlOk(c, a.node, s.nodes[a.node])
    ensures Mirrored(a.node, s.nodes[a.node], After(c, s, a), Logged(c, s, a), r)
  {
    if a.Receive? { HandleMirrors(c, a.node, s.nodes[a.node], a.msg, r); }
  }

  lemma MirrorAt(c: Config, s: State, a: Action, i: nat, r: nat)
    requires Mirrors(c, s) && Enabled(c, s, a) && NodeOk(c, a.node, s.nodes[a.node]) && i < c.n
    ensures var s' := Step(c, s, a);
      && (DidVerify(s'.log, i, r) <==> HasVerified(s'.nodes[i], r))
      && (DidFinish(s'.log, i, r) <==> s'.nodes[i].round > r)
      && (i == r ==> (DidWrite(s'.log, r) <==> HasWritten(s'.nodes[r], r)))
  {
    var s', ev := Step(c, s, a), Logged(c, s, a);
    NodeMirrors(c, s, a, r);
    if |ev| == 1 {
      assert s'.log == s.log + [ev[0]];
      Append(s.log, ev[0], i, r);
    } else {
      assert s'.log == s.log;
    }
  }

  lemma StepMirrors(c: Config, s: State, a: Action)
    requires Inv(c, s) && Mirrors(c, s) && Enabled(c, s, a)
    ensures Mirrors(c, Step(c, s, a))
  {
    var s' := Step(c, s, a);
    assert NodeOk(c, a.node, s.nodes[a.node]);
    NodeMirrors(c, s, a, 0);
    forall i, r | 0 <= i < c.n && 0 <= r
      ensures DidVerify(s'.log, i, r) <==> HasVerified(s'.nodes[i], r)
      ensures DidFinish(s'.log, i, r) <==> s'.nodes[i].round > r
    {
      MirrorAt(c, s, a, i, r);
    }
    forall r | 0 <= r < c.n ensures DidWrite(s'.log, r) <==> HasWritten(s'.nodes[r], r) {
      MirrorAt(c, s, a, r, r);
    }
  }

  /** At a write or verify step nothing beyond the current slot has been touched, nor this very step done. */
  lemma TouchJustified(c: Config, s: State, a: Action, e: Event)
    requires Inv(c, s) && Mirrors(c, s) && Stamped(s.log) && Enabled(c, s, a) && (a.Write? || a.Verify?)
    requires e in s.log
    ensures TouchesSlot(e) ==> e.round <= s.nodes[a.node].round
    ensures !SameStep(e, Logged(c, s, a)[0])
  {
    var i, nd := a.node, s.nodes[a.node];
    assert NodeOk(c, i, nd);
    if TouchesSlot(e) {
      NoSlotAhead(c, s, i, e);
    }
    var k :| 0 <= k < |s.log| && s.log[k] == e;
    StepNotDone(c, s, a);
    assert IsVerify(s.log[k], i, nd.round) ==> DidVerify(s.log, i, nd.round);
    assert IsWrite(s.log[k], nd.round) ==> DidWrite(s.log, nd.round);
  }

  lemma StepNotDone(c: Config, s: State, a: Action)
    requires Mirrors(c, s) && Enabled(c, s, a) && (a.Write? || a.Verify?) && NodeOk(c, a.node, s.nodes[a.node])
    ensures a.Verify? ==> !DidVerify(s.log, a.node, s.nodes[a.node].round)
    ensures a.Write? ==> !DidWrite(s.log, s.nodes[a.node].round) && s.nodes[a.node].round == a.node
  {
  }

  /** A verify step reads the record the owner logged. */
  lemma VerifyReadsOwner(c: Config, s: State, a: Action)
    requires Mirrors(c, s) && MemoryKept(c, s) && Enabled(c, s, a) && a.Verify?
    requires NodeOk(c, a.node, s.nodes[a.node]) && TurnOk(c, s, s.nodes[a.node])
    ensures WroteBefore(s.log, |s.log|, s.nodes[a.node].round, Logged(c, s, a)[0].record)
  {
    var nd := s.nodes[a.node];
    assert HasWritten(s.nodes[nd.round], nd.round);
    assert DidWrite(s.log, nd.round);
    var k :| 0 <= k < |s.log| && IsWrite(s.log[k], nd.round);
    assert s.log[k] in s.log;
    assert s.log[k] == Wrote(nd.round, nd.round, s.mem[c.metas[nd.round]]);
  }

  /** A node finishes a round only when everybody has verified its slot. */
  lemma FinishAgreed(c: Config, s: State, a: Action, j: nat)
    requires Inv(c, s) && Enabled(c, s, a) && j < c.n
    requires |Logged(c, s, a)| == 1 && Logged(c, s, a)[0].Finished?
    ensures HasVerified(s.nodes[j], s.nodes[a.node].round)
  {
    if a.Receive? { assert MsgOk(c, s, a.msg); }
    assert PairOk(s.nodes[a.node], j, s.nodes[j]);
  }

  lemma FinishJustified(c: Config, s: State, a: Action)
    requires Inv(c, s) && Mirrors(c, s) && Enabled(c, s, a)
    requires |Logged(c, s, a)| == 1 && Logged(c, s, a)[0].Finished?
    ensures forall j :: 0 <= j < c.n ==> DidVerify(s.log, j, s.nodes[a.node].round)
    ensures forall e :: e in s.log ==> !SameStep(e, Logged(c, s, a)[0])
  {
    var i, r := a.node, s.nodes[a.node].round;
    forall j | 0 <= j < c.n ensures DidVerify(s.log, j, r) { FinishAgreed(c, s, a, j); }
    NotFinished(s.log, i, r);
  }

  lemma NotFinished(log: seq<Event>, i: nat, r: nat)
    requires !DidFinish(log, i, r)
    ensures forall e :: e in log ==> !SameStep(e, Finished(i, r))
  {
    forall e | e in log ensures !SameStep(e, Finished(i, r)) {
      var k :| 0 <= k < |log| && log[k] == e;
      assert !IsFinish(log[k], i, r);
    }
  }

  lemma AppendFresh(log: seq<Event>, e: Event)
    requires Fresh(log) && (e.Verified? ==> WroteBefore(log, |log|, e.round, e.record))
    ensures Fresh(log + [e])
  {
    var log' := log + [e];
    forall b | 0 <= b < |log'| && log'[b].Verified? ensures WroteBefore(log', b, log'[b].round, log'[b].record) {
      assert WroteBefore(log, b, log'[b].round, log'[b].record);
      var a :| 0 <= a < b && log[a] == Wrote(log'[b].round, log'[b].round, log'[b].record);
      assert log'[a] == log[a];
    }
  }

  lemma AppendAgreed(n: nat, log: seq<Event>, e: Event)
    requires Agreed(n, log) && (e.Finished? ==> forall j :: 0 <= j < n ==> DidVerify(log, j, e.round))
    ensures Agreed(n, log + [e])
  {
    var log' := log + [e];
    forall b, j | 0 <= b < |log'| && log'[b].Finished? && 0 <= j < n ensures DidVerify(log'[..b], j, log'[b].round) {
      assert log'[..b] == log[..b];
      if b == |log| { assert log[..b] == log; }
    }
  }

  lemma AppendKeeps(n: nat, log: seq<Event>, e: Event)
    requires Serial(log) && Fresh(log) && Agreed(n, log) && Once(log) && Stamped(log)
    requires TouchesSlot(e) ==> forall x :: x in log && TouchesSlot(x) ==> x.round <= e.round
    requires e.Verified? ==> WroteBefore(log, |log|, e.round, e.record)
    requires e.Finished? ==> forall j :: 0 <= j < n ==> DidVerify(log, j, e.round)
    requires forall x :: x in log ==> !SameStep(x, e)
    requires e.Wrote? ==> e.node == e.round && Matches(e.record, e.round, e.round)
    ensures Serial(log + [e]) && Fresh(log + [e]) && Agreed(n, log + [e]) && Once(log + [e]) && Stamped(log + [e])
  {
    AppendFresh(log, e);
    AppendAgreed(n, log, e);
    assert forall k :: 0 <= k < |log| ==> (log + [e])[k] == log[k] && log[k] in log;
  }

  /** Only the owner's write changes a slot, and it does so once. */
  lemma WriteMemory(c: Config, s: State, a: Action)
    requires Inv(c, s) && Mirrors(c, s) && MemoryKept(c, s) && Stamped(s.log) && Enabled(c, s, a) && a.Write?
    ensures MemoryKept(c, Step(c, s, a))
  {
    var s', nd := Step(c, s, a), s.nodes[a.node];
    assert NodeOk(c, a.node, nd);
    forall e | e in s'.log && e.Wrote? && e.round < |c.metas|
      ensures c.metas[e.round] in s'.mem && s'.mem[c.metas[e.round]] == e.record
    {
      if e in s.log {
        TouchJustified(c, s, a, e);
        assert e.round != nd.round;
      } else {
        assert e == Logged(c, s, a)[0];
      }
    }
  }

  lemma StepMemory(c: Config, s: State, a: Action)
    requires History(c, s) && Enabled(c, s, a)
    ensures MemoryKept(c, Step(c, s, a))
  {
    if a.Write? {
      WriteMemory(c, s, a);
    } else {
      assert forall x :: x in Logged(c, s, a) ==> !x.Wrote?;
    }
  }

  lemma StepHistory(c: Config, s: State, a: Action)
    requires History(c, s) && Enabled(c, s, a)
    ensures History(c, Step(c, s, a))
  {
    StepInv(c, s, a);
    StepMirrors(c, s, a);
    StepMemory(c, s, a);
    var ev := Logged(c, s, a);
    assert NodeOk(c, a.node, s.nodes[a.node]);
    NodeMirrors(c, s, a, 0);
    if |ev| == 1 {
      if a.Write? || a.Verify? {
        forall e | e in s.log
          ensures TouchesSlot(e) ==> e.round <= s.nodes[a.node].round
          ensures !SameStep(e, ev[0])
        {
          TouchJustified(c, s, a, e);
        }
      }
      if a.Verify? {
        assert TurnOk(c, s, s.nodes[a.node]);
        VerifyReadsOwner(c, s, a);
      }
      if ev[0].Finished? { FinishJustified(c, s, a); }
      AppendKeeps(c.n, s.log, ev[0]);
      assert s.log + ev == s.log + [ev[0]];
    } else {
      assert s.log + ev == s.log;
    }
  }

  // ----- Theorems over whole runs -----------------------------------------------------

  lemma {:induction false} RunHistory(c: Config, states: seq<State>, k: nat)
    requires Run(c, states) && k < |states|
    ensures History(c, states[k])
  {
    if k == 0 {
      InitHistory(c, states[0]);
    } else {
      RunHistory(c, states, k - 1);
      assert Follows(c, states[k - 1], states[k]);
      FollowsHistory(c, states[k - 1], states[k]);
    }
  }

  lemma FollowsHistory(c: Config, s: State, s': State)
    requires History(c, s) && Follows(c, s, s')
    ensures History(c, s')
  {
    var a :| Enabled(c, s, a) && s' == Step(c, s, a);
    StepHistory(c, s, a);
  }

  /** What a reachable state says about two nodes, and about its history. */
  lemma ReachablePair(c: Config, s: State, i: nat, j: nat)
    requires Reachable(c, s) && i < c.n && j < c.n
    ensures PairOk(s.nodes[i], j, s.nodes[j]) && NodeOk(c, i, s.nodes[i]) && NodeOk(c, j, s.nodes[j])
  {
    ReachableHistory(c, s);
  }

  lemma RoundsClose(ni: Node, j: nat, nj: Node)
    requires PairOk(ni, j, nj)
    ensures ni.round <= nj.round + 1
  {
  }

  /** The last state of some run. */
  ghost predicate Reachable(c: Config, s: State) {
    |s.nodes| == c.n && exists states :: Run(c, states) && states[|states| - 1] == s
  }

  lemma ReachableHistory(c: Config, s: State)
    requires Reachable(c, s)
    ensures History(c, s)
  {
    var states :| Run(c, states) && states[|states| - 1] == s;
    RunHistory(c, states, |states| - 1);
  }

  /**
   Agreement: in every run, whenever some node has finished round r, each of the n nodes
   had verified slot r before, and what it verified was the record the owner wrote.
   */
  lemma Agreement(c: Config, s: State, b: nat, j: nat)
    requires Reachable(c, s)
    requires b < |s.log| && s.log[b].Finished? && j < c.n
    ensures var log, r := s.log, s.log[b].round;
      exists v, w :: 0 <= w < v < b && IsVerify(log[v], j, r) && Matches(log[v].record, r, r)
                     && log[w] == Wrote(r, r, log[v].record)
  {
    ReachableHistory(c, s);
    var log, r := s.log, s.log[b].round;
    assert DidVerify(log[..b], j, r);
    var v :| 0 <= v < |log[..b]| && IsVerify(log[..b][v], j, r);
    assert log[v] == log[..b][v];
    assert WroteBefore(log, v, r, log[v].record);
    var w :| 0 <= w < v && log[w] == Wrote(r, r, log[v].record);
    assert log[w] in log;
  }

  /** Serialisation: rounds never differ by more than one, and slots are touched in slot order by everybody. */
  lemma Serialisation(c: Config, s: State, i: nat, j: nat)
    requires Reachable(c, s) && i < c.n && j < c.n
    ensures s.nodes[i].round <= s.nodes[j].round + 1
    ensures Serial(s.log) && Once(s.log)
  {
    ReachablePair(c, s, i, j);
    RoundsClose(s.nodes[i], j, s.nodes[j]);
    ReachableHistory(c, s);
  }

  /** The owner writes slot r only after every node has verified slot r - 1. */
  lemma WriteAfterAllVerified(c: Config, s: State, a: Action, j: nat)
    requires Reachable(c, s) && Enabled(c, s, a) && a.Write? && j < c.n
    requires s.nodes[a.node].round > 0
    ensures DidVerify(s.log, j, s.nodes[a.node].round - 1)
  {
    ReachableHistory(c, s);
    assert PairOk(s.nodes[a.node], j, s.nodes[j]);
  }

  /** Barrier: past the READY wait, every node has imported all n regions, each as its owner exported it. */
  lemma BarrierHolds(c: Config, s: State, i: nat, j: nat, slot: nat)
    requires Reachable(c, s) && i < c.n && j < c.n && slot < c.n
    requires PastBarrier(s.nodes[i])
    ensures HasImported(s.nodes[j])
    ensures slot in s.nodes[j].slots && s.nodes[j].slots[slot] == c.metas[slot]
  {
    ReachablePair(c, s, i, j);
  }

  /** When one node reports success, all nodes have verified all slots. */
  lemma DoneMeansAll(c: Config, s: State, i: nat, j: nat, r: nat)
    requires Reachable(c, s) && i < c.n && j < c.n && r < c.n
    requires s.nodes[i].phase == Done
    ensures DidVerify(s.log, j, r)
  {
    ReachableHistory(c, s);
    assert PairOk(s.nodes[i], j, s.nodes[j]) && NodeOk(c, i, s.nodes[i]);
  }

  lemma OwnRecord(c: Config, s: State, i: nat)
    requires Mirrors(c, s) && MemoryKept(c, s) && Stamped(s.log) && i < c.n == |c.metas|
    requires HasWritten(s.nodes[i], i)
    ensures c.metas[i] in s.mem && Matches(s.mem[c.metas[i]], i, i)
  {
    assert DidWrite(s.log, i);
    var b :| 0 <= b < |s.log| && IsWrite(s.log[b], i);
    assert s.log[b] in s.log;
  }

  lemma NodeLookups(c: Config, s: State, i: nat)
    requires Inv(c, s) && i < c.n
    ensures var nd := s.nodes[i];
      && (nd.phase == Importing && nd.next < c.n ==> nd.next in nd.metas)
      && (nd.phase == OwnerWrite || nd.phase == OwnerVerify || nd.phase == WaitSlot ==>
            nd.round in nd.slots && nd.slots[nd.round] == c.metas[nd.round] && c.metas[nd.round] in s.mem)
      && (nd.phase == OwnerVerify ==> nd.round == i && HasWritten(nd, i))
  {
    assert NodeOk(c, i, s.nodes[i]);
  }

  /** The lookups the code does unguarded never miss, and an owner's own verification cannot fail. */
  lemma LookupsNeverMiss(c: Config, s: State, i: nat)
    requires Reachable(c, s) && i < c.n
    ensures var nd := s.nodes[i];
      && (nd.phase == Importing && nd.next < c.n ==> nd.next in nd.metas)
      && (nd.phase == OwnerWrite || nd.phase == OwnerVerify || nd.phase == WaitSlot ==>
            nd.round in nd.slots && nd.slots[nd.round] in s.mem)
      && (nd.phase == OwnerVerify ==> Matches(s.mem[nd.slots[nd.round]], nd.round, nd.round))
  {
    ReachableHistory(c, s);
    NodeLookups(c, s, i);
    if s.nodes[i].phase == OwnerVerify { OwnRecord(c, s, i); }
  }

  /** Cookies identify (owner, slot): no other payload passes slot_matches_payload. */
  lemma CookieInjective(o1: nat, s1: nat, o2: nat, s2: nat)
    requires s1 < 0xffff_ffff && s2 < 0xffff_ffff
    ensures RoundCookie(o1, s1) == RoundCookie(o2, s2) <==> o1 == o2 && s1 == s2
  {
  }
}
