/** Safety of the pool protocol over every run: barrier, agreement, serialisation, fresh reads. */
module PoolProofs {
  import opened PoolProtocol

  // ----- How far a node has come -----------------------------------------------------

  /** Program points in the order a node passes them; owner and follower points are aligned. */
  function Rank(p: Phase): nat {
    match p
    case Greeting => 0
    case Importing => 1
    case Barrier => 2
    case OwnerWrite | WaitTurn | Done => 3
    case OwnerVerify | WaitSlot => 4
    case OwnerTurn | SendAck => 5
    case OwnerAcks | WaitCommit => 6
    case OwnerCommit => 7
  }

  function Progress(nd: Node): nat { 20 * nd.round + Rank(nd.phase) }

  predicate HasImported(nd: Node) { Progress(nd) >= 2 }
  predicate PastBarrier(nd: Node) { Progress(nd) >= 3 }
  predicate HasWritten(nd: Node, r: nat) { Progress(nd) >= 20 * r + 4 }
  predicate HasVerified(nd: Node, r: nat) { Progress(nd) >= 20 * r + 5 }

  // ----- The inductive invariant -----------------------------------------------------

  predicate OwnerPhase(p: Phase) {
    p.OwnerWrite? || p.OwnerVerify? || p.OwnerTurn? || p.OwnerAcks? || p.OwnerCommit?
  }

  predicate FollowerPhase(p: Phase) {
    p.WaitTurn? || p.WaitSlot? || p.SendAck? || p.WaitCommit?
  }

  ghost predicate Table(c: Config, t: map<nat, Meta>) {
    forall k :: k in t ==> k < |c.metas| && t[k] == c.metas[k]
  }

  /** What a node has learnt and mapped. */
  ghost predicate TablesOk(c: Config, i: nat, nd: Node) {
    && Table(c, nd.metas) && Table(c, nd.slots)
    && i in nd.slots
    && (nd.phase == Importing ==>
          && All(c, nd.metas.Keys) && nd.next <= c.n
          && forall k :: 0 <= k < nd.next ==> k in nd.slots)
    && (HasImported(nd) ==> All(c, nd.slots.Keys))
  }

  /** Which program points a node can be at in which round. */
  ghost predicate ControlOk(c: Config, i: nat, nd: Node) {
    && (Rank(nd.phase) < 3 ==> nd.round == 0)
    && (OwnerPhase(nd.phase) ==> nd.round == i)
    && (FollowerPhase(nd.phase) ==> nd.round != i && nd.round < c.n)
    && (nd.phase == Done ==> nd.round == c.n)
  }

  /** While collecting, `pending` counts exactly the peers that have not acknowledged. */
  ghost predicate AcksOk(c: Config, i: nat, nd: Node) {
    nd.phase == OwnerAcks ==> nd.acks <= Others(c.n, i) && nd.pending == c.n - 1 - |nd.acks|
  }

  ghost predicate NodeOk(c: Config, i: nat, nd: Node) {
    TablesOk(c, i, nd) && ControlOk(c, i, nd) && AcksOk(c, i, nd)
  }

  /** Every node except i. */
  function Others(n: nat, i: nat): (r: set<nat>)
    ensures forall k: nat :: k in r <==> k < n && k != i
    ensures |r| == if i < n then n - 1 else n
  {
    if n == 0 then {} else if n - 1 == i then Others(n - 1, i) else Others(n - 1, i) + {n - 1}
  }

  /** What a datagram on the network testifies about its sender. */
  ghost predicate MsgOk(c: Config, s: State, m: Msg)
    requires |s.nodes| == c.n == |c.metas|
  {
    match m
    case Hello(src, _, meta) => src < c.n && meta == c.metas[src]
    case Ready(src, _) => src < c.n && HasImported(s.nodes[src])
    case Turn(src, _, r) => src == r < c.n && HasWritten(s.nodes[r], r)
    case Ack(src, _, r) => src < c.n && HasVerified(s.nodes[src], r)
    case Commit(src, _, r) => src == r < c.n && Everyone(c, s, r)
  }

  ghost predicate Everyone(c: Config, s: State, r: nat)
    requires |s.nodes| == c.n
  {
    forall j :: 0 <= j < c.n ==> HasVerified(s.nodes[j], r)
  }

  /** What node i's program point implies about node j. */
  ghost predicate PairOk(ni: Node, j: nat, nj: Node) {
    && (PastBarrier(ni) ==> HasImported(nj))
    && (ni.phase == Barrier && j in ni.heard ==> HasImported(nj))
    && (ni.phase == OwnerAcks && j in ni.acks ==> HasVerified(nj, ni.round))
    && (ni.phase == OwnerCommit ==> HasVerified(nj, ni.round))
    && (ni.round > 0 ==> HasVerified(nj, ni.round - 1))
  }

  /** Follower i has been told by the round's owner that the slot is written. */
  ghost predicate TurnOk(c: Config, s: State, nd: Node)
    requires |s.nodes| == c.n
  {
    FollowerPhase(nd.phase) && Rank(nd.phase) >= 4 ==> nd.round < c.n && HasWritten(s.nodes[nd.round], nd.round)
  }

  ghost predicate Inv(c: Config, s: State) {
    && ValidConfig(c)
    && |s.nodes| == c.n
    && (forall i :: 0 <= i < c.n ==> NodeOk(c, i, s.nodes[i]))
    && (forall i :: 0 <= i < c.n ==> TurnOk(c, s, s.nodes[i]))
    && (forall i, j :: 0 <= i < c.n && 0 <= j < c.n ==> PairOk(s.nodes[i], j, s.nodes[j]))
    && (forall m :: m in s.net ==> MsgOk(c, s, m))
    && (forall i :: 0 <= i < c.n ==> c.metas[i] in s.mem)
  }

  lemma InitInv(c: Config, s: State)
    requires Init(c, s)
    ensures Inv(c, s)
  {
    forall i | 0 <= i < c.n ensures NodeOk(c, i, s.nodes[i]) {}
  }

  // ----- Preservation, one obligation at a time --------------------------------------

  lemma HandleAdvances(c: Config, i: nat, nd: Node, m: Msg)
    requires ControlOk(c, i, nd)
    ensures Progress(Handle(c, i, nd, m)) >= Progress(nd)
  {
  }

  lemma NodeAdvances(c: Config, s: State, a: Action)
    requires Enabled(c, s, a) && ControlOk(c, a.node, s.nodes[a.node])
    ensures Progress(After(c, s, a)) >= Progress(s.nodes[a.node])
  {
    if a.Receive? { HandleAdvances(c, a.node, s.nodes[a.node], a.msg); }
  }

  /** No node ever falls back, so whatever a message testified stays true. */
  ghost predicate Grows(c: Config, s: State, s': State) {
    && |s.nodes| == |s'.nodes| == c.n
    && forall j :: 0 <= j < c.n ==> Progress(s'.nodes[j]) >= Progress(s.nodes[j])
  }

  lemma HandleTables(c: Config, i: nat, nd: Node, m: Msg)
    requires TablesOk(c, i, nd) && ControlOk(c, i, nd)
    requires m.Hello? ==> m.src < |c.metas| && m.meta == c.metas[m.src]
    ensures TablesOk(c, i, Handle(c, i, nd, m))
  {
    var nd' := Handle(c, i, nd, m);
    assert Table(c, nd'.metas) && nd'.slots == nd.slots;
  }

  lemma ImportTables(c: Config, i: nat, nd: Node)
    requires TablesOk(c, i, nd) && ControlOk(c, i, nd) && nd.phase == Importing && nd.next < c.n && nd.next in nd.metas
    ensures TablesOk(c, i, if nd.next == i then nd.(next := nd.next + 1)
                           else nd.(next := nd.next + 1, slots := nd.slots[nd.next := nd.metas[nd.next]]))
  {
  }

  lemma TablesStay(c: Config, s: State, a: Action)
    requires Enabled(c, s, a) && TablesOk(c, a.node, s.nodes[a.node]) && ControlOk(c, a.node, s.nodes[a.node])
    requires a.Receive? ==> MsgOk(c, s, a.msg)
    ensures TablesOk(c, a.node, After(c, s, a))
  {
    if a.Receive? {
      HandleTables(c, a.node, s.nodes[a.node], a.msg);
    } else if a.ImportNext? {
      ImportTables(c, a.node, s.nodes[a.node]);
    }
  }

  lemma ControlStays(c: Config, s: State, a: Action)
    requires Enabled(c, s, a) && ControlOk(c, a.node, s.nodes[a.node])
    ensures ControlOk(c, a.node, After(c, s, a))
  {
  }

  lemma OneMoreAck(acks: set<nat>, x: nat, n: nat, i: nat)
    requires acks <= Others(n, i) && x !in acks && x < n && x != i
    ensures acks + {x} <= Others(n, i) && |acks + {x}| == |acks| + 1
  {
  }

  lemma HandleAcks(c: Config, i: nat, nd: Node, m: Msg)
    requires AcksOk(c, i, nd)
    ensures AcksOk(c, i, Handle(c, i, nd, m))
  {
    if nd.phase == OwnerAcks && Handle(c, i, nd, m) != nd { OneMoreAck(nd.acks, m.src, c.n, i); }
  }

  lemma AcksStay(c: Config, s: State, a: Action)
    requires Enabled(c, s, a) && AcksOk(c, a.node, s.nodes[a.node])
    ensures AcksOk(c, a.node, After(c, s, a))
  {
    if a.Receive? { HandleAcks(c, a.node, s.nodes[a.node], a.msg); }
  }

  lemma {:induction false} SameSize(a: set<nat>, b: set<nat>)
    requires a <= b && |a| >= |b|
    ensures a == b
  {
    if a != {} {
      var x :| x in a;
      SameSize(a - {x}, b - {x});
    }
  }

  /** The point of the ACK wait: when `pending` hits zero, every node has verified the slot. */
  lemma PendingZero(c: Config, s: State, i: nat)
    requires Inv(c, s) && i < c.n && s.nodes[i].phase == OwnerAcks && s.nodes[i].pending == 0
    ensures Everyone(c, s, s.nodes[i].round)
  {
    assert NodeOk(c, i, s.nodes[i]);
    SameSize(s.nodes[i].acks, Others(c.n, i));
    forall j | 0 <= j < c.n ensures HasVerified(s.nodes[j], s.nodes[i].round) {
      assert PairOk(s.nodes[i], j, s.nodes[j]);
    }
  }

  /** What a datagram adds to the receiver's knowledge about node j. */
  lemma HandlePairs(c: Config, s: State, i: nat, m: Msg, j: nat)
    requires |s.nodes| == c.n == |c.metas| && i < c.n && j < c.n
    requires ControlOk(c, i, s.nodes[i]) && PairOk(s.nodes[i], j, s.nodes[j]) && MsgOk(c, s, m)
    ensures PairOk(Handle(c, i, s.nodes[i], m), j, s.nodes[j])
  {
  }

  /** What the acting node's new program point says about the others, in the old state. */
  lemma ActorPairs(c: Config, s: State, a: Action, j: nat)
    requires Enabled(c, s, a) && j < c.n && j != a.node
    requires ControlOk(c, a.node, s.nodes[a.node]) && PairOk(s.nodes[a.node], j, s.nodes[j])
    requires a.Receive? ==> MsgOk(c, s, a.msg)
    requires a.FinishAcks? ==> Everyone(c, s, s.nodes[a.node].round)
    ensures PairOk(After(c, s, a), j, s.nodes[j])
  {
    if a.Receive? {
      HandlePairs(c, s, a.node, a.msg, j);
    }
  }

  lemma SelfPair(nd: Node, i: nat)
    requires nd.phase == OwnerAcks ==> i !in nd.acks
    ensures PairOk(nd, i, nd)
  {
  }

  lemma PairGrows(ni: Node, j: nat, nj: Node, nj': Node)
    requires PairOk(ni, j, nj) && Progress(nj') >= Progress(nj)
    ensures PairOk(ni, j, nj')
  {
  }

  lemma PairsStay(c: Config, s: State, a: Action, i: nat, j: nat)
    requires Inv(c, s) && Enabled(c, s, a) && i < c.n && j < c.n
    requires NodeOk(c, a.node, After(c, s, a))
    ensures PairOk(Step(c, s, a).nodes[i], j, Step(c, s, a).nodes[j])
  {
    assert NodeOk(c, a.node, s.nodes[a.node]);
    assert PairOk(s.nodes[i], j, s.nodes[j]);
    if i == a.node && j == a.node {
      SelfPair(After(c, s, a), i);
    } else if i == a.node {
      if a.Receive? { assert MsgOk(c, s, a.msg); }
      if a.FinishAcks? { PendingZero(c, s, i); }
      ActorPairs(c, s, a, j);
    } else {
      NodeAdvances(c, s, a);
      PairGrows(s.nodes[i], j, s.nodes[j], Step(c, s, a).nodes[j]);
    }
  }

  lemma MsgStays(c: Config, s: State, s': State, m: Msg)
    requires Grows(c, s, s') && |c.metas| == c.n && MsgOk(c, s, m)
    ensures MsgOk(c, s', m)
  {
  }

  lemma NewMsgOk(c: Config, s: State, a: Action, m: Msg)
    requires Inv(c, s) && Enabled(c, s, a) && m in Sent(c, s, a)
    ensures MsgOk(c, s, m)
  {
    var nd := s.nodes[a.node];
    assert NodeOk(c, a.node, nd);
    if a.CommitNext? {
      forall j | 0 <= j < c.n ensures HasVerified(s.nodes[j], nd.round) {
        assert PairOk(nd, j, s.nodes[j]);
      }
    }
  }

  lemma TurnGrows(c: Config, s: State, s': State, nd: Node)
    requires Grows(c, s, s') && TurnOk(c, s, nd)
    ensures TurnOk(c, s', nd)
  {
  }

  lemma HandleTurn(c: Config, s: State, i: nat, m: Msg)
    requires |s.nodes| == c.n == |c.metas| && i < c.n
    requires TurnOk(c, s, s.nodes[i]) && ControlOk(c, i, s.nodes[i]) && MsgOk(c, s, m)
    ensures TurnOk(c, s, Handle(c, i, s.nodes[i], m))
  {
  }

  lemma ActorTurn(c: Config, s: State, a: Action)
    requires Enabled(c, s, a) && TurnOk(c, s, s.nodes[a.node]) && ControlOk(c, a.node, s.nodes[a.node])
    requires a.Receive? ==> MsgOk(c, s, a.msg)
    ensures TurnOk(c, s, After(c, s, a))
  {
    if a.Receive? { HandleTurn(c, s, a.node, a.msg); }
  }

  lemma StepGrows(c: Config, s: State, a: Action)
    requires Inv(c, s) && Enabled(c, s, a)
    ensures Grows(c, s, Step(c, s, a))
  {
    assert NodeOk(c, a.node, s.nodes[a.node]);
    NodeAdvances(c, s, a);
  }

  lemma StepInv(c: Config, s: State, a: Action)
    requires Inv(c, s) && Enabled(c, s, a)
    ensures Inv(c, Step(c, s, a))
  {
    var s' := Step(c, s, a);
    StepGrows(c, s, a);
    assert NodeOk(c, a.node, s.nodes[a.node]);
    assert a.Receive? ==> MsgOk(c, s, a.msg);
    TablesStay(c, s, a);
    ControlStays(c, s, a);
    AcksStay(c, s, a);
    forall i | 0 <= i < c.n ensures TurnOk(c, s', s'.nodes[i]) {
      if i == a.node { ActorTurn(c, s, a); }
      TurnGrows(c, s, s', s'.nodes[i]);
    }
    forall i, j | 0 <= i < c.n && 0 <= j < c.n ensures PairOk(s'.nodes[i], j, s'.nodes[j]) {
      PairsStay(c, s, a, i, j);
    }
    forall m | m in s'.net ensures MsgOk(c, s', m) {
      if m !in s.net { NewMsgOk(c, s, a, m); }
      MsgStays(c, s, s', m);
    }
  }
}
