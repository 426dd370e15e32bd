/**
 The N-node OBMM pool protocol (ub_obmm_pool_demo.c) as a transition system.

 Every node runs HELLO exchange, import of all peers, READY barrier, and then one
 round per node in which the round's owner writes its own slot, announces it (TURN),
 collects an ACK from everybody else and finally broadcasts COMMIT.

 The network is the set of all datagrams ever sent: a datagram in it may be received
 by any node, any number of times, in any order, or never.  A node may give up at any
 moment (timeout, alarm, failed import); it then keeps its last program point and
 takes no further step.
 */
module PoolProtocol {

  const POOL_MAGIC: nat := 0x4f424d50
  const POOL_VERSION: nat := 1
  const COMMIT_ATTEMPTS: nat := 10

  /** What a node publishes about the region it exported. */
  datatype Meta = Meta(exportMemId: nat, remoteUba: nat, size: nat, tokenId: nat, exportCna: nat)

  /** The record at the start of a slot; `rest` stands for the ack and commit fields, which are carried over. */
  datatype SlotRecord = SlotRecord(magic: nat, version: nat, owner: nat, round: nat, cookie: nat, rest: seq<nat>)

  datatype Msg =
    | Hello(src: nat, dst: nat, meta: Meta)
    | Ready(src: nat, dst: nat)
    | Turn(src: nat, dst: nat, round: nat)
    | Ack(src: nat, dst: nat, round: nat)
    | Commit(src: nat, dst: nat, round: nat)

  /** Program points of one node; the Owner* points are those of the node whose round it is. */
  datatype Phase =
    | Greeting | Importing | Barrier
    | OwnerWrite | OwnerVerify | OwnerTurn | OwnerAcks | OwnerCommit
    | WaitTurn | WaitSlot | SendAck | WaitCommit
    | Done

  /**
   `next` is the loop index of whichever send or import loop is running, `acks` and
   `pending` are the locals of wait_for_all_round_acks, `heard` is the ready[] array.
   */
  datatype Node = Node(
    phase: Phase,
    failed: bool,
    round: nat,
    next: nat,
    metas: map<nat, Meta>,
    slots: map<nat, Meta>,
    heard: set<nat>,
    acks: set<nat>,
    pending: int)

  datatype Event =
    | Wrote(node: nat, round: nat, record: SlotRecord)
    | Verified(node: nat, round: nat, record: SlotRecord)
    | Finished(node: nat, round: nat)

  /** `metas[i]` is the region node i exported before it entered the protocol. */
  datatype Config = Config(n: nat, metas: seq<Meta>)

  datatype State = State(nodes: seq<Node>, net: set<Msg>, mem: map<Meta, SlotRecord>, log: seq<Event>)

  datatype Action =
    | SendHello(node: nat, peer: nat)
    | FinishHello(node: nat)
    | ImportNext(node: nat)
    | FinishImport(node: nat)
    | SendReady(node: nat, peer: nat)
    | FinishReady(node: nat)
    | Write(node: nat)
    | Verify(node: nat)
    | TurnNext(node: nat)
    | StartAcks(node: nat)
    | FinishAcks(node: nat)
    | CommitNext(node: nat)
    | FinishCommit(node: nat)
    | AckOwner(node: nat)
    | Receive(node: nat, msg: Msg)
    | GiveUp(node: nat)

  /** Different nodes export different regions: each region carries its exporter's CNA. */
  predicate ValidConfig(c: Config) {
    && 2 <= c.n == |c.metas|
    && forall i, j :: 0 <= i < j < c.n ==> c.metas[i] != c.metas[j]
  }

  /** The cookie an owner stamps into a slot: owner + 1 in the high word, slot + 1 in the low word. */
  function RoundCookie(owner: nat, slot: nat): nat {
    (owner + 1) * 0x1_0000_0000 + (slot + 1) % 0x1_0000_0000
  }

  /** write_slot_payload: stamps the payload fields and keeps the rest of the record. */
  function Stamp(old_: SlotRecord, owner: nat, slot: nat): SlotRecord {
    old_.(magic := POOL_MAGIC, version := POOL_VERSION, owner := owner, round := slot,
          cookie := RoundCookie(owner, slot))
  }

  /** slot_matches_payload */
  predicate Matches(rec: SlotRecord, owner: nat, slot: nat) {
    && rec.magic == POOL_MAGIC && rec.version == POOL_VERSION
    && rec.owner == owner && rec.round == slot
    && rec.cookie == RoundCookie(owner, slot)
  }

  function InitNode(c: Config, i: nat): Node
    requires ValidConfig(c) && i < c.n
  {
    Node(Greeting, false, 0, 0, map[i := c.metas[i]], map[i := c.metas[i]], {}, {}, 0)
  }

  /** Every node has exported and mapped its own region; what the regions contain is arbitrary. */
  ghost predicate Init(c: Config, s: State) {
    && ValidConfig(c)
    && |s.nodes| == c.n
    && (forall i :: 0 <= i < c.n ==> s.nodes[i] == InitNode(c, i))
    && s.net == {}
    && (forall i :: 0 <= i < c.n ==> c.metas[i] in s.mem)
    && s.log == []
  }

  predicate All(c: Config, xs: set<nat>) {
    forall i :: 0 <= i < c.n ==> i in xs
  }

  /** Where do_rounds is at the top of its loop with round_idx = round. */
  function EnterRound(c: Config, me: nat, nd: Node, round: nat): Node {
    nd.(round := round,
        phase := if round >= c.n then Done else if round == me then OwnerWrite else WaitTurn)
  }

  predicate Receiving(p: Phase) {
    p.Greeting? || p.Barrier? || p.WaitTurn? || p.OwnerAcks? || p.WaitCommit?
  }

  predicate Greeted(c: Config, net: set<Msg>, me: nat)
    requires me < |c.metas|
  {
    forall p: nat :: p < c.n && p != me ==> Hello(me, p, c.metas[me]) in net
  }

  predicate Announced(c: Config, net: set<Msg>, me: nat) {
    forall p: nat :: p < c.n && p != me ==> Ready(me, p) in net
  }

  /** HELLO and READY go out to every missing peer, which at first is everybody, before anything is received. */
  predicate Spoken(c: Config, net: set<Msg>, me: nat, phase: Phase)
    requires me < |c.metas|
  {
    (phase == Greeting ==> Greeted(c, net, me)) && (phase == Barrier ==> Announced(c, net, me))
  }

  predicate Enabled(c: Config, s: State, a: Action) {
    && |s.nodes| == c.n == |c.metas|
    && a.node < c.n
    && var nd := s.nodes[a.node];
    && !nd.failed
    && match a
       case SendHello(_, peer) => nd.phase == Greeting && peer < c.n && peer != a.node && peer !in nd.metas
       case FinishHello(_) => nd.phase == Greeting && All(c, nd.metas.Keys)
       case ImportNext(_) => nd.phase == Importing && nd.next < c.n && nd.next in nd.metas
       case FinishImport(_) => nd.phase == Importing && nd.next == c.n
       case SendReady(_, peer) => nd.phase == Barrier && peer < c.n && peer != a.node && peer !in nd.heard
       case FinishReady(_) => nd.phase == Barrier && All(c, nd.heard)
       case Write(_) => nd.phase == OwnerWrite && nd.round in nd.slots && nd.slots[nd.round] in s.mem
       case Verify(_) =>
         && (nd.phase.OwnerVerify? || nd.phase.WaitSlot?)
         && nd.round in nd.slots && nd.slots[nd.round] in s.mem
         && Matches(s.mem[nd.slots[nd.round]], nd.round, nd.round)
       case TurnNext(_) => nd.phase == OwnerTurn && nd.next < c.n
       case StartAcks(_) => nd.phase == OwnerTurn && nd.next == c.n
       case FinishAcks(_) => nd.phase == OwnerAcks && nd.pending == 0
       case CommitNext(_) => nd.phase == OwnerCommit && nd.next < COMMIT_ATTEMPTS * c.n
       case FinishCommit(_) => nd.phase == OwnerCommit && nd.next == COMMIT_ATTEMPTS * c.n
       case AckOwner(_) => nd.phase == SendAck
       case Receive(_, msg) => Receiving(nd.phase) && msg in s.net && Spoken(c, s.net, a.node, nd.phase)
       case GiveUp(_) => true
  }

  /** What a node does with one datagram, depending on the wait loop it is in; anything else is discarded. */
  function Handle(c: Config, me: nat, nd: Node, msg: Msg): Node {
    match nd.phase
    case Greeting =>
      if msg.Hello? && msg.src < c.n then nd.(metas := nd.metas[msg.src := msg.meta]) else nd
    case Barrier =>
      if msg.Ready? && msg.src < c.n then nd.(heard := nd.heard + {msg.src}) else nd
    case WaitTurn =>
      if msg == Turn(nd.round, me, nd.round) then nd.(phase := WaitSlot) else nd
    case OwnerAcks =>
      if msg.Ack? && msg.dst == me && msg.round == nd.round && msg.src < c.n && msg.src != me
         && msg.src !in nd.acks
      then nd.(acks := nd.acks + {msg.src}, pending := nd.pending - 1) else nd
    case WaitCommit =>
      if msg == Commit(nd.round, me, nd.round) then EnterRound(c, me, nd, nd.round + 1) else nd
    case _ => nd
  }

  /** The node an action leaves behind. */
  function After(c: Config, s: State, a: Action): Node
    requires Enabled(c, s, a)
  {
    var me, nd := a.node, s.nodes[a.node];
    match a
    case SendHello(_, _) => nd
    case FinishHello(_) => nd.(phase := Importing, next := 0)
    case ImportNext(_) =>
      var nd' := nd.(next := nd.next + 1);
      if nd.next == me then nd' else nd'.(slots := nd.slots[nd.next := nd.metas[nd.next]])
    case FinishImport(_) => nd.(phase := Barrier, heard := {me})
    case SendReady(_, _) => nd
    case FinishReady(_) => EnterRound(c, me, nd, 0)
    case Write(_) => nd.(phase := OwnerVerify)
    case Verify(_) => if nd.phase == OwnerVerify then nd.(phase := OwnerTurn, next := 0) else nd.(phase := SendAck)
    case TurnNext(_) => nd.(next := nd.next + 1)
    case StartAcks(_) => nd.(phase := OwnerAcks, acks := {}, pending := c.n - 1)
    case FinishAcks(_) => nd.(phase := OwnerCommit, next := 0)
    case CommitNext(_) => nd.(next := nd.next + 1)
    case FinishCommit(_) => EnterRound(c, me, nd, nd.round + 1)
    case AckOwner(_) => nd.(phase := WaitCommit)
    case Receive(_, msg) => Handle(c, me, nd, msg)
    case GiveUp(_) => nd.(failed := true)
  }

  /** The datagrams an action puts on the network. */
  function Sent(c: Config, s: State, a: Action): set<Msg>
    requires Enabled(c, s, a)
  {
    var me, nd := a.node, s.nodes[a.node];
    match a
    case SendHello(_, peer) => {Hello(me, peer, c.metas[me])}
    case SendReady(_, peer) => {Ready(me, peer)}
    case TurnNext(_) => if nd.next == me then {} else {Turn(me, nd.next, nd.round)}
    case CommitNext(_) => if nd.next % c.n == me then {} else {Commit(me, nd.next % c.n, nd.round)}
    case AckOwner(_) => {Ack(me, nd.round, nd.round)}
    case _ => {}
  }

  /** The events an action adds to the history. */
  function Logged(c: Config, s: State, a: Action): seq<Event>
    requires Enabled(c, s, a)
  {
    var me, nd := a.node, s.nodes[a.node];
    match a
    case Write(_) => [Wrote(me, nd.round, Stamp(s.mem[nd.slots[nd.round]], nd.round, nd.round))]
    case Verify(_) => [Verified(me, nd.round, s.mem[nd.slots[nd.round]])]
    case FinishCommit(_) => [Finished(me, nd.round)]
    case Receive(_, msg) =>
      if nd.phase == WaitCommit && msg == Commit(nd.round, me, nd.round) then [Finished(me, nd.round)] else []
    case _ => []
  }

  function Step(c: Config, s: State, a: Action): State
    requires Enabled(c, s, a)
  {
    State(s.nodes[a.node := After(c, s, a)],
          s.net + Sent(c, s, a),
          if a.Write? then
            var region := s.nodes[a.node].slots[s.nodes[a.node].round];
            s.mem[region := Stamp(s.mem[region], s.nodes[a.node].round, s.nodes[a.node].round)]
          else s.mem,
          s.log + Logged(c, s, a))
  }

  /** A run: a sequence of states in which every successor comes from an enabled action. */
  ghost predicate Run(c: Config, states: seq<State>) {
    && |states| > 0
    && Init(c, states[0])
    && forall i :: 0 <= i < |states| - 1 ==> Follows(c, states[i], states[i + 1])
  }

  ghost predicate Follows(c: Config, s: State, s': State) {
    exists a :: Enabled(c, s, a) && s' == Step(c, s, a)
  }
}
