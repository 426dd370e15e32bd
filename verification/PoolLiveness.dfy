/**
 The pool protocol can always complete: from any reachable state in which no node has given up,
 some continuation brings every node to the end of its rounds.
 */
module PoolLiveness {
  import opened PoolProtocol
  import opened PoolProofs
  import opened PoolHistory

  // ----- What has been sent ----------------------------------------------------------------------

  /** HELLO: sent to everybody, unless the node has not received anything yet. */
  ghost predicate HelloSent(c: Config, net: set<Msg>, i: nat, nd: Node)
    requires i < |c.metas|
  {
    i in nd.metas && (Greeted(c, net, i) || (nd.phase == Greeting && forall k :: k in nd.metas ==> k == i))
  }

  ghost predicate ReadySent(c: Config, net: set<Msg>, i: nat, nd: Node) {
    && (nd.phase == Barrier ==> i in nd.heard && (Announced(c, net, i) || forall k :: k in nd.heard ==> k == i))
    && (PastBarrier(nd) ==> Announced(c, net, i))
  }

  ghost predicate TurnSent(c: Config, net: set<Msg>, i: nat, nd: Node) {
    && (nd.phase == OwnerTurn ==>
          nd.next <= c.n && forall j: nat :: j < nd.next && j != i ==> Turn(i, j, i) in net)
    && (Progress(nd) >= 20 * i + 6 ==> forall j: nat :: j < c.n && j != i ==> Turn(i, j, i) in net)
  }

  ghost predicate AckSent(c: Config, net: set<Msg>, i: nat, nd: Node) {
    forall r: nat :: r < c.n && r != i && Progress(nd) >= 20 * r + 6 ==> Ack(i, r, r) in net
  }

  ghost predicate CommitSent(c: Config, net: set<Msg>, i: nat, nd: Node)
    requires c.n > 0
  {
    && (nd.phase == OwnerCommit ==>
          && nd.next <= COMMIT_ATTEMPTS * c.n
          && forall k: nat :: k < nd.next && k < c.n && k != i ==> Commit(i, k, i) in net)
    && (nd.round > i ==> forall j: nat :: j < c.n && j != i ==> Commit(i, j, i) in net)
  }

  ghost predicate SentOk(c: Config, net: set<Msg>, i: nat, nd: Node)
    requires i < |c.metas| && c.n > 0
  {
    && HelloSent(c, net, i, nd) && ReadySent(c, net, i, nd) && TurnSent(c, net, i, nd)
    && AckSent(c, net, i, nd) && CommitSent(c, net, i, nd)
  }

  ghost predicate SentInv(c: Config, s: State) {
    |s.nodes| == c.n == |c.metas| && c.n >= 2 && forall i :: 0 <= i < c.n ==> SentOk(c, s.net, i, s.nodes[i])
  }

  // ----- Every action keeps that -------------------------------------------------------------------

  lemma NetGrows(c: Config, net: set<Msg>, net': set<Msg>, i: nat, nd: Node)
    requires i < |c.metas| && c.n > 0 && net <= net' && SentOk(c, net, i, nd)
    ensures SentOk(c, net', i, nd)
  {
  }

  lemma HelloStays(c: Config, s: State, a: Action)
    requires Enabled(c, s, a) && c.n >= 2 && HelloSent(c, s.net, a.node, s.nodes[a.node])
    ensures HelloSent(c, s.net + Sent(c, s, a), a.node, After(c, s, a))
  {
    if a.FinishHello? {
      var other := if a.node == 0 then 1 else 0;
      assert other in s.nodes[a.node].metas;
    }
  }

  lemma ReadyStays(c: Config, s: State, a: Action)
    requires Enabled(c, s, a) && c.n >= 2 && ReadySent(c, s.net, a.node, s.nodes[a.node])
    requires ControlOk(c, a.node, s.nodes[a.node])
    ensures ReadySent(c, s.net + Sent(c, s, a), a.node, After(c, s, a))
  {
    if a.FinishReady? {
      var other := if a.node == 0 then 1 else 0;
      assert other in s.nodes[a.node].heard;
    }
  }

  lemma TurnStays(c: Config, s: State, a: Action)
    requires Enabled(c, s, a) && TurnSent(c, s.net, a.node, s.nodes[a.node])
    requires ControlOk(c, a.node, s.nodes[a.node])
    ensures TurnSent(c, s.net + Sent(c, s, a), a.node, After(c, s, a))
  {
  }

  lemma AckStays(c: Config, s: State, a: Action)
    requires Enabled(c, s, a) && AckSent(c, s.net, a.node, s.nodes[a.node])
    requires ControlOk(c, a.node, s.nodes[a.node])
    ensures AckSent(c, s.net + Sent(c, s, a), a.node, After(c, s, a))
  {
  }

  lemma SmallMod(k: nat, n: nat)
    requires k < n
    ensures k % n == k
  {
  }

  lemma CommitNextStays(c: Config, s: State, a: Action)
    requires Enabled(c, s, a) && c.n > 0 && a.CommitNext? && CommitSent(c, s.net, a.node, s.nodes[a.node])
    requires ControlOk(c, a.node, s.nodes[a.node])
    ensures CommitSent(c, s.net + Sent(c, s, a), a.node, After(c, s, a))
  {
    var nd := s.nodes[a.node];
    if nd.next < c.n { SmallMod(nd.next, c.n); }
  }

  lemma HandleCommits(c: Config, net: set<Msg>, i: nat, nd: Node, m: Msg)
    requires c.n > 0 && CommitSent(c, net, i, nd) && ControlOk(c, i, nd)
    ensures CommitSent(c, net, i, Handle(c, i, nd, m))
  {
  }

  lemma CommitStays(c: Config, s: State, a: Action)
    requires Enabled(c, s, a) && c.n > 0 && CommitSent(c, s.net, a.node, s.nodes[a.node])
    requires ControlOk(c, a.node, s.nodes[a.node])
    ensures CommitSent(c, s.net + Sent(c, s, a), a.node, After(c, s, a))
  {
    if a.CommitNext? {
      CommitNextStays(c, s, a);
    } else if a.Receive? {
      HandleCommits(c, s.net, a.node, s.nodes[a.node], a.msg);
    }
  }

  lemma ActorSent(c: Config, s: State, a: Action)
    requires Enabled(c, s, a) && c.n >= 2 && SentOk(c, s.net, a.node, s.nodes[a.node])
    requires ControlOk(c, a.node, s.nodes[a.node])
    ensures SentOk(c, s.net + Sent(c, s, a), a.node, After(c, s, a))
  {
    HelloStays(c, s, a);
    ReadyStays(c, s, a);
    TurnStays(c, s, a);
    AckStays(c, s, a);
    CommitStays(c, s, a);
  }

  lemma StepSent(c: Config, s: State, a: Action)
    requires Inv(c, s) && SentInv(c, s) && Enabled(c, s, a)
    ensures SentInv(c, Step(c, s, a))
  {
    var s' := Step(c, s, a);
    assert NodeOk(c, a.node, s.nodes[a.node]);
    forall i | 0 <= i < c.n ensures SentOk(c, s'.net, i, s'.nodes[i]) {
      if i == a.node { ActorSent(c, s, a); } else { NetGrows(c, s.net, s'.net, i, s.nodes[i]); }
    }
  }

  lemma InitSent(c: Config, s: State)
    requires Init(c, s)
    ensures SentInv(c, s)
  {
    forall i | 0 <= i < c.n ensures SentOk(c, s.net, i, s.nodes[i]) {}
  }

  // ----- Runs that go on ---------------------------------------------------------------------------

  /** Everything known of reachable states. */
  ghost predicate Known(c: Config, s: State) { History(c, s) && SentInv(c, s) }

  lemma {:induction false} RunKnown(c: Config, states: seq<State>, k: nat)
    requires Run(c, states) && k < |states|
    ensures Known(c, states[k])
  {
    if k == 0 {
      InitHistory(c, states[0]);
      InitSent(c, states[0]);
    } else {
      RunKnown(c, states, k - 1);
      assert Follows(c, states[k - 1], states[k]);
      FollowsKnown(c, states[k - 1], states[k]);
    }
  }

  lemma FollowsKnown(c: Config, s: State, s': State)
    requires Known(c, s) && Follows(c, s, s')
    ensures Known(c, s')
  {
    FollowsHistory(c, s, s');
    var a :| Enabled(c, s, a) && s' == Step(c, s, a);
    StepSent(c, s, a);
  }

  /** A path of steps from one state to another. */
  ghost predicate Path(c: Config, states: seq<State>, s: State, s': State) {
    && |states| > 0 && states[0] == s && states[|states| - 1] == s'
    && forall i :: 0 <= i < |states| - 1 ==> Follows(c, states[i], states[i + 1])
  }

  ghost predicate Leads(c: Config, s: State, s': State) { exists states :: Path(c, states, s, s') }

  ghost predicate NoneFailed(s: State) { forall nd :: nd in s.nodes ==> !nd.failed }

  /** Every node has reported "pool rounds -> ok". */
  ghost predicate AllDone(s: State) { forall nd :: nd in s.nodes ==> nd.phase == Done }

  lemma StepThenPath(c: Config, s: State, s1: State, s': State)
    requires Follows(c, s, s1) && Leads(c, s1, s')
    ensures Leads(c, s, s')
  {
    var states :| Path(c, states, s1, s');
    var longer := [s] + states;
    forall i | 0 <= i < |longer| - 1 ensures Follows(c, longer[i], longer[i + 1]) {
      if i > 0 { assert longer[i] == states[i - 1] && longer[i + 1] == states[i]; }
    }
    assert Path(c, longer, s, s');
  }

  // ----- How much is left to do ----------------------------------------------------------------------

  function CountIn(n: nat, xs: set<nat>): (k: nat)
    ensures k <= n
  {
    if n == 0 then 0 else CountIn(n - 1, xs) + if n - 1 in xs then 1 else 0
  }

  lemma {:induction false} CountGrows(n: nat, xs: set<nat>, ys: set<nat>)
    requires xs <= ys
    ensures CountIn(n, xs) <= CountIn(n, ys)
  {
    if n > 0 { CountGrows(n - 1, xs, ys); }
  }

  lemma {:induction false} CountMore(n: nat, xs: set<nat>, x: nat)
    requires x < n && x !in xs
    ensures CountIn(n, xs + {x}) > CountIn(n, xs)
  {
    if x == n - 1 { CountGrows(n - 1, xs, xs + {x}); } else { CountMore(n - 1, xs, x); }
  }

  /** Peers a node has sent HELLO to, and READY. */
  function GreetedBy(c: Config, net: set<Msg>, i: nat): set<nat>
    requires i < |c.metas|
  {
    set p: nat | p < c.n && Hello(i, p, c.metas[i]) in net
  }

  function AnnouncedBy(c: Config, net: set<Msg>, i: nat): set<nat> { set p: nat | p < c.n && Ready(i, p) in net }

  /** Progress inside a program point. */
  function Inside(c: Config, net: set<Msg>, i: nat, nd: Node): nat
    requires i < |c.metas|
  {
    match nd.phase
    case Greeting => CountIn(c.n, GreetedBy(c, net, i)) + CountIn(c.n, nd.metas.Keys)
    case Importing => nd.next
    case Barrier => CountIn(c.n, AnnouncedBy(c, net, i)) + CountIn(c.n, nd.heard)
    case OwnerTurn => nd.next
    case OwnerAcks => CountIn(c.n, nd.acks)
    case OwnerCommit => nd.next
    case _ => 0
  }

  /** A step that brings its node forward. */
  ghost predicate Useful(c: Config, s: State, a: Action) {
    && Enabled(c, s, a) && !a.GiveUp?
    && var nd, nd' := s.nodes[a.node], After(c, s, a);
       Progress(nd') > Progress(nd)
       || (Progress(nd') == Progress(nd)
           && Inside(c, s.net + Sent(c, s, a), a.node, nd') > Inside(c, s.net, a.node, nd))
  }

  // ----- Some useful step is always there --------------------------------------------------------------

  ghost predicate Shaped(c: Config, s: State) { |s.nodes| == c.n == |c.metas| && c.n >= 2 }

  ghost predicate Live(c: Config, s: State, i: nat) { Shaped(c, s) && i < c.n && !s.nodes[i].failed }

  /** An unsent HELLO can be sent. */
  lemma GreetOn(c: Config, s: State, i: nat, p: nat) returns (a: Action)
    requires Live(c, s, i) && p < c.n && p != i && HelloSent(c, s.net, i, s.nodes[i])
    requires Hello(i, p, c.metas[i]) !in s.net
    ensures Useful(c, s, a)
  {
    a := SendHello(i, p);
    var sent := GreetedBy(c, s.net, i);
    assert !Greeted(c, s.net, i);
    assert GreetedBy(c, s.net + {Hello(i, p, c.metas[i])}, i) == sent + {p};
    CountMore(c.n, sent, p);
  }

  lemma AnnounceOn(c: Config, s: State, i: nat, p: nat) returns (a: Action)
    requires Live(c, s, i) && p < c.n && p != i && ReadySent(c, s.net, i, s.nodes[i])
    requires s.nodes[i].phase == Barrier && Ready(i, p) !in s.net
    ensures Useful(c, s, a)
  {
    a := SendReady(i, p);
    var sent := AnnouncedBy(c, s.net, i);
    assert !Announced(c, s.net, i);
    assert AnnouncedBy(c, s.net + {Ready(i, p)}, i) == sent + {p};
    CountMore(c.n, sent, p);
  }

  /** A missing HELLO that was sent can be received. */
  lemma HearHello(c: Config, s: State, i: nat, j: nat) returns (a: Action)
    requires Live(c, s, i) && j < c.n && s.nodes[i].phase == Greeting && Greeted(c, s.net, i)
    requires j !in s.nodes[i].metas && Hello(j, i, c.metas[j]) in s.net
    ensures Useful(c, s, a)
  {
    a := Receive(i, Hello(j, i, c.metas[j]));
    var metas := s.nodes[i].metas;
    assert metas[j := c.metas[j]].Keys == metas.Keys + {j};
    CountMore(c.n, metas.Keys, j);
    assert s.net + Sent(c, s, a) == s.net;
  }

  lemma HearReady(c: Config, s: State, i: nat, j: nat) returns (a: Action)
    requires Live(c, s, i) && j < c.n && s.nodes[i].phase == Barrier && Announced(c, s.net, i)
    requires j !in s.nodes[i].heard && Ready(j, i) in s.net
    ensures Useful(c, s, a)
  {
    a := Receive(i, Ready(j, i));
    CountMore(c.n, s.nodes[i].heard, j);
    assert s.net + Sent(c, s, a) == s.net;
  }

  lemma HelloDone(c: Config, s: State, i: nat)
    requires Live(c, s, i) && s.nodes[i].phase == Greeting && All(c, s.nodes[i].metas.Keys)
    ensures Useful(c, s, FinishHello(i))
  {
    assert After(c, s, FinishHello(i)).phase == Importing;
  }

  lemma ReadyDone(c: Config, s: State, i: nat)
    requires Live(c, s, i) && s.nodes[i].phase == Barrier && s.nodes[i].round == 0 && All(c, s.nodes[i].heard)
    ensures Useful(c, s, FinishReady(i))
  {
    assert After(c, s, FinishReady(i)) == EnterRound(c, i, s.nodes[i], 0);
  }

  lemma GreetingOn(c: Config, s: State, i: nat) returns (a: Action)
    requires Shaped(c, s) && i < c.n && s.nodes[i].phase == Greeting
    requires forall j: nat :: j < c.n ==> Live(c, s, j) && HelloSent(c, s.net, j, s.nodes[j])
    ensures Useful(c, s, a)
  {
    if p: nat :| p < c.n && p != i && Hello(i, p, c.metas[i]) !in s.net {
      a := GreetOn(c, s, i, p);
    } else if j: nat :| j < c.n && j !in s.nodes[i].metas {
      if Hello(j, i, c.metas[j]) in s.net {
        a := HearHello(c, s, i, j);
      } else {
        a := GreetOn(c, s, j, i);
      }
    } else {
      HelloDone(c, s, i);
      a := FinishHello(i);
    }
  }

  lemma BarrierOn(c: Config, s: State, i: nat) returns (a: Action)
    requires Shaped(c, s) && i < c.n && s.nodes[i].phase == Barrier && s.nodes[i].round == 0
    requires forall j: nat :: j < c.n ==> Live(c, s, j) && ReadySent(c, s.net, j, s.nodes[j])
    requires forall j: nat :: j < c.n ==> s.nodes[j].phase == Barrier || PastBarrier(s.nodes[j])
    ensures Useful(c, s, a)
  {
    if p: nat :| p < c.n && p != i && Ready(i, p) !in s.net {
      a := AnnounceOn(c, s, i, p);
    } else if j: nat :| j < c.n && j !in s.nodes[i].heard {
      if Ready(j, i) in s.net {
        a := HearReady(c, s, i, j);
      } else {
        assert s.nodes[j].phase == Barrier;
        a := AnnounceOn(c, s, j, i);
      }
    } else {
      ReadyDone(c, s, i);
      a := FinishReady(i);
    }
  }

  lemma ImportOn(c: Config, s: State, i: nat) returns (a: Action)
    requires Live(c, s, i) && s.nodes[i].phase == Importing && NodeOk(c, i, s.nodes[i])
    ensures Useful(c, s, a)
  {
    var nd := s.nodes[i];
    if nd.next < c.n {
      a := ImportNext(i);
      var nd' := After(c, s, a);
      assert nd'.next == nd.next + 1 && nd'.phase == Importing && nd'.round == nd.round;
      assert Progress(nd') == Progress(nd) && Inside(c, s.net, i, nd) == nd.next;
      assert Inside(c, s.net + Sent(c, s, a), i, nd') == nd.next + 1;
    } else {
      a := FinishImport(i);
    }
  }

  /** The lookups and the memory a node at work on its round needs. */
  ghost predicate CanLook(c: Config, s: State, nd: Node) {
    && nd.round in nd.slots && nd.slots[nd.round] in s.mem
    && (nd.phase == OwnerVerify || nd.phase == WaitSlot ==> Matches(s.mem[nd.slots[nd.round]], nd.round, nd.round))
  }

  lemma WriteOn(c: Config, s: State, i: nat) returns (a: Action)
    requires Live(c, s, i) && s.nodes[i].phase == OwnerWrite && CanLook(c, s, s.nodes[i])
    ensures Useful(c, s, a)
  {
    a := Write(i);
  }

  lemma VerifyOn(c: Config, s: State, i: nat) returns (a: Action)
    requires Live(c, s, i) && (s.nodes[i].phase == OwnerVerify || s.nodes[i].phase == WaitSlot)
    requires CanLook(c, s, s.nodes[i])
    ensures Useful(c, s, a)
  {
    a := Verify(i);
  }

  lemma TurnOn(c: Config, s: State, i: nat) returns (a: Action)
    requires Live(c, s, i) && s.nodes[i].phase == OwnerTurn && TurnSent(c, s.net, i, s.nodes[i])
    ensures Useful(c, s, a)
  {
    a := if s.nodes[i].next < c.n then TurnNext(i) else StartAcks(i);
  }

  lemma CommitOn(c: Config, s: State, i: nat) returns (a: Action)
    requires Live(c, s, i) && s.nodes[i].phase == OwnerCommit && CommitSent(c, s.net, i, s.nodes[i])
    ensures Useful(c, s, a)
  {
    a := if s.nodes[i].next < COMMIT_ATTEMPTS * c.n then CommitNext(i) else FinishCommit(i);
  }

  /** An owner can always write, check, announce and commit its slot. */
  lemma OwnerOn(c: Config, s: State, i: nat) returns (a: Action)
    requires Live(c, s, i) && OwnerPhase(s.nodes[i].phase) && s.nodes[i].phase != OwnerAcks
    requires SentOk(c, s.net, i, s.nodes[i])
    requires s.nodes[i].phase == OwnerWrite || s.nodes[i].phase == OwnerVerify ==> CanLook(c, s, s.nodes[i])
    ensures Useful(c, s, a)
  {
    var phase := s.nodes[i].phase;
    if phase == OwnerWrite {
      a := WriteOn(c, s, i);
    } else if phase == OwnerVerify {
      a := VerifyOn(c, s, i);
    } else if phase == OwnerTurn {
      a := TurnOn(c, s, i);
    } else {
      a := CommitOn(c, s, i);
    }
  }

  lemma HearAck(c: Config, s: State, i: nat, j: nat) returns (a: Action)
    requires Live(c, s, i) && s.nodes[i].phase == OwnerAcks && s.nodes[i].round == i
    requires j < c.n && j != i && j !in s.nodes[i].acks && Ack(j, i, i) in s.net
    ensures Useful(c, s, a)
  {
    a := Receive(i, Ack(j, i, i));
    CountMore(c.n, s.nodes[i].acks, j);
    assert s.net + Sent(c, s, a) == s.net;
  }

  lemma AllAcked(c: Config, i: nat, nd: Node)
    requires i < c.n && nd.phase == OwnerAcks && AcksOk(c, i, nd)
    requires forall j: nat :: j < c.n && j != i ==> j in nd.acks
    ensures nd.pending == 0
  {
    assert nd.acks == Others(c.n, i);
  }

  /** Once everybody has acknowledged, the owner hears it. */
  lemma AcksOn(c: Config, s: State, i: nat) returns (a: Action)
    requires Live(c, s, i) && s.nodes[i].phase == OwnerAcks && s.nodes[i].round == i && AcksOk(c, i, s.nodes[i])
    requires forall j: nat :: j < c.n && j != i ==> Ack(j, i, i) in s.net
    ensures Useful(c, s, a)
  {
    if j: nat :| j < c.n && j != i && j !in s.nodes[i].acks {
      a := HearAck(c, s, i, j);
    } else {
      AllAcked(c, i, s.nodes[i]);
      a := FinishAcks(i);
    }
  }

  lemma HearTurn(c: Config, s: State, i: nat) returns (a: Action)
    requires Live(c, s, i) && s.nodes[i].phase == WaitTurn
    requires Turn(s.nodes[i].round, i, s.nodes[i].round) in s.net
    ensures Useful(c, s, a)
  {
    a := Receive(i, Turn(s.nodes[i].round, i, s.nodes[i].round));
  }

  lemma HearCommit(c: Config, s: State, i: nat) returns (a: Action)
    requires Live(c, s, i) && s.nodes[i].phase == WaitCommit
    requires Commit(s.nodes[i].round, i, s.nodes[i].round) in s.net
    ensures Useful(c, s, a)
  {
    a := Receive(i, Commit(s.nodes[i].round, i, s.nodes[i].round));
  }

  lemma AckOn(c: Config, s: State, i: nat) returns (a: Action)
    requires Live(c, s, i) && s.nodes[i].phase == SendAck
    ensures Useful(c, s, a)
  {
    a := AckOwner(i);
  }

  // ----- The slowest node, or whom it waits for ---------------------------------------------------------

  /** What is known of one node of a reachable state. */
  ghost predicate NodeKnown(c: Config, s: State, i: nat) {
    && Live(c, s, i) && NodeOk(c, i, s.nodes[i]) && SentOk(c, s.net, i, s.nodes[i])
    && (Progress(s.nodes[i]) >= 3 && s.nodes[i].phase != Done ==> s.nodes[i].round < c.n)
    && (s.nodes[i].phase == OwnerWrite || s.nodes[i].phase == OwnerVerify || s.nodes[i].phase == WaitSlot ==>
          CanLook(c, s, s.nodes[i]))
  }

  lemma KnownNode(c: Config, s: State, i: nat)
    requires Known(c, s) && NoneFailed(s) && i < c.n
    ensures NodeKnown(c, s, i)
  {
    var nd := s.nodes[i];
    assert NodeOk(c, i, nd) && TurnOk(c, s, nd) && SentOk(c, s.net, i, nd);
    assert nd in s.nodes;
    NodeLookups(c, s, i);
    if nd.phase == OwnerVerify { OwnRecord(c, s, i); }
    if nd.phase == WaitSlot { OwnRecord(c, s, nd.round); }
  }

  ghost predicate AllKnown(c: Config, s: State) {
    && Shaped(c, s) && (forall i: nat :: i < c.n ==> NodeKnown(c, s, i))
    && forall i: nat, j: nat :: i < c.n && j < c.n ==> PairOk(s.nodes[i], j, s.nodes[j])
  }

  lemma KnownAll(c: Config, s: State)
    requires Known(c, s) && NoneFailed(s)
    ensures AllKnown(c, s)
  {
    forall i: nat | i < c.n ensures NodeKnown(c, s, i) { KnownNode(c, s, i); }
    forall i: nat, j: nat | i < c.n && j < c.n ensures PairOk(s.nodes[i], j, s.nodes[j]) { KnownPair(c, s, i, j); }
  }

  lemma KnownPair(c: Config, s: State, i: nat, j: nat)
    requires Inv(c, s) && i < c.n && j < c.n
    ensures PairOk(s.nodes[i], j, s.nodes[j])
  {
  }

  /** The owner of round r, seen from a node that is in round r and has not verified its slot yet. */
  lemma OwnerInRound(c: Config, r: nat, o: Node, i: nat, ni: Node)
    requires ControlOk(c, r, o) && PairOk(o, i, ni) && r < c.n
    requires Progress(o) >= 20 * r + 3 && Progress(ni) < 20 * r + 5
    ensures o.round == r && OwnerPhase(o.phase)
  {
  }

  lemma TurnWaitOn(c: Config, s: State, i: nat) returns (a: Action)
    requires AllKnown(c, s) && i < c.n && s.nodes[i].phase == WaitTurn
    requires forall j: nat :: j < c.n ==> Progress(s.nodes[j]) >= Progress(s.nodes[i])
    ensures Useful(c, s, a)
  {
    var r := s.nodes[i].round;
    assert NodeKnown(c, s, i) && NodeKnown(c, s, r);
    OwnerInRound(c, r, s.nodes[r], i, s.nodes[i]);
    if Progress(s.nodes[r]) >= 20 * r + 6 {
      a := HearTurn(c, s, i);
    } else {
      a := OwnerOn(c, s, r);
    }
  }

  lemma CommitWaitOn(c: Config, s: State, i: nat) returns (a: Action)
    requires AllKnown(c, s) && i < c.n && s.nodes[i].phase == WaitCommit
    requires forall j: nat :: j < c.n ==> Progress(s.nodes[j]) >= Progress(s.nodes[i])
    ensures Useful(c, s, a)
  {
    var r := s.nodes[i].round;
    assert NodeKnown(c, s, i) && NodeKnown(c, s, r);
    var o := s.nodes[r];
    if o.round > r {
      a := HearCommit(c, s, i);
    } else {
      CommitOwner(c, r, o);
      a := LateOwnerOn(c, s, r);
    }
  }

  lemma CommitOwner(c: Config, r: nat, o: Node)
    requires ControlOk(c, r, o) && r < c.n && Progress(o) >= 20 * r + 6 && o.round <= r
    ensures o.round == r && (o.phase == OwnerAcks || o.phase == OwnerCommit)
  {
  }

  /** An owner past TURN, with everybody past the acknowledgement of its round. */
  lemma LateOwnerOn(c: Config, s: State, r: nat) returns (a: Action)
    requires AllKnown(c, s) && r < c.n && s.nodes[r].round == r
    requires s.nodes[r].phase == OwnerAcks || s.nodes[r].phase == OwnerCommit
    requires forall j: nat :: j < c.n ==> Progress(s.nodes[j]) >= 20 * r + 6
    ensures Useful(c, s, a)
  {
    assert NodeKnown(c, s, r);
    if s.nodes[r].phase == OwnerAcks {
      forall j: nat | j < c.n && j != r ensures Ack(j, r, r) in s.net { assert NodeKnown(c, s, j); }
      a := AcksOn(c, s, r);
    } else {
      a := CommitOn(c, s, r);
    }
  }

  lemma SlowestOn(c: Config, s: State, i: nat) returns (a: Action)
    requires AllKnown(c, s) && i < c.n && s.nodes[i].phase != Done
    requires forall j: nat :: j < c.n ==> Progress(s.nodes[j]) >= Progress(s.nodes[i])
    ensures Useful(c, s, a)
  {
    assert NodeKnown(c, s, i);
    var phase := s.nodes[i].phase;
    if phase == Greeting {
      forall j: nat | j < c.n ensures Live(c, s, j) && HelloSent(c, s.net, j, s.nodes[j]) { assert NodeKnown(c, s, j); }
      a := GreetingOn(c, s, i);
    } else if phase == Importing {
      a := ImportOn(c, s, i);
    } else if phase == Barrier {
      BarrierFacts(c, s, i);
      a := BarrierOn(c, s, i);
    } else if phase == WaitTurn {
      a := TurnWaitOn(c, s, i);
    } else if phase == WaitSlot {
      a := VerifyOn(c, s, i);
    } else if phase == SendAck {
      a := AckOn(c, s, i);
    } else if phase == WaitCommit {
      a := CommitWaitOn(c, s, i);
    } else if phase == OwnerAcks {
      a := LateOwnerOn(c, s, i);
    } else {
      a := OwnerOn(c, s, i);
    }
  }

  lemma BarrierFacts(c: Config, s: State, i: nat)
    requires AllKnown(c, s) && i < c.n && s.nodes[i].phase == Barrier
    requires forall j: nat :: j < c.n ==> Progress(s.nodes[j]) >= Progress(s.nodes[i])
    ensures forall j: nat :: j < c.n ==> Live(c, s, j) && ReadySent(c, s.net, j, s.nodes[j])
    ensures forall j: nat :: j < c.n ==> s.nodes[j].phase == Barrier || PastBarrier(s.nodes[j])
  {
    assert NodeKnown(c, s, i);
    forall j: nat | j < c.n
      ensures Live(c, s, j) && ReadySent(c, s.net, j, s.nodes[j])
      ensures s.nodes[j].phase == Barrier || PastBarrier(s.nodes[j])
    {
      assert NodeKnown(c, s, j);
    }
  }

  lemma {:induction false} Slowest(nodes: seq<Node>, n: nat) returns (i: nat)
    requires 0 < n <= |nodes|
    ensures i < n && forall j: nat :: j < n ==> Progress(nodes[j]) >= Progress(nodes[i])
  {
    if n == 1 {
      i := 0;
    } else {
      i := Slowest(nodes, n - 1);
      i := if Progress(nodes[n - 1]) < Progress(nodes[i]) then n - 1 else i;
    }
  }

  lemma DoneIsFarthest(c: Config, i: nat, ni: Node, j: nat, nj: Node)
    requires ControlOk(c, i, ni) && ControlOk(c, j, nj) && ni.phase == Done && Progress(nj) >= Progress(ni)
    requires i < c.n && j < c.n
    ensures nj.phase == Done
  {
  }

  /** Unless all are done, some step brings a node forward. */
  lemma UsefulStep(c: Config, s: State) returns (a: Action)
    requires AllKnown(c, s) && !AllDone(s)
    ensures Useful(c, s, a)
  {
    var i := Slowest(s.nodes, c.n);
    if s.nodes[i].phase == Done {
      forall j: nat | j < c.n ensures s.nodes[j].phase == Done {
        assert NodeKnown(c, s, i) && NodeKnown(c, s, j);
        DoneIsFarthest(c, i, s.nodes[i], j, s.nodes[j]);
      }
    }
    a := SlowestOn(c, s, i);
  }

  // ----- The end is reached ------------------------------------------------------------------------------

  function Ahead(c: Config, nd: Node): nat {
    if Progress(nd) <= 20 * c.n + 3 then 20 * c.n + 3 - Progress(nd) else 0
  }

  function Missing(c: Config, net: set<Msg>, i: nat, nd: Node): nat
    requires i < |c.metas|
  {
    if Inside(c, net, i, nd) <= COMMIT_ATTEMPTS * c.n then COMMIT_ATTEMPTS * c.n - Inside(c, net, i, nd) else 0
  }

  function TotalAhead(c: Config, nodes: seq<Node>): nat {
    if nodes == [] then 0 else TotalAhead(c, nodes[..|nodes| - 1]) + Ahead(c, nodes[|nodes| - 1])
  }

  function TotalMissing(c: Config, net: set<Msg>, nodes: seq<Node>): nat
    requires |nodes| <= |c.metas|
  {
    if nodes == [] then 0
    else TotalMissing(c, net, nodes[..|nodes| - 1]) + Missing(c, net, |nodes| - 1, nodes[|nodes| - 1])
  }

  lemma {:induction false} AheadUpdate(c: Config, nodes: seq<Node>, i: nat, nd: Node)
    requires i < |nodes|
    ensures TotalAhead(c, nodes[i := nd]) + Ahead(c, nodes[i]) == TotalAhead(c, nodes) + Ahead(c, nd)
  {
    var n := |nodes| - 1;
    if i == n {
      assert nodes[i := nd][..n] == nodes[..n];
    } else {
      assert nodes[i := nd][..n] == nodes[..n][i := nd];
      AheadUpdate(c, nodes[..n], i, nd);
    }
  }

  lemma InsideGrows(c: Config, net: set<Msg>, net': set<Msg>, i: nat, nd: Node)
    requires i < |c.metas| && net <= net'
    ensures Inside(c, net, i, nd) <= Inside(c, net', i, nd)
  {
    CountGrows(c.n, GreetedBy(c, net, i), GreetedBy(c, net', i));
    CountGrows(c.n, AnnouncedBy(c, net, i), AnnouncedBy(c, net', i));
  }

  lemma {:induction false} MissingGrows(c: Config, net: set<Msg>, net': set<Msg>, nodes: seq<Node>)
    requires |nodes| <= |c.metas| && net <= net'
    ensures TotalMissing(c, net', nodes) <= TotalMissing(c, net, nodes)
  {
    if nodes != [] {
      MissingGrows(c, net, net', nodes[..|nodes| - 1]);
      InsideGrows(c, net, net', |nodes| - 1, nodes[|nodes| - 1]);
    }
  }

  lemma {:induction false} MissingUpdate(c: Config, net: set<Msg>, net': set<Msg>, nodes: seq<Node>, i: nat, nd: Node)
    requires i < |nodes| <= |c.metas| && net <= net'
    requires Missing(c, net', i, nd) < Missing(c, net, i, nodes[i])
    ensures TotalMissing(c, net', nodes[i := nd]) < TotalMissing(c, net, nodes)
  {
    var n := |nodes| - 1;
    if i == n {
      assert nodes[i := nd][..n] == nodes[..n];
      MissingGrows(c, net, net', nodes[..n]);
    } else {
      assert nodes[i := nd][..n] == nodes[..n][i := nd];
      MissingUpdate(c, net, net', nodes[..n], i, nd);
      InsideGrows(c, net, net', n, nodes[n]);
    }
  }

  lemma InsideBound(c: Config, net: set<Msg>, i: nat, nd: Node)
    requires i < |c.metas| && c.n > 0 && NodeOk(c, i, nd) && SentOk(c, net, i, nd)
    ensures Inside(c, net, i, nd) <= COMMIT_ATTEMPTS * c.n
  {
  }

  lemma ProgressBound(c: Config, i: nat, nd: Node)
    requires i < c.n && ControlOk(c, i, nd)
    ensures Progress(nd) <= 20 * c.n + 3
  {
  }

  lemma UsefulShrinks(c: Config, s: State, a: Action)
    requires Useful(c, s, a) && c.n > 0
    requires NodeOk(c, a.node, After(c, s, a)) && SentOk(c, s.net + Sent(c, s, a), a.node, After(c, s, a))
    ensures var s' := Step(c, s, a);
      TotalAhead(c, s'.nodes) < TotalAhead(c, s.nodes)
      || (TotalAhead(c, s'.nodes) == TotalAhead(c, s.nodes)
          && TotalMissing(c, s'.net, s'.nodes) < TotalMissing(c, s.net, s.nodes))
  {
    var i, nd, nd', net' := a.node, s.nodes[a.node], After(c, s, a), s.net + Sent(c, s, a);
    AheadUpdate(c, s.nodes, i, nd');
    ProgressBound(c, i, nd');
    if Progress(nd') == Progress(nd) {
      InsideBound(c, net', i, nd');
      MissingUpdate(c, s.net, net', s.nodes, i, nd');
    }
  }

  lemma UsefulKeepsAlive(c: Config, s: State, a: Action)
    requires Useful(c, s, a) && NoneFailed(s)
    ensures NoneFailed(Step(c, s, a))
  {
    assert s.nodes[a.node] in s.nodes;
    assert !After(c, s, a).failed;
  }

  lemma {:induction false} CanFinish(c: Config, s: State)
    requires Known(c, s) && NoneFailed(s)
    ensures exists s' :: Leads(c, s, s') && AllDone(s')
    decreases TotalAhead(c, s.nodes), TotalMissing(c, s.net, s.nodes)
  {
    if AllDone(s) {
      assert Path(c, [s], s, s);
    } else {
      KnownAll(c, s);
      var a := UsefulStep(c, s);
      var s1 := Step(c, s, a);
      assert Follows(c, s, s1);
      FollowsKnown(c, s, s1);
      UsefulKeepsAlive(c, s, a);
      KnownNode(c, s1, a.node);
      UsefulShrinks(c, s, a);
      CanFinish(c, s1);
      var s' :| Leads(c, s1, s') && AllDone(s');
      StepThenPath(c, s, s1, s');
    }
  }

  /** From every reachable state in which no node has given up, every node can still complete all its rounds. */
  lemma DoneStaysReachable(c: Config, s: State)
    requires Reachable(c, s) && NoneFailed(s)
    ensures exists s' :: Leads(c, s, s') && AllDone(s')
  {
    var states :| Run(c, states) && states[|states| - 1] == s;
    RunKnown(c, states, |states| - 1);
    CanFinish(c, s);
  }

  /** Where a configuration starts; the memory is arbitrary. */
  function Start(c: Config, mem: map<Meta, SlotRecord>): State
    requires ValidConfig(c)
  {
    State(seq(c.n, i requires 0 <= i < c.n => InitNode(c, i)), {}, mem, [])
  }

  /** For every configuration and every initial memory some run completes at every node. */
  lemma SomeRunCompletes(c: Config, mem: map<Meta, SlotRecord>)
    requires ValidConfig(c) && forall i :: 0 <= i < c.n ==> c.metas[i] in mem
    ensures exists states :: Run(c, states) && states[0] == Start(c, mem) && AllDone(states[|states| - 1])
  {
    var s := Start(c, mem);
    assert Init(c, s);
    InitHistory(c, s);
    InitSent(c, s);
    assert NoneFailed(s);
    CanFinish(c, s);
    var s' :| Leads(c, s, s') && AllDone(s');
    var states :| Path(c, states, s, s');
    assert Run(c, states);
  }
}
