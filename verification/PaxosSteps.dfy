/** Every handler of a Paxos participant, and hence every step of the group,
    preserves the invariant. */
module PaxosSteps {
  import opened Foundation
  import opened PaxosCore
  import opened PaxosCluster
  import opened PaxosInvariant
  import opened PaxosProof

  /** The cluster after the node of `o` ran a handler with outcome `o`. */
  function After(c: Cluster, o: Outcome): Cluster {
    Send(Put(c, o.node), o.sent)
  }

  lemma PutPut(c: Cluster, a: Node, b: Node)
    requires a.id == b.id
    ensures Put(Put(c, a), b) == Put(c, b)
  {
  }

  lemma AfterSame(c: Cluster, n: Node)
    requires n.id in c.nodes && c.nodes[n.id] == n
    ensures After(c, Outcome(n, {})) == c
  {
    assert c.nodes[n.id := n] == c.nodes;
  }

  lemma PeersAreHosts(g: Group, n: Node)
    requires GroupOk(g) && n.roster == g.roster
    ensures forall p | p in Peers(n) :: p in g.hosts
  {
    PeersOfIs(g.roster, n.id);
    assert forall p | p in Peers(n) :: p in Elements(Peers(n));
  }

  /** Sending one sound message to every peer. */
  lemma BroadcastMove(c: Cluster, h: History, g: Group, n: Node, m: Message)
    requires Running(c, h, g, n)
    requires forall d | d in g.hosts :: PacketOk(h, g, Packet(n.id, d, m))
    ensures Running(Send(c, ToPeers(n, m)), h, g, n)
  {
    hide NodeOk, NetOk, NodesOk, PacketOk, Safe, BallotOk, ValueOk;
    RunningNode(c, h, g, n);
    NodeRoster(h, g, n);
    PeersAreHosts(g, n);
    SendMove(c, h, g, ToPeers(n, m));
  }

  lemma ReplyMove(c: Cluster, h: History, g: Group, n: Node, p: Packet)
    requires Running(c, h, g, n) && PacketOk(h, g, p)
    ensures Running(Send(c, {p}), h, g, n)
  {
    hide NodeOk, NetOk, NodesOk, PacketOk, HistoryOk;
    SendMove(c, h, g, {p});
  }

  lemma ObserveMove(c: Cluster, h: History, g: Group, n: Node, b: nat)
    requires Running(c, h, g, n)
    ensures Running(Put(c, Observe(n, b)), h, g, Observe(n, b))
  {
    hide NodeOk, NetOk, NodesOk, HistoryOk;
    RunningNode(c, h, g, n);
    ObserveNode(h, g, n, b);
    LocalMove(c, h, g, Observe(n, b));
  }

  // ----- acceptor -----

  lemma PrepareStep(c: Cluster, h: History, g: Group, n: Node, b: nat, from: Host) returns (h2: History)
    requires Running(c, h, g, n) && from in g.hosts && b in h.started
    ensures Extends(h, h2) && h2.proposed == h.proposed
    ensures var o := OnPrepare(n, b, from); Running(After(c, o), h2, g, o.node)
  {
    hide NodeOk, NetOk, NodesOk, HistoryOk, Extends, PromiseOk;
    var n1 := Observe(n, b);
    ObserveMove(c, h, g, n, b);
    h2 := h;
    ExtendsSelf(h);
    if CanPromise(b, n.acceptor.promised) {
      h2 := PromiseMove(Put(c, n1), h, g, n1, b);
      PutPut(c, n1, PromiseTo(n1, b));
    }
    var o := OnPrepare(n, b, from);
    RunningNode(Put(c, o.node), h2, g, o.node);
    PromisedKnown(h2, g, o.node);
    var m := Promise(b, CanPromise(b, n.acceptor.promised), o.node.acceptor.promised,
                     if CanPromise(b, n.acceptor.promised) then Report(o.node.acceptor) else PromiseInfo(0, [], false));
    ReplyMove(Put(c, o.node), h2, g, o.node, Packet(n.id, from, m));
  }

  lemma ExtendsSelf(h: History)
    ensures Extends(h, h)
  {
  }

  lemma ExtendsTrans(a: History, b: History, c: History)
    requires Extends(a, b) && Extends(b, c)
    ensures Extends(a, c)
  {
  }

  lemma AnnounceStep(c: Cluster, h: History, g: Group, n: Node, b: nat, v: Value) returns (h2: History)
    requires Running(c, h, g, n) && b in h.value && h.value[b] == v
    ensures Extends(h, h2) && h2.proposed == h.proposed && h2.value == h.value
    ensures var o := AcceptAndAnnounce(n, b, v); o.node.id == n.id && Running(After(c, o), h2, g, o.node)
  {
    hide NodeOk, NetOk, NodesOk, HistoryOk, Extends, RecordAccepted;
    var n1 := Observe(n, b);
    ObserveMove(c, h, g, n, b);
    h2 := h;
    ExtendsSelf(h);
    if CanAccept(b, n1.acceptor.promised) {
      h2 := AcceptMove(Put(c, n1), h, g, n1, b);
      var n2 := AcceptAt(n1, b, v);
      PutPut(c, n1, n2);
      var n3 := RecordAccepted(n2, b, v, n.id);
      RecordMove(Put(c, n2), h2, g, n2, b, v, n.id);
      PutPut(c, n2, n3);
      BroadcastMove(Put(c, n3), h2, g, n3, Accepted(b, v));
    } else {
      assert After(c, Outcome(n1, {})) == Put(c, n1);
    }
  }

  lemma RecordMove(c: Cluster, h: History, g: Group, n: Node, b: nat, v: Value, from: Host)
    requires Running(c, h, g, n) && from in g.hosts
    requires (from, b) in h.accepted && b in h.value && h.value[b] == v
    ensures var r := RecordAccepted(n, b, v, from); r.id == n.id && Running(Put(c, r), h, g, r)
  {
    hide NodeOk, NetOk, NodesOk, HistoryOk, RecordAccepted;
    RunningNode(c, h, g, n);
    RecordNode(h, g, n, b, v, from);
    RecordShape(n, b, v, from);
    LocalMove(c, h, g, RecordAccepted(n, b, v, from));
  }

  lemma AcceptStep(c: Cluster, h: History, g: Group, n: Node, b: nat, v: Value, from: Host) returns (h2: History)
    requires Running(c, h, g, n) && from in g.hosts && b in h.value && h.value[b] == v
    ensures Extends(h, h2) && h2.proposed == h.proposed
    ensures var o := OnAccept(n, b, v, from); Running(After(c, o), h2, g, o.node)
  {
    hide NodeOk, NetOk, NodesOk, HistoryOk, Extends, AcceptAndAnnounce;
    h2 := h;
    ExtendsSelf(h);
    if CanAccept(b, n.acceptor.promised) {
      h2 := AnnounceStep(c, h, g, n, b, v);
    } else {
      var n1 := Observe(n, b);
      ObserveMove(c, h, g, n, b);
      RunningNode(Put(c, n1), h, g, n1);
      PromisedKnown(h, g, n1);
      ReplyMove(Put(c, n1), h, g, n1, Packet(n.id, from, AcceptNack(n1.acceptor.promised)));
    }
  }

  // ----- proposer -----

  lemma MaybePhase2Step(c: Cluster, h: History, g: Group, n: Node) returns (h2: History)
    requires Running(c, h, g, n) && n.proposing && n.phase == 1
    ensures Extends(h, h2) && h2.proposed == h.proposed
    ensures var o := MaybePhase2(n); o.node.id == n.id && Running(After(c, o), h2, g, o.node)
  {
    hide NodeOk, NetOk, NodesOk, HistoryOk, Extends, AcceptAndAnnounce, Phase2Value;
    h2 := h;
    ExtendsSelf(h);
    AfterSame(c, n);
    if |n.promises| >= MajoritySize(|n.roster|) {
      var v := Phase2Value(n);
      var h1 := Phase2Move(c, h, g, n);
      var n1 := n.(phase := 2);
      h2 := AnnounceStep(Put(c, n1), h1, g, n1, n.myBallot, v);
      ExtendsTrans(h, h1, h2);
      var o := AcceptAndAnnounce(n1, n.myBallot, v);
      PutPut(c, n1, o.node);
      BroadcastMove(After(c, o), h2, g, o.node, Accept(n.myBallot, v));
      assert After(c, MaybePhase2(n)).net == Send(After(c, o), ToPeers(o.node, Accept(n.myBallot, v))).net;
    }
  }

  lemma StartRoundStep(c: Cluster, h: History, g: Group, n: Node) returns (h2: History)
    requires Running(c, h, g, n) && n.myValue in h.proposed && n.roster != []
    ensures Extends(h, h2) && h2.proposed == h.proposed
    ensures var o := StartRound(n); Running(After(c, o), h2, g, o.node)
  {
    hide NodeOk, NetOk, NodesOk, HistoryOk, Extends, OpenRound, MaybePhase2, Owned;
    h2 := h;
    ExtendsSelf(h);
    AfterSame(c, n);
    if n.decided.None? {
      var h1 := OpenMove(c, h, g, n);
      var n1 := OpenRound(n);
      var c1 := Put(c, n1);
      OpenedBallot(c1, h1, g, n1);
      BroadcastMove(c1, h1, g, n1, Prepare(n1.myBallot));
      var c2 := Send(c1, ToPeers(n1, Prepare(n1.myBallot)));
      h2 := MaybePhase2Step(c2, h1, g, n1);
      ExtendsTrans(h, h1, h2);
      var o := MaybePhase2(n1);
      PutPut(c, n1, o.node);
      assert After(c, StartRound(n)).net == After(c2, o).net;
    }
  }

  lemma OpenedBallot(c: Cluster, h: History, g: Group, n: Node)
    requires Running(c, h, g, n) && n.proposing && n.phase == 1
    ensures g.roster != [] && n.myBallot in h.started && Owned(h, g, n.myBallot, n.id)
  {
    hide NodeOk, NetOk, NodesOk, HistoryOk;
    RunningNode(c, h, g, n);
    CollectingFacts(h, g, n);
  }

  lemma PromiseStep(c: Cluster, h: History, g: Group, n: Node, m: Message, from: Host) returns (h2: History)
    requires Running(c, h, g, n) && m.Promise? && PacketOk(h, g, Packet(from, n.id, m))
    ensures Extends(h, h2) && h2.proposed == h.proposed
    ensures var o := OnPromise(n, m, from); Running(After(c, o), h2, g, o.node)
  {
    hide NodeOk, NetOk, NodesOk, HistoryOk, Extends, MaybePhase2, PromiseOk;
    h2 := h;
    ExtendsSelf(h);
    AfterSame(c, n);
    if !m.ok {
      ObserveMove(c, h, g, n, m.maxBallot);
      assert After(c, OnPromise(n, m, from)) == Put(c, Observe(n, m.maxBallot));
    } else if n.decided.None? && n.proposing && n.phase == 1 && m.ballot == n.myBallot {
      var n1 := n.(promises := n.promises[from := m.info]);
      RunningNode(c, h, g, n);
      CollectNode(h, g, n, from, m.info);
      LocalMove(c, h, g, n1);
      h2 := MaybePhase2Step(Put(c, n1), h, g, n1);
      PutPut(c, n1, MaybePhase2(n1).node);
    }
  }

  lemma CollectNode(h: History, g: Group, n: Node, from: Host, i: PromiseInfo)
    requires NodeOk(h, g, n) && n.proposing && n.phase == 1 && PromiseOk(h, g, from, n.myBallot, i)
    ensures NodeOk(h, g, n.(promises := n.promises[from := i]))
  {
    hide PromiseOk, LearnerOk, Owned;
    var n1 := n.(promises := n.promises[from := i]);
    LearnerSame(h, g, n, n1);
    assert CollectingOk(h, g, n1);
  }

  lemma RetryStep(c: Cluster, h: History, g: Group, n: Node) returns (h2: History)
    requires Running(c, h, g, n) && n.roster != []
    ensures Extends(h, h2) && h2.proposed == h.proposed
    ensures var o := OnRetryTimeout(n); Running(After(c, o), h2, g, o.node)
  {
    hide NodeOk, NetOk, NodesOk, HistoryOk, Extends, StartRound;
    h2 := h;
    ExtendsSelf(h);
    AfterSame(c, n);
    if n.decided.None? && n.proposing {
      RunningNode(c, h, g, n);
      OwnValue(h, g, n);
      h2 := StartRoundStep(c, h, g, n);
    }
  }

  lemma OwnValue(h: History, g: Group, n: Node)
    requires NodeOk(h, g, n) && n.proposing
    ensures n.myValue in h.proposed
  {
  }

  ghost function ProposedHistory(h: History, v: Value): History {
    h.(proposed := h.proposed + {v})
  }

  /** Recording a client's value. */
  lemma ProposedMove(c: Cluster, h: History, g: Group, n: Node, v: Value)
    requires Running(c, h, g, n)
    ensures var h2 := ProposedHistory(h, v);
            Extends(h, h2) && Running(c.(proposed := c.proposed + {v}), h2, g, n)
  {
    hide NodeOk, NetOk, HistoryOk, Extends, Untouched;
    var h2 := ProposedHistory(h, v);
    ProposedExtends(h, v);
    RunningNode(c, h, g, n);
    HistoryStays(h, h2, g);
    NetExtends(c.net, c.decisions, h, h2, g);
    forall x | x in c.nodes ensures c.nodes[x].id == x && NodeOk(h2, g, c.nodes[x]) {
      ProposedNode(h, g, c.nodes[x], v);
    }
  }

  lemma ProposedExtends(h: History, v: Value)
    ensures Extends(h, ProposedHistory(h, v))
  {
  }

  lemma ProposedNode(h: History, g: Group, n: Node, v: Value)
    requires NodeOk(h, g, n) && Extends(h, ProposedHistory(h, v))
    ensures NodeOk(ProposedHistory(h, v), g, n)
  {
    hide LearnerOk, PromiseOk, Owned;
    CollectingUnused(h, g, n);
    NodeExtends(h, ProposedHistory(h, v), g, n);
  }

  lemma ProposeStep(c: Cluster, h: History, g: Group, n: Node, v: Value) returns (h2: History)
    requires Running(c, h, g, n) && n.roster != []
    ensures Extends(h, h2)
    ensures var o := HandlePropose(n, v); Running(After(c.(proposed := c.proposed + {v}), o), h2, g, o.node)
  {
    hide NodeOk, NetOk, NodesOk, HistoryOk, Extends, StartRound;
    var c1 := c.(proposed := c.proposed + {v});
    var h1 := ProposedHistory(h, v);
    ProposedMove(c, h, g, n, v);
    h2 := h1;
    AfterSame(c1, n);
    if n.decided.None? && !n.proposing {
      var n1 := n.(myValue := v);
      RunningNode(c1, h1, g, n);
      NominateNode(h1, g, n, v);
      LocalMove(c1, h1, g, n1);
      h2 := StartRoundStep(Put(c1, n1), h1, g, n1);
      ExtendsTrans(h, h1, h2);
      StartId(n1);
      PutPut(c1, n1, StartRound(n1).node);
    }
  }

  lemma NominateNode(h: History, g: Group, n: Node, v: Value)
    requires NodeOk(h, g, n) && !n.proposing
    ensures NodeOk(h, g, n.(myValue := v))
  {
    hide LearnerOk, CollectingOk;
    LearnerSame(h, g, n, n.(myValue := v));
  }

  lemma MaybePhase2Id(n: Node)
    ensures MaybePhase2(n).node.id == n.id
  {
    hide Phase2Value;
  }

  // ----- crash and reconnect -----

  lemma RestartStep(c: Cluster, h: History, g: Group, n: Node)
    requires Running(c, h, g, n)
    ensures var n1 := Boot(n.id, n.roster, n.index, n.disk); Running(Put(c, n1), h, g, n1)
  {
    hide NetOk, NodesOk, HistoryOk, ProposerOk, LearnerOk;
    RunningNode(c, h, g, n);
    var n1 := Boot(n.id, n.roster, n.index, n.disk);
    FreshVolatile(h, g, n1);
    LocalMove(c, h, g, n1);
  }

  lemma FreshVolatile(h: History, g: Group, n: Node)
    requires !n.proposing && n.accepts == map[] && n.valueAt == map[] && n.decided.None? && n.published == []
    ensures ProposerOk(h, g, n) && LearnerOk(h, g, n)
  {
  }

  lemma ReconnectStep(c: Cluster, h: History, g: Group, n: Node, peer: Host)
    requires Running(c, h, g, n) && peer in Peers(n)
    ensures var o := OnSessionConnected(n, peer); Running(After(c, o), h, g, o.node)
  {
    hide NetOk, NodesOk, Safe, BallotOk, ValueOk, ProposerOk, LearnerOk;
    AfterSame(c, n);
    if n.acceptor.hasAccepted {
      RunningNode(c, h, g, n);
      PeersAreHosts(g, n);
      var p := Packet(n.id, peer, Accepted(n.acceptor.acceptedBallot, n.acceptor.acceptedValue));
      assert AcceptorOk(h, n);
      ReplyMove(c, h, g, n, p);
      assert c.nodes[n.id := n] == c.nodes;
    }
  }

  // ----- the step theorem -----

  lemma DeliverStep(c: Cluster, h: History, g: Group, n: Node, p: Packet) returns (h2: History)
    requires Running(c, h, g, n) && PacketOk(h, g, p) && p.dst == n.id
    ensures Extends(h, h2) && h2.proposed == h.proposed
    ensures var o := Deliver(n, p); Running(After(c, o), h2, g, o.node)
  {
    hide NodeOk, NetOk, NodesOk, HistoryOk, Extends, OnPrepare, OnPromise, OnAccept, RecordAccepted, PromiseOk;
    h2 := h;
    ExtendsSelf(h);
    match p.msg
    case Prepare(b) => h2 := PrepareStep(c, h, g, n, b, p.src);
    case Promise(_, _, _, _) => h2 := PromiseStep(c, h, g, n, p.msg, p.src);
    case Accept(b, v) => h2 := AcceptStep(c, h, g, n, b, v, p.src);
    case Accepted(b, v) =>
      RecordMove(c, h, g, n, b, v, p.src);
      assert After(c, Deliver(n, p)) == Put(c, RecordAccepted(n, b, v, p.src));
    case AcceptNack(b) =>
      ObserveMove(c, h, g, n, b);
      assert After(c, Deliver(n, p)) == Put(c, Observe(n, b));
  }

  lemma NetPacket(c: Cluster, h: History, g: Group, p: Packet)
    requires Inv(c, h, g) && p in c.net
    ensures PacketOk(h, g, p)
  {
    hide NodesOk, HistoryOk, PacketOk;
  }

  ghost function WithAsked(c: Cluster, ev: Event): Cluster {
    c.(proposed := c.proposed + Asked(ev))
  }

  lemma HandleStep(c: Cluster, h: History, g: Group, l: Label) returns (h2: History)
    requires Inv(c, h, g) && Enabled(c, l) && Running(c, h, g, c.nodes[l.host])
    ensures Extends(h, h2)
    ensures var o := Handle(c.nodes[l.host], l.event); Running(After(WithAsked(c, l.event), o), h2, g, o.node)
  {
    hide NodeOk, NetOk, NodesOk, HistoryOk, Extends, PacketOk, Deliver, HandlePropose, OnRetryTimeout, OnSessionConnected, Peers, CutRound;
    var n := c.nodes[l.host];
    assert c.proposed + {} == c.proposed;
    h2 := h;
    ExtendsSelf(h);
    match l.event
    case Propose(v) => h2 := ProposeStep(c, h, g, n, v);
    case RetryTimeout => h2 := RetryStep(c, h, g, n);
    case Receive(p) =>
      NetPacket(c, h, g, p);
      NodeId(c, h, g, l.host);
      h2 := DeliverStep(c, h, g, n, p);
    case SessionConnected(peer) => ReconnectStep(c, h, g, n, peer);
    case Restart =>
      RestartStep(c, h, g, n);
      var n1 := Boot(n.id, n.roster, n.index, n.disk);
      assert After(c, Outcome(n1, {})) == Put(c, n1);
    case InterruptedPropose(v) =>
      var c1, h1, n1 := c.(proposed := c.proposed + {v}), ProposedHistory(h, v), n.(myValue := v);
      ProposedMove(c, h, g, n, v);
      RunningNode(c1, h1, g, n);
      NominateNode(h1, g, n, v);
      LocalMove(c1, h1, g, n1);
      h2 := CutStep(Put(c1, n1), h1, g, n1);
      ExtendsTrans(h, h1, h2);
      PutPut(c1, n1, CutRound(n1).node);
    case InterruptedRetry =>
      RunningNode(c, h, g, n);
      OwnValue(h, g, n);
      h2 := CutStep(c, h, g, n);
  }

  /** A round opened and cut short. */
  lemma CutStep(c: Cluster, h: History, g: Group, n: Node) returns (h2: History)
    requires Running(c, h, g, n) && n.myValue in h.proposed && n.decided.None? && n.roster != []
    ensures Extends(h, h2) && h2.proposed == h.proposed
    ensures var o := CutRound(n); o.node.id == n.id && Running(After(c, o), h2, g, o.node)
  {
    hide NodeOk, NetOk, NodesOk, HistoryOk, Extends, OpenRound, Owned;
    h2 := OpenMove(c, h, g, n);
    var r := OpenRound(n);
    var c1 := Put(c, r);
    OpenedBallot(c1, h2, g, r);
    BroadcastMove(c1, h2, g, r, Prepare(r.myBallot));
    var c2 := Send(c1, ToPeers(r, Prepare(r.myBallot)));
    RestartStep(c2, h2, g, r);
    OpenKeeps(n);
    var b := Boot(r.id, r.roster, r.index, r.disk);
    PutPut(c, r, b);
    assert Put(c2, b) == After(c, CutRound(n));
  }

  lemma OpenKeeps(n: Node)
    requires n.roster != []
    ensures OpenRound(n).id == n.id && OpenRound(n).roster == n.roster && OpenRound(n).index == n.index
  {
    hide NextBallot;
  }

  lemma NodeId(c: Cluster, h: History, g: Group, v: Host)
    requires Inv(c, h, g) && v in c.nodes
    ensures c.nodes[v].id == v && v in g.hosts
  {
    hide NodeOk, NetOk, HistoryOk;
  }

  lemma HandleId(n: Node, ev: Event)
    requires n.roster != []
    ensures Handle(n, ev).node.id == n.id
  {
    hide Phase2Value, OpenRound, NextBallot, Best, ChooseValue;
    match ev
    case Receive(p) => DeliverId(n, p);
    case Propose(v) => StartId(n.(myValue := v));
    case RetryTimeout => StartId(n);
    case _ =>
  }

  lemma StartId(n: Node)
    requires n.roster != []
    ensures StartRound(n).node.id == n.id
  {
    hide Phase2Value, NextBallot, AcceptAndAnnounce;
    var n1 := OpenRound(n);
    assert n1.id == n.id;
    MaybePhase2Id(n1);
  }

  lemma AnnounceId(n: Node, b: nat, v: Value)
    ensures AcceptAndAnnounce(n, b, v).node.id == n.id
  {
    hide RecordAccepted;
    RecordShape(AcceptAt(Observe(n, b), b, v), b, v, n.id);
  }

  lemma DeliverId(n: Node, p: Packet)
    ensures Deliver(n, p).node.id == n.id
  {
    hide MaybePhase2, RecordAccepted, AcceptAndAnnounce, ToPeers, Report;
    match p.msg
    case Promise(_, _, _, i) => MaybePhase2Id(n.(promises := n.promises[p.src := i]));
    case Accept(b, v) => AnnounceId(n, b, v);
    case Accepted(b, v) => RecordShape(n, b, v, p.src);
    case _ =>
  }

  /** Every step of the group preserves the invariant. */
  lemma StepPreserves(c: Cluster, h: History, g: Group, l: Label) returns (h2: History)
    requires Inv(c, h, g) && Enabled(c, l)
    ensures Extends(h, h2) && Inv(Step(c, l), h2, g)
  {
    hide NodeOk, NetOk, NodesOk, HistoryOk, Extends, Handle;
    NodeId(c, h, g, l.host);
    h2 := HandleStep(c, h, g, l);
    var o := Handle(c.nodes[l.host], l.event);
    HandleId(c.nodes[l.host], l.event);
    var c2 := After(WithAsked(c, l.event), o);
    var ds := set d | d in o.node.published :: (l.host, d);
    RunningNode(c2, h2, g, o.node);
    PublishedOk(c2, h2, g, o.node, l.host, ds);
    assert Step(c, l) == c2.(decisions := c2.decisions + ds);
  }

  lemma PublishedOk(c: Cluster, h: History, g: Group, n: Node, v: Host, ds: set<(Host, Decided)>)
    requires Inv(c, h, g) && NodeOk(h, g, n) && ds == set d | d in n.published :: (v, d)
    ensures Inv(c.(decisions := c.decisions + ds), h, g)
  {
    hide NodesOk, HistoryOk, PacketOk, DecidedOk, ProposerOk, AcceptorOk;
    assert LearnerOk(h, g, n);
  }

  ghost function FirstHistory(g: Group): History {
    History(map[], {}, {}, map v | v in g.hosts :: 0, {})
  }

  lemma InitNode(h: History, g: Group, n: Node, index: nat)
    requires index < |g.roster| && n.id in g.hosts && h == FirstHistory(g)
    requires n == Boot(g.roster[index], g.roster, index, NoAcceptor)
    ensures NodeOk(h, g, n)
  {
    hide ProposerOk, LearnerOk;
    FreshVolatile(h, g, n);
  }

  lemma InitInv(roster: seq<Host>)
    requires roster != [] && NoDuplicates(roster)
    ensures var g := Group(roster, Elements(roster)); Inv(Init(roster), FirstHistory(g), g)
  {
    hide NodeOk, NoDuplicates;
    ElementsSize(roster);
    var g := Group(roster, Elements(roster));
    var h := FirstHistory(g);
    var c := Init(roster);
    assert HistoryOk(h, g);
    forall v | v in c.nodes ensures c.nodes[v].id == v && NodeOk(h, g, c.nodes[v]) {
      InitNode(h, g, c.nodes[v], IndexOf(roster, v));
    }
  }
}
