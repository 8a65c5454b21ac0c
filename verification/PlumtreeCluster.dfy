/** Plumtree nodes over a network that may lose, duplicate and reorder, under a
    membership that reports neighbours in any way it likes. */
module PlumtreeCluster {
  import opened Foundation
  import opened PlumtreeCore

  /** `broadcasts` records every payload ever handed to Broadcast. */
  datatype Cluster = Cluster(nodes: map<Host, Node>, net: set<Packet>, broadcasts: map<MessageId, Bytes>)

  datatype Event =
    | Broadcast(payload: Bytes)
    | Receive(packet: Packet)
    | NeighborUp(peer: Host)
    | NeighborDown(peer: Host)
    | View(peers: seq<Host>)
    | MissingTimeout(id: MessageId)
    | LazyTick

  datatype Label = Label(host: Host, event: Event)

  function Init(hosts: set<Host>, cacheSize: nat): Cluster {
    Cluster(map h | h in hosts :: New(h, cacheSize), {}, map[])
  }

  predicate Enabled(c: Cluster, l: Label) {
    && l.host in c.nodes
    && (l.event.Receive? ==> l.event.packet in c.net && l.event.packet.dst == l.host)
    && (l.event.MissingTimeout? ==> l.event.id in c.nodes[l.host].timers)
  }

  function Receipt(n: Node, p: Packet): Outcome {
    match p.msg
    case Gossip(id, round, payload) => OnGossip(n, id, round, payload, p.src)
    case IHave(anns) => Outcome(OnIHave(n, anns, p.src), {})
    case Graft(id, round) => OnGraft(n, id, round, p.src)
    case Prune => Outcome(OnPrune(n, p.src), {})
  }

  function Handle(n: Node, ev: Event): Outcome {
    match ev
    case Broadcast(payload) => HandleBroadcast(n, payload)
    case Receive(p) => Receipt(n, p)
    case NeighborUp(peer) => Outcome(OnNeighborUp(n, peer), {})
    case NeighborDown(peer) => Outcome(OnNeighborDown(n, peer), {})
    case View(peers) => Outcome(OnView(n, peers), {})
    case MissingTimeout(id) => OnMissingTimeout(n, id)
    case LazyTick => FlushLazy(n)
  }

  function Step(c: Cluster, l: Label): Cluster
    requires Enabled(c, l)
  {
    var n := c.nodes[l.host];
    var o := Handle(n, l.event);
    Cluster(c.nodes[l.host := o.node], c.net + o.sent,
            if l.event.Broadcast? then c.broadcasts[MessageId(l.host, n.seqNo + 1) := l.event.payload] else c.broadcasts)
  }

  ghost predicate IsRun(hosts: set<Host>, cacheSize: nat, cs: seq<Cluster>, ls: seq<Label>) {
    && |cs| == |ls| + 1 && cs[0] == Init(hosts, cacheSize)
    && forall k | 0 <= k < |ls| :: Enabled(cs[k], ls[k]) && cs[k + 1] == Step(cs[k], ls[k])
  }
}
