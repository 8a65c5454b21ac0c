/** What every run of Plumtree guarantees. */
module PlumtreeSafety {
  import opened Foundation
  import opened PlumtreeCore
  import opened PlumtreeCluster

  ghost function Ids(ds: seq<Delivered>): seq<MessageId> {
    seq(|ds|, i requires 0 <= i < |ds| => ds[i].id)
  }

  // ----- the invariant -----

  /** Everything a node holds or has published is what its origin broadcast. */
  ghost predicate Genuine(b: map<MessageId, Bytes>, id: MessageId, payload: Bytes) {
    id in b && b[id] == payload
  }

  ghost predicate DeliveryOk(b: map<MessageId, Bytes>, n: Node) {
    && NoDuplicates(Ids(n.delivered))
    && Elements(Ids(n.delivered)) == n.received
    && (forall i | 0 <= i < |n.delivered| :: Genuine(b, n.delivered[i].id, n.delivered[i].payload))
  }

  ghost predicate StoreOk(b: map<MessageId, Bytes>, n: Node) {
    && CacheOk(n.cache)
    && (forall id | id in n.cache.items :: id in n.received && Genuine(b, id, n.cache.items[id]))
  }

  /** An id with an announcer left to try has an armed timer, until it arrives. */
  ghost predicate RepairOk(n: Node) {
    forall id | id in n.missing && n.missing[id] != [] && id !in n.received :: id in n.timers
  }

  ghost predicate NodeOk(b: map<MessageId, Bytes>, n: Node) {
    && DeliveryOk(b, n) && StoreOk(b, n) && RepairOk(n)
    && Disjoint(n.eager, n.lazy)
    && (forall id | id in b && id.origin == n.id :: 1 <= id.seqNo <= n.seqNo)
  }

  ghost predicate PacketOk(b: map<MessageId, Bytes>, p: Packet) {
    p.msg.Gossip? ==> Genuine(b, p.msg.id, p.msg.payload)
  }

  ghost predicate Inv(c: Cluster) {
    && (forall h | h in c.nodes :: c.nodes[h].id == h && NodeOk(c.broadcasts, c.nodes[h]))
    && (forall p | p in c.net :: PacketOk(c.broadcasts, p))
  }

  // ----- the cache -----

  /** Putting keeps the cache a bounded FIFO whose contents are the newest keys. */
  lemma CachePutOk(c: Cache, id: MessageId, payload: Bytes)
    requires CacheOk(c)
    ensures CacheOk(CachePut(c, id, payload))
    ensures forall k | k in CachePut(c, id, payload).items ::
              if k in c.items then CachePut(c, id, payload).items[k] == c.items[k]
              else k == id && CachePut(c, id, payload).items[k] == payload
    ensures c.max > 0 ==> id in CachePut(c, id, payload).items
    ensures id !in c.items && |c.order| < c.max ==> CachePut(c, id, payload).items == c.items[id := payload]
  {
    if id !in c.items {
      var order := c.order + [id];
      assert id !in Elements(c.order);
      assert Elements(order) == Elements(c.order) + {id};
      assert NoDuplicates(order);
      if |order| > c.max {
        assert Elements(order[1..]) == Elements(order) - {order[0]};
        assert order[|order| - 1] == id;
      }
    }
  }

  // ----- handlers -----

  lemma DeliverOk(b: map<MessageId, Bytes>, n: Node, id: MessageId, payload: Bytes, from: Host)
    requires DeliveryOk(b, n) && StoreOk(b, n) && id !in n.received && Genuine(b, id, payload)
    ensures DeliveryOk(b, Deliver(n, id, payload, from)) && StoreOk(b, Deliver(n, id, payload, from))
  {
    hide CachePut, CacheOk;
    var n2 := Deliver(n, id, payload, from);
    CachePutOk(n.cache, id, payload);
    assert Ids(n2.delivered) == Ids(n.delivered) + [id];
    assert id !in Elements(Ids(n.delivered));
    assert Elements(Ids(n2.delivered)) == Elements(Ids(n.delivered)) + {id};
  }

  /** Only links, queues and counters changed. */
  lemma SameData(b: map<MessageId, Bytes>, n: Node, n2: Node)
    requires NodeOk(b, n) && n2.id == n.id && n2.delivered == n.delivered && n2.received == n.received && n2.cache == n.cache
    requires n2.seqNo >= n.seqNo && Disjoint(n2.eager, n2.lazy) && RepairOk(n2)
    ensures NodeOk(b, n2)
  {
    hide NoDuplicates, Genuine, CacheOk, RepairOk;
  }

  lemma {:induction false} WithoutIs(entries: seq<Pending>, peer: Host)
    ensures forall e :: e in Without(entries, peer) <==> e in entries && e.peer != peer
  {
    if entries != [] {
      var front := entries[..|entries| - 1];
      WithoutIs(front, peer);
      assert entries == front + [entries[|entries| - 1]];
    }
  }

  lemma {:induction false} OnViewOk(b: map<MessageId, Bytes>, n: Node, peers: seq<Host>)
    requires NodeOk(b, n)
    ensures NodeOk(b, OnView(n, peers)) && OnView(n, peers).id == n.id
  {
    hide DeliveryOk, StoreOk, RepairOk;
    if peers != [] {
      OnViewOk(b, n, peers[..|peers| - 1]);
      SameRepair(OnView(n, peers[..|peers| - 1]), OnView(n, peers));
      SameData(b, OnView(n, peers[..|peers| - 1]), OnView(n, peers));
    }
  }

  lemma SameRepair(n: Node, n2: Node)
    requires RepairOk(n) && n2.missing == n.missing && n2.timers == n.timers && n2.received == n.received
    ensures RepairOk(n2)
  {
  }

  lemma {:induction false} OnIHaveOk(b: map<MessageId, Bytes>, n: Node, anns: seq<Announce>, from: Host)
    requires NodeOk(b, n)
    ensures NodeOk(b, OnIHave(n, anns, from)) && OnIHave(n, anns, from).id == n.id
  {
    hide DeliveryOk, StoreOk, NodeOk;
    if anns != [] {
      var m := OnIHave(n, anns[..|anns| - 1], from);
      OnIHaveOk(b, n, anns[..|anns| - 1], from);
      AnnounceOk(b, m, anns[|anns| - 1], from);
    }
  }

  lemma AnnounceOk(b: map<MessageId, Bytes>, n: Node, a: Announce, from: Host)
    requires NodeOk(b, n)
    ensures NodeOk(b, OnAnnounce(n, a, from))
  {
    hide DeliveryOk, StoreOk;
    SameData(b, n, OnAnnounce(n, a, from));
  }

  lemma DownRepair(n: Node, peer: Host)
    requires RepairOk(n)
    ensures RepairOk(OnNeighborDown(n, peer))
  {
    hide Without;
    forall id | id in n.missing && Without(n.missing[id], peer) != [] ensures n.missing[id] != [] {
      WithoutIs(n.missing[id], peer);
      assert Without(n.missing[id], peer)[0] in n.missing[id];
    }
  }

  lemma LocalOk(b: map<MessageId, Bytes>, n: Node, ev: Event)
    requires NodeOk(b, n) && (ev.NeighborUp? || ev.NeighborDown? || ev.View? || ev.MissingTimeout? || ev.LazyTick?)
    ensures NodeOk(b, Handle(n, ev).node) && Handle(n, ev).node.id == n.id
    ensures forall p | p in Handle(n, ev).sent :: PacketOk(b, p)
  {
    hide DeliveryOk, StoreOk, Without, OnView;
    if ev.View? {
      OnViewOk(b, n, ev.peers);
    } else {
      if ev.NeighborDown? { DownRepair(n, ev.peer); }
      SameData(b, n, Handle(n, ev).node);
    }
  }

  lemma ReceiptOk(b: map<MessageId, Bytes>, n: Node, p: Packet)
    requires NodeOk(b, n) && PacketOk(b, p)
    ensures NodeOk(b, Receipt(n, p).node) && Receipt(n, p).node.id == n.id
    ensures forall q | q in Receipt(n, p).sent :: PacketOk(b, q)
  {
    hide DeliveryOk, OnIHave, LazyPush, OnGossip, CacheOk;
    match p.msg
    case Gossip(id, round, payload) => GossipOk(b, n, id, round, payload, p.src);
    case IHave(anns) => OnIHaveOk(b, n, anns, p.src);
    case Graft(id, round) =>
      SameRepair(n, MakeEager(n, p.src));
      SameData(b, n, MakeEager(n, p.src));
    case Prune => SameData(b, n, MakeLazy(n, p.src));
  }

  lemma GossipOk(b: map<MessageId, Bytes>, n: Node, id: MessageId, round: nat, payload: Bytes, from: Host)
    requires NodeOk(b, n) && Genuine(b, id, payload)
    ensures NodeOk(b, OnGossip(n, id, round, payload, from).node) && OnGossip(n, id, round, payload, from).node.id == n.id
    ensures forall q | q in OnGossip(n, id, round, payload, from).sent :: PacketOk(b, q)
  {
    hide DeliveryOk, StoreOk, CachePut, NextRound;
    var n2 := OnGossip(n, id, round, payload, from).node;
    if id in n.received {
      SameData(b, n, n2);
    } else {
      var d := Deliver(n, id, payload, from);
      DeliverOk(b, n, id, payload, from);
      SameData(b, d, n2);
    }
  }

  lemma BroadcastOk(b: map<MessageId, Bytes>, n: Node, payload: Bytes)
    requires NodeOk(b, n)
    ensures var id := MessageId(n.id, n.seqNo + 1); var b2 := b[id := payload]; var o := HandleBroadcast(n, payload);
            id !in b && NodeOk(b2, o.node) && o.node.id == n.id && forall q | q in o.sent :: PacketOk(b2, q)
  {
    hide DeliveryOk, StoreOk, CachePut;
    var id := MessageId(n.id, n.seqNo + 1);
    var b2 := b[id := payload];
    GrowsOk(b, b2, n.(seqNo := n.seqNo + 1), n);
    var n1 := n.(seqNo := n.seqNo + 1);
    if id in n.received { ReceivedIsKnown(b, n, id); }
    var d := Deliver(n1, id, payload, n.id);
    DeliverOk(b2, n1, id, payload, n.id);
    SameData(b2, d, HandleBroadcast(n, payload).node);
  }

  lemma ReceivedIsKnown(b: map<MessageId, Bytes>, n: Node, id: MessageId)
    requires DeliveryOk(b, n) && id in n.received
    ensures id in b
  {
    var ids := Ids(n.delivered);
    assert id in Elements(ids);
    var i :| 0 <= i < |ids| && ids[i] == id;
    assert Genuine(b, n.delivered[i].id, n.delivered[i].payload);
  }

  /** A node stays sound when the record of broadcasts grows by fresh ids. */
  lemma GrowsOk(b: map<MessageId, Bytes>, b2: map<MessageId, Bytes>, n2: Node, n: Node)
    requires DeliveryOk(b, n) && StoreOk(b, n)
    requires forall id | id in b :: id in b2 && b2[id] == b[id]
    requires n2.delivered == n.delivered && n2.received == n.received && n2.cache == n.cache
    ensures DeliveryOk(b2, n2) && StoreOk(b2, n2)
  {
    hide NoDuplicates, CacheOk;
  }

  lemma StepInv(c: Cluster, l: Label)
    requires Inv(c) && Enabled(c, l)
    ensures Inv(Step(c, l))
  {
    hide NodeOk, Handle, PacketOk;
    var n := c.nodes[l.host];
    if l.event.Broadcast? {
      BroadcastInv(c, l);
    } else if l.event.Receive? {
      ReceiptOk(c.broadcasts, n, l.event.packet);
      ReceiveIs(n, l.event.packet);
    } else {
      LocalOk(c.broadcasts, n, l.event);
    }
  }

  lemma ReceiveIs(n: Node, p: Packet)
    ensures Handle(n, Receive(p)) == Receipt(n, p)
  {
  }

  lemma BroadcastInv(c: Cluster, l: Label)
    requires Inv(c) && Enabled(c, l) && l.event.Broadcast?
    ensures Inv(Step(c, l))
  {
    hide DeliveryOk, StoreOk, RepairOk, HandleBroadcast;
    var n := c.nodes[l.host];
    var b, b2 := c.broadcasts, Step(c, l).broadcasts;
    BroadcastOk(b, n, l.event.payload);
    forall h | h in c.nodes && h != l.host ensures NodeOk(b2, c.nodes[h]) {
      GrowsOk(b, b2, c.nodes[h], c.nodes[h]);
    }
  }

  lemma {:induction false} RunInv(hosts: set<Host>, cacheSize: nat, cs: seq<Cluster>, ls: seq<Label>, k: nat)
    requires IsRun(hosts, cacheSize, cs, ls) && k < |cs|
    ensures Inv(cs[k])
  {
    hide NodeOk, Enabled, Step, PacketOk;
    if k == 0 {
      forall h | h in hosts ensures NodeOk(map[], New(h, cacheSize)) {
        NewOk(h, cacheSize);
      }
    } else {
      RunInv(hosts, cacheSize, cs, ls, k - 1);
      assert cs[k - 1 + 1] == Step(cs[k - 1], ls[k - 1]);
      StepInv(cs[k - 1], ls[k - 1]);
    }
  }

  lemma NewOk(h: Host, cacheSize: nat)
    ensures NodeOk(map[], New(h, cacheSize))
  {
  }

  // ----- the theorems -----

  /** A node publishes each broadcast at most once. */
  lemma DeliveredAtMostOnce(hosts: set<Host>, cacheSize: nat, cs: seq<Cluster>, ls: seq<Label>, k: nat, h: Host, i: nat, j: nat)
    requires IsRun(hosts, cacheSize, cs, ls) && k < |cs| && h in cs[k].nodes && i < j < |cs[k].nodes[h].delivered|
    ensures cs[k].nodes[h].delivered[i].id != cs[k].nodes[h].delivered[j].id
  {
    hide IsRun, StoreOk, RepairOk;
    RunInv(hosts, cacheSize, cs, ls, k);
    var ids := Ids(cs[k].nodes[h].delivered);
    assert ids[i] != ids[j];
  }

  /** What is delivered under an id is exactly what its origin broadcast as its
      seqNo-th message, earlier in the run. */
  lemma DeliveredIsGenuine(hosts: set<Host>, cacheSize: nat, cs: seq<Cluster>, ls: seq<Label>, k: nat, h: Host, d: Delivered)
    requires IsRun(hosts, cacheSize, cs, ls) && k < |cs| && h in cs[k].nodes && d in cs[k].nodes[h].delivered
    ensures exists m :: 0 <= m < k && Originates(cs, ls, m, d.id, d.payload)
  {
    hide IsRun, StoreOk, RepairOk, Originates;
    RunInv(hosts, cacheSize, cs, ls, k);
    assert Genuine(cs[k].broadcasts, d.id, d.payload);
    BroadcastEarlier(hosts, cacheSize, cs, ls, k, d.id);
  }

  /** Step m is the origin broadcasting its next message, numbered id.seqNo. */
  ghost predicate Originates(cs: seq<Cluster>, ls: seq<Label>, m: nat, id: MessageId, payload: Bytes) {
    && m < |ls| && m < |cs| && ls[m] == Label(id.origin, Broadcast(payload))
    && id.origin in cs[m].nodes && cs[m].nodes[id.origin].seqNo + 1 == id.seqNo
  }

  lemma {:induction false} BroadcastEarlier(hosts: set<Host>, cacheSize: nat, cs: seq<Cluster>, ls: seq<Label>, k: nat, id: MessageId)
    requires IsRun(hosts, cacheSize, cs, ls) && k < |cs| && id in cs[k].broadcasts
    ensures exists m :: 0 <= m < k && Originates(cs, ls, m, id, cs[k].broadcasts[id])
  {
    hide Handle;
    assert k > 0;
    var c, l := cs[k - 1], ls[k - 1];
    assert cs[k - 1 + 1] == Step(c, l);
    if l.event.Broadcast? && id == MessageId(l.host, c.nodes[l.host].seqNo + 1) {
      assert Originates(cs, ls, k - 1, id, cs[k].broadcasts[id]);
    } else {
      BroadcastEarlier(hosts, cacheSize, cs, ls, k - 1, id);
    }
  }

  /** A message known to be missing, with an announcer left to ask, always has
      an armed GRAFT timer. */
  lemma MissingIsArmed(hosts: set<Host>, cacheSize: nat, cs: seq<Cluster>, ls: seq<Label>, k: nat, h: Host, id: MessageId)
    requires IsRun(hosts, cacheSize, cs, ls) && k < |cs| && h in cs[k].nodes
    requires var n := cs[k].nodes[h]; id in n.missing && n.missing[id] != [] && id !in n.received
    ensures Enabled(cs[k], Label(h, MissingTimeout(id)))
    ensures var n := cs[k].nodes[h];
            Packet(h, n.missing[id][0].peer, Graft(id, n.missing[id][0].round)) in Handle(n, MissingTimeout(id)).sent
  {
    hide IsRun, DeliveryOk, StoreOk;
    RunInv(hosts, cacheSize, cs, ls, k);
  }

  /** A GRAFT is answered from a bounded cache that never holds anything but
      the genuine payload of a message the node delivered. */
  lemma CacheIsGenuine(hosts: set<Host>, cacheSize: nat, cs: seq<Cluster>, ls: seq<Label>, k: nat, h: Host, id: MessageId)
    requires IsRun(hosts, cacheSize, cs, ls) && k < |cs| && h in cs[k].nodes && id in cs[k].nodes[h].cache.items
    ensures CacheOk(cs[k].nodes[h].cache) && id in cs[k].nodes[h].received
    ensures id in cs[k].broadcasts && cs[k].broadcasts[id] == cs[k].nodes[h].cache.items[id]
  {
    hide IsRun, DeliveryOk, RepairOk;
    RunInv(hosts, cacheSize, cs, ls, k);
    assert StoreOk(cs[k].broadcasts, cs[k].nodes[h]);
  }
}
