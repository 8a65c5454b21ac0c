/** No link is left out: over every run, whoever stays a link of a node hears of
    every message the node has received. */
module PlumtreeCoverage {
  import opened Foundation
  import opened PlumtreeCore
  import opened PlumtreeCluster
  import opened PlumtreeSafety

  predicate Announces(anns: seq<Announce>, id: MessageId) {
    exists i :: 0 <= i < |anns| && anns[i].id == id
  }

  /** A message that carries or announces id. */
  predicate TellsOf(m: Message, id: MessageId) {
    (m.Gossip? && m.id == id) || (m.IHave? && Announces(m.announcements, id))
  }

  predicate SentTo(net: set<Packet>, h: Host, p: Host, id: MessageId) {
    exists q :: q in net && q.src == h && q.dst == p && TellsOf(q.msg, id)
  }

  predicate Queued(n: Node, p: Host, id: MessageId) {
    p in n.lazyQueue && Announces(n.lazyQueue[p], id)
  }

  /** Node h has sent p the message or an announcement of it, or has one queued. */
  predicate Told(c: Cluster, h: Host, p: Host, id: MessageId) {
    h in c.nodes && (SentTo(c.net, h, p, id) || Queued(c.nodes[h], p, id))
  }

  // ----- the first receipt -----

  lemma PushTells(n: Node, id: MessageId, round: nat, payload: Bytes, from: Host, p: Host)
    requires p in n.eager + n.lazy && p != from
    ensures SentTo(EagerPush(n, id, payload, round, from), n.id, p, id) || Queued(LazyPush(n, id, round, from), p, id)
  {
    if p in n.eager {
      assert Packet(n.id, p, Gossip(id, round, payload)) in EagerPush(n, id, payload, round, from);
    } else {
      var q := LazyPush(n, id, round, from).lazyQueue[p];
      assert q == QueueFor(n.lazyQueue, p) + [Announce(id, round)];
      assert q[|q| - 1].id == id;
    }
  }

  /** A first receipt tells every link but the sender. */
  lemma GossipTells(n: Node, id: MessageId, round: nat, payload: Bytes, from: Host, p: Host)
    requires id !in n.received && p in n.eager + n.lazy && p != from
    ensures var o := OnGossip(n, id, round, payload, from); SentTo(o.sent, n.id, p, id) || Queued(o.node, p, id)
  {
    hide CachePut, NextRound, SentTo, Queued, LazyPush, EagerPush;
    var n1 := MakeEager(CancelMissing(Deliver(n, id, payload, from), id), from);
    PushTells(n1, id, NextRound(round), payload, from, p);
  }

  /** An origin tells every link. */
  lemma BroadcastTells(n: Node, payload: Bytes, p: Host)
    requires p in n.eager + n.lazy && p != n.id
    ensures var o := HandleBroadcast(n, payload); var id := MessageId(n.id, n.seqNo + 1);
            SentTo(o.sent, n.id, p, id) || Queued(o.node, p, id)
  {
    hide CachePut, SentTo, Queued, LazyPush, EagerPush;
    var id := MessageId(n.id, n.seqNo + 1);
    PushTells(Deliver(n.(seqNo := n.seqNo + 1), id, payload, n.id), id, 0, payload, n.id, p);
  }

  /** Who the message of this step came from. */
  function SenderOf(l: Label): Host {
    if l.event.Receive? then l.event.packet.src else l.host
  }

  lemma {:induction false} ViewReceives(n: Node, peers: seq<Host>)
    ensures OnView(n, peers).received == n.received && OnView(n, peers).lazyQueue == n.lazyQueue
  {
    if peers != [] { ViewReceives(n, peers[..|peers| - 1]); }
  }

  lemma {:induction false} IHaveReceives(n: Node, anns: seq<Announce>, from: Host)
    ensures OnIHave(n, anns, from).received == n.received && OnIHave(n, anns, from).lazyQueue == n.lazyQueue
  {
    if anns != [] { IHaveReceives(n, anns[..|anns| - 1], from); }
  }

  /** Only a broadcast of one's own or a Gossip makes an id received. */
  lemma ReceiptTells(n: Node, h: Host, ev: Event, id: MessageId, p: Host)
    requires n.id == h && id !in n.received && id in Handle(n, ev).node.received
    requires p in n.eager + n.lazy && p != h && p != SenderOf(Label(h, ev))
    ensures var o := Handle(n, ev); SentTo(o.sent, h, p, id) || Queued(o.node, p, id)
  {
    hide OnView, OnIHave, LazyPush, EagerPush, CachePut, SentTo, Queued, Without;
    match ev
    case Broadcast(payload) =>
      PushKeepsReceived(n, payload);
      BroadcastTells(n, payload, p);
    case View(peers) => ViewReceives(n, peers);
    case Receive(q) =>
      if q.msg.IHave? { IHaveReceives(n, q.msg.announcements, q.src); }
      if q.msg.Gossip? {
        GossipReceived(n, q.msg.id, q.msg.round, q.msg.payload, q.src);
        GossipTells(n, q.msg.id, q.msg.round, q.msg.payload, q.src, p);
      }
    case _ =>
  }

  lemma PushKeepsReceived(n: Node, payload: Bytes)
    ensures HandleBroadcast(n, payload).node.received == n.received + {MessageId(n.id, n.seqNo + 1)}
  {
    hide CachePut;
  }

  lemma GossipReceived(n: Node, id: MessageId, round: nat, payload: Bytes, from: Host)
    ensures OnGossip(n, id, round, payload, from).node.received == n.received + {id}
  {
    hide CachePut;
  }

  // ----- and it stays told -----

  lemma AnnouncesMore(anns: seq<Announce>, a: Announce, id: MessageId)
    requires Announces(anns, id)
    ensures Announces(anns + [a], id)
  {
    var i :| 0 <= i < |anns| && anns[i].id == id;
    assert (anns + [a])[i].id == id;
  }

  lemma LazyPushKeeps(n: Node, mid: MessageId, round: nat, except: Host, p: Host, id: MessageId)
    requires Queued(n, p, id)
    ensures Queued(LazyPush(n, mid, round, except), p, id)
  {
    hide Announces;
    AnnouncesMore(n.lazyQueue[p], Announce(mid, round), id);
  }

  lemma FlushTells(n: Node, p: Host, id: MessageId)
    requires Queued(n, p, id)
    ensures SentTo(FlushLazy(n).sent, n.id, p, id)
  {
    var q := Packet(n.id, p, IHave(n.lazyQueue[p]));
    assert n.lazyQueue[p] != [];
    assert q in FlushLazy(n).sent && TellsOf(q.msg, id);
  }

  /** A queued announcement stays queued, or a flush sends it, unless the peer
      goes down. */
  lemma QueueKept(n: Node, ev: Event, p: Host, id: MessageId)
    requires Queued(n, p, id) && ev != NeighborDown(p)
    ensures var o := Handle(n, ev); SentTo(o.sent, n.id, p, id) || Queued(o.node, p, id)
  {
    hide OnView, OnIHave, LazyPush, EagerPush, CachePut, SentTo, Announces, Without;
    match ev
    case Broadcast(payload) =>
      var d := Deliver(n.(seqNo := n.seqNo + 1), MessageId(n.id, n.seqNo + 1), payload, n.id);
      LazyPushKeeps(d, MessageId(n.id, n.seqNo + 1), 0, n.id, p, id);
    case View(peers) => ViewReceives(n, peers);
    case LazyTick => FlushTells(n, p, id);
    case Receive(q) =>
      if q.msg.IHave? { IHaveReceives(n, q.msg.announcements, q.src); }
      if q.msg.Gossip? && q.msg.id !in n.received {
        var d := MakeEager(CancelMissing(Deliver(n, q.msg.id, q.msg.payload, q.src), q.msg.id), q.src);
        LazyPushKeeps(d, q.msg.id, NextRound(q.msg.round), q.src, p, id);
      }
    case _ =>
  }

  lemma SentToMore(net: set<Packet>, more: set<Packet>, h: Host, p: Host, id: MessageId)
    ensures SentTo(net, h, p, id) || SentTo(more, h, p, id) ==> SentTo(net + more, h, p, id)
  {
    if SentTo(net, h, p, id) {
      var q :| q in net && q.src == h && q.dst == p && TellsOf(q.msg, id);
      assert q in net + more;
    } else if SentTo(more, h, p, id) {
      var q :| q in more && q.src == h && q.dst == p && TellsOf(q.msg, id);
      assert q in net + more;
    }
  }

  lemma ToldKept(c: Cluster, l: Label, h: Host, p: Host, id: MessageId)
    requires Inv(c) && Enabled(c, l) && Told(c, h, p, id) && l != Label(h, NeighborDown(p))
    ensures Told(Step(c, l), h, p, id)
  {
    hide Handle, SentTo, Queued, NodeOk, PacketOk;
    var o := Handle(c.nodes[l.host], l.event);
    SentToMore(c.net, o.sent, h, p, id);
    if l.host == h && Queued(c.nodes[h], p, id) {
      QueueKept(c.nodes[h], l.event, p, id);
    }
  }

  // ----- the theorems -----

  /** Whatever id node h received, at step m: every link it had then, but the
      one the message came from, and still has at k, has by then been sent the
      message or an announcement of it, or has one queued. A link is lost only
      by a NeighborDown. */
  lemma {:induction false} LinksAreTold(hosts: set<Host>, cacheSize: nat, cs: seq<Cluster>, ls: seq<Label>, m: nat, k: nat,
                                        h: Host, id: MessageId, p: Host)
    requires IsRun(hosts, cacheSize, cs, ls) && m < k < |cs| && h in cs[m].nodes && h in cs[m + 1].nodes
    requires id !in cs[m].nodes[h].received && id in cs[m + 1].nodes[h].received
    requires p in cs[m].nodes[h].eager + cs[m].nodes[h].lazy && p != h && p != SenderOf(ls[m])
    requires forall j | m < j < k :: ls[j] != Label(h, NeighborDown(p))
    ensures Told(cs[k], h, p, id)
    decreases k
  {
    hide Handle, SentTo, Queued, NodeOk, PacketOk, Told;
    assert Enabled(cs[k - 1], ls[k - 1]) && cs[k - 1 + 1] == Step(cs[k - 1], ls[k - 1]);
    RunInv(hosts, cacheSize, cs, ls, k - 1);
    if k == m + 1 {
      ToldAtReceipt(cs[m], ls[m], h, id, p);
    } else {
      LinksAreTold(hosts, cacheSize, cs, ls, m, k - 1, h, id, p);
      ToldKept(cs[k - 1], ls[k - 1], h, p, id);
    }
  }

  lemma ToldAtReceipt(c: Cluster, l: Label, h: Host, id: MessageId, p: Host)
    requires Inv(c) && Enabled(c, l) && h in c.nodes && id !in c.nodes[h].received && id in Step(c, l).nodes[h].received
    requires p in c.nodes[h].eager + c.nodes[h].lazy && p != h && p != SenderOf(l)
    ensures Told(Step(c, l), h, p, id)
  {
    hide Handle, SentTo, Queued, NodeOk, PacketOk;
    assert l.host == h;
    ReceiptTells(c.nodes[h], h, l.event, id, p);
    SentToMore(c.net, Handle(c.nodes[h], l.event).sent, h, p, id);
  }

  /** A GRAFT that arrives while the message is cached is answered with what the
      origin broadcast. */
  lemma GraftAnswered(hosts: set<Host>, cacheSize: nat, cs: seq<Cluster>, ls: seq<Label>, k: nat, q: Packet)
    requires IsRun(hosts, cacheSize, cs, ls) && k < |ls| && ls[k] == Label(q.dst, Receive(q)) && q.msg.Graft?
    requires q.dst in cs[k].nodes && q.msg.id in cs[k].nodes[q.dst].cache.items
    ensures q.msg.id in cs[k].broadcasts
    ensures Packet(q.dst, q.src, Gossip(q.msg.id, q.msg.round, cs[k].broadcasts[q.msg.id])) in cs[k + 1].net
    ensures q.dst in cs[k + 1].nodes && q.src in cs[k + 1].nodes[q.dst].eager && q.src !in cs[k + 1].nodes[q.dst].lazy
  {
    hide NodeOk, PacketOk;
    assert cs[k + 1] == Step(cs[k], ls[k]);
    RunInv(hosts, cacheSize, cs, ls, k);
    CacheIsGenuine(hosts, cacheSize, cs, ls, k, q.dst, q.msg.id);
  }
}
