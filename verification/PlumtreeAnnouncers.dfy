/** Whoever announces a message has it, over every run of Plumtree. */
module PlumtreeAnnouncers {
  import opened Foundation
  import opened PlumtreeCore
  import opened PlumtreeCluster
  import opened PlumtreeSafety
  import opened PlumtreeCoverage
  import opened PlumtreeAnswers

  // ----- whoever speaks of a message has it -----

  /** h is a node that has received id. */
  predicate Has(c: Cluster, h: Host, id: MessageId) {
    h in c.nodes && id in c.nodes[h].received
  }

  ghost predicate QueueOk(c: Cluster, h: Host)
    requires h in c.nodes
  {
    forall p, id | p in c.nodes[h].lazyQueue && Announces(c.nodes[h].lazyQueue[p], id) :: Has(c, h, id)
  }

  ghost predicate RecordsOk(c: Cluster, h: Host)
    requires h in c.nodes
  {
    forall id, e | id in c.nodes[h].missing && e in c.nodes[h].missing[id] :: Has(c, e.peer, id)
  }

  ghost predicate SpeaksTrue(c: Cluster, q: Packet) {
    forall id | TellsOf(q.msg, id) :: Has(c, q.src, id)
  }

  ghost predicate Truthful(c: Cluster) {
    && (forall h | h in c.nodes :: QueueOk(c, h) && RecordsOk(c, h))
    && forall q | q in c.net :: SpeaksTrue(c, q)
  }

  /** Nothing received is unreceived. */
  predicate Keeps(c: Cluster, c2: Cluster) {
    c2.nodes.Keys == c.nodes.Keys && forall h | h in c.nodes :: c.nodes[h].received <= c2.nodes[h].received
  }

  lemma StepKeeps(c: Cluster, l: Label)
    requires Enabled(c, l)
    ensures Keeps(c, Step(c, l))
  {
    hide Handle;
    forall id | id in c.nodes[l.host].received ensures id in Handle(c.nodes[l.host], l.event).node.received {
      ReceivedStep(c.nodes[l.host], l.event, id);
    }
  }

  /** What a node may say: of messages it has. */
  ghost predicate Honest(n: Node, sent: set<Packet>) {
    && (forall p, id | p in n.lazyQueue && Announces(n.lazyQueue[p], id) :: id in n.received)
    && forall q, id | q in sent && TellsOf(q.msg, id) :: q.src == n.id && id in n.received
  }

  lemma {:induction false} AnnouncesSplit(anns: seq<Announce>, a: Announce, id: MessageId)
    ensures Announces(anns + [a], id) <==> Announces(anns, id) || a.id == id
  {
    if Announces(anns, id) { AnnouncesMore(anns, a, id); }
    assert (anns + [a])[|anns|] == a;
    if i :| 0 <= i < |anns + [a]| && (anns + [a])[i].id == id { assert i < |anns| ==> anns[i].id == id; }
  }

  lemma PushHonest(n: Node, mid: MessageId, payload: Bytes, round: nat, except: Host)
    requires Honest(n, {}) && mid in n.received
    ensures Honest(LazyPush(n, mid, round, except), EagerPush(n, mid, payload, round, except))
  {
    hide Announces;
    var n2 := LazyPush(n, mid, round, except);
    forall p, id | p in n2.lazyQueue && Announces(n2.lazyQueue[p], id) ensures id in n2.received {
      AnnouncesSplit(QueueOf(n, p), Announce(mid, round), id);
      if p !in n.lazyQueue { NoneAnnounced(id); }
    }
  }

  lemma NoneAnnounced(id: MessageId)
    ensures !Announces([], id)
  {
  }

  lemma StillHonest(n: Node, n2: Node)
    requires Honest(n, {}) && n2.lazyQueue == n.lazyQueue && n2.id == n.id && n.received <= n2.received
    ensures Honest(n2, {})
  {
    hide Announces;
  }

  lemma HandleHonest(b: map<MessageId, Bytes>, n: Node, ev: Event)
    requires Honest(n, {}) && NodeOk(b, n)
    ensures Honest(Handle(n, ev).node, Handle(n, ev).sent)
  {
    hide Honest, NodeOk, OnView, OnIHave, LazyPush, EagerPush, CachePut, Without, FlushLazy, OnNeighborDown, Announces;
    match ev
    case Broadcast(payload) =>
      var id := MessageId(n.id, n.seqNo + 1);
      var n1 := Deliver(n.(seqNo := n.seqNo + 1), id, payload, n.id);
      StillHonest(n, n1);
      PushHonest(n1, id, payload, 0, n.id);
    case View(peers) =>
      ViewReceives(n, peers);
      ViewIs(n, peers);
      StillHonest(n, OnView(n, peers));
    case LazyTick => FlushHonest(n);
    case NeighborDown(peer) => DownHonest(n, peer);
    case NeighborUp(_) => StillHonest(n, Handle(n, ev).node);
    case MissingTimeout(_) =>
      StillHonest(n, Handle(n, ev).node);
      QuietHonest(Handle(n, ev).node, Handle(n, ev).sent);
    case Receive(p) => ReceiptHonest(b, n, p);
  }

  /** Messages that speak of nothing are always honest. */
  lemma QuietHonest(n: Node, sent: set<Packet>)
    requires Honest(n, {}) && forall q | q in sent :: q.msg.Graft? || q.msg.Prune?
    ensures Honest(n, sent)
  {
    hide Announces;
    assert forall q, id | q in sent :: !TellsOf(q.msg, id);
    forall p, id | p in n.lazyQueue && Announces(n.lazyQueue[p], id) ensures id in n.received {}
  }

  lemma FlushHonest(n: Node)
    requires Honest(n, {})
    ensures Honest(FlushLazy(n).node, FlushLazy(n).sent)
  {
    hide Announces;
  }

  lemma DownHonest(n: Node, peer: Host)
    requires Honest(n, {})
    ensures Honest(OnNeighborDown(n, peer), {})
  {
    hide Announces, Without;
  }

  lemma ReceiptHonest(b: map<MessageId, Bytes>, n: Node, p: Packet)
    requires Honest(n, {}) && NodeOk(b, n)
    ensures Honest(Receipt(n, p).node, Receipt(n, p).sent)
  {
    hide Honest, OnIHave, LazyPush, EagerPush, CachePut, Announces, RepairOk, DeliveryOk;
    match p.msg
    case Gossip(id, round, payload) =>
      if id in n.received {
        StillHonest(n, Receipt(n, p).node);
        QuietHonest(Receipt(n, p).node, Receipt(n, p).sent);
      } else {
        var n1 := MakeEager(CancelMissing(Deliver(n, id, payload, p.src), id), p.src);
        StillHonest(n, n1);
        PushHonest(n1, id, payload, NextRound(round), p.src);
      }
    case IHave(anns) =>
      IHaveReceives(n, anns, p.src);
      IHaveIs(n, anns, p.src, MessageId(n.id, 0));
      StillHonest(n, Receipt(n, p).node);
    case Graft(id, round) =>
      StillHonest(n, Receipt(n, p).node);
      GraftHonest(n, id, round, p.src);
    case Prune => StillHonest(n, Receipt(n, p).node);
  }

  lemma GraftHonest(n: Node, id: MessageId, round: nat, from: Host)
    requires Honest(OnGraft(n, id, round, from).node, {}) && forall x | x in n.cache.items :: x in n.received
    ensures Honest(OnGraft(n, id, round, from).node, OnGraft(n, id, round, from).sent)
  {
    hide Announces;
  }

  lemma {:induction false} RecordsAre(anns: seq<Announce>, id: MessageId, from: Host, e: Pending)
    requires e in RecordsOf(anns, id, from)
    ensures e.peer == from && Announces(anns, id)
  {
    var front, a := anns[..|anns| - 1], anns[|anns| - 1];
    assert front + [a] == anns;
    AnnouncesSplit(front, a, id);
    if e in RecordsOf(front, id, from) { RecordsAre(front, id, from, e); }
  }

  /** A record is old, or an announcement just made. */
  lemma RecordFrom(n: Node, ev: Event, id: MessageId, e: Pending)
    requires e in Announcers(Handle(n, ev).node, id)
    ensures e in Announcers(n, id) || (ev.Receive? && TellsOf(ev.packet.msg, id) && e.peer == ev.packet.src)
  {
    hide OnView, OnIHave, EagerPush, CachePut, Announces, Without;
    match ev
    case View(peers) => ViewIs(n, peers);
    case NeighborDown(peer) => WithoutIs(Announcers(n, id), peer);
    case Receive(p) =>
      if p.msg.IHave? {
        IHaveIs(n, p.msg.announcements, p.src, id);
        if e !in Announcers(n, id) { RecordsAre(p.msg.announcements, id, p.src, e); }
      }
    case _ =>
  }

  lemma HasStays(c: Cluster, c2: Cluster, h: Host, id: MessageId)
    requires Keeps(c, c2) && Has(c, h, id)
    ensures Has(c2, h, id)
  {
  }

  lemma TruthfulStep(c: Cluster, l: Label)
    requires Inv(c) && Enabled(c, l) && Truthful(c)
    ensures Truthful(Step(c, l))
  {
    hide Handle, NodeOk, PacketOk, TellsOf, Announces, Keeps, Has, Inv;
    var c2, n := Step(c, l), c.nodes[l.host];
    var o := Handle(n, l.event);
    StepKeeps(c, l);
    StepHonest(c, l);
    forall h | h in c2.nodes ensures QueueOk(c2, h) {
      forall p, id | p in c2.nodes[h].lazyQueue && Announces(c2.nodes[h].lazyQueue[p], id) ensures Has(c2, h, id) {
        HasIs(c2, h, id);
        HasIs(c, h, id);
        if h != l.host { assert QueueOk(c, h); }
      }
    }
    forall h | h in c2.nodes ensures RecordsOk(c2, h) {
      forall id, e | id in c2.nodes[h].missing && e in c2.nodes[h].missing[id] ensures Has(c2, e.peer, id) {
        RecordStays(c, l, h, id, e);
        HasStays(c, c2, e.peer, id);
      }
    }
    forall q | q in c2.net ensures SpeaksTrue(c2, q) {
      forall id | TellsOf(q.msg, id) ensures Has(c2, q.src, id) {
        if q in c.net {
          assert SpeaksTrue(c, q);
          HasStays(c, c2, q.src, id);
        } else {
          assert q in o.sent && TellsOf(q.msg, id);
          assert q.src == o.node.id == l.host && id in o.node.received;
          HasIs(c2, q.src, id);
        }
      }
    }
  }

  lemma HasIs(c: Cluster, h: Host, id: MessageId)
    ensures Has(c, h, id) <==> h in c.nodes && id in c.nodes[h].received
  {
  }

  lemma StepHonest(c: Cluster, l: Label)
    requires Inv(c) && Enabled(c, l) && Truthful(c)
    ensures Honest(Handle(c.nodes[l.host], l.event).node, Handle(c.nodes[l.host], l.event).sent)
    ensures c.nodes[l.host].id == l.host == Handle(c.nodes[l.host], l.event).node.id
  {
    hide Handle, NodeOk, PacketOk, Announces;
    StepInv(c, l);
    assert Step(c, l).nodes[l.host] == Handle(c.nodes[l.host], l.event).node;
    assert QueueOk(c, l.host);
    forall p, id | p in c.nodes[l.host].lazyQueue && Announces(c.nodes[l.host].lazyQueue[p], id) ensures id in c.nodes[l.host].received {
      assert Has(c, l.host, id);
    }
    HandleHonest(c.broadcasts, c.nodes[l.host], l.event);
  }

  lemma RecordStays(c: Cluster, l: Label, h: Host, id: MessageId, e: Pending)
    requires Enabled(c, l) && Truthful(c) && h in c.nodes
    requires id in Step(c, l).nodes[h].missing && e in Step(c, l).nodes[h].missing[id]
    ensures Has(c, e.peer, id)
  {
    hide Handle, TellsOf, Announces;
    assert RecordsOk(c, h);
    if h == l.host {
      RecordFrom(c.nodes[h], l.event, id, e);
      if e !in Announcers(c.nodes[h], id) { assert SpeaksTrue(c, l.event.packet); }
    }
  }

  lemma {:induction false} RunTruthful(hosts: set<Host>, cacheSize: nat, cs: seq<Cluster>, ls: seq<Label>, k: nat)
    requires IsRun(hosts, cacheSize, cs, ls) && k < |cs|
    ensures Truthful(cs[k])
  {
    hide Step, Enabled, Inv;
    if k > 0 {
      RunTruthful(hosts, cacheSize, cs, ls, k - 1);
      RunInv(hosts, cacheSize, cs, ls, k - 1);
      assert cs[k - 1 + 1] == Step(cs[k - 1], ls[k - 1]);
      TruthfulStep(cs[k - 1], ls[k - 1]);
    }
  }

  /** Over every run, whoever is on record as having announced a message, and
      whoever has sent or announced one, has received it. */
  lemma AnnouncersHave(hosts: set<Host>, cacheSize: nat, cs: seq<Cluster>, ls: seq<Label>, k: nat, h: Host, id: MessageId, e: Pending, q: Packet)
    requires IsRun(hosts, cacheSize, cs, ls) && k < |cs| && h in cs[k].nodes
    ensures id in cs[k].nodes[h].missing && e in cs[k].nodes[h].missing[id] ==> Has(cs[k], e.peer, id)
    ensures q in cs[k].net && TellsOf(q.msg, id) ==> Has(cs[k], q.src, id)
  {
    hide IsRun, Has, TellsOf, QueueOk;
    RunTruthful(hosts, cacheSize, cs, ls, k);
    assert RecordsOk(cs[k], h);
    if q in cs[k].net { assert SpeaksTrue(cs[k], q); }
  }
}
