/** The answers of a Plumtree node, for every run: what a receipt, an
    announcement, a repair request or a change of neighbours makes it send and
    keep, said of packets, links and records. */
module PlumtreeAnswers {
  import opened Foundation
  import opened PlumtreeCore
  import opened PlumtreeCluster
  import opened PlumtreeSafety
  import opened PlumtreeCoverage

  lemma StepAt(hosts: set<Host>, cacheSize: nat, cs: seq<Cluster>, ls: seq<Label>, k: nat, h: Host)
    requires IsRun(hosts, cacheSize, cs, ls) && k < |ls| && ls[k].host == h
    ensures h in cs[k].nodes && h in cs[k + 1].nodes && cs[k].nodes[h].id == h && Inv(cs[k])
    ensures cs[k + 1].nodes == cs[k].nodes[h := Handle(cs[k].nodes[h], ls[k].event).node]
    ensures cs[k + 1].net == cs[k].net + Handle(cs[k].nodes[h], ls[k].event).sent
  {
    hide Handle, NodeOk, PacketOk;
    assert cs[k + 1] == Step(cs[k], ls[k]);
    RunInv(hosts, cacheSize, cs, ls, k);
  }

  // ----- first receipts -----

  /** What n keeps for a peer in its queue of announcements. */
  function QueueOf(n: Node, p: Host): seq<Announce> {
    if p in n.lazyQueue then n.lazyQueue[p] else []
  }

  /** n2 has taken the message in: it is delivered once, with its payload and
      where it came from, and pushed on at this round: to eager links but the
      source itself, to lazy ones an announcement. */
  ghost predicate TakenIn(n: Node, id: MessageId, payload: Bytes, from: Host, round: nat, n2: Node, sent: set<Packet>) {
    && n2.received == n.received + {id} && n2.delivered == n.delivered + [Delivered(id, payload, from)]
    && sent == (set p | p in n.eager && p != from :: Packet(n.id, p, Gossip(id, round, payload)))
    && (forall p :: QueueOf(n2, p) == if p in n.lazy && p != from then QueueOf(n, p) + [Announce(id, round)] else QueueOf(n, p))
    && (0 < n.cache.max && id !in n.cache.items ==> id in n2.cache.items && n2.cache.items[id] == payload)
    && n2.id == n.id && n2.duplicates == n.duplicates
  }

  lemma PushIs(n: Node, id: MessageId, payload: Bytes, round: nat, except: Host, p: Host)
    ensures QueueOf(LazyPush(n, id, round, except), p) ==
            if p in n.lazy && p != except then QueueOf(n, p) + [Announce(id, round)] else QueueOf(n, p)
  {
  }

  /** A Gossip not seen before is delivered and pushed on one round further,
      its sender becomes an eager link, and nobody is asked for it any more. One
      seen before makes its sender a lazy link and is answered with a Prune. */
  lemma GossipAnswer(hosts: set<Host>, cacheSize: nat, cs: seq<Cluster>, ls: seq<Label>, k: nat,
                     h: Host, s: Host, id: MessageId, round: nat, payload: Bytes) returns (sent: set<Packet>)
    requires IsRun(hosts, cacheSize, cs, ls) && k < |ls| && ls[k] == Label(h, Receive(Packet(s, h, Gossip(id, round, payload))))
    ensures h in cs[k].nodes && h in cs[k + 1].nodes && cs[k + 1].net == cs[k].net + sent
    ensures var n, n2 := cs[k].nodes[h], cs[k + 1].nodes[h];
            if id in n.received then
              && n2 == n.(eager := n.eager - {s}, lazy := n.lazy + {s}, duplicates := n.duplicates + 1)
              && sent == {Packet(h, s, Prune)}
            else
              && TakenIn(n, id, payload, s, (round + 1) % 0x1_0000_0000, n2, sent)
              && n2.eager == n.eager + {s} && n2.lazy == n.lazy - {s}
              && n2.missing == n.missing - {id} && n2.timers == n.timers - {id} && n2.seqNo == n.seqNo
  {
    hide IsRun, NodeOk, PacketOk, OnGossip, TakenIn;
    RunLength(hosts, cacheSize, cs, ls);
    StepAt(hosts, cacheSize, cs, ls, k, h);
    var n := cs[k].nodes[h];
    sent := OnGossip(n, id, round, payload, s).sent;
    CacheTakes(cs[k], h, id, payload);
    if id in n.received { DuplicateCase(n, id, round, payload, s); } else { GossipCase(n, id, round, payload, s); }
  }

  lemma RunLength(hosts: set<Host>, cacheSize: nat, cs: seq<Cluster>, ls: seq<Label>)
    requires IsRun(hosts, cacheSize, cs, ls)
    ensures |cs| == |ls| + 1
  {
  }

  lemma DuplicateCase(n: Node, id: MessageId, round: nat, payload: Bytes, s: Host)
    requires id in n.received
    ensures OnGossip(n, id, round, payload, s) ==
            Outcome(n.(eager := n.eager - {s}, lazy := n.lazy + {s}, duplicates := n.duplicates + 1), {Packet(n.id, s, Prune)})
  {
  }

  /** The cache takes in a payload it lacks, if it has room for any. */
  predicate Caches(n: Node, id: MessageId, payload: Bytes) {
    0 < n.cache.max && id !in n.cache.items ==>
      id in CachePut(n.cache, id, payload).items && CachePut(n.cache, id, payload).items[id] == payload
  }

  lemma GossipCase(n: Node, id: MessageId, round: nat, payload: Bytes, s: Host)
    requires id !in n.received && Caches(n, id, payload)
    ensures var o := OnGossip(n, id, round, payload, s);
            && TakenIn(n, id, payload, s, (round + 1) % 0x1_0000_0000, o.node, o.sent)
            && o.node.eager == n.eager + {s} && o.node.lazy == n.lazy - {s}
            && o.node.missing == n.missing - {id} && o.node.timers == n.timers - {id} && o.node.seqNo == n.seqNo
  {
    hide CachePut;
    var n1, r := MakeEager(CancelMissing(Deliver(n, id, payload, s), id), s), NextRound(round);
    forall p ensures QueueOf(LazyPush(n1, id, r, s), p) == if p in n.lazy && p != s then QueueOf(n, p) + [Announce(id, r)] else QueueOf(n, p) {
      PushIs(n1, id, payload, r, s, p);
    }
  }

  lemma BroadcastCase(n: Node, payload: Bytes)
    requires Caches(n, MessageId(n.id, n.seqNo + 1), payload)
    ensures var o, id := HandleBroadcast(n, payload), MessageId(n.id, n.seqNo + 1);
            && TakenIn(n, id, payload, n.id, 0, o.node, o.sent) && o.node.seqNo == n.seqNo + 1
            && o.node.eager == n.eager && o.node.lazy == n.lazy && o.node.missing == n.missing && o.node.timers == n.timers
  {
    hide CachePut;
    var id := MessageId(n.id, n.seqNo + 1);
    var n1 := Deliver(n.(seqNo := n.seqNo + 1), id, payload, n.id);
    forall p ensures QueueOf(LazyPush(n1, id, 0, n.id), p) == if p in n.lazy && p != n.id then QueueOf(n, p) + [Announce(id, 0)] else QueueOf(n, p) {
      PushIs(n1, id, payload, 0, n.id, p);
    }
  }

  lemma CacheTakes(c: Cluster, h: Host, id: MessageId, payload: Bytes)
    requires Inv(c) && h in c.nodes
    ensures Caches(c.nodes[h], id, payload)
  {
    hide DeliveryOk, RepairOk, PacketOk;
    CachePutOk(c.nodes[h].cache, id, payload);
  }

  /** A broadcast is delivered at its origin under the next number, and pushed
      to every link at round 0. */
  lemma BroadcastAnswer(hosts: set<Host>, cacheSize: nat, cs: seq<Cluster>, ls: seq<Label>, k: nat, h: Host, payload: Bytes)
      returns (sent: set<Packet>)
    requires IsRun(hosts, cacheSize, cs, ls) && k < |ls| && ls[k] == Label(h, Broadcast(payload))
    ensures h in cs[k].nodes && h in cs[k + 1].nodes && cs[k + 1].net == cs[k].net + sent
    ensures var n, n2 := cs[k].nodes[h], cs[k + 1].nodes[h];
            && TakenIn(n, MessageId(h, n.seqNo + 1), payload, h, 0, n2, sent) && n2.seqNo == n.seqNo + 1
            && n2.eager == n.eager && n2.lazy == n.lazy && n2.missing == n.missing && n2.timers == n.timers
  {
    hide IsRun, NodeOk, PacketOk, HandleBroadcast, TakenIn;
    RunLength(hosts, cacheSize, cs, ls);
    StepAt(hosts, cacheSize, cs, ls, k, h);
    var n := cs[k].nodes[h];
    sent := HandleBroadcast(n, payload).sent;
    CacheTakes(cs[k], h, MessageId(h, n.seqNo + 1), payload);
    BroadcastCase(n, payload);
  }

  // ----- who has received what -----

  /** This event brings id to n: n broadcasts it, or is handed it. */
  predicate BroughtBy(n: Node, ev: Event, id: MessageId) {
    match ev
    case Broadcast(_) => id == MessageId(n.id, n.seqNo + 1)
    case Receive(p) => p.msg.Gossip? && p.msg.id == id
    case _ => false
  }

  predicate Brings(cs: seq<Cluster>, ls: seq<Label>, i: int, h: Host, id: MessageId) {
    0 <= i < |ls| && i < |cs| && ls[i].host == h && h in cs[i].nodes && BroughtBy(cs[i].nodes[h], ls[i].event, id)
  }

  lemma ReceivedStep(n: Node, ev: Event, id: MessageId)
    ensures id in Handle(n, ev).node.received <==> id in n.received || BroughtBy(n, ev, id)
  {
    hide OnView, OnIHave, CachePut, Without, LazyPush, EagerPush;
    match ev
    case Broadcast(payload) => PushKeepsReceived(n, payload);
    case View(peers) => ViewReceives(n, peers);
    case Receive(p) =>
      if p.msg.Gossip? { GossipReceived(n, p.msg.id, p.msg.round, p.msg.payload, p.src); }
      if p.msg.IHave? { IHaveReceives(n, p.msg.announcements, p.src); }
    case _ =>
  }

  /** A node has a message if and only if it broadcast it or was handed it. */
  lemma {:induction false} ReceivedIff(hosts: set<Host>, cacheSize: nat, cs: seq<Cluster>, ls: seq<Label>, k: nat, h: Host, id: MessageId)
    requires IsRun(hosts, cacheSize, cs, ls) && k < |cs| && h in cs[k].nodes
    ensures id in cs[k].nodes[h].received <==> exists i :: 0 <= i < k && Brings(cs, ls, i, h, id)
  {
    hide Handle, NodeOk, PacketOk, BroughtBy;
    if k > 0 {
      var l := ls[k - 1];
      assert Enabled(cs[k - 1], l) && cs[k - 1 + 1] == Step(cs[k - 1], l);
      ReceivedIff(hosts, cacheSize, cs, ls, k - 1, h, id);
      if l.host == h { ReceivedStep(cs[k - 1].nodes[h], l.event, id); }
      assert id in cs[k].nodes[h].received <==> id in cs[k - 1].nodes[h].received || Brings(cs, ls, k - 1, h, id);
    }
  }

  /** What a node has received is what it has delivered. */
  lemma DeliveredIff(hosts: set<Host>, cacheSize: nat, cs: seq<Cluster>, ls: seq<Label>, k: nat, h: Host, id: MessageId)
    requires IsRun(hosts, cacheSize, cs, ls) && k < |cs| && h in cs[k].nodes
    ensures id in cs[k].nodes[h].received <==> exists d :: d in cs[k].nodes[h].delivered && d.id == id
  {
    hide IsRun, PacketOk, StoreOk, RepairOk;
    RunInv(hosts, cacheSize, cs, ls, k);
    var ds := cs[k].nodes[h].delivered;
    if id in Ids(ds) {
      var i :| 0 <= i < |ds| && Ids(ds)[i] == id;
      assert ds[i] in ds;
    }
    if d :| d in ds && d.id == id {
      var i :| 0 <= i < |ds| && ds[i] == d;
      assert Ids(ds)[i] == id;
    }
  }

  // ----- repair -----

  /** The announcements of id among these, as records of who made them. */
  function RecordsOf(anns: seq<Announce>, id: MessageId, from: Host): seq<Pending> {
    if anns == [] then []
    else
      var rest := RecordsOf(anns[..|anns| - 1], id, from);
      if anns[|anns| - 1].id == id then rest + [Pending(from, anns[|anns| - 1].round)] else rest
  }

  function Announcers(n: Node, id: MessageId): seq<Pending> {
    if id in n.missing then n.missing[id] else []
  }

  lemma {:induction false} IHaveIs(n: Node, anns: seq<Announce>, from: Host, id: MessageId)
    ensures var n2 := OnIHave(n, anns, from);
            && n2 == n.(missing := n2.missing, timers := n2.timers)
            && Announcers(n2, id) == (if id in n.received then Announcers(n, id) else Announcers(n, id) + RecordsOf(anns, id, from))
            && (id in n2.timers <==> id in n.timers || (id !in n.received && Announces(anns, id)))
  {
    if anns != [] {
      var front, a := anns[..|anns| - 1], anns[|anns| - 1];
      IHaveIs(n, front, from, id);
      assert Announces(anns, id) <==> Announces(front, id) || a.id == id by {
        if Announces(front, id) { AnnouncesMore(front, a, id); assert front + [a] == anns; }
        assert anns[|anns| - 1].id == a.id;
      }
    }
  }

  /** Announcements are recorded, in the order made, for every message not yet
      received, and its timer is armed. Nothing else changes or is sent. */
  lemma IHaveAnswer(hosts: set<Host>, cacheSize: nat, cs: seq<Cluster>, ls: seq<Label>, k: nat, h: Host, s: Host, anns: seq<Announce>, id: MessageId)
    requires IsRun(hosts, cacheSize, cs, ls) && k < |ls| && ls[k] == Label(h, Receive(Packet(s, h, IHave(anns))))
    ensures h in cs[k].nodes && h in cs[k + 1].nodes && cs[k + 1].net == cs[k].net
    ensures var n, n2 := cs[k].nodes[h], cs[k + 1].nodes[h];
            && n2 == n.(missing := n2.missing, timers := n2.timers)
            && Announcers(n2, id) == (if id in n.received then Announcers(n, id) else Announcers(n, id) + RecordsOf(anns, id, s))
            && (id in n2.timers <==> id in n.timers || (id !in n.received && Announces(anns, id)))
  {
    hide IsRun, NodeOk, PacketOk, OnIHave;
    RunLength(hosts, cacheSize, cs, ls);
    StepAt(hosts, cacheSize, cs, ls, k, h);
    IHaveIs(cs[k].nodes[h], anns, s, id);
  }

  /** When a timer fires, a message that has arrived is forgotten. For one that
      has not, the first announcer recorded is asked, becomes an eager link, and
      is struck off, and the timer is armed for the next. */
  lemma TimeoutAnswer(hosts: set<Host>, cacheSize: nat, cs: seq<Cluster>, ls: seq<Label>, k: nat, h: Host, id: MessageId)
    requires IsRun(hosts, cacheSize, cs, ls) && k < |ls| && ls[k] == Label(h, MissingTimeout(id))
    ensures h in cs[k].nodes && h in cs[k + 1].nodes
    ensures var n, n2 := cs[k].nodes[h], cs[k + 1].nodes[h];
            var asked := Announcers(n, id);
            if id in n.received then
              n2 == n.(missing := n.missing - {id}, timers := n.timers - {id}) && cs[k + 1].net == cs[k].net
            else if asked == [] then n2 == n.(timers := n.timers - {id}) && cs[k + 1].net == cs[k].net
            else
              && n2 == n.(missing := n.missing[id := asked[1..]], eager := n.eager + {asked[0].peer}, lazy := n.lazy - {asked[0].peer})
              && cs[k + 1].net == cs[k].net + {Packet(h, asked[0].peer, Graft(id, asked[0].round))}
  {
    hide NodeOk, PacketOk;
    StepAt(hosts, cacheSize, cs, ls, k, h);
    assert id in cs[k].nodes[h].timers;
    hide IsRun;
    assert cs[k].nodes[h].timers - {id} + {id} == cs[k].nodes[h].timers;
  }

  /** A Graft makes its sender an eager link, and is answered if and only if the
      message is still cached, with the payload and the round asked for. */
  lemma GraftAnswer(hosts: set<Host>, cacheSize: nat, cs: seq<Cluster>, ls: seq<Label>, k: nat, h: Host, s: Host, id: MessageId, round: nat)
    requires IsRun(hosts, cacheSize, cs, ls) && k < |ls| && ls[k] == Label(h, Receive(Packet(s, h, Graft(id, round))))
    ensures h in cs[k].nodes && h in cs[k + 1].nodes
    ensures var n := cs[k].nodes[h];
            && cs[k + 1].nodes[h] == n.(eager := n.eager + {s}, lazy := n.lazy - {s})
            && cs[k + 1].net == cs[k].net + if id in n.cache.items then {Packet(h, s, Gossip(id, round, n.cache.items[id]))} else {}
  {
    hide IsRun, NodeOk, PacketOk;
    RunLength(hosts, cacheSize, cs, ls);
    StepAt(hosts, cacheSize, cs, ls, k, h);
  }

  // ----- links -----

  /** A Prune makes its sender a lazy link. A neighbour that comes up, or is in
      the view at the start, is an eager link, the node itself never by an Up. */
  lemma LinkAnswer(hosts: set<Host>, cacheSize: nat, cs: seq<Cluster>, ls: seq<Label>, k: nat, h: Host)
    requires IsRun(hosts, cacheSize, cs, ls) && k < |ls| && ls[k].host == h
    ensures h in cs[k].nodes && h in cs[k + 1].nodes
    ensures var n, n2, ev := cs[k].nodes[h], cs[k + 1].nodes[h], ls[k].event;
            && (ev.Receive? && ev.packet.msg.Prune? ==>
                  cs[k + 1].net == cs[k].net && n2 == n.(eager := n.eager - {ev.packet.src}, lazy := n.lazy + {ev.packet.src}))
            && (ev.NeighborUp? ==>
                  && cs[k + 1].net == cs[k].net
                  && n2 == if ev.peer == h then n else n.(eager := n.eager + {ev.peer}, lazy := n.lazy - {ev.peer}))
            && (ev.View? ==>
                  && cs[k + 1].net == cs[k].net
                  && n2 == n.(eager := n.eager + Elements(ev.peers), lazy := n.lazy - Elements(ev.peers)))
  {
    hide IsRun, NodeOk, PacketOk, OnView;
    RunLength(hosts, cacheSize, cs, ls);
    StepAt(hosts, cacheSize, cs, ls, k, h);
    if ls[k].event.View? { ViewIs(cs[k].nodes[h], ls[k].event.peers); }
  }

  lemma {:induction false} ViewIs(n: Node, peers: seq<Host>)
    ensures OnView(n, peers) == n.(eager := n.eager + Elements(peers), lazy := n.lazy - Elements(peers))
  {
    if peers != [] {
      var front, last := peers[..|peers| - 1], peers[|peers| - 1];
      ViewIs(n, front);
      assert Elements(peers) == Elements(front) + {last};
    }
  }

  /** A neighbour that goes down is no link, has nothing queued, and is asked for
      nothing: its records go and all others stay, in order. A message with no
      record left has no timer. */
  lemma DownAnswer(hosts: set<Host>, cacheSize: nat, cs: seq<Cluster>, ls: seq<Label>, k: nat, h: Host, peer: Host, id: MessageId)
    requires IsRun(hosts, cacheSize, cs, ls) && k < |ls| && ls[k] == Label(h, NeighborDown(peer))
    ensures h in cs[k].nodes && h in cs[k + 1].nodes && cs[k + 1].net == cs[k].net
    ensures var n, n2 := cs[k].nodes[h], cs[k + 1].nodes[h];
            && n2 == n.(eager := n.eager - {peer}, lazy := n.lazy - {peer}, lazyQueue := n.lazyQueue - {peer},
                        missing := n2.missing, timers := n2.timers)
            && OthersOf(Announcers(n, id), peer, Announcers(n2, id))
            && (id in n2.timers <==> id in n.timers && (id in n.missing ==> Announcers(n2, id) != []))
  {
    hide IsRun, NodeOk, PacketOk;
    RunLength(hosts, cacheSize, cs, ls);
    StepAt(hosts, cacheSize, cs, ls, k, h);
    var n := cs[k].nodes[h];
    WithoutOthers(Announcers(n, id), peer);
  }

  /** rest is entries without those of peer, in order. */
  predicate OthersOf(entries: seq<Pending>, peer: Host, rest: seq<Pending>)
    decreases |entries|
  {
    if entries == [] then rest == []
    else if entries[0].peer == peer then OthersOf(entries[1..], peer, rest)
    else rest != [] && rest[0] == entries[0] && OthersOf(entries[1..], peer, rest[1..])
  }

  lemma {:induction false} WithoutOthers(entries: seq<Pending>, peer: Host)
    ensures OthersOf(entries, peer, Without(entries, peer))
    decreases |entries|
  {
    if entries != [] {
      WithoutOthers(entries[1..], peer);
      WithoutFirst(entries, peer);
      var rest := Without(entries[1..], peer);
      assert Without(entries, peer) == if entries[0].peer == peer then rest else [entries[0]] + rest;
    }
  }

  lemma {:induction false} WithoutFirst(entries: seq<Pending>, peer: Host)
    requires entries != []
    ensures Without(entries, peer) == (if entries[0].peer == peer then [] else [entries[0]]) + Without(entries[1..], peer)
    decreases |entries|
  {
    if |entries| > 1 {
      var front := entries[..|entries| - 1];
      WithoutFirst(front, peer);
      assert front[1..] == entries[1..][..|entries| - 2];
    }
  }

  /** A tick sends each peer what is queued for it, in one message, and leaves
      nothing queued. */
  lemma TickAnswer(hosts: set<Host>, cacheSize: nat, cs: seq<Cluster>, ls: seq<Label>, k: nat, h: Host)
    requires IsRun(hosts, cacheSize, cs, ls) && k < |ls| && ls[k] == Label(h, LazyTick)
    ensures h in cs[k].nodes && h in cs[k + 1].nodes && cs[k + 1].nodes[h] == cs[k].nodes[h].(lazyQueue := map[])
    ensures forall q :: q in cs[k + 1].net <==>
              || q in cs[k].net
              || (q.src == h && q.msg.IHave? && q.msg.announcements != [] && QueueOf(cs[k].nodes[h], q.dst) == q.msg.announcements)
  {
    hide IsRun, NodeOk, PacketOk;
    RunLength(hosts, cacheSize, cs, ls);
    StepAt(hosts, cacheSize, cs, ls, k, h);
  }
}
