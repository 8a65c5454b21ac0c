/** A Plumtree broadcast can always get through: from every reachable state a new
    broadcast has a way along any path of links, eager and lazy ones alike. */
module PlumtreeReach {
  import opened Foundation
  import opened PlumtreeCore
  import opened PlumtreeCluster
  import opened PlumtreeSafety
  import opened PlumtreeCoverage
  import opened PlumtreeAnswers
  import opened PlumtreeAnnouncers

  // ----- continuing a run -----

  ghost function Last(cs: seq<Cluster>): Cluster
    requires cs != []
  {
    cs[|cs| - 1]
  }

  function Links(n: Node): set<Host> {
    n.eager + n.lazy
  }

  /** This label carries id on, or says something of it, and does nothing else. */
  predicate Serves(l: Label, id: MessageId) {
    match l.event
    case Receive(p) => p.msg.Gossip? ==> p.msg.id == id
    case MissingTimeout(_) => true
    case LazyTick => true
    case _ => false
  }

  /** The second run is the first one, taken further only to carry id on. */
  ghost predicate Carries(hosts: set<Host>, cacheSize: nat, cs: seq<Cluster>, ls: seq<Label>, cs2: seq<Cluster>, ls2: seq<Label>, id: MessageId) {
    && IsRun(hosts, cacheSize, cs, ls) && IsRun(hosts, cacheSize, cs2, ls2) && cs <= cs2 && ls <= ls2
    && |cs| == |ls| + 1 && |cs2| == |ls2| + 1 && Keeps(Last(cs), Last(cs2)) && Last(cs).net <= Last(cs2).net
    && Last(cs2).broadcasts == Last(cs).broadcasts
    && forall i | |ls| <= i < |ls2| :: Serves(ls2[i], id)
  }

  /** Whoever has id can still give it away. */
  ghost predicate AllCached(c: Cluster, id: MessageId) {
    forall h | Has(c, h, id) :: id in c.nodes[h].cache.items
  }

  lemma KeepsTrans(a: Cluster, b: Cluster, c: Cluster)
    requires Keeps(a, b) && Keeps(b, c)
    ensures Keeps(a, c)
  {
  }

  lemma ServeCached(n: Node, l: Label, id: MessageId)
    requires Serves(l, id) && n.cache.max > 0 && CacheOk(n.cache) && (id in n.received ==> id in n.cache.items)
    ensures var n2 := Handle(n, l.event).node; id in n2.received ==> id in n2.cache.items
  {
    hide OnIHave, LazyPush, EagerPush, CachePut, CacheOk, Announces;
    match l.event
    case Receive(p) =>
      if p.msg.IHave? { IHaveIs(n, p.msg.announcements, p.src, id); }
      if p.msg.Gossip? {
        CachePutOk(n.cache, id, p.msg.payload);
        PushKeepsCache(n, p);
      }
    case _ =>
  }

  lemma PushKeepsCache(n: Node, p: Packet)
    requires p.msg.Gossip?
    ensures Receipt(n, p).node.cache == if p.msg.id in n.received then n.cache else CachePut(n.cache, p.msg.id, p.msg.payload)
  {
    hide CachePut, EagerPush;
  }

  lemma MaxStep(n: Node, ev: Event)
    ensures Handle(n, ev).node.cache.max == n.cache.max
  {
    hide OnView, OnIHave, EagerPush, Without;
    match ev
    case View(peers) => ViewIs(n, peers);
    case Receive(p) => if p.msg.IHave? { IHaveIs(n, p.msg.announcements, p.src, MessageId(n.id, 0)); }
    case _ =>
  }

  lemma {:induction false} MaxAt(hosts: set<Host>, cacheSize: nat, cs: seq<Cluster>, ls: seq<Label>, k: nat)
    requires IsRun(hosts, cacheSize, cs, ls) && k < |cs|
    ensures cs[k].nodes.Keys == hosts && forall h | h in cs[k].nodes :: cs[k].nodes[h].cache.max == cacheSize
  {
    hide Handle;
    if k > 0 {
      MaxAt(hosts, cacheSize, cs, ls, k - 1);
      assert Enabled(cs[k - 1], ls[k - 1]) && cs[k - 1 + 1] == Step(cs[k - 1], ls[k - 1]);
      MaxStep(cs[k - 1].nodes[ls[k - 1].host], ls[k - 1].event);
    }
  }

  lemma StepCached(c: Cluster, l: Label, id: MessageId)
    requires Inv(c) && Enabled(c, l) && AllCached(c, id) && Serves(l, id) && c.nodes[l.host].cache.max > 0
    ensures AllCached(Step(c, l), id)
  {
    hide Handle, DeliveryOk, RepairOk, PacketOk, CacheOk, Serves;
    assert CacheOk(c.nodes[l.host].cache);
    assert Has(c, l.host, id) <==> id in c.nodes[l.host].received;
    ServeCached(c.nodes[l.host], l, id);
    forall h | Has(Step(c, l), h, id) ensures id in Step(c, l).nodes[h].cache.items {
      if h != l.host { assert Has(c, h, id); }
    }
  }

  lemma Take(hosts: set<Host>, cacheSize: nat, cs: seq<Cluster>, ls: seq<Label>, l: Label, id: MessageId)
      returns (cs2: seq<Cluster>, ls2: seq<Label>)
    requires IsRun(hosts, cacheSize, cs, ls) && cs != [] && Enabled(Last(cs), l) && Serves(l, id) && cacheSize > 0 && AllCached(Last(cs), id)
    ensures Carries(hosts, cacheSize, cs, ls, cs2, ls2, id) && AllCached(Last(cs2), id)
    ensures |ls2| == |ls| + 1 && ls2[|ls|] == l && cs2[|ls|] == Last(cs)
  {
    hide Inv, AllCached;
    cs2, ls2 := cs + [Step(Last(cs), l)], ls + [l];
    Extended(hosts, cacheSize, cs, ls, l);
    hide Step;
    RunLength(hosts, cacheSize, cs, ls);
    hide IsRun;
    RunInv(hosts, cacheSize, cs, ls, |ls|);
    MaxAt(hosts, cacheSize, cs, ls, |ls|);
    StepCached(Last(cs), l, id);
    StepKeeps(Last(cs), l);
  }

  lemma Extended(hosts: set<Host>, cacheSize: nat, cs: seq<Cluster>, ls: seq<Label>, l: Label)
    requires IsRun(hosts, cacheSize, cs, ls) && cs != [] && Enabled(Last(cs), l)
    ensures IsRun(hosts, cacheSize, cs + [Step(Last(cs), l)], ls + [l])
  {
    hide Step, Enabled, Init;
  }

  lemma CarriesTrans(hosts: set<Host>, cacheSize: nat, cs: seq<Cluster>, ls: seq<Label>, cs1: seq<Cluster>, ls1: seq<Label>,
                     cs2: seq<Cluster>, ls2: seq<Label>, id: MessageId)
    requires Carries(hosts, cacheSize, cs, ls, cs1, ls1, id) && Carries(hosts, cacheSize, cs1, ls1, cs2, ls2, id)
    ensures Carries(hosts, cacheSize, cs, ls, cs2, ls2, id)
  {
    hide IsRun, Serves;
    KeepsTrans(Last(cs), Last(cs1), Last(cs2));
  }

  // ----- one hop -----

  /** b is handed the message. */
  lemma Handed(hosts: set<Host>, cacheSize: nat, cs: seq<Cluster>, ls: seq<Label>, q: Packet, id: MessageId)
      returns (cs2: seq<Cluster>, ls2: seq<Label>)
    requires IsRun(hosts, cacheSize, cs, ls) && cs != [] && cacheSize > 0 && AllCached(Last(cs), id)
    requires q in Last(cs).net && q.dst in Last(cs).nodes && q.msg.Gossip? && q.msg.id == id
    ensures Carries(hosts, cacheSize, cs, ls, cs2, ls2, id) && AllCached(Last(cs2), id) && Has(Last(cs2), q.dst, id)
  {
    hide IsRun, AllCached, TakenIn;
    cs2, ls2 := Take(hosts, cacheSize, cs, ls, Label(q.dst, Receive(q)), id);
    var sent := GossipAnswer(hosts, cacheSize, cs2, ls2, |ls|, q.dst, q.src, id, q.msg.round, q.msg.payload);
    var n, round := Last(cs).nodes[q.dst], (q.msg.round + 1) % 0x1_0000_0000;
    if id !in n.received { TakenHas(n, id, q.msg.payload, q.src, round, Last(cs2).nodes[q.dst], sent); }
  }

  lemma TakenHas(n: Node, id: MessageId, payload: Bytes, from: Host, round: nat, n2: Node, sent: set<Packet>)
    requires TakenIn(n, id, payload, from, round, n2, sent)
    ensures id in n2.received
  {
  }

  lemma {:induction false} SomeRecord(anns: seq<Announce>, id: MessageId, from: Host)
    requires Announces(anns, id)
    ensures RecordsOf(anns, id, from) != []
  {
    var front, a := anns[..|anns| - 1], anns[|anns| - 1];
    assert front + [a] == anns;
    AnnouncesSplit(front, a, id);
    if a.id != id { SomeRecord(front, id, from); }
  }

  /** b, which lacks the message, is told of it: it has someone to ask, and its
      timer is armed. */
  lemma Alerted(hosts: set<Host>, cacheSize: nat, cs: seq<Cluster>, ls: seq<Label>, q: Packet, id: MessageId)
      returns (cs2: seq<Cluster>, ls2: seq<Label>)
    requires IsRun(hosts, cacheSize, cs, ls) && cs != [] && cacheSize > 0 && AllCached(Last(cs), id)
    requires q in Last(cs).net && q.dst in Last(cs).nodes && q.msg.IHave? && Announces(q.msg.announcements, id) && !Has(Last(cs), q.dst, id)
    ensures Carries(hosts, cacheSize, cs, ls, cs2, ls2, id) && AllCached(Last(cs2), id) && q.dst in Last(cs2).nodes
    ensures var n := Last(cs2).nodes[q.dst]; Announcers(n, id) != [] && id in n.timers && id !in n.received
  {
    hide IsRun, AllCached, Announces;
    cs2, ls2 := Take(hosts, cacheSize, cs, ls, Label(q.dst, Receive(q)), id);
    IHaveAnswer(hosts, cacheSize, cs2, ls2, |ls|, q.dst, q.src, q.msg.announcements, id);
    SomeRecord(q.msg.announcements, id, q.src);
  }

  /** b asks the first announcer on record, which has the message and sends it. */
  lemma Repaired(hosts: set<Host>, cacheSize: nat, cs: seq<Cluster>, ls: seq<Label>, b: Host, id: MessageId)
      returns (cs2: seq<Cluster>, ls2: seq<Label>)
    requires IsRun(hosts, cacheSize, cs, ls) && cs != [] && cacheSize > 0 && AllCached(Last(cs), id) && b in Last(cs).nodes
    requires var n := Last(cs).nodes[b]; Announcers(n, id) != [] && id in n.timers && id !in n.received
    ensures Carries(hosts, cacheSize, cs, ls, cs2, ls2, id) && AllCached(Last(cs2), id) && Has(Last(cs2), b, id)
  {
    hide IsRun, Serves;
    RunLength(hosts, cacheSize, cs, ls);
    var e := Announcers(Last(cs).nodes[b], id)[0];
    var graft := Packet(b, e.peer, Graft(id, e.round));
    AnnouncersHave(hosts, cacheSize, cs, ls, |ls|, b, id, e, graft);
    var cs1, ls1 := Take(hosts, cacheSize, cs, ls, Label(b, MissingTimeout(id)), id) by { ServesThese(b, id, graft); }
    TimeoutAnswer(hosts, cacheSize, cs1, ls1, |ls|, b, id);
    HasStays(Last(cs), Last(cs1), e.peer, id);
    assert id in Last(cs1).nodes[e.peer].cache.items;
    var cs3, ls3 := Take(hosts, cacheSize, cs1, ls1, Label(e.peer, Receive(graft)), id) by { ServesThese(e.peer, id, graft); }
    GraftAnswer(hosts, cacheSize, cs3, ls3, |ls1|, e.peer, b, id, e.round);
    var reply := Packet(e.peer, b, Gossip(id, e.round, Last(cs1).nodes[e.peer].cache.items[id]));
    CarriesTrans(hosts, cacheSize, cs, ls, cs1, ls1, cs3, ls3, id);
    cs2, ls2 := Handed(hosts, cacheSize, cs3, ls3, reply, id);
    CarriesTrans(hosts, cacheSize, cs, ls, cs3, ls3, cs2, ls2, id);
  }

  lemma ServesThese(h: Host, id: MessageId, graft: Packet)
    requires graft.msg.Graft?
    ensures Serves(Label(h, MissingTimeout(id)), id) && Serves(Label(h, Receive(graft)), id) && Serves(Label(h, LazyTick), id)
  {
  }

  /** Whatever a has sent b of the message, b can get it. */
  lemma FromPacket(hosts: set<Host>, cacheSize: nat, cs: seq<Cluster>, ls: seq<Label>, q: Packet, id: MessageId)
      returns (cs2: seq<Cluster>, ls2: seq<Label>)
    requires IsRun(hosts, cacheSize, cs, ls) && cs != [] && cacheSize > 0 && AllCached(Last(cs), id)
    requires q in Last(cs).net && q.dst in Last(cs).nodes && TellsOf(q.msg, id) && !Has(Last(cs), q.dst, id)
    ensures Carries(hosts, cacheSize, cs, ls, cs2, ls2, id) && AllCached(Last(cs2), id) && Has(Last(cs2), q.dst, id)
  {
    hide IsRun, AllCached, Serves, Announces;
    if q.msg.Gossip? {
      cs2, ls2 := Handed(hosts, cacheSize, cs, ls, q, id);
    } else {
      var cs1, ls1 := Alerted(hosts, cacheSize, cs, ls, q, id);
      cs2, ls2 := Repaired(hosts, cacheSize, cs1, ls1, q.dst, id);
      CarriesTrans(hosts, cacheSize, cs, ls, cs1, ls1, cs2, ls2, id);
    }
  }

  /** Whatever a has sent b of the message or queued for it, b can get it. */
  lemma Hop(hosts: set<Host>, cacheSize: nat, cs: seq<Cluster>, ls: seq<Label>, a: Host, b: Host, id: MessageId)
      returns (cs2: seq<Cluster>, ls2: seq<Label>)
    requires IsRun(hosts, cacheSize, cs, ls) && cs != [] && cacheSize > 0 && AllCached(Last(cs), id)
    requires b in Last(cs).nodes && !Has(Last(cs), b, id) && Told(Last(cs), a, b, id)
    ensures Carries(hosts, cacheSize, cs, ls, cs2, ls2, id) && AllCached(Last(cs2), id) && Has(Last(cs2), b, id)
  {
    hide IsRun, AllCached, Serves, TellsOf, Announces;
    var s := Last(cs);
    if SentTo(s.net, a, b, id) {
      var q :| q in s.net && q.src == a && q.dst == b && TellsOf(q.msg, id);
      cs2, ls2 := FromPacket(hosts, cacheSize, cs, ls, q, id);
    } else {
      var cs1, ls1, q := Flushed(hosts, cacheSize, cs, ls, a, b, id);
      cs2, ls2 := FromPacket(hosts, cacheSize, cs1, ls1, q, id);
      CarriesTrans(hosts, cacheSize, cs, ls, cs1, ls1, cs2, ls2, id);
    }
  }

  lemma Flushed(hosts: set<Host>, cacheSize: nat, cs: seq<Cluster>, ls: seq<Label>, a: Host, b: Host, id: MessageId)
      returns (cs2: seq<Cluster>, ls2: seq<Label>, q: Packet)
    requires IsRun(hosts, cacheSize, cs, ls) && cs != [] && cacheSize > 0 && AllCached(Last(cs), id)
    requires a in Last(cs).nodes && b in Last(cs).nodes && !Has(Last(cs), b, id) && Queued(Last(cs).nodes[a], b, id)
    ensures Carries(hosts, cacheSize, cs, ls, cs2, ls2, id) && AllCached(Last(cs2), id)
    ensures q in Last(cs2).net && q.dst == b && b in Last(cs2).nodes && TellsOf(q.msg, id) && !Has(Last(cs2), b, id)
  {
    hide IsRun, AllCached;
    var s := Last(cs);
    q := Packet(a, b, IHave(s.nodes[a].lazyQueue[b]));
    cs2, ls2 := Take(hosts, cacheSize, cs, ls, Label(a, LazyTick), id);
    TickAnswer(hosts, cacheSize, cs2, ls2, |ls|, a);
    if b != a { OtherSame(hosts, cacheSize, cs2, ls2, |ls|, b); }
  }

  lemma OtherSame(hosts: set<Host>, cacheSize: nat, cs: seq<Cluster>, ls: seq<Label>, k: nat, h: Host)
    requires IsRun(hosts, cacheSize, cs, ls) && k < |ls| && h in cs[k].nodes && ls[k].host != h
    ensures h in cs[k + 1].nodes && cs[k + 1].nodes[h] == cs[k].nodes[h]
  {
    hide Handle;
  }

  // ----- a path -----

  lemma LinkStep(n: Node, ev: Event)
    requires !ev.NeighborDown?
    ensures Links(n) <= Links(Handle(n, ev).node)
  {
    hide OnView, OnIHave, EagerPush, CachePut;
    match ev
    case View(peers) => ViewIs(n, peers);
    case Receive(p) => if p.msg.IHave? { IHaveIs(n, p.msg.announcements, p.src, MessageId(n.id, 0)); }
    case _ =>
  }

  lemma {:induction false} LinksRise(hosts: set<Host>, cacheSize: nat, cs: seq<Cluster>, ls: seq<Label>, i: nat, j: nat, h: Host)
    requires IsRun(hosts, cacheSize, cs, ls) && i <= j < |cs| && h in cs[i].nodes && forall x | i <= x < j :: !ls[x].event.NeighborDown?
    ensures h in cs[j].nodes && Links(cs[i].nodes[h]) <= Links(cs[j].nodes[h])
    decreases j
  {
    hide Handle, Links;
    if i < j {
      LinksRise(hosts, cacheSize, cs, ls, i, j - 1, h);
      assert Enabled(cs[j - 1], ls[j - 1]) && cs[j - 1 + 1] == Step(cs[j - 1], ls[j - 1]);
      if ls[j - 1].host == h { LinkStep(cs[j - 1].nodes[h], ls[j - 1].event); }
    }
  }

  lemma {:induction false} HasRises(hosts: set<Host>, cacheSize: nat, cs: seq<Cluster>, ls: seq<Label>, i: nat, j: nat, h: Host, id: MessageId)
    requires IsRun(hosts, cacheSize, cs, ls) && i <= j < |cs| && Has(cs[i], h, id)
    ensures Has(cs[j], h, id)
    decreases j
  {
    hide Step, Enabled, Has, Keeps;
    if i < j {
      HasRises(hosts, cacheSize, cs, ls, i, j - 1, h, id);
      assert Enabled(cs[j - 1], ls[j - 1]) && cs[j - 1 + 1] == Step(cs[j - 1], ls[j - 1]);
      StepKeeps(cs[j - 1], ls[j - 1]);
      HasStays(cs[j - 1], cs[j], h, id);
    }
  }

  lemma {:induction false} FirstReceipt(hosts: set<Host>, cacheSize: nat, cs: seq<Cluster>, ls: seq<Label>, i: nat, j: nat, h: Host, id: MessageId)
      returns (m: nat)
    requires IsRun(hosts, cacheSize, cs, ls) && i <= j < |cs| && !Has(cs[i], h, id) && Has(cs[j], h, id)
    ensures i <= m < j && !Has(cs[m], h, id) && Has(cs[m + 1], h, id)
    decreases j
  {
    hide IsRun, Has;
    if Has(cs[j - 1], h, id) {
      m := FirstReceipt(hosts, cacheSize, cs, ls, i, j - 1, h, id);
    } else {
      m := j - 1;
    }
  }

  /** Whoever a had the message from has it. */
  lemma SenderHas(hosts: set<Host>, cacheSize: nat, cs: seq<Cluster>, ls: seq<Label>, m: nat, a: Host, id: MessageId)
    requires IsRun(hosts, cacheSize, cs, ls) && m < |ls| && a in cs[m].nodes && !Has(cs[m], a, id) && Has(cs[m + 1], a, id)
    ensures SenderOf(ls[m]) == a || Has(cs[m], SenderOf(ls[m]), id)
  {
    hide Handle, Inv, BroughtBy;
    assert Enabled(cs[m], ls[m]) && cs[m + 1] == Step(cs[m], ls[m]);
    assert ls[m].host == a;
    ReceivedStep(cs[m].nodes[a], ls[m].event, id);
    if ls[m].event.Receive? {
      BroughtIsGossip(cs[m].nodes[a], ls[m].event, id);
      AnnouncersHave(hosts, cacheSize, cs, ls, m, a, id, Pending(a, 0), ls[m].event.packet);
    }
  }

  lemma BroughtIsGossip(n: Node, ev: Event, id: MessageId)
    requires BroughtBy(n, ev, id) && ev.Receive?
    ensures TellsOf(ev.packet.msg, id)
  {
  }

  /** A link of whoever has the message can get it. */
  lemma ReachNext(hosts: set<Host>, cacheSize: nat, cs: seq<Cluster>, ls: seq<Label>, k0: nat, a: Host, b: Host, id: MessageId)
      returns (cs2: seq<Cluster>, ls2: seq<Label>)
    requires IsRun(hosts, cacheSize, cs, ls) && |cs| == |ls| + 1 && k0 <= |ls| && cacheSize > 0 && AllCached(Last(cs), id)
    requires forall x | k0 <= x < |ls| :: !ls[x].event.NeighborDown?
    requires a in cs[k0].nodes && !Has(cs[k0], a, id) && Has(Last(cs), a, id)
    requires b in Links(cs[k0].nodes[a]) && a != b && b in Last(cs).nodes
    ensures Carries(hosts, cacheSize, cs, ls, cs2, ls2, id) && AllCached(Last(cs2), id) && Has(Last(cs2), b, id)
  {
    hide IsRun, AllCached, Told, Serves;
    if Has(Last(cs), b, id) {
      cs2, ls2 := cs, ls;
    } else {
      var m := FirstReceipt(hosts, cacheSize, cs, ls, k0, |ls|, a, id);
      LinksRise(hosts, cacheSize, cs, ls, k0, m, a);
      SenderHas(hosts, cacheSize, cs, ls, m, a, id);
      if SenderOf(ls[m]) == b { HasRises(hosts, cacheSize, cs, ls, m, |ls|, b, id); }
      LinksAreTold(hosts, cacheSize, cs, ls, m, |ls|, a, id, b);
      cs2, ls2 := Hop(hosts, cacheSize, cs, ls, a, b, id);
    }
  }

  /** Each host is followed by one of its links. */
  predicate IsPath(c: Cluster, path: seq<Host>) {
    && path != [] && (forall h | h in path :: h in c.nodes)
    && forall i | 0 <= i < |path| - 1 :: path[i + 1] != path[i] && path[i + 1] in Links(c.nodes[path[i]])
  }

  lemma {:induction false} Along(hosts: set<Host>, cacheSize: nat, cs: seq<Cluster>, ls: seq<Label>, k0: nat, path: seq<Host>, id: MessageId)
      returns (cs2: seq<Cluster>, ls2: seq<Label>)
    requires IsRun(hosts, cacheSize, cs, ls) && |cs| == |ls| + 1 && k0 <= |ls| && cacheSize > 0 && AllCached(Last(cs), id)
    requires forall x | k0 <= x < |ls| :: !ls[x].event.NeighborDown?
    requires IsPath(cs[k0], path) && (forall h | h in cs[k0].nodes :: !Has(cs[k0], h, id)) && Has(Last(cs), path[0], id)
    ensures Carries(hosts, cacheSize, cs, ls, cs2, ls2, id) && forall h | h in path :: Has(Last(cs2), h, id)
    decreases |path|
  {
    hide IsRun, AllCached, Has, Links;
    if |path| == 1 {
      cs2, ls2 := cs, ls;
    } else {
      var rest := path[1..];
      assert path[0 + 1] in Links(cs[k0].nodes[path[0]]);
      MaxAt(hosts, cacheSize, cs, ls, k0);
      MaxAt(hosts, cacheSize, cs, ls, |ls|);
      var cs1, ls1 := ReachNext(hosts, cacheSize, cs, ls, k0, path[0], path[1], id);
      NoneDown(ls, ls1, k0, id);
      PathRest(cs[k0], path);
      cs2, ls2 := Along(hosts, cacheSize, cs1, ls1, k0, rest, id);
      CarriesTrans(hosts, cacheSize, cs, ls, cs1, ls1, cs2, ls2, id);
      forall h | h in path ensures Has(Last(cs2), h, id) {
        if h == path[0] { HasStays(Last(cs), Last(cs2), h, id); } else { assert h in rest; }
      }
    }
  }

  lemma PathRest(c: Cluster, path: seq<Host>)
    requires IsPath(c, path) && |path| > 1
    ensures IsPath(c, path[1..])
  {
    var rest := path[1..];
    forall i | 0 <= i < |rest| - 1 ensures rest[i + 1] != rest[i] && rest[i + 1] in Links(c.nodes[rest[i]]) {
      assert path[(i + 1) + 1] != path[i + 1] && path[(i + 1) + 1] in Links(c.nodes[path[i + 1]]);
    }
  }

  lemma NoneDown(ls: seq<Label>, ls1: seq<Label>, k0: nat, id: MessageId)
    requires ls <= ls1 && (forall x | k0 <= x < |ls| :: !ls[x].event.NeighborDown?) && forall i | |ls| <= i < |ls1| :: Serves(ls1[i], id)
    ensures forall x | k0 <= x < |ls1| :: !ls1[x].event.NeighborDown?
  {
  }

  // ----- a broadcast -----

  /** The number a node gives its next broadcast is new to everyone. */
  lemma NextIsNew(c: Cluster, h: Host, x: Host)
    requires Inv(c) && h in c.nodes && x in c.nodes
    ensures !Has(c, x, MessageId(h, c.nodes[h].seqNo + 1))
  {
    hide StoreOk, RepairOk, PacketOk;
    var id := MessageId(h, c.nodes[h].seqNo + 1);
    if id in c.nodes[x].received { ReceivedIsKnown(c.broadcasts, c.nodes[x], id); }
  }

  lemma Start(hosts: set<Host>, cacheSize: nat, cs: seq<Cluster>, ls: seq<Label>, h: Host, payload: Bytes)
      returns (cs2: seq<Cluster>, ls2: seq<Label>, id: MessageId)
    requires IsRun(hosts, cacheSize, cs, ls) && |cs| == |ls| + 1 && cacheSize > 0 && h in Last(cs).nodes
    ensures IsRun(hosts, cacheSize, cs2, ls2) && cs2 == cs + [Last(cs2)] && ls2 == ls + [Label(h, Broadcast(payload))] && |cs2| == |ls2| + 1
    ensures id == MessageId(h, Last(cs).nodes[h].seqNo + 1) && Has(Last(cs2), h, id) && AllCached(Last(cs2), id)
    ensures (forall x | x in Last(cs).nodes :: !Has(Last(cs), x, id)) && id in Last(cs2).broadcasts && Last(cs2).broadcasts[id] == payload
  {
    hide Handle, Inv;
    var l := Label(h, Broadcast(payload));
    id := MessageId(h, Last(cs).nodes[h].seqNo + 1);
    Extended(hosts, cacheSize, cs, ls, l);
    cs2, ls2 := cs + [Step(Last(cs), l)], ls + [l];
    RunInv(hosts, cacheSize, cs, ls, |ls|);
    MaxAt(hosts, cacheSize, cs, ls, |ls|);
    forall x | x in Last(cs).nodes ensures !Has(Last(cs), x, id) { NextIsNew(Last(cs), h, x); }
    var sent := BroadcastAnswer(hosts, cacheSize, cs2, ls2, |ls|, h, payload);
    NotCached(Last(cs), h, id);
    TakenHas(Last(cs).nodes[h], id, payload, h, 0, Last(cs2).nodes[h], sent);
    forall x | Has(Last(cs2), x, id) ensures id in Last(cs2).nodes[x].cache.items {
      assert x == h || !Has(Last(cs), x, id);
    }
  }

  lemma NotCached(c: Cluster, h: Host, id: MessageId)
    requires Inv(c) && h in c.nodes && !Has(c, h, id)
    ensures id !in c.nodes[h].cache.items
  {
    hide DeliveryOk, RepairOk, PacketOk, CacheOk;
    assert NodeOk(c.broadcasts, c.nodes[h]);
  }

  /** h has delivered this payload under this id. */
  ghost predicate HasDelivered(c: Cluster, h: Host, id: MessageId, payload: Bytes) {
    h in c.nodes && exists from :: Delivered(id, payload, from) in c.nodes[h].delivered
  }

  lemma HasIsDelivered(c: Cluster, h: Host, id: MessageId)
    requires Inv(c) && Has(c, h, id)
    ensures id in c.broadcasts && HasDelivered(c, h, id, c.broadcasts[id])
  {
    hide StoreOk, RepairOk, PacketOk;
    var ds := c.nodes[h].delivered;
    assert NodeOk(c.broadcasts, c.nodes[h]);
    var i :| 0 <= i < |Ids(ds)| && Ids(ds)[i] == id;
    assert ds[i] == Delivered(id, c.broadcasts[id], ds[i].from);
  }

  /** From every reachable state, and for any path of links, there is a way on in
      which the first host broadcasts a payload, no neighbour goes down, and every
      host along the path delivers it. */
  lemma CanReach(hosts: set<Host>, cacheSize: nat, cs: seq<Cluster>, ls: seq<Label>, path: seq<Host>, payload: Bytes)
      returns (cs2: seq<Cluster>, ls2: seq<Label>, id: MessageId)
    requires IsRun(hosts, cacheSize, cs, ls) && cs != [] && cacheSize > 0 && IsPath(Last(cs), path)
    ensures IsRun(hosts, cacheSize, cs2, ls2) && cs <= cs2 && |ls2| > |ls| && ls <= ls2 && cs2 != []
    ensures ls2[|ls|] == Label(path[0], Broadcast(payload)) && forall x | |ls| < x < |ls2| :: Serves(ls2[x], id)
    ensures forall h | h in path :: HasDelivered(Last(cs2), h, id, payload)
  {
    hide IsRun, AllCached, HasDelivered, Serves, Links, Inv;
    RunLength(hosts, cacheSize, cs, ls);
    assert path[0] in path;
    var cs1, ls1;
    cs1, ls1, id := Start(hosts, cacheSize, cs, ls, path[0], payload);
    assert cs1[|ls|] == Last(cs);
    cs2, ls2 := Along(hosts, cacheSize, cs1, ls1, |ls|, path, id);
    RunInv(hosts, cacheSize, cs2, ls2, |ls2|);
    forall h | h in path ensures HasDelivered(Last(cs2), h, id, payload) {
      HasIsDelivered(Last(cs2), h, id);
    }
  }
}
