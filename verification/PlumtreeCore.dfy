/** A Plumtree node as a pure state machine, one function per handler. */
module PlumtreeCore {
  import opened Foundation

  /** A broadcast is named by its origin and the origin's own counter. */
  datatype MessageId = MessageId(origin: Host, seqNo: nat)

  datatype Announce = Announce(id: MessageId, round: nat)

  datatype Message =
    | Gossip(id: MessageId, round: nat, payload: Bytes)
    | IHave(announcements: seq<Announce>)
    | Graft(id: MessageId, round: nat)
    | Prune

  datatype Packet = Packet(src: Host, dst: Host, msg: Message)

  datatype Delivered = Delivered(id: MessageId, payload: Bytes, from: Host)

  /** A recorded IHAVE: who announced the message and at what round. */
  datatype Pending = Pending(peer: Host, round: nat)

  // ----- the payload cache -----

  /** A bounded FIFO store; `order` is the insertion order of the keys. */
  datatype Cache = Cache(max: nat, items: map<MessageId, Bytes>, order: seq<MessageId>)

  /** The first copy of a payload is kept; past the cap the oldest goes. */
  function CachePut(c: Cache, id: MessageId, payload: Bytes): Cache {
    if id in c.items then c
    else
      var items, order := c.items[id := payload], c.order + [id];
      if |order| > c.max then Cache(c.max, items - {order[0]}, order[1..]) else Cache(c.max, items, order)
  }

  ghost predicate CacheOk(c: Cache) {
    NoDuplicates(c.order) && Elements(c.order) == c.items.Keys && |c.order| <= c.max
  }

  // ----- the node -----

  /** `timers` are the ids with an armed GRAFT timer, `delivered` everything
      published to the application. */
  datatype Node = Node(
    id: Host,
    eager: set<Host>,
    lazy: set<Host>,
    received: set<MessageId>,
    cache: Cache,
    missing: map<MessageId, seq<Pending>>,
    timers: set<MessageId>,
    lazyQueue: map<Host, seq<Announce>>,
    seqNo: nat,
    duplicates: nat,
    delivered: seq<Delivered>)

  datatype Outcome = Outcome(node: Node, sent: set<Packet>)

  function New(id: Host, cacheSize: nat): Node {
    Node(id, {}, {}, {}, Cache(cacheSize, map[], []), map[], {}, map[], 0, 0, [])
  }

  function MakeEager(n: Node, peer: Host): Node {
    n.(eager := n.eager + {peer}, lazy := n.lazy - {peer})
  }

  function MakeLazy(n: Node, peer: Host): Node {
    n.(eager := n.eager - {peer}, lazy := n.lazy + {peer})
  }

  // ----- membership -----

  function OnNeighborUp(n: Node, peer: Host): Node {
    if peer == n.id then n else MakeEager(n, peer)
  }

  /** The membership's initial view: every peer starts eager. */
  function OnView(n: Node, peers: seq<Host>): Node {
    if peers == [] then n else MakeEager(OnView(n, peers[..|peers| - 1]), peers[|peers| - 1])
  }

  function Without(entries: seq<Pending>, peer: Host): seq<Pending> {
    if entries == [] then []
    else
      var rest := Without(entries[..|entries| - 1], peer);
      if entries[|entries| - 1].peer != peer then rest + [entries[|entries| - 1]] else rest
  }

  function OnNeighborDown(n: Node, peer: Host): Node {
    n.(eager := n.eager - {peer}, lazy := n.lazy - {peer}, lazyQueue := n.lazyQueue - {peer},
       missing := map id | id in n.missing && Without(n.missing[id], peer) != [] :: Without(n.missing[id], peer),
       timers := set id | id in n.timers && (id in n.missing ==> Without(n.missing[id], peer) != []))
  }

  // ----- pushing -----

  function EagerPush(n: Node, id: MessageId, payload: Bytes, round: nat, except: Host): set<Packet> {
    set p | p in n.eager && p != except :: Packet(n.id, p, Gossip(id, round, payload))
  }

  function QueueFor(q: map<Host, seq<Announce>>, peer: Host): seq<Announce> {
    if peer in q then q[peer] else []
  }

  /** One more announcement in the queue of each of the peers. */
  function QueueAll(q: map<Host, seq<Announce>>, peers: set<Host>, a: Announce): map<Host, seq<Announce>> {
    map p | p in q.Keys + peers :: if p in peers then QueueFor(q, p) + [a] else QueueFor(q, p)
  }

  function LazyPush(n: Node, id: MessageId, round: nat, except: Host): Node {
    n.(lazyQueue := QueueAll(n.lazyQueue, n.lazy - {except}, Announce(id, round)))
  }

  /** Recording a message as seen and publishing it. */
  function Deliver(n: Node, id: MessageId, payload: Bytes, from: Host): Node {
    n.(received := n.received + {id}, cache := CachePut(n.cache, id, payload),
       delivered := n.delivered + [Delivered(id, payload, from)])
  }

  function CancelMissing(n: Node, id: MessageId): Node {
    n.(timers := n.timers - {id}, missing := n.missing - {id})
  }

  function HandleBroadcast(n: Node, payload: Bytes): Outcome {
    var id := MessageId(n.id, n.seqNo + 1);
    var n1 := Deliver(n.(seqNo := n.seqNo + 1), id, payload, n.id);
    Outcome(LazyPush(n1, id, 0, n.id), EagerPush(n1, id, payload, 0, n.id))
  }

  function NextRound(round: nat): nat {
    (round + 1) % 0x1_0000_0000
  }

  function OnGossip(n: Node, id: MessageId, round: nat, payload: Bytes, from: Host): Outcome {
    if id in n.received then
      Outcome(MakeLazy(n.(duplicates := n.duplicates + 1), from), {Packet(n.id, from, Prune)})
    else
      var n1 := MakeEager(CancelMissing(Deliver(n, id, payload, from), id), from);
      Outcome(LazyPush(n1, id, NextRound(round), from), EagerPush(n1, id, payload, NextRound(round), from))
  }

  // ----- repair -----

  function EntriesFor(n: Node, id: MessageId): seq<Pending> {
    if id in n.missing then n.missing[id] else []
  }

  function OnAnnounce(n: Node, a: Announce, from: Host): Node {
    if a.id in n.received then n
    else n.(missing := n.missing[a.id := EntriesFor(n, a.id) + [Pending(from, a.round)]], timers := n.timers + {a.id})
  }

  function OnIHave(n: Node, anns: seq<Announce>, from: Host): Node {
    if anns == [] then n else OnAnnounce(OnIHave(n, anns[..|anns| - 1], from), anns[|anns| - 1], from)
  }

  function OnGraft(n: Node, id: MessageId, round: nat, from: Host): Outcome {
    var n1 := MakeEager(n, from);
    Outcome(n1, if id in n1.cache.items then {Packet(n.id, from, Gossip(id, round, n1.cache.items[id]))} else {})
  }

  function OnPrune(n: Node, from: Host): Node {
    MakeLazy(n, from)
  }

  function OnMissingTimeout(n: Node, id: MessageId): Outcome {
    var n1 := n.(timers := n.timers - {id});
    if id in n.received then Outcome(n1.(missing := n1.missing - {id}), {})
    else if EntriesFor(n, id) == [] then Outcome(n1, {})
    else
      var first := n.missing[id][0];
      var n2 := n1.(missing := n1.missing[id := n.missing[id][1..]], timers := n1.timers + {id});
      Outcome(MakeEager(n2, first.peer), {Packet(n.id, first.peer, Graft(id, first.round))})
  }

  function FlushLazy(n: Node): Outcome {
    Outcome(n.(lazyQueue := map[]),
            set p | p in n.lazyQueue && n.lazyQueue[p] != [] :: Packet(n.id, p, IHave(n.lazyQueue[p])))
  }
}
