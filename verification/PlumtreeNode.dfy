/** The Plumtree node as it is written: handlers that update link sets, records
    and queues in place. Each is proved to compute the function of PlumtreeCore
    that the delivery theorems are about. */
module PlumtreeNode {
  import opened Foundation
  import opened PlumtreeCore

  class PayloadCache {
    const max: nat
    var items: map<MessageId, Bytes>
    var order: seq<MessageId>

    constructor (size: nat)
      ensures State() == Cache(size, map[], [])
    {
      max, items, order := size, map[], [];
    }

    function State(): Cache
      reads this
    {
      Cache(max, items, order)
    }

    method Put(id: MessageId, payload: Bytes)
      modifies this
      ensures State() == CachePut(old(State()), id, payload)
    {
      if id in items { return; }
      items := items[id := payload];
      order := order + [id];
      if |order| > max {
        var oldest := order[0];
        order := order[1..];
        items := items - {oldest};
      }
    }

    method Get(id: MessageId) returns (r: Option<Bytes>)
      ensures r == if id in items then Some(items[id]) else None
    {
      r := if id in items then Some(items[id]) else None;
    }
  }

  method FilterOut(entries: seq<Pending>, peer: Host) returns (kept: seq<Pending>)
    ensures kept == Without(entries, peer)
  {
    kept := [];
    var i := 0;
    while i < |entries|
      invariant 0 <= i <= |entries| && kept == Without(entries[..i], peer)
    {
      assert entries[..i + 1][..i] == entries[..i];
      if entries[i].peer != peer { kept := kept + [entries[i]]; }
      i := i + 1;
    }
    assert entries[..i] == entries;
  }

  class Tree {
    const id: Host
    const cache: PayloadCache
    const net: Outbox<Packet>
    var eager: set<Host>
    var lazy: set<Host>
    var received: set<MessageId>
    var missing: map<MessageId, seq<Pending>>
    var timers: set<MessageId>
    var lazyQueue: map<Host, seq<Announce>>
    var seqNo: nat
    var duplicates: nat
    var delivered: seq<Delivered>

    function View(): Node
      reads this, cache
    {
      Node(id, eager, lazy, received, cache.State(), missing, timers, lazyQueue, seqNo, duplicates, delivered)
    }

    /** The object is exactly in state n. */
    ghost predicate Is(n: Node)
      reads this, cache
    {
      && id == n.id && eager == n.eager && lazy == n.lazy && received == n.received && cache.State() == n.cache
      && missing == n.missing && timers == n.timers && lazyQueue == n.lazyQueue && seqNo == n.seqNo
      && duplicates == n.duplicates && delivered == n.delivered
    }

    constructor (self: Host, cacheSize: nat)
      ensures fresh(cache) && fresh(net) && net.sent == {} && Is(New(self, cacheSize))
    {
      id, eager, lazy, received := self, {}, {}, {};
      missing, timers, lazyQueue, seqNo, duplicates, delivered := map[], {}, map[], 0, 0, [];
      cache := new PayloadCache(cacheSize);
      net := new Outbox<Packet>();
    }

    // ----- links -----

    method LinkEager(ghost n: Node, peer: Host)
      requires Is(n)
      modifies this`eager, this`lazy
      ensures Is(MakeEager(n, peer))
    {
      eager := eager + {peer};
      lazy := lazy - {peer};
    }

    method LinkLazy(ghost n: Node, peer: Host)
      requires Is(n)
      modifies this`eager, this`lazy
      ensures Is(MakeLazy(n, peer))
    {
      eager := eager - {peer};
      lazy := lazy + {peer};
    }

    method NeighborUp(peer: Host)
      modifies this`eager, this`lazy
      ensures Is(OnNeighborUp(old(View()), peer))
    {
      if peer == id { return; }
      LinkEager(View(), peer);
    }

    method ReceiveView(peers: seq<Host>)
      modifies this`eager, this`lazy
      ensures Is(OnView(old(View()), peers))
    {
      ghost var n := View();
      var i := 0;
      while i < |peers|
        invariant 0 <= i <= |peers| && Is(OnView(n, peers[..i]))
      {
        assert peers[..i + 1][..i] == peers[..i];
        LinkEager(OnView(n, peers[..i]), peers[i]);
        i := i + 1;
      }
      assert peers[..i] == peers;
    }

    /** Drops a dead peer from every outstanding IHAVE record, giving up on the
        messages nobody else announced. */
    method ForgetAnnouncer(peer: Host)
      modifies this`missing, this`timers
      ensures missing == map x | x in old(missing) && Without(old(missing)[x], peer) != [] :: Without(old(missing)[x], peer)
      ensures timers == set x | x in old(timers) && (x in old(missing) ==> Without(old(missing)[x], peer) != [])
    {
      var todo := missing.Keys;
      while todo != {}
        invariant todo <= old(missing).Keys
        invariant forall x :: x in missing <==> x in old(missing) && (x in todo || Without(old(missing)[x], peer) != [])
        invariant forall x | x in missing :: missing[x] == if x in todo then old(missing)[x] else Without(old(missing)[x], peer)
        invariant forall x :: x in timers <==>
                    x in old(timers) && (x in old(missing) && x !in todo ==> Without(old(missing)[x], peer) != [])
        decreases |todo|
      {
        var x :| x in todo;
        var kept := FilterOut(missing[x], peer);
        if |kept| == 0 {
          timers := timers - {x};
          missing := missing - {x};
        } else {
          missing := missing[x := kept];
        }
        todo := todo - {x};
      }
    }

    method NeighborDown(peer: Host)
      modifies this`eager, this`lazy, this`lazyQueue, this`missing, this`timers
      ensures Is(OnNeighborDown(old(View()), peer))
    {
      hide Without;
      eager := eager - {peer};
      lazy := lazy - {peer};
      lazyQueue := lazyQueue - {peer};
      ForgetAnnouncer(peer);
    }

    // ----- pushing -----

    method PushEager(ghost n: Node, mid: MessageId, payload: Bytes, round: nat, except: Host)
      requires Is(n)
      modifies net
      ensures net.sent == old(net.sent) + EagerPush(n, mid, payload, round, except)
    {
      var todo := eager;
      while todo != {}
        invariant todo <= eager
        invariant net.sent == old(net.sent) + set p | p in eager && p !in todo && p != except :: Packet(id, p, Gossip(mid, round, payload))
        decreases |todo|
      {
        var p :| p in todo;
        if p != except { net.Send(Packet(id, p, Gossip(mid, round, payload))); }
        todo := todo - {p};
      }
    }

    method AnnounceToLazy(a: Announce, except: Host)
      modifies this`lazyQueue
      ensures lazyQueue == QueueAll(old(lazyQueue), lazy - {except}, a)
    {
      var todo := lazy;
      while todo != {}
        invariant todo <= lazy
        invariant lazyQueue == QueueAll(old(lazyQueue), lazy - todo - {except}, a)
        decreases |todo|
      {
        var p :| p in todo;
        if p != except {
          lazyQueue := lazyQueue[p := QueueFor(lazyQueue, p) + [a]];
        }
        todo := todo - {p};
      }
    }

    method PushLazy(ghost n: Node, mid: MessageId, round: nat, except: Host)
      requires Is(n)
      modifies this`lazyQueue
      ensures Is(LazyPush(n, mid, round, except))
    {
      hide QueueAll;
      AnnounceToLazy(Announce(mid, round), except);
    }

    method Publish(ghost n: Node, mid: MessageId, payload: Bytes, from: Host)
      requires Is(n)
      modifies this`received, this`delivered, cache
      ensures Is(Deliver(n, mid, payload, from))
    {
      received := received + {mid};
      cache.Put(mid, payload);
      delivered := delivered + [Delivered(mid, payload, from)];
    }

    method NextId(ghost n: Node) returns (mid: MessageId)
      requires Is(n)
      modifies this`seqNo
      ensures Is(n.(seqNo := n.seqNo + 1)) && mid == MessageId(n.id, n.seqNo + 1)
    {
      seqNo := seqNo + 1;
      mid := MessageId(id, seqNo);
    }

    method Broadcast(payload: Bytes)
      modifies this, net, cache
      ensures Is(HandleBroadcast(old(View()), payload).node)
      ensures net.sent == old(net.sent) + HandleBroadcast(old(View()), payload).sent
    {
      ghost var n := View();
      assert Is(n);
      hide Is, LazyPush, EagerPush, Deliver;
      var mid := NextId(n);
      Publish(n.(seqNo := n.seqNo + 1), mid, payload, id);
      ghost var d := Deliver(n.(seqNo := n.seqNo + 1), mid, payload, n.id);
      PushEager(d, mid, payload, 0, id);
      PushLazy(d, mid, 0, id);
    }

    method CountDuplicate(ghost n: Node)
      requires Is(n)
      modifies this`duplicates
      ensures Is(n.(duplicates := n.duplicates + 1))
    {
      duplicates := duplicates + 1;
    }

    method Cancel(ghost n: Node, mid: MessageId)
      requires Is(n)
      modifies this`timers, this`missing
      ensures Is(CancelMissing(n, mid))
    {
      if mid in timers { timers := timers - {mid}; }
      missing := missing - {mid};
    }

    method ReceiveGossip(mid: MessageId, round: nat, payload: Bytes, from: Host)
      modifies this, net, cache
      ensures Is(OnGossip(old(View()), mid, round, payload, from).node)
      ensures net.sent == old(net.sent) + OnGossip(old(View()), mid, round, payload, from).sent
    {
      ghost var n := View();
      assert Is(n);
      hide Is, LazyPush, EagerPush, Deliver, CancelMissing, MakeEager;
      if mid in received {
        CountDuplicate(n);
        LinkLazy(n.(duplicates := n.duplicates + 1), from);
        net.Send(Packet(id, from, Prune));
        return;
      }
      Publish(n, mid, payload, from);
      ghost var d := Deliver(n, mid, payload, from);
      Cancel(d, mid);
      LinkEager(CancelMissing(d, mid), from);
      ghost var n1 := MakeEager(CancelMissing(d, mid), from);
      PushEager(n1, mid, payload, NextRound(round), from);
      PushLazy(n1, mid, NextRound(round), from);
    }

    // ----- repair -----

    method RecordAnnounce(ghost n: Node, a: Announce, from: Host)
      requires Is(n)
      modifies this`missing, this`timers
      ensures Is(OnAnnounce(n, a, from))
    {
      if a.id in received { return; }
      missing := missing[a.id := (if a.id in missing then missing[a.id] else []) + [Pending(from, a.round)]];
      if a.id !in timers { timers := timers + {a.id}; }
    }

    method ReceiveIHave(anns: seq<Announce>, from: Host)
      modifies this`missing, this`timers
      ensures Is(OnIHave(old(View()), anns, from))
    {
      ghost var n := View();
      assert Is(OnIHave(n, anns[..0], from));
      hide Is, OnAnnounce;
      var i := 0;
      while i < |anns|
        invariant 0 <= i <= |anns| && Is(OnIHave(n, anns[..i], from))
      {
        assert anns[..i + 1][..i] == anns[..i];
        RecordAnnounce(OnIHave(n, anns[..i], from), anns[i], from);
        i := i + 1;
      }
      assert anns[..i] == anns;
    }

    method ReceiveGraft(mid: MessageId, round: nat, from: Host)
      modifies this`eager, this`lazy, net
      ensures Is(OnGraft(old(View()), mid, round, from).node)
      ensures net.sent == old(net.sent) + OnGraft(old(View()), mid, round, from).sent
    {
      LinkEager(View(), from);
      var payload := cache.Get(mid);
      if payload.Some? { net.Send(Packet(id, from, Gossip(mid, round, payload.value))); }
    }

    method ReceivePrune(from: Host)
      modifies this`eager, this`lazy
      ensures Is(OnPrune(old(View()), from))
    {
      LinkLazy(View(), from);
    }

    /** GRAFTs the oldest announcer left, and arms a retry. */
    method MissingTimeout(mid: MessageId)
      modifies this, net
      ensures Is(OnMissingTimeout(old(View()), mid).node)
      ensures net.sent == old(net.sent) + OnMissingTimeout(old(View()), mid).sent
    {
      timers := timers - {mid};
      if mid in received {
        missing := missing - {mid};
        return;
      }
      if mid !in missing || |missing[mid]| == 0 { return; }
      var first := missing[mid][0];
      missing := missing[mid := missing[mid][1..]];
      timers := timers + {mid};
      eager := eager + {first.peer};
      lazy := lazy - {first.peer};
      net.Send(Packet(id, first.peer, Graft(mid, first.round)));
    }

    method Flush()
      modifies this`lazyQueue, net
      ensures Is(FlushLazy(old(View())).node) && net.sent == old(net.sent) + FlushLazy(old(View())).sent
    {
      ghost var n := View();
      if lazyQueue == map[] { return; }
      var todo := lazyQueue.Keys;
      while todo != {}
        invariant todo <= lazyQueue.Keys && Is(n)
        invariant net.sent == old(net.sent) +
                    set p | p in n.lazyQueue && p !in todo && n.lazyQueue[p] != [] :: Packet(n.id, p, IHave(n.lazyQueue[p]))
        decreases |todo|
      {
        var p :| p in todo;
        var anns := lazyQueue[p];
        if |anns| > 0 { net.Send(Packet(id, p, IHave(anns))); }
        todo := todo - {p};
      }
      lazyQueue := map[];
    }
  }
}
