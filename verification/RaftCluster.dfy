/** A Raft group as a transition system. Sent packets are never removed from
    `net`, so a packet may be received never, late, twice, or out of order; a
    crash wipes a server down to what its Storage holds. */
module RaftCluster {
  import opened Foundation
  import opened RaftCore

  /** `published` collects every Applied notification of every incarnation. */
  datatype Cluster = Cluster(nodes: map<Host, Node>, net: set<Packet>, published: set<(Host, Applied)>)

  /** A crash inside a handler is a crash between two of its writes to Storage:
      every handler sends only after its last write, and packets already sent
      may be lost anyway. Before the first write nothing has happened, and after
      the last one the handler is done (`Restart` in both cases); only the
      adoption of a higher term can be followed by a second write, and
      `Interrupted` is a crash right after it. */
  datatype Event =
    | ElectionTimeout
    | HeartbeatTick
    | Receive(packet: Packet)
    | Propose(command: Bytes)
    | Restart
    | Interrupted(cause: Packet)

  predicate Crashes(ev: Event) {
    ev.Restart? || ev.Interrupted?
  }

  datatype Label = Label(host: Host, event: Event)

  function Init(roster: seq<Host>): Cluster {
    Cluster(map h | h in roster :: Boot(h, PeersOf(roster, h), Durable(0, None, [])), {}, {})
  }

  /** A heartbeat callback runs only while its timer is live; a receive only
      for a packet that was sent to this host. Timeouts and crashes may happen
      at any moment. */
  predicate Enabled(c: Cluster, l: Label) {
    && l.host in c.nodes
    && (l.event.HeartbeatTick? ==> c.nodes[l.host].heartbeats > 0)
    && (l.event.Receive? ==> l.event.packet in c.net && l.event.packet.dst == l.host)
    && (l.event.Interrupted? ==>
          && l.event.cause in c.net && l.event.cause.dst == l.host
          && l.event.cause.msg.term > c.nodes[l.host].term)
  }

  function Deliver(n: Node, p: Packet): Outcome {
    match p.msg
    case RequestVote(_, _, _) => OnRequestVote(n, p.msg, p.src)
    case RequestVoteReply(_, _) => OnRequestVoteReply(n, p.msg, p.src)
    case AppendEntries(_, _, _, _, _) => OnAppendEntries(n, p.msg, p.src)
    case AppendEntriesReply(_, _, _) => OnAppendEntriesReply(n, p.msg, p.src)
  }

  function Handle(n: Node, ev: Event): Outcome {
    match ev
    case ElectionTimeout => OnElectionTimeout(n)
    case HeartbeatTick => Outcome(n, Broadcast(n))
    case Receive(p) => Deliver(n, p)
    case Propose(cmd) => HandlePropose(n, cmd)
    case Restart => Outcome(Boot(n.id, n.peers, n.disk), {})
    case Interrupted(p) => Outcome(Boot(n.id, n.peers, StepDown(n, p.msg.term).disk), {})
  }

  function Step(c: Cluster, l: Label): Cluster
    requires Enabled(c, l)
  {
    var o := Handle(c.nodes[l.host], l.event);
    Cluster(c.nodes[l.host := o.node], c.net + o.sent,
            c.published + (set a | a in o.node.applied :: (l.host, a)))
  }

  /** cs is a run of the group: it starts from empty storage and each state
      follows from the one before by the label between them. */
  ghost predicate IsRun(roster: seq<Host>, cs: seq<Cluster>, ls: seq<Label>) {
    && roster != [] && NoDuplicates(roster)
    && |cs| == |ls| + 1
    && cs[0] == Init(roster)
    && forall k | 0 <= k < |ls| :: Enabled(cs[k], ls[k]) && cs[k + 1] == Step(cs[k], ls[k])
  }
}
