/** A Paxos group as a transition system: sent packets stay in `net`, so they
    may be lost, duplicated or reordered, and a participant may crash at any
    moment and come back with what its Storage holds. */
module PaxosCluster {
  import opened Foundation
  import opened PaxosCore

  /** `proposed` are the values handed to Propose anywhere, `decisions` every
      Decided notification of every incarnation. */
  datatype Cluster = Cluster(nodes: map<Host, Node>, net: set<Packet>, proposed: set<Value>,
                             decisions: set<(Host, Decided)>)

  /** A crash inside a handler is a crash between two of its writes to Storage,
      since what was sent may be lost anyway: before the first write nothing has
      happened and after the last one the handler is done (`Restart` in both
      cases). Only a round that opens with its quorum complete writes twice; the
      two Interrupted events are a crash between its promise and its acceptance. */
  datatype Event =
    | Propose(value: Value)
    | RetryTimeout
    | Receive(packet: Packet)
    | SessionConnected(peer: Host)
    | Restart
    | InterruptedPropose(value: Value)
    | InterruptedRetry

  /** A client hands v to this participant. */
  predicate Asks(ev: Event, v: Value) {
    ev == Propose(v) || ev == InterruptedPropose(v)
  }

  datatype Label = Label(host: Host, event: Event)

  function IndexOf(roster: seq<Host>, h: Host): (i: nat)
    requires h in roster
    ensures i < |roster| && roster[i] == h
  {
    if roster[0] == h then 0 else 1 + IndexOf(roster[1..], h)
  }

  function Init(roster: seq<Host>): Cluster {
    Cluster(map h | h in roster :: Boot(h, roster, IndexOf(roster, h), NoAcceptor), {}, {}, {})
  }

  predicate Enabled(c: Cluster, l: Label) {
    && l.host in c.nodes
    && c.nodes[l.host].roster != []
    && (l.event.Receive? ==> l.event.packet in c.net && l.event.packet.dst == l.host)
    && (l.event.SessionConnected? ==> l.event.peer in Peers(c.nodes[l.host]))
    && (l.event.InterruptedPropose? ==> c.nodes[l.host].decided.None? && !c.nodes[l.host].proposing)
    && (l.event.InterruptedRetry? ==> c.nodes[l.host].decided.None? && c.nodes[l.host].proposing)
  }

  /** Opening a round and crashing before phase 2. */
  function CutRound(n: Node): Outcome
    requires n.roster != []
  {
    var r := OpenRound(n);
    Outcome(Boot(n.id, n.roster, n.index, r.disk), ToPeers(r, Prepare(r.myBallot)))
  }

  function Deliver(n: Node, p: Packet): Outcome {
    match p.msg
    case Prepare(b) => OnPrepare(n, b, p.src)
    case Promise(_, _, _, _) => OnPromise(n, p.msg, p.src)
    case Accept(b, v) => OnAccept(n, b, v, p.src)
    case Accepted(b, v) => Outcome(RecordAccepted(n, b, v, p.src), {})
    case AcceptNack(b) => Outcome(Observe(n, b), {})
  }

  function Handle(n: Node, ev: Event): Outcome
    requires n.roster != []
  {
    match ev
    case Propose(v) => HandlePropose(n, v)
    case RetryTimeout => OnRetryTimeout(n)
    case Receive(p) => Deliver(n, p)
    case SessionConnected(peer) => OnSessionConnected(n, peer)
    case Restart => Outcome(Boot(n.id, n.roster, n.index, n.disk), {})
    case InterruptedPropose(v) => CutRound(n.(myValue := v))
    case InterruptedRetry => CutRound(n)
  }

  function Asked(ev: Event): set<Value> {
    if ev.Propose? || ev.InterruptedPropose? then {ev.value} else {}
  }

  function Step(c: Cluster, l: Label): Cluster
    requires Enabled(c, l)
  {
    var o := Handle(c.nodes[l.host], l.event);
    Cluster(c.nodes[l.host := o.node], c.net + o.sent,
            c.proposed + Asked(l.event),
            c.decisions + (set d | d in o.node.published :: (l.host, d)))
  }

  ghost predicate IsRun(roster: seq<Host>, cs: seq<Cluster>, ls: seq<Label>) {
    && roster != [] && NoDuplicates(roster)
    && |cs| == |ls| + 1
    && cs[0] == Init(roster)
    && forall k | 0 <= k < |ls| :: Enabled(cs[k], ls[k]) && cs[k + 1] == Step(cs[k], ls[k])
  }
}
