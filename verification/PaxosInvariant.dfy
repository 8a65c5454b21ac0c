/** The inductive invariant of a Paxos group, over the history a run leaves:
    the value each ballot was given in phase 2, who accepted which ballot, the
    ballots ever started, and each acceptor's promise. */
module PaxosInvariant {
  import opened Foundation
  import opened PaxosCore
  import opened PaxosCluster

  datatype History = History(
    value: map<nat, Value>,
    accepted: set<(Host, nat)>,
    started: set<nat>,
    promised: map<Host, nat>,
    proposed: set<Value>)

  /** The fixed membership: the sorted roster and the same hosts as a set. */
  datatype Group = Group(roster: seq<Host>, hosts: set<Host>)

  ghost predicate GroupOk(g: Group) {
    g.roster != [] && NoDuplicates(g.roster) && g.hosts == Elements(g.roster) && |g.hosts| == |g.roster|
  }

  ghost function Acceptors(h: History, g: Group, b: nat): set<Host> {
    set v | v in g.hosts && (v, b) in h.accepted
  }

  /** A majority accepted ballot b: its value is chosen. */
  ghost predicate Chosen(h: History, g: Group, b: nat) {
    b in h.value && Majority(g.hosts, Acceptors(h, g, b))
  }

  ghost predicate Refuses(h: History, v: Host, b: nat) {
    v in h.promised && h.promised[v] > b && (v, b) !in h.accepted
  }

  ghost function Refusers(h: History, g: Group, b: nat): set<Host> {
    set v | v in g.hosts && Refuses(h, v, b)
  }

  /** Ballot b can no longer be chosen: a majority promised past it without
      accepting it. */
  ghost predicate Blocked(h: History, g: Group, b: nat) {
    Majority(g.hosts, Refusers(h, g, b))
  }

  ghost function Promisers(h: History, g: Group, b: nat): set<Host> {
    set v | v in g.hosts && v in h.promised && h.promised[v] >= b
  }

  /** A ballot above a lower one either carries its value or the lower one is dead. */
  ghost predicate Safe(h: History, g: Group, b: nat, lower: nat) {
    b in h.value && lower in h.value && lower < b ==> h.value[b] == h.value[lower] || Blocked(h, g, lower)
  }

  /** Report i of acceptor v, given with a promise for ballot b, is its last
      word on ballots below b. */
  ghost predicate PromiseOk(h: History, g: Group, v: Host, b: nat, i: PromiseInfo) {
    && v in g.hosts && v in h.promised && h.promised[v] >= b
    && (i.has ==> i.ballot < b && (v, i.ballot) in h.accepted && i.ballot in h.value && h.value[i.ballot] == i.value)
    && (forall x | (v, x) in h.accepted && x < b :: i.has && x <= i.ballot)
  }

  /** The participant whose ballots are congruent to b modulo the group size. */
  ghost function OwnerOf(roster: seq<Host>, b: nat): Host
    requires roster != []
  {
    if b < |roster| then roster[b] else OwnerOf(roster, b - |roster|)
  }

  /** Ballots are owned by residue class, and the owner has promised each
      ballot it started. */
  ghost predicate Owned(h: History, g: Group, b: nat, v: Host)
    requires g.roster != []
  {
    v == OwnerOf(g.roster, b) && v in h.promised && b <= h.promised[v]
  }

  ghost predicate BallotOk(h: History, g: Group, b: nat)
    requires g.roster != []
  {
    Owned(h, g, b, OwnerOf(g.roster, b))
  }

  ghost predicate ValueOk(h: History, g: Group, b: nat)
    requires b in h.value
  {
    b in h.started && h.value[b] in h.proposed && Majority(g.hosts, Promisers(h, g, b))
  }

  ghost predicate HistoryOk(h: History, g: Group) {
    && GroupOk(g)
    && h.promised.Keys == g.hosts
    && (forall b {:trigger BallotOk(h, g, b)} | b in h.started :: BallotOk(h, g, b))
    && (forall b {:trigger ValueOk(h, g, b)} | b in h.value :: ValueOk(h, g, b))
    && (forall v, b | (v, b) in h.accepted :: v in g.hosts && b in h.value && b <= h.promised[v])
    && (forall b, lower :: Safe(h, g, b, lower))
  }

  /** The null ballot, or one that some participant started. */
  ghost predicate Known(h: History, b: nat) {
    b == 0 || b in h.started
  }

  ghost predicate AcceptorOk(h: History, n: Node) {
    && n.disk == n.acceptor && Known(h, n.acceptor.promised)
    && n.id in h.promised && h.promised[n.id] == n.acceptor.promised
    && n.acceptor.promised <= n.maxSeen
    && (n.acceptor.hasAccepted ==>
          && (n.id, n.acceptor.acceptedBallot) in h.accepted
          && n.acceptor.acceptedBallot in h.value
          && h.value[n.acceptor.acceptedBallot] == n.acceptor.acceptedValue)
    && (forall b | (n.id, b) in h.accepted :: n.acceptor.hasAccepted && b <= n.acceptor.acceptedBallot)
  }

  /** A round collecting promises owns an unused ballot. */
  ghost predicate CollectingOk(h: History, g: Group, n: Node) {
    && n.myBallot in h.started && n.myBallot !in h.value
    && g.roster != [] && Owned(h, g, n.myBallot, n.id)
    && (forall v | v in n.promises :: PromiseOk(h, g, v, n.myBallot, n.promises[v]))
  }

  ghost predicate ProposerOk(h: History, g: Group, n: Node) {
    n.proposing ==> n.myValue in h.proposed && (n.phase == 1 ==> CollectingOk(h, g, n))
  }

  ghost predicate LearnerOk(h: History, g: Group, n: Node) {
    && (forall b | b in n.accepts :: n.accepts[b] <= Acceptors(h, g, b))
    && (forall b | b in n.accepts && n.accepts[b] != {} :: b in n.valueAt)
    && (forall b | b in n.valueAt :: b in h.value && h.value[b] == n.valueAt[b])
    && (n.decided.Some? ==> DecidedOk(h, g, n.decided.value))
    && n.published == (if n.decided.Some? then [n.decided.value] else [])
  }

  ghost predicate DecidedOk(h: History, g: Group, d: Decided) {
    Chosen(h, g, d.ballot) && h.value[d.ballot] == d.value
  }

  ghost predicate NodeOk(h: History, g: Group, n: Node) {
    && n.roster == g.roster && n.index < |g.roster| && g.roster[n.index] == n.id
    && AcceptorOk(h, n) && ProposerOk(h, g, n) && LearnerOk(h, g, n)
  }

  ghost predicate PacketOk(h: History, g: Group, p: Packet) {
    && p.src in g.hosts && p.dst in g.hosts
    && match p.msg
       case Prepare(b) => b in h.started && g.roster != [] && Owned(h, g, b, p.src)
       case Promise(b, ok, top, i) => b in h.started && Known(h, top) && (if ok then PromiseOk(h, g, p.src, b, i) else !i.has)
       case Accept(b, v) => b in h.value && h.value[b] == v
       case Accepted(b, v) => (p.src, b) in h.accepted && b in h.value && h.value[b] == v
       case AcceptNack(top) => Known(h, top)
  }

  ghost predicate NodesOk(c: map<Host, Node>, h: History, g: Group) {
    c.Keys == g.hosts && forall v | v in c :: c[v].id == v && NodeOk(h, g, c[v])
  }

  ghost predicate NetOk(net: set<Packet>, decisions: set<(Host, Decided)>, h: History, g: Group) {
    && (forall p | p in net :: PacketOk(h, g, p))
    && (forall d | d in decisions :: DecidedOk(h, g, d.1))
  }

  ghost predicate Inv(c: Cluster, h: History, g: Group) {
    HistoryOk(h, g) && NodesOk(c.nodes, h, g) && NetOk(c.net, c.decisions, h, g) && h.proposed == c.proposed
  }

  /** h2 records everything h records; an acceptor only accepts at or above
      what it had promised. */
  ghost predicate Extends(h: History, h2: History) {
    && (forall b | b in h.value :: b in h2.value && h2.value[b] == h.value[b])
    && h.accepted <= h2.accepted && h.started <= h2.started && h.proposed <= h2.proposed
    && (forall v | v in h.promised :: v in h2.promised && h.promised[v] <= h2.promised[v])
    && (forall v, b | (v, b) in h2.accepted && (v, b) !in h.accepted && v in h.promised :: h.promised[v] <= b)
  }
}
