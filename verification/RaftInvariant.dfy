/** The inductive invariant of a Raft group. It is stated over a history that
    a run leaves behind: who voted for whom, with which log a candidate stood,
    who led each term, that leader's append-only log, and how much of it each
    member acknowledged. The history is a proof device: it appears in no step
    of the protocol. */
module RaftInvariant {
  import opened Foundation
  import opened RaftCore
  import opened RaftCluster

  type Nodes = map<Host, Node>

  datatype History = History(
    votes: map<(Host, nat), Host>,
    candLog: map<(Host, nat), Log>,
    leaderOf: map<nat, Host>,
    leaderLog: map<nat, Log>,
    acked: map<(Host, nat), nat>)

  // ----- logs -----

  /** Entry k of L was created by the leader of its term, and L agrees with
      that leader's log up to and including k. */
  ghost predicate FromLeader(ll: map<nat, Log>, L: Log, k: nat)
    requires k < |L|
  {
    && L[k].term in ll
    && k < |ll[L[k].term]|
    && L[..k + 1] == ll[L[k].term][..k + 1]
  }

  ghost predicate Rooted(ll: map<nat, Log>, L: Log) {
    forall k | 0 <= k < |L| :: FromLeader(ll, L, k)
  }

  ghost predicate Sorted(L: Log, bound: int) {
    && (forall k | 0 <= k < |L| :: 1 <= L[k].term <= bound)
    && (forall j, k | 0 <= j < k < |L| :: L[j].term <= L[k].term)
  }

  ghost predicate GoodLog(h: History, L: Log, bound: int) {
    Rooted(h.leaderLog, L) && Sorted(L, bound)
  }

  // ----- what a term's leader made, and who holds it -----

  /** Index i of the leader log of term t holds an entry created in t. */
  ghost predicate Marked(h: History, t: nat, i: nat) {
    && t in h.leaderLog
    && 1 <= i <= |h.leaderLog[t]|
    && h.leaderLog[t][i - 1].term == t
  }

  ghost predicate Acked(h: History, v: Host, t: nat, i: nat) {
    (v, t) in h.acked && h.acked[(v, t)] >= i
  }

  ghost predicate Holds(h: History, L: Log, t: nat, i: nat) {
    && t in h.leaderLog
    && i <= |L|
    && i <= |h.leaderLog[t]|
    && L[..i] == h.leaderLog[t][..i]
  }

  ghost function Voters(h: History, R: set<Host>, t: nat, c: Host): set<Host> {
    set v | v in R && (v, t) in h.votes && h.votes[(v, t)] == c
  }

  ghost function Ackers(h: History, R: set<Host>, t: nat, i: nat): set<Host> {
    set v | v in R && Acked(h, v, t, i)
  }

  /** A majority acknowledged entry i of term t's leader. */
  ghost predicate Chosen(h: History, R: set<Host>, t: nat, i: nat) {
    Marked(h, t, i) && Majority(R, Ackers(h, R, t, i))
  }

  ghost predicate Refuses(c: Nodes, h: History, v: Host, t: nat, i: nat) {
    v in c && c[v].term > t && !Acked(h, v, t, i)
  }

  ghost function Refusers(c: Nodes, h: History, R: set<Host>, t: nat, i: nat): set<Host> {
    set v | v in R && Refuses(c, h, v, t, i)
  }

  /** Entry i of term t can no longer be chosen: a majority moved past t
      without acknowledging it. */
  ghost predicate Blocked(c: Nodes, h: History, R: set<Host>, t: nat, i: nat) {
    Majority(R, Refusers(c, h, R, t, i))
  }

  /** L is a prefix of something chosen no later than term t. */
  ghost predicate Committed(h: History, R: set<Host>, t: nat, L: Log) {
    L == [] || exists t0: nat, i: nat :: t0 <= t && Chosen(h, R, t0, i) && |L| <= i && Holds(h, L, t0, |L|)
  }

  // ----- the invariant, part by part -----

  ghost predicate CandOk(h: History, R: set<Host>, v: Host, t: nat)
    requires (v, t) in h.candLog
  {
    && v in R && t >= 1
    && GoodLog(h, h.candLog[(v, t)], t - 1)
    && (v, t) in h.votes && h.votes[(v, t)] == v
  }

  ghost predicate LeaderOk(h: History, R: set<Host>, t: nat)
    requires t in h.leaderLog
  {
    && t in h.leaderOf
    && (h.leaderOf[t], t) in h.candLog
    && GoodLog(h, h.leaderLog[t], t)
    && h.candLog[(h.leaderOf[t], t)] <= h.leaderLog[t]
    && (forall k | |h.candLog[(h.leaderOf[t], t)]| <= k < |h.leaderLog[t]| :: h.leaderLog[t][k].term == t)
    && Majority(R, Voters(h, R, t, h.leaderOf[t]))
  }

  ghost predicate LeadersOk(h: History, R: set<Host>) {
    h.leaderOf.Keys == h.leaderLog.Keys && forall t | t in h.leaderLog :: LeaderOk(h, R, t)
  }

  ghost predicate CandsOk(h: History, R: set<Host>) {
    forall v, t | (v, t) in h.candLog :: CandOk(h, R, v, t)
  }

  ghost predicate BallotsOk(h: History, R: set<Host>) {
    forall v, t | (v, t) in h.votes :: v in R && (h.votes[(v, t)], t) in h.candLog
  }

  ghost predicate AcksOk(h: History, R: set<Host>) {
    forall v, t | (v, t) in h.acked :: v in R && t in h.leaderLog && h.acked[(v, t)] <= |h.leaderLog[t]|
  }

  ghost predicate HistoryOk(h: History, R: set<Host>) {
    LeadersOk(h, R) && CandsOk(h, R) && BallotsOk(h, R) && AcksOk(h, R)
  }

  /** The volatile and durable state of one server. */
  ghost predicate NodeOk(h: History, R: set<Host>, n: Node) {
    && n.id in R && NoDuplicates(n.peers) && Elements(n.peers) == R - {n.id}
    && GoodLog(h, n.log, n.term)
    && n.disk == Durable(n.term, n.votedFor, n.log)
    && n.heartbeats == (if n.role == Leader then 1 else 0)
    && (n.votedFor.Some? <==> (n.id, n.term) in h.votes)
    && (n.votedFor.Some? ==> h.votes[(n.id, n.term)] == n.votedFor.value)
    && (n.leader.Some? ==> n.term in h.leaderOf && h.leaderOf[n.term] == n.leader.value)
    && (forall lc | lc in n.leaderChanges :: lc.term in h.leaderOf && h.leaderOf[lc.term] == lc.leader)
    && (n.role == Candidate ==> CandidateOk(h, R, n))
    && (n.role == Leader ==> LeadingOk(h, n))
    && CommitOk(h, R, n)
  }

  ghost predicate CandidateOk(h: History, R: set<Host>, n: Node) {
    && (n.id, n.term) in h.candLog && h.candLog[(n.id, n.term)] == n.log
    && n.votesGranted <= Voters(h, R, n.term, n.id)
    && (n.term in h.leaderOf ==> h.leaderOf[n.term] != n.id)
  }

  ghost predicate LeadingOk(h: History, n: Node) {
    && n.term in h.leaderLog && n.term in h.leaderOf
    && h.leaderOf[n.term] == n.id
    && h.leaderLog[n.term] == n.log
    && Acked(h, n.id, n.term, |n.log|)
    && (forall p | p in n.peers :: GetOr0(n.nextIndex, p) <= |n.log| + 1)
    && (forall p | p in n.peers :: GetOr0(n.matchIndex, p) == 0 || Acked(h, p, n.term, GetOr0(n.matchIndex, p)))
  }

  ghost predicate CommitOk(h: History, R: set<Host>, n: Node) {
    && n.lastApplied == n.commitIndex == |n.applied|
    && n.commitIndex <= |n.log|
    && (forall k | 0 <= k < |n.applied| :: n.applied[k] == Applied(k + 1, n.log[k].term, n.log[k].command))
    && Committed(h, R, n.term, n.log[..n.commitIndex])
  }

  ghost predicate PacketOk(h: History, R: set<Host>, p: Packet) {
    && p.src in R && p.dst in R && p.src != p.dst
    && match p.msg
       case RequestVote(t, li, lt) =>
         (p.src, t) in h.candLog && li == |h.candLog[(p.src, t)]| && lt == LastTerm(h.candLog[(p.src, t)])
       case RequestVoteReply(t, granted) =>
         granted ==> (p.src, t) in h.votes && h.votes[(p.src, t)] == p.dst
       case AppendEntries(t, prev, pt, lc, es) =>
         && t in h.leaderLog && t in h.leaderOf && h.leaderOf[t] == p.src
         && prev + |es| <= |h.leaderLog[t]|
         && es == h.leaderLog[t][prev..prev + |es|]
         && pt == TermAt(h.leaderLog[t], prev)
         && lc <= prev + |es|
         && Committed(h, R, t, h.leaderLog[t][..lc])
       case AppendEntriesReply(t, m, success) =>
         success ==> Acked(h, p.src, t, m)
  }

  ghost predicate ChosenAs(h: History, R: set<Host>, a: Applied, t: nat, i: nat) {
    && Chosen(h, R, t, i) && 1 <= a.index <= i
    && h.leaderLog[t][a.index - 1] == Entry(a.term, a.command)
  }

  ghost predicate PublishedOk(h: History, R: set<Host>, a: Applied) {
    exists t, i :: ChosenAs(h, R, a, t, i)
  }

  /** No server is behind a vote or an acknowledgement it gave; in the term of
      the acknowledgement its log still holds what it acknowledged. */
  ghost predicate TermsOk(c: Nodes, h: History) {
    && (forall v, t | (v, t) in h.votes :: v in c && t <= c[v].term)
    && (forall v, t | (v, t) in h.acked :: v in c && t <= c[v].term)
    && (forall v, t | (v, t) in h.acked && t == c[v].term :: Holds(h, c[v].log, t, h.acked[(v, t)]))
  }

  /** A server keeps what it acknowledged unless that can no longer be chosen. */
  ghost predicate AcksKept(c: Nodes, h: History, R: set<Host>) {
    forall v, t, i | Acked(h, v, t, i) && Marked(h, t, i) && v in c ::
      Holds(h, c[v].log, t, i) || Blocked(c, h, R, t, i)
  }

  ghost predicate VoteOk(c: Nodes, h: History, R: set<Host>, v: Host, u: nat, t: nat, i: nat) {
    (v, u) in h.votes && (h.votes[(v, u)], u) in h.candLog && t < u && Acked(h, v, t, i) && Marked(h, t, i) ==>
      Holds(h, h.candLog[(h.votes[(v, u)], u)], t, i) || Blocked(c, h, R, t, i)
  }

  /** A voter only backs a candidate that holds what the voter acknowledged. */
  ghost predicate VotesInformed(c: Nodes, h: History, R: set<Host>) {
    forall v, u, t, i :: VoteOk(c, h, R, v, u, t, i)
  }

  ghost predicate Carries(c: Nodes, h: History, R: set<Host>, u: nat, t: nat, i: nat) {
    u in h.leaderOf && (h.leaderOf[u], u) in h.candLog && t < u && Marked(h, t, i) ==>
      Holds(h, h.candLog[(h.leaderOf[u], u)], t, i) || Blocked(c, h, R, t, i)
  }

  /** Every leader was elected holding everything of earlier terms that is, or
      may still be, chosen. */
  ghost predicate LeadersComplete(c: Nodes, h: History, R: set<Host>) {
    forall u, t, i :: Carries(c, h, R, u, t, i)
  }

  ghost predicate NodesOk(c: Nodes, h: History, R: set<Host>) {
    && c.Keys == R
    && (forall v | v in c :: c[v].id == v && NodeOk(h, R, c[v]))
  }

  ghost predicate NetOk(net: set<Packet>, published: set<(Host, Applied)>, h: History, R: set<Host>) {
    && (forall p | p in net :: PacketOk(h, R, p))
    && (forall x | x in published :: PublishedOk(h, R, x.1))
  }

  ghost predicate CrossOk(c: Nodes, h: History, R: set<Host>) {
    TermsOk(c, h) && AcksKept(c, h, R) && VotesInformed(c, h, R) && LeadersComplete(c, h, R)
  }

  ghost predicate Inv(c: Cluster, h: History, R: set<Host>) {
    && R != {}
    && HistoryOk(h, R)
    && NodesOk(c.nodes, h, R)
    && NetOk(c.net, c.published, h, R)
    && CrossOk(c.nodes, h, R)
  }

  /** h2 records everything h records, and leader logs only grow. */
  ghost predicate Extends(h: History, h2: History) {
    && (forall k | k in h.votes :: k in h2.votes && h2.votes[k] == h.votes[k])
    && (forall k | k in h.candLog :: k in h2.candLog && h2.candLog[k] == h.candLog[k])
    && (forall t | t in h.leaderOf :: t in h2.leaderOf && h2.leaderOf[t] == h.leaderOf[t])
    && (forall t | t in h.leaderLog :: t in h2.leaderLog && h.leaderLog[t] <= h2.leaderLog[t])
    && (forall k | k in h.acked :: k in h2.acked && h.acked[k] <= h2.acked[k])
  }
}
