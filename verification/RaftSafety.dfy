/** The safety theorems of Raft, for every run of RaftCluster: any interleaving
    of timeouts, proposals, crashes, and deliveries that lose, duplicate or
    reorder messages. */
module RaftSafety {
  import opened Foundation
  import opened RaftCore
  import opened RaftCluster
  import opened RaftInvariant
  import opened RaftProof
  import opened RaftFollower
  import opened RaftSteps

  // ----- the invariant holds along every run -----

  lemma InitInv(roster: seq<Host>)
    requires roster != [] && NoDuplicates(roster)
    ensures Inv(Init(roster), History(map[], map[], map[], map[], map[]), Elements(roster))
  {
    var c := Init(roster);
    var h := History(map[], map[], map[], map[], map[]);
    var R := Elements(roster);
    assert roster[0] in R;
    forall v | v in c.nodes ensures c.nodes[v].id == v && NodeOk(h, R, c.nodes[v]) {
      PeersOfIs(roster, v);
      assert CommitOk(h, R, c.nodes[v]);
    }
  }

  /** hs explains the run: each state satisfies the invariant under its
      history, and histories only grow. */
  ghost predicate Explains(R: set<Host>, cs: seq<Cluster>, hs: seq<History>) {
    && |hs| == |cs|
    && (forall k | 0 <= k < |cs| :: Inv(cs[k], hs[k], R))
    && (forall j, k | 0 <= j <= k < |hs| :: Extends(hs[j], hs[k]))
  }

  lemma {:induction false} RunExplained(roster: seq<Host>, cs: seq<Cluster>, ls: seq<Label>) returns (hs: seq<History>)
    requires IsRun(roster, cs, ls)
    ensures Explains(Elements(roster), cs, hs)
    decreases |ls|
  {
    hide Inv, Step, Enabled, Progress, Extends, Init;
    var R := Elements(roster);
    if ls == [] {
      InitInv(roster);
      var h := History(map[], map[], map[], map[], map[]);
      SelfExtends(h);
      hs := [h];
    } else {
      var n := |ls|;
      RunPrefix(roster, cs, ls);
      hs := RunExplained(roster, cs[..n], ls[..n - 1]);
      var h := StepPreserves(cs[n - 1], hs[n - 1], R, ls[n - 1]);
      hide IsRun;
      forall j | 0 <= j < n ensures Extends(hs[j], h) {
        ExtendsTrans(hs[j], hs[n - 1], h);
      }
      SelfExtends(h);
      hs := hs + [h];
    }
  }

  lemma RunPrefix(roster: seq<Host>, cs: seq<Cluster>, ls: seq<Label>)
    requires IsRun(roster, cs, ls) && ls != []
    ensures var n := |ls|; IsRun(roster, cs[..n], ls[..n - 1])
                           && Enabled(cs[n - 1], ls[n - 1]) && cs[n] == Step(cs[n - 1], ls[n - 1])
  {
    hide Step, Enabled, Init;
  }

  lemma SelfExtends(h: History)
    ensures Extends(h, h)
  {
  }

  lemma InvNode(c: Cluster, h: History, R: set<Host>, v: Host)
    requires Inv(c, h, R) && v in c.nodes
    ensures NodeOk(h, R, c.nodes[v]) && c.nodes[v].id == v
  {
    hide NodeOk, NetOk, CrossOk, HistoryOk;
  }

  // ----- Election Safety -----

  /** At most one server is ever leader in a given term, across crashes and at
      whatever two moments one looks. */
  lemma ElectionSafety(roster: seq<Host>, cs: seq<Cluster>, ls: seq<Label>, i: nat, j: nat, a: Host, b: Host)
    requires IsRun(roster, cs, ls) && i <= j < |cs|
    requires a in cs[i].nodes && cs[i].nodes[a].role == Leader
    requires b in cs[j].nodes && cs[j].nodes[b].role == Leader
    requires cs[i].nodes[a].term == cs[j].nodes[b].term
    ensures a == b
  {
    hide IsRun, Inv, NodeOk;
    var hs := RunExplained(roster, cs, ls);
    InvNode(cs[i], hs[i], Elements(roster), a);
    InvNode(cs[j], hs[j], Elements(roster), b);
    LeaderTermKnown(hs[i], Elements(roster), cs[i].nodes[a]);
    LeaderTermKnown(hs[j], Elements(roster), cs[j].nodes[b]);
    assert Extends(hs[i], hs[j]);
  }

  /** The LeaderChanged stream witnesses Election Safety: over all servers and
      all incarnations, notifications of one term name one leader. */
  lemma LeaderChangedAgree(roster: seq<Host>, cs: seq<Cluster>, ls: seq<Label>, i: nat, j: nat,
                           a: Host, b: Host, x: LeaderChanged, y: LeaderChanged)
    requires IsRun(roster, cs, ls) && i <= j < |cs|
    requires a in cs[i].nodes && x in cs[i].nodes[a].leaderChanges
    requires b in cs[j].nodes && y in cs[j].nodes[b].leaderChanges
    requires x.term == y.term
    ensures x.leader == y.leader
  {
    hide IsRun, Inv, GoodLog, CommitOk, LeadingOk, CandidateOk;
    var hs := RunExplained(roster, cs, ls);
    InvNode(cs[i], hs[i], Elements(roster), a);
    InvNode(cs[j], hs[j], Elements(roster), b);
    assert Extends(hs[i], hs[j]);
  }

  /** A heartbeat timer that can fire belongs to a leader. */
  lemma HeartbeatsOnlyFromLeaders(roster: seq<Host>, cs: seq<Cluster>, ls: seq<Label>, k: nat)
    requires IsRun(roster, cs, ls) && k < |ls| && ls[k].event == HeartbeatTick
    ensures ls[k].host in cs[k].nodes && cs[k].nodes[ls[k].host].role == Leader
  {
    hide Inv, NodeOk, Step;
    var hs := RunExplained(roster, cs, ls);
    InvNode(cs[k], hs[k], Elements(roster), ls[k].host);
    HeartbeatLeads(hs[k], Elements(roster), cs[k].nodes[ls[k].host]);
  }

  /** One vote per server and term, across crashes: two grants it sent in the
      same term went to the same candidate. */
  lemma OneVotePerTerm(roster: seq<Host>, cs: seq<Cluster>, ls: seq<Label>, k: nat, p: Packet, q: Packet)
    requires IsRun(roster, cs, ls) && k < |cs| && p in cs[k].net && q in cs[k].net
    requires p.msg.RequestVoteReply? && p.msg.granted && q.msg.RequestVoteReply? && q.msg.granted
    requires p.src == q.src && p.msg.term == q.msg.term
    ensures p.dst == q.dst
  {
    hide IsRun, NodesOk, CrossOk, HistoryOk;
    var hs := RunExplained(roster, cs, ls);
    assert Inv(cs[k], hs[k], Elements(roster));
    assert PacketOk(hs[k], Elements(roster), p) && PacketOk(hs[k], Elements(roster), q);
  }

  // ----- Log Matching and Leader Append-Only -----

  /** Two logs, at whatever two moments, that agree on the term at an index
      agree on every entry up to it. */
  lemma LogMatching(roster: seq<Host>, cs: seq<Cluster>, ls: seq<Label>, i: nat, j: nat, a: Host, b: Host, k: nat)
    requires IsRun(roster, cs, ls) && i <= j < |cs| && a in cs[i].nodes && b in cs[j].nodes
    requires k < |cs[i].nodes[a].log| && k < |cs[j].nodes[b].log|
    requires cs[i].nodes[a].log[k].term == cs[j].nodes[b].log[k].term
    ensures cs[i].nodes[a].log[..k + 1] == cs[j].nodes[b].log[..k + 1]
  {
    hide IsRun, Inv, NodeOk, Extends;
    var R := Elements(roster);
    var hs := RunExplained(roster, cs, ls);
    InvNode(cs[i], hs[i], R, a);
    InvNode(cs[j], hs[j], R, b);
    var x, y := cs[i].nodes[a], cs[j].nodes[b];
    NodeLogGood(hs[i], R, x);
    NodeLogGood(hs[j], R, y);
    assert Extends(hs[i], hs[j]);
    GoodLogExtends(hs[i], hs[j], x.log, x.term, x.term);
    SameTermSamePrefix(hs[j], x.log, y.log, k);
  }

  /** A leader's log only grows during its term. */
  lemma LeaderAppendOnly(roster: seq<Host>, cs: seq<Cluster>, ls: seq<Label>, i: nat, j: nat, a: Host)
    requires IsRun(roster, cs, ls) && i <= j < |cs| && a in cs[i].nodes && a in cs[j].nodes
    requires cs[i].nodes[a].role == Leader && cs[j].nodes[a].role == Leader
    requires cs[i].nodes[a].term == cs[j].nodes[a].term
    ensures cs[i].nodes[a].log <= cs[j].nodes[a].log
  {
    hide IsRun, Inv, NodeOk, HistoryOk, LeadingOk;
    var R := Elements(roster);
    var hs := RunExplained(roster, cs, ls);
    InvNode(cs[i], hs[i], R, a);
    InvNode(cs[j], hs[j], R, a);
    assert Extends(hs[i], hs[j]);
    LeaderLogIs(hs[i], R, cs[i].nodes[a]);
    LeaderLogIs(hs[j], R, cs[j].nodes[a]);
  }

  lemma LeaderLogIs(h: History, R: set<Host>, n: Node)
    requires NodeOk(h, R, n) && n.role == Leader
    ensures n.term in h.leaderLog && h.leaderLog[n.term] == n.log
    ensures n.term in h.leaderOf && h.leaderOf[n.term] == n.id
  {
  }

  // ----- commitment -----

  /** Between crashes a server's commit index never decreases, and no step
      changes or truncates an entry at or below it. */
  lemma CommitIndexMonotone(roster: seq<Host>, cs: seq<Cluster>, ls: seq<Label>, k: nat, v: Host)
    requires IsRun(roster, cs, ls) && k < |ls| && v in cs[k].nodes
    requires ls[k].host == v ==> !Crashes(ls[k].event)
    ensures v in cs[k + 1].nodes
    ensures var n, n2 := cs[k].nodes[v], cs[k + 1].nodes[v];
            && n.commitIndex <= n2.commitIndex <= |n2.log|
            && n.commitIndex <= |n.log| && n2.log[..n.commitIndex] == n.log[..n.commitIndex]
            && n.applied <= n2.applied
  {
    hide Inv, NodeOk, Handle, Extends;
    var R := Elements(roster);
    var hs := RunExplained(roster, cs, ls);
    assert cs[k + 1] == Step(cs[k], ls[k]) && Enabled(cs[k], ls[k]);
    InvNode(cs[k], hs[k], R, v);
    CommitInLog(hs[k], R, cs[k].nodes[v]);
    InvNode(cs[k + 1], hs[k + 1], R, v);
    CommitInLog(hs[k + 1], R, cs[k + 1].nodes[v]);
    if ls[k].host == v {
      var h := StepPreserves(cs[k], hs[k], R, ls[k]);
    }
  }

  /** Every AppendEntries ever sent promises no commit past its own entries,
      so capping the follower's commit index never lowers it. */
  lemma LeaderCommitBounded(roster: seq<Host>, cs: seq<Cluster>, ls: seq<Label>, k: nat, p: Packet)
    requires IsRun(roster, cs, ls) && k < |cs| && p in cs[k].net && p.msg.AppendEntries?
    ensures p.msg.leaderCommit <= p.msg.prevLogIndex + |p.msg.entries|
  {
    hide IsRun, NodesOk, CrossOk, HistoryOk, Committed;
    var hs := RunExplained(roster, cs, ls);
    assert Inv(cs[k], hs[k], Elements(roster));
    assert PacketOk(hs[k], Elements(roster), p);
  }

  /** The early break in advanceCommitIndex loses nothing: on a log whose terms
      do not decrease, it finds the highest index that may be committed. */
  lemma {:induction false} CommitTargetIsHighest(n: Node, i: nat, best: nat)
    requires i <= |n.log| && best <= i && CanCommit(n, best)
    requires Sorted(n.log, n.term)
    ensures CommitTarget(n, i) >= best
  {
    hide Replicas;
    assert TermAt(n.log, i) >= TermAt(n.log, best);
    if best < i {
      CommitTargetIsHighest(n, i - 1, best);
    }
  }

  /** ... and every leader of every run has such a log. */
  lemma LeaderCommitsHighest(roster: seq<Host>, cs: seq<Cluster>, ls: seq<Label>, k: nat, v: Host, best: nat)
    requires IsRun(roster, cs, ls) && k < |cs| && v in cs[k].nodes && CanCommit(cs[k].nodes[v], best)
    ensures CommitTarget(cs[k].nodes[v], |cs[k].nodes[v].log|) >= best
  {
    hide IsRun, Inv, NodeOk, CanCommit, CommitTarget;
    var hs := RunExplained(roster, cs, ls);
    InvNode(cs[k], hs[k], Elements(roster), v);
    NodeLogGood(hs[k], Elements(roster), cs[k].nodes[v]);
    CanCommitInLog(cs[k].nodes[v], best);
    CommitTargetIsHighest(cs[k].nodes[v], |cs[k].nodes[v].log|, best);
  }

  lemma CanCommitInLog(n: Node, i: nat)
    requires CanCommit(n, i)
    ensures i <= |n.log|
  {
  }

  /** Leader Completeness: what a server has committed while in term t is in
      the log of every leader of a later term, whichever moment one compares. */
  lemma LeaderCompleteness(roster: seq<Host>, cs: seq<Cluster>, ls: seq<Label>, i: nat, j: nat, a: Host, b: Host)
    requires IsRun(roster, cs, ls) && i < |cs| && j < |cs| && a in cs[i].nodes && b in cs[j].nodes
    requires cs[j].nodes[b].role == Leader && cs[i].nodes[a].term < cs[j].nodes[b].term
    ensures cs[i].nodes[a].commitIndex <= |cs[i].nodes[a].log|
    ensures cs[i].nodes[a].log[..cs[i].nodes[a].commitIndex] <= cs[j].nodes[b].log
  {
    hide IsRun, Inv, NodeOk, LeadersOk, LeadersComplete, Extends;
    var R := Elements(roster);
    var hs := RunExplained(roster, cs, ls);
    var k := if i < j then j else i;
    InvNode(cs[i], hs[i], R, a);
    InvNode(cs[j], hs[j], R, b);
    var x, y := cs[i].nodes[a], cs[j].nodes[b];
    NodeCommitted(hs[i], R, x);
    LeaderLogIs(hs[j], R, y);
    assert Extends(hs[i], hs[k]) && Extends(hs[j], hs[k]);
    CommittedExtends(hs[i], hs[k], R, x.term, x.term, x.log[..x.commitIndex]);
    InvParts(cs[k], hs[k], R);
    ElectedLogStays(hs[j], hs[k], R, y.term);
    CommittedInLeader(cs[k].nodes, hs[k], R, x.term, y.term, x.log[..x.commitIndex]);
    InvParts(cs[j], hs[j], R);
    ElectedLogBelow(hs[j], R, y.term);
  }

  lemma NodeCommitted(h: History, R: set<Host>, n: Node)
    requires NodeOk(h, R, n)
    ensures n.commitIndex <= |n.log| && Committed(h, R, n.term, n.log[..n.commitIndex])
  {
  }

  lemma InvParts(c: Cluster, h: History, R: set<Host>)
    requires Inv(c, h, R)
    ensures LeadersOk(h, R) && LeadersComplete(c.nodes, h, R)
  {
    hide LeadersOk, LeadersComplete, NodesOk, NetOk;
  }

  lemma ElectedLogBelow(h: History, R: set<Host>, u: nat)
    requires LeadersOk(h, R) && u in h.leaderLog
    ensures u in h.leaderOf && (h.leaderOf[u], u) in h.candLog && h.candLog[(h.leaderOf[u], u)] <= h.leaderLog[u]
  {
    assert LeaderOk(h, R, u);
  }

  /** The log a leader was elected with never changes in the record. */
  lemma ElectedLogStays(h: History, h2: History, R: set<Host>, u: nat)
    requires Extends(h, h2) && u in h.leaderLog && u in h.leaderOf
    ensures u in h2.leaderLog && u in h2.leaderOf && h2.leaderOf[u] == h.leaderOf[u]
    ensures (h.leaderOf[u], u) in h.candLog ==>
              (h.leaderOf[u], u) in h2.candLog && h2.candLog[(h.leaderOf[u], u)] == h.candLog[(h.leaderOf[u], u)]
  {
  }

  // ----- State Machine Safety -----

  /** Two chosen prefixes agree wherever both are defined. */
  lemma ChosenAgree(c: Nodes, h: History, R: set<Host>, t: nat, i: nat, u: nat, j: nat, k: nat)
    requires LeadersOk(h, R) && LeadersComplete(c, h, R)
    requires Chosen(h, R, t, i) && Chosen(h, R, u, j) && k < i && k < j && t <= u
    ensures h.leaderLog[t][k] == h.leaderLog[u][k]
  {
    if t < u {
      assert LeaderOk(h, R, u) && Carries(c, h, R, u, t, i);
      var L := h.leaderLog[t][..i];
      ChosenInLeader(c, h, R, t, i, u, L);
      hide LeadersOk, LeadersComplete, LeaderOk;
      assert h.leaderLog[t][k] == L[k];
    }
  }

  lemma PublishedAgree(c: Cluster, h: History, R: set<Host>, x: Applied, y: Applied)
    requires Inv(c, h, R) && PublishedOk(h, R, x) && PublishedOk(h, R, y) && x.index == y.index
    ensures x == y
  {
    hide Inv, LeadersOk, LeadersComplete;
    InvParts(c, h, R);
    var t: nat, i: nat :| ChosenAs(h, R, x, t, i);
    var u: nat, j: nat :| ChosenAs(h, R, y, u, j);
    if t <= u {
      ChosenAgree(c.nodes, h, R, t, i, u, j, x.index - 1);
    } else {
      ChosenAgree(c.nodes, h, R, u, j, t, i, x.index - 1);
    }
  }

  /** State Machine Safety: whatever two Applied notifications are ever
      published for one index, by any two servers in any incarnations and at
      any two moments, they carry the same term and command. */
  lemma StateMachineSafety(roster: seq<Host>, cs: seq<Cluster>, ls: seq<Label>, i: nat, j: nat,
                           x: (Host, Applied), y: (Host, Applied))
    requires IsRun(roster, cs, ls) && i <= j < |cs|
    requires x in cs[i].published && y in cs[j].published && x.1.index == y.1.index
    ensures x.1 == y.1
  {
    hide IsRun, PublishedOk, NodesOk, CrossOk, HistoryOk, Extends;
    var R := Elements(roster);
    var hs := RunExplained(roster, cs, ls);
    assert Inv(cs[i], hs[i], R) && Inv(cs[j], hs[j], R);
    assert Extends(hs[i], hs[j]);
    PublishedExtends(hs[i], hs[j], R, x.1);
    PublishedAgree(cs[j], hs[j], R, x.1, y.1);
  }

  /** Each incarnation applies indices 1, 2, 3, ... with no gap or repeat,
      exactly up to its commit index, and applies what its log holds there. */
  lemma AppliedInOrder(roster: seq<Host>, cs: seq<Cluster>, ls: seq<Label>, k: nat, v: Host)
    requires IsRun(roster, cs, ls) && k < |cs| && v in cs[k].nodes
    ensures var n := cs[k].nodes[v];
            && |n.applied| == n.lastApplied == n.commitIndex <= |n.log|
            && forall i | 0 <= i < |n.applied| :: n.applied[i] == Applied(i + 1, n.log[i].term, n.log[i].command)
  {
    hide IsRun, Inv, GoodLog, LeadingOk, CandidateOk;
    var hs := RunExplained(roster, cs, ls);
    InvNode(cs[k], hs[k], Elements(roster), v);
  }

  // ----- durability -----

  /** Incremental persistence refines whole-state persistence: after every
      handler the storage holds exactly the live term, vote and log, so a
      restart resumes from the state before the crash. */
  lemma StorageMirrorsState(roster: seq<Host>, cs: seq<Cluster>, ls: seq<Label>, k: nat, v: Host)
    requires IsRun(roster, cs, ls) && k < |cs| && v in cs[k].nodes
    ensures var n := cs[k].nodes[v]; n.disk == Durable(n.term, n.votedFor, n.log)
    ensures var n := cs[k].nodes[v]; var b := Handle(n, Restart).node;
            b.term == n.term && b.votedFor == n.votedFor && b.log == n.log
  {
    hide IsRun, Inv, GoodLog, LeadingOk, CandidateOk, CommitOk;
    var hs := RunExplained(roster, cs, ls);
    InvNode(cs[k], hs[k], Elements(roster), v);
  }
}
