/** The answers of replication, for every run of a group, said of logs, packets
    and labels: what a leader sends, what a follower makes of it and answers,
    what the leader does with the answer, and exactly what it commits. */
module RaftReplication {
  import opened Foundation
  import opened RaftCore
  import opened RaftCluster
  import opened RaftInvariant
  import opened RaftProof
  import opened RaftFollower
  import opened RaftSteps
  import opened RaftSafety
  import opened RaftVotes
  import opened RaftElections

  // ----- what a leader sends -----

  /** How much of its log a leader takes p to hold. */
  function Shared(n: Node, p: Host): nat {
    if p in n.nextIndex && n.nextIndex[p] > 1 then n.nextIndex[p] - 1 else 0
  }

  /** The rest of the leader's log, anchored where it starts. */
  function Update(n: Node, p: Host): Message
    requires Shared(n, p) <= |n.log|
  {
    AppendEntries(n.term, Shared(n, p), EndTerm(n.log[..Shared(n, p)]), n.commitIndex, n.log[Shared(n, p)..])
  }

  /** m is the rest of log L after its first m.prevLogIndex entries, as a leader
      in state s sends it. */
  predicate SentFrom(s: Node, m: Message) {
    && s.role == Leader && m.AppendEntries? && m.prevLogIndex <= |s.log|
    && m == AppendEntries(s.term, m.prevLogIndex, EndTerm(s.log[..m.prevLogIndex]), s.commitIndex, s.log[m.prevLogIndex..])
  }

  lemma UpdateIs(h: History, R: set<Host>, n: Node, p: Host)
    requires NodeOk(h, R, n) && n.role == Leader && p in n.peers
    ensures Shared(n, p) <= |n.log| && AppendFor(n, p) == Update(n, p) && SentFrom(n, Update(n, p))
  {
    hide GoodLog, CommitOk;
    assert GetOr0(n.nextIndex, p) <= |n.log| + 1;
    AppendShape(n, p);
  }

  lemma OnlyLeadersAppend(h: History, R: set<Host>, n: Node, ev: Event, p: Packet)
    requires NodeOk(h, R, n) && p in Handle(n, ev).sent && p.msg.AppendEntries?
    requires ev.HeartbeatTick? ==> n.role == Leader
    requires ev.Receive? ==> PacketOk(h, R, ev.packet) && ev.packet.dst == n.id
    ensures var n2 := Handle(n, ev).node;
            n2.role == Leader && n2.id == n.id && p.src == n.id && p.dst in n2.peers && p.msg == AppendFor(n2, p.dst)
  {
    hide NodeOk, AppendFor, MaybeAdvanceCommit, AppendConflictFree, AdvanceFollower;
    match ev
    case Propose(cmd) =>
      CommitInLog(h, R, n);
      CommitKeepsPeers(LeaderAppend(n, cmd));
    case Receive(q) => PeerInRoster(h, R, n, q.src);
    case _ =>
  }

  lemma CommitKeepsPeers(n: Node)
    requires n.commitIndex <= |n.log|
    ensures SamePost(n, MaybeAdvanceCommit(n)) && MaybeAdvanceCommit(n).peers == n.peers
  {
    hide ApplyCommitted;
    var t := CommitTarget(n, |n.log|);
    if t > n.commitIndex { ApplyKeeps(n.(commitIndex := t)); }
  }

  /** Every AppendEntries is the rest of the log its sender led with at some
      moment j, and promises what was committed there. */
  lemma AppendedBy(roster: seq<Host>, cs: seq<Cluster>, ls: seq<Label>, k: nat, p: Packet) returns (j: nat)
    requires IsRun(roster, cs, ls) && k < |cs| && p in cs[k].net && p.msg.AppendEntries?
    ensures j <= k && p.src in cs[j].nodes && SentFrom(cs[j].nodes[p.src], p.msg)
  {
    hide Inv, NodeOk, Handle, PacketOk, SentFrom, AppendFor;
    var i := SentAt(roster, cs, ls, k, p);
    var h := NodeAtLabel(roster, cs, ls, i);
    var R := Elements(roster);
    if ls[i].event.HeartbeatTick? { HeartbeatsOnlyFromLeaders(roster, cs, ls, i); }
    if ls[i].event.Receive? { NetPacket(cs[i], h, R, ls[i].event.packet); }
    OnlyLeadersAppend(h, R, cs[i].nodes[ls[i].host], ls[i].event, p);
    j := i + 1;
    var h2 := NodeAt(roster, cs, ls, j, p.src);
    UpdateIs(h2, R, cs[j].nodes[p.src], p.dst);
  }

  // ----- what a follower makes of it -----

  /** n once it recognises c as the leader of term t. */
  function Following(n: Node, t: nat, c: Host): Node {
    var n1 := Heard(n, t);
    n1.(role := Follower, leader := Some(c),
        leaderChanges := if n1.leader == Some(c) then n1.leaderChanges else n1.leaderChanges + [LeaderChanged(c, t)])
  }

  /** A log after it was brought to hold L. */
  function Joined(ours: Log, L: Log): Log {
    if L <= ours then ours else L
  }

  lemma SpliceIs(h: History, ours: Log, L: Log, prev: nat, a: int, b: int)
    requires GoodLog(h, ours, a) && GoodLog(h, L, b) && prev <= |ours| && prev <= |L|
    requires TermAt(ours, prev) == TermAt(L, prev)
    ensures Splice(ours, prev, L[prev..]) == Joined(ours, L)
  {
    hide Rooted, Sorted;
    var es := L[prev..];
    assert es == L[prev..prev + |es|] && L[..prev + |es|] == L;
    SpliceResult(h, ours, L, prev, es);
    var k := Held(ours, prev, es);
  }

  /** The consistency check on terms is one on logs. */
  lemma CheckIs(h: History, ours: Log, L: Log, prev: nat, a: int, b: int)
    requires GoodLog(h, ours, a) && GoodLog(h, L, b) && prev <= |L|
    ensures prev <= |ours| && TermAt(ours, prev) == TermAt(L, prev) <==> L[..prev] <= ours
  {
    hide Rooted, Sorted;
    if prev <= |ours| && TermAt(ours, prev) == TermAt(L, prev) {
      ConsistentPrefix(h, ours, L, prev);
    }
    if L[..prev] <= ours && prev > 0 {
      assert ours[prev - 1] == L[..prev][prev - 1];
    }
  }

  /** n2 is n with this log and this commit index, all of it applied. */
  predicate Holding(n: Node, log: Log, commit: nat, n2: Node) {
    && n2 == n.(log := log, disk := Durable(n.term, n.votedFor, log),
                commitIndex := commit, lastApplied := commit, applied := n2.applied)
    && |n2.applied| == commit <= |log|
    && n.applied <= n2.applied
    && forall i | |n.applied| <= i < commit :: n2.applied[i] == Applied(i + 1, log[i].term, log[i].command)
  }

  lemma FollowIs(h: History, R: set<Host>, n: Node, t: nat, from: Host)
    requires NodeOk(h, R, n) && t >= n.term
    ensures FollowLeader(AdoptIfHigher(n, t), from) == Following(n, t, from)
  {
    hide GoodLog, LeadingOk, CandidateOk, CommitOk;
  }

  lemma AdvanceIs(n: Node, lc: nat, last: nat)
    requires n.lastApplied == |n.applied| == n.commitIndex <= |n.log| && lc <= last <= |n.log|
    requires n.disk == Durable(n.term, n.votedFor, n.log)
    ensures Holding(n, n.log, Max(n.commitIndex, lc), AdvanceFollower(n, lc, last))
  {
    hide ApplyCommitted;
    if lc > n.commitIndex { ApplyShape(n.(commitIndex := lc)); }
  }

  lemma AcceptIs(h: History, n: Node, L: Log, m: Message, b: int)
    requires n.disk == Durable(n.term, n.votedFor, n.log) && n.lastApplied == |n.applied| == n.commitIndex <= |n.log|
    requires GoodLog(h, n.log, n.term) && GoodLog(h, L, b)
    requires m.AppendEntries? && m.prevLogIndex <= |L| && m.prevLogIndex <= |n.log| && m.entries == L[m.prevLogIndex..]
    requires TermAt(n.log, m.prevLogIndex) == TermAt(L, m.prevLogIndex) && m.leaderCommit <= |L|
    requires n.commitIndex <= |Joined(n.log, L)| && n.log[..n.commitIndex] == Joined(n.log, L)[..n.commitIndex]
    ensures |L| <= |AppendConflictFree(n, m.prevLogIndex, m.entries).log|
    ensures Holding(n, Joined(n.log, L), Max(n.commitIndex, m.leaderCommit),
                    AdvanceFollower(AppendConflictFree(n, m.prevLogIndex, m.entries), m.leaderCommit, |L|))
  {
    hide GoodLog, Splice, AppendConflictFree, AdvanceFollower;
    SpliceIs(h, n.log, L, m.prevLogIndex, n.term, b);
    AcceptedIs(n, m);
    AdvanceIs(AppendConflictFree(n, m.prevLogIndex, m.entries), m.leaderCommit, |L|);
  }

  /** The two kinds of answer to a leader of the current term. */
  lemma CurrentAppendIs(h: History, R: set<Host>, n: Node, m: Message, from: Host, L: Log, b: int)
    requires NodeOk(h, R, n) && GoodLog(h, L, b) && m.AppendEntries? && m.term >= n.term && m.leaderCommit <= |L|
    requires m.prevLogIndex <= |L| && m.entries == L[m.prevLogIndex..] && m.prevLogTerm == TermAt(L, m.prevLogIndex)
    requires L[..m.prevLogIndex] <= n.log ==>
               n.commitIndex <= |n.log| && n.commitIndex <= |Joined(n.log, L)| && n.log[..n.commitIndex] == Joined(n.log, L)[..n.commitIndex]
    ensures var o, n1 := OnCurrentAppend(n, m, from), Following(n, m.term, from);
            if L[..m.prevLogIndex] <= n.log then
              && Holding(n1, Joined(n.log, L), Max(n.commitIndex, m.leaderCommit), o.node)
              && o.sent == {Packet(n.id, from, AppendEntriesReply(m.term, |L|, true))}
            else o == Outcome(n1, {Packet(n.id, from, AppendEntriesReply(m.term, 0, false))})
  {
    hide NodeOk, GoodLog, Splice, AppendConflictFree, AdvanceFollower, FollowLeader, AdoptIfHigher;
    FollowIs(h, R, n, m.term, from);
    CheckIs(h, n.log, L, m.prevLogIndex, n.term, b) by { NodeLogGood(h, R, n); }
    var n1 := Following(n, m.term, from);
    if L[..m.prevLogIndex] <= n.log {
      FollowingFacts(h, R, n, m.term, from);
      AcceptIs(h, n1, L, m, b);
    }
  }

  lemma FollowingFacts(h: History, R: set<Host>, n: Node, t: nat, from: Host)
    requires NodeOk(h, R, n) && t >= n.term
    ensures var n1 := Following(n, t, from);
            && n1.disk == Durable(n1.term, n1.votedFor, n1.log) && n1.lastApplied == |n1.applied| == n1.commitIndex <= |n1.log|
            && GoodLog(h, n1.log, n1.term) && n1.log == n.log && n1.id == n.id && n1.term == t && n1.commitIndex == n.commitIndex
  {
    hide LeadingOk, CandidateOk, Rooted;
  }

  /** What is committed survives being brought to hold a leader's log. */
  lemma CommittedSurvives(c: Cluster, h: History, R: set<Host>, n: Node, t: nat, L: Log)
    requires Inv(c, h, R) && NodeOk(h, R, n) && n.term <= t && t in h.leaderLog && L <= h.leaderLog[t]
    ensures n.commitIndex <= |n.log| && n.commitIndex <= |Joined(n.log, L)|
    ensures n.log[..n.commitIndex] == Joined(n.log, L)[..n.commitIndex]
  {
    hide Inv, NodeOk, LeadersOk, LeadersComplete;
    InvParts(c, h, R);
    NodeCommitted(h, R, n);
    var C := n.log[..n.commitIndex];
    CommittedInLeader(c.nodes, h, R, n.term, t, C);
    if !(L <= n.log) {
      if |C| > |L| {
        assert false;
      }
      assert L[..|C|] == h.leaderLog[t][..|C|] == C;
    }
  }

  /** The answer to an AppendEntries of term t from c, whose log was L when it
      sent it (at moment j), with the first m.prevLogIndex entries left out. A
      server past t refuses. Otherwise it follows c, and accepts if and only if
      its log starts with the part left out: then it holds L, keeping what it
      has beyond if that is all there is to it, and has committed what the
      leader had. */
  lemma AppendAnswer(roster: seq<Host>, cs: seq<Cluster>, ls: seq<Label>, k: nat, v: Host, c: Host, m: Message)
      returns (j: nat, L: Log)
    requires IsRun(roster, cs, ls) && k < |ls| && m.AppendEntries? && ls[k] == Label(v, Receive(Packet(c, v, m)))
    ensures j <= k && c in cs[j].nodes && SentFrom(cs[j].nodes[c], m) && L == cs[j].nodes[c].log
    ensures v in cs[k].nodes && v in cs[k + 1].nodes
    ensures var n, n2, t := cs[k].nodes[v], cs[k + 1].nodes[v], m.term;
            if t < n.term then
              n2 == n && cs[k + 1].net == cs[k].net + {Packet(v, c, AppendEntriesReply(n.term, 0, false))}
            else if L[..m.prevLogIndex] <= n.log then
              && Holding(Following(n, t, c), Joined(n.log, L), Max(n.commitIndex, m.leaderCommit), n2)
              && cs[k + 1].net == cs[k].net + {Packet(v, c, AppendEntriesReply(t, |L|, true))}
            else
              && n2 == Following(n, t, c)
              && cs[k + 1].net == cs[k].net + {Packet(v, c, AppendEntriesReply(t, 0, false))}
  {
    hide Inv, NodeOk, GoodLog, Extends, OnCurrentAppend, Holding, Following, Joined, Init;
    var p := Packet(c, v, m);
    assert Enabled(cs[k], ls[k]) && cs[k + 1] == Step(cs[k], ls[k]);
    j := AppendedBy(roster, cs, ls, k, p);
    L := cs[j].nodes[c].log;
    var R, n := Elements(roster), cs[k].nodes[v];
    var hs := RunExplained(roster, cs, ls);
    hide IsRun;
    assert Inv(cs[k], hs[k], R) && Inv(cs[j], hs[j], R) && Extends(hs[j], hs[k]);
    InvNode(cs[k], hs[k], R, v);
    InvNode(cs[j], hs[j], R, c);
    NodeLogGood(hs[j], R, cs[j].nodes[c]);
    GoodLogExtends(hs[j], hs[k], L, m.term, m.term);
    LeaderPrefix(hs[j], hs[k], R, cs[j].nodes[c]);
    CommitInLog(hs[j], R, cs[j].nodes[c]);
    if m.term >= n.term {
      CommittedSurvives(cs[k], hs[k], R, n, m.term, L);
      CurrentAppendIs(hs[k], R, n, m, c, L, m.term);
    }
  }

  lemma LeaderPrefix(h: History, h2: History, R: set<Host>, n: Node)
    requires NodeOk(h, R, n) && n.role == Leader && Extends(h, h2)
    ensures n.term in h2.leaderLog && n.log <= h2.leaderLog[n.term]
  {
    hide GoodLog, CommitOk;
  }

  // ----- what the leader does with the answer -----

  /** How much of the leader's log p is known to hold. */
  function Stored(n: Node, p: Host): nat {
    if p in n.matchIndex then n.matchIndex[p] else 0
  }

  lemma CommitHolding(h: History, R: set<Host>, n: Node)
    requires n.lastApplied == |n.applied| == n.commitIndex <= |n.log| && n.disk == Durable(n.term, n.votedFor, n.log)
    ensures var n2 := MaybeAdvanceCommit(n); Holding(n, n.log, n2.commitIndex, n2)
  {
    hide ApplyCommitted, CommitTarget;
    var t := CommitTarget(n, |n.log|);
    if t > n.commitIndex { ApplyShape(n.(commitIndex := t)); }
  }

  lemma NodeFacts(h: History, R: set<Host>, n: Node)
    requires NodeOk(h, R, n)
    ensures n.lastApplied == |n.applied| == n.commitIndex <= |n.log| && n.disk == Durable(n.term, n.votedFor, n.log)
  {
    hide GoodLog, LeadingOk, CandidateOk;
  }

  /** n once it knows that s holds x entries. */
  function Noted(n: Node, s: Host, x: nat): Node {
    n.(matchIndex := n.matchIndex[s := x], nextIndex := n.nextIndex[s := x + 1])
  }

  /** n once it assumes one entry less of s, if it assumed any. */
  function Backed(n: Node, s: Host): Node {
    if Shared(n, s) == 0 then n else n.(nextIndex := n.nextIndex[s := Shared(n, s)])
  }

  /** The answer to an AppendEntriesReply. A higher term ends the office. In
      office and in its own term, a refusal makes the leader back off by one
      entry and send again at once; a success raises, and never lowers, what the
      member is known to hold, and sends nothing. Anything else is ignored. */
  lemma ReplyAnswer(roster: seq<Host>, cs: seq<Cluster>, ls: seq<Label>, k: nat, v: Host, s: Host, m: Message)
    requires IsRun(roster, cs, ls) && k < |ls| && m.AppendEntriesReply? && ls[k] == Label(v, Receive(Packet(s, v, m)))
    ensures v in cs[k].nodes && v in cs[k + 1].nodes
    ensures var n, n2 := cs[k].nodes[v], cs[k + 1].nodes[v];
            if m.term > n.term then n2 == Heard(n, m.term) && cs[k + 1].net == cs[k].net
            else if n.role != Leader || m.term < n.term then n2 == n && cs[k + 1].net == cs[k].net
            else if m.success then
              && Holding(Noted(n, s, Max(Stored(n, s), m.matchIndex)), n.log, n2.commitIndex, n2)
              && cs[k + 1].net == cs[k].net
            else
              && n2 == Backed(n, s)
              && Shared(n2, s) == (if Shared(n, s) == 0 then 0 else Shared(n, s) - 1) <= |n.log|
              && cs[k + 1].net == cs[k].net + {Packet(v, s, Update(n2, s))}
  {
    hide Inv, NodeOk, PacketOk, Progress, MaybeAdvanceCommit, Holding, AppendFor, Update;
    var h := RunStep(roster, cs, ls, k, v);
    var n, n2 := cs[k].nodes[v], cs[k + 1].nodes[v];
    HeardIs(h, Elements(roster), n, m.term);
    NodeFacts(h, Elements(roster), n);
    if n.role == Leader && m.term == n.term {
      if m.success {
        CommitHolding(h, Elements(roster), Noted(n, s, Max(Stored(n, s), m.matchIndex)));
      } else {
        PeerIs(h, Elements(roster), n, Packet(s, v, m));
        var h2 := NodeAt(roster, cs, ls, k + 1, v);
        UpdateIs(h2, Elements(roster), n2, s);
      }
    }
  }

  lemma PeerIs(h: History, R: set<Host>, n: Node, p: Packet)
    requires NodeOk(h, R, n) && PacketOk(h, R, p) && p.dst == n.id
    ensures p.src in n.peers
  {
    hide NodeOk;
    PeerInRoster(h, R, n, p.src);
  }

  // ----- proposals and heartbeats -----

  /** What a leader in state n sends to everyone. */
  ghost function Updates(roster: seq<Host>, n: Node): set<Packet>
    requires forall p | p in roster && p != n.id :: Shared(n, p) <= |n.log|
  {
    set p | p in roster && p != n.id :: Packet(n.id, p, Update(n, p))
  }

  lemma BroadcastIs(roster: seq<Host>, h: History, n: Node)
    requires NoDuplicates(roster) && NodeOk(h, Elements(roster), n) && n.role == Leader
    ensures forall p | p in roster && p != n.id :: Shared(n, p) <= |n.log|
    ensures Broadcast(n) == Updates(roster, n)
  {
    hide NodeOk, AppendFor, Update, Shared;
    RosterOf(roster, n, h);
    forall p | p in n.peers ensures Shared(n, p) <= |n.log| && AppendFor(n, p) == Update(n, p) {
      UpdateIs(h, Elements(roster), n, p);
    }
  }

  /** A leader appends the command under its own term and sends every other
      member what it lacks; any other server does nothing. */
  lemma ProposeAnswer(roster: seq<Host>, cs: seq<Cluster>, ls: seq<Label>, k: nat, v: Host, command: Bytes)
    requires IsRun(roster, cs, ls) && k < |ls| && ls[k] == Label(v, Propose(command))
    ensures v in cs[k].nodes && v in cs[k + 1].nodes
    ensures var n, n2 := cs[k].nodes[v], cs[k + 1].nodes[v];
            if n.role != Leader then n2 == n && cs[k + 1].net == cs[k].net
            else
              && Holding(n, n.log + [Entry(n.term, command)], n2.commitIndex, n2) && n2.id == v
              && (forall p | p in roster && p != v :: Shared(n2, p) <= |n2.log|)
              && cs[k + 1].net == cs[k].net + Updates(roster, n2)
  {
    hide Inv, NodeOk, PacketOk, Progress, MaybeAdvanceCommit, AppendFor, Update, Updates, Shared, Broadcast;
    var h := RunStep(roster, cs, ls, k, v);
    var n, n2 := cs[k].nodes[v], cs[k + 1].nodes[v];
    if n.role == Leader {
      NodeFacts(h, Elements(roster), n);
      CommitHolding(h, Elements(roster), LeaderAppend(n, command));
      var h2 := NodeAt(roster, cs, ls, k + 1, v);
      BroadcastIs(roster, h2, n2);
    }
  }

  /** A heartbeat sends every other member what it lacks, and changes nothing. */
  lemma HeartbeatAnswer(roster: seq<Host>, cs: seq<Cluster>, ls: seq<Label>, k: nat, v: Host)
    requires IsRun(roster, cs, ls) && k < |ls| && ls[k] == Label(v, HeartbeatTick)
    ensures v in cs[k].nodes && v in cs[k + 1].nodes
    ensures var n := cs[k].nodes[v];
            && cs[k + 1].nodes[v] == n && n.id == v && (forall p | p in roster && p != v :: Shared(n, p) <= |n.log|)
            && cs[k + 1].net == cs[k].net + Updates(roster, n)
  {
    hide Inv, NodeOk, PacketOk, Progress, AppendFor, Update, Updates, Shared, Broadcast;
    var h := RunStep(roster, cs, ls, k, v);
    HeartbeatsOnlyFromLeaders(roster, cs, ls, k);
    BroadcastIs(roster, h, cs[k].nodes[v]);
  }

  // ----- restarts -----

  /** A server that starts on this durable state. */
  function Started(n: Node, term: nat, votedFor: Option<Host>): Node {
    Node(n.id, n.peers, term, votedFor, n.log, Follower, 0, 0, None, map[], map[], {}, 0, [], [], Durable(term, votedFor, n.log))
  }

  /** A crash loses everything but term, vote and log, and sends nothing. One that
      interrupts the adoption of a higher term comes back in that term with no
      vote. */
  lemma RestartAnswer(roster: seq<Host>, cs: seq<Cluster>, ls: seq<Label>, k: nat, v: Host)
    requires IsRun(roster, cs, ls) && k < |ls| && ls[k].host == v && Crashes(ls[k].event)
    ensures v in cs[k].nodes && v in cs[k + 1].nodes && cs[k + 1].net == cs[k].net
    ensures var n, n2, ev := cs[k].nodes[v], cs[k + 1].nodes[v], ls[k].event;
            n2 == if ev.Restart? then Started(n, n.term, n.votedFor) else Started(n, ev.cause.msg.term, None)
  {
    hide Inv, NodeOk;
    var h := NodeAtLabel(roster, cs, ls, k);
    StoredIs(h, Elements(roster), cs[k].nodes[v]);
  }
}
