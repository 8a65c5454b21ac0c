/** Every handler preserves the invariant: each is replayed as a sequence of
    the moves of RaftProof and RaftFollower. */
module RaftSteps {
  import opened Foundation
  import opened RaftCore
  import opened RaftCluster
  import opened RaftInvariant
  import opened RaftProof
  import opened RaftFollower

  /** What every step of a live server keeps: its term and commit index do not
      go back, and nothing it committed or published changes. */
  ghost predicate Progress(n: Node, n2: Node) {
    && n2.id == n.id && n2.peers == n.peers
    && n.term <= n2.term
    && n.commitIndex <= n2.commitIndex
    && n.commitIndex <= |n.log| && n.commitIndex <= |n2.log|
    && n2.log[..n.commitIndex] == n.log[..n.commitIndex]
    && n.applied <= n2.applied
    && (n.role == Leader && n2.role == Leader && n2.term == n.term ==> n.log <= n2.log)
  }

  function Outcomed(c: Cluster, o: Outcome): Cluster {
    Send(Put(c, o.node), o.sent)
  }

  ghost predicate Running(c: Cluster, h: History, R: set<Host>, n: Node) {
    Inv(c, h, R) && n.id in R && n.id in c.nodes && c.nodes[n.id] == n
  }

  lemma RunningNode(c: Cluster, h: History, R: set<Host>, n: Node)
    requires Running(c, h, R, n)
    ensures NodeOk(h, R, n) && HistoryOk(h, R)
  {
    hide NodeOk, HistoryOk, NetOk, CrossOk;
  }

  /** A move at one server gives a cluster in which that server runs. */
  lemma PutRunning(c: Cluster, h: History, R: set<Host>, n: Node)
    requires Inv(Put(c, n), h, R) && n.id in R
    ensures Running(Put(c, n), h, R, n)
  {
    hide Inv;
  }

  lemma NetPacket(c: Cluster, h: History, R: set<Host>, p: Packet)
    requires Inv(c, h, R) && p in c.net
    ensures PacketOk(h, R, p)
  {
    hide PacketOk, NodesOk, CrossOk, HistoryOk, PublishedOk;
  }

  lemma InvRunning(c: Cluster, h: History, R: set<Host>, v: Host)
    requires Inv(c, h, R) && v in c.nodes
    ensures Running(c, h, R, c.nodes[v]) && c.nodes[v].id == v
  {
    hide NodeOk, CrossOk, HistoryOk, NetOk;
  }

  // ----- sending -----

  lemma SendAll(c: Cluster, h: History, R: set<Host>, ps: set<Packet>)
    requires Inv(c, h, R)
    requires forall p | p in ps :: PacketOk(h, R, p)
    ensures Inv(Send(c, ps), h, R)
  {
    hide PacketOk, NodesOk, CrossOk, HistoryOk, PublishedOk;
  }

  /** Every AppendEntries a leader sends reaches exactly to the end of its log. */
  lemma AppendShape(n: Node, peer: Host)
    requires GetOr0(n.nextIndex, peer) <= |n.log| + 1
    ensures var m := AppendFor(n, peer);
            && m.AppendEntries? && m.prevLogIndex + |m.entries| == |n.log| && m.entries == n.log[m.prevLogIndex..]
            && m.term == n.term && m.prevLogTerm == TermAt(n.log, m.prevLogIndex) && m.leaderCommit == n.commitIndex
  {
  }

  lemma AppendPacketOk(h: History, R: set<Host>, n: Node, peer: Host)
    requires NodeOk(h, R, n) && n.role == Leader && peer in n.peers
    ensures PacketOk(h, R, Packet(n.id, peer, AppendFor(n, peer)))
  {
    hide GoodLog, Committed, AppendFor;
    assert peer in Elements(n.peers);
    assert GetOr0(n.nextIndex, peer) <= |n.log| + 1;
    AppendShape(n, peer);
  }

  lemma BroadcastOk(h: History, R: set<Host>, n: Node)
    requires NodeOk(h, R, n) && n.role == Leader
    ensures forall p | p in Broadcast(n) :: PacketOk(h, R, p)
  {
    hide NodeOk, PacketOk;
    forall p | p in Broadcast(n) ensures PacketOk(h, R, p) {
      AppendPacketOk(h, R, n, p.dst);
    }
  }

  lemma PeerInRoster(h: History, R: set<Host>, n: Node, peer: Host)
    requires NodeOk(h, R, n)
    ensures peer in n.peers <==> peer in R && peer != n.id
  {
    hide GoodLog, CommitOk, LeadingOk, CandidateOk;
    assert peer in n.peers <==> peer in Elements(n.peers);
  }

  lemma ReplyOk(h: History, R: set<Host>, n: Node, to: Host, m: Message)
    requires NodeOk(h, R, n) && to in R && to != n.id
    requires m.RequestVoteReply? || m.AppendEntriesReply?
    requires m.RequestVoteReply? && m.granted ==> (n.id, m.term) in h.votes && h.votes[(n.id, m.term)] == to
    requires m.AppendEntriesReply? && m.success ==> Acked(h, n.id, m.term, m.matchIndex)
    ensures PacketOk(h, R, Packet(n.id, to, m))
  {
    hide GoodLog, CommitOk, LeadingOk, CandidateOk;
  }

  lemma SendOne(c: Cluster, h: History, R: set<Host>, p: Packet)
    requires Inv(c, h, R) && PacketOk(h, R, p)
    ensures Inv(Send(c, {p}), h, R)
  {
    hide Inv, PacketOk;
    SendAll(c, h, R, {p});
  }

  // ----- stepping down, restarting, following -----

  lemma StepDownNode(h: History, R: set<Host>, n: Node, t: nat)
    requires NodeOk(h, R, n) && t > n.term && (n.id, t) !in h.votes
    ensures NodeOk(h, R, StepDown(n, t))
  {
    hide Committed;
    CommittedExtends(h, h, R, n.term, t, n.log[..n.commitIndex]);
    assert CommitOk(h, R, StepDown(n, t));
  }

  lemma AheadUnvoted(c: Nodes, h: History, n: Node, t: nat)
    requires TermsOk(c, h) && n.id in c && c[n.id] == n && t > n.term
    ensures (n.id, t) !in h.votes
  {
  }

  lemma AdoptMove(c: Cluster, h: History, R: set<Host>, n: Node, t: nat)
    requires Running(c, h, R, n)
    ensures var a := AdoptIfHigher(n, t); Running(Put(c, a), h, R, a) && Progress(n, a) && a.term == Max(n.term, t)
  {
    hide NodeOk, NetOk, NodesOk, TermsOk, HistoryOk, AcksKept, VotesInformed, LeadersComplete;
    RunningNode(c, h, R, n);
    CommitInLog(h, R, n);
    var a := AdoptIfHigher(n, t);
    if t > n.term {
      AheadUnvoted(c.nodes, h, n, t);
      StepDownNode(h, R, n, t);
      LocalMove(c, h, R, a);
    } else {
      assert Put(c, a) == c;
    }
  }

  lemma CommitInLog(h: History, R: set<Host>, n: Node)
    requires NodeOk(h, R, n)
    ensures n.commitIndex <= |n.log|
  {
  }

  lemma BootNode(h: History, R: set<Host>, n: Node)
    requires NodeOk(h, R, n)
    ensures var b := Boot(n.id, n.peers, n.disk);
            NodeOk(h, R, b) && b.id == n.id && b.log == n.log && b.term == n.term
  {
    hide GoodLog;
    assert CommitOk(h, R, Boot(n.id, n.peers, n.disk));
  }

  lemma RestartMove(c: Cluster, h: History, R: set<Host>, n: Node)
    requires Running(c, h, R, n)
    ensures Running(Put(c, Boot(n.id, n.peers, n.disk)), h, R, Boot(n.id, n.peers, n.disk))
  {
    hide NetOk, HistoryOk, CrossOk, NodesOk, NodeOk;
    RunningNode(c, h, R, n);
    BootNode(h, R, n);
    LocalMove(c, h, R, Boot(n.id, n.peers, n.disk));
  }

  /** Crashing right after adopting a higher term. */
  lemma InterruptedMove(c: Cluster, h: History, R: set<Host>, n: Node, t: nat)
    requires Running(c, h, R, n) && t > n.term
    ensures var b := Boot(n.id, n.peers, StepDown(n, t).disk); b.id == n.id && Running(Put(c, b), h, R, b)
  {
    hide NetOk, HistoryOk, CrossOk, NodesOk, NodeOk, Inv;
    var a := StepDown(n, t);
    AdoptMove(c, h, R, n, t);
    RestartMove(Put(c, a), h, R, a);
    PutTwice(c, a, Boot(n.id, n.peers, a.disk));
  }

  /** An AppendEntries of the server's own term comes from the one leader of
      that term, so it never reaches the leader itself: the heartbeat timer
      that the equal-term branch leaves alone is not running. */
  lemma FollowNode(h: History, R: set<Host>, n: Node, from: Host)
    requires NodeOk(h, R, n) && n.term in h.leaderOf && h.leaderOf[n.term] == from && from != n.id
    ensures NodeOk(h, R, FollowLeader(n, from)) && n.role != Leader
  {
    hide GoodLog, Committed;
    assert CommitOk(h, R, FollowLeader(n, from));
  }

  lemma FollowMove(c: Cluster, h: History, R: set<Host>, n: Node, from: Host)
    requires Running(c, h, R, n) && n.term in h.leaderOf && h.leaderOf[n.term] == from && from != n.id
    ensures var f := FollowLeader(n, from); Running(Put(c, f), h, R, f) && Progress(n, f)
  {
    hide NodeOk, NetOk, NodesOk, CrossOk, HistoryOk;
    RunningNode(c, h, R, n);
    CommitInLog(h, R, n);
    FollowNode(h, R, n, from);
    LocalMove(c, h, R, FollowLeader(n, from));
  }

  lemma PutTwice(c: Cluster, a: Node, b: Node)
    requires a.id == b.id
    ensures Put(Put(c, a), b) == Put(c, b)
  {
  }

  // ----- elections -----

  lemma WinStep(c: Cluster, h: History, R: set<Host>, n: Node) returns (h2: History)
    requires Running(c, h, R, n) && n.role == Candidate && WonElection(n)
    ensures Extends(h, h2) && Inv(Outcomed(c, BecomeLeader(n)), h2, R) && Progress(n, BecomeLeader(n).node)
  {
    hide NodeOk, NetOk, NodesOk, CrossOk, HistoryOk, PacketOk, WonElection, Extends;
    RunningNode(c, h, R, n);
    CommitInLog(h, R, n);
    h2 := WinMove(c, h, R, n);
    var l := TakeLeadership(n);
    PutRunning(c, h2, R, l);
    RunningNode(Put(c, l), h2, R, l);
    BroadcastOk(h2, R, l);
    SendAll(Put(c, l), h2, R, Broadcast(l));
  }

  lemma VoteRequestOk(h: History, R: set<Host>, n: Node, p: Packet)
    requires NodeOk(h, R, n) && n.role == Candidate && p in ToPeers(n, VoteRequest(n))
    ensures PacketOk(h, R, p)
  {
    hide GoodLog, CommitOk;
    PeerInRoster(h, R, n, p.dst);
  }

  lemma ElectionStep(c: Cluster, h: History, R: set<Host>, n: Node) returns (h2: History)
    requires Running(c, h, R, n)
    ensures Extends(h, h2) && Inv(Outcomed(c, OnElectionTimeout(n)), h2, R) && Progress(n, OnElectionTimeout(n).node)
  {
    hide NodeOk, NetOk, NodesOk, CrossOk, HistoryOk, PacketOk, WonElection;
    RunningNode(c, h, R, n);
    CommitInLog(h, R, n);
    if n.role == Leader {
      h2 := h;
      assert Outcomed(c, OnElectionTimeout(n)) == c;
    } else {
      var s := Stand(n);
      var asked := ToPeers(s, VoteRequest(s));
      h2 := StandMove(c, h, R, n);
      PutRunning(c, h2, R, s);
      RunningNode(Put(c, s), h2, R, s);
      forall p | p in asked ensures PacketOk(h2, R, p) {
        VoteRequestOk(h2, R, s, p);
      }
      SendAll(Put(c, s), h2, R, asked);
      if WonElection(s) {
        var c2 := Send(Put(c, s), asked);
        var h1 := h2;
        h2 := WinStep(c2, h1, R, s);
        ExtendsTrans(h, h1, h2);
        SendsCommute(c, s, BecomeLeader(s).node, asked, BecomeLeader(s).sent);
      }
    }
  }

  lemma ExtendsTrans(h: History, h1: History, h2: History)
    requires Extends(h, h1) && Extends(h1, h2)
    ensures Extends(h, h2)
  {
  }

  lemma SendsCommute(c: Cluster, a: Node, b: Node, ps: set<Packet>, qs: set<Packet>)
    requires a.id == b.id
    ensures Send(Put(Send(Put(c, a), ps), b), qs) == Send(Put(c, b), ps + qs)
  {
    PutTwice(c, a, b);
    assert c.net + ps + qs == c.net + (ps + qs);
  }

  lemma RequestVoteStep(c: Cluster, h: History, R: set<Host>, n: Node, p: Packet) returns (h2: History)
    requires Running(c, h, R, n) && p in c.net && p.dst == n.id && p.msg.RequestVote?
    ensures var o := OnRequestVote(n, p.msg, p.src);
            Extends(h, h2) && Inv(Outcomed(c, o), h2, R) && Progress(n, o.node)
  {
    hide NodeOk, NodesOk, CrossOk, HistoryOk, NetOk;
    NetPacket(c, h, R, p);
    var m := p.msg;
    AdoptMove(c, h, R, n, m.term);
    var n1 := AdoptIfHigher(n, m.term);
    var c1 := Put(c, n1);
    RunningNode(c1, h, R, n1);
    h2 := h;
    if Grants(n1, m, p.src) {
      var g := GrantVote(n1, p.src);
      if n1.votedFor == None {
        h2 := GrantMove(c1, h, R, n1, p.src);
      } else {
        AlreadyGranted(h, R, n1, p.src);
        assert Put(c1, g) == c1;
      }
      PutTwice(c, n1, g);
      PutRunning(c, h2, R, g);
      RunningNode(Put(c, g), h2, R, g);
      GrantRecorded(h2, R, g, p.src);
      ReplyOk(h2, R, g, p.src, RequestVoteReply(g.term, true));
      SendOne(Put(c, g), h2, R, Packet(g.id, p.src, RequestVoteReply(g.term, true)));
    } else {
      ReplyOk(h, R, n1, p.src, RequestVoteReply(n1.term, false));
      SendOne(c1, h, R, Packet(n1.id, p.src, RequestVoteReply(n1.term, false)));
    }
  }

  lemma AlreadyGranted(h: History, R: set<Host>, n: Node, x: Host)
    requires NodeOk(h, R, n) && n.votedFor == Some(x)
    ensures GrantVote(n, x) == n
  {
  }

  lemma GrantRecorded(h: History, R: set<Host>, n: Node, x: Host)
    requires NodeOk(h, R, n) && n.votedFor == Some(x)
    ensures (n.id, n.term) in h.votes && h.votes[(n.id, n.term)] == x
  {
  }

  lemma CountVote(h: History, R: set<Host>, n: Node, from: Host)
    requires NodeOk(h, R, n) && n.role == Candidate
    requires from in R && (from, n.term) in h.votes && h.votes[(from, n.term)] == n.id
    ensures NodeOk(h, R, n.(votesGranted := n.votesGranted + {from}))
  {
    hide GoodLog, Committed;
    var n1 := n.(votesGranted := n.votesGranted + {from});
    assert CommitOk(h, R, n1);
    assert CandidateOk(h, R, n1);
  }

  lemma VoteReplyStep(c: Cluster, h: History, R: set<Host>, n: Node, p: Packet) returns (h2: History)
    requires Running(c, h, R, n) && p in c.net && p.dst == n.id && p.msg.RequestVoteReply?
    ensures var o := OnRequestVoteReply(n, p.msg, p.src);
            Extends(h, h2) && Inv(Outcomed(c, o), h2, R) && Progress(n, o.node)
  {
    hide NodeOk, NodesOk, CrossOk, HistoryOk, WonElection, BecomeLeader, NetOk;
    NetPacket(c, h, R, p);
    var m := p.msg;
    h2 := h;
    RunningNode(c, h, R, n);
    CommitInLog(h, R, n);
    if m.term > n.term {
      AdoptMove(c, h, R, n, m.term);
      SendNothing(Put(c, StepDown(n, m.term)));
    } else if n.role != Candidate || m.term != n.term || !m.granted {
      SendNothing(Put(c, n));
      assert Put(c, n) == c;
    } else {
      var n1 := n.(votesGranted := n.votesGranted + {p.src});
      CountVote(h, R, n, p.src);
      LocalMove(c, h, R, n1);
      PutRunning(c, h, R, n1);
      if WonElection(n1) {
        h2 := WinStep(Put(c, n1), h, R, n1);
        PutTwice(c, n1, BecomeLeader(n1).node);
      } else {
        SendNothing(Put(c, n1));
      }
    }
  }

  lemma SendNothing(c: Cluster)
    ensures Send(c, {}) == c
  {
    assert c.net + {} == c.net;
  }

  // ----- replication -----

  lemma AppendEntriesStep(c: Cluster, h: History, R: set<Host>, n: Node, p: Packet) returns (h2: History)
    requires Running(c, h, R, n) && p in c.net && p.dst == n.id && p.msg.AppendEntries?
    ensures var o := OnAppendEntries(n, p.msg, p.src);
            Extends(h, h2) && Inv(Outcomed(c, o), h2, R) && Progress(n, o.node)
  {
    hide NodeOk, NodesOk, CrossOk, HistoryOk, AppendConflictFree, AdvanceFollower, NetOk;
    NetPacket(c, h, R, p);
    var m := p.msg;
    h2 := h;
    RunningNode(c, h, R, n);
    CommitInLog(h, R, n);
    if m.term < n.term {
      assert Put(c, n) == c;
      ReplyOk(h, R, n, p.src, AppendEntriesReply(n.term, 0, false));
      SendOne(c, h, R, Packet(n.id, p.src, AppendEntriesReply(n.term, 0, false)));
    } else {
      AdoptMove(c, h, R, n, m.term);
      var n0 := AdoptIfHigher(n, m.term);
      FollowMove(Put(c, n0), h, R, n0, p.src);
      var n1 := FollowLeader(n0, p.src);
      PutTwice(c, n0, n1);
      ProgressTrans(n, n0, n1);
      RunningNode(Put(c, n1), h, R, n1);
      assert n1.role == Follower;
      if !Consistent(n1.log, m) {
        ReplyOk(h, R, n1, p.src, AppendEntriesReply(n1.term, 0, false));
        SendOne(Put(c, n1), h, R, Packet(n1.id, p.src, AppendEntriesReply(n1.term, 0, false)));
      } else {
        h2 := AcceptStep(Put(c, n1), h, R, n1, p);
        var n3 := OnAppendEntries(n, m, p.src).node;
        ProgressTrans(n, n1, n3);
        PutTwice(c, n1, n3);
      }
    }
  }

  lemma ProgressTrans(a: Node, b: Node, d: Node)
    requires Progress(a, b) && Progress(b, d) && (a.role == Leader && d.role == Leader && a.term == d.term ==> b.role == Leader)
    ensures Progress(a, d)
  {
    assert d.log[..a.commitIndex] == d.log[..b.commitIndex][..a.commitIndex];
    assert b.log[..a.commitIndex] == b.log[..b.commitIndex][..a.commitIndex];
  }

  lemma FollowerCommit(h: History, R: set<Host>, n: Node, lc: nat, last: nat)
    requires NodeOk(h, R, n) && n.term in h.leaderLog
    requires Holds(h, n.log, n.term, last) && lc <= last
    requires Committed(h, R, n.term, h.leaderLog[n.term][..lc])
    ensures var a := AdvanceFollower(n, lc, last);
            && NodeOk(h, R, a) && Progress(n, a)
            && a == n.(commitIndex := a.commitIndex, lastApplied := a.lastApplied, applied := a.applied)
  {
    hide NodeOk, Committed;
    CommitInLog(h, R, n);
    if lc > n.commitIndex {
      assert n.log[..lc] == n.log[..last][..lc] == h.leaderLog[n.term][..last][..lc] == h.leaderLog[n.term][..lc];
      CommitNode(h, R, n, lc);
    }
  }

  lemma AcceptStep(c: Cluster, h: History, R: set<Host>, n: Node, p: Packet) returns (h2: History)
    requires Running(c, h, R, n) && n.role == Follower && PacketOk(h, R, p) && p.dst == n.id
    requires p.msg.AppendEntries? && p.msg.term == n.term && Consistent(n.log, p.msg)
    ensures var last := p.msg.prevLogIndex + |p.msg.entries|;
            var a := Accepted(n, p.msg);
            && last <= |a.log|
            && var n3 := AdvanceFollower(a, p.msg.leaderCommit, last);
               && Extends(h, h2) && Progress(n, n3) && n3.role == Follower
               && Inv(Send(Put(c, n3), {Packet(n3.id, p.src, AppendEntriesReply(n3.term, last, true))}), h2, R)
  {
    hide NodeOk, NodesOk, CrossOk, HistoryOk, NetOk, Accepted, AdvanceFollower, Committed, Fits, Splice;
    var m := p.msg;
    var last := m.prevLogIndex + |m.entries|;
    RunningNode(c, h, R, n);
    AcceptFits(c, h, R, n, p);
    h2 := AcceptMove(c, h, R, n, m);
    AcceptedShape(h, n, m);
    AcceptProgress(c, h, R, n, m);
    var a := Accepted(n, m);
    PutRunning(c, h2, R, a);
    RunningNode(Put(c, a), h2, R, a);
    PacketExtends(h, h2, R, p);
    FollowerCommit(h2, R, a, m.leaderCommit, last);
    var n3 := AdvanceFollower(a, m.leaderCommit, last);
    LocalMove(Put(c, a), h2, R, n3);
    PutTwice(c, a, n3);
    ProgressTrans(n, a, n3);
    ReplyOk(h2, R, n3, p.src, AppendEntriesReply(n3.term, last, true));
    SendOne(Put(c, n3), h2, R, Packet(n3.id, p.src, AppendEntriesReply(n3.term, last, true)));
  }

  lemma AcceptFits(c: Cluster, h: History, R: set<Host>, n: Node, p: Packet)
    requires Running(c, h, R, n) && n.role == Follower && PacketOk(h, R, p)
    requires p.msg.AppendEntries? && p.msg.term == n.term && Consistent(n.log, p.msg)
    ensures Fits(h, n, p.msg)
  {
    hide NodeOk, NodesOk, CrossOk, NetOk, PacketOk, Fits;
    RunningNode(c, h, R, n);
    PacketFits(h, R, n, p);
  }

  lemma AcceptProgress(c: Cluster, h: History, R: set<Host>, n: Node, m: Message)
    requires Running(c, h, R, n)
    requires m.AppendEntries? && m.prevLogIndex <= |n.log| && Fits(h, n, m)
    ensures Progress(n, Accepted(n, m))
  {
    hide NodeOk, NodesOk, NetOk, Accepted, LeadersOk, LeadersComplete;
    RunningNode(c, h, R, n);
    CommitInLog(h, R, n);
    AcceptedShape(h, n, m);
    AcceptKeepsCommitted(c.nodes, h, R, n, m);
  }

  lemma CountAck(h: History, R: set<Host>, n: Node, from: Host, m: nat)
    requires NodeOk(h, R, n) && n.role == Leader && from in n.peers && Acked(h, from, n.term, m) && m <= |n.log|
    requires GetOr0(n.matchIndex, from) <= |n.log|
    ensures var best := Max(GetOr0(n.matchIndex, from), m);
            NodeOk(h, R, n.(matchIndex := n.matchIndex[from := best], nextIndex := n.nextIndex[from := best + 1]))
  {
    hide GoodLog, Committed;
    var best := Max(GetOr0(n.matchIndex, from), m);
    var n1 := n.(matchIndex := n.matchIndex[from := best], nextIndex := n.nextIndex[from := best + 1]);
    assert CommitOk(h, R, n1);
    assert LeadingOk(h, n);
    forall q | q in n1.peers
      ensures GetOr0(n1.matchIndex, q) == 0 || Acked(h, q, n1.term, GetOr0(n1.matchIndex, q))
    {
      assert GetOr0(n.matchIndex, q) == 0 || Acked(h, q, n.term, GetOr0(n.matchIndex, q));
    }
    forall q | q in n1.peers ensures GetOr0(n1.nextIndex, q) <= |n1.log| + 1 {
      assert GetOr0(n.nextIndex, q) <= |n.log| + 1;
    }
    assert LeadingOk(h, n1);
  }

  lemma MatchBounded(h: History, R: set<Host>, n: Node, from: Host, i: nat)
    requires HistoryOk(h, R) && NodeOk(h, R, n) && n.role == Leader && from in n.peers
    ensures GetOr0(n.matchIndex, from) <= |n.log|
    ensures Acked(h, from, n.term, i) ==> i <= |n.log|
  {
    hide GoodLog, CommitOk, LeadersOk, CandsOk, BallotsOk;
    assert GetOr0(n.matchIndex, from) == 0 || Acked(h, from, n.term, GetOr0(n.matchIndex, from));
  }

  lemma BackOff(h: History, R: set<Host>, n: Node, from: Host)
    requires NodeOk(h, R, n) && n.role == Leader && GetOr0(n.nextIndex, from) > 1
    ensures NodeOk(h, R, n.(nextIndex := n.nextIndex[from := n.nextIndex[from] - 1]))
  {
    hide GoodLog, Committed;
    var n1 := n.(nextIndex := n.nextIndex[from := n.nextIndex[from] - 1]);
    assert CommitOk(h, R, n1);
    assert LeadingOk(h, n);
    forall q | q in n1.peers ensures GetOr0(n1.nextIndex, q) <= |n1.log| + 1 {
      assert GetOr0(n.nextIndex, q) <= |n.log| + 1;
    }
    assert LeadingOk(h, n1);
  }

  lemma AppendReplyStep(c: Cluster, h: History, R: set<Host>, n: Node, p: Packet) returns (h2: History)
    requires Running(c, h, R, n) && p in c.net && p.dst == n.id && p.msg.AppendEntriesReply?
    ensures var o := OnAppendEntriesReply(n, p.msg, p.src);
            Extends(h, h2) && Inv(Outcomed(c, o), h2, R) && Progress(n, o.node)
  {
    hide NodeOk, NodesOk, CrossOk, HistoryOk, MaybeAdvanceCommit, AppendFor, NetOk;
    NetPacket(c, h, R, p);
    var m := p.msg;
    h2 := h;
    RunningNode(c, h, R, n);
    CommitInLog(h, R, n);
    if m.term > n.term {
      AdoptMove(c, h, R, n, m.term);
      SendNothing(Put(c, StepDown(n, m.term)));
    } else if n.role != Leader || m.term != n.term {
      SendNothing(Put(c, n));
      assert Put(c, n) == c;
    } else {
      PeerInRoster(h, R, n, p.src);
      if m.success {
        MatchBounded(h, R, n, p.src, m.matchIndex);
        CountAck(h, R, n, p.src, m.matchIndex);
        var best := Max(GetOr0(n.matchIndex, p.src), m.matchIndex);
        var n1 := n.(matchIndex := n.matchIndex[p.src := best], nextIndex := n.nextIndex[p.src := best + 1]);
        AdvanceNode(h, R, n1);
        var n2 := MaybeAdvanceCommit(n1);
        LocalMove(c, h, R, n2);
        SendNothing(Put(c, n2));
      } else {
        var n1 := if GetOr0(n.nextIndex, p.src) > 1
                  then n.(nextIndex := n.nextIndex[p.src := n.nextIndex[p.src] - 1]) else n;
        if GetOr0(n.nextIndex, p.src) > 1 { BackOff(h, R, n, p.src); }
        LocalMove(c, h, R, n1);
        AppendPacketOk(h, R, n1, p.src);
        SendOne(Put(c, n1), h, R, Packet(n1.id, p.src, AppendFor(n1, p.src)));
      }
    }
  }

  lemma ProposeStep(c: Cluster, h: History, R: set<Host>, n: Node, cmd: Bytes) returns (h2: History)
    requires Running(c, h, R, n)
    ensures var o := HandlePropose(n, cmd);
            Extends(h, h2) && Inv(Outcomed(c, o), h2, R) && Progress(n, o.node)
  {
    hide NodeOk, NodesOk, CrossOk, HistoryOk, NetOk, MaybeAdvanceCommit, PacketOk;
    h2 := h;
    RunningNode(c, h, R, n);
    CommitInLog(h, R, n);
    if n.role != Leader {
      SendNothing(Put(c, n));
      assert Put(c, n) == c;
    } else {
      h2 := AppendMove(c, h, R, n, cmd);
      hide Extends;
      var a := LeaderAppend(n, cmd);
      PutRunning(c, h2, R, a);
      RunningNode(Put(c, a), h2, R, a);
      AdvanceNode(h2, R, a);
      var b := MaybeAdvanceCommit(a);
      LocalMove(Put(c, a), h2, R, b);
      PutTwice(c, a, b);
      BroadcastOk(h2, R, b);
      SendAll(Put(c, b), h2, R, Broadcast(b));
      assert Progress(n, b) by {
        assert b.log[..n.commitIndex] == n.log[..n.commitIndex];
      }
    }
  }

  /** Every heartbeat is broadcast by the leader of the sender's term. */
  lemma HeartbeatStep(c: Cluster, h: History, R: set<Host>, n: Node)
    requires Running(c, h, R, n) && n.heartbeats > 0
    ensures n.role == Leader
    ensures Inv(Outcomed(c, Outcome(n, Broadcast(n))), h, R) && Progress(n, n)
  {
    hide NodeOk, NodesOk, CrossOk, HistoryOk, NetOk, PacketOk;
    RunningNode(c, h, R, n);
    CommitInLog(h, R, n);
    HeartbeatLeads(h, R, n);
    assert Put(c, n) == c;
    BroadcastOk(h, R, n);
    SendAll(c, h, R, Broadcast(n));
  }

  lemma HeartbeatLeads(h: History, R: set<Host>, n: Node)
    requires NodeOk(h, R, n)
    ensures n.heartbeats == (if n.role == Leader then 1 else 0)
  {
  }

  // ----- one step of the group -----

  lemma HandleStep(c: Cluster, h: History, R: set<Host>, l: Label) returns (h2: History)
    requires Inv(c, h, R) && Enabled(c, l)
    ensures var o := Handle(c.nodes[l.host], l.event);
            && Extends(h, h2) && o.node.id == l.host && Inv(Outcomed(c, o), h2, R)
            && (!Crashes(l.event) ==> Progress(c.nodes[l.host], o.node))
  {
    hide NodeOk, CrossOk, HistoryOk, NetOk, OnElectionTimeout, OnRequestVote, OnRequestVoteReply, OnAppendEntries, OnAppendEntriesReply, HandlePropose, Boot, Inv, NodesOk;
    var n := c.nodes[l.host];
    InvRunning(c, h, R, l.host);
    match l.event
    case ElectionTimeout => h2 := ElectionStep(c, h, R, n);
    case HeartbeatTick => h2 := h; HeartbeatStep(c, h, R, n);
    case Propose(cmd) => h2 := ProposeStep(c, h, R, n, cmd);
    case Restart =>
      h2 := h;
      RestartMove(c, h, R, n);
      BootId(n);
      SendNothing(Put(c, Boot(n.id, n.peers, n.disk)));
    case Interrupted(p) =>
      h2 := h;
      InterruptedMove(c, h, R, n, p.msg.term);
      SendNothing(Put(c, Handle(n, l.event).node));
    case Receive(p) => {
      match p.msg
      case RequestVote(_, _, _) => h2 := RequestVoteStep(c, h, R, n, p);
      case RequestVoteReply(_, _) => h2 := VoteReplyStep(c, h, R, n, p);
      case AppendEntries(_, _, _, _, _) => h2 := AppendEntriesStep(c, h, R, n, p);
      case AppendEntriesReply(_, _, _) => h2 := AppendReplyStep(c, h, R, n, p);
    }
  }

  lemma BootId(n: Node)
    ensures Boot(n.id, n.peers, n.disk).id == n.id
  {
  }

  /** What a server publishes is committed. */
  lemma AppliedIsPublished(h: History, R: set<Host>, n: Node, a: Applied)
    requires NodeOk(h, R, n) && a in n.applied
    ensures PublishedOk(h, R, a)
  {
    hide GoodLog, LeadingOk, CandidateOk;
    var k :| 0 <= k < |n.applied| && n.applied[k] == a;
    var L := n.log[..n.commitIndex];
    var t0: nat, i: nat :| t0 <= n.term && Chosen(h, R, t0, i) && |L| <= i && Holds(h, L, t0, |L|);
    assert h.leaderLog[t0][k] == h.leaderLog[t0][..|L|][k] == L[k] == n.log[k];
    assert ChosenAs(h, R, a, t0, i);
  }

  lemma StepPreserves(c: Cluster, h: History, R: set<Host>, l: Label) returns (h2: History)
    requires Inv(c, h, R) && Enabled(c, l)
    ensures Extends(h, h2) && Inv(Step(c, l), h2, R)
    ensures !Crashes(l.event) ==> Progress(c.nodes[l.host], Step(c, l).nodes[l.host])
  {
    hide NodeOk, CrossOk, HistoryOk, PacketOk, PublishedOk, Handle, Progress, Extends;
    var o := Handle(c.nodes[l.host], l.event);
    h2 := HandleStep(c, h, R, l);
    var c1 := Outcomed(c, o);
    var c2 := Step(c, l);
    assert c2.nodes == c1.nodes && c2.net == c1.net;
    forall x | x in c2.published ensures PublishedOk(h2, R, x.1) {
      if x !in c1.published {
        assert NodeOk(h2, R, c1.nodes[l.host]);
        AppliedIsPublished(h2, R, o.node, x.1);
      }
    }
  }
}
