/** Exactly when the votes a candidate has received make it the leader, over
    every run of a group. */
module RaftElections {
  import opened Foundation
  import opened RaftCore
  import opened RaftCluster
  import opened RaftInvariant
  import opened RaftProof
  import opened RaftSteps
  import opened RaftSafety
  import opened RaftVotes

  /** c is handed a vote of term t. */
  predicate HandsVote(l: Label, c: Host, t: nat) {
    l.host == c && l.event.Receive? && l.event.packet.msg == RequestVoteReply(t, true)
  }

  /** The vote this label hands to c, if any. */
  function Handed(l: Label, c: Host, t: nat): set<Host> {
    if HandsVote(l, c, t) then {l.event.packet.src} else {}
  }

  /** The members whose votes of term t were handed to c between steps m and k. */
  function Backers(ls: seq<Label>, m: nat, k: nat, c: Host, t: nat): set<Host>
    requires m <= k <= |ls|
  {
    set i | m <= i < k && HandsVote(ls[i], c, t) :: ls[i].event.packet.src
  }

  lemma BackersStep(ls: seq<Label>, m: nat, k: nat, c: Host, t: nat)
    requires m <= k < |ls|
    ensures Backers(ls, m, k + 1, c, t) == Backers(ls, m, k, c, t) + Handed(ls[k], c, t)
  {
  }

  /** c was not interrupted between steps m and k. */
  predicate Up(ls: seq<Label>, m: nat, k: nat, c: Host)
    requires m <= k <= |ls|
  {
    forall i | m <= i < k && ls[i].host == c :: !Crashes(ls[i].event)
  }

  /** Where a server that stood in term t is while it counts the votes in S. */
  ghost predicate Counting(R: set<Host>, n: Node, t: nat, S: set<Host>) {
    && n.term >= t
    && (n.term == t && n.role == Candidate ==> n.votesGranted == S && !Majority(R, S))
    && (n.term == t && n.role == Leader ==> Majority(R, S))
    && (n.term == t && n.role == Follower ==> n.leader.Some? && n.leader.value != n.id)
  }

  lemma {:induction false} ApplyKeeps(n: Node)
    requires n.commitIndex <= |n.log|
    ensures var a := ApplyCommitted(n); a == n.(lastApplied := a.lastApplied, applied := a.applied)
    decreases n.commitIndex - n.lastApplied
  {
    if n.lastApplied < n.commitIndex {
      var e := n.log[n.lastApplied];
      ApplyKeeps(n.(lastApplied := n.lastApplied + 1, applied := n.applied + [Applied(n.lastApplied + 1, e.term, e.command)]));
    }
  }

  /** Committing changes nothing an election looks at. */
  predicate SamePost(n: Node, n2: Node) {
    n2.id == n.id && n2.term == n.term && n2.role == n.role && n2.leader == n.leader && n2.votesGranted == n.votesGranted
  }

  lemma CommitKeepsPost(n: Node)
    requires n.commitIndex <= |n.log|
    ensures SamePost(n, MaybeAdvanceCommit(n))
  {
    hide ApplyCommitted;
    var t := CommitTarget(n, |n.log|);
    if t > n.commitIndex { ApplyKeeps(n.(commitIndex := t)); }
  }

  lemma AppendKeepsPost(n: Node, m: Message, from: Host)
    requires m.AppendEntries? && m.term >= n.term
    ensures var n2 := OnCurrentAppend(n, m, from).node;
            n2.id == n.id && n2.term == m.term && n2.role == Follower && n2.leader == Some(from)
  {
    hide AppendConflictFree, AdvanceFollower, AdoptIfHigher, FollowLeader, Consistent;
    var n1 := FollowLeader(AdoptIfHigher(n, m.term), from);
    FollowPost(n, m.term, from);
    if Consistent(n1.log, m) {
      assert m.prevLogIndex <= |n1.log| by { ConsistentFits(n1.log, m); }
      SplicePost(n1, m.prevLogIndex, m.entries);
      AdvancePost(AppendConflictFree(n1, m.prevLogIndex, m.entries), m.leaderCommit, m.prevLogIndex + |m.entries|);
    }
  }

  lemma FollowPost(n: Node, t: nat, from: Host)
    requires t >= n.term
    ensures var n1 := FollowLeader(AdoptIfHigher(n, t), from);
            n1.id == n.id && n1.term == t && n1.role == Follower && n1.leader == Some(from)
  {
  }

  lemma ConsistentFits(log: Log, m: Message)
    requires m.AppendEntries? && Consistent(log, m)
    ensures m.prevLogIndex <= |log|
  {
  }

  lemma SplicePost(n: Node, prev: nat, es: seq<Entry>)
    requires prev <= |n.log|
    ensures var a := AppendConflictFree(n, prev, es); SamePost(n, a) && prev + |es| <= |a.log|
  {
  }

  lemma AdvancePost(n: Node, lc: nat, last: nat)
    requires last <= |n.log|
    ensures SamePost(n, AdvanceFollower(n, lc, last))
  {
    hide ApplyCommitted;
    if lc > n.commitIndex { ApplyKeeps(n.(commitIndex := Min(lc, last))); }
  }

  /** A node as the run leaves it: sound, and uninterrupted from here. */
  ghost predicate Receives(h: History, R: set<Host>, n: Node, ev: Event) {
    && NodeOk(h, R, n) && !Crashes(ev)
    && (ev.Receive? ==> PacketOk(h, R, ev.packet) && ev.packet.dst == n.id)
  }

  lemma WonIsMajority(h: History, R: set<Host>, n: Node, S: set<Host>)
    requires NodeOk(h, R, n) && S <= R
    ensures WonElection(n.(votesGranted := S)) <==> Majority(R, S)
  {
    hide GoodLog, LeadingOk, CandidateOk, CommitOk;
    ElementsSize(n.peers);
    assert R == Elements(n.peers) + {n.id};
  }

  lemma OfficeTaken(n: Node)
    ensures var l := BecomeLeader(n).node; l.id == n.id && l.term == n.term && l.role == Leader
  {
  }

  lemma VotesCounted(h: History, R: set<Host>, n: Node, m: Message, from: Host, S: set<Host>)
    requires NodeOk(h, R, n) && m.RequestVoteReply? && from in R && S <= R && Counting(R, n, n.term, S)
    ensures Counting(R, OnRequestVoteReply(n, m, from).node, n.term, if m == RequestVoteReply(n.term, true) then S + {from} else S)
  {
    hide NodeOk, BecomeLeader, WonElection, Majority;
    if m == RequestVoteReply(n.term, true) {
      if n.role == Leader {
        MajorityGrows(R, S, S + {from});
      } else if n.role == Candidate {
        var n1 := n.(votesGranted := S + {from});
        WonIsMajority(h, R, n, S + {from});
        OfficeTaken(n1);
      }
    }
  }

  lemma StandingRaises(n: Node)
    requires n.role != Leader
    ensures OnElectionTimeout(n).node.term == n.term + 1
  {
    hide BecomeLeader;
    OfficeTaken(Stand(n));
  }

  lemma CountingStep(h: History, R: set<Host>, n: Node, ev: Event, S: set<Host>)
    requires Receives(h, R, n, ev) && S <= R && Counting(R, n, n.term, S)
    requires Progress(n, Handle(n, ev).node)
    ensures Counting(R, Handle(n, ev).node, n.term, S + Handed(Label(n.id, ev), n.id, n.term))
  {
    hide Progress, NodeOk, MaybeAdvanceCommit, OnCurrentAppend, BecomeLeader, OnRequestVoteReply;
    assert Handle(n, ev).node.term >= n.term && Handle(n, ev).node.id == n.id by { ProgressTerm(n, Handle(n, ev).node); }
    CommitInLog(h, R, n);
    match ev
    case ElectionTimeout => if n.role != Leader { StandingRaises(n); }
    case Propose(cmd) => CommitKeepsPost(LeaderAppend(n, cmd));
    case Receive(p) =>
      match p.msg {
        case RequestVote(_, _, _) =>
        case RequestVoteReply(_, _) => VotesCounted(h, R, n, p.msg, p.src, S);
        case AppendEntries(t, _, _, _, _) =>
          if t >= n.term {
            AppendKeepsPost(n, p.msg, p.src);
          }
        case AppendEntriesReply(_, m, _) =>
          var best := Max(GetOr0(n.matchIndex, p.src), m);
          CommitKeepsPost(n.(matchIndex := n.matchIndex[p.src := best], nextIndex := n.nextIndex[p.src := best + 1]));
      }
    case _ =>
  }

  lemma ProgressTerm(n: Node, n2: Node)
    requires Progress(n, n2)
    ensures n2.term >= n.term && n2.id == n.id
  {
  }

  // ----- the whole campaign -----

  lemma RunStep(roster: seq<Host>, cs: seq<Cluster>, ls: seq<Label>, k: nat, c: Host) returns (h: History)
    requires IsRun(roster, cs, ls) && k < |ls| && ls[k].host == c && !Crashes(ls[k].event)
    ensures c in cs[k].nodes && c in cs[k + 1].nodes && cs[k].nodes[c].id == c
    ensures Inv(cs[k], h, Elements(roster)) && Receives(h, Elements(roster), cs[k].nodes[c], ls[k].event)
    ensures cs[k + 1].nodes[c] == Handle(cs[k].nodes[c], ls[k].event).node
    ensures cs[k + 1].net == cs[k].net + Handle(cs[k].nodes[c], ls[k].event).sent
    ensures Progress(cs[k].nodes[c], cs[k + 1].nodes[c])
  {
    hide NodeOk, Inv, Handle, Progress, PacketOk;
    h := NodeAtLabel(roster, cs, ls, k);
    var h2 := StepPreserves(cs[k], h, Elements(roster), ls[k]);
    if ls[k].event.Receive? { NetPacket(cs[k], h, Elements(roster), ls[k].event.packet); }
  }

  lemma NodeAtLabel(roster: seq<Host>, cs: seq<Cluster>, ls: seq<Label>, k: nat) returns (h: History)
    requires IsRun(roster, cs, ls) && k < |ls|
    ensures Enabled(cs[k], ls[k]) && Inv(cs[k], h, Elements(roster))
    ensures NodeOk(h, Elements(roster), cs[k].nodes[ls[k].host]) && cs[k].nodes[ls[k].host].id == ls[k].host
  {
    hide NodeOk, Inv, Step;
    h := NodeAt(roster, cs, ls, k, ls[k].host);
  }

  lemma Untouched(roster: seq<Host>, cs: seq<Cluster>, ls: seq<Label>, k: nat, c: Host)
    requires IsRun(roster, cs, ls) && k < |ls| && ls[k].host != c
    ensures c in cs[k + 1].nodes <==> c in cs[k].nodes
    ensures c in cs[k].nodes ==> cs[k + 1].nodes[c] == cs[k].nodes[c]
  {
    hide Handle;
  }

  /** Only members hand over votes. */
  lemma BackersAreMembers(roster: seq<Host>, cs: seq<Cluster>, ls: seq<Label>, m: nat, k: nat, c: Host, t: nat)
    requires IsRun(roster, cs, ls) && m <= k <= |ls|
    ensures Backers(ls, m, k, c, t) <= Elements(roster)
  {
    hide NodesOk, CrossOk, HistoryOk, Step;
    var hs := RunExplained(roster, cs, ls);
    forall i | m <= i < k && HandsVote(ls[i], c, t) ensures ls[i].event.packet.src in Elements(roster) {
      assert Inv(cs[i], hs[i], Elements(roster)) && Enabled(cs[i], ls[i]);
      assert PacketOk(hs[i], Elements(roster), ls[i].event.packet);
    }
  }

  lemma {:induction false} CountingHolds(roster: seq<Host>, cs: seq<Cluster>, ls: seq<Label>, m: nat, k: nat, c: Host, t: nat)
    requires IsRun(roster, cs, ls) && m < k <= |ls| && Stands(cs, ls, m, c, t) && Up(ls, m, k, c)
    ensures c in cs[k].nodes && cs[k].nodes[c].id == c
    ensures Counting(Elements(roster), cs[k].nodes[c], t, {c} + Backers(ls, m, k, c, t))
    decreases k
  {
    hide IsRun, NodeOk, Inv, Handle, Progress, Receives, Backers, Counting, Enabled;
    BackersStep(ls, m, k - 1, c, t);
    if k == m + 1 {
      CountingStarts(roster, cs, ls, m, c, t);
    } else {
      CountingHolds(roster, cs, ls, m, k - 1, c, t);
      if ls[k - 1].host == c {
        CountingOn(roster, cs, ls, m, k - 1, c, t);
      } else {
        Untouched(roster, cs, ls, k - 1, c);
        assert Backers(ls, m, k, c, t) == Backers(ls, m, k - 1, c, t);
      }
    }
  }

  lemma CountingStarts(roster: seq<Host>, cs: seq<Cluster>, ls: seq<Label>, m: nat, c: Host, t: nat)
    requires IsRun(roster, cs, ls) && Stands(cs, ls, m, c, t)
    ensures c in cs[m + 1].nodes && cs[m + 1].nodes[c].id == c
    ensures Counting(Elements(roster), cs[m + 1].nodes[c], t, {c} + Backers(ls, m, m + 1, c, t))
  {
    hide NodeOk, Inv, Handle, Progress;
    Campaign(roster, cs, ls, m, c);
    var h := NodeAt(roster, cs, ls, m + 1, c);
    assert Backers(ls, m, m + 1, c, t) == {};
    ElementsSize(roster);
    RosterOf(roster, cs[m + 1].nodes[c], h);
    assert c in Elements(roster);
  }

  lemma InRoster(roster: seq<Host>, cs: seq<Cluster>, ls: seq<Label>, k: nat, c: Host)
    requires IsRun(roster, cs, ls) && k < |cs| && c in cs[k].nodes
    ensures c in Elements(roster)
  {
    MembersAt(roster, cs, ls, k);
  }

  lemma CountingOn(roster: seq<Host>, cs: seq<Cluster>, ls: seq<Label>, m: nat, k: nat, c: Host, t: nat)
    requires IsRun(roster, cs, ls) && m <= k < |ls| && ls[k].host == c && !Crashes(ls[k].event)
    requires c in cs[k].nodes && Counting(Elements(roster), cs[k].nodes[c], t, {c} + Backers(ls, m, k, c, t))
    ensures c in cs[k + 1].nodes && cs[k + 1].nodes[c].id == c
    ensures Counting(Elements(roster), cs[k + 1].nodes[c], t, {c} + Backers(ls, m, k + 1, c, t))
  {
    hide NodeOk, Inv, Handle, Receives, Backers, Majority, Step, Enabled, Init;
    BackersStep(ls, m, k, c, t);
    var h := RunStep(roster, cs, ls, k, c);
    BackersAreMembers(roster, cs, ls, m, k, c, t);
    assert c in Elements(roster) by { InRoster(roster, cs, ls, k, c); }
    var n := cs[k].nodes[c];
    var S := {c} + Backers(ls, m, k, c, t);
    if n.term == t {
      CountingStep(h, Elements(roster), n, ls[k].event, S);
      assert S + Handed(ls[k], c, t) == {c} + Backers(ls, m, k + 1, c, t);
    }
  }

  /** The votes handed to c are recorded as cast for c. */
  lemma BackersVoted(roster: seq<Host>, cs: seq<Cluster>, ls: seq<Label>, hs: seq<History>, m: nat, k: nat, c: Host, t: nat)
    requires IsRun(roster, cs, ls) && m < k <= |ls| && Stands(cs, ls, m, c, t) && Explains(Elements(roster), cs, hs)
    ensures {c} + Backers(ls, m, k, c, t) <= Voters(hs[k], Elements(roster), t, c)
  {
    hide NodesOk, CrossOk, HistoryOk, Step, Extends;
    var R := Elements(roster);
    forall i | m <= i < k && HandsVote(ls[i], c, t) ensures ls[i].event.packet.src in Voters(hs[k], R, t, c) {
      assert Inv(cs[i], hs[i], R) && Enabled(cs[i], ls[i]);
      assert PacketOk(hs[i], R, ls[i].event.packet);
      VoteRecorded(hs[i], hs[k], R, ls[i].event.packet.src, t, c);
    }
    Campaign(roster, cs, ls, m, c);
    InvNode(cs[m + 1], hs[m + 1], R, c);
    OwnVote(hs[m + 1], R, cs[m + 1].nodes[c]);
    VoteRecorded(hs[m + 1], hs[k], R, c, t, c);
  }

  lemma OwnVote(h: History, R: set<Host>, n: Node)
    requires NodeOk(h, R, n) && n.votedFor == Some(n.id)
    ensures n.id in R && (n.id, n.term) in h.votes && h.votes[(n.id, n.term)] == n.id
  {
    hide GoodLog, LeadingOk, CandidateOk, CommitOk;
  }

  lemma VoteRecorded(h: History, h2: History, R: set<Host>, v: Host, t: nat, c: Host)
    requires Extends(h, h2) && v in R && (v, t) in h.votes && h.votes[(v, t)] == c
    ensures v in Voters(h2, R, t, c)
  {
  }

  /** A server that follows another leader of its term did not win it. */
  lemma FollowerLost(c: Cluster, h: History, R: set<Host>, n: Node, S: set<Host>)
    requires Inv(c, h, R) && NodeOk(h, R, n) && n.leader.Some? && n.leader.value != n.id
    requires S <= Voters(h, R, n.term, n.id)
    ensures !Majority(R, S)
  {
    hide GoodLog, LeadingOk, CandidateOk, CommitOk, LeadersComplete, NodesOk, NetOk, CrossOk;
    assert LeaderOk(h, R, n.term);
    if Majority(R, S) {
      var v := MajoritiesMeet(R, S, Voters(h, R, n.term, n.leader.value));
    }
  }

  /** A server that stood in term t at step m, has not crashed since and is
      still in t, leads if and only if the votes of t it was handed since,
      with its own, are a majority of the group. */
  lemma LeadsIffMajority(roster: seq<Host>, cs: seq<Cluster>, ls: seq<Label>, m: nat, k: nat, c: Host, t: nat)
    requires IsRun(roster, cs, ls) && m < k <= |ls| && Stands(cs, ls, m, c, t) && Up(ls, m, k, c)
    requires c in cs[k].nodes && cs[k].nodes[c].term == t
    ensures cs[k].nodes[c].role == Leader <==> Majority(Elements(roster), {c} + Backers(ls, m, k, c, t))
  {
    hide Inv, NodeOk, Backers, Step, Enabled, Voters, Majority, Init;
    var S := {c} + Backers(ls, m, k, c, t);
    CountingHolds(roster, cs, ls, m, k, c, t);
    var n := cs[k].nodes[c];
    if n.role == Follower {
      var hs := RunExplained(roster, cs, ls);
      InvNode(cs[k], hs[k], Elements(roster), c);
      BackersVoted(roster, cs, ls, hs, m, k, c, t);
      FollowerLost(cs[k], hs[k], Elements(roster), n, S);
    }
  }

  // ----- taking office -----

  /** A server takes office from a state like its last but for the vote. */
  predicate AboutToLead(n: Node, n1: Node) {
    && n1.id == n.id && n1.peers == n.peers && n1.log == n.log && n1.commitIndex == n.commitIndex
    && n1.leader != Some(n.id) && n1.heartbeats == 0 && n1.leaderChanges == n.leaderChanges
  }

  lemma OfficeCase(h: History, R: set<Host>, n: Node, ev: Event) returns (n1: Node)
    requires Receives(h, R, n, ev) && n.role != Leader && Handle(n, ev).node.role == Leader
    ensures AboutToLead(n, n1) && Handle(n, ev).node == BecomeLeader(n1).node && BecomeLeader(n1).sent <= Handle(n, ev).sent
  {
    hide GoodLog, CommitOk, LeadingOk, BecomeLeader, WonElection, MaybeAdvanceCommit, OnCurrentAppend, Voters;
    match ev
    case ElectionTimeout => n1 := Stand(n);
    case Receive(p) =>
      match p.msg {
        case RequestVote(_, _, _) =>
        case RequestVoteReply(_, _) => n1 := n.(votesGranted := n.votesGranted + {p.src});
        case AppendEntries(t, _, _, _, _) => if t >= n.term { AppendKeepsPost(n, p.msg, p.src); }
        case AppendEntriesReply(_, _, _) =>
      }
    case Propose(_) =>
    case HeartbeatTick =>
  }

  lemma OfficeShape(n: Node, p: Host)
    requires n.leader != Some(n.id) && n.heartbeats == 0
    ensures var l := BecomeLeader(n).node;
            && l.log == n.log && l.leader == Some(n.id) && l.heartbeats == 1
            && l.leaderChanges == n.leaderChanges + [LeaderChanged(n.id, l.term)]
            && (p in n.peers ==>
                  && p in l.nextIndex && l.nextIndex[p] == |l.log| + 1 && p in l.matchIndex && l.matchIndex[p] == 0
                  && Packet(n.id, p, AppendEntries(l.term, |l.log|, EndTerm(l.log), l.commitIndex, [])) in BecomeLeader(n).sent)
  {
    var l := BecomeLeader(n).node;
    if p in n.peers {
      assert Packet(n.id, p, AppendFor(l, p)) in BecomeLeader(n).sent;
    }
  }

  lemma CrashFollows(n: Node, ev: Event)
    ensures Crashes(ev) ==> Handle(n, ev).node.role == Follower
  {
  }

  /** On taking office a server announces itself, takes every follower's log to
      end where its own does but counts none of it as stored, and says so to
      every other member at once. */
  lemma OfficeOpens(roster: seq<Host>, cs: seq<Cluster>, ls: seq<Label>, k: nat, c: Host, p: Host)
    requires IsRun(roster, cs, ls) && k < |ls| && ls[k].host == c && c in cs[k].nodes && c in cs[k + 1].nodes
    requires cs[k].nodes[c].role != Leader && cs[k + 1].nodes[c].role == Leader
    ensures var n := cs[k + 1].nodes[c];
            && n.log == cs[k].nodes[c].log && n.leader == Some(c) && n.heartbeats == 1
            && n.leaderChanges == cs[k].nodes[c].leaderChanges + [LeaderChanged(c, n.term)]
            && (p in roster && p != c ==>
                  && p in n.nextIndex && n.nextIndex[p] == |n.log| + 1 && p in n.matchIndex && n.matchIndex[p] == 0
                  && Packet(c, p, AppendEntries(n.term, |n.log|, EndTerm(n.log), n.commitIndex, [])) in cs[k + 1].net)
  {
    hide Inv, NodeOk, BecomeLeader, Handle, PacketOk, Progress;
    CrashFollows(cs[k].nodes[c], ls[k].event);
    var h := RunStep(roster, cs, ls, k, c);
    RosterOf(roster, cs[k].nodes[c], h);
    var n1 := OfficeCase(h, Elements(roster), cs[k].nodes[c], ls[k].event);
    OfficeShape(n1, p);
  }
}
