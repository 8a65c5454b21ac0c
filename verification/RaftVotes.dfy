/** The answers of an election, for every run of a group, said of logs, packets
    and labels: who asks for a vote and with what, exactly when a vote is
    granted, and exactly when the votes received make a leader. */
module RaftVotes {
  import opened Foundation
  import opened RaftCore
  import opened RaftCluster
  import opened RaftInvariant
  import opened RaftProof
  import opened RaftSteps
  import opened RaftSafety

  // ----- where a packet comes from -----

  /** Every packet was first sent by some step. */
  lemma {:induction false} SentAt(roster: seq<Host>, cs: seq<Cluster>, ls: seq<Label>, k: nat, p: Packet) returns (j: nat)
    requires IsRun(roster, cs, ls) && k < |cs| && p in cs[k].net
    ensures j < k && p in Handle(cs[j].nodes[ls[j].host], ls[j].event).sent && p !in cs[j].net && p in cs[j + 1].net
  {
    hide Handle;
    if p in cs[k - 1].net {
      j := SentAt(roster, cs, ls, k - 1, p);
    } else {
      j := k - 1;
    }
  }

  lemma NodeAt(roster: seq<Host>, cs: seq<Cluster>, ls: seq<Label>, k: nat, v: Host) returns (h: History)
    requires IsRun(roster, cs, ls) && k < |cs| && v in cs[k].nodes
    ensures Inv(cs[k], h, Elements(roster)) && NodeOk(h, Elements(roster), cs[k].nodes[v]) && cs[k].nodes[v].id == v
  {
    hide IsRun, Inv, NodeOk;
    var hs := RunExplained(roster, cs, ls);
    InvNode(cs[k], hs[k], Elements(roster), v);
    h := hs[k];
  }

  /** Members never change. */
  lemma MembersAt(roster: seq<Host>, cs: seq<Cluster>, ls: seq<Label>, k: nat)
    requires IsRun(roster, cs, ls) && k < |cs|
    ensures cs[k].nodes.Keys == Elements(roster)
  {
    hide IsRun, NodeOk, NetOk, CrossOk, HistoryOk;
    var hs := RunExplained(roster, cs, ls);
    assert Inv(cs[k], hs[k], Elements(roster));
  }

  // ----- asking for votes -----

  /** The term a log ends in. */
  function EndTerm(log: Log): nat {
    if |log| == 0 then 0 else log[|log| - 1].term
  }

  /** Step j is a server standing for election in term t. */
  predicate Stands(cs: seq<Cluster>, ls: seq<Label>, j: nat, c: Host, t: nat) {
    && j < |ls| && j < |cs| && ls[j] == Label(c, ElectionTimeout)
    && c in cs[j].nodes && cs[j].nodes[c].role != Leader && cs[j].nodes[c].term + 1 == t
  }

  /** What a server asks with: the next term, and how its log ends. */
  function Request(n: Node): Message {
    RequestVote(n.term + 1, |n.log|, EndTerm(n.log))
  }

  /** An election timeout leaves a leader alone; it makes any other server stand
      in the next term with its own vote, and ask every other member. Alone in
      the group, its own vote elects it. */
  lemma Campaign(roster: seq<Host>, cs: seq<Cluster>, ls: seq<Label>, k: nat, c: Host)
    requires IsRun(roster, cs, ls) && k < |ls| && ls[k] == Label(c, ElectionTimeout)
    ensures c in cs[k].nodes && c in cs[k + 1].nodes
    ensures var n, n2 := cs[k].nodes[c], cs[k + 1].nodes[c];
            if n.role == Leader then n2 == n && cs[k + 1].net == cs[k].net
            else
              && n2.term == n.term + 1 && n2.votedFor == Some(c) && n2.log == n.log && n2.commitIndex == n.commitIndex
              && n2.disk == Durable(n2.term, n2.votedFor, n2.log)
              && n2.role == (if |roster| == 1 then Leader else Candidate)
              && n2.leader == (if |roster| == 1 then Some(c) else None) && n2.votesGranted == {c}
              && cs[k + 1].net == cs[k].net + (set p | p in roster && p != c :: Packet(c, p, Request(n)))
  {
    hide Inv, GoodLog, LeadingOk, CandidateOk, CommitOk;
    var h := NodeAt(roster, cs, ls, k, c);
    var n := cs[k].nodes[c];
    RosterOf(roster, n, h);
    hide IsRun;
    var s := Stand(n);
    assert forall p :: p in n.peers <==> p in roster && p != c;
    assert ToPeers(s, VoteRequest(s)) == set p | p in roster && p != c :: Packet(c, p, Request(n));
    if |roster| == 1 {
      assert n.peers == [];
      assert Broadcast(TakeLeadership(s)) == {};
    }
  }

  lemma RosterOf(roster: seq<Host>, n: Node, h: History)
    requires NoDuplicates(roster) && NodeOk(h, Elements(roster), n)
    ensures |n.peers| + 1 == |roster| && n.id in roster
    ensures forall p :: p in n.peers <==> p in roster && p != n.id
  {
    hide GoodLog, LeadingOk, CandidateOk, CommitOk;
    var R := Elements(roster);
    ElementsSize(roster);
    ElementsSize(n.peers);
    assert R == Elements(n.peers) + {n.id};
    assert forall p :: p in n.peers <==> p in Elements(n.peers);
  }

  lemma OnlyStandingAsks(n: Node, ev: Event, p: Packet)
    requires p in Handle(n, ev).sent && p.msg.RequestVote?
    ensures ev.ElectionTimeout? && n.role != Leader && p.src == n.id && p.msg == Request(n)
  {
    hide MaybeAdvanceCommit, AppendConflictFree, AdvanceFollower;
  }

  /** Whoever asked for a vote was standing, and asked with its log. */
  lemma AskedBy(roster: seq<Host>, cs: seq<Cluster>, ls: seq<Label>, k: nat, p: Packet) returns (j: nat)
    requires IsRun(roster, cs, ls) && k < |cs| && p in cs[k].net && p.msg.RequestVote?
    ensures j < k && Stands(cs, ls, j, p.src, p.msg.term) && p.msg == Request(cs[j].nodes[p.src])
  {
    hide Inv, NodeOk, Handle;
    j := SentAt(roster, cs, ls, k, p);
    assert Enabled(cs[j], ls[j]);
    var h := NodeAt(roster, cs, ls, j, ls[j].host);
    OnlyStandingAsks(cs[j].nodes[ls[j].host], ls[j].event, p);
  }

  // ----- granting a vote -----

  /** A voter has nothing against a log that ends in a later term, or that its
      own log is a prefix of. */
  predicate Covers(theirs: Log, ours: Log) {
    EndTerm(ours) < EndTerm(theirs) || ours <= theirs
  }

  /** The vote is still free for c in term t. */
  predicate FreeFor(n: Node, t: nat, c: Host) {
    n.term < t || (n.term == t && (n.votedFor == None || n.votedFor == Some(c)))
  }

  /** n after it heard of term t. */
  function Heard(n: Node, t: nat): Node {
    if t <= n.term then n
    else n.(term := t, votedFor := None, role := Follower, leader := None, heartbeats := 0, disk := Durable(t, None, n.log))
  }

  lemma HeardIs(h: History, R: set<Host>, n: Node, t: nat)
    requires NodeOk(h, R, n)
    ensures AdoptIfHigher(n, t) == Heard(n, t)
    ensures t > n.term ==> StepDown(n, t) == Heard(n, t)
  {
    hide GoodLog, LeadingOk, CandidateOk, CommitOk;
  }

  /** The comparison of log ends is a comparison of logs. */
  lemma EndsDecide(h: History, R: set<Host>, ours: Log, theirs: Log, a: int, b: int)
    requires GoodLog(h, ours, a) && GoodLog(h, theirs, b)
    ensures UpToDate(EndTerm(theirs), |theirs|, EndTerm(ours), |ours|) <==> Covers(theirs, ours)
  {
    hide Rooted;
    if EndTerm(ours) == EndTerm(theirs) && |ours| <= |theirs| && ours != [] {
      var T := EndTerm(ours);
      LastMatches(h, ours, T);
      LastMatches(h, theirs, T);
      assert ours == h.leaderLog[T][..|theirs|][..|ours|];
    }
    if ours <= theirs && ours != [] {
      assert ours[|ours| - 1] == theirs[|ours| - 1];
    }
  }

  lemma LastMatches(h: History, L: Log, T: nat)
    requires Rooted(h.leaderLog, L) && L != [] && EndTerm(L) == T
    ensures T in h.leaderLog && |L| <= |h.leaderLog[T]| && L == h.leaderLog[T][..|L|]
  {
    assert FromLeader(h.leaderLog, L, |L| - 1);
    assert L[..|L| - 1 + 1] == L;
  }

  /** The answer to a vote request. Let L be the log the candidate stood with
      (at step j). The voter grants if and only if its vote is free and L covers
      its log; it sends exactly that answer, and remembers exactly that vote. */
  lemma VoteAnswer(roster: seq<Host>, cs: seq<Cluster>, ls: seq<Label>, k: nat, v: Host, c: Host, t: nat, li: nat, lt: nat)
      returns (j: nat, L: Log)
    requires IsRun(roster, cs, ls) && k < |ls| && ls[k] == Label(v, Receive(Packet(c, v, RequestVote(t, li, lt))))
    ensures j < k && Stands(cs, ls, j, c, t) && L == cs[j].nodes[c].log
    ensures v in cs[k].nodes && v in cs[k + 1].nodes
    ensures var n := cs[k].nodes[v];
            var granted := FreeFor(n, t, c) && Covers(L, n.log);
            && cs[k + 1].net == cs[k].net + {Packet(v, c, RequestVoteReply(Max(n.term, t), granted))}
            && cs[k + 1].nodes[v] ==
               if granted then Heard(n, t).(votedFor := Some(c), disk := Durable(t, Some(c), n.log)) else Heard(n, t)
  {
    hide Inv, NodeOk, GoodLog, AdoptIfHigher, Extends;
    var p := Packet(c, v, RequestVote(t, li, lt));
    assert Enabled(cs[k], ls[k]);
    j := AskedBy(roster, cs, ls, k, p);
    L := cs[j].nodes[c].log;
    var R := Elements(roster);
    var hs := RunExplained(roster, cs, ls);
    var n := cs[k].nodes[v];
    InvNode(cs[k], hs[k], R, v);
    InvNode(cs[j], hs[j], R, c);
    NodeLogGood(hs[k], R, n);
    NodeLogGood(hs[j], R, cs[j].nodes[c]);
    assert Extends(hs[j], hs[k]);
    GoodLogExtends(hs[j], hs[k], L, cs[j].nodes[c].term, cs[j].nodes[c].term);
    EndsDecide(hs[k], R, n.log, L, n.term, cs[j].nodes[c].term);
    HeardIs(hs[k], R, n, t);
    StoredIs(hs[k], R, n);
    VoteCase(n, p.msg, c, t, L);
  }

  lemma StoredIs(h: History, R: set<Host>, n: Node)
    requires NodeOk(h, R, n)
    ensures n.disk == Durable(n.term, n.votedFor, n.log)
  {
    hide GoodLog, LeadingOk, CandidateOk, CommitOk;
  }

  lemma VoteCase(n: Node, m: Message, c: Host, t: nat, L: Log)
    requires m == RequestVote(t, |L|, EndTerm(L)) && AdoptIfHigher(n, t) == Heard(n, t)
    requires n.disk == Durable(n.term, n.votedFor, n.log)
    requires UpToDate(EndTerm(L), |L|, EndTerm(n.log), |n.log|) <==> Covers(L, n.log)
    ensures var granted := FreeFor(n, t, c) && Covers(L, n.log);
            OnRequestVote(n, m, c) ==
            Outcome(if granted then Heard(n, t).(votedFor := Some(c), disk := Durable(t, Some(c), n.log)) else Heard(n, t),
                    {Packet(n.id, c, RequestVoteReply(Max(n.term, t), granted))})
  {
    hide AdoptIfHigher, UpToDate, Covers;
  }

  /** Only a request from the peer it answers makes a server send a vote. */
  lemma OnlyRequestsAnswered(n: Node, ev: Event, p: Packet)
    requires p in Handle(n, ev).sent && p.msg.RequestVoteReply?
    ensures ev.Receive? && ev.packet.msg.RequestVote? && p.src == n.id && p.dst == ev.packet.src
  {
    hide MaybeAdvanceCommit, AppendConflictFree, AdvanceFollower, Grants;
  }

  /** Whoever granted a vote in term t had it free for that candidate, which
      stood in t with a log that covered its own. */
  lemma GrantedTo(roster: seq<Host>, cs: seq<Cluster>, ls: seq<Label>, k: nat, p: Packet) returns (i: nat, j: nat)
    requires IsRun(roster, cs, ls) && k < |cs| && p in cs[k].net && p.msg.RequestVoteReply? && p.msg.granted
    ensures j < i < k && Stands(cs, ls, j, p.dst, p.msg.term) && p.src in cs[i].nodes && ls[i].host == p.src
    ensures FreeFor(cs[i].nodes[p.src], p.msg.term, p.dst) && Covers(cs[j].nodes[p.dst].log, cs[i].nodes[p.src].log)
  {
    hide Inv, NodeOk, Handle, Covers, FreeFor;
    i := SentAt(roster, cs, ls, k, p);
    assert Enabled(cs[i], ls[i]);
    var h := NodeAt(roster, cs, ls, i, ls[i].host);
    OnlyRequestsAnswered(cs[i].nodes[ls[i].host], ls[i].event, p);
    var q := ls[i].event.packet;
    var L;
    j, L := VoteAnswer(roster, cs, ls, i, p.src, p.dst, q.msg.term, q.msg.lastLogIndex, q.msg.lastLogTerm);
    VoteSent(cs[i].nodes[p.src], q, p);
  }

  lemma VoteSent(n: Node, q: Packet, p: Packet)
    requires q.msg.RequestVote? && p in Handle(n, Receive(q)).sent && p.msg.RequestVoteReply? && p.msg.granted
    ensures p.msg.term == q.msg.term
  {
  }
}
