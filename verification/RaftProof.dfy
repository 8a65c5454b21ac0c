/** Preservation of the Raft invariant. A handler is a short sequence of the
    small moves proved here: a change that touches no log and no history, a
    send, standing for election, granting a vote, taking leadership, a leader
    append, and a follower accepting entries. */
module RaftProof {
  import opened Foundation
  import opened RaftCore
  import opened RaftCluster
  import opened RaftInvariant

  function Put(c: Cluster, n: Node): Cluster {
    c.(nodes := c.nodes[n.id := n])
  }

  function Send(c: Cluster, ps: set<Packet>): Cluster {
    c.(net := c.net + ps)
  }

  // ----- monotonicity in the history -----

  lemma GoodLogExtends(h: History, h2: History, L: Log, bound: int, bound2: int)
    requires Extends(h, h2) && GoodLog(h, L, bound) && bound <= bound2
    ensures GoodLog(h2, L, bound2)
  {
    forall k | 0 <= k < |L| ensures FromLeader(h2.leaderLog, L, k) {
      assert FromLeader(h.leaderLog, L, k);
    }
  }

  lemma HoldsExtends(h: History, h2: History, L: Log, t: nat, i: nat)
    requires Extends(h, h2) && Holds(h, L, t, i)
    ensures Holds(h2, L, t, i)
  {
  }

  lemma ChosenExtends(h: History, h2: History, R: set<Host>, t: nat, i: nat)
    requires Extends(h, h2) && Chosen(h, R, t, i)
    ensures Chosen(h2, R, t, i)
  {
    forall v | v in Ackers(h, R, t, i) ensures v in Ackers(h2, R, t, i) {
      assert Acked(h, v, t, i);
    }
    MajorityGrows(R, Ackers(h, R, t, i), Ackers(h2, R, t, i));
  }

  lemma CommittedExtends(h: History, h2: History, R: set<Host>, t: nat, t2: nat, L: Log)
    requires Extends(h, h2) && Committed(h, R, t, L) && t <= t2
    ensures Committed(h2, R, t2, L)
  {
    if L != [] {
      var t0: nat, i: nat :| t0 <= t && Chosen(h, R, t0, i) && |L| <= i && Holds(h, L, t0, |L|);
      ChosenExtends(h, h2, R, t0, i);
      HoldsExtends(h, h2, L, t0, |L|);
    }
  }

  lemma PacketExtends(h: History, h2: History, R: set<Host>, p: Packet)
    requires Extends(h, h2) && PacketOk(h, R, p)
    ensures PacketOk(h2, R, p)
  {
    match p.msg
    case AppendEntries(t, prev, pt, lc, es) =>
      assert h.leaderLog[t][..lc] == h2.leaderLog[t][..lc];
      CommittedExtends(h, h2, R, t, t, h.leaderLog[t][..lc]);
    case AppendEntriesReply(t, m, success) =>
    case _ =>
  }

  lemma PublishedExtends(h: History, h2: History, R: set<Host>, a: Applied)
    requires Extends(h, h2) && PublishedOk(h, R, a)
    ensures PublishedOk(h2, R, a)
  {
    var t: nat, i: nat :| ChosenAs(h, R, a, t, i);
    ChosenExtends(h, h2, R, t, i);
    assert ChosenAs(h2, R, a, t, i);
  }

  lemma NetExtends(net: set<Packet>, published: set<(Host, Applied)>, h: History, h2: History, R: set<Host>)
    requires Extends(h, h2) && NetOk(net, published, h, R)
    ensures NetOk(net, published, h2, R)
  {
    hide Extends, PacketOk, PublishedOk;
    forall p | p in net ensures PacketOk(h2, R, p) {
      PacketExtends(h, h2, R, p);
    }
    forall x | x in published ensures PublishedOk(h2, R, x.1) {
      PublishedExtends(h, h2, R, x.1);
    }
  }

  /** A server untouched by a history extension stays sound, provided nothing
      new was recorded about its own current term. */
  lemma NodeExtends(h: History, h2: History, R: set<Host>, n: Node)
    requires Extends(h, h2) && NodeOk(h, R, n)
    requires (n.id, n.term) in h2.votes ==> (n.id, n.term) in h.votes
    requires n.role == Leader ==> h2.leaderLog[n.term] == h.leaderLog[n.term]
    requires n.role == Candidate && n.term in h2.leaderOf ==> n.term in h.leaderOf || h2.leaderOf[n.term] != n.id
    ensures NodeOk(h2, R, n)
  {
    GoodLogExtends(h, h2, n.log, n.term, n.term);
    CommittedExtends(h, h2, R, n.term, n.term, n.log[..n.commitIndex]);
    if n.role == Candidate {
      assert CandidateOk(h2, R, n);
    }
    if n.role == Leader {
      forall p | p in n.peers
        ensures GetOr0(n.matchIndex, p) == 0 || Acked(h2, p, n.term, GetOr0(n.matchIndex, p))
      {
        assert GetOr0(n.matchIndex, p) == 0 || Acked(h, p, n.term, GetOr0(n.matchIndex, p));
      }
      assert Acked(h, n.id, n.term, |n.log|);
      assert LeadingOk(h2, n);
    }
  }

  /** Terms do not go back, and an acknowledgement is only ever added in the
      acknowledging server's current term. */
  ghost predicate Advances(c: Nodes, h: History, c2: Nodes, h2: History) {
    && Extends(h, h2)
    && c.Keys == c2.Keys
    && (forall v | v in c :: c[v].term <= c2[v].term)
    && (forall v, t, i | Acked(h2, v, t, i) && !Acked(h, v, t, i) && v in c :: c[v].term <= t)
  }

  lemma BlockedStays(c: Nodes, h: History, c2: Nodes, h2: History, R: set<Host>, t: nat, i: nat)
    requires Advances(c, h, c2, h2) && Blocked(c, h, R, t, i)
    ensures Blocked(c2, h2, R, t, i)
  {
    forall v | v in Refusers(c, h, R, t, i) ensures v in Refusers(c2, h2, R, t, i) {
      assert Refuses(c, h, v, t, i);
      assert Refuses(c2, h2, v, t, i);
    }
    MajorityGrows(R, Refusers(c, h, R, t, i), Refusers(c2, h2, R, t, i));
  }

  /** A chosen entry is never blocked: the two majorities would share a server. */
  lemma ChosenNotBlocked(c: Nodes, h: History, R: set<Host>, t: nat, i: nat)
    requires Chosen(h, R, t, i)
    ensures !Blocked(c, h, R, t, i)
  {
    if Blocked(c, h, R, t, i) {
      var v := MajoritiesMeet(R, Ackers(h, R, t, i), Refusers(c, h, R, t, i));
      assert false;
    }
  }

  // ----- reasoning about rooted logs -----

  /** Log Matching: two logs whose entries at k have the same term agree up to k. */
  lemma SameTermSamePrefix(h: History, A: Log, B: Log, k: nat)
    requires Rooted(h.leaderLog, A) && Rooted(h.leaderLog, B)
    requires k < |A| && k < |B| && A[k].term == B[k].term
    ensures A[..k + 1] == B[..k + 1]
  {
    assert FromLeader(h.leaderLog, A, k) && FromLeader(h.leaderLog, B, k);
  }

  lemma PrefixGood(h: History, L: Log, bound: int, i: nat)
    requires GoodLog(h, L, bound) && i <= |L|
    ensures GoodLog(h, L[..i], bound)
  {
    forall k | 0 <= k < i ensures FromLeader(h.leaderLog, L[..i], k) {
      assert FromLeader(h.leaderLog, L, k);
      assert L[..i][..k + 1] == L[..k + 1];
    }
  }

  /** The heart of the vote restriction: a candidate log C at least as
      up-to-date as a voter log V that holds entry i of term t holds it too,
      or the entry is blocked. */
  lemma UpToDateHolds(c: Nodes, h: History, R: set<Host>, C: Log, V: Log, t: nat, i: nat)
    requires LeadersOk(h, R) && LeadersComplete(c, h, R)
    requires Marked(h, t, i) && Holds(h, V, t, i)
    requires GoodLog(h, V, LastTerm(V)) && GoodLog(h, C, LastTerm(C))
    requires UpToDate(LastTerm(C), |C|, LastTerm(V), |V|)
    ensures Holds(h, C, t, i) || Blocked(c, h, R, t, i)
  {
    assert V[i - 1] == V[..i][i - 1] == h.leaderLog[t][i - 1];
    assert LastTerm(V) >= t;
    assert C != [];
    var top := LastTerm(C);
    var last := |C| - 1;
    assert FromLeader(h.leaderLog, C, last);
    assert C[..last + 1] == C;
    var T := h.leaderLog[top];
    assert C == T[..|C|];
    if top == t {
      assert C[..i] == T[..i];
    } else {
      assert LeaderOk(h, R, top);
      assert Carries(c, h, R, top, t, i);
      if !Blocked(c, h, R, t, i) {
        var K := h.candLog[(h.leaderOf[top], top)];
        assert Holds(h, K, t, i);
        assert K[..i] == T[..i];
        assert T[i - 1] == T[..i][i - 1] == h.leaderLog[t][..i][i - 1];
        assert last >= i - 1 by {
          assert T[last].term == top && T[i - 1].term == t;
        }
        assert C[..i] == T[..i];
      }
    }
  }

  // ----- the three cross-server facts, one instance at a time -----

  lemma KeptStays(c: Nodes, h: History, c2: Nodes, h2: History, R: set<Host>, L: Log, t: nat, i: nat)
    requires Advances(c, h, c2, h2)
    requires Holds(h, L, t, i) || Blocked(c, h, R, t, i)
    ensures Holds(h2, L, t, i) || Blocked(c2, h2, R, t, i)
  {
    if Blocked(c, h, R, t, i) {
      BlockedStays(c, h, c2, h2, R, t, i);
    }
  }

  /** Nothing new was marked: no leader appended. */
  ghost predicate SameMarks(h: History, h2: History) {
    forall t, i | Marked(h2, t, i) :: Marked(h, t, i)
  }

  lemma VoteStays(c: Nodes, h: History, c2: Nodes, h2: History, R: set<Host>,
                  v: Host, u: nat, t: nat, i: nat)
    requires Advances(c, h, c2, h2) && SameMarks(h, h2)
    requires VoteOk(c, h, R, v, u, t, i)
    requires (v, u) in h.votes && (h.votes[(v, u)], u) in h.candLog && v in c && u <= c[v].term
    ensures VoteOk(c2, h2, R, v, u, t, i)
  {
    if t < u && Acked(h2, v, t, i) && Marked(h2, t, i) {
      KeptStays(c, h, c2, h2, R, h.candLog[(h.votes[(v, u)], u)], t, i);
    }
  }

  lemma CarriesStays(c: Nodes, h: History, c2: Nodes, h2: History, R: set<Host>, u: nat, t: nat, i: nat)
    requires Advances(c, h, c2, h2) && SameMarks(h, h2)
    requires Carries(c, h, R, u, t, i)
    requires u in h.leaderOf && (h.leaderOf[u], u) in h.candLog
    ensures Carries(c2, h2, R, u, t, i)
  {
    if t < u && Marked(h2, t, i) {
      KeptStays(c, h, c2, h2, R, h.candLog[(h.leaderOf[u], u)], t, i);
    }
  }

  lemma AcksAllStay(c: Nodes, h: History, c2: Nodes, h2: History, R: set<Host>)
    requires Advances(c, h, c2, h2) && SameMarks(h, h2) && AcksKept(c, h, R)
    requires forall v | v in c :: c2[v].log == c[v].log
    requires forall v, t, i | Acked(h2, v, t, i) && Marked(h2, t, i) :: Acked(h, v, t, i)
    ensures AcksKept(c2, h2, R)
  {
    forall v, t: nat, i: nat | Acked(h2, v, t, i) && Marked(h2, t, i) && v in c2
      ensures Holds(h2, c2[v].log, t, i) || Blocked(c2, h2, R, t, i)
    {
      assert Acked(h, v, t, i) && Marked(h, t, i);
      KeptStays(c, h, c2, h2, R, c[v].log, t, i);
    }
  }

  lemma VotesAllStay(c: Nodes, h: History, c2: Nodes, h2: History, R: set<Host>)
    requires Advances(c, h, c2, h2) && SameMarks(h, h2) && BallotsOk(h, R)
    requires TermsOk(c, h) && VotesInformed(c, h, R) && h2.votes == h.votes
    ensures VotesInformed(c2, h2, R)
  {
    hide Advances, SameMarks;
    forall v, u: nat, t: nat, i: nat ensures VoteOk(c2, h2, R, v, u, t, i) {
      if (v, u) in h.votes {
        assert VoteOk(c, h, R, v, u, t, i);
        VoteStays(c, h, c2, h2, R, v, u, t, i);
      }
    }
  }

  lemma CarriesAllStay(c: Nodes, h: History, c2: Nodes, h2: History, R: set<Host>)
    requires Advances(c, h, c2, h2) && SameMarks(h, h2) && LeadersOk(h, R)
    requires LeadersComplete(c, h, R) && h2.leaderOf == h.leaderOf
    ensures LeadersComplete(c2, h2, R)
  {
    hide Advances, SameMarks;
    forall u: nat, t: nat, i: nat ensures Carries(c2, h2, R, u, t, i) {
      if u in h.leaderOf {
        assert LeaderOk(h, R, u) && Carries(c, h, R, u, t, i);
        CarriesStays(c, h, c2, h2, R, u, t, i);
      }
    }
  }

  // ----- moves that leave the history alone -----

  lemma SameLogs(c: Nodes, c2: Nodes, h: History, R: set<Host>)
    requires LeadersOk(h, R) && BallotsOk(h, R) && TermsOk(c, h)
    requires AcksKept(c, h, R) && VotesInformed(c, h, R) && LeadersComplete(c, h, R)
    requires c2.Keys == c.Keys
    requires forall v | v in c :: c2[v].log == c[v].log && c[v].term <= c2[v].term
    ensures AcksKept(c2, h, R) && VotesInformed(c2, h, R) && LeadersComplete(c2, h, R)
  {
    hide LeadersOk, BallotsOk, TermsOk, VotesInformed, LeadersComplete;
    assert Advances(c, h, c2, h) && SameMarks(h, h);
    AcksAllStay(c, h, c2, h, R);
    VotesAllStay(c, h, c2, h, R);
    CarriesAllStay(c, h, c2, h, R);
  }

  /** Replacing a server by one with the same log and no smaller term. */
  lemma LocalMove(c: Cluster, h: History, R: set<Host>, n: Node)
    requires Inv(c, h, R) && n.id in R
    requires NodeOk(h, R, n)
    requires n.log == c.nodes[n.id].log && n.term >= c.nodes[n.id].term
    ensures Inv(Put(c, n), h, R)
  {
    hide NetOk, AcksKept, VotesInformed, LeadersComplete, LeadersOk, BallotsOk, CandsOk, AcksOk, NodeOk;
    SameLogs(c.nodes, Put(c, n).nodes, h, R);
  }

  lemma CandOkStays(h: History, h2: History, R: set<Host>, v: Host, t: nat)
    requires Extends(h, h2)
    requires (v, t) in h.candLog && CandOk(h, R, v, t)
    ensures CandOk(h2, R, v, t)
  {
    GoodLogExtends(h, h2, h.candLog[(v, t)], t - 1, t - 1);
  }

  lemma LeaderOkStays(h: History, h2: History, R: set<Host>, t: nat)
    requires Extends(h, h2)
    requires t in h.leaderLog && LeaderOk(h, R, t) && h2.leaderLog[t] == h.leaderLog[t]
    ensures LeaderOk(h2, R, t)
  {
    GoodLogExtends(h, h2, h.leaderLog[t], t, t);
    MajorityGrows(R, Voters(h, R, t, h.leaderOf[t]), Voters(h2, R, t, h.leaderOf[t]));
  }

  lemma NodeLogGood(h: History, R: set<Host>, n: Node)
    requires NodeOk(h, R, n)
    ensures GoodLog(h, n.log, n.term)
  {
  }

  // ----- standing for election -----

  ghost function StandHistory(h: History, v: Host, t: nat, L: Log): History {
    h.(votes := h.votes[(v, t) := v], candLog := h.candLog[(v, t) := L])
  }

  lemma StandHistoryOk(h: History, R: set<Host>, v: Host, t: nat, L: Log)
    requires HistoryOk(h, R)
    requires v in R && t >= 1 && (v, t) !in h.votes && GoodLog(h, L, t - 1)
    ensures Extends(h, StandHistory(h, v, t, L)) && HistoryOk(StandHistory(h, v, t, L), R)
  {
    var h2 := StandHistory(h, v, t, L);
    forall x, u | (x, u) in h.candLog ensures (x, u) in h.votes {
      assert CandOk(h, R, x, u);
    }
    assert Extends(h, h2);
    forall x, u | (x, u) in h2.candLog ensures CandOk(h2, R, x, u) {
      if (x, u) in h.candLog { CandOkStays(h, h2, R, x, u); } else { GoodLogExtends(h, h2, L, t - 1, t - 1); }
    }
    forall u | u in h2.leaderLog ensures LeaderOk(h2, R, u) {
      LeaderOkStays(h, h2, R, u);
    }
  }

  lemma StandMove(c: Cluster, h: History, R: set<Host>, n: Node) returns (h2: History)
    requires Inv(c, h, R) && n.id in R && c.nodes[n.id] == n && n.role != Leader
    ensures Extends(h, h2) && Inv(Put(c, Stand(n)), h2, R)
  {
    hide NetOk, AcksKept, VotesInformed, LeadersComplete, Extends, LeadersOk, CandsOk, BallotsOk, AcksOk, TermsOk,
      NodeOk, GoodLog;
    var s := Stand(n);
    h2 := StandHistory(h, n.id, s.term, n.log);
    StandTerms(c.nodes, h, h2, n);
    NodeLogGood(h, R, n);
    StandHistoryOk(h, R, n.id, s.term, n.log);
    NetExtends(c.net, c.published, h, h2, R);
    StandNodes(c.nodes, h, h2, R, n);
    StandCross(c.nodes, h, h2, R, n);
  }

  lemma StandTerms(c: Nodes, h: History, h2: History, n: Node)
    requires TermsOk(c, h) && n.id in c && c[n.id] == n
    requires h2 == StandHistory(h, n.id, n.term + 1, n.log)
    ensures (n.id, n.term + 1) !in h.votes
    ensures TermsOk(c[n.id := Stand(n)], h2)
  {
  }

  lemma StandNode(h: History, h2: History, R: set<Host>, n: Node)
    requires LeadersOk(h, R) && CandsOk(h, R) && NodeOk(h, R, n) && n.role != Leader
    requires (n.id, n.term + 1) !in h.votes
    requires h2 == StandHistory(h, n.id, n.term + 1, n.log) && Extends(h, h2)
    ensures NodeOk(h2, R, Stand(n))
  {
    hide GoodLog, Committed;
    var s := Stand(n);
    GoodLogExtends(h, h2, n.log, n.term, s.term);
    CommittedExtends(h, h2, R, n.term, s.term, n.log[..n.commitIndex]);
    assert CommitOk(h2, R, s);
    if s.term in h.leaderOf {
      assert LeaderOk(h, R, s.term);
      assert CandOk(h, R, h.leaderOf[s.term], s.term);
    }
    assert CandidateOk(h2, R, s);
  }

  lemma StandNodes(c: Nodes, h: History, h2: History, R: set<Host>, n: Node)
    requires LeadersOk(h, R) && CandsOk(h, R) && NodesOk(c, h, R) && TermsOk(c, h)
    requires n.id in R && c[n.id] == n && n.role != Leader
    requires h2 == StandHistory(h, n.id, n.term + 1, n.log) && Extends(h, h2)
    ensures NodesOk(c[n.id := Stand(n)], h2, R)
  {
    hide Extends, LeadersOk, CandsOk, NodeOk;
    var c2 := c[n.id := Stand(n)];
    assert (n.id, n.term + 1) !in h.votes;
    forall v | v in c2 ensures c2[v].id == v && NodeOk(h2, R, c2[v]) {
      if v != n.id {
        NodeExtends(h, h2, R, c[v]);
      } else {
        StandNode(h, h2, R, n);
      }
    }
  }

  lemma StandCross(c: Nodes, h: History, h2: History, R: set<Host>, n: Node)
    requires LeadersOk(h, R) && BallotsOk(h, R) && CrossOk(c, h, R)
    requires n.id in c && c[n.id] == n
    requires h2 == StandHistory(h, n.id, n.term + 1, n.log) && Extends(h, h2)
    ensures AcksKept(c[n.id := Stand(n)], h2, R)
    ensures VotesInformed(c[n.id := Stand(n)], h2, R)
    ensures LeadersComplete(c[n.id := Stand(n)], h2, R)
  {
    var c2 := c[n.id := Stand(n)];
    assert Advances(c, h, c2, h2) && SameMarks(h, h2);
    AcksAllStay(c, h, c2, h2, R);
    CarriesAllStay(c, h, c2, h2, R);
    NewVoteInformed(c, h, c2, h2, R, n, n.id, n.term + 1);
  }

  /** One new vote is informed when the voter's acknowledgements are in the
      log of the candidate it backs. */
  lemma NewVoteInformed(c: Nodes, h: History, c2: Nodes, h2: History, R: set<Host>, n: Node, x: Host, u: nat)
    requires Advances(c, h, c2, h2) && SameMarks(h, h2) && BallotsOk(h, R) && CrossOk(c, h, R)
    requires h2.votes == h.votes[(n.id, u) := x] && h2.acked == h.acked && (x, u) in h2.candLog
    requires (n.id, u) !in h.votes
    requires forall t: nat, i: nat | Acked(h, n.id, t, i) && Marked(h, t, i) ::
               Holds(h, h2.candLog[(x, u)], t, i) || Blocked(c, h, R, t, i)
    ensures VotesInformed(c2, h2, R)
  {
    hide Advances, SameMarks, AcksKept, LeadersComplete;
    forall v, w: nat, t: nat, i: nat ensures VoteOk(c2, h2, R, v, w, t, i) {
      if (v, w) in h.votes {
        assert VoteOk(c, h, R, v, w, t, i);
        VoteStays(c, h, c2, h2, R, v, w, t, i);
      } else if (v, w) in h2.votes && Acked(h2, v, t, i) && Marked(h2, t, i) {
        MarkedBefore(h, h2, t, i);
        assert Acked(h, v, t, i);
        KeptStays(c, h, c2, h2, R, h2.candLog[(x, u)], t, i);
      }
    }
  }

  lemma MarkedBefore(h: History, h2: History, t: nat, i: nat)
    requires SameMarks(h, h2) && Marked(h2, t, i)
    ensures Marked(h, t, i)
  {
  }

  // ----- granting a vote -----

  ghost function GrantHistory(h: History, v: Host, t: nat, x: Host): History {
    h.(votes := h.votes[(v, t) := x])
  }

  lemma GrantHistoryOk(h: History, R: set<Host>, v: Host, t: nat, x: Host)
    requires HistoryOk(h, R) && v in R && (v, t) !in h.votes && (x, t) in h.candLog
    ensures Extends(h, GrantHistory(h, v, t, x)) && HistoryOk(GrantHistory(h, v, t, x), R)
  {
    hide Extends, CandOk, LeaderOk;
    var h2 := GrantHistory(h, v, t, x);
    GrantExtends(h, v, t, x);
    forall y, u | (y, u) in h2.candLog ensures CandOk(h2, R, y, u) {
      CandOkStays(h, h2, R, y, u);
    }
    forall u | u in h2.leaderLog ensures LeaderOk(h2, R, u) {
      LeaderOkStays(h, h2, R, u);
    }
  }

  lemma GrantExtends(h: History, v: Host, t: nat, x: Host)
    requires (v, t) !in h.votes
    ensures Extends(h, GrantHistory(h, v, t, x))
  {
  }

  function GrantVote(n: Node, x: Host): Node {
    PersistTerm(n.(votedFor := Some(x)))
  }

  lemma GrantNode(h: History, h2: History, R: set<Host>, n: Node, x: Host)
    requires NodeOk(h, R, n) && n.votedFor == None
    requires h2 == GrantHistory(h, n.id, n.term, x) && Extends(h, h2)
    ensures NodeOk(h2, R, GrantVote(n, x))
  {
    var g := GrantVote(n, x);
    GoodLogExtends(h, h2, n.log, n.term, n.term);
    CommittedExtends(h, h2, R, n.term, n.term, n.log[..n.commitIndex]);
    assert CommitOk(h2, R, g);
    if n.role == Leader {
      LeadingExtends(h, h2, n);
    }
  }

  lemma LeadingExtends(h: History, h2: History, n: Node)
    requires Extends(h, h2) && LeadingOk(h, n) && h2.leaderLog[n.term] == h.leaderLog[n.term]
    ensures LeadingOk(h2, n)
  {
    forall p | p in n.peers
      ensures GetOr0(n.matchIndex, p) == 0 || Acked(h2, p, n.term, GetOr0(n.matchIndex, p))
    {
      assert GetOr0(n.matchIndex, p) == 0 || Acked(h, p, n.term, GetOr0(n.matchIndex, p));
    }
    assert Acked(h, n.id, n.term, |n.log|);
  }

  lemma GrantNodes(c: Nodes, h: History, h2: History, R: set<Host>, n: Node, x: Host)
    requires NodesOk(c, h, R) && n.id in R && c[n.id] == n && n.votedFor == None
    requires h2 == GrantHistory(h, n.id, n.term, x) && Extends(h, h2)
    ensures NodesOk(c[n.id := GrantVote(n, x)], h2, R)
  {
    hide NodeOk, Extends;
    var c2 := c[n.id := GrantVote(n, x)];
    forall v | v in c2 ensures c2[v].id == v && NodeOk(h2, R, c2[v]) {
      if v != n.id {
        NodeExtends(h, h2, R, c[v]);
      } else {
        GrantNode(h, h2, R, n, x);
      }
    }
  }

  /** The voter's acknowledged entries are all in the candidate's log. */
  lemma GrantInformed(c: Nodes, h: History, R: set<Host>, n: Node, C: Log, t: nat, i: nat)
    requires LeadersOk(h, R) && AcksKept(c, h, R) && LeadersComplete(c, h, R)
    requires n.id in c && c[n.id] == n
    requires GoodLog(h, n.log, n.term) && GoodLog(h, C, n.term)
    requires UpToDate(LastTerm(C), |C|, LastTerm(n.log), |n.log|)
    requires Acked(h, n.id, t, i) && Marked(h, t, i)
    ensures Holds(h, C, t, i) || Blocked(c, h, R, t, i)
  {
    if !Blocked(c, h, R, t, i) {
      assert Holds(h, n.log, t, i);
      UpToDateHolds(c, h, R, C, n.log, t, i);
    }
  }

  lemma GrantTerms(c: Nodes, h: History, h2: History, n: Node, x: Host)
    requires TermsOk(c, h) && n.id in c && c[n.id] == n
    requires h2 == GrantHistory(h, n.id, n.term, x) && Extends(h, h2)
    ensures var c2 := c[n.id := GrantVote(n, x)];
            && TermsOk(c2, h2) && Advances(c, h, c2, h2) && SameMarks(h, h2)
            && forall v | v in c :: c2[v].log == c[v].log
  {
  }

  lemma GrantCross(c: Nodes, h: History, h2: History, R: set<Host>, n: Node, x: Host)
    requires LeadersOk(h, R) && BallotsOk(h, R) && CrossOk(c, h, R)
    requires n.id in c && c[n.id] == n && (n.id, n.term) !in h.votes
    requires (x, n.term) in h.candLog
    requires GoodLog(h, n.log, n.term) && GoodLog(h, h.candLog[(x, n.term)], n.term)
    requires var C := h.candLog[(x, n.term)]; UpToDate(LastTerm(C), |C|, LastTerm(n.log), |n.log|)
    requires h2 == GrantHistory(h, n.id, n.term, x) && Extends(h, h2)
    ensures CrossOk(c[n.id := GrantVote(n, x)], h2, R)
  {
    hide GoodLog, LeaderOk, AcksKept, VotesInformed, LeadersComplete, UpToDate, LastTerm, Extends, Advances, SameMarks, TermsOk, GrantVote;
    var c2 := c[n.id := GrantVote(n, x)];
    GrantTerms(c, h, h2, n, x);
    AcksAllStay(c, h, c2, h2, R);
    CarriesAllStay(c, h, c2, h2, R);
    forall t: nat, i: nat | Acked(h, n.id, t, i) && Marked(h, t, i)
      ensures Holds(h, h2.candLog[(x, n.term)], t, i) || Blocked(c, h, R, t, i)
    {
      GrantInformed(c, h, R, n, h.candLog[(x, n.term)], t, i);
    }
    NewVoteInformed(c, h, c2, h2, R, n, x, n.term);
  }

  lemma GrantMove(c: Cluster, h: History, R: set<Host>, n: Node, x: Host) returns (h2: History)
    requires Inv(c, h, R) && n.id in R && c.nodes[n.id] == n && n.votedFor == None
    requires (x, n.term) in h.candLog
    requires var C := h.candLog[(x, n.term)]; UpToDate(LastTerm(C), |C|, LastTerm(n.log), |n.log|)
    ensures h2 == GrantHistory(h, n.id, n.term, x)
    ensures Extends(h, h2) && Inv(Put(c, GrantVote(n, x)), h2, R)
  {
    hide NetOk, CrossOk, Extends, LeadersOk, CandsOk, BallotsOk, AcksOk, NodeOk, GoodLog;
    h2 := GrantHistory(h, n.id, n.term, x);
    NotYetVoted(h, R, n);
    CandLogGood(h, R, x, n.term);
    NodeLogGood(h, R, n);
    GrantHistoryOk(h, R, n.id, n.term, x);
    NetExtends(c.net, c.published, h, h2, R);
    GrantNodes(c.nodes, h, h2, R, n, x);
    GrantCross(c.nodes, h, h2, R, n, x);
  }

  lemma NotYetVoted(h: History, R: set<Host>, n: Node)
    requires NodeOk(h, R, n) && n.votedFor == None
    ensures (n.id, n.term) !in h.votes
  {
  }

  lemma CandLogGood(h: History, R: set<Host>, x: Host, t: nat)
    requires CandsOk(h, R) && (x, t) in h.candLog
    ensures t >= 1 && GoodLog(h, h.candLog[(x, t)], t - 1) && GoodLog(h, h.candLog[(x, t)], t)
  {
    assert CandOk(h, R, x, t);
  }

  // ----- taking leadership -----

  ghost function WinHistory(h: History, v: Host, t: nat, L: Log): History {
    h.(leaderOf := h.leaderOf[t := v], leaderLog := h.leaderLog[t := L], acked := h.acked[(v, t) := |L|])
  }

  /** Election Safety at the moment of victory: the term has no leader yet. */
  lemma FreshTerm(h: History, R: set<Host>, n: Node)
    requires LeadersOk(h, R) && CandidateOk(h, R, n) && Majority(R, Voters(h, R, n.term, n.id))
    ensures n.term !in h.leaderOf
  {
    if n.term in h.leaderOf {
      assert LeaderOk(h, R, n.term);
      var v := MajoritiesMeet(R, Voters(h, R, n.term, n.id), Voters(h, R, n.term, h.leaderOf[n.term]));
    }
  }

  lemma WonMajority(h: History, R: set<Host>, n: Node)
    requires NodeOk(h, R, n) && n.role == Candidate && WonElection(n)
    ensures Majority(R, Voters(h, R, n.term, n.id))
  {
    ElementsSize(n.peers);
    assert |R| == |n.peers| + 1 by { assert R == Elements(n.peers) + {n.id}; }
    SubsetSize(n.votesGranted, Voters(h, R, n.term, n.id));
  }

  lemma WinHistoryOk(h: History, R: set<Host>, v: Host, t: nat)
    requires HistoryOk(h, R) && t !in h.leaderOf && (v, t) in h.candLog
    requires Majority(R, Voters(h, R, t, v))
    ensures var h2 := WinHistory(h, v, t, h.candLog[(v, t)]); Extends(h, h2) && HistoryOk(h2, R) && SameMarks(h, h2)
    ensures (v, t) !in h.acked && v in R
  {
    hide CandOk, LeaderOk, SameMarks, Majority, Voters, Extends;
    var L := h.candLog[(v, t)];
    var h2 := WinHistory(h, v, t, L);
    WinExtends(h, v, t, L);
    CandInRoster(h, R, v, t);
    forall y, u | (y, u) in h2.candLog ensures CandOk(h2, R, y, u) {
      CandOkStays(h, h2, R, y, u);
    }
    forall u | u in h2.leaderLog ensures LeaderOk(h2, R, u) {
      if u in h.leaderLog { LeaderOkStays(h, h2, R, u); } else { NewLeaderOk(h, h2, R, v, t); }
    }
    WinMarks(h, R, v, t);
  }

  lemma WinExtends(h: History, v: Host, t: nat, L: Log)
    requires t !in h.leaderOf && t !in h.leaderLog && (v, t) !in h.acked
    ensures Extends(h, WinHistory(h, v, t, L))
  {
  }

  lemma CandInRoster(h: History, R: set<Host>, v: Host, t: nat)
    requires (v, t) in h.candLog && CandOk(h, R, v, t)
    ensures v in R
  {
  }

  lemma NewLeaderOk(h: History, h2: History, R: set<Host>, v: Host, t: nat)
    requires (v, t) in h.candLog && CandOk(h, R, v, t) && Majority(R, Voters(h, R, t, v))
    requires h2 == WinHistory(h, v, t, h.candLog[(v, t)]) && Extends(h, h2)
    ensures LeaderOk(h2, R, t)
  {
    GoodLogExtends(h, h2, h.candLog[(v, t)], t - 1, t);
    assert Voters(h2, R, t, v) == Voters(h, R, t, v);
  }

  lemma WinMarks(h: History, R: set<Host>, v: Host, t: nat)
    requires (v, t) in h.candLog && CandOk(h, R, v, t) && t !in h.leaderLog
    ensures SameMarks(h, WinHistory(h, v, t, h.candLog[(v, t)]))
  {
  }

  lemma WinNode(h: History, h2: History, R: set<Host>, n: Node)
    requires NodeOk(h, R, n) && n.role == Candidate && n.term !in h.leaderOf
    requires h2 == WinHistory(h, n.id, n.term, n.log) && Extends(h, h2)
    ensures NodeOk(h2, R, TakeLeadership(n))
  {
    hide GoodLog, Committed;
    var w := TakeLeadership(n);
    GoodLogExtends(h, h2, n.log, n.term, n.term);
    CommittedExtends(h, h2, R, n.term, n.term, n.log[..n.commitIndex]);
    assert CommitOk(h2, R, w);
    assert LeadingOk(h2, w);
  }

  lemma WinNodes(c: Nodes, h: History, h2: History, R: set<Host>, n: Node)
    requires NodesOk(c, h, R) && LeadersOk(h, R)
    requires n.id in R && c[n.id] == n && n.role == Candidate && n.term !in h.leaderOf
    requires h2 == WinHistory(h, n.id, n.term, n.log) && Extends(h, h2)
    ensures NodesOk(c[n.id := TakeLeadership(n)], h2, R)
  {
    hide NodeOk, Extends, LeaderOk;
    var c2 := c[n.id := TakeLeadership(n)];
    forall v | v in c2 ensures c2[v].id == v && NodeOk(h2, R, c2[v]) {
      if v != n.id {
        LeaderTermKnown(h, R, c[v]);
        NodeExtends(h, h2, R, c[v]);
      } else {
        WinNode(h, h2, R, n);
      }
    }
  }

  lemma LeaderTermKnown(h: History, R: set<Host>, n: Node)
    requires NodeOk(h, R, n)
    ensures n.role == Leader ==> n.term in h.leaderOf && h.leaderOf[n.term] == n.id
  {
  }

  /** Leader Completeness at the moment of victory: either no voter holds the
      older entry, and then it is blocked, or the winner holds it. */
  lemma WinCarries(c: Nodes, h: History, R: set<Host>, v: Host, u: nat, t: nat, i: nat)
    requires TermsOk(c, h) && VotesInformed(c, h, R)
    requires (v, u) in h.candLog && Majority(R, Voters(h, R, u, v))
    requires t < u && Marked(h, t, i)
    ensures Holds(h, h.candLog[(v, u)], t, i) || Blocked(c, h, R, t, i)
  {
    if x :| x in Voters(h, R, u, v) && Acked(h, x, t, i) {
      assert VoteOk(c, h, R, x, u, t, i);
    } else {
      forall x | x in Voters(h, R, u, v) ensures x in Refusers(c, h, R, t, i) {
        assert Refuses(c, h, x, t, i);
      }
      MajorityGrows(R, Voters(h, R, u, v), Refusers(c, h, R, t, i));
    }
  }

  lemma WinCross(c: Nodes, h: History, h2: History, R: set<Host>, n: Node)
    requires LeadersOk(h, R) && BallotsOk(h, R) && CrossOk(c, h, R)
    requires n.id in c && c[n.id] == n && n.term !in h.leaderOf
    requires (n.id, n.term) in h.candLog && h.candLog[(n.id, n.term)] == n.log
    requires (n.id, n.term) !in h.acked
    requires Majority(R, Voters(h, R, n.term, n.id))
    requires h2 == WinHistory(h, n.id, n.term, n.log) && Extends(h, h2) && SameMarks(h, h2)
    ensures CrossOk(c[n.id := TakeLeadership(n)], h2, R)
  {
    hide LeaderOk, AcksKept, VotesInformed, LeadersComplete;
    var c2 := c[n.id := TakeLeadership(n)];
    WinTerms(c, h, h2, n);
    WinAcks(c, h, h2, n);
    VotesAllStay(c, h, c2, h2, R);
    AcksAllStay(c, h, c2, h2, R);
    WinLeaders(c, h, c2, h2, R, n);
  }

  lemma WinTerms(c: Nodes, h: History, h2: History, n: Node)
    requires TermsOk(c, h) && n.id in c && c[n.id] == n && (n.id, n.term) !in h.acked && n.term !in h.leaderLog
    requires h2 == WinHistory(h, n.id, n.term, n.log) && Extends(h, h2)
    ensures TermsOk(c[n.id := TakeLeadership(n)], h2)
  {
    var c2 := c[n.id := TakeLeadership(n)];
    forall v, t | (v, t) in h2.acked && t == c2[v].term ensures Holds(h2, c2[v].log, t, h2.acked[(v, t)]) {
      if (v, t) in h.acked { HoldsExtends(h, h2, c[v].log, t, h.acked[(v, t)]); }
    }
  }

  lemma WinAcks(c: Nodes, h: History, h2: History, n: Node)
    requires n.id in c && c[n.id] == n && (n.id, n.term) !in h.acked && n.term !in h.leaderLog
    requires h2 == WinHistory(h, n.id, n.term, n.log) && Extends(h, h2) && SameMarks(h, h2)
    ensures Advances(c, h, c[n.id := TakeLeadership(n)], h2)
    ensures forall v, t, i | Acked(h2, v, t, i) && Marked(h2, t, i) :: Acked(h, v, t, i)
  {
    hide Extends;
    forall v, t: nat, i: nat | Acked(h2, v, t, i) && Marked(h2, t, i) ensures Acked(h, v, t, i) {
      MarkedBefore(h, h2, t, i);
    }
  }

  lemma WinLeaders(c: Nodes, h: History, c2: Nodes, h2: History, R: set<Host>, n: Node)
    requires LeadersOk(h, R) && CrossOk(c, h, R) && n.term !in h.leaderOf
    requires (n.id, n.term) in h.candLog && h.candLog[(n.id, n.term)] == n.log
    requires Majority(R, Voters(h, R, n.term, n.id))
    requires Advances(c, h, c2, h2) && h2 == WinHistory(h, n.id, n.term, n.log) && SameMarks(h, h2)
    ensures LeadersComplete(c2, h2, R)
  {
    hide Advances, SameMarks, AcksKept, VotesInformed, TermsOk;
    forall u: nat, t: nat, i: nat ensures Carries(c2, h2, R, u, t, i) {
      if u in h.leaderOf {
        assert LeaderOk(h, R, u) && Carries(c, h, R, u, t, i);
        CarriesStays(c, h, c2, h2, R, u, t, i);
      } else if u == n.term && t < u && Marked(h2, t, i) {
        MarkedBefore(h, h2, t, i);
        WinCarries(c, h, R, n.id, u, t, i);
        KeptStays(c, h, c2, h2, R, n.log, t, i);
      }
    }
  }

  lemma CandidateFacts(h: History, R: set<Host>, n: Node)
    requires NodeOk(h, R, n) && n.role == Candidate
    ensures CandidateOk(h, R, n) && (n.id, n.term) in h.candLog && n.log == h.candLog[(n.id, n.term)]
  {
  }

  lemma WinMove(c: Cluster, h: History, R: set<Host>, n: Node) returns (h2: History)
    requires Inv(c, h, R) && n.id in R && c.nodes[n.id] == n && n.role == Candidate && WonElection(n)
    ensures Extends(h, h2) && Inv(Put(c, TakeLeadership(n)), h2, R)
  {
    hide NetOk, CrossOk, Extends, LeadersOk, CandsOk, BallotsOk, AcksOk, GoodLog, CommitOk, NodeOk, CandidateOk;
    WonMajority(h, R, n);
    CandidateFacts(h, R, n);
    FreshTerm(h, R, n);
    h2 := WinHistory(h, n.id, n.term, n.log);
    WinHistoryOk(h, R, n.id, n.term);
    NetExtends(c.net, c.published, h, h2, R);
    WinNodes(c.nodes, h, h2, R, n);
    WinCross(c.nodes, h, h2, R, n);
  }

  // ----- a leader appends -----

  ghost function AppendHistory(h: History, v: Host, t: nat, L: Log): History {
    h.(leaderLog := h.leaderLog[t := L], acked := h.acked[(v, t) := |L|])
  }

  lemma AppendExtends(h: History, n: Node, e: Entry)
    requires LeadingOk(h, n) && AcksBounded(h)
    ensures Extends(h, AppendHistory(h, n.id, n.term, n.log + [e]))
  {
  }

  ghost predicate AcksBounded(h: History) {
    forall v, t | (v, t) in h.acked :: t in h.leaderLog && h.acked[(v, t)] <= |h.leaderLog[t]|
  }

  lemma AppendLogGood(h: History, h2: History, n: Node, e: Entry)
    requires n.term >= 1 && e.term == n.term && GoodLog(h, n.log, n.term)
    requires h2 == AppendHistory(h, n.id, n.term, n.log + [e]) && Extends(h, h2)
    ensures GoodLog(h2, n.log + [e], n.term)
  {
    var L := n.log + [e];
    GoodLogExtends(h, h2, n.log, n.term, n.term);
    forall k | 0 <= k < |L| ensures FromLeader(h2.leaderLog, L, k) {
      if k < |n.log| {
        assert FromLeader(h2.leaderLog, n.log, k);
        assert L[..k + 1] == n.log[..k + 1];
      }
    }
  }

  lemma AppendHistoryOk(h: History, R: set<Host>, n: Node, e: Entry)
    requires HistoryOk(h, R) && n.id in R && LeadingOk(h, n) && e.term == n.term && GoodLog(h, n.log, n.term)
    ensures var h2 := AppendHistory(h, n.id, n.term, n.log + [e]); Extends(h, h2) && HistoryOk(h2, R)
  {
    hide CandOk, LeaderOk, Rooted, Sorted, Extends;
    var h2 := AppendHistory(h, n.id, n.term, n.log + [e]);
    AppendExtends(h, n, e);
    forall y, u | (y, u) in h2.candLog ensures CandOk(h2, R, y, u) {
      CandOkStays(h, h2, R, y, u);
    }
    forall u | u in h2.leaderLog ensures LeaderOk(h2, R, u) {
      if u != n.term { LeaderOkStays(h, h2, R, u); } else { AppendLeaderOk(h, h2, R, n, e); }
    }
  }

  lemma AppendLeaderOk(h: History, h2: History, R: set<Host>, n: Node, e: Entry)
    requires CandsOk(h, R) && LeadersOk(h, R) && LeadingOk(h, n) && e.term == n.term && GoodLog(h, n.log, n.term)
    requires h2 == AppendHistory(h, n.id, n.term, n.log + [e]) && Extends(h, h2)
    ensures LeaderOk(h2, R, n.term)
  {
    assert LeaderOk(h, R, n.term);
    assert CandOk(h, R, n.id, n.term);
    AppendLogGood(h, h2, n, e);
    assert Voters(h2, R, n.term, n.id) == Voters(h, R, n.term, n.id);
  }

  lemma AppendNode(h: History, h2: History, R: set<Host>, n: Node, cmd: Bytes)
    requires NodeOk(h, R, n) && n.role == Leader && n.term >= 1
    requires h2 == AppendHistory(h, n.id, n.term, n.log + [Entry(n.term, cmd)]) && Extends(h, h2)
    ensures NodeOk(h2, R, LeaderAppend(n, cmd))
  {
    var a := LeaderAppend(n, cmd);
    assert a.log == n.log + [Entry(n.term, cmd)];
    AppendLogGood(h, h2, n, Entry(n.term, cmd));
    assert a.log[..n.commitIndex] == n.log[..n.commitIndex];
    CommittedExtends(h, h2, R, n.term, n.term, n.log[..n.commitIndex]);
    assert CommitOk(h2, R, a);
    forall p | p in a.peers
      ensures GetOr0(a.matchIndex, p) == 0 || Acked(h2, p, a.term, GetOr0(a.matchIndex, p))
    {
      assert GetOr0(n.matchIndex, p) == 0 || Acked(h, p, n.term, GetOr0(n.matchIndex, p));
    }
    assert LeadingOk(h2, a);
  }

  lemma AppendNodes(c: Nodes, h: History, h2: History, R: set<Host>, n: Node, cmd: Bytes)
    requires NodesOk(c, h, R) && n.id in R && c[n.id] == n && n.role == Leader && n.term >= 1
    requires h2 == AppendHistory(h, n.id, n.term, n.log + [Entry(n.term, cmd)]) && Extends(h, h2)
    ensures NodesOk(c[n.id := LeaderAppend(n, cmd)], h2, R)
  {
    hide NodeOk, Extends;
    var c2 := c[n.id := LeaderAppend(n, cmd)];
    LeaderTermKnown(h, R, n);
    forall v | v in c2 ensures c2[v].id == v && NodeOk(h2, R, c2[v]) {
      if v != n.id {
        LeaderTermKnown(h, R, c[v]);
        NodeExtends(h, h2, R, c[v]);
      } else {
        AppendNode(h, h2, R, n, cmd);
      }
    }
  }

  /** The only new mark is the appended entry. */
  lemma AppendMarks(h: History, h2: History, n: Node, e: Entry, t: nat, i: nat)
    requires LeadingOk(h, n) && e.term == n.term
    requires h2 == AppendHistory(h, n.id, n.term, n.log + [e])
    ensures Marked(h2, t, i) ==> Marked(h, t, i) || (t == n.term && i == |n.log| + 1)
  {
  }

  /** Nobody but the leader can have acknowledged the appended entry. */
  lemma AppendUnacked(h: History, h2: History, n: Node, e: Entry, v: Host, t: nat, i: nat)
    requires LeadingOk(h, n) && AcksBounded(h)
    requires h2 == AppendHistory(h, n.id, n.term, n.log + [e])
    requires v != n.id || t != n.term
    ensures Acked(h2, v, t, i) == Acked(h, v, t, i)
    ensures t == n.term && i > |n.log| ==> !Acked(h2, v, t, i)
  {
  }

  lemma AppendTerms(c: Nodes, h: History, h2: History, n: Node, cmd: Bytes)
    requires TermsOk(c, h) && n.id in c && c[n.id] == n && LeadingOk(h, n)
    requires h2 == AppendHistory(h, n.id, n.term, n.log + [Entry(n.term, cmd)]) && Extends(h, h2)
    ensures TermsOk(c[n.id := LeaderAppend(n, cmd)], h2)
    ensures Advances(c, h, c[n.id := LeaderAppend(n, cmd)], h2)
  {
    var c2 := c[n.id := LeaderAppend(n, cmd)];
    assert Advances(c, h, c2, h2);
    forall v, t | (v, t) in h2.acked && t == c2[v].term ensures Holds(h2, c2[v].log, t, h2.acked[(v, t)]) {
      if v != n.id { HoldsExtends(h, h2, c[v].log, t, h.acked[(v, t)]); }
    }
  }

  lemma AppendAcks(c: Nodes, h: History, c2: Nodes, h2: History, R: set<Host>, n: Node, cmd: Bytes)
    requires AcksKept(c, h, R) && AcksBounded(h) && n.id in c && c[n.id] == n && LeadingOk(h, n)
    requires h2 == AppendHistory(h, n.id, n.term, n.log + [Entry(n.term, cmd)])
    requires c2 == c[n.id := LeaderAppend(n, cmd)] && Advances(c, h, c2, h2)
    ensures AcksKept(c2, h2, R)
  {
    hide Advances, AcksBounded;
    var e := Entry(n.term, cmd);
    forall v, t: nat, i: nat | Acked(h2, v, t, i) && Marked(h2, t, i) && v in c2
      ensures Holds(h2, c2[v].log, t, i) || Blocked(c2, h2, R, t, i)
    {
      if v == n.id && t == n.term {
        assert c2[v].log == h2.leaderLog[t];
      } else {
        AppendMarks(h, h2, n, e, t, i);
        AppendUnacked(h, h2, n, e, v, t, i);
        KeptStays(c, h, c2, h2, R, c[v].log, t, i);
        if v == n.id && Holds(h2, c[v].log, t, i) { assert c2[v].log[..i] == c[v].log[..i]; }
      }
    }
  }

  lemma AppendVotes(c: Nodes, h: History, c2: Nodes, h2: History, R: set<Host>, n: Node, cmd: Bytes)
    requires TermsOk(c, h) && VotesInformed(c, h, R) && BallotsOk(h, R) && AcksBounded(h)
    requires n.id in c && c[n.id] == n && LeadingOk(h, n)
    requires h2 == AppendHistory(h, n.id, n.term, n.log + [Entry(n.term, cmd)]) && Advances(c, h, c2, h2)
    ensures VotesInformed(c2, h2, R)
  {
    hide Advances, AcksBounded, LeadingOk;
    var e := Entry(n.term, cmd);
    forall v, u: nat, t: nat, i: nat ensures VoteOk(c2, h2, R, v, u, t, i) {
      if (v, u) in h.votes && t < u && Acked(h2, v, t, i) && Marked(h2, t, i) {
        assert VoteOk(c, h, R, v, u, t, i);
        AppendMarks(h, h2, n, e, t, i);
        AppendUnacked(h, h2, n, e, v, t, i);
        KeptStays(c, h, c2, h2, R, h.candLog[(h.votes[(v, u)], u)], t, i);
      }
    }
  }

  /** An entry appended after a later leader was elected is already blocked:
      the later leader's voters have moved on. */
  lemma AppendBlocked(c: Nodes, h: History, c2: Nodes, h2: History, R: set<Host>, n: Node, cmd: Bytes, u: nat)
    requires TermsOk(c, h) && AcksBounded(h) && n.id in c && c[n.id] == n && LeadingOk(h, n)
    requires h2 == AppendHistory(h, n.id, n.term, n.log + [Entry(n.term, cmd)])
    requires c2 == c[n.id := LeaderAppend(n, cmd)]
    requires u in h.leaderLog && LeaderOk(h, R, u) && n.term < u
    ensures Blocked(c2, h2, R, n.term, |n.log| + 1)
  {
    hide LeadingOk, AcksBounded, GoodLog;
    var V := Voters(h, R, u, h.leaderOf[u]);
    forall v | v in V ensures v in Refusers(c2, h2, R, n.term, |n.log| + 1) {
      VoteBound(c, h, v, u);
      AppendUnacked(h, h2, n, Entry(n.term, cmd), v, n.term, |n.log| + 1);
      assert Refuses(c2, h2, v, n.term, |n.log| + 1);
    }
    MajorityGrows(R, V, Refusers(c2, h2, R, n.term, |n.log| + 1));
  }

  lemma VoteBound(c: Nodes, h: History, v: Host, u: nat)
    requires TermsOk(c, h) && (v, u) in h.votes
    ensures v in c && u <= c[v].term
  {
  }

  lemma AppendLeaders(c: Nodes, h: History, c2: Nodes, h2: History, R: set<Host>, n: Node, cmd: Bytes)
    requires TermsOk(c, h) && LeadersComplete(c, h, R) && LeadersOk(h, R) && AcksBounded(h)
    requires n.id in c && c[n.id] == n && LeadingOk(h, n)
    requires h2 == AppendHistory(h, n.id, n.term, n.log + [Entry(n.term, cmd)])
    requires c2 == c[n.id := LeaderAppend(n, cmd)] && Advances(c, h, c2, h2)
    ensures LeadersComplete(c2, h2, R)
  {
    hide Advances, AcksBounded, LeadingOk, TermsOk, GoodLog, LeaderAppend;
    forall u: nat, t: nat, i: nat ensures Carries(c2, h2, R, u, t, i) {
      if u in h.leaderOf && t < u && Marked(h2, t, i) {
        assert LeaderOk(h, R, u) && Carries(c, h, R, u, t, i);
        AppendMarks(h, h2, n, Entry(n.term, cmd), t, i);
        if Marked(h, t, i) {
          KeptStays(c, h, c2, h2, R, h.candLog[(h.leaderOf[u], u)], t, i);
        } else {
          AppendBlocked(c, h, c2, h2, R, n, cmd, u);
        }
      }
    }
  }

  lemma AppendMove(c: Cluster, h: History, R: set<Host>, n: Node, cmd: Bytes) returns (h2: History)
    requires Inv(c, h, R) && n.id in R && c.nodes[n.id] == n && n.role == Leader
    ensures Extends(h, h2) && Inv(Put(c, LeaderAppend(n, cmd)), h2, R)
  {
    hide NetOk, Extends, LeadersOk, CandsOk, BallotsOk, AcksOk, GoodLog, CommitOk, TermsOk, AcksKept, VotesInformed,
      LeadersComplete, LeaderAppend, NodeOk, LeadingOk;
    LeaderFacts(h, R, n);
    h2 := AppendHistory(h, n.id, n.term, n.log + [Entry(n.term, cmd)]);
    var c2 := Put(c, LeaderAppend(n, cmd));
    LeaderAppendId(n, cmd);
    AppendHistoryOk(h, R, n, Entry(n.term, cmd));
    NetExtends(c.net, c.published, h, h2, R);
    AppendNodes(c.nodes, h, h2, R, n, cmd);
    AppendTerms(c.nodes, h, h2, n, cmd);
    AppendAcks(c.nodes, h, c2.nodes, h2, R, n, cmd);
    AppendVotes(c.nodes, h, c2.nodes, h2, R, n, cmd);
    AppendLeaders(c.nodes, h, c2.nodes, h2, R, n, cmd);
  }

  lemma LeaderAppendId(n: Node, cmd: Bytes)
    ensures LeaderAppend(n, cmd).id == n.id
  {
  }

  lemma LeaderFacts(h: History, R: set<Host>, n: Node)
    requires HistoryOk(h, R) && NodeOk(h, R, n) && n.role == Leader
    ensures LeadingOk(h, n) && GoodLog(h, n.log, n.term) && AcksBounded(h) && n.term >= 1
  {
    assert LeaderOk(h, R, n.term);
    assert CandOk(h, R, n.id, n.term);
  }
}
