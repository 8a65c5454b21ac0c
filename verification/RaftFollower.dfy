/** A follower accepting entries, and the commit index on both sides. */
module RaftFollower {
  import opened Foundation
  import opened RaftCore
  import opened RaftCluster
  import opened RaftInvariant
  import opened RaftProof

  // ----- what splicing a leader's slice into a rooted log gives -----

  /** After the consistency check the follower agrees with the leader up to prev. */
  lemma ConsistentPrefix(h: History, L: Log, T: Log, prev: nat)
    requires Rooted(h.leaderLog, L) && Rooted(h.leaderLog, T)
    requires prev <= |L| && prev <= |T| && TermAt(L, prev) == TermAt(T, prev)
    ensures L[..prev] == T[..prev]
  {
    if prev > 0 {
      SameTermSamePrefix(h, L, T, prev - 1);
    }
  }

  /** Skipping entries of matching term and truncating only on a conflict
      leaves either the old log or exactly the leader's prefix. */
  lemma SpliceResult(h: History, L: Log, T: Log, prev: nat, es: seq<Entry>)
    requires Rooted(h.leaderLog, L) && Rooted(h.leaderLog, T)
    requires prev <= |L| && prev + |es| <= |T| && es == T[prev..prev + |es|]
    requires TermAt(L, prev) == TermAt(T, prev)
    ensures var S := Splice(L, prev, es);
            && (S == L || S == T[..prev + |es|])
            && prev + |es| <= |S| && S[..prev + |es|] == T[..prev + |es|]
  {
    var m := prev + |es|;
    var k := Held(L, prev, es);
    ConsistentPrefix(h, L, T, prev);
    assert prev + k <= |L|;
    assert L[..prev + k] == T[..prev + k] by {
      if k > 0 {
        assert L[prev + (k - 1)].term == es[k - 1].term;
        SameTermSamePrefix(h, L, T, prev + k - 1);
      }
    }
    if k == |es| {
      assert L[..m] == T[..m];
    } else {
      assert L[..prev + k] + es[k..] == T[..m];
    }
  }

  /** A common prefix with the leader's log survives the splice: nothing below
      a conflict is truncated. */
  lemma SpliceKeeps(h: History, L: Log, T: Log, prev: nat, es: seq<Entry>, j: nat)
    requires Rooted(h.leaderLog, L) && Rooted(h.leaderLog, T)
    requires prev <= |L| && prev + |es| <= |T| && es == T[prev..prev + |es|]
    requires TermAt(L, prev) == TermAt(T, prev)
    requires j <= |L| && j <= |T| && L[..j] == T[..j]
    ensures var S := Splice(L, prev, es); j <= |S| && S[..j] == L[..j]
  {
    SpliceResult(h, L, T, prev, es);
    var k := Held(L, prev, es);
    if k < |es| && prev + k < |L| {
      assert L[prev + k].term != es[k].term && es[k] == T[prev + k];
      assert j <= prev + k by {
        assert forall x | 0 <= x < j :: L[x] == L[..j][x] == T[..j][x] == T[x];
      }
    }
  }

  // ----- a committed prefix is in the log of every leader from then on -----

  lemma ChosenInLeader(c: Nodes, h: History, R: set<Host>, t: nat, i: nat, u: nat, L: Log)
    requires u in h.leaderLog && LeaderOk(h, R, u) && Carries(c, h, R, u, t, i)
    requires Chosen(h, R, t, i) && t < u && |L| <= i && Holds(h, L, t, |L|)
    ensures L <= h.candLog[(h.leaderOf[u], u)] <= h.leaderLog[u]
  {
    ChosenNotBlocked(c, h, R, t, i);
    var K := h.candLog[(h.leaderOf[u], u)];
    assert K[..i] == h.leaderLog[t][..i];
    assert L == h.leaderLog[t][..i][..|L|];
    assert K[..|L|] == K[..i][..|L|] == L;
  }

  /** Leader Completeness, in the form the handlers need: what is committed by
      term t is a prefix of the log of any leader of term u >= t. */
  lemma CommittedInLeader(c: Nodes, h: History, R: set<Host>, t: nat, u: nat, L: Log)
    requires LeadersOk(h, R) && LeadersComplete(c, h, R)
    requires Committed(h, R, t, L) && t <= u && u in h.leaderLog
    ensures L <= h.leaderLog[u]
    ensures (h.leaderOf[u], u) in h.candLog
    ensures t < u ==> L <= h.candLog[(h.leaderOf[u], u)]
  {
    assert LeaderOk(h, R, u);
    if L != [] {
      var t0: nat, i: nat :| t0 <= t && Chosen(h, R, t0, i) && |L| <= i && Holds(h, L, t0, |L|);
      hide LeadersOk, Chosen, GoodLog;
      if t0 < u {
        assert Carries(c, h, R, u, t0, i);
        ChosenInLeader(c, h, R, t0, i, u, L);
      }
    }
  }

  // ----- accepting -----

  ghost function AcceptHistory(h: History, v: Host, t: nat, m: nat): History {
    h.(acked := h.acked[(v, t) := Max(m, if (v, t) in h.acked then h.acked[(v, t)] else 0)])
  }

  /** m carries a slice of the log of the leader of n's term, and n's log
      passes the consistency check. */
  ghost predicate Fits(h: History, n: Node, m: Message)
    requires m.AppendEntries?
  {
    && n.role == Follower
    && n.disk == Durable(n.term, n.votedFor, n.log)
    && n.term in h.leaderLog
    && GoodLog(h, n.log, n.term) && GoodLog(h, h.leaderLog[n.term], n.term)
    && var T := h.leaderLog[n.term]; var last := m.prevLogIndex + |m.entries|;
       && m.prevLogIndex <= |n.log| && last <= |T|
       && m.entries == T[m.prevLogIndex..last]
       && TermAt(n.log, m.prevLogIndex) == TermAt(T, m.prevLogIndex)
  }

  lemma PacketFits(h: History, R: set<Host>, n: Node, p: Packet)
    requires LeadersOk(h, R) && NodeOk(h, R, n) && n.role == Follower
    requires p.msg.AppendEntries? && PacketOk(h, R, p) && p.msg.term == n.term && Consistent(n.log, p.msg)
    ensures Fits(h, n, p.msg)
  {
    assert LeaderOk(h, R, n.term);
  }

  function Accepted(n: Node, m: Message): Node
    requires m.AppendEntries? && m.prevLogIndex <= |n.log|
  {
    AppendConflictFree(n, m.prevLogIndex, m.entries)
  }

  lemma AcceptedShape(h: History, n: Node, m: Message)
    requires m.AppendEntries? && m.prevLogIndex <= |n.log| && Fits(h, n, m)
    ensures var a := Accepted(n, m); var last := m.prevLogIndex + |m.entries|;
            && a == n.(log := a.log, disk := Durable(n.term, n.votedFor, a.log))
            && a.log == Splice(n.log, m.prevLogIndex, m.entries)
            && Holds(h, a.log, n.term, last)
            && GoodLog(h, a.log, n.term)
  {
    hide Accepted, AppendConflictFree, Splice, Rooted, Sorted;
    AcceptedIs(n, m);
    var T := h.leaderLog[n.term];
    SpliceResult(h, n.log, T, m.prevLogIndex, m.entries);
    PrefixGood(h, T, n.term, m.prevLogIndex + |m.entries|);
  }

  /** Writing only the changed suffix leaves the durable log equal to the live one. */
  lemma AcceptedIs(n: Node, m: Message)
    requires m.AppendEntries? && m.prevLogIndex <= |n.log| && n.disk == Durable(n.term, n.votedFor, n.log)
    ensures var a := Accepted(n, m);
            && a.log == Splice(n.log, m.prevLogIndex, m.entries)
            && a == n.(log := a.log, disk := Durable(n.term, n.votedFor, a.log))
  {
    var k := Held(n.log, m.prevLogIndex, m.entries);
    assert m.prevLogIndex + k <= |n.log|;
  }

  lemma AcceptKeeps(h: History, n: Node, m: Message, j: nat)
    requires m.AppendEntries? && m.prevLogIndex <= |n.log| && Fits(h, n, m)
    requires Holds(h, n.log, n.term, j)
    ensures var a := Accepted(n, m); j <= |a.log| && a.log[..j] == n.log[..j]
  {
    hide Accepted;
    AcceptedShape(h, n, m);
    SpliceKeeps(h, n.log, h.leaderLog[n.term], m.prevLogIndex, m.entries, j);
  }

  /** No truncation reaches an index at or below the commit index. */
  lemma AcceptKeepsCommitted(c: Nodes, h: History, R: set<Host>, n: Node, m: Message)
    requires LeadersOk(h, R) && LeadersComplete(c, h, R) && NodeOk(h, R, n)
    requires m.AppendEntries? && m.prevLogIndex <= |n.log| && Fits(h, n, m)
    ensures var a := Accepted(n, m); n.commitIndex <= |a.log| && a.log[..n.commitIndex] == n.log[..n.commitIndex]
  {
    CommittedInLeader(c, h, R, n.term, n.term, n.log[..n.commitIndex]);
    AcceptKeeps(h, n, m, n.commitIndex);
  }

  lemma AcceptHistoryOk(h: History, R: set<Host>, v: Host, t: nat, m: nat)
    requires HistoryOk(h, R) && v in R && t in h.leaderLog && m <= |h.leaderLog[t]|
    ensures var h2 := AcceptHistory(h, v, t, m); Extends(h, h2) && HistoryOk(h2, R) && SameMarks(h, h2)
  {
    hide CandOk, LeaderOk, Extends;
    var h2 := AcceptHistory(h, v, t, m);
    AcceptExtends(h, v, t, m);
    forall y, u | (y, u) in h2.candLog ensures CandOk(h2, R, y, u) {
      CandOkStays(h, h2, R, y, u);
    }
    forall u | u in h2.leaderLog ensures LeaderOk(h2, R, u) {
      LeaderOkStays(h, h2, R, u);
    }
  }

  lemma AcceptExtends(h: History, v: Host, t: nat, m: nat)
    ensures Extends(h, AcceptHistory(h, v, t, m))
  {
  }

  lemma AcceptNode(c: Nodes, h: History, h2: History, R: set<Host>, n: Node, m: Message)
    requires LeadersOk(h, R) && LeadersComplete(c, h, R) && NodeOk(h, R, n)
    requires m.AppendEntries? && m.prevLogIndex <= |n.log| && Fits(h, n, m)
    requires h2.votes == h.votes && h2.leaderOf == h.leaderOf && Extends(h, h2)
    ensures NodeOk(h2, R, Accepted(n, m))
  {
    hide LeadersOk, LeadersComplete, Committed, Accepted, GoodLog, Splice;
    var a := Accepted(n, m);
    AcceptedShape(h, n, m);
    AcceptKeepsCommitted(c, h, R, n, m);
    GoodLogExtends(h, h2, a.log, n.term, n.term);
    CommittedExtends(h, h2, R, n.term, n.term, n.log[..n.commitIndex]);
    forall k | 0 <= k < |a.applied| ensures a.applied[k] == Applied(k + 1, a.log[k].term, a.log[k].command) {
      assert a.log[k] == a.log[..n.commitIndex][k] == n.log[..n.commitIndex][k] == n.log[k];
    }
    assert CommitOk(h2, R, a);
  }

  lemma AcceptNodes(c: Nodes, h: History, h2: History, R: set<Host>, n: Node, m: Message, last: nat)
    requires NodesOk(c, h, R) && LeadersOk(h, R) && LeadersComplete(c, h, R)
    requires n.id in R && c[n.id] == n
    requires m.AppendEntries? && m.prevLogIndex <= |n.log| && Fits(h, n, m)
    requires h2 == AcceptHistory(h, n.id, n.term, last) && Extends(h, h2)
    ensures NodesOk(c[n.id := Accepted(n, m)], h2, R)
  {
    hide NodeOk, Extends, LeadersOk, LeadersComplete, Fits;
    var c2 := c[n.id := Accepted(n, m)];
    forall v | v in c2 ensures c2[v].id == v && NodeOk(h2, R, c2[v]) {
      if v != n.id {
        NodeExtends(h, h2, R, c[v]);
      } else {
        AcceptNode(c, h, h2, R, n, m);
      }
    }
  }

  /** A server that accepts keeps every earlier acknowledged entry that can
      still be chosen. */
  lemma AcceptKeepsAcks(c: Nodes, h: History, R: set<Host>, n: Node, m: Message, t: nat, i: nat)
    requires LeadersOk(h, R) && AcksKept(c, h, R) && LeadersComplete(c, h, R)
    requires n.id in c && c[n.id] == n && t <= n.term
    requires m.AppendEntries? && m.prevLogIndex <= |n.log| && Fits(h, n, m)
    requires Acked(h, n.id, t, i) && Marked(h, t, i)
    ensures Holds(h, Accepted(n, m).log, t, i) || Blocked(c, h, R, t, i)
  {
    if !Blocked(c, h, R, t, i) {
      assert Holds(h, n.log, t, i);
      assert Carries(c, h, R, n.term, t, i);
      assert LeaderOk(h, R, n.term);
      hide AcksKept, LeadersComplete, LeadersOk;
      if t < n.term {
        var K := h.candLog[(h.leaderOf[n.term], n.term)];
        assert K[..i] == h.leaderLog[n.term][..i];
      }
      AcceptKeeps(h, n, m, i);
    }
  }

  lemma AcceptTerms(c: Nodes, h: History, h2: History, n: Node, m: Message, last: nat)
    requires TermsOk(c, h) && n.id in c && c[n.id] == n
    requires m.AppendEntries? && m.prevLogIndex <= |n.log| && Fits(h, n, m)
    requires last == m.prevLogIndex + |m.entries|
    requires h2 == AcceptHistory(h, n.id, n.term, last) && Extends(h, h2)
    ensures TermsOk(c[n.id := Accepted(n, m)], h2)
    ensures Advances(c, h, c[n.id := Accepted(n, m)], h2)
  {
    hide Fits, GoodLog, Accepted, Splice, Extends;
    var a := Accepted(n, m);
    var c2 := c[n.id := a];
    AcceptedShape(h, n, m);
    assert Advances(c, h, c2, h2);
    assert Holds(h2, a.log, n.term, h2.acked[(n.id, n.term)]) by {
      if (n.id, n.term) in h.acked {
        var j := h.acked[(n.id, n.term)];
        assert Holds(h, n.log, n.term, j);
        AcceptKeeps(h, n, m, j);
      }
    }
    forall v, t | (v, t) in h2.acked && t == c2[v].term ensures Holds(h2, c2[v].log, t, h2.acked[(v, t)]) {
      if v != n.id { HoldsExtends(h, h2, c[v].log, t, h.acked[(v, t)]); }
    }
  }

  lemma AckBound(c: Nodes, h: History, v: Host, t: nat, i: nat)
    requires TermsOk(c, h) && Acked(h, v, t, i)
    ensures v in c && t <= c[v].term
  {
  }

  lemma AcceptAcks(c: Nodes, h: History, c2: Nodes, h2: History, R: set<Host>, n: Node, m: Message, last: nat)
    requires LeadersOk(h, R) && TermsOk(c, h) && AcksKept(c, h, R) && LeadersComplete(c, h, R)
    requires n.id in c && c[n.id] == n
    requires m.AppendEntries? && m.prevLogIndex <= |n.log| && Fits(h, n, m)
    requires last == m.prevLogIndex + |m.entries|
    requires h2 == AcceptHistory(h, n.id, n.term, last)
    requires c2 == c[n.id := Accepted(n, m)] && Advances(c, h, c2, h2)
    ensures AcksKept(c2, h2, R)
  {
    hide LeadersOk, Advances, LeadersComplete, TermsOk, Fits, GoodLog, Accepted, Splice;
    var a := Accepted(n, m);
    AcceptedShape(h, n, m);
    forall v, t: nat, i: nat | Acked(h2, v, t, i) && Marked(h2, t, i) && v in c2
      ensures Holds(h2, c2[v].log, t, i) || Blocked(c2, h2, R, t, i)
    {
      assert Marked(h, t, i);
      if Acked(h, v, t, i) {
        AckBound(c, h, v, t, i);
        if v == n.id {
          AcceptKeepsAcks(c, h, R, n, m, t, i);
        }
        KeptStays(c, h, c2, h2, R, c2[v].log, t, i);
      } else {
        assert v == n.id && t == n.term && i <= last;
        assert a.log[..i] == a.log[..last][..i];
      }
    }
  }

  lemma AcceptMove(c: Cluster, h: History, R: set<Host>, n: Node, m: Message) returns (h2: History)
    requires Inv(c, h, R) && n.id in R && c.nodes[n.id] == n
    requires m.AppendEntries? && m.prevLogIndex <= |n.log| && Fits(h, n, m)
    ensures Extends(h, h2) && h2.leaderLog == h.leaderLog && Inv(Put(c, Accepted(n, m)), h2, R)
    ensures Acked(h2, n.id, n.term, m.prevLogIndex + |m.entries|)
  {
    hide NetOk, Extends, LeadersOk, CandsOk, BallotsOk, AcksOk, GoodLog, CommitOk, TermsOk, AcksKept, VotesInformed, LeadersComplete, NodeOk, Accepted, Splice, Fits;
    var last := m.prevLogIndex + |m.entries|;
    h2 := AcceptHistory(h, n.id, n.term, last);
    AcceptedShape(h, n, m);
    AcceptHistoryOk(h, R, n.id, n.term, last);
    var c2 := Put(c, Accepted(n, m));
    NetExtends(c.net, c.published, h, h2, R);
    AcceptNodes(c.nodes, h, h2, R, n, m, last);
    AcceptTerms(c.nodes, h, h2, n, m, last);
    AcceptAcks(c.nodes, h, c2.nodes, h2, R, n, m, last);
    VotesAllStay(c.nodes, h, c2.nodes, h2, R);
    CarriesAllStay(c.nodes, h, c2.nodes, h2, R);
  }

  // ----- the commit index -----

  /** applyCommitted publishes exactly the entries between lastApplied and the
      commit index, in order. */
  lemma {:induction false} ApplyShape(n: Node)
    requires n.lastApplied == |n.applied| <= n.commitIndex <= |n.log|
    ensures var a := ApplyCommitted(n);
            && a == n.(lastApplied := n.commitIndex, applied := a.applied)
            && |a.applied| == n.commitIndex
            && n.applied <= a.applied
            && (forall k | |n.applied| <= k < |a.applied| ::
                  a.applied[k] == Applied(k + 1, n.log[k].term, n.log[k].command))
    decreases n.commitIndex - n.lastApplied
  {
    if n.lastApplied < n.commitIndex {
      var e := n.log[n.lastApplied];
      ApplyShape(n.(lastApplied := n.lastApplied + 1,
                    applied := n.applied + [Applied(n.lastApplied + 1, e.term, e.command)]));
    }
  }

  /** Raising the commit index over a committed prefix keeps a server sound. */
  lemma CommitNode(h: History, R: set<Host>, n: Node, i: nat)
    requires NodeOk(h, R, n) && n.commitIndex <= i <= |n.log|
    requires Committed(h, R, n.term, n.log[..i])
    ensures var a := ApplyCommitted(n.(commitIndex := i));
            && a == n.(commitIndex := i, lastApplied := i, applied := a.applied)
            && n.applied <= a.applied
            && NodeOk(h, R, a)
  {
    hide Committed, GoodLog, ApplyCommitted;
    ApplyShape(n.(commitIndex := i));
    var a := ApplyCommitted(n.(commitIndex := i));
    assert CommitOk(h, R, a);
    if n.role == Candidate { assert CandidateOk(h, R, a); }
    if n.role == Leader {
      assert LeadingOk(h, n);
      assert a.matchIndex == n.matchIndex && a.nextIndex == n.nextIndex && a.log == n.log;
      assert LeadingOk(h, a);
    }
  }

  /** Section 5.4.2: a current-term entry replicated on a majority is chosen. */
  lemma ReplicatedIsChosen(h: History, R: set<Host>, n: Node, i: nat)
    requires NodeOk(h, R, n) && n.role == Leader && CanCommit(n, i)
    ensures Chosen(h, R, n.term, i)
    ensures Committed(h, R, n.term, n.log[..i])
  {
    hide GoodLog, CommitOk;
    ElementsSize(n.peers);
    assert |R| == |n.peers| + 1 by { assert R == Elements(n.peers) + {n.id}; }
    assert Acked(h, n.id, n.term, |n.log|);
    forall v | v in Replicas(n, i) ensures v in Ackers(h, R, n.term, i) {
      if v in n.peers {
        assert v in Elements(n.peers);
        if GetOr0(n.matchIndex, v) >= i { assert Acked(h, v, n.term, GetOr0(n.matchIndex, v)); }
      }
      assert Acked(h, v, n.term, i);
    }
    SubsetSize(Replicas(n, i), Ackers(h, R, n.term, i));
    assert Holds(h, n.log[..i], n.term, |n.log[..i]|);
  }

  lemma AdvanceNode(h: History, R: set<Host>, n: Node)
    requires NodeOk(h, R, n) && n.role == Leader
    ensures var a := MaybeAdvanceCommit(n);
            && NodeOk(h, R, a)
            && a.commitIndex >= n.commitIndex && n.applied <= a.applied
            && a == n.(commitIndex := a.commitIndex, lastApplied := a.lastApplied, applied := a.applied)
  {
    hide NodeOk;
    var t := CommitTarget(n, |n.log|);
    if t > n.commitIndex {
      ReplicatedIsChosen(h, R, n, t);
      CommitNode(h, R, n, t);
    }
  }
}
