/** Exactly what a leader commits, over every run of a group: said of the
    acknowledgements handed to it since it took office. */
module RaftCommit {
  import opened Foundation
  import opened RaftCore
  import opened RaftCluster
  import opened RaftInvariant
  import opened RaftProof
  import opened RaftFollower
  import opened RaftSteps
  import opened RaftSafety
  import opened RaftVotes
  import opened RaftElections
  import opened RaftReplication

  // ----- acknowledgements -----

  /** c is handed an acknowledgement of term t for i entries or more. */
  predicate HandsAck(l: Label, c: Host, t: nat, i: nat) {
    && l.host == c && l.event.Receive?
    && var m := l.event.packet.msg; m.AppendEntriesReply? && m.success && m.term == t && m.matchIndex >= i
  }

  /** The members that have told c, between steps m and k, that they hold the
      first i entries of its log. */
  function Storers(ls: seq<Label>, m: nat, k: nat, c: Host, t: nat, i: nat): set<Host>
    requires m <= k <= |ls|
  {
    set x | m <= x < k && HandsAck(ls[x], c, t, i) :: ls[x].event.packet.src
  }

  function Telling(l: Label, c: Host, t: nat, i: nat): set<Host> {
    if HandsAck(l, c, t, i) then {l.event.packet.src} else {}
  }

  lemma StorersStep(ls: seq<Label>, m: nat, k: nat, c: Host, t: nat, i: nat)
    requires m <= k < |ls|
    ensures Storers(ls, m, k + 1, c, t, i) == Storers(ls, m, k, c, t, i) + Telling(ls[k], c, t, i)
  {
  }

  /** c took office in term t at step m and has led since, up to moment k. */
  predicate InOffice(cs: seq<Cluster>, m: nat, k: nat, c: Host, t: nat) {
    && m < k < |cs| && c in cs[m].nodes && cs[m].nodes[c].role != Leader
    && forall x | m < x <= k :: c in cs[x].nodes && cs[x].nodes[c].role == Leader && cs[x].nodes[c].term == t
  }

  /** Entry i of the log is of term t, and a majority is known to hold it. */
  ghost predicate MostHold(R: set<Host>, ls: seq<Label>, m: nat, k: nat, c: Host, t: nat, log: Log, i: nat)
    requires m <= k <= |ls|
  {
    1 <= i <= |log| && log[i - 1].term == t && Majority(R, {c} + Storers(ls, m, k, c, t, i))
  }

  // ----- one node in office -----

  /** Entry i is of the leader's own term and counted on a majority. */
  predicate Counted(n: Node, i: nat) {
    1 <= i <= |n.log| && n.log[i - 1].term == n.term && |Replicas(n, i)| >= (|n.peers| + 1) / 2 + 1
  }

  /** The commit index is the highest entry counted, or where it was. */
  ghost predicate CommitExact(n: Node, base: nat) {
    && base <= n.commitIndex <= |n.log|
    && (n.commitIndex == base || Counted(n, n.commitIndex))
    && forall i: nat | Counted(n, i) :: i <= n.commitIndex
  }

  /** More is stored on more members. */
  predicate Grows(n: Node, n1: Node) {
    && n1.id == n.id && n1.peers == n.peers && n1.term == n.term && n1.commitIndex == n.commitIndex
    && n.log <= n1.log && forall p | p in n.peers :: Stored(n, p) <= Stored(n1, p)
  }

  lemma CountedStays(n: Node, n1: Node, i: nat)
    requires Grows(n, n1) && Counted(n, i)
    ensures Counted(n1, i)
  {
    assert Replicas(n, i) <= Replicas(n1, i);
    SubsetSize(Replicas(n, i), Replicas(n1, i));
  }

  lemma CountedIs(n: Node, i: nat)
    ensures n.commitIndex < i && Counted(n, i) <==> CanCommit(n, i)
  {
  }

  /** Committing what can be restores the exact commit index. */
  lemma CommitRestores(n: Node, n1: Node, base: nat)
    requires CommitExact(n, base) && Grows(n, n1) && Sorted(n1.log, n1.term)
    ensures CommitExact(MaybeAdvanceCommit(n1), base)
  {
    hide Replicas, Counted, Grows, CanCommit, Sorted, ApplyCommitted, CommitTarget;
    assert n1.commitIndex == n.commitIndex <= |n.log| <= |n1.log| && n1.term == n.term by { GrowsFacts(n, n1); }
    var target := CommitTarget(n1, |n1.log|);
    var n2 := MaybeAdvanceCommit(n1);
    assert target > n1.commitIndex ==> CanCommit(n1, target);
    if target > n1.commitIndex { ApplyKeeps(n1.(commitIndex := target)); }
    CountedIs(n1, target);
    forall i: nat ensures Counted(n2, i) <==> Counted(n1, i) { SameCount(n1, n2, i); }
    forall i: nat | Counted(n1, i) ensures i <= n2.commitIndex {
      CountedIs(n1, i);
      if i > n1.commitIndex {
        CanCommitInLog(n1, i);
        CommitTargetIsHighest(n1, |n1.log|, i);
      }
    }
    if n1.commitIndex > base { CountedStays(n, n1, n1.commitIndex); }
  }

  lemma GrowsFacts(n: Node, n1: Node)
    requires Grows(n, n1)
    ensures n1.commitIndex == n.commitIndex && |n.log| <= |n1.log| && n1.term == n.term
  {
  }

  lemma SameCount(n: Node, n2: Node, i: nat)
    requires n2 == n.(commitIndex := n2.commitIndex, lastApplied := n2.lastApplied, applied := n2.applied)
    ensures Counted(n2, i) <==> Counted(n, i)
  {
    assert Replicas(n2, i) == Replicas(n, i);
  }

  lemma CommitSame(n: Node, n2: Node, base: nat)
    requires CommitExact(n, base) && n2.id == n.id && n2.peers == n.peers && n2.term == n.term
    requires n2.log == n.log && n2.matchIndex == n.matchIndex && n2.commitIndex == n.commitIndex
    ensures CommitExact(n2, base)
  {
    hide Replicas;
    forall i: nat ensures Counted(n2, i) <==> Counted(n, i) { assert Replicas(n2, i) == Replicas(n, i) by { SameReplicas(n, n2, i); } }
  }

  lemma SameReplicas(n: Node, n2: Node, i: nat)
    requires n2.id == n.id && n2.peers == n.peers && n2.log == n.log && n2.matchIndex == n.matchIndex
    ensures Replicas(n2, i) == Replicas(n, i)
  {
  }

  /** How many entries this event says p holds. */
  function Claimed(n: Node, ev: Event, p: Host): nat {
    if ev.Receive? && ev.packet.src == p && HandsAck(Label(n.id, ev), n.id, n.term, 0) then ev.packet.msg.matchIndex else 0
  }

  lemma NoteStep(h: History, R: set<Host>, n: Node, s: Host, x: nat, base: nat, p: Host)
    requires NodeOk(h, R, n) && CommitExact(n, base) && x >= Stored(n, s)
    ensures var n2 := MaybeAdvanceCommit(Noted(n, s, x));
            CommitExact(n2, base) && Stored(n2, p) == if p == s then x else Stored(n, p)
  {
    hide NodeOk, CommitExact, MaybeAdvanceCommit, Sorted, Rooted;
    NodeLogGood(h, R, n);
    CommitRestores(n, Noted(n, s, x), base);
    NodeFacts(h, R, n);
    CommitHolding(h, R, Noted(n, s, x));
  }

  lemma AckStep(h: History, R: set<Host>, n: Node, m: Message, s: Host, base: nat, p: Host)
    requires NodeOk(h, R, n) && n.role == Leader && m.AppendEntriesReply? && m.term == n.term && CommitExact(n, base)
    ensures var n2 := OnAppendEntriesReply(n, m, s).node;
            && CommitExact(n2, base)
            && Stored(n2, p) == Max(Stored(n, p), if m.success && s == p then m.matchIndex else 0)
  {
    hide NodeOk, CommitExact, MaybeAdvanceCommit;
    if m.success {
      NoteStep(h, R, n, s, Max(Stored(n, s), m.matchIndex), base, p);
    } else {
      CommitSame(n, OnAppendEntriesReply(n, m, s).node, base);
    }
  }

  lemma ProposalStep(h: History, h2: History, R: set<Host>, n: Node, cmd: Bytes, base: nat, p: Host)
    requires NodeOk(h, R, n) && n.role == Leader && CommitExact(n, base) && NodeOk(h2, R, HandlePropose(n, cmd).node)
    ensures var n2 := HandlePropose(n, cmd).node; CommitExact(n2, base) && Stored(n2, p) == Stored(n, p)
  {
    hide NodeOk, CommitExact, ApplyCommitted, CommitTarget;
    var n1 := LeaderAppend(n, cmd);
    NodeFacts(h, R, n);
    CommitHolding(h, R, n1);
    NodeLogGood(h2, R, HandlePropose(n, cmd).node);
    CommitRestores(n, n1, base);
  }

  /** One step in office keeps the commit index exact, and what is known of a
      member is the most it has claimed. */
  lemma OfficeStep(h: History, h2: History, R: set<Host>, n: Node, ev: Event, base: nat, p: Host)
    requires Receives(h, R, n, ev) && n.role == Leader && CommitExact(n, base)
    requires var n2 := Handle(n, ev).node; NodeOk(h2, R, n2) && n2.role == Leader && n2.term == n.term
    ensures var n2 := Handle(n, ev).node; CommitExact(n2, base) && Stored(n2, p) == Max(Stored(n, p), Claimed(n, ev, p))
  {
    hide NodeOk, CommitExact, MaybeAdvanceCommit, OnCurrentAppend, OnAppendEntriesReply, Stored, PacketOk;
    var n2 := Handle(n, ev).node;
    match ev
    case Propose(cmd) => ProposalStep(h, h2, R, n, cmd, base, p);
    case Receive(q) =>
      match q.msg {
        case RequestVote(_, _, _) => OfficeVote(n, n2, base, p);
        case RequestVoteReply(_, _) => OfficeVote(n, n2, base, p);
        case AppendEntries(t, _, _, _, _) => if t >= n.term { AppendKeepsPost(n, q.msg, q.src); }
        case AppendEntriesReply(_, _, _) => OfficeReply(h, R, n, q.msg, q.src, base, p);
      }
    case ElectionTimeout =>
    case HeartbeatTick =>
  }

  lemma OfficeVote(n: Node, n2: Node, base: nat, p: Host)
    requires CommitExact(n, base)
    requires n2.id == n.id && n2.peers == n.peers && n2.term == n.term && n2.log == n.log && n2.matchIndex == n.matchIndex && n2.commitIndex == n.commitIndex
    ensures CommitExact(n2, base) && Stored(n2, p) == Stored(n, p)
  {
    hide CommitExact;
    CommitSame(n, n2, base);
  }

  lemma OfficeReply(h: History, R: set<Host>, n: Node, m: Message, s: Host, base: nat, p: Host)
    requires NodeOk(h, R, n) && n.role == Leader && m.AppendEntriesReply? && CommitExact(n, base)
    requires OnAppendEntriesReply(n, m, s).node.term == n.term
    ensures var n2 := OnAppendEntriesReply(n, m, s).node;
            && CommitExact(n2, base)
            && Stored(n2, p) == Max(Stored(n, p), if m.term == n.term && m.success && s == p then m.matchIndex else 0)
  {
    hide NodeOk, CommitExact, MaybeAdvanceCommit;
    if m.term == n.term { AckStep(h, R, n, m, s, base, p); }
  }

  // ----- a whole term of office -----

  /** p is known to hold i entries exactly if it has said so. */
  predicate Agrees(ls: seq<Label>, m: nat, k: nat, c: Host, t: nat, n: Node, p: Host, i: nat)
    requires m <= k <= |ls|
  {
    p in Storers(ls, m, k, c, t, i) <==> Stored(n, p) >= i
  }

  /** The leader's state as the acknowledgements so far make it. */
  ghost predicate Known(ls: seq<Label>, m: nat, k: nat, c: Host, t: nat, n: Node, base: nat)
    requires m <= k <= |ls|
  {
    && n.id == c && n.term == t && n.role == Leader && CommitExact(n, base)
    && forall p, i: nat | p in n.peers && i >= 1 :: Agrees(ls, m, k, c, t, n, p, i)
  }

  lemma ClaimedIs(n: Node, ev: Event, p: Host, i: nat)
    requires i >= 1
    ensures p in Telling(Label(n.id, ev), n.id, n.term, i) <==> Claimed(n, ev, p) >= i
  {
  }

  lemma KnownStep(roster: seq<Host>, cs: seq<Cluster>, ls: seq<Label>, m: nat, k: nat, c: Host, t: nat, base: nat)
    requires IsRun(roster, cs, ls) && m <= k < |ls| && ls[k].host == c && !Crashes(ls[k].event)
    requires c in cs[k].nodes && Known(ls, m, k, c, t, cs[k].nodes[c], base)
    requires c in cs[k + 1].nodes && cs[k + 1].nodes[c].role == Leader && cs[k + 1].nodes[c].term == t
    ensures Known(ls, m, k + 1, c, t, cs[k + 1].nodes[c], base)
  {
    hide Inv, NodeOk, Handle, PacketOk, CommitExact, Storers, Stored, Claimed, Telling, Step, Enabled, Init;
    var h := RunStep(roster, cs, ls, k, c);
    var h2 := NodeAt(roster, cs, ls, k + 1, c);
    var n, n2, R := cs[k].nodes[c], cs[k + 1].nodes[c], Elements(roster);
    ghost var ev := ls[k].event;
    OfficeStep(h, h2, R, n, ev, base, c);
    var next := k + 1;
    forall p, i: nat | p in n2.peers && i >= 1 ensures Agrees(ls, m, next, c, t, n2, p, i) {
      OfficeStep(h, h2, R, n, ev, base, p);
      StorersStep(ls, m, k, c, t, i);
      ClaimedIs(n, ev, p, i);
      assert n2.peers == n.peers;
      assert Agrees(ls, m, k, c, t, n, p, i);
    }
  }

  /** A new leader has no entry of its own term yet. */
  lemma OfficeLogOld(h: History, R: set<Host>, n: Node, ev: Event)
    requires Receives(h, R, n, ev) && CandsOk(h, R) && n.role != Leader && Handle(n, ev).node.role == Leader
    ensures var l := Handle(n, ev).node; l.log == n.log && forall i | 0 <= i < |l.log| :: l.log[i].term < l.term
  {
    hide Rooted, CommitOk, LeadingOk, BecomeLeader, WonElection, MaybeAdvanceCommit, OnCurrentAppend, Voters, CandsOk;
    match ev
    case ElectionTimeout => OfficeKeeps(Stand(n));
    case Receive(p) =>
      match p.msg {
        case RequestVote(_, _, _) =>
        case RequestVoteReply(_, _) =>
          OfficeKeeps(n.(votesGranted := n.votesGranted + {p.src}));
          if n.role == Candidate { CandLogGood(h, R, n.id, n.term); }
        case AppendEntries(t, _, _, _, _) => if t >= n.term { AppendKeepsPost(n, p.msg, p.src); }
        case AppendEntriesReply(_, _, _) =>
      }
    case Propose(_) =>
    case HeartbeatTick =>
  }

  lemma OfficeKeeps(n: Node)
    ensures var l := BecomeLeader(n).node; l.log == n.log && l.term == n.term
  {
  }

  lemma InvCands(c: Cluster, h: History, R: set<Host>)
    requires Inv(c, h, R)
    ensures CandsOk(h, R)
  {
    hide LeadersOk, NodesOk, NetOk, CrossOk, CandsOk;
  }

  lemma KnownStarts(roster: seq<Host>, cs: seq<Cluster>, ls: seq<Label>, m: nat, c: Host, t: nat)
    requires IsRun(roster, cs, ls) && m < |ls| && InOffice(cs, m, m + 1, c, t)
    ensures Known(ls, m, m + 1, c, t, cs[m + 1].nodes[c], cs[m + 1].nodes[c].commitIndex)
  {
    hide Inv, NodeOk, Handle, PacketOk, Replicas, Enabled, Init, Progress, CandsOk;
    if ls[m].host != c { Untouched(roster, cs, ls, m, c); }
    CrashFollows(cs[m].nodes[c], ls[m].event);
    var h := RunStep(roster, cs, ls, m, c);
    var R, n := Elements(roster), cs[m + 1].nodes[c];
    InvCands(cs[m], h, R);
    OfficeLogOld(h, R, cs[m].nodes[c], ls[m].event);
    var h2 := NodeAt(roster, cs, ls, m + 1, c);
    NodeFacts(h2, R, n);
    assert CommitExact(n, n.commitIndex);
    var next := m + 1;
    forall p, i: nat | p in n.peers && i >= 1 ensures Agrees(ls, m, next, c, t, n, p, i) {
      RosterOf(roster, n, h2);
      OfficeOpens(roster, cs, ls, m, c, p);
      NotAck(cs[m].nodes[c], ls[m].event, t, i);
    }
  }

  /** No acknowledgement makes a leader. */
  lemma NotAck(n: Node, ev: Event, t: nat, i: nat)
    requires n.role != Leader && Handle(n, ev).node.role == Leader
    ensures !HandsAck(Label(n.id, ev), n.id, t, i)
  {
  }

  lemma {:induction false} KnownHolds(roster: seq<Host>, cs: seq<Cluster>, ls: seq<Label>, m: nat, k: nat, c: Host, t: nat)
    requires IsRun(roster, cs, ls) && k <= |ls| && InOffice(cs, m, k, c, t)
    ensures Known(ls, m, k, c, t, cs[k].nodes[c], cs[m + 1].nodes[c].commitIndex)
    decreases k
  {
    hide IsRun, Handle, Known, Enabled;
    if k == m + 1 {
      KnownStarts(roster, cs, ls, m, c, t);
    } else {
      assert InOffice(cs, m, k - 1, c, t);
      KnownHolds(roster, cs, ls, m, k - 1, c, t);
      KnownNext(roster, cs, ls, m, k - 1, c, t, cs[m + 1].nodes[c].commitIndex);
    }
  }

  lemma KnownNext(roster: seq<Host>, cs: seq<Cluster>, ls: seq<Label>, m: nat, k: nat, c: Host, t: nat, base: nat)
    requires IsRun(roster, cs, ls) && m <= k < |ls|
    requires c in cs[k].nodes && Known(ls, m, k, c, t, cs[k].nodes[c], base)
    requires c in cs[k + 1].nodes && cs[k + 1].nodes[c].role == Leader && cs[k + 1].nodes[c].term == t
    ensures Known(ls, m, k + 1, c, t, cs[k + 1].nodes[c], base)
  {
    hide Handle, Enabled, CommitExact, Init, Storers;
    if ls[k].host == c {
      CrashFollows(cs[k].nodes[c], ls[k].event);
      KnownStep(roster, cs, ls, m, k, c, t, base);
    } else {
      Untouched(roster, cs, ls, k, c);
      var n := cs[k].nodes[c];
      var next := k + 1;
      forall p, i: nat | p in n.peers && i >= 1 ensures Agrees(ls, m, next, c, t, n, p, i) {
        StorersStep(ls, m, k, c, t, i);
        assert Agrees(ls, m, k, c, t, n, p, i);
      }
    }
  }

  /** Who is counted is who has claimed to hold it. */
  lemma CountedIsMostHold(roster: seq<Host>, h: History, ls: seq<Label>, m: nat, k: nat, c: Host, t: nat, n: Node, base: nat, i: nat)
    requires NoDuplicates(roster) && NodeOk(h, Elements(roster), n) && m <= k <= |ls| && Known(ls, m, k, c, t, n, base)
    requires Storers(ls, m, k, c, t, i) <= Elements(roster) - {c}
    ensures Counted(n, i) <==> MostHold(Elements(roster), ls, m, k, c, t, n.log, i)
  {
    hide NodeOk, CommitExact, Storers;
    RosterOf(roster, n, h);
    ElementsSize(roster);
    if 1 <= i <= |n.log| {
      var S := Storers(ls, m, k, c, t, i);
      forall p | p in n.peers ensures p in S <==> GetOr0(n.matchIndex, p) >= i {
        assert Agrees(ls, m, k, c, t, n, p, i);
      }
      assert forall p | p in S :: p in n.peers;
      assert Replicas(n, i) == {c} + S;
    }
  }

  lemma StorersAreMembers(roster: seq<Host>, cs: seq<Cluster>, ls: seq<Label>, m: nat, k: nat, c: Host, t: nat, i: nat)
    requires IsRun(roster, cs, ls) && m <= k <= |ls|
    ensures Storers(ls, m, k, c, t, i) <= Elements(roster) - {c}
  {
    hide NodesOk, CrossOk, HistoryOk, Step;
    var hs := RunExplained(roster, cs, ls);
    forall x | m <= x < k && HandsAck(ls[x], c, t, i) ensures ls[x].event.packet.src in Elements(roster) - {c} {
      assert Inv(cs[x], hs[x], Elements(roster)) && Enabled(cs[x], ls[x]);
      assert PacketOk(hs[x], Elements(roster), ls[x].event.packet);
    }
  }

  /** While it leads, a server has committed entry i if and only if it had when
      it took office, or some entry of its own term at or past i is held by a
      majority: itself and the members that have told it so since. */
  lemma CommitsIff(roster: seq<Host>, cs: seq<Cluster>, ls: seq<Label>, m: nat, k: nat, c: Host, t: nat, i: nat)
    requires IsRun(roster, cs, ls) && k <= |ls| && InOffice(cs, m, k, c, t)
    ensures cs[k].nodes[c].commitIndex >= i <==>
            || cs[m + 1].nodes[c].commitIndex >= i
            || exists j: nat :: i <= j && MostHold(Elements(roster), ls, m, k, c, t, cs[k].nodes[c].log, j)
  {
    hide Inv, NodeOk, Storers, Majority, Stored, Replicas;
    var n, base := cs[k].nodes[c], cs[m + 1].nodes[c].commitIndex;
    KnownHolds(roster, cs, ls, m, k, c, t);
    var h := NodeAt(roster, cs, ls, k, c);
    hide IsRun;
    forall j: nat ensures Counted(n, j) <==> MostHold(Elements(roster), ls, m, k, c, t, n.log, j) {
      StorersAreMembers(roster, cs, ls, m, k, c, t, j);
      CountedIsMostHold(roster, h, ls, m, k, c, t, n, base, j);
    }
    if n.commitIndex >= i && base < i { assert Counted(n, n.commitIndex); }
  }
}
