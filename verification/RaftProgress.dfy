/** A Raft group never gets stuck: whatever happened so far, the servers have a
    way on. A leader no server is past can bring every log to hold its own and
    commit all of it. */
module RaftProgress {
  import opened Foundation
  import opened RaftCore
  import opened RaftCluster
  import opened RaftInvariant
  import opened RaftSteps
  import opened RaftSafety
  import opened RaftVotes
  import opened RaftElections
  import opened RaftReplication
  import opened RaftCommit

  // ----- continuing a run -----

  ghost function Last(cs: seq<Cluster>): Cluster
    requires cs != []
  {
    cs[|cs| - 1]
  }

  /** The second run is the first one, taken further without a crash. */
  ghost predicate Continues(roster: seq<Host>, cs: seq<Cluster>, ls: seq<Label>, cs2: seq<Cluster>, ls2: seq<Label>) {
    && IsRun(roster, cs, ls) && IsRun(roster, cs2, ls2) && cs <= cs2 && ls <= ls2
    && forall i | |ls| <= i < |ls2| :: !Crashes(ls2[i].event)
  }

  lemma Take(roster: seq<Host>, cs: seq<Cluster>, ls: seq<Label>, l: Label) returns (cs2: seq<Cluster>, ls2: seq<Label>)
    requires IsRun(roster, cs, ls) && Enabled(Last(cs), l) && !Crashes(l.event)
    ensures Continues(roster, cs, ls, cs2, ls2) && |ls2| == |ls| + 1 && ls2[|ls|] == l
    ensures |cs2| == |cs| + 1 && cs2[|ls|] == Last(cs) && Last(cs2) == cs2[|ls| + 1] == Step(Last(cs), l)
  {
    hide Step, Enabled;
    cs2, ls2 := cs + [Step(Last(cs), l)], ls + [l];
  }

  /** Every server but a and b is as it was. */
  ghost predicate OthersSame(s: Cluster, s2: Cluster, a: Host, b: Host) {
    s2.nodes.Keys == s.nodes.Keys && forall x | x in s.nodes && x != a && x != b :: s2.nodes[x] == s.nodes[x]
  }

  lemma StepLeavesOthers(c: Cluster, l: Label)
    requires Enabled(c, l)
    ensures OthersSame(c, Step(c, l), l.host, l.host) && c.net <= Step(c, l).net
  {
    hide Handle;
  }

  // ----- one follower -----

  /** c leads term t with log L. */
  ghost predicate Leads(s: Cluster, c: Host, t: nat, L: Log) {
    c in s.nodes && s.nodes[c].role == Leader && s.nodes[c].term == t && s.nodes[c].log == L
  }

  /** c has offered f the rest of its log, and f is not past c's term. */
  ghost predicate Offered(s: Cluster, c: Host, f: Host) {
    && c != f && c in s.nodes && f in s.nodes && s.nodes[f].term <= s.nodes[c].term
    && Shared(s.nodes[c], f) <= |s.nodes[c].log|
    && Packet(c, f, Update(s.nodes[c], f)) in s.net
  }

  /** f holds all of c's log, has committed what c had, and c knows. */
  ghost predicate Caught(s: Cluster, c: Host, f: Host, t: nat, L: Log, commit: nat) {
    && c in s.nodes && f in s.nodes && L <= s.nodes[f].log && s.nodes[f].term == t && s.nodes[f].commitIndex >= commit
    && Stored(s.nodes[c], f) >= |L|
  }

  /** What f is offered is the whole of c's log as it is. */
  lemma OfferIsWhole(roster: seq<Host>, cs: seq<Cluster>, ls: seq<Label>, j: nat, k: nat, c: Host, t: nat, L: Log, m: Message)
    requires IsRun(roster, cs, ls) && j <= k < |cs| && Leads(cs[k], c, t, L) && c in cs[j].nodes
    requires SentFrom(cs[j].nodes[c], m) && SentFrom(cs[k].nodes[c], m)
    ensures cs[j].nodes[c].log == L
  {
    hide IsRun;
    LeaderAppendOnly(roster, cs, ls, j, k, c);
    var A := cs[j].nodes[c].log;
    assert m.entries == A[m.prevLogIndex..] == L[m.prevLogIndex..];
    assert |A| - m.prevLogIndex == |m.entries| == |L| - m.prevLogIndex;
    assert A == L[..|A|];
  }

  lemma Deliver1(roster: seq<Host>, cs: seq<Cluster>, ls: seq<Label>, c: Host, f: Host, t: nat, L: Log)
      returns (cs2: seq<Cluster>, ls2: seq<Label>, ok: bool)
    requires IsRun(roster, cs, ls) && Leads(Last(cs), c, t, L) && Offered(Last(cs), c, f)
    ensures Continues(roster, cs, ls, cs2, ls2)
    ensures var s, s2 := Last(cs), Last(cs2);
            && OthersSame(s, s2, f, f) && s2.nodes[f].term == t && f in roster
            && Packet(f, c, AppendEntriesReply(t, if ok then |L| else 0, ok)) in s2.net
            && (ok ==> L <= s2.nodes[f].log && s2.nodes[f].commitIndex >= s.nodes[c].commitIndex)
            && (!ok ==> Shared(s.nodes[c], f) > 0)
  {
    hide IsRun, Step, Inv, NodeOk, Init, Update;
    assert |cs| == |ls| + 1 by { RunLength(roster, cs, ls); }
    var s := Last(cs);
    var n := s.nodes[c];
    var m := Update(n, f);
    var p := Packet(c, f, m);
    LeaderSends(roster, cs, ls, |ls|, c, f);
    cs2, ls2 := Take(roster, cs, ls, Label(f, Receive(p)));
    StepLeavesOthers(s, Label(f, Receive(p)));
    assert m.AppendEntries? && m.prevLogIndex == Shared(n, f) && m.leaderCommit == n.commitIndex && m.term == t by { UpdateParts(n, f); }
    var j, L1 := AppendAnswer(roster, cs2, ls2, |ls|, f, c, m);
    OfferIsWhole(roster, cs2, ls2, j, |ls|, c, t, L, m);
    ok := L[..m.prevLogIndex] <= s.nodes[f].log;
    MembersAt(roster, cs, ls, |ls|);
  }

  lemma UpdateParts(n: Node, f: Host)
    requires Shared(n, f) <= |n.log|
    ensures var m := Update(n, f); m.AppendEntries? && m.prevLogIndex == Shared(n, f) && m.leaderCommit == n.commitIndex && m.term == n.term
  {
  }

  lemma RunLength(roster: seq<Host>, cs: seq<Cluster>, ls: seq<Label>)
    requires IsRun(roster, cs, ls)
    ensures |cs| == |ls| + 1 && NoDuplicates(roster) && roster != []
  {
  }

  lemma LeaderSends(roster: seq<Host>, cs: seq<Cluster>, ls: seq<Label>, k: nat, c: Host, f: Host)
    requires IsRun(roster, cs, ls) && k < |cs| && c in cs[k].nodes && f in cs[k].nodes && f != c && cs[k].nodes[c].role == Leader
    ensures Shared(cs[k].nodes[c], f) <= |cs[k].nodes[c].log| && SentFrom(cs[k].nodes[c], Update(cs[k].nodes[c], f))
  {
    hide IsRun, Inv, NodeOk, Update;
    var h := NodeAt(roster, cs, ls, k, c);
    MembersAt(roster, cs, ls, k);
    PeerInRoster(h, Elements(roster), cs[k].nodes[c], f);
    UpdateIs(h, Elements(roster), cs[k].nodes[c], f);
  }

  /** f answers and c takes the answer in: f has caught up, or c offers f one
      entry more. */
  lemma Exchange(roster: seq<Host>, cs: seq<Cluster>, ls: seq<Label>, c: Host, f: Host, t: nat, L: Log)
      returns (cs2: seq<Cluster>, ls2: seq<Label>, ok: bool)
    requires IsRun(roster, cs, ls) && Leads(Last(cs), c, t, L) && Offered(Last(cs), c, f)
    ensures Continues(roster, cs, ls, cs2, ls2) && Leads(Last(cs2), c, t, L)
    ensures var s, s2 := Last(cs), Last(cs2);
            && OthersSame(s, s2, c, f) && (forall q | q != f :: Stored(s2.nodes[c], q) == Stored(s.nodes[c], q))
            && s2.nodes[c].commitIndex >= s.nodes[c].commitIndex
            && if ok then Caught(s2, c, f, t, L, s.nodes[c].commitIndex)
               else Offered(s2, c, f) && Shared(s2.nodes[c], f) < Shared(s.nodes[c], f)
  {
    hide IsRun, Step, Inv, NodeOk, Init, Update;
    RunLength(roster, cs, ls);
    var s := Last(cs);
    var cs1, ls1;
    cs1, ls1, ok := Deliver1(roster, cs, ls, c, f, t, L);
    RunLength(roster, cs1, ls1);
    var s1 := Last(cs1);
    var m := AppendEntriesReply(t, if ok then |L| else 0, ok);
    assert s1.nodes[c] == s.nodes[c];
    cs2, ls2 := Take(roster, cs1, ls1, Label(c, Receive(Packet(f, c, m))));
    StepLeavesOthers(s1, Label(c, Receive(Packet(f, c, m))));
    ReplyAnswer(roster, cs2, ls2, |ls1|, c, f, m);
    assert Last(cs2).nodes[c].commitIndex >= s1.nodes[c].commitIndex by {
      CommitIndexMonotone(roster, cs2, ls2, |ls1|, c);
    }
  }

  /** Backing off entry by entry ends: a leader brings any member that is not
      past its term to hold its whole log. */
  lemma {:induction false} Rounds(roster: seq<Host>, cs: seq<Cluster>, ls: seq<Label>, c: Host, f: Host, t: nat, L: Log)
      returns (cs2: seq<Cluster>, ls2: seq<Label>)
    requires IsRun(roster, cs, ls) && Leads(Last(cs), c, t, L) && Offered(Last(cs), c, f)
    ensures Continues(roster, cs, ls, cs2, ls2) && Leads(Last(cs2), c, t, L)
    ensures var s, s2 := Last(cs), Last(cs2);
            && OthersSame(s, s2, c, f) && (forall q | q != f :: Stored(s2.nodes[c], q) == Stored(s.nodes[c], q))
            && s2.nodes[c].commitIndex >= s.nodes[c].commitIndex
            && Caught(s2, c, f, t, L, s.nodes[c].commitIndex)
    decreases Shared(Last(cs).nodes[c], f)
  {
    hide IsRun, Stored, Shared, Offered;
    var ok;
    cs2, ls2, ok := Exchange(roster, cs, ls, c, f, t, L);
    if !ok {
      cs2, ls2 := Rounds(roster, cs2, ls2, c, f, t, L);
    }
  }

  /** The same, from a heartbeat on. */
  lemma CatchUp(roster: seq<Host>, cs: seq<Cluster>, ls: seq<Label>, c: Host, f: Host, t: nat, L: Log)
      returns (cs2: seq<Cluster>, ls2: seq<Label>)
    requires IsRun(roster, cs, ls) && Leads(Last(cs), c, t, L)
    requires f in Last(cs).nodes && f != c && Last(cs).nodes[f].term <= t
    ensures Continues(roster, cs, ls, cs2, ls2) && Leads(Last(cs2), c, t, L)
    ensures var s, s2 := Last(cs), Last(cs2);
            && OthersSame(s, s2, c, f) && (forall q | q != f :: Stored(s2.nodes[c], q) == Stored(s.nodes[c], q))
            && s2.nodes[c].commitIndex >= s.nodes[c].commitIndex
            && Caught(s2, c, f, t, L, s.nodes[c].commitIndex)
  {
    hide IsRun, Update, Stored, Shared, Caught;
    var cs1, ls1 := Beat(roster, cs, ls, c, f);
    cs2, ls2 := Rounds(roster, cs1, ls1, c, f, t, L);
  }

  /** A heartbeat offers f what it lacks, and changes no server. */
  lemma Beat(roster: seq<Host>, cs: seq<Cluster>, ls: seq<Label>, c: Host, f: Host) returns (cs2: seq<Cluster>, ls2: seq<Label>)
    requires IsRun(roster, cs, ls) && c in Last(cs).nodes && f in Last(cs).nodes && f != c && Last(cs).nodes[c].role == Leader
    ensures Continues(roster, cs, ls, cs2, ls2) && Last(cs2).nodes == Last(cs).nodes && f in roster
    ensures Shared(Last(cs).nodes[c], f) <= |Last(cs).nodes[c].log|
    ensures Packet(c, f, Update(Last(cs).nodes[c], f)) in Last(cs2).net
  {
    hide IsRun, Step, Inv, NodeOk, Init, Update, Shared;
    RunLength(roster, cs, ls);
    var s, l := Last(cs), Label(c, HeartbeatTick);
    assert s.nodes[c].heartbeats == 1 by {
      var h := NodeAt(roster, cs, ls, |ls|, c);
      LeaderBeats(h, Elements(roster), s.nodes[c]);
    }
    cs2, ls2 := Take(roster, cs, ls, l);
    StepLeavesOthers(s, l);
    HeartbeatAnswer(roster, cs2, ls2, |ls|, c);
    MembersAt(roster, cs, ls, |ls|);
    assert f in roster;
    assert Packet(c, f, Update(s.nodes[c], f)) in Updates(roster, s.nodes[c]);
  }

  lemma LeaderBeats(h: History, R: set<Host>, n: Node)
    requires NodeOk(h, R, n) && n.role == Leader
    ensures n.heartbeats == 1
  {
    hide GoodLog, CommitOk, LeadingOk;
  }

  // ----- the whole group -----

  /** Every server but c and those listed is as it was, to c too. */
  ghost predicate RestSame(s: Cluster, s2: Cluster, c: Host, hosts: seq<Host>) {
    && c in s.nodes && c in s2.nodes && s2.nodes.Keys == s.nodes.Keys
    && forall x | x in s.nodes && x != c && x !in hosts ::
         s2.nodes[x] == s.nodes[x] && Stored(s2.nodes[c], x) == Stored(s.nodes[c], x)
  }

  lemma {:induction false} BringAll(roster: seq<Host>, cs: seq<Cluster>, ls: seq<Label>, c: Host, t: nat, L: Log, hosts: seq<Host>)
      returns (cs2: seq<Cluster>, ls2: seq<Label>)
    requires IsRun(roster, cs, ls) && Leads(Last(cs), c, t, L) && NoDuplicates(hosts) && c !in hosts
    requires forall f | f in hosts :: f in Last(cs).nodes && Last(cs).nodes[f].term <= t
    ensures Continues(roster, cs, ls, cs2, ls2) && Leads(Last(cs2), c, t, L) && RestSame(Last(cs), Last(cs2), c, hosts)
    ensures Last(cs2).nodes[c].commitIndex >= Last(cs).nodes[c].commitIndex
    ensures forall f | f in hosts :: Caught(Last(cs2), c, f, t, L, Last(cs).nodes[c].commitIndex)
    decreases |hosts|
  {
    hide IsRun, Stored, Caught, OthersSame, RestSame;
    RunLength(roster, cs, ls);
    var s, commit := Last(cs), Last(cs).nodes[c].commitIndex;
    if hosts == [] {
      cs2, ls2 := cs, ls;
      assert RestSame(s, s, c, hosts) by { RestReflexive(s, c, hosts); }
    } else {
      var f, rest := hosts[0], hosts[1..];
      assert forall g | g in rest :: g in hosts && g != f;
      var cs1, ls1 := CatchUp(roster, cs, ls, c, f, t, L);
      var s1 := Last(cs1);
      TermsKept(s, s1, c, f, rest);
      cs2, ls2 := BringAll(roster, cs1, ls1, c, t, L, rest);
      var s2 := Last(cs2);
      RestChains(s, s1, s2, c, f, hosts);
      StaysCaught(s1, s2, c, f, rest, t, L, commit);
      forall g | g in hosts ensures Caught(s2, c, g, t, L, commit) {
        if g != f {
          assert g in rest;
          CaughtLess(s2, c, g, t, L, s1.nodes[c].commitIndex, commit);
        }
      }
    }
  }

  lemma RestReflexive(s: Cluster, c: Host, hosts: seq<Host>)
    requires c in s.nodes
    ensures RestSame(s, s, c, hosts)
  {
  }

  lemma TermsKept(s: Cluster, s1: Cluster, c: Host, f: Host, rest: seq<Host>)
    requires OthersSame(s, s1, c, f) && c !in rest && f !in rest && forall g | g in rest :: g in s.nodes
    ensures forall g | g in rest :: g in s1.nodes && s1.nodes[g] == s.nodes[g]
  {
  }

  lemma RestChains(s: Cluster, s1: Cluster, s2: Cluster, c: Host, f: Host, hosts: seq<Host>)
    requires hosts != [] && hosts[0] == f && c in s.nodes && c in s1.nodes && OthersSame(s, s1, c, f)
    requires forall q | q != f :: Stored(s1.nodes[c], q) == Stored(s.nodes[c], q)
    requires RestSame(s1, s2, c, hosts[1..])
    ensures RestSame(s, s2, c, hosts)
  {
    hide Stored;
  }

  lemma StaysCaught(s1: Cluster, s2: Cluster, c: Host, f: Host, rest: seq<Host>, t: nat, L: Log, commit: nat)
    requires Caught(s1, c, f, t, L, commit) && RestSame(s1, s2, c, rest) && f !in rest && f != c
    ensures Caught(s2, c, f, t, L, commit)
  {
    hide Stored;
  }

  lemma CaughtLess(s: Cluster, c: Host, f: Host, t: nat, L: Log, commit: nat, less: nat)
    requires Caught(s, c, f, t, L, commit) && less <= commit
    ensures Caught(s, c, f, t, L, less)
  {
    hide Stored;
  }

  /** Every leader took office at some step and has led since. */
  lemma {:induction false} OfficeBegan(roster: seq<Host>, cs: seq<Cluster>, ls: seq<Label>, k: nat, c: Host, t: nat) returns (m: nat)
    requires IsRun(roster, cs, ls) && k < |cs| && c in cs[k].nodes && cs[k].nodes[c].role == Leader && cs[k].nodes[c].term == t
    ensures InOffice(cs, m, k, c, t)
  {
    hide IsRun, Handle, Enabled, Inv, NodeOk;
    assert k > 0 by { BootsFollower(roster, cs, ls, c); }
    RunLength(roster, cs, ls);
    assert c in cs[k - 1].nodes by { MembersAt(roster, cs, ls, k); MembersAt(roster, cs, ls, k - 1); }
    if cs[k - 1].nodes[c].role != Leader {
      m := k - 1;
    } else {
      SameOffice(roster, cs, ls, k - 1, c);
      m := OfficeBegan(roster, cs, ls, k - 1, c, t);
    }
  }

  lemma BootsFollower(roster: seq<Host>, cs: seq<Cluster>, ls: seq<Label>, c: Host)
    requires IsRun(roster, cs, ls)
    ensures c in cs[0].nodes ==> cs[0].nodes[c].role == Follower
  {
    hide Step, Enabled;
  }

  /** A leader that goes on leading does so in the same term. */
  lemma SameOffice(roster: seq<Host>, cs: seq<Cluster>, ls: seq<Label>, k: nat, c: Host)
    requires IsRun(roster, cs, ls) && k < |ls| && c in cs[k].nodes && c in cs[k + 1].nodes
    requires cs[k].nodes[c].role == Leader && cs[k + 1].nodes[c].role == Leader
    ensures cs[k + 1].nodes[c].term == cs[k].nodes[c].term
  {
    hide Handle, Inv, NodeOk, Enabled, PacketOk, Progress;
    if ls[k].host == c {
      CrashFollows(cs[k].nodes[c], ls[k].event);
      var h := RunStep(roster, cs, ls, k, c);
      SameTermInOffice(h, Elements(roster), cs[k].nodes[c], ls[k].event);
    } else {
      Untouched(roster, cs, ls, k, c);
    }
  }

  lemma SameTermInOffice(h: History, R: set<Host>, n: Node, ev: Event)
    requires NodeOk(h, R, n) && !Crashes(ev) && n.role == Leader && Handle(n, ev).node.role == Leader
    ensures Handle(n, ev).node.term == n.term
  {
    hide NodeOk, MaybeAdvanceCommit, OnCurrentAppend;
    CommitInLog(h, R, n);
    match ev
    case Propose(cmd) => CommitKeepsPost(LeaderAppend(n, cmd));
    case Receive(p) =>
      match p.msg {
        case RequestVote(_, _, _) =>
        case RequestVoteReply(_, _) =>
        case AppendEntries(t, _, _, _, _) => if t >= n.term { AppendKeepsPost(n, p.msg, p.src); }
        case AppendEntriesReply(_, m, _) => CommitKeepsPost(Noted(n, p.src, Max(Stored(n, p.src), m)));
      }
    case _ =>
  }

  /** What every member is known to hold, a leader has committed, if it ends in
      an entry of the leader's term. */
  lemma AllStoredIsCommitted(roster: seq<Host>, cs: seq<Cluster>, ls: seq<Label>, k: nat, c: Host, t: nat, L: Log)
    requires IsRun(roster, cs, ls) && k < |cs| && Leads(cs[k], c, t, L) && L != [] && EndTerm(L) == t
    requires forall f | f in roster && f != c :: Stored(cs[k].nodes[c], f) >= |L|
    ensures cs[k].nodes[c].commitIndex == |L|
  {
    hide IsRun, Inv, NodeOk, Storers;
    var n := cs[k].nodes[c];
    RunLength(roster, cs, ls);
    var m := OfficeBegan(roster, cs, ls, k, c, t);
    KnownHolds(roster, cs, ls, m, k, c, t);
    var h := NodeAt(roster, cs, ls, k, c);
    RosterOf(roster, n, h);
    ElementsSize(roster);
    assert Replicas(n, |L|) == Elements(roster);
    assert Counted(n, |L|);
  }

  /** c's last entry is of its own term, no server is past that term. */
  ghost predicate InCharge(s: Cluster, c: Host, t: nat, L: Log) {
    && Leads(s, c, t, L) && L != [] && EndTerm(L) == t
    && forall f | f in s.nodes :: s.nodes[f].term <= t
  }

  /** Every server holds L and has applied it. */
  ghost predicate AllApplied(s: Cluster, L: Log) {
    forall f | f in s.nodes :: L <= s.nodes[f].log && s.nodes[f].commitIndex >= |L|
  }

  /** Once around the group. */
  lemma OneRound(roster: seq<Host>, cs: seq<Cluster>, ls: seq<Label>, c: Host, t: nat, L: Log)
      returns (cs2: seq<Cluster>, ls2: seq<Label>)
    requires IsRun(roster, cs, ls) && InCharge(Last(cs), c, t, L)
    ensures Continues(roster, cs, ls, cs2, ls2) && InCharge(Last(cs2), c, t, L) && Last(cs2).nodes[c].commitIndex == |L|
    ensures Last(cs2).nodes.Keys == Elements(roster)
    ensures forall f | f in roster && f != c :: Caught(Last(cs2), c, f, t, L, Last(cs).nodes[c].commitIndex)
  {
    hide IsRun, Stored;
    RunLength(roster, cs, ls);
    var others := PeersOf(roster, c);
    PeersOfIs(roster, c);
    assert forall f :: f in others <==> f in Elements(others);
    MembersAt(roster, cs, ls, |ls|);
    cs2, ls2 := BringAll(roster, cs, ls, c, t, L, others);
    RunLength(roster, cs2, ls2);
    MembersAt(roster, cs2, ls2, |ls2|);
    assert forall f :: f in roster && f != c <==> f in others;
    AllStoredIsCommitted(roster, cs2, ls2, |ls2|, c, t, L);
    forall f | f in Last(cs2).nodes ensures Last(cs2).nodes[f].term <= t {
      assert f in roster;
    }
  }

  /** From any reachable state, a leader no server is past, whose last entry is
      its own, has a way on to where every server holds its whole log and has
      applied it. */
  lemma LeaderCanFinish(roster: seq<Host>, cs: seq<Cluster>, ls: seq<Label>, c: Host, t: nat, L: Log)
      returns (cs2: seq<Cluster>, ls2: seq<Label>)
    requires IsRun(roster, cs, ls) && InCharge(Last(cs), c, t, L)
    ensures Continues(roster, cs, ls, cs2, ls2) && InCharge(Last(cs2), c, t, L) && AllApplied(Last(cs2), L)
  {
    hide IsRun, Stored;
    RunLength(roster, cs, ls);
    var cs1, ls1 := OneRound(roster, cs, ls, c, t, L);
    RunLength(roster, cs1, ls1);
    cs2, ls2 := OneRound(roster, cs1, ls1, c, t, L);
    RunLength(roster, cs2, ls2);
    forall f | f in Last(cs2).nodes ensures L <= Last(cs2).nodes[f].log && Last(cs2).nodes[f].commitIndex >= |L| {
      assert f in roster;
    }
  }
}
