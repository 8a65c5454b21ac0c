/** A Raft group always recovers: from every reachable state, whoever crashed
    and whatever was lost, there is a way on, with no further crash, to where
    every server has applied a newly proposed command. */
module RaftRecovery {
  import opened Foundation
  import opened RaftCore
  import opened RaftCluster
  import opened RaftInvariant
  import opened RaftProof
  import opened RaftSteps
  import opened RaftSafety
  import opened RaftVotes
  import opened RaftElections
  import opened RaftReplication
  import opened RaftProgress

  // ----- terms and logs -----

  lemma TermStep(roster: seq<Host>, cs: seq<Cluster>, ls: seq<Label>, k: nat, v: Host)
    requires IsRun(roster, cs, ls) && k < |ls| && v in cs[k].nodes
    ensures v in cs[k + 1].nodes && cs[k].nodes[v].term <= cs[k + 1].nodes[v].term
  {
    hide Handle, Inv, NodeOk, PacketOk;
    if ls[k].host != v {
      Untouched(roster, cs, ls, k, v);
    } else if Crashes(ls[k].event) {
      var h := NodeAtLabel(roster, cs, ls, k);
      StoredIs(h, Elements(roster), cs[k].nodes[v]);
      CrashKeepsTerm(cs[k].nodes[v], ls[k].event);
    } else {
      var h := RunStep(roster, cs, ls, k, v);
    }
  }

  lemma CrashKeepsTerm(n: Node, ev: Event)
    requires Crashes(ev) && n.disk.term == n.term && (ev.Interrupted? ==> ev.cause.msg.term > n.term)
    ensures Handle(n, ev).node.term >= n.term
  {
  }

  /** A server's term never falls, crashes included. */
  lemma {:induction false} TermsRise(roster: seq<Host>, cs: seq<Cluster>, ls: seq<Label>, i: nat, j: nat, v: Host)
    requires IsRun(roster, cs, ls) && i <= j < |cs| && v in cs[i].nodes
    ensures v in cs[j].nodes && cs[i].nodes[v].term <= cs[j].nodes[v].term
    decreases j
  {
    hide IsRun;
    RunLength(roster, cs, ls);
    if i < j {
      TermsRise(roster, cs, ls, i, j - 1, v);
      TermStep(roster, cs, ls, j - 1, v);
    }
  }

  /** A server stands in a term at most once. */
  lemma StandsOnce(roster: seq<Host>, cs: seq<Cluster>, ls: seq<Label>, i: nat, j: nat, c: Host, t: nat)
    requires IsRun(roster, cs, ls) && Stands(cs, ls, i, c, t) && Stands(cs, ls, j, c, t)
    ensures i == j
  {
    hide IsRun, Inv;
    RunLength(roster, cs, ls);
    Campaign(roster, cs, ls, i, c);
    Campaign(roster, cs, ls, j, c);
    if i < j { TermsRise(roster, cs, ls, i + 1, j, c); }
    if j < i { TermsRise(roster, cs, ls, j + 1, i, c); }
  }

  predicate NotBehind(best: Log, log: Log) {
    EndTerm(log) < EndTerm(best) || (EndTerm(log) == EndTerm(best) && |log| <= |best|)
  }

  lemma {:induction false} PickBest(s: Cluster, hosts: seq<Host>) returns (c: Host)
    requires hosts != [] && forall f | f in hosts :: f in s.nodes
    ensures c in hosts && forall f | f in hosts :: NotBehind(s.nodes[c].log, s.nodes[f].log)
  {
    c := hosts[0];
    var rest := hosts[1..];
    if rest != [] {
      var d := PickBest(s, rest);
      assert forall f | f in hosts :: f == c || f in rest;
      if !NotBehind(s.nodes[c].log, s.nodes[d].log) { c := d; }
    }
  }

  lemma {:induction false} PickLatest(s: Cluster, hosts: seq<Host>) returns (w: Host)
    requires hosts != [] && forall f | f in hosts :: f in s.nodes
    ensures w in hosts && forall f | f in hosts :: s.nodes[f].term <= s.nodes[w].term
  {
    w := hosts[0];
    var rest := hosts[1..];
    if rest != [] {
      var d := PickLatest(s, rest);
      assert forall f | f in hosts :: f == w || f in rest;
      if s.nodes[w].term < s.nodes[d].term { w := d; }
    }
  }

  lemma BestCovers(roster: seq<Host>, cs: seq<Cluster>, ls: seq<Label>, k: nat, c: Host, f: Host)
    requires IsRun(roster, cs, ls) && k < |cs| && c in cs[k].nodes && f in cs[k].nodes
    requires NotBehind(cs[k].nodes[c].log, cs[k].nodes[f].log)
    ensures Covers(cs[k].nodes[c].log, cs[k].nodes[f].log)
  {
    hide IsRun, Inv, NodeOk, GoodLog;
    var R := Elements(roster);
    var hs := RunExplained(roster, cs, ls);
    var h := hs[k];
    InvNode(cs[k], h, R, c);
    InvNode(cs[k], h, R, f);
    var a, b := cs[k].nodes[f], cs[k].nodes[c];
    NodeLogGood(h, R, a);
    NodeLogGood(h, R, b);
    EndsDecide(h, R, a.log, b.log, a.term, b.term);
  }

  /** No log has changed. */
  ghost predicate LogsSame(s: Cluster, s2: Cluster) {
    s2.nodes.Keys == s.nodes.Keys && forall x | x in s.nodes :: s2.nodes[x].log == s.nodes[x].log
  }

  // ----- an old leader gives way -----

  /** A leader hears from a server past its term, and gives way. */
  lemma GivesWay(roster: seq<Host>, cs: seq<Cluster>, ls: seq<Label>, c: Host, w: Host)
      returns (cs2: seq<Cluster>, ls2: seq<Label>)
    requires IsRun(roster, cs, ls) && c in Last(cs).nodes && w in Last(cs).nodes
    requires Last(cs).nodes[c].role == Leader && Last(cs).nodes[c].term < Last(cs).nodes[w].term
    ensures Continues(roster, cs, ls, cs2, ls2) && LogsSame(Last(cs), Last(cs2))
    ensures Last(cs2).nodes[c].role != Leader && Last(cs2).nodes[c].term == Last(cs).nodes[w].term
    ensures forall f | f in Last(cs).nodes && f != c :: Last(cs2).nodes[f] == Last(cs).nodes[f]
  {
    hide IsRun, Step, Update, Shared, Following, Holding;
    RunLength(roster, cs, ls);
    var s := Last(cs);
    var cs1, ls1 := Beat(roster, cs, ls, c, w);
    RunLength(roster, cs1, ls1);
    UpdateParts(s.nodes[c], w);
    var m := Update(s.nodes[c], w);
    var l1 := Label(w, Receive(Packet(c, w, m)));
    var cs3, ls3 := Take(roster, cs1, ls1, l1);
    StepLeavesOthers(Last(cs1), l1);
    var j, L := AppendAnswer(roster, cs3, ls3, |ls1|, w, c, m);
    var reply := AppendEntriesReply(s.nodes[w].term, 0, false);
    var l3 := Label(c, Receive(Packet(w, c, reply)));
    cs2, ls2 := Take(roster, cs3, ls3, l3);
    StepLeavesOthers(Last(cs3), l3);
    ReplyAnswer(roster, cs2, ls2, |ls3|, c, w, reply);
  }

  // ----- standing -----

  /** c stands again and again until it is past term top; the last step is
      where it stands in term t. */
  lemma {:induction false} StandPast(roster: seq<Host>, cs: seq<Cluster>, ls: seq<Label>, c: Host, top: nat)
      returns (cs2: seq<Cluster>, ls2: seq<Label>, t: nat)
    requires IsRun(roster, cs, ls) && c in Last(cs).nodes && Last(cs).nodes[c].role != Leader
    requires Last(cs).nodes[c].term <= top && (|roster| == 1 ==> Last(cs).nodes[c].term == top)
    ensures Continues(roster, cs, ls, cs2, ls2) && |ls2| > |ls| && t == top + 1 && Stands(cs2, ls2, |ls2| - 1, c, t)
    ensures LogsSame(Last(cs), Last(cs2)) && cs2[|ls2| - 1].nodes[c].log == Last(cs).nodes[c].log
    ensures forall f | f in Last(cs).nodes && f != c :: Last(cs2).nodes[f] == Last(cs).nodes[f]
    ensures Last(cs2).nodes[c].term == t
    decreases top - Last(cs).nodes[c].term
  {
    hide IsRun, Step, Inv, NodeOk, Init;
    RunLength(roster, cs, ls);
    var s, l := Last(cs), Label(c, ElectionTimeout);
    cs2, ls2 := Take(roster, cs, ls, l);
    StepLeavesOthers(s, l);
    Campaign(roster, cs2, ls2, |ls|, c);
    t := s.nodes[c].term + 1;
    if t <= top {
      cs2, ls2, t := StandPast(roster, cs2, ls2, c, top);
    }
  }

  // ----- gathering votes -----

  /** c stood in term t at step m with log L, has not crashed since, and still
      is in t with that log. */
  ghost predicate Running(cs: seq<Cluster>, ls: seq<Label>, m: nat, c: Host, t: nat, L: Log) {
    && |cs| == |ls| + 1 && Stands(cs, ls, m, c, t) && Up(ls, m, |ls|, c) && cs[m].nodes[c].log == L
    && c in Last(cs).nodes && Last(cs).nodes[c].term == t && Last(cs).nodes[c].log == L
  }

  /** f can be asked, and has nothing against c. */
  ghost predicate CanBack(s: Cluster, c: Host, f: Host, t: nat, L: Log) {
    && f != c && f in s.nodes && s.nodes[f].term < t && Covers(L, s.nodes[f].log)
    && Packet(c, f, RequestVote(t, |L|, EndTerm(L))) in s.net
  }

  lemma Asked(roster: seq<Host>, cs: seq<Cluster>, ls: seq<Label>, m: nat, c: Host, f: Host, t: nat, L: Log)
      returns (cs2: seq<Cluster>, ls2: seq<Label>)
    requires IsRun(roster, cs, ls) && Running(cs, ls, m, c, t, L) && CanBack(Last(cs), c, f, t, L)
    ensures Continues(roster, cs, ls, cs2, ls2) && Running(cs2, ls2, m, c, t, L) && OthersSame(Last(cs), Last(cs2), f, f)
    ensures Last(cs).net <= Last(cs2).net && Packet(f, c, RequestVoteReply(t, true)) in Last(cs2).net
    ensures Last(cs2).nodes[f].term == t
  {
    hide IsRun, Step, Covers;
    var s, m0 := Last(cs), RequestVote(t, |L|, EndTerm(L));
    var l := Label(f, Receive(Packet(c, f, m0)));
    cs2, ls2 := Take(roster, cs, ls, l);
    StepLeavesOthers(s, l);
    var j, L1 := VoteAnswer(roster, cs2, ls2, |ls|, f, c, t, |L|, EndTerm(L));
    assert Stands(cs2, ls2, m, c, t);
    StandsOnce(roster, cs2, ls2, j, m, c, t);
  }

  lemma VoteReplyKeeps(n: Node, m: Message, from: Host)
    requires m.RequestVoteReply? && m.term == n.term
    ensures var n2 := OnRequestVoteReply(n, m, from).node; n2.term == n.term && n2.log == n.log
  {
  }

  lemma HandledReply(c: Cluster, l: Label)
    requires Enabled(c, l) && l.event.Receive? && l.event.packet.msg.RequestVoteReply?
    requires l.event.packet.msg.term == c.nodes[l.host].term
    ensures var n, n2 := c.nodes[l.host], Step(c, l).nodes[l.host]; n2.term == n.term && n2.log == n.log
  {
    hide OnRequestVoteReply;
    VoteReplyKeeps(c.nodes[l.host], l.event.packet.msg, l.event.packet.src);
  }

  /** f is asked, and its vote handed to c. */
  lemma GatherOne(roster: seq<Host>, cs: seq<Cluster>, ls: seq<Label>, m: nat, c: Host, f: Host, t: nat, L: Log)
      returns (cs2: seq<Cluster>, ls2: seq<Label>)
    requires IsRun(roster, cs, ls) && Running(cs, ls, m, c, t, L) && CanBack(Last(cs), c, f, t, L)
    ensures Continues(roster, cs, ls, cs2, ls2) && Running(cs2, ls2, m, c, t, L) && OthersSame(Last(cs), Last(cs2), c, f)
    ensures Last(cs).net <= Last(cs2).net && f in Backers(ls2, m, |ls2|, c, t) && Last(cs2).nodes[f].term == t
  {
    hide IsRun, Step, Covers;
    var cs1, ls1 := Asked(roster, cs, ls, m, c, f, t, L);
    var l := Label(c, Receive(Packet(f, c, RequestVoteReply(t, true))));
    cs2, ls2 := Take(roster, cs1, ls1, l);
    StepLeavesOthers(Last(cs1), l);
    HandledReply(Last(cs1), l);
    assert HandsVote(ls2[|ls1|], c, t);
  }

  lemma BackersGrow(ls: seq<Label>, ls2: seq<Label>, m: nat, c: Host, t: nat)
    requires m <= |ls| && ls <= ls2
    ensures Backers(ls, m, |ls|, c, t) <= Backers(ls2, m, |ls2|, c, t)
  {
    forall i | m <= i < |ls| && HandsVote(ls[i], c, t) ensures ls[i].event.packet.src in Backers(ls2, m, |ls2|, c, t) {
      assert HandsVote(ls2[i], c, t);
    }
  }

  lemma StillBacks(s: Cluster, s2: Cluster, c: Host, f: Host, t: nat, L: Log, g: Host)
    requires CanBack(s, c, g, t, L) && g != f && OthersSame(s, s2, c, f) && s.net <= s2.net
    ensures CanBack(s2, c, g, t, L)
  {
  }

  lemma {:induction false} GatherAll(roster: seq<Host>, cs: seq<Cluster>, ls: seq<Label>, m: nat, c: Host, t: nat, L: Log, hosts: seq<Host>)
      returns (cs2: seq<Cluster>, ls2: seq<Label>)
    requires IsRun(roster, cs, ls) && Running(cs, ls, m, c, t, L) && NoDuplicates(hosts)
    requires forall f | f in hosts :: CanBack(Last(cs), c, f, t, L)
    ensures Continues(roster, cs, ls, cs2, ls2) && Running(cs2, ls2, m, c, t, L)
    ensures forall f | f in hosts :: f in Backers(ls2, m, |ls2|, c, t) && f in Last(cs2).nodes && Last(cs2).nodes[f].term == t
    ensures forall x | x in Last(cs).nodes && x != c && x !in hosts :: x in Last(cs2).nodes && Last(cs2).nodes[x] == Last(cs).nodes[x]
    ensures forall x | x in Backers(ls, m, |ls|, c, t) :: x in Backers(ls2, m, |ls2|, c, t)
    decreases |hosts|
  {
    hide IsRun, Backers, CanBack, Stands, Up;
    if hosts == [] {
      cs2, ls2 := cs, ls;
    } else {
      var f, rest := hosts[0], hosts[1..];
      assert CanBack(Last(cs), c, f, t, L);
      var cs1, ls1 := GatherOne(roster, cs, ls, m, c, f, t, L);
      assert f != c && f in Last(cs).nodes by { NotOwn(Last(cs), c, f, t, L); }
      assert m <= |ls| by { StoodBefore(cs, ls, m, c, t); }
      BackersGrow(ls, ls1, m, c, t);
      forall g | g in rest ensures CanBack(Last(cs1), c, g, t, L) {
        assert g in hosts && g != f;
        StillBacks(Last(cs), Last(cs1), c, f, t, L, g);
      }
      cs2, ls2 := GatherAll(roster, cs1, ls1, m, c, t, L, rest);
      BackersGrow(ls1, ls2, m, c, t);
      assert forall g | g in hosts :: g == f || g in rest;
      assert f !in rest;
      assert forall x | x !in hosts :: x !in rest;
    }
  }

  lemma NotOwn(s: Cluster, c: Host, f: Host, t: nat, L: Log)
    requires CanBack(s, c, f, t, L)
    ensures f != c && f in s.nodes
  {
  }

  lemma StoodBefore(cs: seq<Cluster>, ls: seq<Label>, m: nat, c: Host, t: nat)
    requires Stands(cs, ls, m, c, t)
    ensures m < |ls|
  {
  }

  // ----- an election that succeeds -----

  /** c, with a log no other is ahead of, makes way for a later term if it still
      leads an older one, and stands past all terms. */
  lemma StandAhead(roster: seq<Host>, cs: seq<Cluster>, ls: seq<Label>, c: Host, w: Host)
      returns (cs2: seq<Cluster>, ls2: seq<Label>, t: nat)
    requires IsRun(roster, cs, ls) && c in roster && w in roster && c in Last(cs).nodes && w in Last(cs).nodes
    requires forall f | f in roster :: f in Last(cs).nodes && Last(cs).nodes[f].term <= Last(cs).nodes[w].term
    requires Last(cs).nodes[c].role == Leader ==> Last(cs).nodes[c].term < Last(cs).nodes[w].term
    ensures Continues(roster, cs, ls, cs2, ls2) && LogsSame(Last(cs), Last(cs2))
    ensures ls2 != [] && Running(cs2, ls2, |ls2| - 1, c, t, Last(cs).nodes[c].log)
    ensures forall f | f in roster && f != c :: f in Last(cs2).nodes && Last(cs2).nodes[f].term < t
  {
    hide IsRun, Step, Inv, NodeOk, Init;
    RunLength(roster, cs, ls);
    var top := Last(cs).nodes[w].term;
    var cs1, ls1 := cs, ls;
    if |roster| == 1 { assert roster[0] == c == w; }
    if Last(cs).nodes[c].role == Leader {
      cs1, ls1 := GivesWay(roster, cs, ls, c, w);
      RunLength(roster, cs1, ls1);
    }
    cs2, ls2, t := StandPast(roster, cs1, ls1, c, top);
    RunLength(roster, cs2, ls2);
  }

  lemma AskedAll(roster: seq<Host>, cs: seq<Cluster>, ls: seq<Label>, c: Host, t: nat, L: Log, f: Host)
    requires IsRun(roster, cs, ls) && ls != [] && Running(cs, ls, |ls| - 1, c, t, L) && f in roster && f != c
    ensures Packet(c, f, RequestVote(t, |L|, EndTerm(L))) in Last(cs).net
  {
    hide IsRun;
    Campaign(roster, cs, ls, |ls| - 1, c);
    var n := cs[|ls| - 1].nodes[c];
    assert Packet(c, f, Request(n)) in set p | p in roster && p != c :: Packet(c, p, Request(n));
  }

  /** c leads, and no server is past its term. */
  ghost predicate Ready(roster: seq<Host>, s: Cluster, c: Host) {
    && c in roster && c in s.nodes && s.nodes[c].role == Leader
    && forall f | f in roster :: f in s.nodes && s.nodes[f].term <= s.nodes[c].term
  }

  lemma AllBack(roster: seq<Host>, cs: seq<Cluster>, ls: seq<Label>, m: nat, c: Host, t: nat, L: Log)
    requires IsRun(roster, cs, ls) && Running(cs, ls, m, c, t, L) && c in roster
    requires forall f | f in roster && f != c :: f in Backers(ls, m, |ls|, c, t)
    ensures Last(cs).nodes[c].role == Leader
  {
    hide IsRun, Backers;
    var S := {c} + Backers(ls, m, |ls|, c, t);
    LeadsIffMajority(roster, cs, ls, m, |ls|, c, t);
    BackersAreMembers(roster, cs, ls, m, |ls|, c, t);
    assert S == Elements(roster);
    assert c in S;
  }

  lemma AllCanBack(roster: seq<Host>, cs: seq<Cluster>, ls: seq<Label>, cs1: seq<Cluster>, ls1: seq<Label>, c: Host, f: Host, t: nat, L: Log)
    requires Continues(roster, cs, ls, cs1, ls1) && LogsSame(Last(cs), Last(cs1)) && ls1 != []
    requires f in roster && f != c && f in Last(cs).nodes && c in Last(cs).nodes && L == Last(cs).nodes[c].log
    requires Running(cs1, ls1, |ls1| - 1, c, t, L) && NotBehind(L, Last(cs).nodes[f].log) && Last(cs1).nodes[f].term < t
    ensures CanBack(Last(cs1), c, f, t, L)
  {
    hide IsRun, Running, Covers;
    RunLength(roster, cs, ls);
    AskedAll(roster, cs1, ls1, c, t, L, f);
    BestCovers(roster, cs, ls, |ls|, c, f);
  }

  /** A member no log is ahead of is elected, unless it leads past everyone. */
  lemma ElectBest(roster: seq<Host>, cs: seq<Cluster>, ls: seq<Label>, c: Host, w: Host) returns (cs2: seq<Cluster>, ls2: seq<Label>)
    requires IsRun(roster, cs, ls) && c in roster && w in roster && c in Last(cs).nodes && w in Last(cs).nodes
    requires forall f | f in roster :: f in Last(cs).nodes && Last(cs).nodes[f].term <= Last(cs).nodes[w].term
    requires forall f | f in roster :: NotBehind(Last(cs).nodes[c].log, Last(cs).nodes[f].log)
    requires Last(cs).nodes[c].role == Leader ==> Last(cs).nodes[c].term < Last(cs).nodes[w].term
    ensures Continues(roster, cs, ls, cs2, ls2) && Ready(roster, Last(cs2), c)
  {
    hide IsRun, Running, Backers, CanBack, NotBehind, LogsSame;
    RunLength(roster, cs, ls);
    var cs1, ls1, t := StandAhead(roster, cs, ls, c, w);
    var L := Last(cs).nodes[c].log;
    var others := PeersOf(roster, c);
    PeersOfIs(roster, c);
    OthersAre(roster, c);
    forall f | f in others ensures CanBack(Last(cs1), c, f, t, L) {
      AllCanBack(roster, cs, ls, cs1, ls1, c, f, t, L);
    }
    cs2, ls2 := GatherAll(roster, cs1, ls1, |ls1| - 1, c, t, L, others);
    AllBack(roster, cs2, ls2, |ls1| - 1, c, t, L);
    RunningTerm(cs2, ls2, |ls1| - 1, c, t, L);
  }

  lemma RosterPresent(roster: seq<Host>, cs: seq<Cluster>, ls: seq<Label>)
    requires IsRun(roster, cs, ls)
    ensures cs != [] && roster != [] && forall f :: f in roster <==> f in Last(cs).nodes
  {
    hide IsRun;
    RunLength(roster, cs, ls);
    MembersAt(roster, cs, ls, |ls|);
    assert forall f :: f in roster <==> f in Elements(roster);
  }

  /** From every reachable state the group can elect a leader no server is past. */
  lemma CanElect(roster: seq<Host>, cs: seq<Cluster>, ls: seq<Label>) returns (cs2: seq<Cluster>, ls2: seq<Label>, c: Host)
    requires IsRun(roster, cs, ls)
    ensures Continues(roster, cs, ls, cs2, ls2) && Ready(roster, Last(cs2), c)
  {
    hide IsRun, NotBehind;
    RosterPresent(roster, cs, ls);
    c := PickBest(Last(cs), roster);
    var w := PickLatest(Last(cs), roster);
    if Last(cs).nodes[c].role == Leader && Last(cs).nodes[c].term >= Last(cs).nodes[w].term {
      cs2, ls2 := cs, ls;
    } else {
      cs2, ls2 := ElectBest(roster, cs, ls, c, w);
    }
  }

  lemma RunningTerm(cs: seq<Cluster>, ls: seq<Label>, m: nat, c: Host, t: nat, L: Log)
    requires Running(cs, ls, m, c, t, L)
    ensures c in Last(cs).nodes && Last(cs).nodes[c].term == t
  {
  }

  // ----- and commits -----

  /** The i-th command every server has applied is this one. */
  ghost predicate AppliedByAll(roster: seq<Host>, s: Cluster, i: nat, command: Bytes) {
    forall f | f in roster ::
      && f in s.nodes && 1 <= i <= |s.nodes[f].applied|
      && s.nodes[f].applied[i - 1].index == i && s.nodes[f].applied[i - 1].command == command
  }

  /** A leader no server is past takes a command in. */
  lemma TakesCommand(roster: seq<Host>, cs: seq<Cluster>, ls: seq<Label>, c: Host, command: Bytes)
      returns (cs2: seq<Cluster>, ls2: seq<Label>, t: nat, L: Log)
    requires IsRun(roster, cs, ls) && cs != [] && Ready(roster, Last(cs), c)
    ensures Continues(roster, cs, ls, cs2, ls2) && InCharge(Last(cs2), c, t, L) && L != [] && L[|L| - 1].command == command
  {
    hide IsRun, Step, Shared, Updates;
    RunLength(roster, cs, ls);
    RosterPresent(roster, cs, ls);
    var s, l := Last(cs), Label(c, Propose(command));
    cs2, ls2 := Take(roster, cs, ls, l);
    StepLeavesOthers(s, l);
    ProposeAnswer(roster, cs2, ls2, |ls|, c, command);
    t := s.nodes[c].term;
    L := s.nodes[c].log + [Entry(t, command)];
  }

  /** From every reachable state, and for every command, there is a way on with
      no further crash to where every server has applied it, at one index. */
  lemma CanCommitAnything(roster: seq<Host>, cs: seq<Cluster>, ls: seq<Label>, command: Bytes)
      returns (cs2: seq<Cluster>, ls2: seq<Label>, i: nat)
    requires IsRun(roster, cs, ls)
    ensures Continues(roster, cs, ls, cs2, ls2) && AppliedByAll(roster, Last(cs2), i, command)
  {
    hide IsRun, InCharge, Ready;
    RunLength(roster, cs, ls);
    var cs1, ls1, c := CanElect(roster, cs, ls);
    var cs3, ls3, t, L := TakesCommand(roster, cs1, ls1, c, command);
    cs2, ls2 := LeaderCanFinish(roster, cs3, ls3, c, t, L);
    i := |L|;
    RunLength(roster, cs2, ls2);
    RosterPresent(roster, cs2, ls2);
    forall f | f in roster
      ensures f in Last(cs2).nodes && 1 <= i <= |Last(cs2).nodes[f].applied|
      ensures Last(cs2).nodes[f].applied[i - 1].index == i && Last(cs2).nodes[f].applied[i - 1].command == command
    {
      AppliedInOrder(roster, cs2, ls2, |ls2|, f);
      assert Last(cs2).nodes[f].log[i - 1] == L[i - 1];
    }
  }
}
