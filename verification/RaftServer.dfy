/** The Raft server as it is written: an object whose handlers update fields,
    log and storage in place. Every handler is proved to compute the function
    of the same name in RaftCore, which is what the safety theorems are about.
    Whatever sends a packet requires storage to mirror the live term, vote and
    log at that moment: durable first, then the network.
    `net` collects the packets handed to the network. */
module RaftServer {
  import opened Foundation
  import opened RaftCore

  class MemoryStorage {
    var term: nat
    var votedFor: Option<Host>
    var log: Log

    constructor ()
      ensures State() == Durable(0, None, [])
    {
      term, votedFor, log := 0, None, [];
    }

    function State(): Durable
      reads this
    {
      Durable(term, votedFor, log)
    }

    method Load() returns (d: Durable)
      ensures d == State()
    {
      d := Durable(term, votedFor, log);
    }

    method SaveTerm(t: nat, v: Option<Host>)
      modifies this
      ensures State() == old(State()).(term := t, votedFor := v)
    {
      term, votedFor := t, v;
    }

    /** Everything at `from` and above is replaced by the entries. */
    method AppendEntries(from: nat, entries: seq<Entry>)
      modifies this
      ensures State() == old(State()).(log := DiskAppend(old(log), from, entries))
    {
      var start := from;
      if start < 1 { start := 1; }
      if start - 1 < |log| { log := log[..start - 1]; }
      ghost var kept := log;
      var i := 0;
      while i < |entries|
        invariant 0 <= i <= |entries| && log == kept + entries[..i]
        invariant term == old(term) && votedFor == old(votedFor)
      {
        log := log + [entries[i]];
        i := i + 1;
      }
      assert entries[..i] == entries;
    }
  }

  class RaftLog {
    var entries: Log

    constructor (es: Log)
      ensures entries == es
    {
      entries := es;
    }

    method Append(e: Entry) returns (index: nat)
      modifies this
      ensures entries == old(entries) + [e] && index == |entries|
    {
      entries := entries + [e];
      index := |entries|;
    }

    method TruncateFrom(index: nat)
      modifies this
      ensures entries == if 1 <= index <= |old(entries)| then old(entries)[..index - 1] else old(entries)
    {
      if index < 1 || index > |entries| { return; }
      entries := entries[..index - 1];
    }
  }

  // ----- durable before the network -----

  /** Storage holds the live term, vote and log. */
  predicate Mirrored(n: Node) {
    n.disk == Durable(n.term, n.votedFor, n.log)
  }

  lemma AdoptMirrors(n: Node, t: nat)
    requires Mirrored(n)
    ensures Mirrored(StepDown(n, t)) && Mirrored(AdoptIfHigher(n, t))
  {
  }

  lemma StandMirrors(n: Node)
    requires Mirrored(n)
    ensures Mirrored(Stand(n))
  {
  }

  lemma OfficeMirrors(n: Node)
    requires Mirrored(n)
    ensures Mirrored(TakeLeadership(n))
  {
  }

  lemma FollowMirrors(n: Node, from: Host)
    requires Mirrored(n)
    ensures Mirrored(FollowLeader(n, from))
  {
  }

  /** Writing only the changed suffix keeps the stored log equal to the live one. */
  lemma SpliceMirrors(n: Node, prev: nat, entries: seq<Entry>)
    requires Mirrored(n) && prev <= |n.log|
    ensures Mirrored(AppendConflictFree(n, prev, entries))
  {
  }

  lemma {:induction false} ApplyMirrors(n: Node)
    requires n.commitIndex <= |n.log|
    ensures var a := ApplyCommitted(n);
            a.term == n.term && a.votedFor == n.votedFor && a.log == n.log && a.disk == n.disk
    decreases n.commitIndex - n.lastApplied
  {
    if n.lastApplied < n.commitIndex {
      var e := n.log[n.lastApplied];
      ApplyMirrors(n.(lastApplied := n.lastApplied + 1,
                      applied := n.applied + [Applied(n.lastApplied + 1, e.term, e.command)]));
    }
  }

  lemma AcceptMirrors(n: Node, prev: nat, entries: seq<Entry>, leaderCommit: nat)
    requires Mirrored(n) && prev <= |n.log| && prev + |entries| <= |AppendConflictFree(n, prev, entries).log|
    ensures Mirrored(AdvanceFollower(AppendConflictFree(n, prev, entries), leaderCommit, prev + |entries|))
  {
    hide AppendConflictFree;
    SpliceMirrors(n, prev, entries);
    var a := AppendConflictFree(n, prev, entries);
    if leaderCommit > a.commitIndex {
      ApplyMirrors(a.(commitIndex := Min(leaderCommit, prev + |entries|)));
    }
  }

  lemma CommitMirrors(n: Node)
    requires Mirrored(n)
    ensures Mirrored(MaybeAdvanceCommit(n))
  {
    hide CommitTarget;
    var target := CommitTarget(n, |n.log|);
    if target > n.commitIndex { ApplyMirrors(n.(commitIndex := target)); }
  }

  lemma ProposeMirrors(n: Node, command: Bytes)
    requires Mirrored(n)
    ensures Mirrored(MaybeAdvanceCommit(LeaderAppend(n, command)))
  {
    hide MaybeAdvanceCommit;
    assert Mirrored(LeaderAppend(n, command));
    CommitMirrors(LeaderAppend(n, command));
  }

  // ----- the pure counting of advanceCommitIndex -----

  function CountAtLeast(matches: seq<nat>, i: nat): nat {
    if matches == [] then 0
    else CountAtLeast(matches[..|matches| - 1], i) + (if matches[|matches| - 1] >= i then 1 else 0)
  }

  function MatchesOf(m: map<Host, nat>, hosts: seq<Host>): seq<nat> {
    seq(|hosts|, k requires 0 <= k < |hosts| => GetOr0(m, hosts[k]))
  }

  /** The match index of every member: the leader's own last index first. */
  function Matches(n: Node): seq<nat> {
    [|n.log|] + MatchesOf(n.matchIndex, n.peers)
  }

  function HoldersAmong(m: map<Host, nat>, hosts: seq<Host>, i: nat): set<Host> {
    set p | p in hosts && GetOr0(m, p) >= i
  }

  lemma HoldersGrow(m: map<Host, nat>, hosts: seq<Host>, q: Host, i: nat)
    requires q !in hosts
    ensures |HoldersAmong(m, hosts + [q], i)| == |HoldersAmong(m, hosts, i)| + (if GetOr0(m, q) >= i then 1 else 0)
  {
    assert HoldersAmong(m, hosts + [q], i) ==
           HoldersAmong(m, hosts, i) + (if GetOr0(m, q) >= i then {q} else {});
  }

  lemma {:induction false} CountHolders(m: map<Host, nat>, hosts: seq<Host>, first: nat, i: nat)
    requires NoDuplicates(hosts)
    ensures CountAtLeast([first] + MatchesOf(m, hosts), i) == |HoldersAmong(m, hosts, i)| + (if first >= i then 1 else 0)
  {
    hide HoldersAmong;
    var ms := [first] + MatchesOf(m, hosts);
    if hosts == [] {
      assert ms == [first] && ms[..0] == [];
      NoHolders(m, i);
    } else {
      var q, front := hosts[|hosts| - 1], hosts[..|hosts| - 1];
      CountHolders(m, front, first, i);
      assert ms[..|hosts|] == [first] + MatchesOf(m, front);
      assert hosts == front + [q];
      HoldersGrow(m, front, q, i);
    }
  }

  lemma NoHolders(m: map<Host, nat>, i: nat)
    ensures HoldersAmong(m, [], i) == {}
  {
  }

  /** Counting match indices counts the servers that hold the entry. */
  lemma CountIsReplicas(n: Node, i: nat)
    requires NoDuplicates(n.peers) && n.id !in n.peers
    ensures CountAtLeast(Matches(n), i) == |Replicas(n, i)|
  {
    CountHolders(n.matchIndex, n.peers, |n.log|, i);
    assert Replicas(n, i) == HoldersAmong(n.matchIndex, n.peers, i) + (if |n.log| >= i then {n.id} else {});
  }

  class Server {
    const id: Host
    const peers: seq<Host>
    const storage: MemoryStorage
    const net: Outbox<Packet>
    var log: RaftLog
    var term: nat
    var votedFor: Option<Host>
    var role: Role
    var commitIndex: nat
    var lastApplied: nat
    var leader: Option<Host>
    var nextIndex: map<Host, nat>
    var matchIndex: map<Host, nat>
    var votesGranted: set<Host>
    var heartbeats: nat
    var applied: seq<Applied>
    var leaderChanges: seq<LeaderChanged>

    function View(): Node
      reads this, log, storage
    {
      Node(id, peers, term, votedFor, log.entries, role, commitIndex, lastApplied, leader, nextIndex, matchIndex,
           votesGranted, heartbeats, applied, leaderChanges, storage.State())
    }

    /** The object is exactly in state n. */
    ghost predicate Is(n: Node)
      reads this, log, storage
    {
      && id == n.id && peers == n.peers && term == n.term && votedFor == n.votedFor && log.entries == n.log
      && role == n.role && commitIndex == n.commitIndex && lastApplied == n.lastApplied && leader == n.leader
      && nextIndex == n.nextIndex && matchIndex == n.matchIndex && votesGranted == n.votesGranted
      && heartbeats == n.heartbeats && applied == n.applied && leaderChanges == n.leaderChanges
      && storage.State() == n.disk
    }

    /** A process start on existing storage: New followed by Init. */
    constructor (self: Host, roster: seq<Host>, st: MemoryStorage)
      ensures fresh(log) && fresh(net) && storage == st && net.sent == {}
      ensures Is(Boot(self, PeersOf(roster, self), st.State()))
    {
      id, peers, storage := self, PeersOf(roster, self), st;
      role, commitIndex, lastApplied, leader := Follower, 0, 0, None;
      nextIndex, matchIndex, votesGranted, heartbeats := map[], map[], {}, 0;
      applied, leaderChanges := [], [];
      var d := st.Load();
      term, votedFor := d.term, d.votedFor;
      log := new RaftLog(d.log);
      net := new Outbox<Packet>();
    }

    // ----- single state changes -----

    method Persist()
      modifies storage
      ensures storage.State() == old(storage.State()).(term := term, votedFor := votedFor)
    {
      storage.SaveTerm(term, votedFor);
    }

    method Believe(ghost n: Node, h: Host)
      requires Is(n)
      modifies this`leader, this`leaderChanges
      ensures Is(SetLeader(n, h))
    {
      if leader == Some(h) { return; }
      leader := Some(h);
      leaderChanges := leaderChanges + [LeaderChanged(h, term)];
    }

    method StepDownTo(ghost n: Node, t: nat)
      requires Is(n)
      modifies this`term, this`votedFor, this`role, this`leader, this`heartbeats, storage
      ensures Is(StepDown(n, t))
    {
      if role == Leader && heartbeats > 0 { heartbeats := heartbeats - 1; }
      term, votedFor, role, leader := t, None, Follower, None;
      Persist();
    }

    method BecomeCandidate(ghost n: Node)
      requires Is(n)
      modifies this`term, this`votedFor, this`role, this`leader, this`votesGranted, storage
      ensures Is(Stand(n))
    {
      role := Candidate;
      term := term + 1;
      votedFor := Some(id);
      leader := None;
      votesGranted := {id};
      Persist();
    }

    method RecordVote(ghost n: Node, x: Host)
      requires Is(n)
      modifies this`votedFor, storage
      ensures Is(PersistTerm(n.(votedFor := Some(x))))
    {
      votedFor := Some(x);
      Persist();
    }

    method CountVote(ghost n: Node, x: Host)
      requires Is(n)
      modifies this`votesGranted
      ensures Is(n.(votesGranted := n.votesGranted + {x}))
    {
      votesGranted := votesGranted + {x};
    }

    method ResetProgress()
      modifies this`nextIndex, this`matchIndex
      ensures nextIndex == ForAll(peers, |log.entries| + 1) && matchIndex == ForAll(peers, 0)
    {
      var last := |log.entries|;
      nextIndex, matchIndex := map[], map[];
      var i := 0;
      while i < |peers|
        invariant 0 <= i <= |peers|
        invariant nextIndex.Keys == matchIndex.Keys == Elements(peers[..i])
        invariant forall p | p in nextIndex :: nextIndex[p] == last + 1
        invariant forall p | p in matchIndex :: matchIndex[p] == 0
      {
        nextIndex := nextIndex[peers[i] := last + 1];
        matchIndex := matchIndex[peers[i] := 0];
        assert peers[..i + 1] == peers[..i] + [peers[i]];
        i := i + 1;
      }
      assert peers[..i] == peers;
    }

    method TakeOffice(ghost n: Node)
      requires Is(n)
      modifies this`role, this`nextIndex, this`matchIndex, this`leader, this`leaderChanges, this`heartbeats
      ensures Is(TakeLeadership(n))
    {
      hide ForAll;
      role := Leader;
      ResetProgress();
      Believe(n.(role := Leader, nextIndex := ForAll(n.peers, |n.log| + 1), matchIndex := ForAll(n.peers, 0)), id);
      heartbeats := heartbeats + 1;
    }

    method Follow(ghost n: Node, from: Host)
      requires Is(n)
      modifies this`role, this`leader, this`leaderChanges
      ensures Is(FollowLeader(n, from))
    {
      role := Follower;
      Believe(n.(role := Follower), from);
    }

    // ----- sending -----

    method SendAppendEntries(ghost n: Node, peer: Host)
      requires Is(n) && Mirrored(n)
      modifies net
      ensures net.sent == old(net.sent) + {Packet(n.id, peer, AppendFor(n, peer))}
    {
      var ni := Max(GetOr0(nextIndex, peer), 1);
      var prev := ni - 1;
      net.Send(Packet(id, peer, AppendEntries(term, prev, TermAt(log.entries, prev), commitIndex,
                                              SliceFrom(log.entries, ni))));
    }

    method BroadcastAppendEntries(ghost n: Node)
      requires Is(n) && Mirrored(n)
      modifies net
      ensures net.sent == old(net.sent) + Broadcast(n)
    {
      hide AppendFor;
      var i := 0;
      while i < |peers|
        invariant 0 <= i <= |peers| && Is(n)
        invariant net.sent == old(net.sent) + set p | p in peers[..i] :: Packet(n.id, p, AppendFor(n, p))
      {
        SendAppendEntries(n, peers[i]);
        assert peers[..i + 1] == peers[..i] + [peers[i]];
        i := i + 1;
      }
      assert peers[..i] == peers;
    }

    method SendToPeers(ghost n: Node, m: Message)
      requires Is(n) && Mirrored(n)
      modifies net
      ensures net.sent == old(net.sent) + ToPeers(n, m)
    {
      var i := 0;
      while i < |peers|
        invariant 0 <= i <= |peers|
        invariant net.sent == old(net.sent) + set p | p in peers[..i] :: Packet(id, p, m)
      {
        net.Send(Packet(id, peers[i], m));
        assert peers[..i + 1] == peers[..i] + [peers[i]];
        i := i + 1;
      }
      assert peers[..i] == peers;
    }

    method Reply(ghost n: Node, to: Host, m: Message)
      requires Is(n) && Mirrored(n)
      modifies net
      ensures net.sent == old(net.sent) + {Packet(n.id, to, m)}
    {
      net.Send(Packet(id, to, m));
    }

    // ----- elections -----

    method Lead(ghost n: Node)
      requires Is(n) && Mirrored(n)
      modifies this, net
      ensures Is(BecomeLeader(n).node) && net.sent == old(net.sent) + BecomeLeader(n).sent && log == old(log)
    {
      hide Is, TakeLeadership, Broadcast;
      TakeOffice(n);
      OfficeMirrors(n);
      BroadcastAppendEntries(TakeLeadership(n));
    }

    method Won(ghost n: Node) returns (won: bool)
      requires Is(n)
      ensures won == WonElection(n)
    {
      won := |votesGranted| >= (|peers| + 1) / 2 + 1;
    }

    method Elect(ghost n: Node)
      requires Is(n) && Mirrored(n)
      modifies this, net, storage
      ensures Is(StartElection(n).node) && net.sent == old(net.sent) + StartElection(n).sent && log == old(log)
    {
      hide Is, BecomeLeader, ToPeers, Stand, WonElection, VoteRequest;
      BecomeCandidate(n);
      ghost var s := Stand(n);
      StandMirrors(n);
      var m := AskForVotes(s);
      SendToPeers(s, m);
      var won := Won(s);
      if won { Lead(s); }
    }

    method AskForVotes(ghost n: Node) returns (m: Message)
      requires Is(n)
      ensures m == VoteRequest(n)
    {
      m := RequestVote(term, |log.entries|, LastTerm(log.entries));
    }

    method ElectionTimeout()
      requires Mirrored(View())
      modifies this, net, storage
      ensures Is(OnElectionTimeout(old(View())).node) && log == old(log)
      ensures net.sent == old(net.sent) + OnElectionTimeout(old(View())).sent
    {
      ghost var n := View();
      assert Is(n);
      hide Is, StartElection;
      if role == Leader { return; }
      Elect(n);
    }

    method Adopt(ghost n: Node, t: nat)
      requires Is(n)
      modifies this`term, this`votedFor, this`role, this`leader, this`heartbeats, storage
      ensures Is(AdoptIfHigher(n, t))
    {
      assert term == n.term;
      hide Is;
      if t > term { StepDownTo(n, t); }
    }

    method ReceiveRequestVote(m: Message, from: Host)
      requires m.RequestVote? && Mirrored(View())
      modifies this, net, storage
      ensures Is(OnRequestVote(old(View()), m, from).node) && log == old(log)
      ensures net.sent == old(net.sent) + OnRequestVote(old(View()), m, from).sent
    {
      ghost var n := View();
      assert Is(n);
      hide Is, AdoptIfHigher, Grants, PersistTerm;
      Adopt(n, m.term);
      ghost var n1 := AdoptIfHigher(n, m.term);
      AdoptMirrors(n, m.term);
      var t, grant := Decide(n1, m, from);
      if grant { RecordVote(n1, from); }
      ghost var n2 := if grant then PersistTerm(n1.(votedFor := Some(from))) else n1;
      PersistKeeps(n1, from);
      Reply(n2, from, RequestVoteReply(t, grant));
    }

    method Decide(ghost n: Node, m: Message, from: Host) returns (t: nat, grant: bool)
      requires Is(n) && m.RequestVote?
      ensures t == n.term && grant == Grants(n, m, from)
    {
      t := term;
      grant := m.term == term && (votedFor == None || votedFor == Some(from)) &&
               UpToDate(m.lastLogTerm, m.lastLogIndex, LastTerm(log.entries), |log.entries|);
    }

    method ReceiveRequestVoteReply(m: Message, from: Host)
      requires m.RequestVoteReply? && Mirrored(View())
      modifies this, net, storage
      ensures Is(OnRequestVoteReply(old(View()), m, from).node) && log == old(log)
      ensures net.sent == old(net.sent) + OnRequestVoteReply(old(View()), m, from).sent
    {
      ghost var n := View();
      assert Is(n);
      hide Is, StepDown, WonElection, BecomeLeader;
      if m.term > term {
        StepDownTo(n, m.term);
        return;
      }
      if role != Candidate || m.term != term { return; }
      if m.granted {
        CountVote(n, from);
        ghost var n1 := n.(votesGranted := n.votesGranted + {from});
        var won := Won(n1);
        if won { Lead(n1); }
      }
    }

    // ----- replication -----

    /** Splices the leader's entries after prev, truncating only on a conflict
        and writing only the changed suffix to storage. */
    method Splice(prev: nat, entries: seq<Entry>)
      requires prev <= |log.entries|
      modifies log, storage
      ensures var k := Held(old(log.entries), prev, entries);
              if k == |entries| then log.entries == old(log.entries) && storage.State() == old(storage.State())
              else && log.entries == old(log.entries)[..prev + k] + entries[k..]
                   && storage.State() == old(storage.State()).(log := DiskAppend(old(storage.log), prev + k + 1, entries[k..]))
    {
      var i := 0;
      while i < |entries|
        invariant 0 <= i <= Held(old(log.entries), prev, entries)
        invariant log.entries == old(log.entries) && storage.State() == old(storage.State())
      {
        var idx := prev + 1 + i;
        if idx > |log.entries| || TermAt(log.entries, idx) != entries[i].term {
          assert i == Held(log.entries, prev, entries);
          Rewrite(idx, entries[i..]);
          return;
        }
        i := i + 1;
      }
    }

    method Rewrite(idx: nat, entries: seq<Entry>)
      requires 1 <= idx <= |log.entries| + 1
      modifies log, storage
      ensures log.entries == old(log.entries)[..idx - 1] + entries
      ensures storage.State() == old(storage.State()).(log := DiskAppend(old(storage.log), idx, entries))
    {
      if idx <= |log.entries| { log.TruncateFrom(idx); }
      var j := 0;
      while j < |entries|
        invariant 0 <= j <= |entries| && log.entries == old(log.entries)[..idx - 1] + entries[..j]
        invariant storage.State() == old(storage.State()) && storage.log == old(storage.log)
      {
        var _ := log.Append(entries[j]);
        j := j + 1;
      }
      assert entries[..j] == entries;
      storage.AppendEntries(idx, entries);
    }

    method SpliceIn(ghost n: Node, prev: nat, entries: seq<Entry>)
      requires Is(n) && prev <= |n.log|
      modifies log, storage
      ensures Is(AppendConflictFree(n, prev, entries))
    {
      hide Held, DiskAppend;
      Splice(prev, entries);
    }

    /** Publishes every entry newly covered by the commit index, in order. */
    method Apply(ghost n: Node, i: nat)
      requires Is(n) && i <= |n.log|
      modifies this`commitIndex, this`lastApplied, this`applied
      ensures Is(ApplyCommitted(n.(commitIndex := i)))
    {
      commitIndex := i;
      ghost var a := n.(commitIndex := i);
      while lastApplied < commitIndex
        invariant Is(a) && a.commitIndex == i <= |a.log| && commitIndex == i
        invariant ApplyCommitted(a) == ApplyCommitted(n.(commitIndex := i))
      {
        lastApplied := lastApplied + 1;
        var e := log.entries[lastApplied - 1];
        applied := applied + [Applied(lastApplied, e.term, e.command)];
        a := a.(lastApplied := lastApplied, applied := applied);
      }
    }

    method ReceiveAppendEntries(m: Message, from: Host)
      requires m.AppendEntries? && Mirrored(View())
      modifies this, net, log, storage
      ensures Is(OnAppendEntries(old(View()), m, from).node) && log == old(log)
      ensures net.sent == old(net.sent) + OnAppendEntries(old(View()), m, from).sent
    {
      ghost var n := View();
      assert Is(n);
      hide Is, OnCurrentAppend;
      if m.term < term {
        Reply(n, from, AppendEntriesReply(term, 0, false));
        return;
      }
      FollowAndAccept(n, m, from);
    }

    method FollowAndAccept(ghost n: Node, m: Message, from: Host)
      requires Is(n) && Mirrored(n) && m.AppendEntries?
      modifies this, net, log, storage
      ensures Is(OnCurrentAppend(n, m, from).node) && log == old(log)
      ensures net.sent == old(net.sent) + OnCurrentAppend(n, m, from).sent
    {
      hide Is, AdoptIfHigher, FollowLeader, AppendConflictFree, AdvanceFollower, Consistent;
      Adopt(n, m.term);
      Follow(AdoptIfHigher(n, m.term), from);
      ghost var n1 := FollowLeader(AdoptIfHigher(n, m.term), from);
      AdoptMirrors(n, m.term);
      FollowMirrors(AdoptIfHigher(n, m.term), from);
      var t, ok := Check(n1, m);
      if ok {
        AcceptFrom(n1, t, m, from);
      } else {
        Reply(n1, from, AppendEntriesReply(t, 0, false));
      }
    }

    method AcceptFrom(ghost n: Node, t: nat, m: Message, from: Host)
      requires Is(n) && Mirrored(n) && m.AppendEntries? && Consistent(n.log, m) && t == n.term
      modifies this`commitIndex, this`lastApplied, this`applied, net, log, storage
      ensures var last := m.prevLogIndex + |m.entries|;
              var a := AppendConflictFree(n, m.prevLogIndex, m.entries);
              && last <= |a.log|
              && var n3 := AdvanceFollower(a, m.leaderCommit, last);
                 && Is(n3)
                 && net.sent == old(net.sent) + {Packet(n3.id, from, AppendEntriesReply(n3.term, last, true))}
    {
      hide Is, AppendConflictFree, AdvanceFollower;
      ConsistentBound(n, m);
      SpliceIn(n, m.prevLogIndex, m.entries);
      var last := m.prevLogIndex + |m.entries|;
      CoverCommit(AppendConflictFree(n, m.prevLogIndex, m.entries), m.leaderCommit, last);
      TermKept(n, m.prevLogIndex, m.entries, m.leaderCommit);
      AcceptMirrors(n, m.prevLogIndex, m.entries, m.leaderCommit);
      Reply(AdvanceFollower(AppendConflictFree(n, m.prevLogIndex, m.entries), m.leaderCommit, last),
            from, AppendEntriesReply(t, last, true));
    }

    method Check(ghost n: Node, m: Message) returns (t: nat, ok: bool)
      requires Is(n) && m.AppendEntries?
      ensures t == n.term && ok == Consistent(n.log, m)
    {
      t := term;
      ok := m.prevLogIndex <= |log.entries| && TermAt(log.entries, m.prevLogIndex) == m.prevLogTerm;
    }

    method CoverCommit(ghost n: Node, leaderCommit: nat, last: nat)
      requires Is(n) && last <= |n.log|
      modifies this`commitIndex, this`lastApplied, this`applied
      ensures Is(AdvanceFollower(n, leaderCommit, last))
    {
      assert commitIndex == n.commitIndex;
      hide Is;
      if leaderCommit > commitIndex {
        Apply(n, Min(leaderCommit, last));
      }
    }

    /** The nested counting loop, walking down from the last index. */
    method AdvanceCommitIndex(ghost v: Node, matches: seq<nat>) returns (r: nat)
      requires Is(v) && NoDuplicates(v.peers) && v.id !in v.peers && matches == Matches(v)
      ensures r == CommitTarget(v, |v.log|)
    {
      hide Replicas, Matches;
      var majority := (|peers| + 1) / 2 + 1;
      var n: nat := |log.entries|;
      while n > commitIndex
        invariant n <= |v.log|
        invariant CommitTarget(v, n) == CommitTarget(v, |v.log|)
      {
        if TermAt(log.entries, n) != term { break; }
        var count := 0;
        var k := 0;
        while k < |matches|
          invariant 0 <= k <= |matches| && count == CountAtLeast(matches[..k], n)
        {
          assert matches[..k + 1][..k] == matches[..k];
          if matches[k] >= n { count := count + 1; }
          k := k + 1;
        }
        assert matches[..k] == matches;
        CountIsReplicas(v, n);
        if count >= majority { return n; }
        n := n - 1;
      }
      r := commitIndex;
    }

    method CollectMatches(ghost n: Node) returns (matches: seq<nat>)
      requires Is(n)
      ensures matches == Matches(n)
    {
      matches := [|log.entries|];
      var i := 0;
      while i < |peers|
        invariant 0 <= i <= |peers| && matches == Matches(n)[..i + 1]
      {
        matches := matches + [GetOr0(matchIndex, peers[i])];
        i := i + 1;
      }
    }

    method MaybeAdvance(ghost n: Node)
      requires Is(n) && NoDuplicates(n.peers) && n.id !in n.peers
      modifies this`commitIndex, this`lastApplied, this`applied
      ensures Is(MaybeAdvanceCommit(n))
    {
      assert commitIndex == n.commitIndex;
      hide Is, Matches;
      var matches := CollectMatches(n);
      var target := AdvanceCommitIndex(n, matches);
      if target > commitIndex {
        Apply(n, target);
      }
    }

    method RecordMatch(ghost n: Node, from: Host, m: nat)
      requires Is(n)
      modifies this`matchIndex, this`nextIndex
      ensures var best := Max(GetOr0(n.matchIndex, from), m);
              Is(n.(matchIndex := n.matchIndex[from := best], nextIndex := n.nextIndex[from := best + 1]))
    {
      matchIndex := matchIndex[from := Max(GetOr0(matchIndex, from), m)];
      nextIndex := nextIndex[from := matchIndex[from] + 1];
    }

    method BackOff(ghost n: Node, from: Host)
      requires Is(n)
      modifies this`nextIndex
      ensures Is(if GetOr0(n.nextIndex, from) > 1 then n.(nextIndex := n.nextIndex[from := n.nextIndex[from] - 1]) else n)
    {
      if GetOr0(nextIndex, from) > 1 {
        nextIndex := nextIndex[from := nextIndex[from] - 1];
      }
    }

    method ReceiveAppendEntriesReply(m: Message, from: Host)
      requires m.AppendEntriesReply? && Mirrored(View()) && NoDuplicates(peers) && id !in peers
      modifies this, net, storage
      ensures Is(OnAppendEntriesReply(old(View()), m, from).node) && log == old(log)
      ensures net.sent == old(net.sent) + OnAppendEntriesReply(old(View()), m, from).sent
    {
      ghost var n := View();
      assert Is(n);
      hide Is, StepDown, MaybeAdvanceCommit, AppendFor;
      if m.term > term {
        StepDownTo(n, m.term);
        return;
      }
      if role != Leader || m.term != term { return; }
      if m.success {
        RecordMatch(n, from, m.matchIndex);
        ghost var best := Max(GetOr0(n.matchIndex, from), m.matchIndex);
        MaybeAdvance(n.(matchIndex := n.matchIndex[from := best], nextIndex := n.nextIndex[from := best + 1]));
        return;
      }
      BackOff(n, from);
      SendAppendEntries(if GetOr0(n.nextIndex, from) > 1
                        then n.(nextIndex := n.nextIndex[from := n.nextIndex[from] - 1]) else n, from);
    }

    method AppendCommand(ghost n: Node, command: Bytes) returns (index: nat)
      requires Is(n)
      modifies log, storage
      ensures Is(LeaderAppend(n, command)) && index == |n.log| + 1
    {
      var e := Entry(term, command);
      index := log.Append(e);
      storage.AppendEntries(index, [e]);
    }

    /** A leader appends and replicates; anyone else names the leader it knows. */
    method Propose(command: Bytes) returns (accepted: Option<nat>, redirect: Option<Host>)
      requires Mirrored(View()) && NoDuplicates(peers) && id !in peers
      modifies this, net, log, storage
      ensures Is(HandlePropose(old(View()), command).node) && log == old(log)
      ensures net.sent == old(net.sent) + HandlePropose(old(View()), command).sent
      ensures accepted == if old(role) == Leader then Some(|old(log.entries)| + 1) else None
      ensures redirect == if old(role) == Leader then None else old(leader)
    {
      ghost var n := View();
      assert Is(n);
      hide Is, MaybeAdvanceCommit, Broadcast;
      if role != Leader { return None, leader; }
      var idx := AppendCommand(n, command);
      ghost var a := LeaderAppend(n, command);
      MaybeAdvance(a);
      ProposeMirrors(n, command);
      BroadcastAppendEntries(MaybeAdvanceCommit(a));
      return Some(idx), None;
    }
  }

  lemma PersistKeeps(n: Node, x: Host)
    ensures Mirrored(n) ==> Mirrored(PersistTerm(n.(votedFor := Some(x))))
    ensures PersistTerm(n.(votedFor := Some(x))).id == n.id && PersistTerm(n.(votedFor := Some(x))).term == n.term
  {
  }

  lemma ConsistentBound(n: Node, m: Message)
    requires m.AppendEntries? && Consistent(n.log, m)
    ensures m.prevLogIndex <= |n.log|
    ensures m.prevLogIndex + |m.entries| <= |AppendConflictFree(n, m.prevLogIndex, m.entries).log|
  {
  }

  lemma {:induction false} ApplyKeeps(n: Node)
    requires n.commitIndex <= |n.log|
    ensures ApplyCommitted(n).id == n.id && ApplyCommitted(n).term == n.term
    decreases n.commitIndex - n.lastApplied
  {
    if n.lastApplied < n.commitIndex {
      var e := n.log[n.lastApplied];
      ApplyKeeps(n.(lastApplied := n.lastApplied + 1,
                    applied := n.applied + [Applied(n.lastApplied + 1, e.term, e.command)]));
    }
  }

  lemma TermKept(n: Node, prev: nat, entries: seq<Entry>, leaderCommit: nat)
    requires prev <= |n.log| && prev + |entries| <= |AppendConflictFree(n, prev, entries).log|
    ensures AdvanceFollower(AppendConflictFree(n, prev, entries), leaderCommit, prev + |entries|).id == n.id
    ensures AdvanceFollower(AppendConflictFree(n, prev, entries), leaderCommit, prev + |entries|).term == n.term
  {
    var a := AppendConflictFree(n, prev, entries);
    if leaderCommit > a.commitIndex {
      ApplyKeeps(a.(commitIndex := Min(leaderCommit, prev + |entries|)));
    }
  }
}
