/** The Raft server as a pure state machine: one function per handler of the
    event loop, each returning the next state and the messages handed to the
    network. The imperative server in RaftServer is proved equal to these
    functions, and the whole-run theorems in RaftSafety are about them. */
module RaftCore {
  import opened Foundation

  datatype Entry = Entry(term: nat, command: Bytes)
  type Log = seq<Entry>

  datatype Role = Follower | Candidate | Leader

  /** What survives a crash. */
  datatype Durable = Durable(term: nat, votedFor: Option<Host>, log: Log)

  datatype Applied = Applied(index: nat, term: nat, command: Bytes)
  datatype LeaderChanged = LeaderChanged(leader: Host, term: nat)

  datatype Message =
    | RequestVote(term: nat, lastLogIndex: nat, lastLogTerm: nat)
    | RequestVoteReply(term: nat, granted: bool)
    | AppendEntries(term: nat, prevLogIndex: nat, prevLogTerm: nat, leaderCommit: nat, entries: seq<Entry>)
    | AppendEntriesReply(term: nat, matchIndex: nat, success: bool)

  datatype Packet = Packet(src: Host, dst: Host, msg: Message)

  /** One server. `heartbeats` counts the live periodic heartbeat timers,
      `applied` and `leaderChanges` are the notifications published by this
      incarnation, and `disk` is the content of the Storage seam. */
  datatype Node = Node(
    id: Host,
    peers: seq<Host>,
    term: nat,
    votedFor: Option<Host>,
    log: Log,
    role: Role,
    commitIndex: nat,
    lastApplied: nat,
    leader: Option<Host>,
    nextIndex: map<Host, nat>,
    matchIndex: map<Host, nat>,
    votesGranted: set<Host>,
    heartbeats: nat,
    applied: seq<Applied>,
    leaderChanges: seq<LeaderChanged>,
    disk: Durable)

  datatype Outcome = Outcome(node: Node, sent: set<Packet>)

  // ----- log accessors (1-based indices, index 0 is the empty prefix) -----

  function LastTerm(log: Log): nat {
    if log == [] then 0 else log[|log| - 1].term
  }

  function TermAt(log: Log, index: nat): nat {
    if index == 0 || index > |log| then 0 else log[index - 1].term
  }

  function SliceFrom(log: Log, index: nat): Log {
    if index < 1 || index > |log| then [] else log[index - 1..]
  }

  /** The vote restriction of section 5.4.1 of the Raft paper. */
  predicate UpToDate(candTerm: nat, candIndex: nat, ourTerm: nat, ourIndex: nat) {
    if candTerm != ourTerm then candTerm > ourTerm else candIndex >= ourIndex
  }

  // ----- storage -----

  function DiskAppend(log: Log, from: nat, entries: seq<Entry>): Log {
    var start := if from < 1 then 1 else from;
    (if start - 1 < |log| then log[..start - 1] else log) + entries
  }

  function PersistTerm(n: Node): Node {
    n.(disk := n.disk.(term := n.term, votedFor := n.votedFor))
  }

  /** A process start: everything volatile is reset, the rest is read back. */
  function Boot(id: Host, peers: seq<Host>, disk: Durable): Node {
    Node(id, peers, disk.term, disk.votedFor, disk.log, Follower, 0, 0, None,
         map[], map[], {}, 0, [], [], disk)
  }

  // ----- election -----

  function SetLeader(n: Node, h: Host): Node {
    if n.leader == Some(h) then n
    else n.(leader := Some(h), leaderChanges := n.leaderChanges + [LeaderChanged(h, n.term)])
  }

  predicate WonElection(n: Node) {
    |n.votesGranted| >= (|n.peers| + 1) / 2 + 1
  }

  function StepDown(n: Node, term: nat): Node {
    PersistTerm(n.(term := term, votedFor := None, role := Follower, leader := None,
                   heartbeats := if n.role == Leader && n.heartbeats > 0 then n.heartbeats - 1 else n.heartbeats))
  }

  /** The state change of startElection, before any message is sent. */
  function Stand(n: Node): Node {
    PersistTerm(n.(role := Candidate, term := n.term + 1, votedFor := Some(n.id), leader := None,
                   votesGranted := {n.id}))
  }

  /** The same index for every host. */
  function ForAll(hosts: seq<Host>, i: nat): map<Host, nat> {
    map p | p in hosts :: i
  }

  /** The state change of becomeLeader, before any message is sent. */
  function TakeLeadership(n: Node): Node {
    var n1 := n.(role := Leader,
                 nextIndex := ForAll(n.peers, |n.log| + 1),
                 matchIndex := ForAll(n.peers, 0));
    var n2 := SetLeader(n1, n.id);
    n2.(heartbeats := n2.heartbeats + 1)
  }

  function ToPeers(n: Node, m: Message): set<Packet> {
    set p | p in n.peers :: Packet(n.id, p, m)
  }

  function BecomeLeader(n: Node): Outcome {
    var l := TakeLeadership(n);
    Outcome(l, Broadcast(l))
  }

  function VoteRequest(n: Node): Message {
    RequestVote(n.term, |n.log|, LastTerm(n.log))
  }

  function StartElection(n: Node): Outcome {
    var s := Stand(n);
    var asked := ToPeers(s, VoteRequest(s));
    if WonElection(s) then
      var o := BecomeLeader(s);
      Outcome(o.node, asked + o.sent)
    else Outcome(s, asked)
  }

  function OnElectionTimeout(n: Node): Outcome {
    if n.role == Leader then Outcome(n, {}) else StartElection(n)
  }

  function AdoptIfHigher(n: Node, term: nat): Node {
    if term > n.term then StepDown(n, term) else n
  }

  predicate Grants(n: Node, m: Message, from: Host)
    requires m.RequestVote?
  {
    && m.term == n.term
    && (n.votedFor == None || n.votedFor == Some(from))
    && UpToDate(m.lastLogTerm, m.lastLogIndex, LastTerm(n.log), |n.log|)
  }

  function OnRequestVote(n: Node, m: Message, from: Host): Outcome
    requires m.RequestVote?
  {
    var n1 := AdoptIfHigher(n, m.term);
    if Grants(n1, m, from) then
      var n2 := PersistTerm(n1.(votedFor := Some(from)));
      Outcome(n2, {Packet(n2.id, from, RequestVoteReply(n2.term, true))})
    else
      Outcome(n1, {Packet(n1.id, from, RequestVoteReply(n1.term, false))})
  }

  function OnRequestVoteReply(n: Node, m: Message, from: Host): Outcome
    requires m.RequestVoteReply?
  {
    if m.term > n.term then Outcome(StepDown(n, m.term), {})
    else if n.role != Candidate || m.term != n.term || !m.granted then Outcome(n, {})
    else
      var n1 := n.(votesGranted := n.votesGranted + {from});
      if WonElection(n1) then BecomeLeader(n1) else Outcome(n1, {})
  }

  // ----- replication -----

  function GetOr0(m: map<Host, nat>, h: Host): nat {
    if h in m then m[h] else 0
  }

  function AppendFor(n: Node, peer: Host): Message {
    var ni := Max(GetOr0(n.nextIndex, peer), 1);
    AppendEntries(n.term, ni - 1, TermAt(n.log, ni - 1), n.commitIndex, SliceFrom(n.log, ni))
  }

  function Broadcast(n: Node): set<Packet> {
    set p | p in n.peers :: Packet(n.id, p, AppendFor(n, p))
  }

  /** How many leading entries the log already holds, after the first `at`
      entries, with matching terms. */
  function Held(log: Log, at: nat, entries: seq<Entry>): (k: nat)
    ensures k <= |entries|
    ensures at <= |log| ==> at + k <= |log|
    ensures forall j | 0 <= j < k :: at + j < |log| && log[at + j].term == entries[j].term
    ensures k < |entries| ==> at + k >= |log| || log[at + k].term != entries[k].term
    decreases |entries|
  {
    if entries == [] || at >= |log| || log[at].term != entries[0].term then 0
    else 1 + Held(log, at + 1, entries[1..])
  }

  /** The follower's log after the leader's entries are spliced in at `prev`. */
  function Splice(log: Log, prev: nat, entries: seq<Entry>): Log
    requires prev <= |log|
  {
    var k := Held(log, prev, entries);
    if k == |entries| then log else log[..prev + k] + entries[k..]
  }

  function AppendConflictFree(n: Node, prev: nat, entries: seq<Entry>): Node
    requires prev <= |n.log|
  {
    var k := Held(n.log, prev, entries);
    if k == |entries| then n
    else n.(log := Splice(n.log, prev, entries),
            disk := n.disk.(log := DiskAppend(n.disk.log, prev + k + 1, entries[k..])))
  }

  function ApplyCommitted(n: Node): Node
    requires n.commitIndex <= |n.log|
    decreases n.commitIndex - n.lastApplied
  {
    if n.lastApplied >= n.commitIndex then n
    else
      var e := n.log[n.lastApplied];
      ApplyCommitted(n.(lastApplied := n.lastApplied + 1,
                        applied := n.applied + [Applied(n.lastApplied + 1, e.term, e.command)]))
  }

  function FollowLeader(n: Node, from: Host): Node {
    SetLeader(n.(role := Follower), from)
  }

  predicate Consistent(log: Log, m: Message)
    requires m.AppendEntries?
  {
    m.prevLogIndex <= |log| && TermAt(log, m.prevLogIndex) == m.prevLogTerm
  }

  function AdvanceFollower(n: Node, leaderCommit: nat, matchIndex: nat): Node
    requires matchIndex <= |n.log|
  {
    if leaderCommit > n.commitIndex then ApplyCommitted(n.(commitIndex := Min(leaderCommit, matchIndex)))
    else n
  }

  /** onAppendEntries once the stale-term check has passed. */
  function OnCurrentAppend(n: Node, m: Message, from: Host): Outcome
    requires m.AppendEntries?
  {
    var n1 := FollowLeader(AdoptIfHigher(n, m.term), from);
    if !Consistent(n1.log, m) then
      Outcome(n1, {Packet(n1.id, from, AppendEntriesReply(n1.term, 0, false))})
    else
      var n2 := AppendConflictFree(n1, m.prevLogIndex, m.entries);
      var last := m.prevLogIndex + |m.entries|;
      var n3 := AdvanceFollower(n2, m.leaderCommit, last);
      Outcome(n3, {Packet(n3.id, from, AppendEntriesReply(n3.term, last, true))})
  }

  function OnAppendEntries(n: Node, m: Message, from: Host): Outcome
    requires m.AppendEntries?
  {
    if m.term < n.term then
      Outcome(n, {Packet(n.id, from, AppendEntriesReply(n.term, 0, false))})
    else OnCurrentAppend(n, m, from)
  }

  /** The members known to hold the leader's log up to index i. */
  function Replicas(n: Node, i: nat): set<Host> {
    (set p | p in n.peers && GetOr0(n.matchIndex, p) >= i) + (if |n.log| >= i then {n.id} else {})
  }

  /** Index i is past the commit index, of the leader's own term (section
      5.4.2 of the Raft paper), and held by a majority. */
  predicate CanCommit(n: Node, i: nat) {
    && n.commitIndex < i <= |n.log|
    && TermAt(n.log, i) == n.term
    && |Replicas(n, i)| >= (|n.peers| + 1) / 2 + 1
  }

  /** advanceCommitIndex, walking down from index i. */
  function CommitTarget(n: Node, i: nat): (t: nat)
    requires i <= |n.log|
    ensures t == n.commitIndex || CanCommit(n, t)
    ensures t <= Max(n.commitIndex, i)
  {
    if i <= n.commitIndex || TermAt(n.log, i) != n.term then n.commitIndex
    else if |Replicas(n, i)| >= (|n.peers| + 1) / 2 + 1 then i
    else CommitTarget(n, i - 1)
  }

  function MaybeAdvanceCommit(n: Node): Node {
    var target := CommitTarget(n, |n.log|);
    if target > n.commitIndex then ApplyCommitted(n.(commitIndex := target)) else n
  }

  function OnAppendEntriesReply(n: Node, m: Message, from: Host): Outcome
    requires m.AppendEntriesReply?
  {
    if m.term > n.term then Outcome(StepDown(n, m.term), {})
    else if n.role != Leader || m.term != n.term then Outcome(n, {})
    else if m.success then
      var best := Max(GetOr0(n.matchIndex, from), m.matchIndex);
      Outcome(MaybeAdvanceCommit(n.(matchIndex := n.matchIndex[from := best],
                                    nextIndex := n.nextIndex[from := best + 1])), {})
    else
      var n1 := if GetOr0(n.nextIndex, from) > 1
                then n.(nextIndex := n.nextIndex[from := n.nextIndex[from] - 1]) else n;
      Outcome(n1, {Packet(n1.id, from, AppendFor(n1, from))})
  }

  /** The state change of handlePropose on a leader, before replication. */
  function LeaderAppend(n: Node, command: Bytes): Node {
    var e := Entry(n.term, command);
    n.(log := n.log + [e], disk := n.disk.(log := DiskAppend(n.disk.log, |n.log| + 1, [e])))
  }

  function HandlePropose(n: Node, command: Bytes): Outcome {
    if n.role != Leader then Outcome(n, {})
    else
      var n1 := MaybeAdvanceCommit(LeaderAppend(n, command));
      Outcome(n1, Broadcast(n1))
  }
}
