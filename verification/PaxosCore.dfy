/** A single-decree Paxos participant (proposer, acceptor and learner in one)
    as a pure state machine, one function per handler of the event loop. */
module PaxosCore {
  import opened Foundation

  type Value = Bytes

  /** The acceptor state that must survive a crash. */
  datatype Acceptor = Acceptor(promised: nat, acceptedBallot: nat, acceptedValue: Value, hasAccepted: bool)

  const NoAcceptor := Acceptor(0, 0, [], false)

  /** What an acceptor reports in a promise. */
  datatype PromiseInfo = PromiseInfo(ballot: nat, value: Value, has: bool)

  datatype Message =
    | Prepare(ballot: nat)
    | Promise(ballot: nat, ok: bool, maxBallot: nat, info: PromiseInfo)
    | Accept(ballot: nat, value: Value)
    | Accepted(ballot: nat, value: Value)
    | AcceptNack(maxBallot: nat)

  datatype Packet = Packet(src: Host, dst: Host, msg: Message)

  datatype Decided = Decided(ballot: nat, value: Value)

  /** One participant. `roster` is the sorted membership, `index` this node's
      position in it, `published` the Decided notifications of this
      incarnation, `disk` the content of the Storage seam. */
  datatype Node = Node(
    id: Host,
    roster: seq<Host>,
    index: nat,
    acceptor: Acceptor,
    maxSeen: nat,
    proposing: bool,
    phase: nat,
    myBallot: nat,
    myValue: Value,
    promises: map<Host, PromiseInfo>,
    accepts: map<nat, set<Host>>,
    valueAt: map<nat, Value>,
    decided: Option<Decided>,
    published: seq<Decided>,
    disk: Acceptor)

  datatype Outcome = Outcome(node: Node, sent: set<Packet>)

  // ----- the pure decision rules -----

  /** The ballot of node `index` in the round after the one maxSeen is in. */
  function NextBallot(maxSeen: nat, n: nat, index: nat): nat
    requires n > 0
  {
    (maxSeen / n + 1) * n + index
  }

  predicate CanPromise(ballot: nat, promised: nat) {
    ballot > promised
  }

  predicate CanAccept(ballot: nat, promised: nat) {
    ballot >= promised
  }

  /** Scanning the reports, keeping the first of the highest ballot. */
  function Best(infos: seq<PromiseInfo>): Option<PromiseInfo> {
    if infos == [] then None
    else
      var last := infos[|infos| - 1];
      var b := Best(infos[..|infos| - 1]);
      if last.has && (b.None? || last.ballot > b.value.ballot) then Some(last) else b
  }

  function ChooseValue(infos: seq<PromiseInfo>, own: Value): Value {
    if Best(infos).Some? then Best(infos).value.value else own
  }

  // ----- helpers -----

  function Boot(id: Host, roster: seq<Host>, index: nat, disk: Acceptor): Node {
    Node(id, roster, index, disk, disk.promised, false, 0, 0, [], map[], map[], map[], None, [], disk)
  }

  function Observe(n: Node, b: nat): Node {
    n.(maxSeen := Max(n.maxSeen, b))
  }

  function Peers(n: Node): seq<Host> {
    PeersOf(n.roster, n.id)
  }

  function ToPeers(n: Node, m: Message): set<Packet> {
    set p | p in Peers(n) :: Packet(n.id, p, m)
  }

  function Report(a: Acceptor): PromiseInfo {
    PromiseInfo(a.acceptedBallot, a.acceptedValue, a.hasAccepted)
  }

  // ----- acceptor -----

  function PromiseTo(n: Node, b: nat): Node {
    var a := n.acceptor.(promised := b);
    n.(acceptor := a, disk := a)
  }

  function AcceptPrepare(n: Node, b: nat): Node {
    var n1 := Observe(n, b);
    if CanPromise(b, n1.acceptor.promised) then PromiseTo(n1, b) else n1
  }

  function AcceptAt(n: Node, b: nat, v: Value): Node {
    var a := Acceptor(b, b, v, true);
    n.(acceptor := a, disk := a)
  }

  function OnPrepare(n: Node, b: nat, from: Host): Outcome {
    var n1 := AcceptPrepare(n, b);
    var ok := CanPromise(b, n.acceptor.promised);
    var m := Promise(b, ok, n1.acceptor.promised, if ok then Report(n1.acceptor) else PromiseInfo(0, [], false));
    Outcome(n1, {Packet(n1.id, from, m)})
  }

  // ----- learner -----

  function Decide(n: Node, d: Decided): Node {
    if n.decided.Some? then n
    else n.(decided := Some(d), proposing := false, published := n.published + [d])
  }

  function AcceptsAt(n: Node, b: nat): set<Host> {
    if b in n.accepts then n.accepts[b] else {}
  }

  function RecordAccepted(n: Node, b: nat, v: Value, from: Host): Node {
    var n1 := Observe(n, b);
    if n1.decided.Some? then n1
    else if from in AcceptsAt(n1, b) then n1.(accepts := n1.accepts[b := AcceptsAt(n1, b)])
    else
      var s := AcceptsAt(n1, b) + {from};
      var n2 := n1.(accepts := n1.accepts[b := s], valueAt := if b in n1.valueAt then n1.valueAt else n1.valueAt[b := v]);
      if |s| >= MajoritySize(|n2.roster|) then Decide(n2, Decided(b, n2.valueAt[b])) else n2
  }

  /** Accepts (b, v) if allowed, and then tells every learner, self included. */
  function AcceptAndAnnounce(n: Node, b: nat, v: Value): Outcome {
    var n1 := Observe(n, b);
    if CanAccept(b, n1.acceptor.promised) then
      var n2 := RecordAccepted(AcceptAt(n1, b, v), b, v, n1.id);
      Outcome(n2, ToPeers(n2, Accepted(b, v)))
    else Outcome(n1, {})
  }

  function OnAccept(n: Node, b: nat, v: Value, from: Host): Outcome {
    if CanAccept(b, n.acceptor.promised) then AcceptAndAnnounce(n, b, v)
    else
      var n1 := Observe(n, b);
      Outcome(n1, {Packet(n1.id, from, AcceptNack(n1.acceptor.promised))})
  }

  // ----- proposer -----

  function InfosOf(promises: map<Host, PromiseInfo>, hosts: seq<Host>): seq<PromiseInfo> {
    if hosts == [] then []
    else
      var rest := InfosOf(promises, hosts[..|hosts| - 1]);
      var h := hosts[|hosts| - 1];
      if h in promises then rest + [promises[h]] else rest
  }

  function Phase2Value(n: Node): Value {
    ChooseValue(InfosOf(n.promises, Peers(n) + [n.id]), n.myValue)
  }

  function BeginPhase2(n: Node): Outcome {
    if n.phase != 1 then Outcome(n, {})
    else
      var v := Phase2Value(n);
      var o := AcceptAndAnnounce(n.(phase := 2), n.myBallot, v);
      Outcome(o.node, o.sent + ToPeers(o.node, Accept(n.myBallot, v)))
  }

  function MaybePhase2(n: Node): Outcome {
    if |n.promises| >= MajoritySize(|n.roster|) then BeginPhase2(n) else Outcome(n, {})
  }

  /** The state change of startRound up to the self-promise. */
  function OpenRound(n: Node): Node
    requires n.roster != []
  {
    var b := NextBallot(n.maxSeen, |n.roster|, n.index);
    var n1 := Observe(n.(proposing := true, phase := 1, myBallot := b, promises := map[]), b);
    var n2 := AcceptPrepare(n1, b);
    if CanPromise(b, n1.acceptor.promised) then n2.(promises := map[n.id := Report(n2.acceptor)]) else n2
  }

  function StartRound(n: Node): Outcome
    requires n.roster != []
  {
    if n.decided.Some? then Outcome(n, {})
    else
      var n1 := OpenRound(n);
      var o := MaybePhase2(n1);
      Outcome(o.node, ToPeers(n1, Prepare(n1.myBallot)) + o.sent)
  }

  function OnRetryTimeout(n: Node): Outcome
    requires n.roster != []
  {
    if n.decided.Some? || !n.proposing then Outcome(n, {}) else StartRound(n)
  }

  function OnPromise(n: Node, m: Message, from: Host): Outcome
    requires m.Promise?
  {
    if !m.ok then Outcome(Observe(n, m.maxBallot), {})
    else if n.decided.Some? || !n.proposing || n.phase != 1 || m.ballot != n.myBallot then Outcome(n, {})
    else MaybePhase2(n.(promises := n.promises[from := m.info]))
  }

  function HandlePropose(n: Node, v: Value): Outcome
    requires n.roster != []
  {
    if n.decided.Some? || n.proposing then Outcome(n, {}) else StartRound(n.(myValue := v))
  }

  /** Re-announcing an accepted value to a freshly connected peer. */
  function OnSessionConnected(n: Node, peer: Host): Outcome {
    Outcome(n, if n.acceptor.hasAccepted
               then {Packet(n.id, peer, Accepted(n.acceptor.acceptedBallot, n.acceptor.acceptedValue))} else {})
  }
}
