/** The Paxos participant as it is written: an object whose handlers update
    fields and storage in place. Every handler is proved to compute the function
    of PaxosCore that the safety theorems are about. Whatever sends a packet
    requires storage to hold the live acceptor state at that moment: durable
    first, then the network. */
module PaxosNode {
  import opened Foundation
  import opened PaxosCore

  class MemoryStorage {
    var state: Acceptor
    var saved: bool

    constructor ()
      ensures State() == NoAcceptor
    {
      state, saved := NoAcceptor, false;
    }

    function State(): Acceptor
      reads this
    {
      if saved then state else NoAcceptor
    }

    method Load() returns (a: Acceptor)
      ensures a == State()
    {
      if !saved { return NoAcceptor; }
      a := state;
    }

    method Persist(a: Acceptor)
      modifies this
      ensures State() == a
    {
      state, saved := a, true;
    }
  }

  // ----- durable before the network -----

  /** Storage holds the live acceptor state. */
  predicate Mirrored(n: Node) {
    n.disk == n.acceptor
  }

  lemma PrepareMirrors(n: Node, b: nat)
    requires Mirrored(n)
    ensures Mirrored(AcceptPrepare(n, b))
  {
  }

  lemma RecordMirrors(n: Node, b: nat, v: Value, from: Host)
    requires Mirrored(n)
    ensures Mirrored(RecordAccepted(n, b, v, from))
  {
  }

  lemma AnnounceMirrors(n: Node, b: nat, v: Value)
    requires Mirrored(n)
    ensures Mirrored(AcceptAndAnnounce(n, b, v).node)
  {
    hide RecordAccepted;
    RecordMirrors(AcceptAt(Observe(n, b), b, v), b, v, n.id);
  }

  lemma OpenMirrors(n: Node)
    requires Mirrored(n) && n.roster != []
    ensures Mirrored(OpenRound(n))
  {
    hide NextBallot;
  }

  /** The adoption loop: scan the reports keeping the highest accepted ballot. */
  method AdoptValue(infos: seq<PromiseInfo>, own: Value) returns (v: Value, adopted: bool)
    ensures v == ChooseValue(infos, own)
    ensures adopted <==> exists i :: i in infos && i.has
    ensures adopted ==> exists i :: i in infos && i.has && i.value == v && forall j | j in infos && j.has :: j.ballot <= i.ballot
    ensures !adopted ==> v == own
  {
    var best: Value, bestBallot: nat := [], 0;
    adopted := false;
    var k := 0;
    while k < |infos|
      invariant 0 <= k <= |infos|
      invariant adopted == Best(infos[..k]).Some?
      invariant adopted ==> best == Best(infos[..k]).value.value && bestBallot == Best(infos[..k]).value.ballot
      invariant adopted ==> exists i :: i in infos[..k] && i.has && i.value == best && i.ballot == bestBallot
      invariant forall j | j in infos[..k] && j.has :: adopted && j.ballot <= bestBallot
    {
      assert infos[..k + 1][..k] == infos[..k];
      var i := infos[k];
      if i.has && (!adopted || i.ballot > bestBallot) {
        best, bestBallot, adopted := i.value, i.ballot, true;
      }
      k := k + 1;
    }
    assert infos[..k] == infos;
    v := if adopted then best else own;
  }

  class Participant {
    const id: Host
    const roster: seq<Host>
    const peers: seq<Host>
    const index: nat
    const storage: MemoryStorage
    const net: Outbox<Packet>
    var promised: nat
    var acceptedBallot: nat
    var acceptedValue: Value
    var hasAccepted: bool
    var maxSeen: nat
    var proposing: bool
    var phase: nat
    var myBallot: nat
    var myValue: Value
    var promises: map<Host, PromiseInfo>
    var accepts: map<nat, set<Host>>
    var valueAt: map<nat, Value>
    var decided: Option<Decided>
    var published: seq<Decided>

    function View(): Node
      reads this, storage
    {
      Node(id, roster, index, Acceptor(promised, acceptedBallot, acceptedValue, hasAccepted), maxSeen, proposing, phase,
           myBallot, myValue, promises, accepts, valueAt, decided, published, storage.State())
    }

    /** The object is exactly in state n. */
    ghost predicate Is(n: Node)
      reads this, storage
    {
      && id == n.id && roster == n.roster && index == n.index && peers == Peers(n)
      && promised == n.acceptor.promised && acceptedBallot == n.acceptor.acceptedBallot
      && acceptedValue == n.acceptor.acceptedValue && hasAccepted == n.acceptor.hasAccepted
      && maxSeen == n.maxSeen && proposing == n.proposing && phase == n.phase && myBallot == n.myBallot
      && myValue == n.myValue && promises == n.promises && accepts == n.accepts && valueAt == n.valueAt
      && decided == n.decided && published == n.published && storage.State() == n.disk
    }

    /** A process start on existing storage: New followed by Init. */
    constructor (self: Host, members: seq<Host>, position: nat, st: MemoryStorage)
      ensures fresh(net) && storage == st && net.sent == {}
      ensures Is(Boot(self, members, position, st.State()))
    {
      id, roster, index, storage := self, members, position, st;
      peers := PeersOf(members, self);
      var a := st.Load();
      promised, acceptedBallot, acceptedValue, hasAccepted := a.promised, a.acceptedBallot, a.acceptedValue, a.hasAccepted;
      maxSeen := a.promised;
      proposing, phase, myBallot, myValue := false, 0, 0, [];
      promises, accepts, valueAt := map[], map[], map[];
      decided, published := None, [];
      net := new Outbox<Packet>();
    }

    // ----- single state changes -----

    method Persist()
      modifies storage
      ensures storage.State() == Acceptor(promised, acceptedBallot, acceptedValue, hasAccepted)
    {
      storage.Persist(Acceptor(promised, acceptedBallot, acceptedValue, hasAccepted));
    }

    method See(ghost n: Node, b: nat)
      requires Is(n)
      modifies this`maxSeen
      ensures Is(Observe(n, b))
    {
      if b > maxSeen { maxSeen := b; }
    }

    method MakePromise(ghost n: Node, b: nat)
      requires Is(n)
      modifies this`promised, storage
      ensures Is(PromiseTo(n, b))
    {
      promised := b;
      Persist();
    }

    method MayPromise(ghost n: Node, b: nat) returns (ok: bool, current: nat, info: PromiseInfo)
      requires Is(n)
      ensures ok == CanPromise(b, n.acceptor.promised) && current == n.acceptor.promised && info == Report(n.acceptor)
    {
      ok, current := b > promised, promised;
      info := PromiseInfo(acceptedBallot, acceptedValue, hasAccepted);
    }

    /** The Phase 1b rule: promise if the ballot is above every earlier promise. */
    method TryPromise(ghost n: Node, b: nat) returns (ok: bool, current: nat, info: PromiseInfo)
      requires Is(n)
      modifies this`maxSeen, this`promised, storage
      ensures Is(AcceptPrepare(n, b)) && ok == CanPromise(b, n.acceptor.promised)
      ensures current == AcceptPrepare(n, b).acceptor.promised
      ensures info == if ok then Report(AcceptPrepare(n, b).acceptor) else PromiseInfo(0, [], false)
    {
      hide Is;
      See(n, b);
      ok, current, info := MayPromise(Observe(n, b), b);
      if !ok { return false, current, PromiseInfo(0, [], false); }
      MakePromise(Observe(n, b), b);
      current := b;
    }

    method MakeAccept(ghost n: Node, b: nat, v: Value)
      requires Is(n)
      modifies this`promised, this`acceptedBallot, this`acceptedValue, this`hasAccepted, storage
      ensures Is(AcceptAt(n, b, v))
    {
      promised, acceptedBallot, acceptedValue, hasAccepted := b, b, v, true;
      Persist();
    }

    /** The Phase 2b rule: accept if the ballot is not below the promise. */
    method TryAccept(ghost n: Node, b: nat, v: Value) returns (ok: bool, current: nat)
      requires Is(n)
      modifies this`maxSeen, this`promised, this`acceptedBallot, this`acceptedValue, this`hasAccepted, storage
      ensures ok == CanAccept(b, n.acceptor.promised)
      ensures Is(if ok then AcceptAt(Observe(n, b), b, v) else Observe(n, b))
      ensures !ok ==> current == n.acceptor.promised
    {
      assert promised == n.acceptor.promised;
      hide Is;
      See(n, b);
      if b < promised { return false, promised; }
      MakeAccept(Observe(n, b), b, v);
      return true, b;
    }

    // ----- sending -----

    method SendTo(ghost n: Node, to: Host, m: Message)
      requires Is(n) && Mirrored(n)
      modifies net
      ensures net.sent == old(net.sent) + {Packet(n.id, to, m)}
    {
      net.Send(Packet(id, to, m));
    }

    method SendToPeers(ghost n: Node, m: Message)
      requires Is(n) && Mirrored(n)
      modifies net
      ensures net.sent == old(net.sent) + ToPeers(n, m)
    {
      var i := 0;
      while i < |peers|
        invariant 0 <= i <= |peers|
        invariant net.sent == old(net.sent) + set p | p in peers[..i] :: Packet(id, p, m)
      {
        net.Send(Packet(id, peers[i], m));
        assert peers[..i + 1] == peers[..i] + [peers[i]];
        i := i + 1;
      }
      assert peers[..i] == peers;
    }

    // ----- learner -----

    method MakeDecision(ghost n: Node, d: Decided)
      requires Is(n)
      modifies this`decided, this`proposing, this`published
      ensures Is(Decide(n, d))
    {
      if decided.Some? { return; }
      decided, proposing := Some(d), false;
      published := published + [d];
    }

    method Voters(ghost n: Node, b: nat) returns (s: set<Host>)
      requires Is(n)
      ensures s == AcceptsAt(n, b)
    {
      s := if b in accepts then accepts[b] else {};
    }

    method SetVoters(ghost n: Node, b: nat, s: set<Host>)
      requires Is(n)
      modifies this`accepts
      ensures Is(n.(accepts := n.accepts[b := s]))
    {
      accepts := accepts[b := s];
    }

    method NameValue(ghost n: Node, b: nat, v: Value) returns (named: Value)
      requires Is(n)
      modifies this`valueAt
      ensures var vs := if b in n.valueAt then n.valueAt else n.valueAt[b := v];
              Is(n.(valueAt := vs)) && named == vs[b]
    {
      if b !in valueAt { valueAt := valueAt[b := v]; }
      named := valueAt[b];
    }

    /** Tallies an acceptance; a majority on one ballot decides the decree. */
    method Record(ghost n: Node, b: nat, v: Value, from: Host)
      requires Is(n)
      modifies this`maxSeen, this`accepts, this`valueAt, this`decided, this`proposing, this`published
      ensures Is(RecordAccepted(n, b, v, from))
    {
      assert decided == n.decided && roster == n.roster;
      hide Is, AcceptsAt;
      See(n, b);
      ghost var n1 := Observe(n, b);
      if decided.Some? { return; }
      var s := Voters(n1, b);
      if from in s {
        SetVoters(n1, b, s);
        return;
      }
      s := s + {from};
      SetVoters(n1, b, s);
      var named := NameValue(n1.(accepts := n1.accepts[b := s]), b, v);
      if |s| >= |roster| / 2 + 1 {
        MakeDecision(n1.(accepts := n1.accepts[b := s],
                         valueAt := if b in n1.valueAt then n1.valueAt else n1.valueAt[b := v]), Decided(b, named));
      }
    }

    /** Announcing an acceptance to every learner, self included. */
    method Announce(ghost n: Node, b: nat, v: Value)
      requires Is(n) && Mirrored(n)
      modifies this`maxSeen, this`accepts, this`valueAt, this`decided, this`proposing, this`published, net
      ensures var r := RecordAccepted(n, b, v, n.id); Is(r) && net.sent == old(net.sent) + ToPeers(r, Accepted(b, v))
    {
      assert id == n.id;
      hide Is, RecordAccepted, ToPeers;
      Record(n, b, v, id);
      RecordMirrors(n, b, v, n.id);
      SendToPeers(RecordAccepted(n, b, v, n.id), Accepted(b, v));
    }

    method ReceiveAccepted(b: nat, v: Value, from: Host)
      requires peers == Peers(View()) && Mirrored(View())
      modifies this, net, storage
      ensures Is(RecordAccepted(old(View()), b, v, from)) && net.sent == old(net.sent)
    {
      ghost var n := View();
      assert Is(n);
      hide Is, RecordAccepted;
      Record(n, b, v, from);
    }

    // ----- acceptor handlers -----

    method ReceivePrepare(b: nat, from: Host)
      requires peers == Peers(View()) && Mirrored(View())
      modifies this, net, storage
      ensures Is(OnPrepare(old(View()), b, from).node)
      ensures net.sent == old(net.sent) + OnPrepare(old(View()), b, from).sent
    {
      ghost var n := View();
      assert Is(n);
      hide Is;
      var ok, current, info := TryPromise(n, b);
      PrepareMirrors(n, b);
      SendTo(AcceptPrepare(n, b), from, Promise(b, ok, current, info));
    }

    method ReceiveAccept(b: nat, v: Value, from: Host)
      requires peers == Peers(View()) && Mirrored(View())
      modifies this, net, storage
      ensures Is(OnAccept(old(View()), b, v, from).node)
      ensures net.sent == old(net.sent) + OnAccept(old(View()), b, v, from).sent
    {
      ghost var n := View();
      assert Is(n);
      hide Is, RecordAccepted, ToPeers;
      var ok, current := TryAccept(n, b, v);
      if ok {
        Announce(AcceptAt(Observe(n, b), b, v), b, v);
      } else {
        SendTo(Observe(n, b), from, AcceptNack(current));
      }
    }

    // ----- proposer -----

    /** The collected reports: peers in order, then self. */
    method Reports(ghost n: Node) returns (infos: seq<PromiseInfo>)
      requires Is(n)
      ensures infos == InfosOf(n.promises, Peers(n) + [n.id])
    {
      infos := [];
      var k := 0;
      while k < |peers|
        invariant 0 <= k <= |peers| && infos == InfosOf(promises, peers[..k])
      {
        assert peers[..k + 1][..k] == peers[..k];
        if peers[k] in promises { infos := infos + [promises[peers[k]]]; }
        k := k + 1;
      }
      assert peers[..k] == peers && (peers + [id])[..|peers|] == peers;
      if id in promises { infos := infos + [promises[id]]; }
    }

    method EnterPhase2(ghost n: Node)
      requires Is(n)
      modifies this`phase
      ensures Is(n.(phase := 2))
    {
      phase := 2;
    }

    /** The proposer's own acceptor runs in process: there is no loopback. */
    method SelfAccept(ghost n: Node, b: nat, v: Value)
      requires Is(n) && Mirrored(n)
      modifies this`maxSeen, this`promised, this`acceptedBallot, this`acceptedValue, this`hasAccepted, storage
      modifies this`accepts, this`valueAt, this`decided, this`proposing, this`published, net
      ensures var o := AcceptAndAnnounce(n, b, v); Is(o.node) && net.sent == old(net.sent) + o.sent
    {
      hide Is, RecordAccepted, ToPeers;
      var ok, _ := TryAccept(n, b, v);
      if ok { Announce(AcceptAt(Observe(n, b), b, v), b, v); }
    }

    method PickValue(ghost n: Node) returns (v: Value)
      requires Is(n)
      ensures v == Phase2Value(n)
    {
      assert myValue == n.myValue;
      hide Is, ChooseValue, InfosOf, Peers;
      var infos := Reports(n);
      var adopted;
      v, adopted := AdoptValue(infos, myValue);
    }

    method Phase2(ghost n: Node)
      requires Is(n) && Mirrored(n)
      modifies this, net, storage
      ensures Is(BeginPhase2(n).node) && net.sent == old(net.sent) + BeginPhase2(n).sent
    {
      assert phase == n.phase && myBallot == n.myBallot;
      hide Is, AcceptAndAnnounce, ToPeers, Phase2Value;
      if phase != 1 { return; }
      var b := myBallot;
      var v := PickValue(n);
      EnterPhase2(n);
      ghost var o := AcceptAndAnnounce(n.(phase := 2), b, v);
      SelfAccept(n.(phase := 2), b, v);
      AnnounceMirrors(n.(phase := 2), b, v);
      SendToPeers(o.node, Accept(b, v));
    }

    method CheckQuorum(ghost n: Node)
      requires Is(n) && Mirrored(n)
      modifies this, net, storage
      ensures Is(MaybePhase2(n).node) && net.sent == old(net.sent) + MaybePhase2(n).sent
    {
      assert promises == n.promises && roster == n.roster;
      hide Is, BeginPhase2;
      if |promises| >= |roster| / 2 + 1 { Phase2(n); }
    }

    method OpenBallot(ghost n: Node)
      requires Is(n) && n.roster != []
      modifies this`proposing, this`phase, this`myBallot, this`promises
      ensures Is(n.(proposing := true, phase := 1, myBallot := NextBallot(n.maxSeen, |n.roster|, n.index), promises := map[]))
    {
      proposing, phase := true, 1;
      myBallot := NextBallot(maxSeen, |roster|, index);
      promises := map[];
    }

    method KeepPromise(ghost n: Node, from: Host, info: PromiseInfo)
      requires Is(n)
      modifies this`promises
      ensures Is(n.(promises := n.promises[from := info]))
    {
      promises := promises[from := info];
    }

    method Ballot(ghost n: Node) returns (b: nat)
      requires Is(n)
      ensures b == n.myBallot
    {
      b := myBallot;
    }

    method BeginRound(ghost n: Node) returns (b: nat)
      requires Is(n) && n.roster != []
      modifies this, storage
      ensures Is(OpenRound(n)) && b == OpenRound(n).myBallot
    {
      assert id == n.id;
      hide Is, NextBallot;
      OpenBallot(n);
      ghost var n0 := n.(proposing := true, phase := 1, myBallot := NextBallot(n.maxSeen, |n.roster|, n.index), promises := map[]);
      b := Ballot(n0);
      See(n0, b);
      var ok, _, info := TryPromise(Observe(n0, b), b);
      ghost var n2 := AcceptPrepare(Observe(n0, b), b);
      if ok { KeepPromise(n2, id, info); }
    }

    method Round(ghost n: Node)
      requires Is(n) && Mirrored(n) && n.roster != []
      modifies this, net, storage
      ensures Is(StartRound(n).node) && net.sent == old(net.sent) + StartRound(n).sent
    {
      assert decided == n.decided;
      hide Is, OpenRound, MaybePhase2, ToPeers;
      if decided.Some? { return; }
      var b := BeginRound(n);
      OpenMirrors(n);
      SendToPeers(OpenRound(n), Prepare(b));
      CheckQuorum(OpenRound(n));
    }

    method RetryTimeout()
      requires roster != [] && peers == Peers(View()) && Mirrored(View())
      modifies this, net, storage
      ensures Is(OnRetryTimeout(old(View())).node)
      ensures net.sent == old(net.sent) + OnRetryTimeout(old(View())).sent
    {
      ghost var n := View();
      assert Is(n);
      hide Is, StartRound;
      if decided.Some? || !proposing { return; }
      Round(n);
    }

    method ReceivePromise(m: Message, from: Host)
      requires m.Promise? && peers == Peers(View()) && Mirrored(View())
      modifies this, net, storage
      ensures Is(OnPromise(old(View()), m, from).node)
      ensures net.sent == old(net.sent) + OnPromise(old(View()), m, from).sent
    {
      ghost var n := View();
      assert Is(n);
      hide Is, MaybePhase2;
      if !m.ok {
        See(n, m.maxBallot);
        return;
      }
      if decided.Some? || !proposing || phase != 1 || m.ballot != myBallot { return; }
      KeepPromise(n, from, m.info);
      CheckQuorum(n.(promises := n.promises[from := m.info]));
    }

    method ReceiveAcceptNack(maxBallot: nat)
      requires peers == Peers(View()) && Mirrored(View())
      modifies this`maxSeen
      ensures Is(Observe(old(View()), maxBallot)) && net.sent == old(net.sent)
    {
      See(View(), maxBallot);
    }

    method Nominate(ghost n: Node, v: Value)
      requires Is(n)
      modifies this`myValue
      ensures Is(n.(myValue := v))
    {
      myValue := v;
    }

    /** A decided participant refuses with the decision; an idle one starts a round. */
    method Propose(v: Value) returns (refused: Option<Decided>)
      requires roster != [] && peers == Peers(View()) && Mirrored(View())
      modifies this, net, storage
      ensures refused == old(decided)
      ensures Is(HandlePropose(old(View()), v).node)
      ensures net.sent == old(net.sent) + HandlePropose(old(View()), v).sent
    {
      ghost var n := View();
      assert Is(n);
      hide Is, StartRound;
      refused := None;
      if decided.Some? { return decided; }
      if !proposing {
        Nominate(n, v);
        Round(n.(myValue := v));
      }
    }

    method SessionConnected(peer: Host)
      requires peers == Peers(View()) && Mirrored(View())
      modifies net
      ensures Is(OnSessionConnected(old(View()), peer).node)
      ensures net.sent == old(net.sent) + OnSessionConnected(old(View()), peer).sent
    {
      ghost var n := View();
      assert Is(n);
      if hasAccepted {
        SendTo(n, peer, Accepted(acceptedBallot, acceptedValue));
      }
    }
  }
}
