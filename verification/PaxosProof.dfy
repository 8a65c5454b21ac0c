/** Preservation of the Paxos invariant by every handler. */
module PaxosProof {
  import opened Foundation
  import opened PaxosCore
  import opened PaxosCluster
  import opened PaxosInvariant

  function Put(c: Cluster, n: Node): Cluster {
    c.(nodes := c.nodes[n.id := n])
  }

  function Send(c: Cluster, ps: set<Packet>): Cluster {
    c.(net := c.net + ps)
  }

  // ----- monotonicity in the history -----

  lemma ChosenExtends(h: History, h2: History, g: Group, b: nat)
    requires Extends(h, h2) && Chosen(h, g, b)
    ensures Chosen(h2, g, b)
  {
    MajorityGrows(g.hosts, Acceptors(h, g, b), Acceptors(h2, g, b));
  }

  lemma BlockedExtends(h: History, h2: History, g: Group, b: nat)
    requires Extends(h, h2) && Blocked(h, g, b)
    ensures Blocked(h2, g, b)
  {
    forall v | v in Refusers(h, g, b) ensures v in Refusers(h2, g, b) {
      assert Refuses(h, v, b);
      assert Refuses(h2, v, b);
    }
    MajorityGrows(g.hosts, Refusers(h, g, b), Refusers(h2, g, b));
  }

  lemma ChosenNotBlocked(h: History, g: Group, b: nat)
    requires Chosen(h, g, b)
    ensures !Blocked(h, g, b)
  {
    if Blocked(h, g, b) {
      var v := MajoritiesMeet(g.hosts, Acceptors(h, g, b), Refusers(h, g, b));
    }
  }

  lemma PromiseExtends(h: History, h2: History, g: Group, v: Host, b: nat, i: PromiseInfo)
    requires Extends(h, h2) && PromiseOk(h, g, v, b, i)
    ensures PromiseOk(h2, g, v, b, i)
  {
  }

  lemma OwnedExtends(h: History, h2: History, g: Group, b: nat, v: Host)
    requires Extends(h, h2) && g.roster != [] && Owned(h, g, b, v)
    ensures Owned(h2, g, b, v)
  {
  }

  lemma DecidedExtends(h: History, h2: History, g: Group, d: Decided)
    requires Extends(h, h2) && DecidedOk(h, g, d)
    ensures DecidedOk(h2, g, d)
  {
    ChosenExtends(h, h2, g, d.ballot);
  }

  lemma PacketExtends(h: History, h2: History, g: Group, p: Packet)
    requires Extends(h, h2) && PacketOk(h, g, p)
    ensures PacketOk(h2, g, p)
  {
    match p.msg
    case Promise(b, ok, _, i) => if ok { PromiseExtends(h, h2, g, p.src, b, i); }
    case Prepare(b) => OwnedExtends(h, h2, g, b, p.src);
    case _ =>
  }

  lemma NetExtends(net: set<Packet>, ds: set<(Host, Decided)>, h: History, h2: History, g: Group)
    requires Extends(h, h2) && NetOk(net, ds, h, g)
    ensures NetOk(net, ds, h2, g)
  {
    hide Extends, PacketOk, DecidedOk;
    forall p | p in net ensures PacketOk(h2, g, p) {
      PacketExtends(h, h2, g, p);
    }
    forall d | d in ds ensures DecidedOk(h2, g, d.1) {
      DecidedExtends(h, h2, g, d.1);
    }
  }

  lemma LearnerExtends(h: History, h2: History, g: Group, n: Node)
    requires Extends(h, h2) && LearnerOk(h, g, n)
    ensures LearnerOk(h2, g, n)
  {
    hide DecidedOk;
    if n.decided.Some? { DecidedExtends(h, h2, g, n.decided.value); }
    forall b | b in n.accepts ensures n.accepts[b] <= Acceptors(h2, g, b) {
      assert Acceptors(h, g, b) <= Acceptors(h2, g, b);
    }
  }

  /** A collecting proposer stays sound while its ballot gets no value. */
  lemma ProposerExtends(h: History, h2: History, g: Group, n: Node)
    requires Extends(h, h2) && ProposerOk(h, g, n)
    requires n.proposing && n.phase == 1 ==> n.myBallot !in h2.value
    ensures ProposerOk(h2, g, n)
  {
    hide PromiseOk, Owned;
    if n.proposing && n.phase == 1 {
      CollectingExtends(h, h2, g, n);
    }
  }

  lemma CollectingExtends(h: History, h2: History, g: Group, n: Node)
    requires Extends(h, h2) && CollectingOk(h, g, n) && n.myBallot !in h2.value
    ensures CollectingOk(h2, g, n)
  {
    hide PromiseOk, Owned;
    OwnedExtends(h, h2, g, n.myBallot, n.id);
    forall v | v in n.promises ensures PromiseOk(h2, g, v, n.myBallot, n.promises[v]) {
      PromiseExtends(h, h2, g, v, n.myBallot, n.promises[v]);
    }
  }

  /** A node none of whose own acceptances or promises changed stays sound. */
  lemma NodeExtends(h: History, h2: History, g: Group, n: Node)
    requires Extends(h, h2) && NodeOk(h, g, n)
    requires n.id in h2.promised && h2.promised[n.id] == h.promised[n.id]
    requires forall b | (n.id, b) in h2.accepted :: (n.id, b) in h.accepted
    requires n.proposing && n.phase == 1 ==> n.myBallot !in h2.value
    ensures NodeOk(h2, g, n)
  {
    hide ProposerOk, LearnerOk;
    ProposerExtends(h, h2, g, n);
    LearnerExtends(h, h2, g, n);
  }

  // ----- one node running in a sound cluster -----

  ghost predicate Running(c: Cluster, h: History, g: Group, n: Node) {
    Inv(c, h, g) && n.id in g.hosts && n.id in c.nodes && c.nodes[n.id] == n
  }

  lemma RunningNode(c: Cluster, h: History, g: Group, n: Node)
    requires Running(c, h, g, n)
    ensures NodeOk(h, g, n) && HistoryOk(h, g)
  {
    hide NodeOk, HistoryOk, NetOk;
  }

  lemma LocalMove(c: Cluster, h: History, g: Group, n: Node)
    requires Inv(c, h, g) && n.id in g.hosts && NodeOk(h, g, n)
    ensures Running(Put(c, n), h, g, n)
  {
    hide NodeOk, HistoryOk, NetOk;
  }

  lemma SendMove(c: Cluster, h: History, g: Group, ps: set<Packet>)
    requires Inv(c, h, g) && forall p | p in ps :: PacketOk(h, g, p)
    ensures Inv(Send(c, ps), h, g)
  {
    hide NodesOk, HistoryOk, PacketOk, DecidedOk;
  }

  /** Assembling a move that extends the history and changes one node. */
  lemma MoveWith(c: Cluster, h: History, h2: History, g: Group, n2: Node)
    requires Inv(c, h, g) && Extends(h, h2) && HistoryOk(h2, g) && h2.proposed == h.proposed
    requires n2.id in g.hosts && NodeOk(h2, g, n2)
    requires forall v | v in g.hosts && v != n2.id :: Untouched(h, h2, v)
    requires g.roster != [] && forall b | b in h2.value && b !in h.value :: Owned(h, g, b, n2.id)
    ensures Running(Put(c, n2), h2, g, n2)
  {
    hide NodeOk, Extends, HistoryOk, NetOk, Untouched, Owned;
    NetExtends(c.net, c.decisions, h, h2, g);
    var c2 := Put(c, n2);
    forall v | v in c2.nodes ensures c2.nodes[v].id == v && NodeOk(h2, g, c2.nodes[v]) {
      if v != n2.id {
        OthersUntouched(h, h2, g, c.nodes[v], n2.id);
      }
    }
  }

  ghost predicate Untouched(h: History, h2: History, v: Host) {
    && (v in h.promised ==> v in h2.promised && h2.promised[v] == h.promised[v])
    && forall b | (v, b) in h2.accepted :: (v, b) in h.accepted
  }

  /** Giving a value to a ballot leaves every other proposer's ballot unused:
      residue classes are disjoint. */
  lemma OthersUntouched(h: History, h2: History, g: Group, n: Node, owner: Host)
    requires Extends(h, h2) && NodeOk(h, g, n) && n.id != owner && Untouched(h, h2, n.id)
    requires g.roster != [] && forall b | b in h2.value && b !in h.value :: Owned(h, g, b, owner)
    ensures NodeOk(h2, g, n)
  {
    NodeExtends(h, h2, g, n);
  }

  // ----- a new promise -----

  ghost function PromiseHistory(h: History, v: Host, b: nat): History {
    h.(promised := h.promised[v := b])
  }

  lemma PromiseHistoryOk(h: History, g: Group, v: Host, b: nat)
    requires HistoryOk(h, g) && v in g.hosts && b >= h.promised[v]
    ensures var h2 := PromiseHistory(h, v, b); Extends(h, h2) && HistoryOk(h2, g)
  {
    var h2 := PromiseHistory(h, v, b);
    assert Extends(h, h2);
    HistoryStays(h, h2, g);
  }

  /** The parts of the history invariant that need no new argument. */
  lemma HistoryStays(h: History, h2: History, g: Group)
    requires HistoryOk(h, g) && Extends(h, h2)
    requires h2.value == h.value && h2.started == h.started && h2.accepted == h.accepted
    requires h2.promised.Keys == h.promised.Keys
    ensures HistoryOk(h2, g)
  {
    hide Owned;
    forall b | b in h2.started ensures BallotOk(h2, g, b) {
      assert BallotOk(h, g, b);
      OwnedExtends(h, h2, g, b, OwnerOf(g.roster, b));
    }
    forall b | b in h2.value ensures ValueOk(h2, g, b) {
      assert ValueOk(h, g, b);
      ValueStays(h, h2, g, b);
    }
    forall b: nat, lower: nat ensures Safe(h2, g, b, lower) {
      assert Safe(h, g, b, lower);
      SafeStays(h, h2, g, b, lower);
    }
  }

  lemma ValueStays(h: History, h2: History, g: Group, b: nat)
    requires Extends(h, h2) && b in h.value && ValueOk(h, g, b)
    ensures ValueOk(h2, g, b)
  {
    MajorityGrows(g.hosts, Promisers(h, g, b), Promisers(h2, g, b));
  }

  lemma SafeStays(h: History, h2: History, g: Group, b: nat, lower: nat)
    requires Extends(h, h2) && Safe(h, g, b, lower)
    requires b in h2.value && lower in h2.value ==> b in h.value && lower in h.value
    ensures Safe(h2, g, b, lower)
  {
    if b in h.value && lower in h.value && lower < b && Blocked(h, g, lower) {
      BlockedExtends(h, h2, g, lower);
    }
  }

  lemma PromiseNode(h: History, h2: History, g: Group, n: Node, b: nat)
    requires NodeOk(h, g, n) && CanPromise(b, n.acceptor.promised) && b <= n.maxSeen && b in h.started
    requires h2 == PromiseHistory(h, n.id, b) && Extends(h, h2)
    ensures NodeOk(h2, g, PromiseTo(n, b))
    ensures (forall x | (n.id, x) in h.accepted :: x in h.value && x <= h.promised[n.id]) && n.id in g.hosts ==>
              PromiseOk(h2, g, n.id, b, Report(n.acceptor))
  {
    hide LearnerOk, PromiseOk, Owned;
    var n2 := PromiseTo(n, b);
    LearnerExtends(h, h2, g, n);
    LearnerSame(h2, g, n, n2);
    ProposerExtends(h, h2, g, n);
    ProposerSame(h2, g, n, n2);
    ReportOk(h, h2, g, n, b);
  }

  lemma LearnerSame(h: History, g: Group, n: Node, n2: Node)
    requires LearnerOk(h, g, n)
    requires n2.accepts == n.accepts && n2.valueAt == n.valueAt && n2.decided == n.decided && n2.published == n.published
    ensures LearnerOk(h, g, n2)
  {
    hide DecidedOk, Acceptors;
  }

  lemma ProposerSame(h: History, g: Group, n: Node, n2: Node)
    requires ProposerOk(h, g, n)
    requires n2.id == n.id && n2.proposing == n.proposing && n2.phase == n.phase && n2.myBallot == n.myBallot
    requires n2.myValue == n.myValue && n2.promises == n.promises
    ensures ProposerOk(h, g, n2)
  {
    hide PromiseOk, Owned;
    if n.proposing && n.phase == 1 { assert CollectingOk(h, g, n2); }
  }

  lemma ReportOk(h: History, h2: History, g: Group, n: Node, b: nat)
    requires AcceptorOk(h, n) && CanPromise(b, n.acceptor.promised) && h2 == PromiseHistory(h, n.id, b)
    ensures (forall x | (n.id, x) in h.accepted :: x in h.value && x <= h.promised[n.id]) && n.id in g.hosts ==>
              PromiseOk(h2, g, n.id, b, Report(n.acceptor))
  {
  }

  lemma PromiseMove(c: Cluster, h: History, g: Group, n: Node, b: nat) returns (h2: History)
    requires Running(c, h, g, n) && CanPromise(b, n.acceptor.promised) && b <= n.maxSeen && b in h.started
    ensures Extends(h, h2) && Running(Put(c, PromiseTo(n, b)), h2, g, PromiseTo(n, b))
    ensures PromiseOk(h2, g, n.id, b, Report(n.acceptor)) && h2.value == h.value && h2.started == h.started
    ensures h2.promised == h.promised[n.id := b] && h2.proposed == h.proposed
  {
    hide NodeOk, HistoryOk, NetOk, NodesOk, Extends, PromiseOk;
    RunningNode(c, h, g, n);
    h2 := PromiseHistory(h, n.id, b);
    PromiseFacts(h, g, n);
    PromiseHistoryOk(h, g, n.id, b);
    PromiseNode(h, h2, g, n, b);
    MoveWith(c, h, h2, g, PromiseTo(n, b));
  }

  lemma PromiseFacts(h: History, g: Group, n: Node)
    requires HistoryOk(h, g) && NodeOk(h, g, n)
    ensures g.roster != [] && n.id in g.hosts && n.id in h.promised && h.promised[n.id] == n.acceptor.promised <= n.maxSeen
    ensures forall x | (n.id, x) in h.accepted :: x in h.value && x <= h.promised[n.id]
  {
    hide Safe, ProposerOk, LearnerOk, BallotOk, ValueOk;
    assert n.id in Elements(g.roster);
  }

  // ----- opening a round -----

  lemma NextBallotIs(maxSeen: nat, roster: seq<Host>, index: nat)
    requires index < |roster|
    ensures NextBallot(maxSeen, |roster|, index) > maxSeen
    ensures OwnerOf(roster, NextBallot(maxSeen, |roster|, index)) == roster[index]
  {
    var n := |roster|;
    var q := maxSeen / n;
    assert maxSeen == q * n + maxSeen % n;
    assert (q + 1) * n == q * n + n;
    OwnerOfRound(roster, q + 1, index);
  }

  lemma {:induction false} OwnerOfRound(roster: seq<Host>, q: nat, i: nat)
    requires i < |roster|
    ensures OwnerOf(roster, q * |roster| + i) == roster[i]
  {
    if q > 0 {
      OwnerOfRound(roster, q - 1, i);
      assert q * |roster| + i == (q - 1) * |roster| + i + |roster|;
      assert (q - 1) * |roster| >= 0;
    }
  }

  ghost function OpenHistory(h: History, v: Host, b: nat): History {
    h.(started := h.started + {b}, promised := h.promised[v := b])
  }

  lemma OpenHistoryOk(h: History, g: Group, v: Host, b: nat)
    requires HistoryOk(h, g) && v in g.hosts && b >= h.promised[v] && v == OwnerOf(g.roster, b)
    ensures var h2 := OpenHistory(h, v, b); Extends(h, h2) && HistoryOk(h2, g)
  {
    var h1 := PromiseHistory(h, v, b);
    var h2 := OpenHistory(h, v, b);
    PromiseHistoryOk(h, g, v, b);
    assert Extends(h1, h2);
    hide Safe, Extends;
    forall x | x in h2.started ensures BallotOk(h2, g, x) {
      if x in h.started { assert BallotOk(h1, g, x); }
    }
    forall x | x in h2.value ensures ValueOk(h2, g, x) {
      assert ValueOk(h1, g, x);
      ValueStays(h1, h2, g, x);
    }
    forall x: nat, lower: nat ensures Safe(h2, g, x, lower) {
      assert Safe(h1, g, x, lower);
      SafeStays(h1, h2, g, x, lower);
    }
  }

  /** The ballot of a new round was never used, before or after a crash. */
  lemma BallotIsFresh(h: History, g: Group, n: Node)
    requires HistoryOk(h, g) && NodeOk(h, g, n)
    ensures var b := NextBallot(n.maxSeen, |n.roster|, n.index);
            b > n.acceptor.promised && b !in h.started && b !in h.value && OwnerOf(g.roster, b) == n.id
  {
    hide Safe, LearnerOk, ProposerOk;
    var b := NextBallot(n.maxSeen, |n.roster|, n.index);
    NextBallotIs(n.maxSeen, n.roster, n.index);
    assert b in h.started ==> BallotOk(h, g, b);
    assert b in h.value ==> ValueOk(h, g, b);
  }

  lemma OpenShape(n: Node)
    requires n.roster != [] && NextBallot(n.maxSeen, |n.roster|, n.index) > n.maxSeen >= n.acceptor.promised
    ensures var b := NextBallot(n.maxSeen, |n.roster|, n.index);
            var a := n.acceptor.(promised := b);
            OpenRound(n) == n.(proposing := true, phase := 1, myBallot := b, maxSeen := b, acceptor := a, disk := a,
                               promises := map[n.id := Report(a)])
  {
  }

  lemma OpenNode(h: History, h2: History, g: Group, n: Node, b: nat)
    requires HistoryOk(h, g) && NodeOk(h, g, n) && b == NextBallot(n.maxSeen, |n.roster|, n.index)
    requires n.myValue in h.proposed && n.decided.None?
    requires h2 == OpenHistory(h, n.id, b) && Extends(h, h2)
    ensures NodeOk(h2, g, OpenRound(n)) && OpenRound(n).id == n.id
  {
    hide LearnerOk, PromiseOk, HistoryOk;
    BallotIsFresh(h, g, n);
    PromiseFacts(h, g, n);
    NextBallotIs(n.maxSeen, n.roster, n.index);
    OpenShape(n);
    var n2 := OpenRound(n);
    LearnerExtends(h, h2, g, n);
    LearnerSame(h2, g, n, n2);
    ReportOk(h, PromiseHistory(h, n.id, b), g, n, b);
    OpenReport(h, h2, g, n, b);
    assert CollectingOk(h2, g, n2);
  }

  lemma OpenReport(h: History, h2: History, g: Group, n: Node, b: nat)
    requires h2 == OpenHistory(h, n.id, b) && PromiseOk(PromiseHistory(h, n.id, b), g, n.id, b, Report(n.acceptor))
    ensures PromiseOk(h2, g, n.id, b, Report(n.acceptor.(promised := b)))
  {
  }

  lemma OpenMove(c: Cluster, h: History, g: Group, n: Node) returns (h2: History)
    requires Running(c, h, g, n) && n.myValue in h.proposed && n.decided.None?
    ensures n.roster != [] && OpenRound(n).id == n.id
    ensures Extends(h, h2) && Running(Put(c, OpenRound(n)), h2, g, OpenRound(n))
    ensures h2.proposed == h.proposed && OpenRound(n).proposing && OpenRound(n).phase == 1
  {
    hide NodeOk, HistoryOk, NetOk, NodesOk, Extends;
    RunningNode(c, h, g, n);
    PromiseFacts(h, g, n);
    NodeRoster(h, g, n);
    var b := NextBallot(n.maxSeen, |n.roster|, n.index);
    NextBallotIs(n.maxSeen, n.roster, n.index);
    OpenShape(n);
    BallotIsFresh(h, g, n);
    h2 := OpenHistory(h, n.id, b);
    OpenHistoryOk(h, g, n.id, b);
    OpenNode(h, h2, g, n, b);
    MoveWith(c, h, h2, g, OpenRound(n));
  }

  lemma NodeRoster(h: History, g: Group, n: Node)
    requires NodeOk(h, g, n)
    ensures n.roster == g.roster && n.index < |n.roster|
  {
  }

  // ----- choosing the value of a ballot -----

  /** Best is the report of the highest ballot among those that carry one. */
  lemma {:induction false} BestIsHighest(infos: seq<PromiseInfo>)
    ensures Best(infos).Some? ==> Best(infos).value in infos && Best(infos).value.has
    ensures forall i | i in infos && i.has :: Best(infos).Some? && i.ballot <= Best(infos).value.ballot
  {
    if infos != [] {
      var front, last := infos[..|infos| - 1], infos[|infos| - 1];
      BestIsHighest(front);
      assert forall i :: i in infos <==> i in front || i == last by { assert infos == front + [last]; }
    }
  }

  lemma {:induction false} InfosAre(ps: map<Host, PromiseInfo>, hosts: seq<Host>)
    ensures forall i | i in InfosOf(ps, hosts) :: exists v :: v in hosts && v in ps && ps[v] == i
    ensures forall v | v in hosts && v in ps :: ps[v] in InfosOf(ps, hosts)
  {
    if hosts != [] {
      var front, last := hosts[..|hosts| - 1], hosts[|hosts| - 1];
      InfosAre(ps, front);
      assert forall v :: v in hosts <==> v in front || v == last by { assert hosts == front + [last]; }
    }
  }

  /** The adoption rule makes the new ballot safe against every lower one. */
  lemma AdoptionIsSafe(h: History, g: Group, b: nat, ps: map<Host, PromiseInfo>, best: Option<PromiseInfo>, v: Value, lower: nat)
    requires HistoryOk(h, g) && Majority(g.hosts, ps.Keys)
    requires forall x | x in ps :: PromiseOk(h, g, x, b, ps[x])
    requires best.Some? ==> best.value.has && v == best.value.value && exists x :: x in ps && ps[x] == best.value
    requires forall x | x in ps && ps[x].has :: best.Some? && ps[x].ballot <= best.value.ballot
    requires lower in h.value && lower < b
    ensures v == h.value[lower] || Blocked(h, g, lower)
  {
    hide GroupOk, BallotOk, ValueOk;
    if best.Some? && lower <= best.value.ballot {
      var x :| x in ps && ps[x] == best.value;
      assert PromiseOk(h, g, x, b, ps[x]);
      assert Safe(h, g, best.value.ballot, lower);
    } else {
      forall x | x in ps.Keys ensures x in Refusers(h, g, lower) {
        assert PromiseOk(h, g, x, b, ps[x]);
        assert Refuses(h, x, lower);
      }
      MajorityGrows(g.hosts, ps.Keys, Refusers(h, g, lower));
    }
  }

  /** A ballot given a value late is dead if a higher one already has its
      quorum: that quorum promised past it and nobody accepted it. */
  lemma LateBallotBlocked(h: History, g: Group, b: nat, higher: nat)
    requires HistoryOk(h, g) && b !in h.value && higher in h.value && b < higher
    ensures Blocked(h, g, b)
  {
    hide GroupOk, BallotOk, Safe;
    assert ValueOk(h, g, higher);
    forall x | x in Promisers(h, g, higher) ensures x in Refusers(h, g, b) {
      assert Refuses(h, x, b);
    }
    MajorityGrows(g.hosts, Promisers(h, g, higher), Refusers(h, g, b));
  }

  ghost function ValueHistory(h: History, b: nat, v: Value): History {
    h.(value := h.value[b := v])
  }

  lemma ValueHistoryOk(h: History, g: Group, b: nat, v: Value)
    requires HistoryOk(h, g) && b !in h.value && b in h.started && v in h.proposed
    requires Majority(g.hosts, Promisers(h, g, b))
    requires forall lower | lower in h.value && lower < b :: v == h.value[lower] || Blocked(h, g, lower)
    ensures var h2 := ValueHistory(h, b, v); Extends(h, h2) && HistoryOk(h2, g)
  {
    hide Majority, Owned;
    var h2 := ValueHistory(h, b, v);
    assert Extends(h, h2);
    forall x | x in h2.started ensures BallotOk(h2, g, x) {
      assert BallotOk(h, g, x);
      OwnedExtends(h, h2, g, x, OwnerOf(g.roster, x));
    }
    forall x | x in h2.value ensures ValueOk(h2, g, x) {
      if x != b { assert ValueOk(h, g, x); ValueStays(h, h2, g, x); } else { PromisersSame(h, g, b, v); }
    }
    forall x: nat, lower: nat ensures Safe(h2, g, x, lower) {
      ValueSafe(h, g, b, v, x, lower);
    }
  }

  lemma PromisersSame(h: History, g: Group, b: nat, v: Value)
    ensures Promisers(ValueHistory(h, b, v), g, b) == Promisers(h, g, b)
  {
  }

  lemma ValueSafe(h: History, g: Group, b: nat, v: Value, x: nat, lower: nat)
    requires HistoryOk(h, g) && b !in h.value && Extends(h, ValueHistory(h, b, v))
    requires forall l | l in h.value && l < b :: v == h.value[l] || Blocked(h, g, l)
    ensures Safe(ValueHistory(h, b, v), g, x, lower)
  {
    hide GroupOk, Blocked, BallotOk, ValueOk, Extends;
    var h2 := ValueHistory(h, b, v);
    if x in h2.value && lower in h2.value && lower < x {
      if x == b {
        if Blocked(h, g, lower) { BlockedExtends(h, h2, g, lower); }
      } else if lower == b {
        LateBallotBlocked(h, g, b, x);
        BlockedExtends(h, h2, g, b);
      } else {
        assert Safe(h, g, x, lower);
        if Blocked(h, g, lower) { BlockedExtends(h, h2, g, lower); }
      }
    }
  }

  /** The value picked in phase 2 is safe and was proposed by someone. */
  lemma Phase2Facts(h: History, g: Group, n: Node)
    requires HistoryOk(h, g) && NodeOk(h, g, n) && n.proposing && n.phase == 1
    requires |n.promises| >= MajoritySize(|n.roster|)
    ensures Phase2Value(n) in h.proposed
    ensures Majority(g.hosts, Promisers(h, g, n.myBallot))
    ensures forall lower | lower in h.value && lower < n.myBallot ::
              Phase2Value(n) == h.value[lower] || Blocked(h, g, lower)
  {
    hide Safe, LearnerOk, AcceptorOk, Blocked;
    var ps := n.promises;
    var infos := InfosOf(ps, Peers(n) + [n.id]);
    InfosAre(ps, Peers(n) + [n.id]);
    BestIsHighest(infos);
    PeersOfIs(g.roster, n.id);
    assert forall v | v in ps :: PromiseOk(h, g, v, n.myBallot, ps[v]);
    assert forall v | v in ps :: v in Peers(n) + [n.id] by {
      forall v | v in ps ensures v in Peers(n) + [n.id] {
        assert v in g.hosts && (v == n.id || v in Elements(PeersOf(g.roster, n.id)));
      }
    }
    assert Majority(g.hosts, ps.Keys);
    MajorityGrows(g.hosts, ps.Keys, Promisers(h, g, n.myBallot));
    forall lower | lower in h.value && lower < n.myBallot
      ensures Phase2Value(n) == h.value[lower] || Blocked(h, g, lower)
    {
      AdoptionIsSafe(h, g, n.myBallot, ps, Best(infos), Phase2Value(n), lower);
    }
    if Best(infos).Some? {
      var x :| x in ps && ps[x] == Best(infos).value;
      assert ValueOk(h, g, ps[x].ballot);
    }
  }

  lemma Phase2Node(h: History, h2: History, g: Group, n: Node)
    requires NodeOk(h, g, n) && h2 == ValueHistory(h, n.myBallot, Phase2Value(n)) && Extends(h, h2)
    ensures NodeOk(h2, g, n.(phase := 2))
  {
    hide LearnerOk, CollectingOk, Phase2Value;
    LearnerExtends(h, h2, g, n);
    LearnerSame(h2, g, n, n.(phase := 2));
  }

  lemma Phase2Move(c: Cluster, h: History, g: Group, n: Node) returns (h2: History)
    requires Running(c, h, g, n) && n.proposing && n.phase == 1 && |n.promises| >= MajoritySize(|n.roster|)
    ensures Extends(h, h2) && Running(Put(c, n.(phase := 2)), h2, g, n.(phase := 2))
    ensures n.myBallot in h2.value && h2.value[n.myBallot] == Phase2Value(n) && h2.proposed == h.proposed
  {
    hide NodeOk, HistoryOk, NetOk, NodesOk, Extends, Phase2Value;
    RunningNode(c, h, g, n);
    PromiseFacts(h, g, n);
    CollectingFacts(h, g, n);
    Phase2Facts(h, g, n);
    h2 := ValueHistory(h, n.myBallot, Phase2Value(n));
    ValueHistoryOk(h, g, n.myBallot, Phase2Value(n));
    Phase2Node(h, h2, g, n);
    MoveWith(c, h, h2, g, n.(phase := 2));
  }

  lemma CollectingFacts(h: History, g: Group, n: Node)
    requires NodeOk(h, g, n) && n.proposing && n.phase == 1
    ensures n.myBallot in h.started && n.myBallot !in h.value && g.roster != [] && Owned(h, g, n.myBallot, n.id)
  {
  }

  // ----- accepting -----

  ghost function AcceptHistory(h: History, v: Host, b: nat): History {
    h.(accepted := h.accepted + {(v, b)}, promised := h.promised[v := b])
  }

  lemma AcceptHistoryOk(h: History, g: Group, v: Host, b: nat)
    requires HistoryOk(h, g) && v in g.hosts && b in h.value && b >= h.promised[v]
    ensures var h2 := AcceptHistory(h, v, b); Extends(h, h2) && HistoryOk(h2, g)
  {
    hide Owned;
    var h2 := AcceptHistory(h, v, b);
    assert Extends(h, h2);
    forall x | x in h2.started ensures BallotOk(h2, g, x) {
      assert BallotOk(h, g, x);
      OwnedExtends(h, h2, g, x, OwnerOf(g.roster, x));
    }
    forall x | x in h2.value ensures ValueOk(h2, g, x) {
      assert ValueOk(h, g, x);
      ValueStays(h, h2, g, x);
    }
    forall x: nat, lower: nat ensures Safe(h2, g, x, lower) {
      assert Safe(h, g, x, lower);
      SafeStays(h, h2, g, x, lower);
    }
  }

  lemma AcceptNode(h: History, h2: History, g: Group, n: Node, b: nat)
    requires HistoryOk(h, g) && NodeOk(h, g, n) && b in h.value && CanAccept(b, n.acceptor.promised) && b <= n.maxSeen
    requires h2 == AcceptHistory(h, n.id, b) && Extends(h, h2)
    ensures NodeOk(h2, g, AcceptAt(n, b, h.value[b]))
  {
    hide LearnerOk, ProposerOk, HistoryOk;
    PromiseFacts(h, g, n);
    ValueStarted(h, g, b);
    var n2 := AcceptAt(n, b, h.value[b]);
    LearnerExtends(h, h2, g, n);
    LearnerSame(h2, g, n, n2);
    CollectingUnused(h, g, n);
    ProposerExtends(h, h2, g, n);
    ProposerSame(h2, g, n, n2);
  }

  lemma ValueStarted(h: History, g: Group, b: nat)
    requires HistoryOk(h, g) && b in h.value
    ensures b in h.started
  {
    hide Safe, BallotOk, Majority;
    assert ValueOk(h, g, b);
  }

  lemma PromisedKnown(h: History, g: Group, n: Node)
    requires NodeOk(h, g, n)
    ensures Known(h, n.acceptor.promised)
  {
  }

  lemma CollectingUnused(h: History, g: Group, n: Node)
    requires ProposerOk(h, g, n)
    ensures n.proposing && n.phase == 1 ==> n.myBallot !in h.value
  {
  }

  lemma AcceptMove(c: Cluster, h: History, g: Group, n: Node, b: nat) returns (h2: History)
    requires Running(c, h, g, n) && b in h.value && CanAccept(b, n.acceptor.promised) && b <= n.maxSeen
    ensures var n2 := AcceptAt(n, b, h.value[b]); Extends(h, h2) && Running(Put(c, n2), h2, g, n2)
    ensures (n.id, b) in h2.accepted && h2.value == h.value && h2.proposed == h.proposed
  {
    hide NodeOk, HistoryOk, NetOk, NodesOk, Extends;
    RunningNode(c, h, g, n);
    PromiseFacts(h, g, n);
    h2 := AcceptHistory(h, n.id, b);
    AcceptHistoryOk(h, g, n.id, b);
    AcceptNode(h, h2, g, n, b);
    MoveWith(c, h, h2, g, AcceptAt(n, b, h.value[b]));
  }

  // ----- learning -----

  lemma ObserveNode(h: History, g: Group, n: Node, b: nat)
    requires NodeOk(h, g, n)
    ensures NodeOk(h, g, Observe(n, b))
  {
    hide LearnerOk, ProposerOk;
    LearnerSame(h, g, n, Observe(n, b));
    ProposerSame(h, g, n, Observe(n, b));
  }

  /** One more acceptor in the tally of ballot b. */
  function Tally(n: Node, b: nat, v: Value, s: set<Host>): Node {
    n.(accepts := n.accepts[b := s], valueAt := if b in n.valueAt then n.valueAt else n.valueAt[b := v])
  }

  lemma TallyLearner(h: History, g: Group, n: Node, b: nat, v: Value, s: set<Host>)
    requires LearnerOk(h, g, n) && b in h.value && h.value[b] == v && s <= Acceptors(h, g, b)
    ensures LearnerOk(h, g, Tally(n, b, v, s))
  {
    hide DecidedOk;
  }

  lemma DecideLearner(h: History, g: Group, n: Node, d: Decided)
    requires LearnerOk(h, g, n) && DecidedOk(h, g, d)
    ensures LearnerOk(h, g, Decide(n, d))
  {
    hide DecidedOk, Acceptors;
  }

  lemma RecordLearner(h: History, g: Group, n: Node, b: nat, v: Value, from: Host)
    requires GroupOk(g) && n.roster == g.roster && LearnerOk(h, g, n) && from in g.hosts
    requires (from, b) in h.accepted && b in h.value && h.value[b] == v
    ensures LearnerOk(h, g, RecordAccepted(n, b, v, from))
  {
    hide LearnerOk;
    var n1 := Observe(n, b);
    LearnerSame(h, g, n, n1);
    AcceptsAtOk(h, g, n1, b);
    if n.decided.None? {
      var s := AcceptsAt(n1, b) + {from};
      if from in AcceptsAt(n1, b) {
        AcceptsNamed(h, g, n1, b);
        TallyLearner(h, g, n1, b, v, AcceptsAt(n1, b));
      } else {
        TallyLearner(h, g, n1, b, v, s);
        var n2 := Tally(n1, b, v, s);
        if |s| >= MajoritySize(|n2.roster|) {
          MajorityGrows(g.hosts, s, Acceptors(h, g, b));
          DecideLearner(h, g, n2, Decided(b, n2.valueAt[b]));
        }
      }
    }
  }

  lemma AcceptsAtOk(h: History, g: Group, n: Node, b: nat)
    requires LearnerOk(h, g, n)
    ensures AcceptsAt(n, b) <= Acceptors(h, g, b)
    ensures b in n.valueAt ==> b in h.value && n.valueAt[b] == h.value[b]
  {
  }

  lemma AcceptsNamed(h: History, g: Group, n: Node, b: nat)
    requires LearnerOk(h, g, n) && AcceptsAt(n, b) != {}
    ensures b in n.valueAt
  {
  }

  lemma RecordShape(n: Node, b: nat, v: Value, from: Host)
    ensures var r := RecordAccepted(n, b, v, from);
            && r == n.(maxSeen := r.maxSeen, accepts := r.accepts, valueAt := r.valueAt, decided := r.decided,
                       published := r.published, proposing := r.proposing)
            && r.maxSeen >= n.maxSeen && (r.proposing ==> n.proposing)
  {
  }

  lemma RecordNode(h: History, g: Group, n: Node, b: nat, v: Value, from: Host)
    requires HistoryOk(h, g) && NodeOk(h, g, n) && from in g.hosts
    requires (from, b) in h.accepted && b in h.value && h.value[b] == v
    ensures NodeOk(h, g, RecordAccepted(n, b, v, from))
  {
    hide LearnerOk, PromiseOk, Owned, RecordAccepted, Safe, BallotOk, ValueOk;
    RecordLearner(h, g, n, b, v, from);
    RecordShape(n, b, v, from);
    var r := RecordAccepted(n, b, v, from);
    if r.proposing { ProposerSame(h, g, n, r); }
  }
}
