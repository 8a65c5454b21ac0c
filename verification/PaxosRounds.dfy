/** The answers of a Paxos round, for every run of a group, said of packets,
    labels and acceptor states. */
module PaxosRounds {
  import opened Foundation
  import opened PaxosCore
  import opened PaxosCluster
  import opened PaxosInvariant
  import opened PaxosProof
  import opened PaxosSteps
  import opened PaxosSafety
  import opened PaxosLearning

  /** The same message to every member but its sender. */
  function ToOthers(roster: seq<Host>, v: Host, m: Message): set<Packet> {
    set p | p in roster && p != v :: Packet(v, p, m)
  }

  lemma ToPeersIs(n: Node, m: Message)
    requires NoDuplicates(n.roster)
    ensures ToPeers(n, m) == ToOthers(n.roster, n.id, m)
  {
    OthersAre(n.roster, n.id);
  }

  // ----- the acceptor -----

  /** n once it has seen ballot b and its acceptor is a, on disk too. */
  function Settled(n: Node, b: nat, a: Acceptor): Node {
    n.(maxSeen := Max(n.maxSeen, b), acceptor := a, disk := a)
  }

  /** A Prepare is promised if and only if it is above every ballot promised so
      far. The answer says so, and reports the last proposal accepted, or the
      promise that stands in its way. */
  lemma PrepareAnswer(roster: seq<Host>, cs: seq<Cluster>, ls: seq<Label>, k: nat, v: Host, c: Host, b: nat)
    requires IsRun(roster, cs, ls) && k < |ls| && ls[k] == Label(v, Receive(Packet(c, v, Prepare(b))))
    ensures v in cs[k].nodes && v in cs[k + 1].nodes
    ensures var n, a := cs[k].nodes[v], cs[k].nodes[v].acceptor;
            if b > a.promised then
              && cs[k + 1].nodes[v] == Settled(n, b, a.(promised := b))
              && cs[k + 1].net == cs[k].net +
                 {Packet(v, c, Promise(b, true, b, PromiseInfo(a.acceptedBallot, a.acceptedValue, a.hasAccepted)))}
            else
              && cs[k + 1].nodes[v] == Settled(n, b, a)
              && cs[k + 1].net == cs[k].net + {Packet(v, c, Promise(b, false, a.promised, PromiseInfo(0, [], false)))}
  {
    hide NodeOk, HistoryOk, PacketOk;
    var hist := RunStep(roster, cs, ls, k);
    HeldBelow(hist, GroupOf(roster), cs[k].nodes[v]);
  }

  /** What an acceptance changes: the acceptor, and what the learner makes of it. */
  predicate AcceptedAs(n: Node, b: nat, v: Value, n2: Node) {
    && n2 == Settled(n, b, Acceptor(b, b, v, true)).(accepts := n2.accepts, valueAt := n2.valueAt, decided := n2.decided,
                                                     published := n2.published, proposing := n2.proposing)
    && n2.proposing == (n.proposing && (n2.decided.None? || n.decided.Some?))
  }

  lemma RecordProposing(n: Node, b: nat, v: Value, from: Host)
    ensures var r := RecordAccepted(n, b, v, from);
            r.maxSeen == Max(n.maxSeen, b) && r.proposing == (n.proposing && (r.decided.None? || n.decided.Some?))
  {
  }

  lemma AnnounceIs(n: Node, b: nat, v: Value)
    requires NoDuplicates(n.roster)
    ensures var o := AcceptAndAnnounce(n, b, v);
            if n.acceptor.promised <= b then
              AcceptedAs(n, b, v, o.node) && o.sent == ToOthers(n.roster, n.id, Accepted(b, v))
            else o == Outcome(n.(maxSeen := Max(n.maxSeen, b)), {})
  {
    hide RecordAccepted, ToOthers, ToPeers, NoDuplicates;
    if n.acceptor.promised <= b {
      var n1 := AcceptAt(Observe(n, b), b, v);
      RecordShape(n1, b, v, n.id);
      RecordProposing(n1, b, v, n.id);
      ToPeersIs(AcceptAndAnnounce(n, b, v).node, Accepted(b, v));
    }
  }

  /** An Accept is accepted if and only if it is not below a promise. Every
      other member is told; a refusal tells the proposer of the promise. */
  lemma AcceptAnswer(roster: seq<Host>, cs: seq<Cluster>, ls: seq<Label>, k: nat, v: Host, c: Host, b: nat, w: Value)
    requires IsRun(roster, cs, ls) && k < |ls| && ls[k] == Label(v, Receive(Packet(c, v, Accept(b, w))))
    ensures v in cs[k].nodes && v in cs[k + 1].nodes
    ensures var n := cs[k].nodes[v];
            if n.acceptor.promised <= b then
              AcceptedAs(n, b, w, cs[k + 1].nodes[v]) && cs[k + 1].net == cs[k].net + ToOthers(roster, v, Accepted(b, w))
            else
              && cs[k + 1].nodes[v] == Settled(n, b, n.acceptor)
              && cs[k + 1].net == cs[k].net + {Packet(v, c, AcceptNack(n.acceptor.promised))}
  {
    hide NodeOk, HistoryOk, PacketOk, AcceptAndAnnounce, ToOthers, NoDuplicates;
    var hist := RunStep(roster, cs, ls, k);
    RosterSize(roster, cs, ls);
    HeldBelow(hist, GroupOf(roster), cs[k].nodes[v]);
    AnnounceIs(cs[k].nodes[v], b, w);
  }

  // ----- what is only noted -----

  /** The ballot a message brings up without asking for anything. */
  predicate Notes(m: Message, b: nat) {
    m == AcceptNack(b) || (m.Promise? && !m.ok && m.maxBallot == b)
  }

  /** A refusal only raises the highest ballot seen. */
  lemma RefusalAnswer(roster: seq<Host>, cs: seq<Cluster>, ls: seq<Label>, k: nat, v: Host, c: Host, m: Message, b: nat)
    requires IsRun(roster, cs, ls) && k < |ls| && ls[k] == Label(v, Receive(Packet(c, v, m))) && Notes(m, b)
    ensures v in cs[k].nodes && v in cs[k + 1].nodes
    ensures cs[k + 1].nodes[v] == cs[k].nodes[v].(maxSeen := Max(cs[k].nodes[v].maxSeen, b)) && cs[k + 1].net == cs[k].net
  {
    hide NodeOk, HistoryOk, PacketOk, MaybePhase2;
    var hist := RunStep(roster, cs, ls, k);
  }

  /** An acceptance someone announces raises the highest ballot seen and is
      counted; it sends nothing and leaves the acceptor and the round alone. */
  lemma AcceptedAnswer(roster: seq<Host>, cs: seq<Cluster>, ls: seq<Label>, k: nat, v: Host, c: Host, b: nat, w: Value)
    requires IsRun(roster, cs, ls) && k < |ls| && ls[k] == Label(v, Receive(Packet(c, v, Accepted(b, w))))
    ensures v in cs[k].nodes && v in cs[k + 1].nodes
    ensures var n, n2 := cs[k].nodes[v], cs[k + 1].nodes[v];
            && n2 == n.(maxSeen := Max(n.maxSeen, b), accepts := n2.accepts, valueAt := n2.valueAt, decided := n2.decided,
                        published := n2.published, proposing := n2.proposing)
            && n2.proposing == (n.proposing && (n2.decided.None? || n.decided.Some?))
            && cs[k + 1].net == cs[k].net
  {
    hide NodeOk, HistoryOk, PacketOk, RecordAccepted;
    var hist := RunStep(roster, cs, ls, k);
    RecordShape(cs[k].nodes[v], b, w, c);
    RecordProposing(cs[k].nodes[v], b, w, c);
  }

  /** A new session is told what was last accepted, and nothing else changes:
      the participant itself does not count it again. */
  lemma SessionAnswer(roster: seq<Host>, cs: seq<Cluster>, ls: seq<Label>, k: nat, v: Host, peer: Host)
    requires IsRun(roster, cs, ls) && k < |ls| && ls[k] == Label(v, SessionConnected(peer))
    ensures v in cs[k].nodes && v in cs[k + 1].nodes && cs[k + 1].nodes[v] == cs[k].nodes[v]
    ensures var a := cs[k].nodes[v].acceptor;
            cs[k + 1].net == cs[k].net +
            if a.hasAccepted then {Packet(v, peer, Accepted(a.acceptedBallot, a.acceptedValue))} else {}
  {
    hide NodeOk, HistoryOk, PacketOk, Peers;
    var hist := RunStep(roster, cs, ls, k);
  }

  // ----- opening a round -----

  /** b is in the next round of ballots after the one top is in, at v's place. */
  predicate NextFor(roster: seq<Host>, v: Host, top: nat, b: nat) {
    roster != [] && b > top && b / |roster| == top / |roster| + 1 && roster[b % |roster|] == v
  }

  lemma NextBallotFits(roster: seq<Host>, top: nat, index: nat)
    requires index < |roster|
    ensures NextFor(roster, roster[index], top, NextBallot(top, |roster|, index))
  {
    var b := NextBallot(top, |roster|, index);
    var q := top / |roster| + 1;
    assert b == q * |roster| + index;
    DivisionIs(b, |roster|, q, index);
    NextBallotIs(top, roster, index);
  }

  lemma DivisionIs(x: nat, n: nat, q: nat, r: nat)
    requires n > 0 && x == q * n + r && r < n
    ensures x % n == r && x / n == q
  {
    DivisionUnique(x, n, q, r);
    var q2 := x / n;
    assert x == q2 * n + x % n;
    assert q2 * n == q * n;
    if q2 > q { QuotientGap(q2, q, n); } else if q2 < q { QuotientGap(q, q2, n); }
  }

  /** The documentation calls this the smallest ballot of the node's sequence
      above maxSeen. It is, if and only if maxSeen is at or past the node's place
      in its own round. */
  lemma NextBallotSmallestIff(maxSeen: nat, n: nat, index: nat)
    requires index < n
    ensures (forall b: nat | b > maxSeen && b >= n && b % n == index :: NextBallot(maxSeen, n, index) <= b) <==>
            maxSeen < n || maxSeen % n >= index
  {
    var q, r := maxSeen / n, maxSeen % n;
    assert maxSeen == q * n + r;
    var next := NextBallot(maxSeen, n, index);
    assert next == q * n + n + index;
    DivisionIs(next, n, q + 1, index);
    if maxSeen >= n && r < index {
      var b := q * n + index;
      DivisionIs(b, n, q, index);
      assert b > maxSeen && b >= n && b % n == index && b < next;
    } else {
      forall b: nat | b > maxSeen && b >= n && b % n == index ensures next <= b {
        SameResidueAbove(maxSeen, n, index, b);
      }
    }
  }

  /** Where it is not: node 2 of three, having seen ballot 3, skips ballot 5. */
  lemma NextBallotSkips()
    ensures NextBallot(3, 3, 2) == 8 && 3 < 5 < 8 && 5 % 3 == 2
  {
  }

  lemma SameResidueAbove(maxSeen: nat, n: nat, index: nat, b: nat)
    requires index < n && b > maxSeen && b >= n && b % n == index && (maxSeen < n || maxSeen % n >= index)
    ensures NextBallot(maxSeen, n, index) <= b
  {
    var q, p, r := maxSeen / n, b / n, maxSeen % n;
    assert b == p * n + index && maxSeen == q * n + r;
    if maxSeen < n { DivisionIs(maxSeen, n, 0, maxSeen); }
    if p < q { QuotientGap(q, p, n); }
    assert p > q;
    if p > q + 1 { QuotientGap(p, q + 1, n); }
  }

  /** This event opens a round at n: a value is nominated while it is idle, or
      its round has stalled. */
  predicate OpensRound(n: Node, ev: Event) {
    n.decided.None? && ((ev.Propose? && !n.proposing) || (ev.RetryTimeout? && n.proposing))
  }

  function Nominated(n: Node, ev: Event): Value {
    if ev.Propose? then ev.value else n.myValue
  }

  /** n in the round of ballot b for value v, with its own promise alone. */
  function Soliciting(n: Node, b: nat, v: Value): Node {
    var a := n.acceptor.(promised := b);
    n.(proposing := true, phase := 1, myBallot := b, myValue := v, maxSeen := b, acceptor := a, disk := a,
       promises := map[n.id := PromiseInfo(a.acceptedBallot, a.acceptedValue, a.hasAccepted)])
  }

  lemma OpenedIs(h: History, g: Group, n: Node, v: Value) returns (b: nat)
    requires HistoryOk(h, g) && NodeOk(h, g, n) && n.roster != [] && n.decided.None?
    ensures NextFor(n.roster, n.id, n.maxSeen, b)
    ensures var r, m := Soliciting(n, b, v), n.(myValue := v);
            StartRound(m) == Outcome(MaybePhase2(r).node, ToPeers(r, Prepare(b)) + MaybePhase2(r).sent)
  {
    hide HistoryOk, OpenRound, NextBallot, MaybePhase2, ToPeers, AcceptorOk, ProposerOk, LearnerOk;
    NodeRoster(h, g, n);
    b := NextBallot(n.maxSeen, |n.roster|, n.index);
    NextBallotFits(n.roster, n.maxSeen, n.index);
    OpenIs(h, g, n);
    OpenRenames(n, v);
  }

  /** w is the value of the highest ballot reported, or the proposer's own if
      nothing is reported. */
  ghost predicate Adopted(ps: map<Host, PromiseInfo>, own: Value, w: Value) {
    || (w == own && forall t | t in ps :: !ps[t].has)
    || exists s :: s in ps && Tops(ps, s) && ps[s].value == w
  }

  ghost predicate Tops(ps: map<Host, PromiseInfo>, s: Host)
    requires s in ps
  {
    ps[s].has && forall t | t in ps && ps[t].has :: ps[t].ballot <= ps[s].ballot
  }

  lemma ValueIsAdopted(roster: seq<Host>, n: Node)
    requires NoDuplicates(roster) && n.roster == roster && forall s | s in n.promises :: s in roster
    ensures Adopted(n.promises, n.myValue, Phase2Value(n))
  {
    var hosts := Peers(n) + [n.id];
    var infos := InfosOf(n.promises, hosts);
    InfosAre(n.promises, hosts);
    BestIsHighest(infos);
    PeersOfIs(roster, n.id);
    forall s | s in n.promises ensures s in hosts && n.promises[s] in infos {
      assert s == n.id || s in Elements(Peers(n));
    }
    if Best(infos).Some? {
      var s :| s in hosts && s in n.promises && n.promises[s] == Best(infos).value;
      assert Tops(n.promises, s);
    }
  }

  /** From r the participant goes on to phase 2 with value w: it accepts w
      itself unless it has promised higher, and asks every other member to. */
  ghost predicate GoesOn(roster: seq<Host>, r: Node, w: Value, n2: Node, sent: set<Packet>) {
    && Adopted(r.promises, r.myValue, w)
    && if r.acceptor.promised <= r.myBallot then
         && AcceptedAs(r.(phase := 2), r.myBallot, w, n2)
         && sent == ToOthers(roster, r.id, Accepted(r.myBallot, w)) + ToOthers(roster, r.id, Accept(r.myBallot, w))
       else
         && n2 == r.(phase := 2, maxSeen := Max(r.maxSeen, r.myBallot))
         && sent == ToOthers(roster, r.id, Accept(r.myBallot, w))
  }

  lemma Phase2Is(roster: seq<Host>, r: Node) returns (w: Value)
    requires NoDuplicates(roster) && r.roster == roster && r.phase == 1 && forall s | s in r.promises :: s in roster
    ensures GoesOn(roster, r, w, BeginPhase2(r).node, BeginPhase2(r).sent)
  {
    hide AcceptAndAnnounce, Phase2Value, ToPeers, ToOthers, Adopted, NoDuplicates;
    w := Phase2Value(r);
    ValueIsAdopted(roster, r);
    AnnounceIs(r.(phase := 2), r.myBallot, w);
    ToPeersIs(BeginPhase2(r).node, Accept(r.myBallot, w));
  }

  lemma PromisersListed(h: History, g: Group, n: Node)
    requires HistoryOk(h, g) && NodeOk(h, g, n) && n.proposing && n.phase == 1
    ensures forall s | s in n.promises :: s in n.roster
  {
    hide Safe, BallotOk, ValueOk, LearnerOk, AcceptorOk, Owned;
    forall s | s in n.promises ensures s in n.roster {
      assert PromiseOk(h, g, s, n.myBallot, n.promises[s]);
    }
  }

  lemma PromiseCase(roster: seq<Host>, h: History, n: Node, m: Message, c: Host) returns (w: Value, sent: set<Packet>)
    requires HistoryOk(h, GroupOf(roster)) && NodeOk(h, GroupOf(roster), n) && n.roster == roster && NoDuplicates(roster)
    requires m.Promise? && m.ok && c in roster
    ensures var o := OnPromise(n, m, c);
            if n.decided.Some? || !n.proposing || n.phase != 1 || m.ballot != n.myBallot then o == Outcome(n, {})
            else
              var r := n.(promises := n.promises[c := m.info]);
              if |r.promises| < MajoritySize(|roster|) then o == Outcome(r, {})
              else GoesOn(roster, r, w, o.node, sent) && o.sent == sent
  {
    hide NodeOk, HistoryOk, BeginPhase2, GoesOn, NoDuplicates;
    w, sent := [], {};
    if n.decided.None? && n.proposing && n.phase == 1 && m.ballot == n.myBallot {
      var r := n.(promises := n.promises[c := m.info]);
      PromisersListed(h, GroupOf(roster), n);
      if |r.promises| >= MajoritySize(|roster|) {
        w := Phase2Is(roster, r);
        sent := BeginPhase2(r).sent;
      }
    }
  }

  lemma SrcListed(h: History, roster: seq<Host>, p: Packet)
    requires PacketOk(h, GroupOf(roster), p)
    ensures p.src in roster
  {
  }

  /** A promise for the ballot being collected is kept. As soon as the promises
      kept are a majority the round goes on to phase 2; until then nothing is
      sent. Any other promise is ignored. */
  lemma PromiseAnswer(roster: seq<Host>, cs: seq<Cluster>, ls: seq<Label>, k: nat, v: Host, c: Host, m: Message)
      returns (w: Value, sent: set<Packet>)
    requires IsRun(roster, cs, ls) && k < |ls| && ls[k] == Label(v, Receive(Packet(c, v, m))) && m.Promise? && m.ok
    ensures v in cs[k].nodes && v in cs[k + 1].nodes
    ensures var n, n2 := cs[k].nodes[v], cs[k + 1].nodes[v];
            if n.decided.Some? || !n.proposing || n.phase != 1 || m.ballot != n.myBallot then
              n2 == n && cs[k + 1].net == cs[k].net
            else
              var r := n.(promises := n.promises[c := m.info]);
              if |r.promises| < MajoritySize(|roster|) then n2 == r && cs[k + 1].net == cs[k].net
              else GoesOn(roster, r, w, n2, sent) && cs[k + 1].net == cs[k].net + sent
  {
    hide IsRun, NodeOk, HistoryOk, OnPromise, GoesOn, NoDuplicates, PacketOk;
    RosterSize(roster, cs, ls);
    var hist := RunStep(roster, cs, ls, k);
    SrcListed(hist, roster, Packet(c, v, m));
    w, sent := PromiseCase(roster, hist, cs[k].nodes[v], m, c);
  }

  /** The state and the packets a round opens with. */
  ghost predicate Opened(roster: seq<Host>, n: Node, b: nat, v: Value, n2: Node, sent: set<Packet>) {
    && NextFor(roster, n.id, n.maxSeen, b)
    && var r := Soliciting(n, b, v);
       if |roster| > 1 then n2 == r && sent == ToOthers(roster, n.id, Prepare(b))
       else AcceptedAs(r.(phase := 2), b, if n.acceptor.hasAccepted then n.acceptor.acceptedValue else v, n2)
  }

  lemma StartCase(roster: seq<Host>, h: History, n: Node, v: Value) returns (b: nat)
    requires HistoryOk(h, GroupOf(roster)) && NodeOk(h, GroupOf(roster), n) && n.roster == roster != [] && NoDuplicates(roster)
    requires n.decided.None? && n.id in roster
    ensures var o := StartRound(n.(myValue := v)); Opened(roster, n, b, v, o.node, o.sent)
  {
    hide NodeOk, HistoryOk, StartRound, BeginPhase2, ToOthers, ToPeers, NextFor, NoDuplicates, AcceptedAs, GoesOn;
    b := OpenedIs(h, GroupOf(roster), n, v);
    var r := Soliciting(n, b, v);
    ToPeersIs(r, Prepare(b));
    assert |r.promises| == 1;
    if |roster| == 1 {
      var w := Phase2Is(roster, r);
      AloneAdopts(roster, r, w, BeginPhase2(r).node, BeginPhase2(r).sent);
    }
  }

  /** A round opens in the next round of ballots, asks every other member, and
      starts with its own promise. In a group of one that is a majority, and the
      value it has accepted before, or the one nominated, is accepted at once.
      Any other proposal or timeout changes nothing. */
  lemma RoundAnswer(roster: seq<Host>, cs: seq<Cluster>, ls: seq<Label>, k: nat, v: Host) returns (b: nat, sent: set<Packet>)
    requires IsRun(roster, cs, ls) && k < |ls| && ls[k].host == v && (ls[k].event.Propose? || ls[k].event.RetryTimeout?)
    ensures v in cs[k].nodes && v in cs[k + 1].nodes && cs[k].nodes[v].id == v
    ensures var n, n2, ev := cs[k].nodes[v], cs[k + 1].nodes[v], ls[k].event;
            if OpensRound(n, ev) then Opened(roster, n, b, Nominated(n, ev), n2, sent) && cs[k + 1].net == cs[k].net + sent
            else n2 == n && cs[k + 1].net == cs[k].net
  {
    hide IsRun, NodeOk, HistoryOk, PacketOk, StartRound, Opened, NoDuplicates;
    RosterSize(roster, cs, ls);
    var hist := RunStep(roster, cs, ls, k);
    var n, ev := cs[k].nodes[v], ls[k].event;
    b, sent := 0, {};
    if OpensRound(n, ev) {
      InRoster(roster, cs, ls, k, v);
      b := StartCase(roster, hist, n, Nominated(n, ev));
      assert n.(myValue := n.myValue) == n;
      sent := StartRound(n.(myValue := Nominated(n, ev))).sent;
    }
  }

  lemma InRoster(roster: seq<Host>, cs: seq<Cluster>, ls: seq<Label>, k: nat, v: Host)
    requires IsRun(roster, cs, ls) && k < |cs| && v in cs[k].nodes
    ensures v in roster
  {
    hide IsRun;
    MembersAt(roster, cs, ls, k);
    assert v in Elements(roster);
  }

  lemma AloneAdopts(roster: seq<Host>, r: Node, w: Value, n2: Node, sent: set<Packet>)
    requires GoesOn(roster, r, w, n2, sent) && r.acceptor.promised == r.myBallot
    requires r.promises == map[r.id := PromiseInfo(r.acceptor.acceptedBallot, r.acceptor.acceptedValue, r.acceptor.hasAccepted)]
    ensures w == if r.acceptor.hasAccepted then r.acceptor.acceptedValue else r.myValue
    ensures AcceptedAs(r.(phase := 2), r.myBallot, w, n2)
  {
    hide AcceptedAs, ToOthers;
    assert r.id in r.promises;
  }

  // ----- restarts -----

  /** A crash loses everything but the acceptor, and the highest ballot seen is
      its promise again. */
  lemma RestartAnswer(roster: seq<Host>, cs: seq<Cluster>, ls: seq<Label>, k: nat, v: Host)
    requires IsRun(roster, cs, ls) && k < |ls| && ls[k] == Label(v, Restart)
    ensures v in cs[k].nodes && v in cs[k + 1].nodes && cs[k + 1].net == cs[k].net
    ensures var n, a := cs[k].nodes[v], cs[k].nodes[v].acceptor;
            cs[k + 1].nodes[v] ==
            Node(v, roster, n.index, a, a.promised, false, 0, 0, [], map[], map[], map[], None, [], a)
  {
    hide NodeOk, HistoryOk, Inv;
    assert Enabled(cs[k], ls[k]) && cs[k + 1] == Step(cs[k], ls[k]);
    var hist := NodeAt(roster, cs, ls, k, v);
    HeldBelow(hist, GroupOf(roster), cs[k].nodes[v]);
  }
}
