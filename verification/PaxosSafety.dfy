/** The safety theorems of single-decree Paxos, for every run of PaxosCluster:
    any interleaving of proposals, retries, reconnects, crashes, and deliveries
    that lose, duplicate or reorder messages. */
module PaxosSafety {
  import opened Foundation
  import opened PaxosCore
  import opened PaxosCluster
  import opened PaxosInvariant
  import opened PaxosProof
  import opened PaxosSteps

  // ----- the invariant holds along every run -----

  ghost function GroupOf(roster: seq<Host>): Group {
    Group(roster, Elements(roster))
  }

  ghost predicate Explains(g: Group, cs: seq<Cluster>, hs: seq<History>) {
    && |hs| == |cs|
    && (forall k | 0 <= k < |cs| :: Inv(cs[k], hs[k], g))
    && (forall j, k | 0 <= j <= k < |hs| :: Extends(hs[j], hs[k]))
  }

  lemma {:induction false} RunExplained(roster: seq<Host>, cs: seq<Cluster>, ls: seq<Label>) returns (hs: seq<History>)
    requires IsRun(roster, cs, ls)
    ensures Explains(GroupOf(roster), cs, hs)
    decreases |ls|
  {
    hide Inv, Step, Enabled, Extends, Init;
    var g := GroupOf(roster);
    if ls == [] {
      InitInv(roster);
      ExtendsSelf(FirstHistory(g));
      hs := [FirstHistory(g)];
    } else {
      var n := |ls|;
      RunPrefix(roster, cs, ls);
      hs := RunExplained(roster, cs[..n], ls[..n - 1]);
      var h := StepPreserves(cs[n - 1], hs[n - 1], g, ls[n - 1]);
      forall j | 0 <= j < n ensures Extends(hs[j], h) {
        ExtendsTrans(hs[j], hs[n - 1], h);
      }
      ExtendsSelf(h);
      hs := hs + [h];
    }
  }

  lemma RunPrefix(roster: seq<Host>, cs: seq<Cluster>, ls: seq<Label>)
    requires IsRun(roster, cs, ls) && ls != []
    ensures var n := |ls|; IsRun(roster, cs[..n], ls[..n - 1])
                           && Enabled(cs[n - 1], ls[n - 1]) && cs[n] == Step(cs[n - 1], ls[n - 1])
  {
    hide Step, Enabled, Init;
  }

  lemma InvNode(c: Cluster, h: History, g: Group, v: Host)
    requires Inv(c, h, g) && v in c.nodes
    ensures NodeOk(h, g, c.nodes[v]) && c.nodes[v].id == v && v in g.hosts && HistoryOk(h, g)
  {
    hide NodeOk, NetOk, HistoryOk;
  }

  lemma InvHistory(c: Cluster, h: History, g: Group)
    requires Inv(c, h, g)
    ensures HistoryOk(h, g)
  {
    hide NodesOk, NetOk, HistoryOk;
  }

  lemma InvDecision(c: Cluster, h: History, g: Group, d: (Host, Decided))
    requires Inv(c, h, g) && d in c.decisions
    ensures DecidedOk(h, g, d.1)
  {
    hide NodesOk, PacketOk, HistoryOk, DecidedOk;
  }

  // ----- Agreement and Validity -----

  /** A chosen value is the value of every higher ballot. */
  lemma ChosenIsKept(h: History, g: Group, b: nat, higher: nat)
    requires HistoryOk(h, g) && Chosen(h, g, b) && higher in h.value && b <= higher
    ensures h.value[higher] == h.value[b]
  {
    hide GroupOk, BallotOk, ValueOk, Blocked, Majority;
    ChosenNotBlocked(h, g, b);
    assert Safe(h, g, higher, b);
  }

  /** Agreement: any two decisions ever published, by any two participants in
      any incarnations and at any two moments, carry the same value. */
  lemma Agreement(roster: seq<Host>, cs: seq<Cluster>, ls: seq<Label>, i: nat, j: nat,
                  x: (Host, Decided), y: (Host, Decided))
    requires IsRun(roster, cs, ls) && i <= j < |cs| && x in cs[i].decisions && y in cs[j].decisions
    ensures x.1.value == y.1.value
  {
    hide IsRun, Inv, Extends, HistoryOk, Chosen;
    var g := GroupOf(roster);
    var hs := RunExplained(roster, cs, ls);
    InvDecision(cs[i], hs[i], g, x);
    InvDecision(cs[j], hs[j], g, y);
    assert Extends(hs[i], hs[j]);
    DecidedExtends(hs[i], hs[j], g, x.1);
    InvHistory(cs[j], hs[j], g);
    DecidedHasValue(hs[j], g, x.1);
    DecidedHasValue(hs[j], g, y.1);
    if x.1.ballot <= y.1.ballot {
      ChosenIsKept(hs[j], g, x.1.ballot, y.1.ballot);
    } else {
      ChosenIsKept(hs[j], g, y.1.ballot, x.1.ballot);
    }
  }

  lemma DecidedHasValue(h: History, g: Group, d: Decided)
    requires DecidedOk(h, g, d)
    ensures d.ballot in h.value
  {
  }

  /** Validity: a decided value was handed to some participant's Propose
      before the decision. */
  lemma Validity(roster: seq<Host>, cs: seq<Cluster>, ls: seq<Label>, k: nat, x: (Host, Decided))
    requires IsRun(roster, cs, ls) && k < |cs| && x in cs[k].decisions
    ensures exists m :: 0 <= m < k && Asks(ls[m].event, x.1.value)
  {
    hide IsRun, NodesOk, NetOk, Extends, HistoryOk;
    var g := GroupOf(roster);
    var hs := RunExplained(roster, cs, ls);
    assert Inv(cs[k], hs[k], g);
    InvDecision(cs[k], hs[k], g, x);
    InvHistory(cs[k], hs[k], g);
    ChosenWasProposed(hs[k], g, x.1);
    ProposedEarlier(roster, cs, ls, k, x.1.value);
  }

  lemma ChosenWasProposed(h: History, g: Group, d: Decided)
    requires HistoryOk(h, g) && DecidedOk(h, g, d)
    ensures d.value in h.proposed
  {
    hide Safe, BallotOk, Majority;
    assert ValueOk(h, g, d.ballot);
  }

  lemma {:induction false} ProposedEarlier(roster: seq<Host>, cs: seq<Cluster>, ls: seq<Label>, k: nat, v: Value)
    requires IsRun(roster, cs, ls) && k < |cs| && v in cs[k].proposed
    ensures exists m :: 0 <= m < k && Asks(ls[m].event, v)
  {
    hide Handle;
    assert k > 0;
    assert cs[k - 1 + 1] == Step(cs[k - 1], ls[k - 1]);
    if v in cs[k - 1].proposed {
      ProposedEarlier(roster, cs, ls, k - 1, v);
    } else {
      assert Asks(ls[k - 1].event, v);
    }
  }

  // ----- once chosen, forever chosen -----

  /** Acceptor a held (b, v) as its accepted proposal at some moment of the run. */
  ghost predicate AcceptedBy(cs: seq<Cluster>, a: Host, b: nat, v: Value) {
    exists m :: 0 <= m < |cs| && a in cs[m].nodes && Holds(cs[m].nodes[a].acceptor, b, v)
  }

  predicate Holds(a: Acceptor, b: nat, v: Value) {
    a.hasAccepted && a.acceptedBallot == b && a.acceptedValue == v
  }

  lemma HeldIsRecorded(c: Cluster, h: History, h2: History, g: Group, a: Host, b: nat, v: Value)
    requires Inv(c, h, g) && Extends(h, h2) && a in c.nodes && Holds(c.nodes[a].acceptor, b, v)
    ensures a in g.hosts && (a, b) in h2.accepted && b in h2.value && h2.value[b] == v
  {
    hide Inv, ProposerOk, LearnerOk, HistoryOk;
    InvNode(c, h, g, a);
    assert AcceptorOk(h, c.nodes[a]);
  }

  /** Once a majority has accepted (b, v), every Accept ever sent at a ballot
      of b or above carries v. */
  lemma ChosenForever(roster: seq<Host>, cs: seq<Cluster>, ls: seq<Label>, q: set<Host>, b: nat, v: Value,
                      k: nat, p: Packet)
    requires IsRun(roster, cs, ls) && Majority(Elements(roster), q) && forall a | a in q :: AcceptedBy(cs, a, b, v)
    requires k < |cs| && p in cs[k].net && p.msg.Accept? && p.msg.ballot >= b
    ensures p.msg.value == v
  {
    hide IsRun, Inv, Extends, HistoryOk, Holds, NetOk;
    var g := GroupOf(roster);
    var hs := RunExplained(roster, cs, ls);
    var last := |cs| - 1;
    var h := hs[last];
    forall a | a in q ensures a in Acceptors(h, g, b) && b in h.value && h.value[b] == v {
      var m :| 0 <= m < |cs| && a in cs[m].nodes && Holds(cs[m].nodes[a].acceptor, b, v);
      assert Extends(hs[m], h);
      HeldIsRecorded(cs[m], hs[m], h, g, a, b, v);
    }
    MajorityGrows(g.hosts, q, Acceptors(h, g, b));
    assert exists a :: a in q by { MajorityHasMember(g.hosts, q); }
    NetPacket(cs[k], hs[k], g, p);
    assert Extends(hs[k], h);
    PacketExtends(hs[k], h, g, p);
    InvHistory(cs[last], h, g);
    ChosenIsKept(h, g, b, p.msg.ballot);
  }

  lemma MajorityHasMember(group: set<Host>, q: set<Host>)
    requires Majority(group, q)
    ensures exists a :: a in q
  {
    assert q != {};
  }

  // ----- ballots -----

  /** The ballot and value a packet assigns in phase 2. */
  predicate Assigns(m: Message, b: nat, v: Value) {
    m == Accept(b, v) || m == Accepted(b, v)
  }

  /** A ballot has one value: whatever is ever asked to be accepted, or
      announced as accepted, under it. */
  lemma OneValuePerBallot(roster: seq<Host>, cs: seq<Cluster>, ls: seq<Label>, i: nat, j: nat, p: Packet, q: Packet,
                          b: nat, v: Value, w: Value)
    requires IsRun(roster, cs, ls) && i <= j < |cs| && p in cs[i].net && q in cs[j].net
    requires Assigns(p.msg, b, v) && Assigns(q.msg, b, w)
    ensures v == w
  {
    hide IsRun, Inv, Extends;
    var g := GroupOf(roster);
    var hs := RunExplained(roster, cs, ls);
    assert Extends(hs[i], hs[j]);
    NetPacket(cs[i], hs[i], g, p);
    PacketExtends(hs[i], hs[j], g, p);
    NetPacket(cs[j], hs[j], g, q);
  }

  /** A ballot belongs to the participant of its residue class. */
  lemma BallotOwner(roster: seq<Host>, cs: seq<Cluster>, ls: seq<Label>, k: nat, p: Packet)
    requires IsRun(roster, cs, ls) && k < |cs| && p in cs[k].net && p.msg.Prepare?
    ensures roster != [] && p.src == roster[p.msg.ballot % |roster|]
  {
    hide IsRun, Inv, Extends;
    var g := GroupOf(roster);
    var hs := RunExplained(roster, cs, ls);
    NetPacket(cs[k], hs[k], g, p);
    OwnerIsResidue(roster, p.msg.ballot);
  }

  lemma {:induction false} OwnerIsResidue(roster: seq<Host>, b: nat)
    requires roster != []
    ensures OwnerOf(roster, b) == roster[b % |roster|]
  {
    if b >= |roster| {
      OwnerIsResidue(roster, b - |roster|);
      AddModulus(b - |roster|, |roster|);
    }
  }

  lemma AddModulus(x: nat, n: nat)
    requires n > 0
    ensures (x + n) % n == x % n
  {
    var q, r := x / n, x % n;
    assert x + n == (q + 1) * n + r;
    DivisionUnique(x + n, n, q + 1, r);
  }

  lemma DivisionUnique(x: nat, n: nat, q: nat, r: nat)
    requires n > 0 && x == q * n + r && r < n
    ensures x % n == r
  {
    var q2, r2 := x / n, x % n;
    assert x == q2 * n + r2;
    if q2 > q {
      QuotientGap(q2, q, n);
    } else if q2 < q {
      QuotientGap(q, q2, n);
    }
  }

  lemma QuotientGap(a: nat, b: nat, n: nat)
    requires a > b
    ensures a * n >= b * n + n
  {
    var d := a - b - 1;
    assert a == b + 1 + d;
    assert a * n == b * n + n + d * n;
  }

  /** Every ballot a message mentions. */
  function Ballots(m: Message): set<nat> {
    match m
    case Prepare(b) => {b}
    case Promise(b, _, top, i) => {b, top} + (if i.has then {i.ballot} else {})
    case Accept(b, _) => {b}
    case Accepted(b, _) => {b}
    case AcceptNack(top) => {top}
  }

  lemma PacketBallotsKnown(h: History, g: Group, p: Packet, b: nat)
    requires HistoryOk(h, g) && PacketOk(h, g, p) && b in Ballots(p.msg)
    ensures Known(h, b)
  {
    hide HistoryOk;
    if b in h.value { ValueStarted(h, g, b); }
  }

  /** No ballot is used twice: at every reachable state, the ballot any
      participant would pick next appears in no packet ever sent, by anyone,
      in this incarnation or an earlier one. */
  lemma NextBallotUnused(roster: seq<Host>, cs: seq<Cluster>, ls: seq<Label>, k: nat, v: Host, p: Packet)
    requires IsRun(roster, cs, ls) && k < |cs| && v in cs[k].nodes && p in cs[k].net
    ensures roster != []
    ensures var n := cs[k].nodes[v]; n.roster == roster && NextBallot(n.maxSeen, |roster|, n.index) !in Ballots(p.msg)
  {
    hide Inv, HistoryOk, NodeOk, PacketOk, NextBallot, Ballots;
    var g := GroupOf(roster);
    var hs := RunExplained(roster, cs, ls);
    var n := cs[k].nodes[v];
    InvNode(cs[k], hs[k], g, v);
    NodeRoster(hs[k], g, n);
    NetPacket(cs[k], hs[k], g, p);
    BallotIsFresh(hs[k], g, n);
    NextBallotIs(n.maxSeen, roster, n.index);
    var b := NextBallot(n.maxSeen, |roster|, n.index);
    if b in Ballots(p.msg) {
      PacketBallotsKnown(hs[k], g, p, b);
    }
  }

  lemma Phase2SendsNoPrepare(n: Node, p: Packet)
    requires p in MaybePhase2(n).sent
    ensures !p.msg.Prepare?
  {
    hide Phase2Value, RecordAccepted;
  }

  lemma StartSends(n: Node, p: Packet)
    requires n.roster != [] && p in StartRound(n).sent && p.msg.Prepare?
    ensures p.msg.ballot == NextBallot(n.maxSeen, |n.roster|, n.index)
  {
    hide MaybePhase2, NextBallot;
    if p in MaybePhase2(OpenRound(n)).sent { Phase2SendsNoPrepare(OpenRound(n), p); }
  }

  lemma CutSends(n: Node, p: Packet)
    requires n.roster != [] && p in CutRound(n).sent
    ensures p.msg == Prepare(NextBallot(n.maxSeen, |n.roster|, n.index))
  {
    hide NextBallot;
  }

  lemma PrepareComesFromStart(n: Node, ev: Event, p: Packet)
    requires n.roster != [] && p in Handle(n, ev).sent && p.msg.Prepare?
    ensures p.msg.ballot == NextBallot(n.maxSeen, |n.roster|, n.index)
  {
    hide MaybePhase2, NextBallot, StartRound, RecordAccepted, OnPrepare, CutRound;
    match ev
    case Propose(v) => StartSends(n.(myValue := v), p);
    case RetryTimeout => StartSends(n, p);
    case InterruptedPropose(v) => CutSends(n.(myValue := v), p);
    case InterruptedRetry => CutSends(n, p);
    case Receive(q) =>
      if q.msg.Promise? { Phase2SendsNoPrepare(n.(promises := n.promises[q.src := q.msg.info]), p); }
      else if q.msg.Prepare? { PrepareReply(n, q.msg.ballot, q.src, p); }
    case _ =>
  }

  lemma PrepareReply(n: Node, b: nat, from: Host, p: Packet)
    requires p in OnPrepare(n, b, from).sent
    ensures p.msg.Promise?
  {
  }

  /** A Prepare that a step puts on the wire carries a ballot that no packet
      carried before. */
  lemma FreshPrepare(roster: seq<Host>, cs: seq<Cluster>, ls: seq<Label>, k: nat, p: Packet, q: Packet)
    requires IsRun(roster, cs, ls) && k < |ls| && p in cs[k + 1].net && p !in cs[k].net && p.msg.Prepare?
    requires q in cs[k].net
    ensures p.msg.ballot !in Ballots(q.msg)
  {
    hide Handle, NextBallot;
    assert cs[k + 1] == Step(cs[k], ls[k]);
    var n := cs[k].nodes[ls[k].host];
    PrepareComesFromStart(n, ls[k].event, p);
    NextBallotUnused(roster, cs, ls, k, ls[k].host, q);
  }

  // ----- durability and notifications -----

  /** Storage holds exactly the live acceptor state after every handler, so a
      restart resumes from it. */
  lemma StorageMirrorsAcceptor(roster: seq<Host>, cs: seq<Cluster>, ls: seq<Label>, k: nat, v: Host)
    requires IsRun(roster, cs, ls) && k < |cs| && v in cs[k].nodes && cs[k].nodes[v].roster != []
    ensures var n := cs[k].nodes[v]; n.disk == n.acceptor && Handle(n, Restart).node.acceptor == n.acceptor
    ensures cs[k].nodes[v].acceptor.promised <= cs[k].nodes[v].maxSeen
  {
    hide IsRun, Inv, ProposerOk, LearnerOk, HistoryOk;
    var hs := RunExplained(roster, cs, ls);
    InvNode(cs[k], hs[k], GroupOf(roster), v);
  }

  /** An acceptor's promise is never taken back, whatever crashes come between,
      and it never holds an accepted ballot above its promise. */
  lemma PromisesBind(roster: seq<Host>, cs: seq<Cluster>, ls: seq<Label>, i: nat, j: nat, v: Host)
    requires IsRun(roster, cs, ls) && i <= j < |cs| && v in cs[i].nodes && v in cs[j].nodes
    ensures var a, b := cs[i].nodes[v].acceptor, cs[j].nodes[v].acceptor;
            && a.promised <= b.promised
            && (b.hasAccepted ==> b.acceptedBallot <= b.promised)
            && (a.hasAccepted ==> b.hasAccepted && a.acceptedBallot <= b.acceptedBallot)
            && (b.hasAccepted && !Holds(a, b.acceptedBallot, b.acceptedValue) ==> b.acceptedBallot >= a.promised)
  {
    hide IsRun, Inv, ProposerOk, LearnerOk, BallotOk, ValueOk, Safe;
    var g := GroupOf(roster);
    var hs := RunExplained(roster, cs, ls);
    InvNode(cs[i], hs[i], g, v);
    InvNode(cs[j], hs[j], g, v);
    assert Extends(hs[i], hs[j]);
    var a, b := cs[i].nodes[v].acceptor, cs[j].nodes[v].acceptor;
    assert AcceptorOk(hs[i], cs[i].nodes[v]) && AcceptorOk(hs[j], cs[j].nodes[v]);
    if b.hasAccepted && a.hasAccepted && b.acceptedBallot == a.acceptedBallot {
      assert Holds(a, b.acceptedBallot, b.acceptedValue);
    }
  }

  /** An incarnation publishes Decided at most once, and it is the decision it
      keeps reporting. */
  lemma DecidedOnce(roster: seq<Host>, cs: seq<Cluster>, ls: seq<Label>, k: nat, v: Host)
    requires IsRun(roster, cs, ls) && k < |cs| && v in cs[k].nodes
    ensures var n := cs[k].nodes[v]; n.published == if n.decided.Some? then [n.decided.value] else []
  {
    hide IsRun, Inv, ProposerOk, AcceptorOk, HistoryOk;
    var hs := RunExplained(roster, cs, ls);
    InvNode(cs[k], hs[k], GroupOf(roster), v);
    assert LearnerOk(hs[k], GroupOf(roster), cs[k].nodes[v]);
  }
}
