/** Exactly when a participant has decided, over every run of a group: said of
    the acceptances announced to it since it last started. */
module PaxosLearning {
  import opened Foundation
  import opened PaxosCore
  import opened PaxosCluster
  import opened PaxosInvariant
  import opened PaxosProof
  import opened PaxosSteps
  import opened PaxosSafety

  // ----- what a step tells a participant -----

  predicate Crashes(ev: Event) {
    ev.Restart? || ev.InterruptedPropose? || ev.InterruptedRetry?
  }

  /** The last proposal it accepted is of ballot b. */
  predicate HoldsBallot(n: Node, b: nat) {
    n.acceptor.hasAccepted && n.acceptor.acceptedBallot == b
  }

  /** From n to n2 by ev, the participant itself accepts ballot b: it is asked
      to and has promised nothing higher, or it comes to hold b. */
  predicate Accepts(n: Node, ev: Event, n2: Node, b: nat) {
    || (ev.Receive? && ev.packet.msg.Accept? && ev.packet.msg.ballot == b && n.acceptor.promised <= b)
    || (HoldsBallot(n2, b) && !HoldsBallot(n, b))
  }

  /** From n to n2 by ev, the participant learns that s accepted ballot b. */
  predicate Learns(n: Node, ev: Event, n2: Node, b: nat, s: Host) {
    || (ev.Receive? && ev.packet.msg.Accepted? && ev.packet.msg.ballot == b && ev.packet.src == s)
    || (s == n.id && Accepts(n, ev, n2, b))
  }

  // ----- one tally -----

  /** No ballot has a majority yet. */
  ghost predicate Open(n: Node) {
    forall b: nat :: |AcceptsAt(n, b)| < MajoritySize(|n.roster|)
  }

  /** From n to n2 the acceptances in s0 of ballot b0 are counted, and decide if
      they make a majority. */
  ghost predicate Tallies(n: Node, n2: Node, b0: nat, s0: set<Host>) {
    && n2.roster == n.roster && n2.id == n.id
    && (n2.decided.None? ==> Open(n2) && forall b: nat :: AcceptsAt(n2, b) == AcceptsAt(n, b) + if b == b0 then s0 else {})
    && (n2.decided.Some? ==> n2.decided.value.ballot == b0 && |AcceptsAt(n, b0) + s0| >= MajoritySize(|n.roster|))
  }

  lemma TalliesNothing(n: Node, n2: Node)
    requires n2.roster == n.roster && n2.id == n.id && n2.accepts == n.accepts && n.decided.None? && n2.decided.None? && Open(n)
    ensures Tallies(n, n2, 0, {})
  {
    forall b: nat ensures AcceptsAt(n2, b) == AcceptsAt(n, b) {}
    assert Open(n2) by {
      forall b: nat ensures |AcceptsAt(n2, b)| < MajoritySize(|n.roster|) {}
    }
  }

  /** The tally grows by one acceptor, whether or not it decides. */
  lemma RecordCounts(n: Node, b: nat, v: Value, from: Host)
    requires n.decided.None?
    ensures RecordAccepted(n, b, v, from).accepts == n.accepts[b := AcceptsAt(n, b) + {from}]
  {
    if from in AcceptsAt(n, b) { assert AcceptsAt(n, b) + {from} == AcceptsAt(n, b); }
  }

  lemma RecordDecides(n: Node, b: nat, v: Value, from: Host)
    requires n.decided.None? && |AcceptsAt(n, b)| < MajoritySize(|n.roster|)
    ensures var n2 := RecordAccepted(n, b, v, from);
            && (n2.decided.Some? <==> |AcceptsAt(n, b) + {from}| >= MajoritySize(|n.roster|))
            && (n2.decided.Some? ==> n2.decided.value.ballot == b)
  {
    if from in AcceptsAt(n, b) { assert AcceptsAt(n, b) + {from} == AcceptsAt(n, b); }
  }

  lemma RecordAt(n: Node, b: nat, v: Value, from: Host, x: nat)
    requires n.decided.None? && |AcceptsAt(n, b)| < MajoritySize(|n.roster|)
    ensures var n2 := RecordAccepted(n, b, v, from);
            && n2.roster == n.roster && n2.id == n.id && n2.acceptor == n.acceptor
            && AcceptsAt(n2, x) == AcceptsAt(n, x) + (if x == b then {from} else {})
            && (n2.decided.Some? <==> |AcceptsAt(n, b) + {from}| >= MajoritySize(|n.roster|))
            && (n2.decided.Some? ==> n2.decided.value.ballot == b)
  {
    hide RecordAccepted;
    RecordShape(n, b, v, from);
    RecordCounts(n, b, v, from);
    RecordDecides(n, b, v, from);
  }

  lemma RecordTallies(n: Node, b: nat, v: Value, from: Host)
    requires n.decided.None? && Open(n)
    ensures Tallies(n, RecordAccepted(n, b, v, from), b, {from})
    ensures RecordAccepted(n, b, v, from).acceptor == n.acceptor
  {
    hide RecordAccepted, AcceptsAt;
    var n2 := RecordAccepted(n, b, v, from);
    assert |AcceptsAt(n, b)| < MajoritySize(|n.roster|);
    RecordAt(n, b, v, from, b);
    if n2.decided.None? {
      forall x: nat
        ensures AcceptsAt(n2, x) == AcceptsAt(n, x) + if x == b then {from} else {}
        ensures |AcceptsAt(n2, x)| < MajoritySize(|n2.roster|)
      {
        RecordAt(n, b, v, from, x);
        assert |AcceptsAt(n, x)| < MajoritySize(|n.roster|);
        if x != b { assert AcceptsAt(n2, x) == AcceptsAt(n, x); }
      }
    }
  }

  /** Accepting, or refusing to. */
  lemma AnnounceTallies(n: Node, b: nat, v: Value)
    requires n.decided.None? && Open(n)
    ensures var n2 := AcceptAndAnnounce(n, b, v).node;
            if n.acceptor.promised <= b then
              Tallies(n, n2, b, {n.id}) && n2.acceptor == Acceptor(b, b, v, true)
            else
              Tallies(n, n2, b, {}) && n2.acceptor == n.acceptor
  {
    hide RecordAccepted, Open;
    if n.acceptor.promised <= b {
      var n1 := AcceptAt(Observe(n, b), b, v);
      SameTally(n, n1);
      RecordTallies(n1, b, v, n.id);
      TalliesFrom(n, n1, RecordAccepted(n1, b, v, n.id), b, {n.id});
    } else {
      TalliesNothing(n, Observe(n, b));
      NothingAnywhere(n, Observe(n, b), b);
    }
  }

  lemma SameTally(n: Node, n1: Node)
    requires n1.accepts == n.accepts && n1.roster == n.roster && Open(n)
    ensures Open(n1)
  {
    forall b: nat ensures |AcceptsAt(n1, b)| < MajoritySize(|n1.roster|) {
      assert AcceptsAt(n1, b) == AcceptsAt(n, b);
    }
  }

  lemma TalliesFrom(n: Node, n1: Node, n2: Node, b0: nat, s0: set<Host>)
    requires n1.accepts == n.accepts && n1.roster == n.roster && n1.id == n.id && Tallies(n1, n2, b0, s0)
    ensures Tallies(n, n2, b0, s0)
  {
    assert forall b: nat :: AcceptsAt(n1, b) == AcceptsAt(n, b);
  }

  lemma NothingAnywhere(n: Node, n2: Node, b0: nat)
    requires Tallies(n, n2, 0, {}) && n2.decided.None?
    ensures Tallies(n, n2, b0, {})
  {
    forall b: nat ensures AcceptsAt(n2, b) == AcceptsAt(n, b) + if b == b0 then {} else {} {
      assert AcceptsAt(n2, b) == AcceptsAt(n, b) + if b == 0 then {} else {};
    }
  }

  // ----- one step -----

  /** What a sound participant is handed in a run. */
  ghost predicate Receives(h: History, g: Group, n: Node, ev: Event) {
    && HistoryOk(h, g) && NodeOk(h, g, n) && n.roster != [] && !Crashes(ev)
    && (ev.Receive? ==> PacketOk(h, g, ev.packet) && ev.packet.dst == n.id)
  }

  /** The acceptance a step tells, if any: one ballot, one acceptor. */
  ghost predicate TellsExactly(n: Node, ev: Event, n2: Node, b0: nat, s0: set<Host>) {
    forall b: nat, s :: Learns(n, ev, n2, b, s) <==> b == b0 && s in s0
  }

  lemma Phase2Tallies(n: Node) returns (b0: nat, s0: set<Host>)
    requires n.decided.None? && Open(n) && n.phase == 1 && !HoldsBallot(n, n.myBallot)
    ensures var n2 := MaybePhase2(n).node;
            && Tallies(n, n2, b0, s0)
            && (s0 == {} || (s0 == {n.id} && HoldsBallot(n2, b0) && !HoldsBallot(n, b0)))
            && (s0 == {} ==> n2.acceptor == n.acceptor)
            && (s0 != {} ==> forall b :: HoldsBallot(n2, b) ==> b == b0)
  {
    hide Open, AcceptAndAnnounce, Phase2Value, Tallies;
    if |n.promises| >= MajoritySize(|n.roster|) {
      var n1 := n.(phase := 2);
      SameTally(n, n1);
      AnnounceTallies(n1, n.myBallot, Phase2Value(n));
      b0 := n.myBallot;
      s0 := if n.acceptor.promised <= b0 then {n.id} else {};
      TalliesFrom(n, n1, MaybePhase2(n).node, b0, s0);
    } else {
      b0, s0 := 0, {};
      TalliesNothing(n, n);
    }
  }

  /** What a participant holds is below every ballot it has yet to pick. */
  lemma HeldBelow(h: History, g: Group, n: Node)
    requires HistoryOk(h, g) && NodeOk(h, g, n)
    ensures n.acceptor.hasAccepted ==> n.acceptor.acceptedBallot <= n.acceptor.promised
    ensures n.acceptor.promised <= n.maxSeen && n.disk == n.acceptor
    ensures n.proposing && n.phase == 1 ==> !HoldsBallot(n, n.myBallot)
  {
    hide LearnerOk, BallotOk, ValueOk, Safe, PromiseOk, Owned;
    assert AcceptorOk(h, n);
  }

  /** A round opens on a ballot above every one seen, with its own promise. */
  lemma OpenIs(h: History, g: Group, n: Node)
    requires HistoryOk(h, g) && NodeOk(h, g, n) && n.roster != []
    ensures var b := NextBallot(n.maxSeen, |n.roster|, n.index);
            var a := n.acceptor.(promised := b);
            && b > n.maxSeen >= n.acceptor.promised
            && OpenRound(n) == n.(proposing := true, phase := 1, myBallot := b, maxSeen := b, acceptor := a, disk := a,
                                  promises := map[n.id := Report(a)])
  {
    hide NodeOk, HistoryOk, OpenRound, NextBallot;
    NodeRoster(h, g, n);
    HeldBelow(h, g, n);
    NextBallotIs(n.maxSeen, n.roster, n.index);
    OpenShape(n);
  }

  lemma StartTallies(h: History, g: Group, n: Node, v: Value) returns (b0: nat, s0: set<Host>)
    requires HistoryOk(h, g) && NodeOk(h, g, n) && n.roster != [] && n.decided.None? && Open(n)
    ensures var n2 := StartRound(n.(myValue := v)).node;
            && Tallies(n, n2, b0, s0)
            && (s0 == {} || (s0 == {n.id} && HoldsBallot(n2, b0) && !HoldsBallot(n, b0)))
            && (s0 == {} ==> forall b: nat :: HoldsBallot(n2, b) ==> HoldsBallot(n, b))
            && (s0 != {} ==> forall b :: HoldsBallot(n2, b) ==> b == b0)
  {
    hide HistoryOk, NodeOk, OpenRound, NextBallot, Open, Tallies, MaybePhase2;
    OpenIs(h, g, n);
    HeldBelow(h, g, n);
    var m := n.(myValue := v);
    assert OpenRound(m) == OpenRound(n).(myValue := v) by { OpenRenames(n, v); }
    var r := OpenRound(m);
    SameTally(n, r);
    b0, s0 := Phase2Tallies(r);
    TalliesFrom(n, r, MaybePhase2(r).node, b0, s0);
  }

  lemma OpenRenames(n: Node, v: Value)
    requires n.roster != []
    ensures OpenRound(n.(myValue := v)) == OpenRound(n).(myValue := v)
  {
    hide NextBallot;
  }

  lemma PromiseTallies(h: History, g: Group, n: Node, m: Message, from: Host) returns (b0: nat, s0: set<Host>)
    requires HistoryOk(h, g) && NodeOk(h, g, n) && n.decided.None? && Open(n) && m.Promise?
    ensures var n2 := OnPromise(n, m, from).node;
            && Tallies(n, n2, b0, s0)
            && (s0 == {} || (s0 == {n.id} && HoldsBallot(n2, b0) && !HoldsBallot(n, b0)))
            && (s0 == {} ==> n2.acceptor == n.acceptor)
            && (s0 != {} ==> forall b :: HoldsBallot(n2, b) ==> b == b0)
  {
    hide HistoryOk, NodeOk, Open, Tallies, MaybePhase2;
    HeldBelow(h, g, n);
    var n2 := OnPromise(n, m, from).node;
    if m.ok && n.proposing && n.phase == 1 && m.ballot == n.myBallot {
      var n1 := n.(promises := n.promises[from := m.info]);
      SameTally(n, n1);
      b0, s0 := Phase2Tallies(n1);
      TalliesFrom(n, n1, n2, b0, s0);
    } else {
      b0, s0 := 0, {};
      TalliesNothing(n, n2);
    }
  }

  /** One step of an undecided participant counts exactly what it learns. */
  lemma StepTallies(h: History, g: Group, n: Node, ev: Event) returns (b0: nat, s0: set<Host>)
    requires Receives(h, g, n, ev) && n.decided.None? && Open(n)
    ensures var n2 := Handle(n, ev).node; Tallies(n, n2, b0, s0) && TellsExactly(n, ev, n2, b0, s0)
  {
    hide HistoryOk, NodeOk, PacketOk, Open, Tallies, StartRound, OnPromise, AcceptAndAnnounce, RecordAccepted, CanAccept, Peers;
    var n2 := Handle(n, ev).node;
    b0, s0 := 0, {};
    match ev
    case Propose(v) =>
      if n.proposing { TalliesNothing(n, n); } else { b0, s0 := StartTallies(h, g, n, v); }
    case RetryTimeout =>
      if !n.proposing { TalliesNothing(n, n); } else {
        b0, s0 := StartTallies(h, g, n, n.myValue);
        assert n.(myValue := n.myValue) == n;
      }
    case SessionConnected(_) => TalliesNothing(n, n);
    case Receive(p) =>
      match p.msg {
        case Prepare(b) => TalliesNothing(n, n2);
        case AcceptNack(b) => TalliesNothing(n, n2);
        case Promise(_, _, _, _) => b0, s0 := PromiseTallies(h, g, n, p.msg, p.src);
        case Accepted(b, v) =>
          RecordTallies(n, b, v, p.src);
          b0, s0 := b, {p.src};
        case Accept(b, v) =>
          b0, s0 := AcceptTallies(n, p);
      }
  }

  lemma AcceptTallies(n: Node, p: Packet) returns (b0: nat, s0: set<Host>)
    requires p.msg.Accept? && n.decided.None? && Open(n)
    ensures var n2 := OnAccept(n, p.msg.ballot, p.msg.value, p.src).node;
            Tallies(n, n2, b0, s0) && TellsExactly(n, Receive(p), n2, b0, s0)
  {
    hide Open, Tallies, AcceptAndAnnounce;
    var b := p.msg.ballot;
    b0 := b;
    if n.acceptor.promised <= b {
      s0 := {n.id};
      AnnounceTallies(n, b, p.msg.value);
    } else {
      s0 := {};
      TalliesNothing(n, Observe(n, b));
      NothingAnywhere(n, Observe(n, b), b);
    }
  }

  lemma DecidedStays(n: Node, ev: Event)
    requires n.roster != [] && !Crashes(ev) && n.decided.Some?
    ensures Handle(n, ev).node.decided == n.decided
  {
    hide MaybePhase2, OpenRound;
  }

  // ----- a whole incarnation -----

  /** Step i tells h that s accepted ballot b. */
  predicate TellsAt(cs: seq<Cluster>, ls: seq<Label>, i: int, h: Host, b: nat, s: Host) {
    && 0 <= i < |ls| && i + 1 < |cs| && ls[i].host == h && h in cs[i].nodes && h in cs[i + 1].nodes
    && Learns(cs[i].nodes[h], ls[i].event, cs[i + 1].nodes[h], b, s)
  }

  ghost predicate ToldOf(cs: seq<Cluster>, ls: seq<Label>, m: nat, k: nat, h: Host, b: nat, s: Host) {
    exists i :: m <= i < k && TellsAt(cs, ls, i, h, b, s)
  }

  /** The members whose acceptance of b was told to h between moments m and k. */
  ghost function Told(roster: seq<Host>, cs: seq<Cluster>, ls: seq<Label>, m: nat, k: nat, h: Host, b: nat): set<Host> {
    set s | s in Elements(roster) && ToldOf(cs, ls, m, k, h, b, s)
  }

  lemma ToldStep(cs: seq<Cluster>, ls: seq<Label>, m: nat, k: nat, h: Host, b: nat, s: Host)
    requires m <= k
    ensures ToldOf(cs, ls, m, k + 1, h, b, s) <==> ToldOf(cs, ls, m, k, h, b, s) || TellsAt(cs, ls, k, h, b, s)
  {
  }

  /** h started at moment m and has been up until moment k. */
  predicate UpSince(ls: seq<Label>, m: nat, k: nat, h: Host) {
    && m <= k <= |ls|
    && (m == 0 || (ls[m - 1].host == h && Crashes(ls[m - 1].event)))
    && forall i | m <= i < k && ls[i].host == h :: !Crashes(ls[i].event)
  }

  /** What h has counted, and decided, is what it was told. */
  ghost predicate Informed(roster: seq<Host>, cs: seq<Cluster>, ls: seq<Label>, m: nat, k: nat, h: Host, n: Node) {
    && n.roster == roster
    && (n.decided.None? ==> Open(n) && forall b: nat :: AcceptsAt(n, b) == Told(roster, cs, ls, m, k, h, b))
    && (n.decided.Some? ==> Majority(Elements(roster), Told(roster, cs, ls, m, k, h, n.decided.value.ballot)))
  }

  lemma NodeAt(roster: seq<Host>, cs: seq<Cluster>, ls: seq<Label>, k: nat, h: Host) returns (hist: History)
    requires IsRun(roster, cs, ls) && k < |cs| && h in cs[k].nodes
    ensures var n, g := cs[k].nodes[h], GroupOf(roster);
            Inv(cs[k], hist, g) && HistoryOk(hist, g) && NodeOk(hist, g, n) && n.id == h && n.roster == roster
  {
    hide IsRun, Inv, NodeOk, HistoryOk;
    var hs := RunExplained(roster, cs, ls);
    hist := hs[k];
    InvNode(cs[k], hist, GroupOf(roster), h);
    NodeRoster(hist, GroupOf(roster), cs[k].nodes[h]);
  }

  lemma MembersAt(roster: seq<Host>, cs: seq<Cluster>, ls: seq<Label>, k: nat)
    requires IsRun(roster, cs, ls) && k < |cs|
    ensures cs[k].nodes.Keys == Elements(roster)
  {
    hide IsRun, NodeOk, NetOk, HistoryOk;
    var hs := RunExplained(roster, cs, ls);
    assert Inv(cs[k], hs[k], GroupOf(roster));
  }

  lemma RunStep(roster: seq<Host>, cs: seq<Cluster>, ls: seq<Label>, k: nat) returns (hist: History)
    requires IsRun(roster, cs, ls) && k < |ls| && !Crashes(ls[k].event)
    ensures var v := ls[k].host;
            && v in cs[k].nodes && v in cs[k + 1].nodes && cs[k].nodes[v].id == v && cs[k].nodes[v].roster == roster != []
            && Receives(hist, GroupOf(roster), cs[k].nodes[v], ls[k].event)
            && cs[k + 1].nodes[v] == Handle(cs[k].nodes[v], ls[k].event).node
            && cs[k + 1].net == cs[k].net + Handle(cs[k].nodes[v], ls[k].event).sent
            && (ls[k].event.Receive? ==> ls[k].event.packet in cs[k].net)
  {
    hide Inv, NodeOk, HistoryOk, PacketOk, Handle, Peers;
    var v := ls[k].host;
    assert Enabled(cs[k], ls[k]) && cs[k + 1] == Step(cs[k], ls[k]);
    hist := NodeAt(roster, cs, ls, k, v);
    if ls[k].event.Receive? { NetPacket(cs[k], hist, GroupOf(roster), ls[k].event.packet); }
  }

  lemma Untouched(roster: seq<Host>, cs: seq<Cluster>, ls: seq<Label>, k: nat, v: Host)
    requires IsRun(roster, cs, ls) && k < |ls| && ls[k].host != v
    ensures v in cs[k + 1].nodes <==> v in cs[k].nodes
    ensures v in cs[k].nodes ==> cs[k + 1].nodes[v] == cs[k].nodes[v]
  {
    hide Handle;
  }

  lemma InformedStep(roster: seq<Host>, cs: seq<Cluster>, ls: seq<Label>, m: nat, k: nat, h: Host)
    requires IsRun(roster, cs, ls) && m <= k < |ls| && ls[k].host == h && !Crashes(ls[k].event)
    requires h in cs[k].nodes && Informed(roster, cs, ls, m, k, h, cs[k].nodes[h])
    ensures h in cs[k + 1].nodes && Informed(roster, cs, ls, m, k + 1, h, cs[k + 1].nodes[h])
  {
    hide IsRun, Handle, Receives, Learns, ToldOf, Open;
    RosterSize(roster, cs, ls);
    var hist := RunStep(roster, cs, ls, k);
    var n, n2, ev := cs[k].nodes[h], cs[k + 1].nodes[h], ls[k].event;
    if n.decided.Some? {
      DecidedStays(n, ev);
      var hist2 := NodeAt(roster, cs, ls, k + 1, h);
      ToldGrows(roster, cs, ls, m, k, h, n.decided.value.ballot);
    } else {
      var b0, s0 := StepTallies(hist, GroupOf(roster), n, ev);
      forall b: nat ensures Told(roster, cs, ls, m, k + 1, h, b) == AcceptsAt(n, b) + if b == b0 then s0 else {} {
        TellersAreMembers(hist, GroupOf(roster), n, ev, n2, b0, s0);
        ToldNext(roster, cs, ls, m, k, h, b, b0, s0);
      }
      assert AcceptsAt(n, b0) + s0 == Told(roster, cs, ls, m, k + 1, h, b0);
      if n2.decided.None? {
        forall b: nat ensures AcceptsAt(n2, b) == Told(roster, cs, ls, m, k + 1, h, b) {}
      }
    }
  }

  lemma RosterSize(roster: seq<Host>, cs: seq<Cluster>, ls: seq<Label>)
    requires IsRun(roster, cs, ls)
    ensures |Elements(roster)| == |roster| && roster != [] && NoDuplicates(roster) && |cs| == |ls| + 1
  {
    ElementsSize(roster);
  }

  lemma ToldGrows(roster: seq<Host>, cs: seq<Cluster>, ls: seq<Label>, m: nat, k: nat, h: Host, b: nat)
    requires m <= k && Majority(Elements(roster), Told(roster, cs, ls, m, k, h, b))
    ensures Majority(Elements(roster), Told(roster, cs, ls, m, k + 1, h, b))
  {
    hide ToldOf;
    forall s | s in Told(roster, cs, ls, m, k, h, b) ensures s in Told(roster, cs, ls, m, k + 1, h, b) {
      ToldStep(cs, ls, m, k, h, b, s);
    }
    MajorityGrows(Elements(roster), Told(roster, cs, ls, m, k, h, b), Told(roster, cs, ls, m, k + 1, h, b));
  }

  lemma TellersAreMembers(hist: History, g: Group, n: Node, ev: Event, n2: Node, b0: nat, s0: set<Host>)
    requires Receives(hist, g, n, ev) && TellsExactly(n, ev, n2, b0, s0)
    ensures s0 <= g.hosts
  {
    hide AcceptorOk, ProposerOk, LearnerOk, Safe, BallotOk, ValueOk;
    forall s | s in s0 ensures s in g.hosts {
      assert Learns(n, ev, n2, b0, s);
      assert n.id in Elements(g.roster);
    }
  }

  lemma ToldNext(roster: seq<Host>, cs: seq<Cluster>, ls: seq<Label>, m: nat, k: nat, h: Host, b: nat, b0: nat, s0: set<Host>)
    requires m <= k < |ls| && k + 1 < |cs| && ls[k].host == h && h in cs[k].nodes && h in cs[k + 1].nodes && s0 <= Elements(roster)
    requires TellsExactly(cs[k].nodes[h], ls[k].event, cs[k + 1].nodes[h], b0, s0)
    ensures Told(roster, cs, ls, m, k + 1, h, b) == Told(roster, cs, ls, m, k, h, b) + if b == b0 then s0 else {}
  {
    hide ToldOf, Learns;
    forall s ensures s in Told(roster, cs, ls, m, k + 1, h, b) <==> s in Told(roster, cs, ls, m, k, h, b) || (b == b0 && s in s0) {
      ToldStep(cs, ls, m, k, h, b, s);
      assert Learns(cs[k].nodes[h], ls[k].event, cs[k + 1].nodes[h], b, s) <==> b == b0 && s in s0;
    }
  }

  lemma InformedStarts(roster: seq<Host>, cs: seq<Cluster>, ls: seq<Label>, m: nat, h: Host)
    requires IsRun(roster, cs, ls) && UpSince(ls, m, m, h) && h in cs[m].nodes
    ensures Informed(roster, cs, ls, m, m, h, cs[m].nodes[h])
  {
    hide NodeOk, HistoryOk, Inv, OpenRound;
    var n := cs[m].nodes[h];
    var hist := NodeAt(roster, cs, ls, m, h);
    assert n.accepts == map[] && n.decided.None? by {
      if m > 0 { assert Enabled(cs[m - 1], ls[m - 1]) && cs[m - 1 + 1] == Step(cs[m - 1], ls[m - 1]); }
    }
    assert forall b: nat :: AcceptsAt(n, b) == {} == Told(roster, cs, ls, m, m, h, b);
  }

  lemma {:induction false} InformedHolds(roster: seq<Host>, cs: seq<Cluster>, ls: seq<Label>, m: nat, k: nat, h: Host)
    requires IsRun(roster, cs, ls) && UpSince(ls, m, k, h) && h in cs[k].nodes
    ensures Informed(roster, cs, ls, m, k, h, cs[k].nodes[h])
    decreases k
  {
    hide IsRun, Informed;
    RosterSize(roster, cs, ls);
    if k == m {
      InformedStarts(roster, cs, ls, m, h);
    } else {
      MembersAt(roster, cs, ls, k);
      MembersAt(roster, cs, ls, k - 1);
      InformedHolds(roster, cs, ls, m, k - 1, h);
      if ls[k - 1].host == h {
        InformedStep(roster, cs, ls, m, k - 1, h);
      } else {
        Untouched(roster, cs, ls, k - 1, h);
        InformedIdle(roster, cs, ls, m, k - 1, h, cs[k].nodes[h]);
      }
    }
  }

  lemma InformedIdle(roster: seq<Host>, cs: seq<Cluster>, ls: seq<Label>, m: nat, k: nat, h: Host, n: Node)
    requires m <= k < |ls| && ls[k].host != h && Informed(roster, cs, ls, m, k, h, n)
    ensures Informed(roster, cs, ls, m, k + 1, h, n)
  {
    hide Open, ToldOf;
    forall b: nat ensures Told(roster, cs, ls, m, k + 1, h, b) == Told(roster, cs, ls, m, k, h, b) {
      forall s ensures ToldOf(cs, ls, m, k + 1, h, b, s) <==> ToldOf(cs, ls, m, k, h, b, s) {
        ToldStep(cs, ls, m, k, h, b, s);
      }
    }
  }

  /** A participant has decided if and only if, since it last started, it was
      told by a majority of the group, itself included when it accepted, that
      they accepted one ballot. */
  lemma DecidedIff(roster: seq<Host>, cs: seq<Cluster>, ls: seq<Label>, m: nat, k: nat, h: Host)
    requires IsRun(roster, cs, ls) && UpSince(ls, m, k, h) && k < |cs| && h in cs[k].nodes
    ensures cs[k].nodes[h].decided.Some? <==> exists b: nat :: Majority(Elements(roster), Told(roster, cs, ls, m, k, h, b))
  {
    hide Told;
    InformedHolds(roster, cs, ls, m, k, h);
    RosterSize(roster, cs, ls);
    hide IsRun;
    var n := cs[k].nodes[h];
    if n.decided.None? {
      forall b: nat ensures !Majority(Elements(roster), Told(roster, cs, ls, m, k, h, b)) {
        assert AcceptsAt(n, b) == Told(roster, cs, ls, m, k, h, b);
      }
    }
  }

  /** It decided on a ballot a majority told it of, and on the value that every
      acceptance of that ballot, and every request for one, carries. */
  lemma DecidedOn(roster: seq<Host>, cs: seq<Cluster>, ls: seq<Label>, m: nat, k: nat, h: Host, p: Packet)
    requires IsRun(roster, cs, ls) && UpSince(ls, m, k, h) && k < |cs| && h in cs[k].nodes && cs[k].nodes[h].decided.Some?
    ensures var d := cs[k].nodes[h].decided.value;
            && Majority(Elements(roster), Told(roster, cs, ls, m, k, h, d.ballot))
            && (p in cs[k].net && (p.msg.Accepted? || p.msg.Accept?) && p.msg.ballot == d.ballot ==> p.msg.value == d.value)
  {
    hide IsRun, Told, Inv, AcceptorOk, ProposerOk, HistoryOk;
    InformedHolds(roster, cs, ls, m, k, h);
    var hist := NodeAt(roster, cs, ls, k, h);
    if p in cs[k].net { NetPacket(cs[k], hist, GroupOf(roster), p); }
    assert DecidedOk(hist, GroupOf(roster), cs[k].nodes[h].decided.value);
  }
}
