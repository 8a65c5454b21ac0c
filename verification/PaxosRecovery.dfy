/** A Paxos group always recovers: from every reachable state, whoever crashed
    and whatever was lost, there is a way on, with no further crash, to where
    every participant has decided. */
module PaxosRecovery {
  import opened Foundation
  import opened PaxosCore
  import opened PaxosCluster
  import opened PaxosSafety
  import opened PaxosLearning
  import opened PaxosRounds

  // ----- continuing a run -----

  ghost function Last(cs: seq<Cluster>): Cluster
    requires cs != []
  {
    cs[|cs| - 1]
  }

  /** The second run is the first one, taken further without a crash. */
  ghost predicate Continues(roster: seq<Host>, cs: seq<Cluster>, ls: seq<Label>, cs2: seq<Cluster>, ls2: seq<Label>) {
    && IsRun(roster, cs, ls) && IsRun(roster, cs2, ls2) && cs <= cs2 && ls <= ls2
    && |cs| == |ls| + 1 && |cs2| == |ls2| + 1 && Last(cs).net <= Last(cs2).net
    && forall i | |ls| <= i < |ls2| :: !Crashes(ls2[i].event)
  }

  lemma Stays(roster: seq<Host>, cs: seq<Cluster>, ls: seq<Label>)
    requires IsRun(roster, cs, ls)
    ensures Continues(roster, cs, ls, cs, ls)
  {
    hide Step, Enabled, Init;
  }

  lemma Take(roster: seq<Host>, cs: seq<Cluster>, ls: seq<Label>, l: Label) returns (cs2: seq<Cluster>, ls2: seq<Label>)
    requires IsRun(roster, cs, ls) && Enabled(Last(cs), l) && !Crashes(l.event)
    ensures Continues(roster, cs, ls, cs2, ls2) && |ls2| == |ls| + 1 && ls2[|ls|] == l && cs2[|ls|] == Last(cs)
    ensures Last(cs2).nodes.Keys == Last(cs).nodes.Keys
    ensures forall x | x in Last(cs).nodes && x != l.host :: Last(cs2).nodes[x] == Last(cs).nodes[x]
  {
    hide Handle, Init;
    cs2, ls2 := cs + [Step(Last(cs), l)], ls + [l];
    Extended(roster, cs, ls, l);
  }

  lemma Extended(roster: seq<Host>, cs: seq<Cluster>, ls: seq<Label>, l: Label)
    requires IsRun(roster, cs, ls) && Enabled(Last(cs), l)
    ensures IsRun(roster, cs + [Step(Last(cs), l)], ls + [l])
  {
    hide Step, Enabled, Init;
  }

  lemma RosterPresent(roster: seq<Host>, cs: seq<Cluster>, ls: seq<Label>)
    requires IsRun(roster, cs, ls)
    ensures |cs| == |ls| + 1 && roster != [] && NoDuplicates(roster)
    ensures forall x :: x in roster <==> x in Last(cs).nodes
    ensures forall x | x in Last(cs).nodes :: Last(cs).nodes[x].roster == roster && Last(cs).nodes[x].id == x
  {
    hide IsRun;
    RosterSize(roster, cs, ls);
    MembersAt(roster, cs, ls, |ls|);
    assert forall x :: x in roster <==> x in Elements(roster);
    forall x | x in Last(cs).nodes ensures Last(cs).nodes[x].roster == roster && Last(cs).nodes[x].id == x {
      var h := NodeAt(roster, cs, ls, |ls|, x);
    }
  }

  /** x is handed packet p. */
  lemma TakeIn(roster: seq<Host>, cs: seq<Cluster>, ls: seq<Label>, p: Packet) returns (cs2: seq<Cluster>, ls2: seq<Label>)
    requires IsRun(roster, cs, ls) && cs != [] && p in Last(cs).net && p.dst in Last(cs).nodes
    ensures Continues(roster, cs, ls, cs2, ls2) && |ls2| == |ls| + 1 && ls2[|ls|] == Label(p.dst, Receive(p)) && cs2[|ls|] == Last(cs)
    ensures Last(cs2).nodes.Keys == Last(cs).nodes.Keys
    ensures forall x | x in Last(cs).nodes && x != p.dst :: Last(cs2).nodes[x] == Last(cs).nodes[x]
  {
    hide IsRun;
    RosterPresent(roster, cs, ls);
    cs2, ls2 := Take(roster, cs, ls, Label(p.dst, Receive(p)));
  }

  // ----- what has been heard since moment base -----

  ghost predicate Heard(cs: seq<Cluster>, ls: seq<Label>, base: nat, x: Host, b: nat, s: Host) {
    ToldOf(cs, ls, base, |ls|, x, b, s)
  }

  lemma HeardKept(roster: seq<Host>, cs: seq<Cluster>, ls: seq<Label>, cs2: seq<Cluster>, ls2: seq<Label>, base: nat, x: Host, b: nat, s: Host)
    requires Continues(roster, cs, ls, cs2, ls2) && Heard(cs, ls, base, x, b, s)
    ensures Heard(cs2, ls2, base, x, b, s)
  {
    hide IsRun, Learns;
    var i :| base <= i < |ls| && TellsAt(cs, ls, i, x, b, s);
    assert TellsAt(cs2, ls2, i, x, b, s);
  }

  // ----- everyone hears everyone -----

  /** x hears each of these hosts' acceptance of b. */
  lemma {:induction false} HearAll(roster: seq<Host>, cs: seq<Cluster>, ls: seq<Label>, base: nat, x: Host, b: nat, w: Value, hosts: seq<Host>)
      returns (cs2: seq<Cluster>, ls2: seq<Label>)
    requires IsRun(roster, cs, ls) && |cs| == |ls| + 1 && base <= |ls| && x in Last(cs).nodes
    requires forall g | g in hosts :: Packet(g, x, Accepted(b, w)) in Last(cs).net
    ensures Continues(roster, cs, ls, cs2, ls2)
    ensures forall g | g in hosts :: Heard(cs2, ls2, base, x, b, g)
    decreases |hosts|
  {
    hide IsRun, Heard;
    if hosts == [] {
      cs2, ls2 := cs, ls;
    } else {
      var g, rest := hosts[0], hosts[1..];
      var cs1, ls1 := TakeIn(roster, cs, ls, Packet(g, x, Accepted(b, w)));
      assert Heard(cs1, ls1, base, x, b, g) by { HeardNow(cs1, ls1, base, x, b, w, g); }
      cs2, ls2 := HearAll(roster, cs1, ls1, base, x, b, w, rest);
      HeardKept(roster, cs1, ls1, cs2, ls2, base, x, b, g);
      assert forall y | y in hosts :: y == g || y in rest;
    }
  }

  lemma HeardNow(cs: seq<Cluster>, ls: seq<Label>, base: nat, x: Host, b: nat, w: Value, g: Host)
    requires |cs| == |ls| + 1 && base < |ls| && ls[|ls| - 1] == Label(x, Receive(Packet(g, x, Accepted(b, w))))
    requires x in cs[|ls| - 1].nodes && x in cs[|ls|].nodes
    ensures Heard(cs, ls, base, x, b, g)
  {
    assert TellsAt(cs, ls, |ls| - 1, x, b, g);
  }

  /** Each of these hosts hears every other member. */
  lemma {:induction false} AllHearAll(roster: seq<Host>, cs: seq<Cluster>, ls: seq<Label>, base: nat, b: nat, w: Value, hosts: seq<Host>)
      returns (cs2: seq<Cluster>, ls2: seq<Label>)
    requires IsRun(roster, cs, ls) && |cs| == |ls| + 1 && base <= |ls| && forall x | x in hosts :: x in roster
    requires forall g, x | g in roster && x in roster && g != x :: Packet(g, x, Accepted(b, w)) in Last(cs).net
    ensures Continues(roster, cs, ls, cs2, ls2)
    ensures forall x, g | x in hosts && g in roster && g != x :: Heard(cs2, ls2, base, x, b, g)
    decreases |hosts|
  {
    hide IsRun, Heard;
    if hosts == [] {
      cs2, ls2 := cs, ls;
    } else {
      var x, rest := hosts[0], hosts[1..];
      RosterPresent(roster, cs, ls);
      OthersAre(roster, x);
      var cs1, ls1 := HearAll(roster, cs, ls, base, x, b, w, PeersOf(roster, x));
      cs2, ls2 := AllHearAll(roster, cs1, ls1, base, b, w, rest);
      forall y, g | y in hosts && g in roster && g != y ensures Heard(cs2, ls2, base, y, b, g) {
        if y == x { HeardKept(roster, cs1, ls1, cs2, ls2, base, x, b, g); } else { assert y in rest; }
      }
    }
  }

  // ----- when everyone has heard everyone, all have decided -----

  lemma {:induction false} LastStart(ls: seq<Label>, k: nat, h: Host) returns (m: nat)
    requires k <= |ls|
    ensures UpSince(ls, m, k, h)
  {
    if k == 0 || (ls[k - 1].host == h && Crashes(ls[k - 1].event)) {
      m := k;
    } else {
      m := LastStart(ls, k - 1, h);
    }
  }

  lemma ToldDecides(roster: seq<Host>, cs: seq<Cluster>, ls: seq<Label>, base: nat, x: Host, b: nat, S: set<Host>)
    requires IsRun(roster, cs, ls) && base <= |ls| && x in roster && Majority(Elements(roster), S)
    requires forall s | s in S :: Heard(cs, ls, base, x, b, s)
    requires forall i | base <= i < |ls| :: !Crashes(ls[i].event)
    ensures cs != [] && x in Last(cs).nodes && Last(cs).nodes[x].decided.Some?
  {
    hide IsRun, TellsAt;
    RosterSize(roster, cs, ls);
    RosterPresent(roster, cs, ls);
    var m := LastStart(ls, |ls|, x);
    assert m <= base;
    forall s | s in S ensures s in Told(roster, cs, ls, m, |ls|, x, b) {
      var i :| base <= i < |ls| && TellsAt(cs, ls, i, x, b, s);
      assert ToldOf(cs, ls, m, |ls|, x, b, s);
    }
    MajorityGrows(Elements(roster), S, Told(roster, cs, ls, m, |ls|, x, b));
    DecidedIff(roster, cs, ls, m, |ls|, x);
  }

  lemma AllToldDecides(roster: seq<Host>, cs: seq<Cluster>, ls: seq<Label>, base: nat, x: Host, b: nat)
    requires IsRun(roster, cs, ls) && base <= |ls| && x in roster && forall s | s in roster :: Heard(cs, ls, base, x, b, s)
    requires forall i | base <= i < |ls| :: !Crashes(ls[i].event)
    ensures cs != [] && x in Last(cs).nodes && Last(cs).nodes[x].decided.Some?
  {
    hide IsRun, Heard;
    RosterSize(roster, cs, ls);
    assert roster[0] in Elements(roster);
    ToldDecides(roster, cs, ls, base, x, b, Elements(roster));
  }

  // ----- everyone accepts -----

  /** g has accepted (b, w) since base and told everyone else. */
  ghost predicate Spread(roster: seq<Host>, cs: seq<Cluster>, ls: seq<Label>, base: nat, g: Host, b: nat, w: Value)
    requires cs != []
  {
    && Heard(cs, ls, base, g, b, g)
    && forall x | x in roster && x != g :: Packet(g, x, Accepted(b, w)) in Last(cs).net
  }

  lemma SpreadKept(roster: seq<Host>, cs: seq<Cluster>, ls: seq<Label>, cs2: seq<Cluster>, ls2: seq<Label>,
                   base: nat, g: Host, b: nat, w: Value)
    requires Continues(roster, cs, ls, cs2, ls2) && Spread(roster, cs, ls, base, g, b, w)
    ensures Spread(roster, cs2, ls2, base, g, b, w)
  {
    hide IsRun, Heard;
    HeardKept(roster, cs, ls, cs2, ls2, base, g, b, g);
  }

  lemma OwnHeard(cs: seq<Cluster>, ls: seq<Label>, base: nat, g: Host, b: nat)
    requires |cs| == |ls| + 1 && base < |ls| && ls[|ls| - 1].host == g
    requires g in cs[|ls| - 1].nodes && g in cs[|ls|].nodes && cs[|ls| - 1].nodes[g].id == g
    requires Accepts(cs[|ls| - 1].nodes[g], ls[|ls| - 1].event, cs[|ls|].nodes[g], b)
    ensures Heard(cs, ls, base, g, b, g)
  {
    assert TellsAt(cs, ls, |ls| - 1, g, b, g);
  }

  lemma AcceptOne(roster: seq<Host>, cs: seq<Cluster>, ls: seq<Label>, base: nat, f: Host, g: Host, b: nat, w: Value)
      returns (cs2: seq<Cluster>, ls2: seq<Label>)
    requires IsRun(roster, cs, ls) && |cs| == |ls| + 1 && base <= |ls| && g in Last(cs).nodes
    requires Packet(f, g, Accept(b, w)) in Last(cs).net && Last(cs).nodes[g].acceptor.promised <= b
    ensures Continues(roster, cs, ls, cs2, ls2) && Spread(roster, cs2, ls2, base, g, b, w)
    ensures forall x | x in Last(cs).nodes && x != g :: x in Last(cs2).nodes && Last(cs2).nodes[x] == Last(cs).nodes[x]
  {
    hide IsRun, Heard, AcceptedAs;
    RosterPresent(roster, cs, ls);
    cs2, ls2 := TakeIn(roster, cs, ls, Packet(f, g, Accept(b, w)));
    AcceptAnswer(roster, cs2, ls2, |ls|, g, f, b, w);
    OwnHeard(cs2, ls2, base, g, b);
    forall x | x in roster && x != g ensures Packet(g, x, Accepted(b, w)) in Last(cs2).net {
      assert Packet(g, x, Accepted(b, w)) in ToOthers(roster, g, Accepted(b, w));
    }
  }

  lemma {:induction false} AcceptAll(roster: seq<Host>, cs: seq<Cluster>, ls: seq<Label>, base: nat, f: Host, b: nat, w: Value, hosts: seq<Host>)
      returns (cs2: seq<Cluster>, ls2: seq<Label>)
    requires IsRun(roster, cs, ls) && |cs| == |ls| + 1 && base <= |ls| && NoDuplicates(hosts)
    requires forall g | g in hosts :: Packet(f, g, Accept(b, w)) in Last(cs).net
    requires forall g | g in hosts :: g in Last(cs).nodes && Last(cs).nodes[g].acceptor.promised <= b
    ensures Continues(roster, cs, ls, cs2, ls2)
    ensures forall g | g in hosts :: Spread(roster, cs2, ls2, base, g, b, w)
    decreases |hosts|
  {
    hide IsRun, Spread;
    if hosts == [] {
      cs2, ls2 := cs, ls;
    } else {
      var g, rest := hosts[0], hosts[1..];
      var cs1, ls1 := AcceptOne(roster, cs, ls, base, f, g, b, w);
      assert forall y | y in rest :: y in hosts && y != g;
      cs2, ls2 := AcceptAll(roster, cs1, ls1, base, f, b, w, rest);
      SpreadKept(roster, cs1, ls1, cs2, ls2, base, g, b, w);
      assert forall y | y in hosts :: y == g || y in rest;
    }
  }

  // ----- everyone promises -----

  /** f has put (b, w) to everyone, and accepted it itself. */
  ghost predicate Asking(roster: seq<Host>, cs: seq<Cluster>, ls: seq<Label>, base: nat, f: Host, b: nat, w: Value)
    requires cs != []
  {
    Spread(roster, cs, ls, base, f, b, w) && forall x | x in roster && x != f :: Packet(f, x, Accept(b, w)) in Last(cs).net
  }

  /** f is still collecting promises for b, and has these. */
  predicate Collecting(n: Node, b: nat, done: set<Host>) {
    && n.decided.None? && n.proposing && n.phase == 1 && n.myBallot == b && n.acceptor.promised == b
    && !HoldsBallot(n, b) && n.promises.Keys == done && |done| < MajoritySize(|n.roster|)
  }

  ghost predicate Underway(roster: seq<Host>, cs: seq<Cluster>, ls: seq<Label>, base: nat, f: Host, b: nat, done: set<Host>)
    requires cs != []
  {
    || (f in Last(cs).nodes && Collecting(Last(cs).nodes[f], b, done))
    || exists w :: Asking(roster, cs, ls, base, f, b, w)
  }

  lemma AskingKept(roster: seq<Host>, cs: seq<Cluster>, ls: seq<Label>, cs2: seq<Cluster>, ls2: seq<Label>,
                   base: nat, f: Host, b: nat, w: Value)
    requires Continues(roster, cs, ls, cs2, ls2) && Asking(roster, cs, ls, base, f, b, w)
    ensures Asking(roster, cs2, ls2, base, f, b, w)
  {
    hide IsRun, Spread;
    SpreadKept(roster, cs, ls, cs2, ls2, base, f, b, w);
  }

  /** g is asked and promises. */
  lemma PromiseOne(roster: seq<Host>, cs: seq<Cluster>, ls: seq<Label>, f: Host, g: Host, b: nat)
      returns (cs2: seq<Cluster>, ls2: seq<Label>, info: PromiseInfo)
    requires IsRun(roster, cs, ls) && |cs| == |ls| + 1 && g in Last(cs).nodes && g != f
    requires Packet(f, g, Prepare(b)) in Last(cs).net && Last(cs).nodes[g].acceptor.promised < b
    ensures Continues(roster, cs, ls, cs2, ls2) && Packet(g, f, Promise(b, true, b, info)) in Last(cs2).net
    ensures forall x | x in Last(cs).nodes :: x in Last(cs2).nodes && (x != g ==> Last(cs2).nodes[x] == Last(cs).nodes[x])
    ensures Last(cs2).nodes[g].acceptor.promised == b
  {
    hide IsRun;
    cs2, ls2 := TakeIn(roster, cs, ls, Packet(f, g, Prepare(b)));
    PrepareAnswer(roster, cs2, ls2, |ls|, g, f, b);
    var a := Last(cs).nodes[g].acceptor;
    info := PromiseInfo(a.acceptedBallot, a.acceptedValue, a.hasAccepted);
  }

  /** f is handed g's promise. */
  lemma CollectOne(roster: seq<Host>, cs: seq<Cluster>, ls: seq<Label>, base: nat, f: Host, g: Host, b: nat, done: set<Host>, info: PromiseInfo)
      returns (cs2: seq<Cluster>, ls2: seq<Label>)
    requires IsRun(roster, cs, ls) && |cs| == |ls| + 1 && base <= |ls| && f in Last(cs).nodes && g != f
    requires Packet(g, f, Promise(b, true, b, info)) in Last(cs).net && Collecting(Last(cs).nodes[f], b, done)
    ensures Continues(roster, cs, ls, cs2, ls2) && Underway(roster, cs2, ls2, base, f, b, done + {g})
    ensures forall x | x in Last(cs).nodes && x != f :: x in Last(cs2).nodes && Last(cs2).nodes[x] == Last(cs).nodes[x]
  {
    hide IsRun, Heard, Adopted;
    RosterPresent(roster, cs, ls);
    var n := Last(cs).nodes[f];
    var m := Promise(b, true, b, info);
    cs2, ls2 := TakeIn(roster, cs, ls, Packet(g, f, m));
    var w, sent := PromiseAnswer(roster, cs2, ls2, |ls|, f, g, m);
    var r := n.(promises := n.promises[g := info]);
    assert r.promises.Keys == done + {g} && |r.promises| == |r.promises.Keys|;
    if |r.promises| >= MajoritySize(|roster|) {
      OwnHeard(cs2, ls2, base, f, b);
      forall x | x in roster && x != f
        ensures Packet(f, x, Accepted(b, w)) in Last(cs2).net && Packet(f, x, Accept(b, w)) in Last(cs2).net
      {
        assert Packet(f, x, Accepted(b, w)) in ToOthers(roster, f, Accepted(b, w));
        assert Packet(f, x, Accept(b, w)) in ToOthers(roster, f, Accept(b, w));
      }
      assert Asking(roster, cs2, ls2, base, f, b, w);
    }
  }

  lemma GatherOne(roster: seq<Host>, cs: seq<Cluster>, ls: seq<Label>, base: nat, f: Host, g: Host, b: nat, done: set<Host>)
      returns (cs2: seq<Cluster>, ls2: seq<Label>)
    requires IsRun(roster, cs, ls) && |cs| == |ls| + 1 && base <= |ls| && g in Last(cs).nodes && f in Last(cs).nodes && g != f
    requires Packet(f, g, Prepare(b)) in Last(cs).net && Last(cs).nodes[g].acceptor.promised < b
    requires Underway(roster, cs, ls, base, f, b, done)
    ensures Continues(roster, cs, ls, cs2, ls2) && Underway(roster, cs2, ls2, base, f, b, done + {g})
    ensures forall x | x in Last(cs).nodes && x != g && x != f :: x in Last(cs2).nodes && Last(cs2).nodes[x] == Last(cs).nodes[x]
    ensures f in Last(cs2).nodes && g in Last(cs2).nodes && Last(cs2).nodes[g].acceptor.promised == b
  {
    hide IsRun, Asking, Collecting;
    var cs1, ls1, info := PromiseOne(roster, cs, ls, f, g, b);
    cs2, ls2 := cs1, ls1;
    if Collecting(Last(cs).nodes[f], b, done) {
      cs2, ls2 := CollectOne(roster, cs1, ls1, base, f, g, b, done, info);
      RosterPresent(roster, cs2, ls2);
      RosterPresent(roster, cs, ls);
    } else {
      var w :| Asking(roster, cs, ls, base, f, b, w);
      AskingKept(roster, cs, ls, cs1, ls1, base, f, b, w);
    }
  }

  lemma {:induction false} GatherAll(roster: seq<Host>, cs: seq<Cluster>, ls: seq<Label>, base: nat, f: Host, b: nat, done: set<Host>, hosts: seq<Host>)
      returns (cs2: seq<Cluster>, ls2: seq<Label>)
    requires IsRun(roster, cs, ls) && |cs| == |ls| + 1 && base <= |ls| && f in Last(cs).nodes && f !in hosts && NoDuplicates(hosts)
    requires forall g | g in hosts :: g in Last(cs).nodes && Last(cs).nodes[g].acceptor.promised < b
    requires forall g | g in hosts :: Packet(f, g, Prepare(b)) in Last(cs).net
    requires Underway(roster, cs, ls, base, f, b, done)
    ensures Continues(roster, cs, ls, cs2, ls2) && Underway(roster, cs2, ls2, base, f, b, done + Elements(hosts))
    ensures forall g | g in hosts :: g in Last(cs2).nodes && Last(cs2).nodes[g].acceptor.promised <= b
    ensures forall x | x in Last(cs).nodes && x != f && x !in hosts :: x in Last(cs2).nodes && Last(cs2).nodes[x] == Last(cs).nodes[x]
    decreases |hosts|
  {
    hide IsRun, Underway;
    if hosts == [] {
      cs2, ls2 := cs, ls;
      assert done + Elements(hosts) == done;
    } else {
      var g, rest := hosts[0], hosts[1..];
      var cs1, ls1 := GatherOne(roster, cs, ls, base, f, g, b, done);
      assert forall y | y in rest :: y in hosts && y != g;
      cs2, ls2 := GatherAll(roster, cs1, ls1, base, f, b, done + {g}, rest);
      assert forall y | y in hosts :: y == g || y in rest;
      assert g !in rest;
      assert done + {g} + Elements(rest) == done + Elements(hosts);
    }
  }

  // ----- a round above every promise -----

  /** f, which has not decided, opens a round. */
  lemma OpenAt(roster: seq<Host>, cs: seq<Cluster>, ls: seq<Label>, f: Host, v: Value)
      returns (cs2: seq<Cluster>, ls2: seq<Label>, b: nat)
    requires IsRun(roster, cs, ls) && cs != [] && |roster| > 1 && f in Last(cs).nodes && Last(cs).nodes[f].decided.None?
    ensures Continues(roster, cs, ls, cs2, ls2) && f in Last(cs2).nodes && Collecting(Last(cs2).nodes[f], b, {f})
    ensures b > Last(cs).nodes[f].maxSeen
    ensures forall x | x in Last(cs).nodes && x != f :: x in Last(cs2).nodes && Last(cs2).nodes[x] == Last(cs).nodes[x]
    ensures forall x | x in roster && x != f :: Packet(f, x, Prepare(b)) in Last(cs2).net
  {
    hide IsRun;
    RosterPresent(roster, cs, ls);
    var n := Last(cs).nodes[f];
    var ev := if n.proposing then RetryTimeout else Propose(v);
    cs2, ls2 := Take(roster, cs, ls, Label(f, ev));
    var sent;
    b, sent := RoundAnswer(roster, cs2, ls2, |ls|, f);
    FreshAcceptor(roster, cs, ls, f);
    forall x | x in roster && x != f ensures Packet(f, x, Prepare(b)) in Last(cs2).net {
      assert Packet(f, x, Prepare(b)) in ToOthers(roster, f, Prepare(b));
    }
    assert Last(cs2).nodes[f].promises.Keys == {f};
  }

  lemma FreshAcceptor(roster: seq<Host>, cs: seq<Cluster>, ls: seq<Label>, f: Host)
    requires IsRun(roster, cs, ls) && cs != [] && f in Last(cs).nodes
    ensures var a := Last(cs).nodes[f].acceptor; (a.hasAccepted ==> a.acceptedBallot <= Last(cs).nodes[f].maxSeen) && a.promised <= Last(cs).nodes[f].maxSeen
  {
    hide IsRun;
    RosterPresent(roster, cs, ls);
    var h := NodeAt(roster, cs, ls, |ls|, f);
    HeldBelow(h, GroupOf(roster), Last(cs).nodes[f]);
  }

  lemma {:induction false} PickHighest(s: Cluster, hosts: seq<Host>) returns (g: Host)
    requires hosts != [] && forall x | x in hosts :: x in s.nodes
    ensures g in hosts && forall x | x in hosts :: s.nodes[x].acceptor.promised <= s.nodes[g].acceptor.promised
  {
    g := hosts[0];
    var rest := hosts[1..];
    if rest != [] {
      var d := PickHighest(s, rest);
      assert forall x | x in hosts :: x == g || x in rest;
      if s.nodes[g].acceptor.promised < s.nodes[d].acceptor.promised { g := d; }
    }
  }

  /** A refusal tells f of the promise in its way. */
  lemma Refused(roster: seq<Host>, cs: seq<Cluster>, ls: seq<Label>, f: Host, g: Host, b: nat)
      returns (cs2: seq<Cluster>, ls2: seq<Label>)
    requires IsRun(roster, cs, ls) && cs != [] && f in Last(cs).nodes && g in Last(cs).nodes && f != g
    requires Packet(f, g, Prepare(b)) in Last(cs).net && b <= Last(cs).nodes[g].acceptor.promised
    ensures Continues(roster, cs, ls, cs2, ls2) && f in Last(cs2).nodes && Last(cs2).nodes[f].decided == Last(cs).nodes[f].decided
    ensures Last(cs2).nodes[f].maxSeen >= Last(cs).nodes[g].acceptor.promised
    ensures forall x | x in Last(cs).nodes && x != f :: x in Last(cs2).nodes && Last(cs2).nodes[x].acceptor == Last(cs).nodes[x].acceptor
  {
    hide IsRun;
    RosterPresent(roster, cs, ls);
    var cs1, ls1 := TakeIn(roster, cs, ls, Packet(f, g, Prepare(b)));
    PrepareAnswer(roster, cs1, ls1, |ls|, g, f, b);
    var a := Last(cs).nodes[g].acceptor;
    var m := Promise(b, false, a.promised, PromiseInfo(0, [], false));
    cs2, ls2 := TakeIn(roster, cs1, ls1, Packet(g, f, m));
    RefusalAnswer(roster, cs2, ls2, |ls1|, f, g, m, a.promised);
  }

  lemma HighestOther(roster: seq<Host>, cs: seq<Cluster>, ls: seq<Label>, f: Host) returns (g: Host)
    requires IsRun(roster, cs, ls) && cs != [] && |roster| > 1
    ensures g in roster && g != f && g in Last(cs).nodes
    ensures forall x | x in roster && x != f ::
              x in Last(cs).nodes && Last(cs).nodes[x].acceptor.promised <= Last(cs).nodes[g].acceptor.promised
  {
    hide IsRun;
    RosterPresent(roster, cs, ls);
    OthersAre(roster, f);
    var x := if roster[0] == f then roster[1] else roster[0];
    assert x in PeersOf(roster, f);
    g := PickHighest(Last(cs), PeersOf(roster, f));
  }

  /** f opens a round above every promise. */
  lemma OpenAbove(roster: seq<Host>, cs: seq<Cluster>, ls: seq<Label>, f: Host, v: Value)
      returns (cs2: seq<Cluster>, ls2: seq<Label>, b: nat)
    requires IsRun(roster, cs, ls) && cs != [] && |roster| > 1 && f in roster && f in Last(cs).nodes && Last(cs).nodes[f].decided.None?
    ensures Continues(roster, cs, ls, cs2, ls2) && f in Last(cs2).nodes && Collecting(Last(cs2).nodes[f], b, {f})
    ensures forall x | x in roster && x != f ::
              x in Last(cs2).nodes && Last(cs2).nodes[x].acceptor.promised < b && Packet(f, x, Prepare(b)) in Last(cs2).net
  {
    hide IsRun, Collecting;
    var g := HighestOther(roster, cs, ls, f);
    cs2, ls2, b := OpenAt(roster, cs, ls, f, v);
    if b <= Last(cs).nodes[g].acceptor.promised {
      assert Last(cs2).nodes[f].decided.None? by { StillOpen(Last(cs2).nodes[f], b, {f}); }
      var cs1, ls1 := Refused(roster, cs2, ls2, f, g, b);
      cs2, ls2, b := OpenAt(roster, cs1, ls1, f, v);
    }
  }

  lemma StillOpen(n: Node, b: nat, done: set<Host>)
    requires Collecting(n, b, done)
    ensures n.decided.None?
  {
  }

  // ----- the whole round -----

  lemma AllAsked(roster: seq<Host>, cs: seq<Cluster>, ls: seq<Label>, base: nat, f: Host, b: nat) returns (w: Value)
    requires IsRun(roster, cs, ls) && cs != [] && Underway(roster, cs, ls, base, f, b, Elements(roster))
    ensures Asking(roster, cs, ls, base, f, b, w)
  {
    hide IsRun, Asking;
    RosterPresent(roster, cs, ls);
    RosterSize(roster, cs, ls);
    w :| Asking(roster, cs, ls, base, f, b, w);
  }

  /** A member that has not decided leads the group through a round in which
      everyone promises, accepts, and hears of everyone else. */
  lemma WholeRound(roster: seq<Host>, cs: seq<Cluster>, ls: seq<Label>, f: Host, v: Value)
      returns (cs2: seq<Cluster>, ls2: seq<Label>, b: nat)
    requires IsRun(roster, cs, ls) && |cs| == |ls| + 1 && |roster| > 1 && f in roster && f in Last(cs).nodes && Last(cs).nodes[f].decided.None?
    ensures Continues(roster, cs, ls, cs2, ls2)
    ensures forall x, s | x in roster && s in roster :: Heard(cs2, ls2, |ls|, x, b, s)
  {
    hide IsRun, Heard, Collecting, Asking, Spread;
    var others := PeersOf(roster, f);
    RosterPresent(roster, cs, ls);
    OthersAre(roster, f);
    var cs1, ls1;
    cs1, ls1, b := OpenAbove(roster, cs, ls, f, v);
    var cs3, ls3 := GatherAll(roster, cs1, ls1, |ls|, f, b, {f}, others);
    assert {f} + Elements(others) == Elements(roster) by { PeersOfIs(roster, f); }
    var w := AllAsked(roster, cs3, ls3, |ls|, f, b);
    cs2, ls2 := AcceptAndHear(roster, cs3, ls3, |ls|, f, b, w);
  }

  lemma AcceptAndHear(roster: seq<Host>, cs: seq<Cluster>, ls: seq<Label>, base: nat, f: Host, b: nat, w: Value)
      returns (cs2: seq<Cluster>, ls2: seq<Label>)
    requires IsRun(roster, cs, ls) && |cs| == |ls| + 1 && base <= |ls| && f in roster && Asking(roster, cs, ls, base, f, b, w)
    requires forall x | x in roster && x != f :: x in Last(cs).nodes && Last(cs).nodes[x].acceptor.promised <= b
    ensures Continues(roster, cs, ls, cs2, ls2)
    ensures forall x, s | x in roster && s in roster :: Heard(cs2, ls2, base, x, b, s)
  {
    hide IsRun, Heard;
    RosterPresent(roster, cs, ls);
    OthersAre(roster, f);
    var cs1, ls1 := AcceptAll(roster, cs, ls, base, f, b, w, PeersOf(roster, f));
    SpreadKept(roster, cs, ls, cs1, ls1, base, f, b, w);
    assert forall g | g in roster :: Spread(roster, cs1, ls1, base, g, b, w);
    cs2, ls2 := AllHearAll(roster, cs1, ls1, base, b, w, roster);
    forall x, s | x in roster && s in roster ensures Heard(cs2, ls2, base, x, b, s) {
      if x == s { HeardKept(roster, cs1, ls1, cs2, ls2, base, x, b, x); }
    }
  }

  /** A group of one decides in one step. */
  lemma AloneDecides(roster: seq<Host>, cs: seq<Cluster>, ls: seq<Label>, f: Host, v: Value)
      returns (cs2: seq<Cluster>, ls2: seq<Label>, b: nat)
    requires IsRun(roster, cs, ls) && |cs| == |ls| + 1 && |roster| == 1 && f in roster && f in Last(cs).nodes && Last(cs).nodes[f].decided.None?
    ensures Continues(roster, cs, ls, cs2, ls2)
    ensures forall x, s | x in roster && s in roster :: Heard(cs2, ls2, |ls|, x, b, s)
  {
    hide IsRun, Heard;
    RosterPresent(roster, cs, ls);
    var n := Last(cs).nodes[f];
    var ev := if n.proposing then RetryTimeout else Propose(v);
    cs2, ls2 := Take(roster, cs, ls, Label(f, ev));
    var sent;
    b, sent := RoundAnswer(roster, cs2, ls2, |ls|, f);
    FreshAcceptor(roster, cs, ls, f);
    OwnHeard(cs2, ls2, |ls|, f, b);
  }

  ghost predicate AllDecided(roster: seq<Host>, s: Cluster) {
    forall x | x in roster :: x in s.nodes && s.nodes[x].decided.Some?
  }

  /** From every reachable state there is a way on, with no further crash, to
      where every participant has decided; by Agreement, on one value. */
  lemma CanDecide(roster: seq<Host>, cs: seq<Cluster>, ls: seq<Label>, v: Value) returns (cs2: seq<Cluster>, ls2: seq<Label>)
    requires IsRun(roster, cs, ls)
    ensures Continues(roster, cs, ls, cs2, ls2) && AllDecided(roster, Last(cs2))
  {
    hide IsRun, Heard;
    RosterPresent(roster, cs, ls);
    if AllDecided(roster, Last(cs)) {
      cs2, ls2 := cs, ls;
      Stays(roster, cs, ls);
    } else {
      var f :| f in roster && Last(cs).nodes[f].decided.None?;
      var b;
      if |roster| == 1 {
        cs2, ls2, b := AloneDecides(roster, cs, ls, f, v);
      } else {
        cs2, ls2, b := WholeRound(roster, cs, ls, f, v);
      }
      forall x | x in roster ensures x in Last(cs2).nodes && Last(cs2).nodes[x].decided.Some? {
        AllToldDecides(roster, cs2, ls2, |ls|, x, b);
      }
    }
  }

  // ----- a stranded participant -----

  /** A session of g with x comes up, and g says what it last accepted. */
  lemma SessionUp(roster: seq<Host>, cs: seq<Cluster>, ls: seq<Label>, x: Host, g: Host, b: nat)
      returns (cs2: seq<Cluster>, ls2: seq<Label>, w: Value)
    requires IsRun(roster, cs, ls) && cs != [] && x in roster && g in roster && g != x
    requires g in Last(cs).nodes && HoldsBallot(Last(cs).nodes[g], b)
    ensures Continues(roster, cs, ls, cs2, ls2) && Packet(g, x, Accepted(b, w)) in Last(cs2).net && x in Last(cs2).nodes
    ensures forall y | y in Last(cs).nodes :: y in Last(cs2).nodes && Last(cs2).nodes[y] == Last(cs).nodes[y]
  {
    hide IsRun, PeersOf;
    RosterPresent(roster, cs, ls);
    OthersAre(roster, g);
    cs2, ls2 := Take(roster, cs, ls, Label(g, SessionConnected(x)));
    SessionAnswer(roster, cs2, ls2, |ls|, g, x);
    w := Last(cs).nodes[g].acceptor.acceptedValue;
  }

  /** ... and x hears it. */
  lemma Reconnects(roster: seq<Host>, cs: seq<Cluster>, ls: seq<Label>, base: nat, x: Host, g: Host, b: nat)
      returns (cs2: seq<Cluster>, ls2: seq<Label>)
    requires IsRun(roster, cs, ls) && |cs| == |ls| + 1 && base <= |ls| && x in roster && g in roster && g != x
    requires g in Last(cs).nodes && HoldsBallot(Last(cs).nodes[g], b)
    ensures Continues(roster, cs, ls, cs2, ls2) && Heard(cs2, ls2, base, x, b, g)
    ensures forall y | y in Last(cs).nodes && y != x :: y in Last(cs2).nodes && Last(cs2).nodes[y] == Last(cs).nodes[y]
  {
    hide IsRun, Heard;
    var cs1, ls1, w := SessionUp(roster, cs, ls, x, g, b);
    cs2, ls2 := TakeIn(roster, cs1, ls1, Packet(g, x, Accepted(b, w)));
    HeardNow(cs2, ls2, base, x, b, w, g);
  }

  lemma {:induction false} ReconnectAll(roster: seq<Host>, cs: seq<Cluster>, ls: seq<Label>, base: nat, x: Host, b: nat, hosts: seq<Host>)
      returns (cs2: seq<Cluster>, ls2: seq<Label>)
    requires IsRun(roster, cs, ls) && |cs| == |ls| + 1 && base <= |ls| && x in roster && x !in hosts
    requires forall g | g in hosts :: g in roster && g in Last(cs).nodes && HoldsBallot(Last(cs).nodes[g], b)
    ensures Continues(roster, cs, ls, cs2, ls2) && forall g | g in hosts :: Heard(cs2, ls2, base, x, b, g)
    decreases |hosts|
  {
    hide IsRun, Heard;
    if hosts == [] {
      cs2, ls2 := cs, ls;
    } else {
      var g, rest := hosts[0], hosts[1..];
      var cs1, ls1 := Reconnects(roster, cs, ls, base, x, g, b);
      cs2, ls2 := ReconnectAll(roster, cs1, ls1, base, x, b, rest);
      HeardKept(roster, cs1, ls1, cs2, ls2, base, x, b, g);
      assert forall y | y in hosts :: y == g || y in rest;
    }
  }

  /** A stranded participant learns on reconnect: when members other than it hold
      one accepted ballot and are a majority, sessions with them are enough for it
      to decide. */
  lemma StrandedLearns(roster: seq<Host>, cs: seq<Cluster>, ls: seq<Label>, x: Host, b: nat, hosts: seq<Host>)
      returns (cs2: seq<Cluster>, ls2: seq<Label>)
    requires IsRun(roster, cs, ls) && cs != [] && x in roster && x !in hosts && Majority(Elements(roster), Elements(hosts))
    requires forall g | g in hosts :: g in Last(cs).nodes && HoldsBallot(Last(cs).nodes[g], b)
    ensures Continues(roster, cs, ls, cs2, ls2) && x in Last(cs2).nodes && Last(cs2).nodes[x].decided.Some?
  {
    hide IsRun, Heard;
    RosterPresent(roster, cs, ls);
    assert forall g | g in hosts :: g in Elements(hosts) && g in Elements(roster);
    cs2, ls2 := ReconnectAll(roster, cs, ls, |ls|, x, b, hosts);
    ToldDecides(roster, cs2, ls2, |ls|, x, b, Elements(hosts));
  }
}
