/** What a folded world holds, said of the trace alone: of each pair, host and
    protocol, the last event that concerns it decides. */
module FoldMeaning {
  import opened Foundation
  import opened FoldModel

  // ----- the last event of a kind -----

  /** Among the first n events, i is the last that satisfies p. */
  ghost predicate IsLast(events: seq<TraceEvent>, n: nat, p: TraceEvent -> bool, i: int) {
    n <= |events| && 0 <= i < n && p(events[i]) && forall j | i < j < n :: !p(events[j])
  }

  ghost predicate Never(events: seq<TraceEvent>, n: nat, p: TraceEvent -> bool) {
    n <= |events| && forall j | 0 <= j < n :: !p(events[j])
  }

  /** The last event that satisfies `any` also satisfies `up`. */
  ghost predicate LastIs(events: seq<TraceEvent>, n: nat, up: TraceEvent -> bool, any: TraceEvent -> bool) {
    exists i :: IsLast(events, n, any, i) && up(events[i])
  }

  lemma LastIsStep(events: seq<TraceEvent>, n: nat, up: TraceEvent -> bool, any: TraceEvent -> bool)
    requires n < |events|
    ensures LastIs(events, n + 1, up, any) <==> if any(events[n]) then up(events[n]) else LastIs(events, n, up, any)
  {
    if any(events[n]) {
      assert IsLast(events, n + 1, any, n);
      if i :| IsLast(events, n + 1, any, i) && up(events[i]) { assert i == n; }
    } else {
      if i :| IsLast(events, n + 1, any, i) && up(events[i]) { assert IsLast(events, n, any, i); }
      if i :| IsLast(events, n, any, i) && up(events[i]) { assert IsLast(events, n + 1, any, i); }
    }
  }

  lemma LastIsStart(events: seq<TraceEvent>, up: TraceEvent -> bool, any: TraceEvent -> bool)
    ensures !LastIs(events, 0, up, any)
  {
  }

  // ----- sessions -----

  /** A session event of this pair that opens or closes it. */
  predicate OfSession(e: TraceEvent, pair: Pair) {
    && e.body.SessionBody? && e.body.node != "" && e.body.peer != "" && pair == {e.body.node, e.body.peer}
    && (e.body.event == "connected" || e.body.event == "disconnected" || e.body.event == "failed")
  }

  predicate Connects(e: TraceEvent) {
    e.body.SessionBody? && e.body.event == "connected"
  }

  /** A pair is in session if and only if its last session event connected it. */
  lemma {:induction false} SessionsAre(events: seq<TraceEvent>, n: nat, pair: Pair)
    requires n <= |events|
    ensures pair in FoldTo(events, n).sessions <==> LastIs(events, n, Connects, e => OfSession(e, pair))
  {
    hide LastIs, ApplyFault, Recorded;
    if n == 0 {
      LastIsStart(events, Connects, e => OfSession(e, pair));
    } else {
      SessionsAre(events, n - 1, pair);
      LastIsStep(events, n - 1, Connects, e => OfSession(e, pair));
    }
  }

  // ----- nodes -----

  predicate Announces(e: TraceEvent, host: Name) {
    e.body.NodeBody? && e.body.host == host && host != ""
  }

  /** a was announced before b was. */
  ghost predicate SeenBefore(events: seq<TraceEvent>, n: nat, a: Name, b: Name)
    requires n <= |events|
  {
    exists i :: 0 <= i < n && Announces(events[i], a) && forall j | 0 <= j <= i :: !Announces(events[j], b)
  }

  /** The nodes are the hosts announced, each once, by first appearance. */
  lemma {:induction false} NodesAre(events: seq<TraceEvent>, n: nat)
    requires n <= |events|
    ensures var nodes := FoldTo(events, n).nodes;
            && NoDuplicates(nodes)
            && (forall h :: h in nodes <==> exists i :: 0 <= i < n && Announces(events[i], h))
            && (forall x, y | 0 <= x < y < |nodes| :: SeenBefore(events, n, nodes[x], nodes[y]))
  {
    hide ApplyFault, Recorded, SeenBefore;
    if n > 0 {
      NodesAre(events, n - 1);
      var was, nodes, e := FoldTo(events, n - 1).nodes, FoldTo(events, n).nodes, events[n - 1];
      assert nodes == if e.body.NodeBody? && e.body.host != "" && e.body.host !in was then was + [e.body.host] else was;
      forall h ensures h in nodes <==> exists i :: 0 <= i < n && Announces(events[i], h) {
        if h in was {
          var i :| 0 <= i < n - 1 && Announces(events[i], h);
        }
        if Announces(e, h) { assert Announces(events[n - 1], h); }
      }
      forall x, y | 0 <= x < y < |nodes| ensures SeenBefore(events, n, nodes[x], nodes[y]) {
        if y < |was| {
          assert SeenBefore(events, n - 1, was[x], was[y]);
          SeenStill(events, n - 1, was[x], was[y]);
        } else {
          assert was[x] in was;
          FirstTime(events, n, was[x], e.body.host);
        }
      }
    }
  }

  lemma SeenStill(events: seq<TraceEvent>, n: nat, a: Name, b: Name)
    requires n < |events| && SeenBefore(events, n, a, b)
    ensures SeenBefore(events, n + 1, a, b)
  {
    var i :| 0 <= i < n && Announces(events[i], a) && forall j | 0 <= j <= i :: !Announces(events[j], b);
    assert 0 <= i < n + 1 && Announces(events[i], a);
  }

  lemma FirstTime(events: seq<TraceEvent>, n: nat, a: Name, b: Name)
    requires 0 < n <= |events| && (exists i :: 0 <= i < n - 1 && Announces(events[i], a))
    requires !(exists i :: 0 <= i < n - 1 && Announces(events[i], b))
    ensures SeenBefore(events, n, a, b)
  {
    var i :| 0 <= i < n - 1 && Announces(events[i], a);
    assert forall j | 0 <= j <= i :: !Announces(events[j], b);
    assert 0 <= i < n && Announces(events[i], a);
  }

  // ----- faults -----

  predicate OfPair(e: TraceEvent, mutation: string, pair: Pair) {
    e.body.FaultBody? && e.body.mutation == mutation && |e.body.nodes| >= 2 && pair == {e.body.nodes[0], e.body.nodes[1]}
  }

  predicate CutOrHealed(e: TraceEvent, pair: Pair) {
    OfPair(e, "cut", pair) || OfPair(e, "heal", pair)
  }

  predicate LossOrHealed(e: TraceEvent, pair: Pair) {
    OfPair(e, "loss", pair) || OfPair(e, "heal", pair)
  }

  predicate DelayOrHealed(e: TraceEvent, pair: Pair) {
    OfPair(e, "delay", pair) || OfPair(e, "heal", pair)
  }

  predicate Isolates(e: TraceEvent, host: Name) {
    e.body.FaultBody? && e.body.mutation == "isolate" && |e.body.nodes| >= 1 && e.body.nodes[0] == host
  }

  predicate IsolatedOrHealed(e: TraceEvent, host: Name) {
    Isolates(e, host) || (e.body.FaultBody? && e.body.mutation == "heal" && |e.body.nodes| == 1 && e.body.nodes[0] == host)
  }

  /** The drop probability a loss event states: its number p, or certainty. */
  predicate StatesLoss(e: TraceEvent, p: real) {
    e.body.FaultBody? && p == if "p" in e.body.params && e.body.params["p"].JNum? then e.body.params["p"].num else 1.0
  }

  /** One event's effect on the faults of a pair. */
  lemma FaultStep(f: Faults, e: TraceEvent, pair: Pair)
    requires e.body.FaultBody?
    ensures var g := ApplyFault(f, e.body.mutation, e.body.nodes, e.body.params);
            && (pair in g.cutPairs <==> if CutOrHealed(e, pair) then OfPair(e, "cut", pair) else pair in f.cutPairs)
            && (pair in g.lossy <==> if LossOrHealed(e, pair) then OfPair(e, "loss", pair) else pair in f.lossy)
            && (pair in g.lossy ==> if OfPair(e, "loss", pair) then StatesLoss(e, g.lossy[pair]) else pair in f.lossy && g.lossy[pair] == f.lossy[pair])
            && (pair in g.delayed <==> if DelayOrHealed(e, pair) then OfPair(e, "delay", pair) else pair in f.delayed)
            && (pair in g.delayed ==>
                  if OfPair(e, "delay", pair) then g.delayed[pair] == e.body.params else pair in f.delayed && g.delayed[pair] == f.delayed[pair])
  {
  }

  lemma IsolationStep(f: Faults, e: TraceEvent, host: Name)
    requires e.body.FaultBody?
    ensures var g := ApplyFault(f, e.body.mutation, e.body.nodes, e.body.params);
            host in g.isolated <==> if IsolatedOrHealed(e, host) then Isolates(e, host) else host in f.isolated
  {
  }

  /** A pair is cut if and only if the last cut or heal of it was a cut. */
  lemma {:induction false} CutsAre(events: seq<TraceEvent>, n: nat, pair: Pair)
    requires n <= |events|
    ensures pair in FoldTo(events, n).faults.cutPairs <==> LastIs(events, n, e => OfPair(e, "cut", pair), e => CutOrHealed(e, pair))
  {
    hide LastIs, ApplyFault, Recorded;
    if n == 0 {
      LastIsStart(events, e => OfPair(e, "cut", pair), e => CutOrHealed(e, pair));
    } else {
      CutsAre(events, n - 1, pair);
      LastIsStep(events, n - 1, e => OfPair(e, "cut", pair), e => CutOrHealed(e, pair));
      if events[n - 1].body.FaultBody? { FaultStep(FoldTo(events, n - 1).faults, events[n - 1], pair); }
    }
  }

  /** A host is isolated if and only if the last isolation or heal of it alone
      was an isolation. */
  lemma {:induction false} IsolationsAre(events: seq<TraceEvent>, n: nat, host: Name)
    requires n <= |events|
    ensures host in FoldTo(events, n).faults.isolated <==> LastIs(events, n, e => Isolates(e, host), e => IsolatedOrHealed(e, host))
  {
    hide LastIs, ApplyFault, Recorded;
    if n == 0 {
      LastIsStart(events, e => Isolates(e, host), e => IsolatedOrHealed(e, host));
    } else {
      IsolationsAre(events, n - 1, host);
      LastIsStep(events, n - 1, e => Isolates(e, host), e => IsolatedOrHealed(e, host));
      if events[n - 1].body.FaultBody? { IsolationStep(FoldTo(events, n - 1).faults, events[n - 1], host); }
    }
  }

  /** A link loses messages with probability p if and only if the last loss or
      heal of it was a loss that states p. */
  lemma {:induction false} LossesAre(events: seq<TraceEvent>, n: nat, pair: Pair, p: real)
    requires n <= |events|
    ensures (pair in FoldTo(events, n).faults.lossy && FoldTo(events, n).faults.lossy[pair] == p) <==>
            LastIs(events, n, e => OfPair(e, "loss", pair) && StatesLoss(e, p), e => LossOrHealed(e, pair))
  {
    hide LastIs, ApplyFault, Recorded;
    if n == 0 {
      LastIsStart(events, e => OfPair(e, "loss", pair) && StatesLoss(e, p), e => LossOrHealed(e, pair));
    } else {
      LossesAre(events, n - 1, pair, p);
      LastIsStep(events, n - 1, e => OfPair(e, "loss", pair) && StatesLoss(e, p), e => LossOrHealed(e, pair));
      if events[n - 1].body.FaultBody? { FaultStep(FoldTo(events, n - 1).faults, events[n - 1], pair); }
    }
  }

  /** A link is delayed with these parameters if and only if the last delay or
      heal of it was a delay that carried them. */
  lemma {:induction false} DelaysAre(events: seq<TraceEvent>, n: nat, pair: Pair, params: map<string, Json>)
    requires n <= |events|
    ensures (pair in FoldTo(events, n).faults.delayed && FoldTo(events, n).faults.delayed[pair] == params) <==>
            LastIs(events, n, e => OfPair(e, "delay", pair) && e.body.params == params, e => DelayOrHealed(e, pair))
  {
    hide LastIs, ApplyFault, Recorded;
    if n == 0 {
      LastIsStart(events, e => OfPair(e, "delay", pair) && e.body.params == params, e => DelayOrHealed(e, pair));
    } else {
      DelaysAre(events, n - 1, pair, params);
      LastIsStep(events, n - 1, e => OfPair(e, "delay", pair) && e.body.params == params, e => DelayOrHealed(e, pair));
      if events[n - 1].body.FaultBody? { FaultStep(FoldTo(events, n - 1).faults, events[n - 1], pair); }
    }
  }

  // ----- snapshots -----

  predicate Sees(e: TraceEvent, node: Name, protocol: string) {
    e.body.StateBody? && e.body.node == node && e.body.protocol == protocol && node != "" && protocol != ""
  }

  /** A sighting of another state than s. */
  predicate SeesOther(e: TraceEvent, node: Name, protocol: string, s: Json) {
    Sees(e, node, protocol) && e.body.state != s
  }

  predicate HasSnapshot(w: World, node: Name, protocol: string) {
    node in w.state && protocol in w.state[node]
  }

  function SnapshotOf(w: World, node: Name, protocol: string): Snapshot
    requires HasSnapshot(w, node, protocol)
  {
    w.state[node][protocol]
  }

  /** Among the first n events, i is the last sighting. */
  ghost predicate LastSeen(events: seq<TraceEvent>, n: nat, node: Name, protocol: string, i: int) {
    IsLast(events, n, e => Sees(e, node, protocol), i)
  }

  /** s is the snapshot the trace calls for when the last sighting is event i. */
  ghost predicate Shows(events: seq<TraceEvent>, node: Name, protocol: string, i: nat, s: Snapshot)
    requires i < |events| && events[i].body.StateBody?
  {
    var now := events[i].body.state;
    && s.state == now && s.step == events[i].step
    && (Never(events, i, e => SeesOther(e, node, protocol, now)) ==> s.prev == None && s.prevStep == -1)
    && (forall j | IsLast(events, i, e => SeesOther(e, node, protocol, now), j) ::
          s.prev == Some(events[j].body.state) && s.prevStep == events[j].step)
  }

  lemma StateStep(w: World, e: TraceEvent, node: Name, protocol: string)
    ensures var w2 := Apply(w, e);
            if Sees(e, node, protocol) then
              && HasSnapshot(w2, node, protocol)
              && SnapshotOf(w2, node, protocol) ==
                 if !HasSnapshot(w, node, protocol) then Snapshot(e.body.state, e.step, None, -1)
                 else if SnapshotOf(w, node, protocol).state == e.body.state then SnapshotOf(w, node, protocol).(step := e.step)
                 else Snapshot(e.body.state, e.step, Some(SnapshotOf(w, node, protocol).state), SnapshotOf(w, node, protocol).step)
            else
              && (HasSnapshot(w2, node, protocol) <==> HasSnapshot(w, node, protocol))
              && (HasSnapshot(w, node, protocol) ==> SnapshotOf(w2, node, protocol) == SnapshotOf(w, node, protocol))
  {
  }

  /** A snapshot holds the last state recorded, the step of its last sighting,
      and as its predecessor the last different state, with the step it was last
      seen at. */
  lemma {:induction false} SnapshotsAre(events: seq<TraceEvent>, n: nat, node: Name, protocol: string)
    requires n <= |events|
    ensures HasSnapshot(FoldTo(events, n), node, protocol) <==> !Never(events, n, e => Sees(e, node, protocol))
    ensures forall i | LastSeen(events, n, node, protocol, i) ::
              HasSnapshot(FoldTo(events, n), node, protocol) && Shows(events, node, protocol, i, SnapshotOf(FoldTo(events, n), node, protocol))
  {
    hide Apply, Shows, HasSnapshot;
    if n == 0 {
      NoSnapshot(node, protocol);
    } else {
      SnapshotsAre(events, n - 1, node, protocol);
      var w, e := FoldTo(events, n - 1), events[n - 1];
      StateStep(w, e, node, protocol);
      var sees := (x: TraceEvent) => Sees(x, node, protocol);
      assert Sees(e, node, protocol) ==> LastSeen(events, n, node, protocol, n - 1);
      if Sees(e, node, protocol) {
        if HasSnapshot(w, node, protocol) {
          var i := FindLast(events, n - 1, sees);
          assert LastSeen(events, n - 1, node, protocol, i);
          ShowsNext(events, node, protocol, i, n - 1, SnapshotOf(w, node, protocol), SnapshotOf(Apply(w, e), node, protocol));
        } else {
          ShowsFirst(events, node, protocol, n - 1, SnapshotOf(Apply(w, e), node, protocol));
        }
      } else {
        assert forall i | LastSeen(events, n, node, protocol, i) :: LastSeen(events, n - 1, node, protocol, i);
      }
    }
  }

  lemma NoSnapshot(node: Name, protocol: string)
    ensures !HasSnapshot(EmptyWorld, node, protocol)
  {
  }

  lemma {:induction false} FindLast(events: seq<TraceEvent>, n: nat, p: TraceEvent -> bool) returns (i: nat)
    requires n <= |events| && !Never(events, n, p)
    ensures IsLast(events, n, p, i)
  {
    if p(events[n - 1]) {
      i := n - 1;
    } else {
      i := FindLast(events, n - 1, p);
    }
  }

  lemma ShowsFirst(events: seq<TraceEvent>, node: Name, protocol: string, k: nat, s: Snapshot)
    requires k < |events| && Sees(events[k], node, protocol) && Never(events, k, e => Sees(e, node, protocol))
    requires s == Snapshot(events[k].body.state, events[k].step, None, -1)
    ensures Shows(events, node, protocol, k, s)
  {
  }

  lemma ShowsNext(events: seq<TraceEvent>, node: Name, protocol: string, i: nat, k: nat, s: Snapshot, s2: Snapshot)
    requires k < |events| && Sees(events[k], node, protocol) && IsLast(events, k, e => Sees(e, node, protocol), i)
    requires Shows(events, node, protocol, i, s)
    requires s2 == if s.state == events[k].body.state then s.(step := events[k].step)
                   else Snapshot(events[k].body.state, events[k].step, Some(s.state), s.step)
    ensures Shows(events, node, protocol, k, s2)
  {
    var now := events[k].body.state;
    var other := (e: TraceEvent) => SeesOther(e, node, protocol, now);
    if s.state == now {
      assert Never(events, k, other) ==> Never(events, i, other);
      forall j | IsLast(events, k, other, j) ensures IsLast(events, i, other, j) {
        assert Sees(events[j], node, protocol) && j != i;
      }
    } else {
      assert other(events[i]);
      forall j | IsLast(events, k, other, j) ensures j == i {
        assert Sees(events[j], node, protocol);
      }
    }
  }
}
