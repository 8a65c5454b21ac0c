/** The trace viewer's world state as a plain fold over events. */
module FoldModel {
  import opened Foundation

  type Name = string

  /** An unordered pair of hosts. */
  type Pair = set<Name>

  datatype Json =
    | JNull
    | JBool(flag: bool)
    | JNum(num: real)
    | JStr(text: string)
    | JArr(items: seq<Json>)
    | JObj(members: map<string, Json>)

  datatype Body =
    | NodeBody(host: Name)
    | SessionBody(node: Name, peer: Name, event: string)
    | FaultBody(mutation: string, nodes: seq<Name>, params: map<string, Json>)
    | StateBody(node: Name, protocol: string, state: Json)
    | OtherBody

  /** An event; an empty name stands for a missing field. */
  datatype TraceEvent = TraceEvent(step: int, body: Body)

  /** The latest snapshot of a (node, protocol) and the last different one. */
  datatype Snapshot = Snapshot(state: Json, step: int, prev: Option<Json>, prevStep: int)

  /** The injected faults in force. */
  datatype Faults = Faults(
    cutPairs: set<Pair>,
    isolated: set<Name>,
    lossy: map<Pair, real>,
    delayed: map<Pair, map<string, Json>>)

  /** The snapshots of one node, by protocol, and of all nodes. */
  type Snapshots = map<string, Snapshot>
  type States = map<Name, Snapshots>

  datatype World = World(nodes: seq<Name>, sessions: set<Pair>, state: States, faults: Faults)

  const NoFaults := Faults({}, {}, map[], map[])

  const EmptyWorld := World([], {}, map[], NoFaults)

  function PairKey(a: Name, b: Name): Pair {
    {a, b}
  }

  function LossOf(params: map<string, Json>): real {
    if "p" in params && params["p"].JNum? then params["p"].num else 1.0
  }

  function ApplyFault(f: Faults, mutation: string, nodes: seq<Name>, params: map<string, Json>): Faults {
    if mutation == "isolate" then
      if |nodes| >= 1 then f.(isolated := f.isolated + {nodes[0]}) else f
    else if |nodes| >= 2 then
      var key := PairKey(nodes[0], nodes[1]);
      if mutation == "cut" then f.(cutPairs := f.cutPairs + {key})
      else if mutation == "heal" then
        f.(cutPairs := f.cutPairs - {key}, lossy := f.lossy - {key}, delayed := f.delayed - {key})
      else if mutation == "loss" then f.(lossy := f.lossy[key := LossOf(params)])
      else if mutation == "delay" then f.(delayed := f.delayed[key := params])
      else f
    else if |nodes| == 1 && mutation == "heal" then f.(isolated := f.isolated - {nodes[0]})
    else f
  }

  /** A repeated snapshot only refreshes its step. */
  function Sighting(last: Option<Snapshot>, state: Json, step: int): Snapshot {
    match last
    case None => Snapshot(state, step, None, -1)
    case Some(s) => if s.state != state then Snapshot(state, step, Some(s.state), s.step) else s.(step := step)
  }

  function RecordedIn(ps: Snapshots, protocol: string, state: Json, step: int): Snapshots {
    ps[protocol := Sighting(if protocol in ps then Some(ps[protocol]) else None, state, step)]
  }

  function Recorded(st: States, node: Name, protocol: string, state: Json, step: int): States {
    st[node := RecordedIn(if node in st then st[node] else map[], protocol, state, step)]
  }

  function Apply(w: World, ev: TraceEvent): World {
    match ev.body
    case NodeBody(h) => if h != "" && h !in w.nodes then w.(nodes := w.nodes + [h]) else w
    case SessionBody(n, p, e) =>
      if n == "" || p == "" then w
      else if e == "connected" then w.(sessions := w.sessions + {PairKey(n, p)})
      else if e == "disconnected" || e == "failed" then w.(sessions := w.sessions - {PairKey(n, p)})
      else w
    case FaultBody(m, ns, ps) => w.(faults := ApplyFault(w.faults, m, ns, ps))
    case StateBody(n, p, s) =>
      if n == "" || p == "" then w
      else w.(state := Recorded(w.state, n, p, s, ev.step))
    case OtherBody => w
  }

  /** The plain fold of the first n events. */
  function FoldTo(events: seq<TraceEvent>, n: nat): World
    requires n <= |events|
  {
    if n == 0 then EmptyWorld else Apply(FoldTo(events, n - 1), events[n - 1])
  }

  function Fold(events: seq<TraceEvent>): World {
    FoldTo(events, |events|)
  }

  lemma {:induction false} FoldToPrefix(a: seq<TraceEvent>, b: seq<TraceEvent>, n: nat)
    requires n <= |a| && n <= |b| && a[..n] == b[..n]
    ensures FoldTo(a, n) == FoldTo(b, n)
  {
    if n > 0 {
      assert a[..n - 1] == a[..n][..n - 1] && b[..n - 1] == b[..n][..n - 1];
      FoldToPrefix(a, b, n - 1);
      assert a[n - 1] == a[..n][n - 1] && b[n - 1] == b[..n][n - 1];
    }
  }

  // ----- steps -----

  /** Steps are counters that never go back. */
  predicate StepSorted(events: seq<TraceEvent>) {
    && (forall i | 0 <= i < |events| :: 0 <= events[i].step)
    && forall i, j | 0 <= i <= j < |events| :: events[i].step <= events[j].step
  }

  /** The events stamped at or before step s. */
  function UpTo(events: seq<TraceEvent>, s: int): seq<TraceEvent> {
    if events == [] then []
    else
      var front := UpTo(events[..|events| - 1], s);
      if events[|events| - 1].step <= s then front + [events[|events| - 1]] else front
  }

  /** In a step-sorted trace these are a prefix. */
  lemma {:induction false} UpToIsPrefix(events: seq<TraceEvent>, s: int, n: nat)
    requires n <= |events|
    requires forall i | 0 <= i < n :: events[i].step <= s
    requires forall i | n <= i < |events| :: events[i].step > s
    ensures UpTo(events, s) == events[..n]
  {
    if events != [] {
      var m := |events| - 1;
      var front := events[..m];
      if n == |events| {
        UpToIsPrefix(front, s, m);
        assert events[..n] == front[..m] + [events[m]];
      } else {
        UpToIsPrefix(front, s, n);
        assert events[..n] == front[..n];
      }
    }
  }
}
