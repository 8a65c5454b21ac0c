/** Worlds as the viewer holds them: every list, set, map and slot is a mutable
    object, and a copy of a world must copy each of them. */
module FoldWorld {
  import opened Foundation
  import opened FoldModel

  class Slot {
    var state: Json
    var step: int
    var prev: Option<Json>
    var prevStep: int

    constructor (v: Snapshot)
      ensures Value() == v
    {
      state, step, prev, prevStep := v.state, v.step, v.prev, v.prevStep;
    }

    function Value(): Snapshot
      reads this
    {
      Snapshot(state, step, prev, prevStep)
    }
  }

  /** The slots of one node, by protocol: mutable objects, none of them shared. */
  class ProtocolMap {
    var slots: map<string, Slot>
    ghost var Repr: set<object>

    ghost predicate Valid()
      reads this, Repr
      ensures Valid() ==> this in Repr
    {
      && this in Repr
      && (forall k | k in slots :: slots[k] in Repr)
      && (forall j, k | j in slots && k in slots && slots[j] == slots[k] :: j == k)
    }

    ghost function Value(): Snapshots
      requires Valid()
      reads this, Repr
    {
      map k | k in slots :: slots[k].Value()
    }

    constructor ()
      ensures Valid() && fresh(Repr) && Value() == map[]
    {
      slots := map[];
      new;
      Repr := {this};
      assert Value() == map[];
    }

    method Put(key: string, v: Snapshot)
      requires Valid()
      modifies this
      ensures Valid() && fresh(Repr - old(Repr)) && old(Repr) <= Repr && Value() == old(Value())[key := v]
    {
      var s := new Slot(v);
      slots := slots[key := s];
      Repr := Repr + {s};
    }

    /** Rotates the slot when the snapshot changed; otherwise only its step is
        updated, in place. */
    method Record(key: string, snap: Json, at: int)
      requires Valid()
      modifies Repr
      ensures Valid() && fresh(Repr - old(Repr)) && old(Repr) <= Repr
      ensures Value() == RecordedIn(old(Value()), key, snap, at)
    {
      if key !in slots {
        Put(key, Snapshot(snap, at, None, -1));
      } else if slots[key].state != snap {
        Put(key, Snapshot(snap, at, Some(slots[key].state), slots[key].step));
      } else {
        Refresh(key, at);
      }
    }

    method Refresh(key: string, at: int)
      requires Valid() && key in slots
      modifies slots[key]
      ensures Valid() && Repr == old(Repr) && Value() == old(Value())[key := old(Value())[key].(step := at)]
    {
      var existing := slots[key];
      existing.step := at;
    }

    method Read(key: string) returns (v: Snapshot)
      requires Valid() && key in slots
      ensures key in Value() && v == Value()[key]
    {
      v := slots[key].Value();
    }

    lemma ValueKeys()
      requires Valid()
      ensures Value().Keys == slots.Keys
    {
    }

    method CopyOne(t: ProtocolMap, key: string)
      requires Valid() && t.Valid() && key in slots && t.Repr !! Repr
      modifies t.Repr
      ensures t.Valid() && fresh(t.Repr - old(t.Repr)) && t.Repr !! Repr
      ensures Valid() && Value() == old(Value()) && key in Value() && t.Value() == old(t.Value())[key := Value()[key]]
    {
      hide ProtocolMap.Valid, ProtocolMap.Value;
      var v := Read(key);
      t.Put(key, v);
    }

    method Clone() returns (t: ProtocolMap)
      requires Valid()
      ensures t.Valid() && fresh(t.Repr) && t.Value() == Value()
    {
      hide ProtocolMap.Valid, ProtocolMap.Value;
      t := new ProtocolMap();
      ValueKeys();
      ghost var all := Value();
      var todo := slots.Keys;
      while todo != {}
        invariant todo <= slots.Keys && t.Valid() && fresh(t.Repr) && t.Repr !! Repr
        invariant Valid() && Value() == all && all.Keys == slots.Keys && t.Value() == all - todo
        decreases |todo|
      {
        var k :| k in todo;
        CopyOne(t, k);
        MoreCopied(all, todo, k);
        todo := todo - {k};
      }
    }
  }

  lemma MoreCopied<K, V>(all: map<K, V>, todo: set<K>, k: K)
    requires k in all && k in todo
    ensures (all - todo)[k := all[k]] == all - (todo - {k})
  {
  }

  /** The protocol maps of all nodes: objects that share nothing. */
  class NodeMap {
    var maps: map<Name, ProtocolMap>
    ghost var Repr: set<object>

    ghost predicate Owns(n: Name)
      requires n in maps
      reads this, Repr
    {
      maps[n] in Repr && maps[n].Repr <= Repr && this !in maps[n].Repr && maps[n].Valid()
    }

    ghost predicate Valid()
      reads this, Repr
      ensures Valid() ==> this in Repr
    {
      && this in Repr
      && (forall n | n in maps :: Owns(n))
      && (forall m, n | m in maps && n in maps && m != n :: maps[m].Repr !! maps[n].Repr)
    }

    ghost function Value(): States
      requires Valid()
      reads this, Repr
    {
      map n | n in maps :: assert Owns(n); maps[n].Value()
    }

    constructor ()
      ensures Valid() && fresh(Repr) && Value() == map[]
    {
      maps := map[];
      new;
      Repr := {this};
      assert Value() == map[];
    }

    /** Installs a map of the node's own. */
    method Install(node: Name, t: ProtocolMap)
      requires Valid() && t.Valid() && t.Repr !! Repr
      modifies this
      ensures Valid() && Repr == old(Repr) + t.Repr && Value() == old(Value())[node := t.Value()]
      ensures maps == old(maps)[node := t]
    {
      hide ProtocolMap.Valid, ProtocolMap.Value;
      maps := maps[node := t];
      Repr := Repr + t.Repr;
      forall n | n in maps ensures Owns(n) {
        if n != node { assert old(Owns(n)); }
      }
    }

    method Update(node: Name, protocol: string, snap: Json, at: int)
      requires Valid() && node in maps
      modifies Repr
      ensures Valid() && fresh(Repr - old(Repr)) && old(Repr) <= Repr && node in old(Value())
      ensures Value() == old(Value())[node := RecordedIn(old(Value())[node], protocol, snap, at)]
    {
      hide ProtocolMap.Valid, ProtocolMap.Value, RecordedIn;
      assert Owns(node);
      ghost var was := maps[node].Repr;
      maps[node].Record(protocol, snap, at);
      Repr := Repr + maps[node].Repr;
      forall n | n in maps ensures Owns(n) && (n != node ==> maps[n].Repr == old(maps[n].Repr) && maps[n].Value() == old(maps[n].Value())) {
        assert old(Owns(n));
        if n != node { assert maps[n].Repr !! was; }
      }
    }

    method Record(node: Name, protocol: string, snap: Json, at: int)
      requires Valid()
      modifies Repr
      ensures Valid() && fresh(Repr - old(Repr)) && old(Repr) <= Repr
      ensures Value() == Recorded(old(Value()), node, protocol, snap, at)
    {
      hide NodeMap.Valid, NodeMap.Value, RecordedIn;
      ValueKeys();
      if node !in maps {
        var t := new ProtocolMap();
        Install(node, t);
      }
      Update(node, protocol, snap, at);
    }

    lemma ValueKeys()
      requires Valid()
      ensures Value().Keys == maps.Keys
    {
    }

    method CopyOne(t: NodeMap, node: Name)
      requires Valid() && t.Valid() && node in maps && t.Repr !! Repr
      modifies t
      ensures t.Valid() && fresh(t.Repr - old(t.Repr)) && t.Repr !! Repr
      ensures Valid() && Value() == old(Value()) && node in Value() && t.Value() == old(t.Value())[node := Value()[node]]
    {
      var c := CopyMap(node);
      hide NodeMap.Valid, NodeMap.Value, ProtocolMap.Valid, ProtocolMap.Value;
      t.Install(node, c);
    }

    method CopyMap(node: Name) returns (c: ProtocolMap)
      requires Valid() && node in maps
      ensures c.Valid() && fresh(c.Repr) && node in Value() && c.Value() == Value()[node]
    {
      hide ProtocolMap.Valid, ProtocolMap.Value;
      assert Owns(node);
      c := maps[node].Clone();
    }

    method Clone() returns (t: NodeMap)
      requires Valid()
      ensures t.Valid() && fresh(t.Repr) && t.Value() == Value()
    {
      hide NodeMap.Valid, NodeMap.Value;
      t := new NodeMap();
      ValueKeys();
      ghost var all := Value();
      var todo := maps.Keys;
      while todo != {}
        invariant todo <= maps.Keys && t.Valid() && fresh(t.Repr) && t.Repr !! Repr
        invariant Valid() && Value() == all && all.Keys == maps.Keys && t.Value() == all - todo
        decreases |todo|
      {
        var n :| n in todo;
        CopyOne(t, n);
        MoreCopied(all, todo, n);
        todo := todo - {n};
      }
    }
  }

  /** A mutable list, set or map. */
  class Cell<T> {
    var value: T

    constructor (v: T)
      ensures value == v
    {
      value := v;
    }
  }

  /** The four containers of injected faults. */
  class FaultTable {
    const cutPairs: Cell<set<Pair>>
    const isolated: Cell<set<Name>>
    const lossy: Cell<map<Pair, real>>
    const delayed: Cell<map<Pair, map<string, Json>>>
    ghost const Repr: set<object>

    ghost predicate Valid() {
      && Repr == {this, cutPairs, isolated, lossy, delayed}
      && (cutPairs as object) != isolated && (cutPairs as object) != lossy && (cutPairs as object) != delayed
      && (isolated as object) != lossy && (isolated as object) != delayed && (lossy as object) != delayed
    }

    ghost function Value(): Faults
      reads cutPairs, isolated, lossy, delayed
    {
      Faults(cutPairs.value, isolated.value, lossy.value, delayed.value)
    }

    /** New containers with these contents. */
    constructor (f: Faults)
      ensures Valid() && fresh(Repr) && Value() == f
    {
      var c := new Cell(f.cutPairs);
      var i := new Cell(f.isolated);
      var l := new Cell(f.lossy);
      var d := new Cell(f.delayed);
      cutPairs, isolated, lossy, delayed := c, i, l, d;
      Repr := {this, c, i, l, d};
    }

    /** One fault event, in place. */
    method ApplyFaultEvent(mutation: string, ns: seq<Name>, params: map<string, Json>)
      requires Valid()
      modifies cutPairs, isolated, lossy, delayed
      ensures Value() == ApplyFault(old(Value()), mutation, ns, params)
    {
      if mutation == "cut" {
        if |ns| >= 2 { cutPairs.value := cutPairs.value + {PairKey(ns[0], ns[1])}; }
      } else if mutation == "heal" {
        if |ns| >= 2 {
          cutPairs.value := cutPairs.value - {PairKey(ns[0], ns[1])};
          lossy.value := lossy.value - {PairKey(ns[0], ns[1])};
          delayed.value := delayed.value - {PairKey(ns[0], ns[1])};
        } else if |ns| == 1 {
          isolated.value := isolated.value - {ns[0]};
        }
      } else if mutation == "isolate" {
        if |ns| >= 1 { isolated.value := isolated.value + {ns[0]}; }
      } else if mutation == "loss" {
        if |ns| >= 2 { lossy.value := lossy.value[PairKey(ns[0], ns[1]) := LossOf(params)]; }
      } else if mutation == "delay" {
        if |ns| >= 2 { delayed.value := delayed.value[PairKey(ns[0], ns[1]) := params]; }
      }
    }

    method Clone() returns (t: FaultTable)
      ensures t.Valid() && fresh(t.Repr) && t.Value() == Value()
    {
      t := new FaultTable(Faults(cutPairs.value, isolated.value, lossy.value, delayed.value));
    }
  }

  class WorldState {
    var idx: int
    var step: int
    const nodes: Cell<seq<Name>>
    const sessions: Cell<set<Pair>>
    const table: NodeMap
    const faults: FaultTable
    var current: seq<TraceEvent>
    ghost var Repr: set<object>

    /** The containers of a world are its own: none is shared, within the world
        or with another one whose Repr is disjoint. */
    ghost predicate Valid()
      reads this, Repr
      ensures Valid() ==> this in Repr
    {
      && this in Repr && nodes in Repr && sessions in Repr && (nodes as object) != sessions && table in Repr && table.Repr <= Repr && faults.Repr <= Repr
      && table.Valid() && faults.Valid()
      && this !in table.Repr && nodes !in table.Repr && sessions !in table.Repr && faults.Repr !! table.Repr
      && this !in faults.Repr && nodes !in faults.Repr && sessions !in faults.Repr
    }

    ghost function Value(): World
      requires Valid()
      reads this, Repr
    {
      World(nodes.value, sessions.value, table.Value(), faults.Value())
    }

    constructor Empty()
      ensures Valid() && fresh(Repr) && Value() == EmptyWorld && idx == -1 && step == 0 && current == []
    {
      idx, step, current := -1, 0, [];
      var n := new Cell([]);
      var s := new Cell({});
      var t := new NodeMap();
      var f := new FaultTable(NoFaults);
      nodes, sessions, table, faults := n, s, t, f;
      Repr := {this, n, s} + t.Repr + f.Repr;
    }

    /** A world made of these containers. */
    constructor From(i: int, s: int, ns: Cell<seq<Name>>, ss: Cell<set<Pair>>, t: NodeMap, f: FaultTable)
      requires t.Valid() && f.Valid() && (ns as object) != ss && ns !in t.Repr && ss !in t.Repr && ns !in f.Repr && ss !in f.Repr && f.Repr !! t.Repr
      ensures Valid() && Repr == {this, ns, ss} + t.Repr + f.Repr && idx == i && step == s && current == []
      ensures Value() == World(ns.value, ss.value, t.Value(), f.Value())
    {
      idx, step, nodes, sessions, table, faults, current := i, s, ns, ss, t, f, [];
      Repr := {this, ns, ss} + t.Repr + f.Repr;
    }

    method ApplyNode(host: Name)
      requires Valid()
      modifies nodes
      ensures Valid() && Value() == old(Value()).(nodes := if host != "" && host !in old(nodes.value) then old(nodes.value) + [host] else old(nodes.value))
    {
      if host != "" && host !in nodes.value { nodes.value := nodes.value + [host]; }
    }

    method SetSession(key: Pair, up: bool)
      requires Valid()
      modifies sessions
      ensures Valid()
      ensures Value() == old(Value()).(sessions := if up then old(sessions.value) + {key} else old(sessions.value) - {key})
    {
      if up { sessions.value := sessions.value + {key}; } else { sessions.value := sessions.value - {key}; }
    }

    method ApplyFaults(mutation: string, ns: seq<Name>, params: map<string, Json>)
      requires Valid()
      modifies faults.Repr
      ensures Valid() && Value() == old(Value()).(faults := ApplyFault(old(Value()).faults, mutation, ns, params))
      ensures idx == old(idx) && step == old(step) && current == old(current) && Repr == old(Repr)
    {
      hide ApplyFault;
      faults.ApplyFaultEvent(mutation, ns, params);
    }

    method ApplyState(node: Name, protocol: string, snap: Json, at: int)
      requires Valid()
      modifies Repr
      ensures Valid() && fresh(Repr - old(Repr))
      ensures Value() == old(Value()).(state := Recorded(old(Value()).state, node, protocol, snap, at))
      ensures idx == old(idx) && step == old(step) && current == old(current)
    {
      hide Recorded, NodeMap.Valid, NodeMap.Value;
      table.Record(node, protocol, snap, at);
      Repr := Repr + table.Repr;
    }

    method Stamp(i: int, s: int, cur: seq<TraceEvent>)
      requires Valid()
      modifies this`idx, this`step, this`current
      ensures Valid() && Value() == old(Value()) && idx == i && step == s && current == cur
    {
      idx, step, current := i, s, cur;
    }

    /** One event, in place. */
    method ApplyEvent(ev: TraceEvent)
      requires Valid()
      modifies Repr
      ensures Valid() && fresh(Repr - old(Repr)) && Value() == Apply(old(Value()), ev)
      ensures idx == old(idx) && step == old(step) && current == old(current)
    {
      hide ApplyFault, Recorded, NodeMap.Valid, NodeMap.Value;
      match ev.body {
        case NodeBody(h) => ApplyNode(h);
        case SessionBody(n, p, e) =>
          if n != "" && p != "" {
            if e == "connected" { SetSession(PairKey(n, p), true); }
            else if e == "disconnected" || e == "failed" { SetSession(PairKey(n, p), false); }
          }
        case FaultBody(m, ns, ps) => ApplyFaults(m, ns, ps);
        case StateBody(n, p, s) => if n != "" && p != "" { ApplyState(n, p, s, ev.step); }
        case OtherBody =>
      }
    }

    lemma Parts()
      requires Valid()
      ensures table.Valid() && faults.Valid() && table.Repr <= Repr && faults.Repr <= Repr && nodes in Repr && sessions in Repr
      ensures Value() == World(nodes.value, sessions.value, table.Value(), faults.Value())
    {
    }

    method CopyLists() returns (ns: Cell<seq<Name>>, ss: Cell<set<Pair>>)
      ensures fresh(ns) && fresh(ss) && (ns as object) != ss && ns.value == nodes.value && ss.value == sessions.value
    {
      ns := new Cell(nodes.value);
      ss := new Cell(sessions.value);
    }

    /** A copy in which every container and every slot is new. */
    method Clone() returns (w: WorldState)
      requires Valid()
      ensures w.Valid() && fresh(w.Repr) && w.Value() == Value() && w.idx == idx && w.step == step && w.current == []
    {
      hide NodeMap.Valid, NodeMap.Value, WorldState.Valid, WorldState.Value, FaultTable.Valid, FaultTable.Value;
      Parts();
      ghost var v := Value();
      var t := table.Clone();
      var f := faults.Clone();
      var ns, ss := CopyLists();
      w := new WorldState.From(idx, step, ns, ss, t, f);
    }
  }
}
