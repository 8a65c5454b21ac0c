/** HyParView as it is written: handlers that update the two views, the sessions
    and the pending attempts in place, drawing random members as they go. Each
    handler computes the function of HyParViewCore for the picks it made, which
    it returns as ghost results. */
module HyParViewNode {
  import opened Foundation
  import opened HyParViewCore

  /** The hosts not excluded, in order. */
  method FilterExcept(hosts: seq<Host>, exclude: set<Host>) returns (out: seq<Host>)
    ensures forall h :: h in out <==> h in hosts && h !in exclude
    ensures NoDuplicates(hosts) ==> NoDuplicates(out)
  {
    out := [];
    var i := 0;
    while i < |hosts|
      invariant 0 <= i <= |hosts|
      invariant forall h :: h in out <==> h in hosts[..i] && h !in exclude
      invariant NoDuplicates(hosts) ==> NoDuplicates(out)
    {
      if hosts[i] !in exclude {
        assert NoDuplicates(hosts) ==> hosts[i] !in hosts[..i];
        out := out + [hosts[i]];
      }
      i := i + 1;
    }
  }

  /** The members of a set, in some order. */
  method Members(s: set<Host>) returns (out: seq<Host>)
    ensures Elements(out) == s && NoDuplicates(out)
  {
    out := [];
    var todo := s;
    while todo != {}
      invariant todo <= s && Elements(out) == s - todo && NoDuplicates(out)
      decreases |todo|
    {
      var h :| h in todo;
      assert h !in Elements(out);
      assert Elements(out + [h]) == Elements(out) + {h};
      out := out + [h];
      todo := todo - {h};
    }
  }

  /** A random member outside `exclude`, if there is one. */
  method RandomExcept(s: set<Host>, exclude: set<Host>) returns (h: Option<Host>)
    ensures h.None? <==> s - exclude == {}
    ensures h.Some? ==> h.value in s - exclude
  {
    var all := Members(s);
    var cand := FilterExcept(all, exclude);
    assert forall x :: x in all <==> x in Elements(all);
    if |cand| == 0 {
      assert forall x :: x in s - exclude ==> x in cand;
      return None;
    }
    var i :| 0 <= i < |cand|;
    assert cand[i] in cand && cand[i] in s - exclude;
    h := Some(cand[i]);
  }

  method Dial() returns (ok: bool) {
    ok := *;
  }

  class Membership {
    const self: Host
    const cfg: Config
    var active: set<Host>
    var passive: set<Host>
    var sessions: set<Host>
    var pending: map<Host, Intent>
    var events: seq<Neighbor>

    /** The object is exactly in state v. */
    ghost predicate Is(v: Views)
      reads this
    {
      v == Views(self, cfg, active, passive, sessions, pending, events)
    }

    ghost function View(): (v: Views)
      reads this
      ensures Is(v)
    {
      Views(self, cfg, active, passive, sessions, pending, events)
    }

    constructor (me: Host, config: Config)
      ensures Is(New(me, config))
    {
      self, cfg := me, config;
      active, passive, sessions, pending, events := {}, {}, {}, map[], [];
    }

    // ----- view manipulation -----

    method FilePassive(ghost v: Views, h: Host, ghost w: Picks) returns (ghost w2: Picks)
      requires Is(v)
      modifies this`passive
      ensures w2 == w.(evict := w2.evict) && Is(AddPassive(v, h, w2))
    {
      w2 := w;
      if h == self || h in active || h in passive { return; }
      if |passive| >= cfg.passiveSize {
        var x := RandomExcept(passive, {});
        if x.Some? {
          passive := passive - {x.value};
          w2 := w.(evict := x.value);
        }
      }
      passive := passive + {h};
    }

    method Leave(ghost v: Views, h: Host)
      requires Is(v)
      modifies this`active, this`events
      ensures Is(RemoveActive(v, h))
    {
      if h !in active { return; }
      active := active - {h};
      events := events + [Down(h)];
    }

    method Evict(ghost v: Views, keep: Host, ghost w: Picks) returns (ghost w2: Picks)
      requires Is(v)
      modifies this`active, this`passive, this`events
      ensures w2 == w.(evict := w2.evict, victim := w2.victim) && Is(DropRandomActive(v, keep, w2))
    {
      hide AddPassive;
      w2 := w;
      var victim := RandomExcept(active, {keep});
      if victim.None? { return; }
      Leave(v, victim.value);
      w2 := FilePassive(RemoveActive(v, victim.value), victim.value, w.(victim := victim.value));
    }

    method Join(ghost v: Views, h: Host, ghost w: Picks) returns (ghost w2: Picks)
      requires Is(v)
      modifies this`active, this`passive, this`events
      ensures w2 == w.(evict := w2.evict, victim := w2.victim) && Is(AddActive(v, h, w2))
    {
      hide DropRandomActive;
      w2 := w;
      if h == self || h in active { return; }
      if |active| >= cfg.activeSize { w2 := Evict(v, h, w); }
      passive := passive - {h};
      active := active + {h};
      events := events + [Up(h)];
    }

    method Integrate(ghost v: Views, nodes: seq<Host>, ghost w: Picks) returns (ghost ws: seq<Picks>)
      requires Is(v)
      modifies this`passive
      ensures |ws| == |nodes| && Is(IntegratePassive(v, nodes, ws))
    {
      hide AddPassive;
      ws := [];
      var i := 0;
      while i < |nodes|
        invariant 0 <= i <= |nodes| && |ws| == i && Is(IntegratePassive(v, nodes[..i], ws))
      {
        var w1 := FilePassive(IntegratePassive(v, nodes[..i], ws), nodes[i], w);
        assert nodes[..i + 1][..i] == nodes[..i] && (ws + [w1])[..i] == ws;
        ws := ws + [w1];
        i := i + 1;
      }
      assert nodes[..i] == nodes;
    }

    // ----- outgoing attempts -----

    method Forget(ghost v: Views, h: Host)
      requires Is(v)
      modifies this`pending
      ensures Is(ClearPending(v, h))
    {
      pending := pending - {h};
    }

    method Drive(ghost v: Views, h: Host, i: Intent, ghost w: Picks) returns (ghost w2: Picks)
      requires Is(v)
      modifies this`pending, this`active, this`passive, this`events
      ensures w2 == w.(evict := w2.evict, victim := w2.victim) && (i.kind == NeighborIntent ==> w2 == w)
      ensures Is(DriveIntent(v, h, i, w2))
    {
      hide AddActive;
      w2 := w;
      if i.kind == JoinIntent {
        Forget(v, h);
        w2 := Join(ClearPending(v, h), h, w);
      }
    }

    method Open(ghost v: Views, h: Host, i: Intent, ghost w: Picks) returns (ghost w2: Picks)
      requires Is(v)
      modifies this`pending, this`active, this`passive, this`events
      ensures w2.cand == w.cand && (i.kind == NeighborIntent ==> w2 == w.(dialOk := w2.dialOk))
      ensures Is(OpenActive(v, h, i, w2))
    {
      hide DriveIntent;
      w2 := w;
      if h == self || h in active || h in pending { return; }
      pending := pending[h := i];
      ghost var v1 := v.(pending := v.pending[h := i]);
      if h in sessions {
        w2 := Drive(v1, h, i, w);
        return;
      }
      var ok := Dial();
      w2 := w.(dialOk := ok);
      if !ok { Forget(v1, h); }
    }

    method Refill(ghost v: Views, ghost w: Picks) returns (ghost w2: Picks)
      requires Is(v)
      modifies this`pending, this`active, this`passive, this`events
      ensures w2 == w.(cand := w2.cand, dialOk := w2.dialOk) && Is(Promote(v, w2))
    {
      hide OpenActive;
      w2 := w;
      if |active| + |pending| >= cfg.activeSize { return; }
      var cand := RandomExcept(passive, pending.Keys);
      if cand.None? { return; }
      w2 := Open(v, cand.value, Intent(NeighborIntent, |active| == 0), w.(cand := cand.value));
      assert (|v.active| == 0) == (v.active == {});
    }

    method OpenContacts(ghost v: Views, contacts: seq<Host>, ghost w: Picks) returns (ghost ws: seq<Picks>)
      requires Is(v)
      modifies this`pending, this`active, this`passive, this`events
      ensures |ws| == |contacts| && Is(JoinContacts(v, contacts, ws))
    {
      hide OpenActive;
      ws := [];
      var i := 0;
      while i < |contacts|
        invariant 0 <= i <= |contacts| && |ws| == i && Is(JoinContacts(v, contacts[..i], ws))
      {
        var w1 := Open(JoinContacts(v, contacts[..i], ws), contacts[i], Intent(JoinIntent, false), w);
        assert contacts[..i + 1][..i] == contacts[..i] && (ws + [w1])[..i] == ws;
        ws := ws + [w1];
        i := i + 1;
      }
      assert contacts[..i] == contacts;
    }

    // ----- handlers -----

    method SessionConnected(h: Host, ghost w: Picks) returns (ghost w2: Picks)
      modifies this
      ensures Is(OnSessionConnected(old(View()), h, w2))
    {
      ghost var v := View();
      hide DriveIntent;
      w2 := w;
      sessions := sessions + {h};
      if h in pending { w2 := Drive(v.(sessions := v.sessions + {h}), h, pending[h], w); }
    }

    method SessionDown(h: Host, ghost w: Picks) returns (ghost w2: Picks)
      modifies this
      ensures Is(OnSessionDown(old(View()), h, w2))
    {
      ghost var v := View();
      hide Promote;
      w2 := w;
      sessions := sessions - {h};
      ghost var v1 := v.(sessions := v.sessions - {h});
      if h in pending { Forget(v1, h); } else { assert v1.pending - {h} == v1.pending; }
      if h in active {
        Leave(ClearPending(v1, h), h);
        w2 := Refill(RemoveActive(ClearPending(v1, h), h), w);
      }
    }

    method AttemptTimeout(h: Host, ghost w: Picks) returns (ghost w2: Picks)
      modifies this
      ensures Is(OnAttemptTimeout(old(View()), h, w2))
    {
      ghost var v := View();
      hide Promote;
      w2 := w;
      if h !in pending || h in active { return; }
      var i := pending[h];
      Forget(v, h);
      if i.kind == NeighborIntent { w2 := Refill(ClearPending(v, h), w); }
    }

    method ReceiveJoin(from: Host, ghost w: Picks) returns (ghost w2: Picks)
      modifies this
      ensures Is(AddActive(old(View()), from, w2))
    {
      hide AddActive;
      w2 := Join(View(), from, w);
    }

    method ReceiveForwardJoin(newNode: Host, ttl: nat, from: Host, ghost w: Picks) returns (ghost w2: Picks)
      modifies this
      ensures Is(OnForwardJoin(old(View()), newNode, ttl, from, w2))
    {
      ghost var v := View();
      hide OpenActive;
      w2 := w;
      if newNode == self { return; }
      ghost var v1 := v;
      if ttl == cfg.prwl {
        w2 := FilePassive(v, newNode, w);
        v1 := AddPassive(v, newNode, w2);
      }
      if ttl == 0 || |active| <= 1 {
        w2 := Open(v1, newNode, Intent(NeighborIntent, false), w2);
        return;
      }
      var next := RandomExcept(active, {from, newNode});
      if next.None? { w2 := Open(v1, newNode, Intent(NeighborIntent, false), w2); }
    }

    method ReceiveNeighbor(priority: bool, from: Host, ghost w: Picks) returns (accepted: bool, ghost w2: Picks)
      modifies this
      ensures Is(OnNeighbor(old(View()), priority, from, w2))
      ensures accepted == (from in old(active) || priority || |old(active)| < cfg.activeSize)
    {
      ghost var v := View();
      hide AddActive, AddPassive;
      w2 := w;
      if from in active { return true, w2; }
      if priority || |active| < cfg.activeSize {
        w2 := Join(v, from, w);
        return true, w2;
      }
      w2 := FilePassive(v, from, w);
      accepted := false;
    }

    method ReceiveNeighborReply(accepted: bool, from: Host, ghost w: Picks) returns (ghost w2: Picks)
      modifies this
      ensures Is(OnNeighborReply(old(View()), accepted, from, w2))
    {
      ghost var v := View();
      hide AddActive, Promote;
      w2 := w;
      if from !in pending { return; }
      Forget(v, from);
      ghost var c := ClearPending(v, from);
      if accepted {
        w2 := Join(c, from, w);
        return;
      }
      w2 := FilePassive(c, from, w);
      w2 := Refill(AddPassive(c, from, w2), w2);
    }

    method ReceiveDisconnect(from: Host, ghost w: Picks) returns (ghost w2: Picks)
      modifies this
      ensures Is(OnDisconnect(old(View()), from, w2))
    {
      ghost var v := View();
      hide Promote;
      w2 := w;
      if from !in active { return; }
      Leave(v, from);
      w2 := FilePassive(RemoveActive(v, from), from, w);
      w2 := Refill(AddPassive(RemoveActive(v, from), from, w2), w2);
    }

    method ReceiveShuffle(origin: Host, ttl: nat, offered: seq<Host>, from: Host, ghost w: Picks) returns (ghost ws: seq<Picks>)
      modifies this
      ensures |ws| == 1 + |offered| && Is(OnShuffle(old(View()), origin, ttl, offered, from, ws))
    {
      ghost var v := View();
      hide IntegratePassive;
      if origin != self && ttl > 0 && |active| > 1 {
        var next := RandomExcept(active, {from, origin});
        if next.Some? { return seq(1 + |offered|, _ => w); }
      }
      ws := Integrate(v, [origin] + offered, w);
    }

    method ReceiveShuffleReply(nodes: seq<Host>, route: seq<Host>, ghost w: Picks) returns (ghost ws: seq<Picks>)
      modifies this
      ensures |ws| == |nodes| && Is(OnShuffleReply(old(View()), nodes, route, ws))
    {
      ghost var v := View();
      hide IntegratePassive;
      var left := route;
      if |left| > 0 && left[|left| - 1] == self { left := left[..|left| - 1]; }
      if |left| == 0 {
        ws := Integrate(v, nodes, w);
      } else {
        ws := seq(|nodes|, _ => w);
      }
    }

    method MaintenanceTick(ghost w: Picks) returns (ghost w2: Picks, ghost ws: seq<Picks>)
      modifies this
      ensures |ws| == |cfg.contacts| && Is(OnMaintenanceTick(old(View()), w2, ws))
    {
      ghost var v := View();
      hide JoinContacts, Promote;
      w2, ws := w, seq(|cfg.contacts|, _ => w);
      assert (|v.active| == 0) == (v.active == {}) && (|v.pending| == 0) == (v.pending == map[]);
      if |active| == 0 && |pending| == 0 {
        ws := OpenContacts(v, cfg.contacts, w);
        return;
      }
      if |active| < cfg.activeSize { w2 := Refill(v, w); }
    }
  }
}
