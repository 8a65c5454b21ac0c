/** What HyParView remembers: a peer leaves both views only when its session
    fails, or when a full passive view evicts it. */
module OverlayMemory {
  import opened Foundation
  import opened HyParViewCore
  import opened OverlaySafety

  /** The peers a node could contact. */
  function KnownPeers(v: Views): set<Host> {
    v.active + v.passive
  }

  /** How many hosts a handler may file into the passive view. */
  function Filed(v: Views, ev: Event): nat {
    match ev
    case Start => |v.cfg.contacts|
    case MaintenanceTick => if v.active == {} && v.pending == map[] then |v.cfg.contacts| else 0
    case Shuffle(origin, ttl, offered, from) => if Forwards(v, origin, ttl, from) then 0 else 1 + |offered|
    case ShuffleReply(nodes, route) => if Retraced(route, v.self) == [] then |nodes| else 0
    case SessionDown(_) => 0
    case AttemptTimeout(_) => 0
    case _ => 1
  }

  predicate HasRoom(v: Views, ev: Event) {
    |v.passive| + Filed(v, ev) <= v.cfg.passiveSize
  }

  /** v2 still knows every peer of v but those in `lost`, having filed at most n. */
  predicate Remembers(v: Views, v2: Views, n: nat, lost: set<Host>) {
    KnownPeers(v) - lost <= KnownPeers(v2) && |v2.passive| <= |v.passive| + n && v2.cfg == v.cfg
  }

  lemma RemembersSelf(v: Views)
    ensures Remembers(v, v, 0, {})
  {
  }

  lemma RemembersMore(a: Views, b: Views, c: Views, m: nat, n: nat)
    requires Remembers(a, b, m, {}) && Remembers(b, c, n, {})
    ensures Remembers(a, c, m + n, {})
  {
  }

  lemma AddPassiveRemembers(v: Views, h: Host, w: Picks)
    requires |v.passive| + 1 <= v.cfg.passiveSize
    ensures Remembers(v, AddPassive(v, h, w), 1, {})
    ensures h != v.self ==> h in KnownPeers(AddPassive(v, h, w))
  {
  }

  lemma AddActiveRemembers(v: Views, h: Host, w: Picks)
    requires ViewsOk(v) && |v.passive| + 1 <= v.cfg.passiveSize
    ensures Remembers(v, AddActive(v, h, w), 1, {})
  {
    hide ViewsOk, AddPassive;
    if h != v.self && h !in v.active {
      var v1 := v;
      if |v.active| >= v.cfg.activeSize && v.active - {h} != {} {
        var victim := Choose(v.active - {h}, w.victim);
        NotSelf(v, victim);
        AddPassiveRemembers(RemoveActive(v, victim), victim, w);
        v1 := AddPassive(RemoveActive(v, victim), victim, w);
        assert Remembers(v, v1, 1, {}) by { DroppedIsFiled(v, victim, v1); }
      }
      SubsetSize(v1.passive - {h}, v1.passive);
    }
  }

  lemma NotSelf(v: Views, h: Host)
    requires ViewsOk(v) && h in v.active
    ensures h != v.self
  {
  }

  lemma DroppedIsFiled(v: Views, victim: Host, v1: Views)
    requires Remembers(RemoveActive(v, victim), v1, 1, {}) && victim in KnownPeers(v1)
    ensures Remembers(v, v1, 1, {})
  {
  }

  lemma {:induction false} IntegrateRemembers(v: Views, nodes: seq<Host>, ws: seq<Picks>)
    requires |ws| == |nodes| && |v.passive| + |nodes| <= v.cfg.passiveSize
    ensures Remembers(v, IntegratePassive(v, nodes, ws), |nodes|, {})
  {
    hide AddPassive;
    if nodes == [] {
      RemembersSelf(v);
    } else {
      var n := |nodes| - 1;
      var u := IntegratePassive(v, nodes[..n], ws[..n]);
      IntegrateRemembers(v, nodes[..n], ws[..n]);
      AddPassiveRemembers(u, nodes[n], ws[n]);
      RemembersMore(v, u, AddPassive(u, nodes[n], ws[n]), n, 1);
    }
  }

  /** An attempt by Neighbor request changes neither view. */
  lemma AttemptKeepsViews(v: Views, h: Host, priority: bool, w: Picks)
    ensures var v2 := OpenActive(v, h, Intent(NeighborIntent, priority), w);
            v2.active == v.active && v2.passive == v.passive && v2.cfg == v.cfg
  {
  }

  lemma PromoteKeepsViews(v: Views, w: Picks)
    ensures Promote(v, w).active == v.active && Promote(v, w).passive == v.passive && Promote(v, w).cfg == v.cfg
  {
    hide OpenActive;
    var cands := v.passive - v.pending.Keys;
    if cands != {} {
      AttemptKeepsViews(v, Choose(cands, w.cand), v.active == {}, w);
    }
  }

  lemma OpenRemembers(v: Views, h: Host, i: Intent, w: Picks)
    requires ViewsOk(v) && |v.passive| + 1 <= v.cfg.passiveSize
    ensures Remembers(v, OpenActive(v, h, i, w), 1, {})
  {
    hide ViewsOk, AddActive;
    var v1 := ClearPending(v.(pending := v.pending[h := i]), h);
    SameViews(v, v1);
    AddActiveRemembers(v1, h, w);
  }

  lemma {:induction false} ContactsRemember(v: Views, contacts: seq<Host>, ws: seq<Picks>)
    requires ViewsOk(v) && |ws| == |contacts| && |v.passive| + |contacts| <= v.cfg.passiveSize
    ensures Remembers(v, JoinContacts(v, contacts, ws), |contacts|, {})
  {
    hide ViewsOk, OpenActive;
    if contacts == [] {
      RemembersSelf(v);
    } else {
      var n := |contacts| - 1;
      var u := JoinContacts(v, contacts[..n], ws[..n]);
      ContactsRemember(v, contacts[..n], ws[..n]);
      JoinContactsOk(v, contacts[..n], ws[..n]);
      OpenRemembers(u, contacts[n], Intent(JoinIntent, false), ws[n]);
      RemembersMore(v, u, OpenActive(u, contacts[n], Intent(JoinIntent, false), ws[n]), n, 1);
    }
  }

  ghost function LostBy(ev: Event): set<Host> {
    if ev.SessionDown? then {ev.host} else {}
  }

  lemma SessionsRemember(v: Views, h: Host, w: Picks)
    requires ViewsOk(v)
    ensures Remembers(v, OnSessionDown(v, h, w), 0, {h}) && Remembers(v, OnAttemptTimeout(v, h, w), 0, {})
    ensures |v.passive| + 1 <= v.cfg.passiveSize ==> Remembers(v, OnSessionConnected(v, h, w), 1, {})
  {
    hide ViewsOk, Promote, AddActive;
    PromoteKeepsViews(RemoveActive(ClearPending(v.(sessions := v.sessions - {h}), h), h), w);
    PromoteKeepsViews(ClearPending(v, h), w);
    var up := ClearPending(v.(sessions := v.sessions + {h}), h);
    SameViews(v, up);
    if |v.passive| + 1 <= v.cfg.passiveSize { AddActiveRemembers(up, h, w); }
  }

  lemma RepliesRemember(v: Views, b: bool, from: Host, w: Picks)
    requires ViewsOk(v) && |v.passive| + 1 <= v.cfg.passiveSize
    ensures Remembers(v, OnNeighbor(v, b, from, w), 1, {})
    ensures Remembers(v, OnNeighborReply(v, b, from, w), 1, {})
    ensures Remembers(v, OnDisconnect(v, from, w), 1, {})
  {
    hide ViewsOk, Promote, AddActive, AddPassive;
    RemembersSelf(v);
    AddActiveRemembers(v, from, w);
    AddPassiveRemembers(v, from, w);
    var c := ClearPending(v, from);
    SameViews(v, c);
    AddActiveRemembers(c, from, w);
    AddPassiveRemembers(c, from, w);
    PromoteKeepsViews(AddPassive(c, from, w), w);
    DisconnectRemembers(v, from, w);
  }

  lemma DisconnectRemembers(v: Views, from: Host, w: Picks)
    requires ViewsOk(v) && |v.passive| + 1 <= v.cfg.passiveSize
    ensures Remembers(v, OnDisconnect(v, from, w), 1, {})
  {
    hide ViewsOk, Promote, AddPassive;
    if from in v.active {
      var r := RemoveActive(v, from);
      NotSelf(v, from);
      AddPassiveRemembers(r, from, w);
      PromoteKeepsViews(AddPassive(r, from, w), w);
      DroppedIsFiled(v, from, AddPassive(r, from, w));
    }
  }

  lemma ForwardRemembers(v: Views, newNode: Host, ttl: nat, from: Host, w: Picks)
    requires |v.passive| + 1 <= v.cfg.passiveSize
    ensures Remembers(v, OnForwardJoin(v, newNode, ttl, from, w), 1, {})
  {
    hide OpenActive, AddPassive;
    RemembersSelf(v);
    AddPassiveRemembers(v, newNode, w);
    AttemptKeepsViews(v, newNode, false, w);
    AttemptKeepsViews(AddPassive(v, newNode, w), newNode, false, w);
  }

  /** While the passive view has room for what a handler files, the only peer it
      can forget is one whose session failed. */
  lemma StepRemembers(v: Views, l: Label)
    requires ViewsOk(v) && Enabled(v, l) && HasRoom(v, l.event)
    ensures KnownPeers(v) - LostBy(l.event) <= KnownPeers(Step(v, l))
  {
    hide ViewsOk, AddActive, IntegratePassive, Promote, JoinContacts, OnSessionConnected, OnSessionDown, OnAttemptTimeout, OnNeighbor,
         OnNeighborReply, OnDisconnect, OnForwardJoin;
    match l.event
    case Start => ContactsRemember(v, v.cfg.contacts, l.ws);
    case SessionConnected(h) => SessionsRemember(v, h, l.w);
    case SessionDown(h) => SessionsRemember(v, h, l.w);
    case AttemptTimeout(h) => SessionsRemember(v, h, l.w);
    case Join(from) => AddActiveRemembers(v, from, l.w);
    case ForwardJoin(newNode, ttl, from) => ForwardRemembers(v, newNode, ttl, from, l.w);
    case AskNeighbor(priority, from) => RepliesRemember(v, priority, from, l.w);
    case NeighborReply(accepted, from) => RepliesRemember(v, accepted, from, l.w);
    case Disconnect(from) => RepliesRemember(v, true, from, l.w);
    case Shuffle(origin, ttl, offered, from) =>
      if !Forwards(v, origin, ttl, from) { IntegrateRemembers(v, [origin] + offered, l.ws); }
    case ShuffleReply(nodes, route) =>
      if Retraced(route, v.self) == [] { IntegrateRemembers(v, nodes, l.ws); }
    case MaintenanceTick =>
      if v.active == {} && v.pending == map[] { ContactsRemember(v, v.cfg.contacts, l.ws); }
      PromoteKeepsViews(v, l.w);
  }

  // ----- the theorems -----

  /** The step is one of HyParView's with too little room, or the failure of p's
      session. */
  predicate MayForget(s: Stack, l: StackLabel, p: Host) {
    l.Membership? && (!HasRoom(s.views, l.step.event) || l.step.event == SessionDown(p))
  }

  /** Over every run: a peer known at i, whether passive, being attempted, or
      active, is still known at k, unless some step between lacked room or its
      session failed. In particular a failed attempt does not forget it. */
  lemma {:induction false} PeersAreRemembered(self: Host, cfg: Config, cacheSize: nat, ss: seq<Stack>, ls: seq<StackLabel>,
                                              i: nat, k: nat, p: Host)
    requires IsStackRun(self, cfg, cacheSize, ss, ls) && i <= k < |ss| && p in KnownPeers(ss[i].views)
    requires forall j | i <= j < k :: !MayForget(ss[j], ls[j], p)
    ensures p in KnownPeers(ss[k].views)
    decreases k
  {
    hide StackOk, ViewsOk, Step, Enabled, KnownPeers;
    if i < k {
      PeersAreRemembered(self, cfg, cacheSize, ss, ls, i, k - 1, p);
      StackRunOk(self, cfg, cacheSize, ss, ls, k - 1);
      var s, l := ss[k - 1], ls[k - 1];
      assert StackEnabled(s, l) && ss[k - 1 + 1] == StackStep(s, l);
      assert !MayForget(s, l, p);
      if l.Membership? {
        StackViews(s);
        StepRemembers(s.views, l.step);
      }
    }
  }

  lemma StackViews(s: Stack)
    requires StackOk(s)
    ensures ViewsOk(s.views)
  {
    hide ViewsOk;
  }

  /** The exception is real, and exact: filing h is safe for a passive peer p
      under every random pick if and only if h is not a newcomer or the view is
      not full. */
  lemma EvictionIffFull(v: Views, h: Host, p: Host)
    requires ViewsOk(v) && p in v.passive
    ensures (forall w :: p in KnownPeers(AddPassive(v, h, w))) <==>
            h == v.self || h in KnownPeers(v) || |v.passive| < v.cfg.passiveSize
  {
    hide Replay, Alternates;
    if !(h == v.self || h in KnownPeers(v) || |v.passive| < v.cfg.passiveSize) {
      var w := Picks(p, p, p, true);
      assert Choose(v.passive, w.evict) == p;
      assert p !in KnownPeers(AddPassive(v, h, w));
    }
  }

  /** So an attempt in progress does not protect its peer. */
  lemma PendingPeerEvicted(self: Host, p: Host, h: Host, w: Picks)
    requires self != p && self != h && p != h
    ensures var v := Views(self, Config(1, 1, 3, []), {}, {p}, {}, map[p := Intent(NeighborIntent, true)], []);
            ViewsOk(v) && p in v.pending && p !in KnownPeers(AddPassive(v, h, w))
  {
  }

  /** A refused request files the peer into the passive view; an accepted one
      admits it. */
  lemma ReplyFilesPeer(v: Views, accepted: bool, from: Host, w: Picks)
    requires ViewsOk(v) && from in v.pending && from != v.self && from !in v.active
    ensures accepted ==> from in OnNeighborReply(v, accepted, from, w).active
    ensures !accepted ==> from in OnNeighborReply(v, accepted, from, w).passive
  {
    hide Promote, AddActive, ViewsOk;
    var c := ClearPending(v, from);
    SameViews(v, c);
    AddActiveOk(c, from, w);
    PromoteKeepsViews(AddPassive(c, from, w), w);
  }
}
