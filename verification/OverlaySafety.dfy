/** The membership contract, and the overlay stack built on it. */
module OverlaySafety {
  import opened Foundation
  import opened HyParViewCore
  import PT = PlumtreeCore
  import PC = PlumtreeCluster

  // ----- the notification stream -----

  /** The peers a subscriber of the stream considers up. */
  function Replay(es: seq<Neighbor>): set<Host> {
    if es == [] then {}
    else
      var last := es[|es| - 1];
      var before := Replay(es[..|es| - 1]);
      if last.Up? then before + {last.peer} else before - {last.peer}
  }

  /** Up only for peers that are down, Down only for peers that are up. */
  predicate Alternates(es: seq<Neighbor>) {
    es == [] || (Alternates(es[..|es| - 1]) && (es[|es| - 1].Up? <==> es[|es| - 1].peer !in Replay(es[..|es| - 1])))
  }

  lemma ReplayMore(es: seq<Neighbor>, e: Neighbor)
    ensures Replay(es + [e]) == if e.Up? then Replay(es) + {e.peer} else Replay(es) - {e.peer}
    ensures Alternates(es + [e]) <==> Alternates(es) && (e.Up? <==> e.peer !in Replay(es))
  {
    assert (es + [e])[..|es|] == es;
  }

  lemma {:induction false} AlternatesPrefix(es: seq<Neighbor>, k: nat)
    requires Alternates(es) && k <= |es|
    ensures Alternates(es[..k])
  {
    if k == |es| {
      assert es[..k] == es;
    } else {
      AlternatesPrefix(es[..|es| - 1], k);
      assert es[..|es| - 1][..k] == es[..k];
    }
  }

  lemma {:induction false} QuietStretch(es: seq<Neighbor>, i: nat, j: nat, p: Host)
    requires i <= j <= |es| && forall k | i <= k < j :: es[k].peer != p
    ensures p in Replay(es[..i]) <==> p in Replay(es[..j])
  {
    if i < j {
      QuietStretch(es, i, j - 1, p);
      assert es[..j] == es[..j - 1] + [es[j - 1]];
      ReplayMore(es[..j - 1], es[j - 1]);
    }
  }

  /** Per peer the stream is Up, Down, Up, Down, ... */
  lemma StrictAlternation(es: seq<Neighbor>, i: nat, j: nat)
    requires Alternates(es) && i < j < |es| && es[i].peer == es[j].peer
    requires forall k | i < k < j :: es[k].peer != es[i].peer
    ensures es[i].Up? != es[j].Up?
  {
    hide Alternates, Replay;
    AlternatesPrefix(es, i + 1);
    AlternatesPrefix(es, j + 1);
    assert es[..i + 1] == es[..i] + [es[i]] && es[..j + 1] == es[..j] + [es[j]];
    ReplayMore(es[..i], es[i]);
    ReplayMore(es[..j], es[j]);
    QuietStretch(es, i + 1, j, es[i].peer);
  }

  lemma FirstIsUp(es: seq<Neighbor>, i: nat)
    requires Alternates(es) && i < |es| && forall k | 0 <= k < i :: es[k].peer != es[i].peer
    ensures es[i].Up?
  {
    AlternatesPrefix(es, i + 1);
    assert es[..i + 1] == es[..i] + [es[i]];
    ReplayMore(es[..i], es[i]);
    QuietStretch(es, 0, i, es[i].peer);
    assert es[..0] == [];
  }

  // ----- the views -----

  /** Self in neither view, the views disjoint and bounded, and the published
      stream exactly the active view. */
  ghost predicate ViewsOk(v: Views) {
    && ConfigOk(v.cfg)
    && v.self !in v.active && v.self !in v.passive && Disjoint(v.active, v.passive)
    && |v.active| <= v.cfg.activeSize && |v.passive| <= v.cfg.passiveSize
    && Replay(v.events) == v.active && Alternates(v.events)
    && forall i | 0 <= i < |v.events| :: v.events[i].peer != v.self
  }

  /** v2 only adds to what v published, and is the same node. */
  predicate Follows(v: Views, v2: Views) {
    v2.self == v.self && v2.cfg == v.cfg && v.events <= v2.events
  }

  ghost predicate Good(v: Views, v2: Views) {
    ViewsOk(v2) && Follows(v, v2)
  }

  lemma AddPassiveOk(v: Views, h: Host, w: Picks)
    requires ViewsOk(v)
    ensures Good(v, AddPassive(v, h, w)) && AddPassive(v, h, w).active == v.active && AddPassive(v, h, w).events == v.events
  {
    if !(h == v.self || h in v.active || h in v.passive) {
      var kept := if |v.passive| >= v.cfg.passiveSize then v.passive - {Choose(v.passive, w.evict)} else v.passive;
      assert |kept| < v.cfg.passiveSize;
    }
  }

  lemma RemoveActiveOk(v: Views, h: Host)
    requires ViewsOk(v)
    ensures Good(v, RemoveActive(v, h)) && RemoveActive(v, h).active == v.active - {h}
    ensures h in v.active ==> |RemoveActive(v, h).active| == |v.active| - 1
  {
    if h in v.active { ReplayMore(v.events, Down(h)); }
  }

  lemma AddActiveOk(v: Views, h: Host, w: Picks)
    requires ViewsOk(v)
    ensures Good(v, AddActive(v, h, w))
    ensures h != v.self ==> h in AddActive(v, h, w).active
  {
    hide AddPassive;
    if h != v.self && h !in v.active {
      var v1 := v;
      if |v.active| >= v.cfg.activeSize {
        assert v.active - {h} == v.active;
        var victim := Choose(v.active - {h}, w.victim);
        RemoveActiveOk(v, victim);
        AddPassiveOk(RemoveActive(v, victim), victim, w);
        v1 := DropRandomActive(v, h, w);
      }
      AdmitOk(v1, h);
    }
  }

  lemma AdmitOk(v: Views, h: Host)
    requires ViewsOk(v) && h != v.self && h !in v.active && |v.active| < v.cfg.activeSize
    ensures Good(v, Admit(v, h))
  {
    ReplayMore(v.events, Up(h));
    SubsetSize(v.passive - {h}, v.passive);
  }

  lemma {:induction false} IntegratePassiveOk(v: Views, nodes: seq<Host>, ws: seq<Picks>)
    requires ViewsOk(v) && |ws| == |nodes|
    ensures Good(v, IntegratePassive(v, nodes, ws))
  {
    hide AddPassive, ViewsOk;
    if nodes != [] {
      var n := |nodes| - 1;
      IntegratePassiveOk(v, nodes[..n], ws[..n]);
      AddPassiveOk(IntegratePassive(v, nodes[..n], ws[..n]), nodes[n], ws[n]);
    }
  }

  lemma SameViews(v: Views, v2: Views)
    requires ViewsOk(v) && v2.self == v.self && v2.cfg == v.cfg && v2.active == v.active && v2.passive == v.passive && v2.events == v.events
    ensures Good(v, v2)
  {
  }

  lemma DriveIntentOk(v: Views, h: Host, i: Intent, w: Picks)
    requires ViewsOk(v)
    ensures Good(v, DriveIntent(v, h, i, w))
  {
    hide AddActive, ViewsOk;
    SameViews(v, v);
    SameViews(v, ClearPending(v, h));
    AddActiveOk(ClearPending(v, h), h, w);
  }

  lemma OpenActiveOk(v: Views, h: Host, i: Intent, w: Picks)
    requires ViewsOk(v)
    ensures Good(v, OpenActive(v, h, i, w))
  {
    hide DriveIntent, ViewsOk;
    SameViews(v, v);
    var v1 := v.(pending := v.pending[h := i]);
    SameViews(v, v1);
    SameViews(v, ClearPending(v1, h));
    DriveIntentOk(v1, h, i, w);
  }

  lemma PromoteOk(v: Views, w: Picks)
    requires ViewsOk(v)
    ensures Good(v, Promote(v, w))
  {
    hide OpenActive, ViewsOk;
    SameViews(v, v);
    var cands := v.passive - v.pending.Keys;
    if cands != {} {
      OpenActiveOk(v, Choose(cands, w.cand), Intent(NeighborIntent, v.active == {}), w);
    }
  }

  lemma {:induction false} JoinContactsOk(v: Views, contacts: seq<Host>, ws: seq<Picks>)
    requires ViewsOk(v) && |ws| == |contacts|
    ensures Good(v, JoinContacts(v, contacts, ws))
  {
    hide OpenActive, ViewsOk;
    if contacts != [] {
      var n := |contacts| - 1;
      JoinContactsOk(v, contacts[..n], ws[..n]);
      OpenActiveOk(JoinContacts(v, contacts[..n], ws[..n]), contacts[n], Intent(JoinIntent, false), ws[n]);
    }
  }

  lemma RefillOk(v: Views, from: Host, w: Picks, file: bool)
    requires ViewsOk(v)
    ensures Good(v, Promote(if file then AddPassive(v, from, w) else v, w))
  {
    hide AddPassive, Promote, ViewsOk;
    AddPassiveOk(v, from, w);
    PromoteOk(AddPassive(v, from, w), w);
    PromoteOk(v, w);
  }

  lemma SessionsOk(v: Views, h: Host, w: Picks)
    requires ViewsOk(v)
    ensures Good(v, OnSessionConnected(v, h, w)) && Good(v, OnSessionDown(v, h, w)) && Good(v, OnAttemptTimeout(v, h, w))
  {
    hide DriveIntent, Promote, ViewsOk;
    SameViews(v, v);
    var up := v.(sessions := v.sessions + {h});
    SameViews(v, up);
    if h in v.pending { DriveIntentOk(up, h, v.pending[h], w); }
    var down := ClearPending(v.(sessions := v.sessions - {h}), h);
    SameViews(v, down);
    RemoveActiveOk(down, h);
    PromoteOk(RemoveActive(down, h), w);
    SameViews(v, ClearPending(v, h));
    PromoteOk(ClearPending(v, h), w);
  }

  lemma RepliesOk(v: Views, b: bool, from: Host, w: Picks)
    requires ViewsOk(v)
    ensures Good(v, OnNeighbor(v, b, from, w)) && Good(v, OnNeighborReply(v, b, from, w)) && Good(v, OnDisconnect(v, from, w))
  {
    hide AddActive, AddPassive, Promote, ViewsOk;
    SameViews(v, v);
    AddActiveOk(v, from, w);
    AddPassiveOk(v, from, w);
    var c := ClearPending(v, from);
    SameViews(v, c);
    AddActiveOk(c, from, w);
    RefillOk(c, from, w, true);
    RemoveActiveOk(v, from);
    RefillOk(RemoveActive(v, from), from, w, true);
  }

  lemma ForwardJoinOk(v: Views, newNode: Host, ttl: nat, from: Host, w: Picks)
    requires ViewsOk(v)
    ensures Good(v, OnForwardJoin(v, newNode, ttl, from, w))
  {
    hide AddPassive, OpenActive, ViewsOk;
    SameViews(v, v);
    AddPassiveOk(v, newNode, w);
    OpenActiveOk(v, newNode, Intent(NeighborIntent, false), w);
    OpenActiveOk(AddPassive(v, newNode, w), newNode, Intent(NeighborIntent, false), w);
  }

  /** Every handler keeps the views sound and only extends the stream. */
  lemma StepOk(v: Views, l: Label)
    requires ViewsOk(v) && Enabled(v, l)
    ensures Good(v, Step(v, l))
  {
    hide AddActive, IntegratePassive, Promote, JoinContacts, ViewsOk, OnSessionConnected, OnSessionDown, OnAttemptTimeout,
         OnNeighbor, OnNeighborReply, OnDisconnect, OnForwardJoin;
    SameViews(v, v);
    match l.event
    case Start => JoinContactsOk(v, v.cfg.contacts, l.ws);
    case SessionConnected(h) => SessionsOk(v, h, l.w);
    case SessionDown(h) => SessionsOk(v, h, l.w);
    case AttemptTimeout(h) => SessionsOk(v, h, l.w);
    case Join(from) => AddActiveOk(v, from, l.w);
    case ForwardJoin(newNode, ttl, from) => ForwardJoinOk(v, newNode, ttl, from, l.w);
    case AskNeighbor(priority, from) => RepliesOk(v, priority, from, l.w);
    case NeighborReply(accepted, from) => RepliesOk(v, accepted, from, l.w);
    case Disconnect(from) => RepliesOk(v, true, from, l.w);
    case Shuffle(origin, ttl, offered, from) => IntegratePassiveOk(v, [origin] + offered, l.ws);
    case ShuffleReply(nodes, route) => IntegratePassiveOk(v, nodes, l.ws);
    case MaintenanceTick =>
      JoinContactsOk(v, v.cfg.contacts, l.ws);
      PromoteOk(v, l.w);
  }

  // ----- HyParView feeding Plumtree on one node -----

  /** `cursor` is how much of the notification stream Plumtree has handled. */
  datatype Stack = Stack(views: Views, tree: PT.Node, cursor: nat)

  datatype StackLabel =
    | Membership(step: Label)
    | Notify
    | Dissemination(event: PC.Event)

  predicate StackEnabled(s: Stack, l: StackLabel) {
    match l
    case Membership(m) => Enabled(s.views, m)
    case Notify => s.cursor < |s.views.events|
    case Dissemination(ev) => !ev.NeighborUp? && !ev.NeighborDown?
  }

  function Notified(n: PT.Node, e: Neighbor): PT.Node {
    if e.Up? then PT.OnNeighborUp(n, e.peer) else PT.OnNeighborDown(n, e.peer)
  }

  ghost function StackStep(s: Stack, l: StackLabel): Stack
    requires StackEnabled(s, l)
  {
    match l
    case Membership(m) => s.(views := Step(s.views, m))
    case Notify => s.(tree := Notified(s.tree, s.views.events[s.cursor]), cursor := s.cursor + 1)
    case Dissemination(ev) => s.(tree := PC.Handle(s.tree, ev).node)
  }

  ghost predicate IsStackRun(self: Host, cfg: Config, cacheSize: nat, ss: seq<Stack>, ls: seq<StackLabel>) {
    && ConfigOk(cfg) && |ss| == |ls| + 1
    && ss[0] == Stack(New(self, cfg), PT.New(self, cacheSize), 0)
    && forall k | 0 <= k < |ls| :: StackEnabled(ss[k], ls[k]) && ss[k + 1] == StackStep(ss[k], ls[k])
  }

  // ----- Plumtree's links -----

  function Links(n: PT.Node): set<Host> {
    n.eager + n.lazy
  }

  /** A handler other than NeighborDown never forgets a link. */
  lemma LinksKept(n: PT.Node, ev: PC.Event)
    requires Disjoint(n.eager, n.lazy) && !ev.NeighborDown?
    ensures var m := PC.Handle(n, ev).node; Disjoint(m.eager, m.lazy) && Links(n) <= Links(m) && m.id == n.id
  {
    hide PT.LazyPush, PT.EagerPush, PT.Deliver, PT.CachePut;
    match ev
    case View(peers) => ViewLinks(n, peers);
    case Broadcast(payload) => BroadcastLinks(n, payload);
    case Receive(p) =>
      if p.msg.IHave? { IHaveLinks(n, p.msg.announcements, p.src); }
      if p.msg.Gossip? { GossipLinks(n, p.msg.id, p.msg.round, p.msg.payload, p.src); }
    case _ =>
  }

  lemma BroadcastLinks(n: PT.Node, payload: Bytes)
    ensures var m := PT.HandleBroadcast(n, payload).node; m.eager == n.eager && m.lazy == n.lazy && m.id == n.id
  {
    hide PT.CachePut;
  }

  lemma GossipLinks(n: PT.Node, id: PT.MessageId, round: nat, payload: Bytes, from: Host)
    requires Disjoint(n.eager, n.lazy)
    ensures var m := PT.OnGossip(n, id, round, payload, from).node;
            Disjoint(m.eager, m.lazy) && Links(n) <= Links(m) && m.id == n.id
  {
    hide PT.CachePut;
  }

  lemma {:induction false} ViewLinks(n: PT.Node, peers: seq<Host>)
    requires Disjoint(n.eager, n.lazy)
    ensures var m := PT.OnView(n, peers); Disjoint(m.eager, m.lazy) && Links(n) <= Links(m) && m.id == n.id
  {
    if peers != [] { ViewLinks(n, peers[..|peers| - 1]); }
  }

  lemma {:induction false} IHaveLinks(n: PT.Node, anns: seq<PT.Announce>, from: Host)
    ensures var m := PT.OnIHave(n, anns, from); m.eager == n.eager && m.lazy == n.lazy && m.id == n.id
  {
    if anns != [] { IHaveLinks(n, anns[..|anns| - 1], from); }
  }

  ghost predicate StackOk(s: Stack) {
    && ViewsOk(s.views) && s.cursor <= |s.views.events| && s.tree.id == s.views.self
    && Disjoint(s.tree.eager, s.tree.lazy)
    && Replay(s.views.events[..s.cursor]) <= Links(s.tree)
  }

  lemma MembershipOk(s: Stack, m: Label)
    requires StackOk(s) && Enabled(s.views, m)
    ensures StackOk(s.(views := Step(s.views, m)))
  {
    hide Step, ViewsOk;
    StepOk(s.views, m);
    assert Step(s.views, m).events[..s.cursor] == s.views.events[..s.cursor];
  }

  lemma NotifyOk(s: Stack)
    requires StackOk(s) && s.cursor < |s.views.events|
    ensures StackOk(StackStep(s, Notify))
  {
    hide PT.Without, Alternates;
    var es, k := s.views.events, s.cursor;
    assert es[..k + 1] == es[..k] + [es[k]];
    ReplayMore(es[..k], es[k]);
  }

  lemma {:induction false} StackRunOk(self: Host, cfg: Config, cacheSize: nat, ss: seq<Stack>, ls: seq<StackLabel>, k: nat)
    requires IsStackRun(self, cfg, cacheSize, ss, ls) && k < |ss|
    ensures StackOk(ss[k]) && ss[k].views.self == self && ss[k].views.cfg == cfg
  {
    hide Step, ViewsOk, Notified, PC.Handle;
    if k == 0 {
      NewOk(self, cfg);
    } else {
      StackRunOk(self, cfg, cacheSize, ss, ls, k - 1);
      var s, l := ss[k - 1], ls[k - 1];
      assert ss[k - 1 + 1] == StackStep(s, l);
      match l
      case Membership(m) =>
        MembershipOk(s, m);
        StepOk(s.views, m);
      case Notify => NotifyOk(s);
      case Dissemination(ev) => LinksKept(s.tree, ev);
    }
  }

  lemma NewOk(self: Host, cfg: Config)
    requires ConfigOk(cfg)
    ensures ViewsOk(New(self, cfg)) && Replay([]) == {}
  {
  }

  // ----- the theorems -----

  /** In every reachable state self is in neither view, the views are disjoint
      and within their limits. */
  lemma ViewsSound(self: Host, cfg: Config, cacheSize: nat, ss: seq<Stack>, ls: seq<StackLabel>, k: nat)
    requires IsStackRun(self, cfg, cacheSize, ss, ls) && k < |ss|
    ensures var v := ss[k].views;
            && self !in v.active && self !in v.passive && Disjoint(v.active, v.passive)
            && |v.active| <= cfg.activeSize && |v.passive| <= cfg.passiveSize
  {
    hide IsStackRun;
    StackRunOk(self, cfg, cacheSize, ss, ls, k);
  }

  /** Replaying the published stream gives exactly the active view, and per
      peer it alternates, starting with Up. */
  lemma StreamIsActiveView(self: Host, cfg: Config, cacheSize: nat, ss: seq<Stack>, ls: seq<StackLabel>, k: nat, i: nat, j: nat)
    requires IsStackRun(self, cfg, cacheSize, ss, ls) && k < |ss|
    ensures var es := ss[k].views.events;
            && Replay(es) == ss[k].views.active
            && (i < |es| && (forall x | 0 <= x < i :: es[x].peer != es[i].peer) ==> es[i].Up?)
            && (i < j < |es| && es[i].peer == es[j].peer && (forall x | i < x < j :: es[x].peer != es[i].peer) ==>
                  es[i].Up? != es[j].Up?)
  {
    hide IsStackRun, Alternates, Replay;
    StackRunOk(self, cfg, cacheSize, ss, ls, k);
    var es := ss[k].views.events;
    if i < |es| && forall x | 0 <= x < i :: es[x].peer != es[i].peer {
      FirstIsUp(es, i);
    }
    if i < j < |es| && es[i].peer == es[j].peer && forall x | i < x < j :: es[x].peer != es[i].peer {
      StrictAlternation(es, i, j);
    }
  }

  /** Whatever prefix of the stream Plumtree has handled, interleaved with
      whatever messages, its eager and lazy sets are disjoint and cover every
      peer then up; once it has caught up, they cover the active view. */
  lemma LinksCoverNeighbors(self: Host, cfg: Config, cacheSize: nat, ss: seq<Stack>, ls: seq<StackLabel>, k: nat)
    requires IsStackRun(self, cfg, cacheSize, ss, ls) && k < |ss|
    ensures var s := ss[k];
            && s.cursor <= |s.views.events|
            && Disjoint(s.tree.eager, s.tree.lazy)
            && Replay(s.views.events[..s.cursor]) <= s.tree.eager + s.tree.lazy
            && (s.cursor == |s.views.events| ==> s.views.active <= s.tree.eager + s.tree.lazy)
  {
    hide IsStackRun, Alternates, Replay;
    StackRunOk(self, cfg, cacheSize, ss, ls, k);
    var s := ss[k];
    if s.cursor == |s.views.events| { assert s.views.events[..s.cursor] == s.views.events; }
  }
}
