/** What each event may do to HyParView's views, whatever is picked at random:
    a relation on views alone, that every step of every run satisfies. */
module HyParViewAnswers {
  import opened Foundation
  import opened HyParViewCore
  import opened OverlaySafety

  // ----- the changes a view may undergo -----

  /** h is filed into the passive view: unless it is known, or the node itself.
      A full view gives up one peer for it, and only a full one. */
  ghost predicate Files(v: Views, h: Host, v2: Views) {
    if h == v.self || h in v.active + v.passive then v2 == v
    else if |v.passive| < v.cfg.passiveSize then v2 == v.(passive := v.passive + {h})
    else exists x :: x in v.passive && v2 == v.(passive := v.passive - {x} + {h})
  }

  /** h leaves the active view, and is reported down. */
  predicate Drops(v: Views, h: Host, v2: Views) {
    v2 == v.(active := v.active - {h}, events := v.events + [Down(h)])
  }

  /** h enters the active view and leaves the passive one, and is reported up.
      A full view first drops one peer for it, which is filed; only a full one. */
  ghost predicate Enters(v: Views, h: Host, v2: Views) {
    if h == v.self || h in v.active then v2 == v
    else if |v.active| < v.cfg.activeSize then
      v2 == v.(active := v.active + {h}, passive := v.passive - {h}, events := v.events + [Up(h)])
    else exists x, u, w :: x in v.active && Drops(v, x, u) && Files(u, x, w)
                           && v2 == w.(active := w.active + {h}, passive := w.passive - {h}, events := w.events + [Up(h)])
  }

  /** An attempt at h, unless it is active or attempted already. A JOIN over an
      open session succeeds at once; a request over one waits for its answer; a
      dial may fail at once. */
  ghost predicate Attempts(v: Views, h: Host, i: Intent, v2: Views) {
    if h == v.self || h in v.active || h in v.pending then v2 == v
    else if h !in v.sessions then v2 == v || v2 == v.(pending := v.pending[h := i])
    else if i.kind == JoinIntent then Enters(v, h, v2)
    else v2 == v.(pending := v.pending[h := i])
  }

  /** A free place in the active view is attempted to be filled: with a passive
      peer not attempted yet, urgently if there is no active peer at all. */
  ghost predicate Refills(v: Views, v2: Views) {
    if |v.active| + |v.pending| >= v.cfg.activeSize || v.passive <= v.pending.Keys then v2 == v
    else exists c :: c in v.passive && c !in v.pending && Attempts(v, c, Intent(NeighborIntent, v.active == {}), v2)
  }

  /** One after the other. */
  ghost predicate FilesAll(v: Views, hs: seq<Host>, v2: Views) {
    if hs == [] then v2 == v
    else
      var front, last := hs[..|hs| - 1], hs[|hs| - 1];
      exists u :: FilesAll(v, front, u) && Files(u, last, v2)
  }

  ghost predicate JoinsAll(v: Views, hs: seq<Host>, v2: Views) {
    if hs == [] then v2 == v
    else
      var front, last := hs[..|hs| - 1], hs[|hs| - 1];
      exists u :: JoinsAll(v, front, u) && Attempts(u, last, Intent(JoinIntent, false), v2)
  }

  function Resolved(v: Views, h: Host): Views {
    v.(pending := v.pending - {h})
  }

  // ----- the answer to each event -----

  /** The walk of a ForwardJoin ends here: it has run out, or has nowhere to go. */
  predicate WalkEnds(v: Views, ttl: nat, newNode: Host, from: Host) {
    ttl == 0 || |v.active| <= 1 || v.active <= {from, newNode}
  }

  /** At one point of the walk the newcomer is filed in passing. */
  ghost predicate Passes(v: Views, newNode: Host, ttl: nat, u: Views) {
    if ttl == v.cfg.prwl then Files(v, newNode, u) else u == v
  }

  ghost predicate Answers(v: Views, ev: Event, v2: Views) {
    match ev
    case Start => JoinsAll(v, v.cfg.contacts, v2)
    case SessionConnected(h) =>
      var u := v.(sessions := v.sessions + {h});
      if h in v.pending && v.pending[h].kind == JoinIntent then Enters(Resolved(u, h), h, v2) else v2 == u
    case SessionDown(h) =>
      var u := Resolved(v, h).(sessions := v.sessions - {h});
      if h in v.active then exists w :: Drops(u, h, w) && Refills(w, v2) else v2 == u
    case AttemptTimeout(h) =>
      if h !in v.pending || h in v.active then v2 == v
      else if v.pending[h].kind == NeighborIntent then Refills(Resolved(v, h), v2)
      else v2 == Resolved(v, h)
    case Join(from) => Enters(v, from, v2)
    case ForwardJoin(newNode, ttl, from) =>
      if newNode == v.self then v2 == v
      else exists u :: Passes(v, newNode, ttl, u)
                       && if WalkEnds(v, ttl, newNode, from) then Attempts(u, newNode, Intent(NeighborIntent, false), v2) else v2 == u
    case AskNeighbor(priority, from) =>
      if priority || |v.active| < v.cfg.activeSize then Enters(v, from, v2) else Files(v, from, v2)
    case NeighborReply(accepted, from) =>
      if from !in v.pending then v2 == v
      else if accepted then Enters(Resolved(v, from), from, v2)
      else exists u :: Files(Resolved(v, from), from, u) && Refills(u, v2)
    case Disconnect(from) =>
      if from !in v.active then v2 == v
      else exists u, w :: Drops(v, from, u) && Files(u, from, w) && Refills(w, v2)
    case Shuffle(origin, ttl, offered, from) =>
      if origin != v.self && ttl > 0 && |v.active| > 1 && !(v.active <= {from, origin}) then v2 == v
      else FilesAll(v, [origin] + offered, v2)
    case ShuffleReply(nodes, route) =>
      if route == [] || (|route| == 1 && route[0] == v.self) then FilesAll(v, nodes, v2) else v2 == v
    case MaintenanceTick =>
      if v.active == {} && v.pending == map[] then JoinsAll(v, v.cfg.contacts, v2) else Refills(v, v2)
  }

  // ----- each handler, whatever it picks -----

  lemma FilesIs(v: Views, h: Host, w: Picks)
    requires v.cfg.passiveSize >= 1
    ensures Files(v, h, AddPassive(v, h, w))
  {
    if !(h == v.self || h in v.active + v.passive) && |v.passive| >= v.cfg.passiveSize {
      assert v.passive != {};
      var x := Choose(v.passive, w.evict);
      assert x in v.passive && AddPassive(v, h, w) == v.(passive := v.passive - {x} + {h});
    }
  }

  lemma EntersIs(v: Views, h: Host, w: Picks)
    requires v.cfg.passiveSize >= 1 && v.cfg.activeSize >= 1
    ensures Enters(v, h, AddActive(v, h, w))
  {
    hide Files, AddPassive;
    if h != v.self && h !in v.active && |v.active| >= v.cfg.activeSize {
      assert v.active - {h} == v.active != {};
      var x := Choose(v.active - {h}, w.victim);
      var u := RemoveActive(v, x);
      var y := AddPassive(u, x, w);
      FilesIs(u, x, w);
      assert x in v.active && Drops(v, x, u) && Files(u, x, y);
      assert AddActive(v, h, w) == y.(active := y.active + {h}, passive := y.passive - {h}, events := y.events + [Up(h)]);
    }
  }

  lemma AttemptsIs(v: Views, h: Host, i: Intent, w: Picks)
    requires v.cfg.passiveSize >= 1 && v.cfg.activeSize >= 1
    ensures Attempts(v, h, i, OpenActive(v, h, i, w))
  {
    hide Enters, AddActive;
    if !(h == v.self || h in v.active || h in v.pending) {
      var v1 := v.(pending := v.pending[h := i]);
      assert v1.pending - {h} == v.pending;
      assert ClearPending(v1, h) == v;
      EntersIs(v, h, w);
    }
  }

  lemma RefillsIs(v: Views, w: Picks)
    requires v.cfg.passiveSize >= 1 && v.cfg.activeSize >= 1
    ensures Refills(v, Promote(v, w))
  {
    hide Attempts, OpenActive;
    var cands := v.passive - v.pending.Keys;
    assert forall x :: x in cands <==> x in v.passive && x !in v.pending.Keys;
    if v.passive <= v.pending.Keys { assert cands == {}; }
    if |v.active| + |v.pending| < v.cfg.activeSize && cands != {} {
      var c := Choose(cands, w.cand);
      AttemptsIs(v, c, Intent(NeighborIntent, v.active == {}), w);
    }
  }

  lemma FilesKeeps(v: Views, h: Host, v2: Views)
    requires Files(v, h, v2)
    ensures v2 == v.(passive := v2.passive)
  {
  }

  lemma {:induction false} FilesAllIs(v: Views, hs: seq<Host>, ws: seq<Picks>)
    requires |ws| == |hs| && v.cfg.passiveSize >= 1
    ensures FilesAll(v, hs, IntegratePassive(v, hs, ws)) && IntegratePassive(v, hs, ws).cfg == v.cfg
  {
    hide Files, AddPassive;
    if hs != [] {
      var n := |hs| - 1;
      var u := IntegratePassive(v, hs[..n], ws[..n]);
      FilesAllIs(v, hs[..n], ws[..n]);
      FilesIs(u, hs[n], ws[n]);
      FilesKeeps(u, hs[n], AddPassive(u, hs[n], ws[n]));
    }
  }

  lemma {:induction false} JoinsAllIs(v: Views, hs: seq<Host>, ws: seq<Picks>)
    requires |ws| == |hs| && ViewsOk(v)
    ensures JoinsAll(v, hs, JoinContacts(v, hs, ws))
  {
    hide Attempts, OpenActive, Replay, Alternates;
    if hs != [] {
      var n := |hs| - 1;
      var u := JoinContacts(v, hs[..n], ws[..n]);
      JoinsAllIs(v, hs[..n], ws[..n]);
      JoinContactsOk(v, hs[..n], ws[..n]);
      AttemptsIs(u, hs[n], Intent(JoinIntent, false), ws[n]);
    }
  }

  // ----- every event -----

  lemma SessionsAnswer(v: Views, h: Host, w: Picks)
    requires v.cfg.passiveSize >= 1 && v.cfg.activeSize >= 1
    ensures Answers(v, SessionConnected(h), OnSessionConnected(v, h, w))
    ensures Answers(v, SessionDown(h), OnSessionDown(v, h, w))
    ensures Answers(v, AttemptTimeout(h), OnAttemptTimeout(v, h, w))
  {
    hide Enters, Refills, Promote, AddActive;
    var up := Resolved(v.(sessions := v.sessions + {h}), h);
    EntersIs(up, h, w);
    var down := Resolved(v, h).(sessions := v.sessions - {h});
    var left := RemoveActive(down, h);
    RefillsIs(left, w);
    if h in v.active { assert Drops(down, h, left) && Refills(left, OnSessionDown(v, h, w)); }
    RefillsIs(Resolved(v, h), w);
  }

  lemma NeighborAnswer(v: Views, priority: bool, from: Host, w: Picks)
    requires v.cfg.passiveSize >= 1 && v.cfg.activeSize >= 1
    ensures Answers(v, AskNeighbor(priority, from), OnNeighbor(v, priority, from, w))
  {
    hide AddActive, AddPassive;
    EntersIs(v, from, w);
    FilesIs(v, from, w);
  }

  lemma ReplyAnswer(v: Views, accepted: bool, from: Host, w: Picks)
    requires v.cfg.passiveSize >= 1 && v.cfg.activeSize >= 1
    ensures Answers(v, NeighborReply(accepted, from), OnNeighborReply(v, accepted, from, w))
  {
    hide Enters, Files, Refills, AddActive, AddPassive, Promote;
    var c := Resolved(v, from);
    EntersIs(c, from, w);
    FilesIs(c, from, w);
    var u := AddPassive(c, from, w);
    FilesKeeps(c, from, u);
    RefillsIs(u, w);
  }

  lemma DisconnectAnswer(v: Views, from: Host, w: Picks)
    requires v.cfg.passiveSize >= 1 && v.cfg.activeSize >= 1
    ensures Answers(v, Disconnect(from), OnDisconnect(v, from, w))
  {
    hide Files, Refills, AddPassive, Promote;
    if from in v.active {
      var u := RemoveActive(v, from);
      var x := AddPassive(u, from, w);
      FilesIs(u, from, w);
      FilesKeeps(u, from, x);
      RefillsIs(x, w);
      assert Drops(v, from, u) && Files(u, from, x) && Refills(x, Promote(x, w));
    }
  }

  lemma ForwardAnswer(v: Views, newNode: Host, ttl: nat, from: Host, w: Picks)
    requires v.cfg.passiveSize >= 1 && v.cfg.activeSize >= 1
    ensures Answers(v, ForwardJoin(newNode, ttl, from), OnForwardJoin(v, newNode, ttl, from, w))
  {
    hide Files, Attempts, AddPassive, OpenActive;
    if newNode != v.self {
      var u := if ttl == v.cfg.prwl then AddPassive(v, newNode, w) else v;
      if ttl == v.cfg.prwl {
        FilesIs(v, newNode, w);
        FilesKeeps(v, newNode, u);
      }
      assert Passes(v, newNode, ttl, u);
      AttemptsIs(u, newNode, Intent(NeighborIntent, false), w);
      assert u.active - {from, newNode} == {} <==> v.active <= {from, newNode} by { EmptyRest(v.active, {from, newNode}); }
    }
  }

  lemma EmptyRest(a: set<Host>, b: set<Host>)
    ensures a - b == {} <==> a <= b
  {
    if a - b == {} { assert forall x | x in a :: x !in a - b; }
  }

  lemma MembershipAnswers(v: Views, l: Label)
    requires ViewsOk(v) && Enabled(v, l)
    ensures Answers(v, l.event, Step(v, l))
  {
    hide AddActive, IntegratePassive, JoinContacts, Promote, OnSessionConnected, OnSessionDown, OnAttemptTimeout, OnNeighbor,
         OnNeighborReply, OnDisconnect, OnForwardJoin, Enters, Files, Refills, Attempts, FilesAll, JoinsAll, Replay, Alternates;
    match l.event
    case Start => JoinsAllIs(v, v.cfg.contacts, l.ws);
    case SessionConnected(h) => SessionsAnswer(v, h, l.w);
    case SessionDown(h) => SessionsAnswer(v, h, l.w);
    case AttemptTimeout(h) => SessionsAnswer(v, h, l.w);
    case Join(from) => EntersIs(v, from, l.w);
    case ForwardJoin(newNode, ttl, from) => ForwardAnswer(v, newNode, ttl, from, l.w);
    case AskNeighbor(priority, from) => NeighborAnswer(v, priority, from, l.w);
    case NeighborReply(accepted, from) => ReplyAnswer(v, accepted, from, l.w);
    case Disconnect(from) => DisconnectAnswer(v, from, l.w);
    case Shuffle(origin, ttl, offered, from) =>
      EmptyRest(v.active, {from, origin});
      if !Forwards(v, origin, ttl, from) { FilesAllIs(v, [origin] + offered, l.ws); }
    case ShuffleReply(nodes, route) =>
      if Retraced(route, v.self) == [] { FilesAllIs(v, nodes, l.ws); }
    case MaintenanceTick =>
      if v.active == {} && v.pending == map[] { JoinsAllIs(v, v.cfg.contacts, l.ws); } else { TickRefills(v, l.w); }
  }

  lemma TickRefills(v: Views, w: Picks)
    requires v.cfg.passiveSize >= 1 && v.cfg.activeSize >= 1
    ensures Refills(v, if |v.active| < v.cfg.activeSize then Promote(v, w) else v)
  {
    hide Attempts, Promote;
    RefillsIs(v, w);
  }

  /** Every step of every run does to the views what its event allows, and a
      step of another layer does nothing to them. */
  lemma EveryAnswer(self: Host, cfg: Config, cacheSize: nat, ss: seq<Stack>, ls: seq<StackLabel>, k: nat)
    requires IsStackRun(self, cfg, cacheSize, ss, ls) && k < |ls|
    ensures if ls[k].Membership? then Answers(ss[k].views, ls[k].step.event, ss[k + 1].views) else ss[k + 1].views == ss[k].views
  {
    hide ViewsOk, Answers, Step, Enabled;
    StackRunOk(self, cfg, cacheSize, ss, ls, k);
    assert StackEnabled(ss[k], ls[k]) && ss[k + 1] == StackStep(ss[k], ls[k]);
    if ls[k].Membership? { MembershipAnswers(ss[k].views, ls[k].step); }
  }
}
