/** HyParView's two partial views as a pure state machine. Random picks are
    arbitrary members of the candidate sets: `Picks` says which ones a handler
    happens to make, and whether the dial it may start fails at once. */
module HyParViewCore {
  import opened Foundation

  datatype Neighbor = Up(peer: Host) | Down(peer: Host)

  datatype Kind = JoinIntent | NeighborIntent

  datatype Intent = Intent(kind: Kind, priority: bool)

  datatype Config = Config(activeSize: nat, passiveSize: nat, prwl: nat, contacts: seq<Host>)

  /** `events` is the NeighborUp/NeighborDown stream published so far. */
  datatype Views = Views(
    self: Host,
    cfg: Config,
    active: set<Host>,
    passive: set<Host>,
    sessions: set<Host>,
    pending: map<Host, Intent>,
    events: seq<Neighbor>)

  datatype Picks = Picks(victim: Host, evict: Host, cand: Host, dialOk: bool)

  ghost predicate ConfigOk(c: Config) {
    c.activeSize >= 1 && c.passiveSize >= 1
  }

  function New(self: Host, cfg: Config): Views {
    Views(self, cfg, {}, {}, {}, map[], [])
  }

  /** A random member: the wished one if it is a candidate. */
  ghost function Choose(cands: set<Host>, wish: Host): (h: Host)
    requires cands != {}
    ensures h in cands && (wish in cands ==> h == wish)
  {
    if wish in cands then wish else var h :| h in cands; h
  }

  // ----- view manipulation -----

  ghost function AddPassive(v: Views, h: Host, w: Picks): Views {
    if h == v.self || h in v.active || h in v.passive then v
    else if |v.passive| >= v.cfg.passiveSize && v.passive != {} then
      v.(passive := v.passive - {Choose(v.passive, w.evict)} + {h})
    else v.(passive := v.passive + {h})
  }

  function RemoveActive(v: Views, h: Host): Views {
    if h !in v.active then v else v.(active := v.active - {h}, events := v.events + [Down(h)])
  }

  /** Evicting a random active peer, filing it into the passive view. */
  ghost function DropRandomActive(v: Views, keep: Host, w: Picks): Views {
    if v.active - {keep} == {} then v
    else
      var victim := Choose(v.active - {keep}, w.victim);
      AddPassive(RemoveActive(v, victim), victim, w)
  }

  function Admit(v: Views, h: Host): Views {
    v.(passive := v.passive - {h}, active := v.active + {h}, events := v.events + [Up(h)])
  }

  ghost function AddActive(v: Views, h: Host, w: Picks): Views {
    if h == v.self || h in v.active then v
    else Admit(if |v.active| >= v.cfg.activeSize then DropRandomActive(v, h, w) else v, h)
  }

  /** Folding offered nodes into the passive view, one pick each. */
  ghost function IntegratePassive(v: Views, nodes: seq<Host>, ws: seq<Picks>): Views
    requires |ws| == |nodes|
  {
    if nodes == [] then v
    else
      var n := |nodes| - 1;
      AddPassive(IntegratePassive(v, nodes[..n], ws[..n]), nodes[n], ws[n])
  }

  // ----- outgoing attempts -----

  function ClearPending(v: Views, h: Host): Views {
    v.(pending := v.pending - {h})
  }

  /** JOIN is always accepted, so the contact is admitted at once; a Neighbor
      request waits for its reply. */
  ghost function DriveIntent(v: Views, h: Host, i: Intent, w: Picks): Views {
    if i.kind == JoinIntent then AddActive(ClearPending(v, h), h, w) else v
  }

  ghost function OpenActive(v: Views, h: Host, i: Intent, w: Picks): Views {
    if h == v.self || h in v.active || h in v.pending then v
    else
      var v1 := v.(pending := v.pending[h := i]);
      if h in v.sessions then DriveIntent(v1, h, i, w)
      else if w.dialOk then v1 else ClearPending(v1, h)
  }

  ghost function Promote(v: Views, w: Picks): Views {
    var cands := v.passive - v.pending.Keys;
    if |v.active| + |v.pending| >= v.cfg.activeSize || cands == {} then v
    else OpenActive(v, Choose(cands, w.cand), Intent(NeighborIntent, v.active == {}), w)
  }

  ghost function JoinContacts(v: Views, contacts: seq<Host>, ws: seq<Picks>): Views
    requires |ws| == |contacts|
  {
    if contacts == [] then v
    else
      var n := |contacts| - 1;
      OpenActive(JoinContacts(v, contacts[..n], ws[..n]), contacts[n], Intent(JoinIntent, false), ws[n])
  }

  // ----- sessions -----

  ghost function OnSessionConnected(v: Views, h: Host, w: Picks): Views {
    var v1 := v.(sessions := v.sessions + {h});
    if h in v.pending then DriveIntent(v1, h, v.pending[h], w) else v1
  }

  ghost function OnSessionDown(v: Views, h: Host, w: Picks): Views {
    var v1 := ClearPending(v.(sessions := v.sessions - {h}), h);
    if h in v.active then Promote(RemoveActive(v1, h), w) else v1
  }

  ghost function OnAttemptTimeout(v: Views, h: Host, w: Picks): Views {
    if h !in v.pending || h in v.active then v
    else if v.pending[h].kind == NeighborIntent then Promote(ClearPending(v, h), w)
    else ClearPending(v, h)
  }

  // ----- messages -----

  ghost function OnForwardJoin(v: Views, newNode: Host, ttl: nat, from: Host, w: Picks): Views {
    if newNode == v.self then v
    else
      var v1 := if ttl == v.cfg.prwl then AddPassive(v, newNode, w) else v;
      if ttl == 0 || |v1.active| <= 1 || v1.active - {from, newNode} == {} then
        OpenActive(v1, newNode, Intent(NeighborIntent, false), w)
      else v1
  }

  ghost function OnNeighbor(v: Views, priority: bool, from: Host, w: Picks): Views {
    if from in v.active then v
    else if priority || |v.active| < v.cfg.activeSize then AddActive(v, from, w)
    else AddPassive(v, from, w)
  }

  ghost function OnNeighborReply(v: Views, accepted: bool, from: Host, w: Picks): Views {
    if from !in v.pending then v
    else if accepted then AddActive(ClearPending(v, from), from, w)
    else Promote(AddPassive(ClearPending(v, from), from, w), w)
  }

  ghost function OnDisconnect(v: Views, from: Host, w: Picks): Views {
    if from !in v.active then v else Promote(AddPassive(RemoveActive(v, from), from, w), w)
  }

  /** A shuffle walk is forwarded while it has budget and somewhere to go. */
  predicate Forwards(v: Views, origin: Host, ttl: nat, from: Host) {
    origin != v.self && ttl > 0 && |v.active| > 1 && v.active - {from, origin} != {}
  }

  ghost function OnShuffle(v: Views, origin: Host, ttl: nat, offered: seq<Host>, from: Host, ws: seq<Picks>): Views
    requires |ws| == 1 + |offered|
  {
    if Forwards(v, origin, ttl, from) then v else IntegratePassive(v, [origin] + offered, ws)
  }

  function Retraced(route: seq<Host>, self: Host): seq<Host> {
    if route != [] && route[|route| - 1] == self then route[..|route| - 1] else route
  }

  ghost function OnShuffleReply(v: Views, nodes: seq<Host>, route: seq<Host>, ws: seq<Picks>): Views
    requires |ws| == |nodes|
  {
    if Retraced(route, v.self) == [] then IntegratePassive(v, nodes, ws) else v
  }

  ghost function OnMaintenanceTick(v: Views, w: Picks, ws: seq<Picks>): Views
    requires |ws| == |v.cfg.contacts|
  {
    if v.active == {} && v.pending == map[] then JoinContacts(v, v.cfg.contacts, ws)
    else if |v.active| < v.cfg.activeSize then Promote(v, w)
    else v
  }

  // ----- every event of the loop -----

  datatype Event =
    | Start
    | SessionConnected(host: Host)
    | SessionDown(host: Host)
    | AttemptTimeout(host: Host)
    | Join(from: Host)
    | ForwardJoin(newNode: Host, ttl: nat, from: Host)
    | AskNeighbor(priority: bool, from: Host)
    | NeighborReply(accepted: bool, from: Host)
    | Disconnect(from: Host)
    | Shuffle(origin: Host, ttl: nat, offered: seq<Host>, from: Host)
    | ShuffleReply(nodes: seq<Host>, route: seq<Host>)
    | MaintenanceTick

  datatype Label = Label(event: Event, w: Picks, ws: seq<Picks>)

  predicate Enabled(v: Views, l: Label) {
    match l.event
    case Shuffle(_, _, offered, _) => |l.ws| == 1 + |offered|
    case ShuffleReply(nodes, _) => |l.ws| == |nodes|
    case _ => |l.ws| == |v.cfg.contacts|
  }

  ghost function Step(v: Views, l: Label): Views
    requires Enabled(v, l)
  {
    match l.event
    case Start => JoinContacts(v, v.cfg.contacts, l.ws)
    case SessionConnected(h) => OnSessionConnected(v, h, l.w)
    case SessionDown(h) => OnSessionDown(v, h, l.w)
    case AttemptTimeout(h) => OnAttemptTimeout(v, h, l.w)
    case Join(from) => AddActive(v, from, l.w)
    case ForwardJoin(newNode, ttl, from) => OnForwardJoin(v, newNode, ttl, from, l.w)
    case AskNeighbor(priority, from) => OnNeighbor(v, priority, from, l.w)
    case NeighborReply(accepted, from) => OnNeighborReply(v, accepted, from, l.w)
    case Disconnect(from) => OnDisconnect(v, from, l.w)
    case Shuffle(origin, ttl, offered, from) => OnShuffle(v, origin, ttl, offered, from, l.ws)
    case ShuffleReply(nodes, route) => OnShuffleReply(v, nodes, route, l.ws)
    case MaintenanceTick => OnMaintenanceTick(v, l.w, l.ws)
  }
}
