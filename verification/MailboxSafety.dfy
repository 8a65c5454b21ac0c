/** What holds in every state of every interleaving. */
module MailboxSafety {
  import opened Foundation
  import opened MailboxModel

  // ----- counting -----

  /** A producer whose increment is not (or no longer) backed by a queued event. */
  predicate Uncovered(p: Producer) {
    p.Counted? || p.Uncounting? || (p.Signalling? && p.dropped.Some?)
  }

  ghost function UncoveredPids(s: State): set<nat> {
    set p | p in s.producers && Uncovered(s.producers[p])
  }

  ghost predicate Conserved(s: State) {
    s.inFlight == |s.queue| + (if s.loop.Running? then 1 else 0) + |UncoveredPids(s)|
  }

  // ----- order -----

  predicate Increasing(ts: seq<nat>) {
    forall i, j | 0 <= i < j < |ts| :: ts[i] < ts[j]
  }

  /** The tickets dispatched or still queued, in that order. */
  function Surviving(s: State): seq<nat> {
    s.dispatched + s.queue
  }

  ghost predicate Ordered(s: State) {
    Accounts(Surviving(s), |s.log|, s.dropped)
  }

  /** ts lists in increasing order exactly the n first tickets not dropped. */
  ghost predicate Accounts(ts: seq<nat>, n: nat, dropped: set<nat>) {
    && Increasing(ts)
    && (forall t: nat :: t in ts <==> t < n && t !in dropped)
    && (forall t | t in dropped :: t < n)
  }

  // ----- wakeups, bounds and dead letters -----

  ghost predicate WakeupPending(s: State) {
    s.signal || exists p :: p in s.producers && s.producers[p].Signalling?
  }

  /** The ticket a producer still has to hand to the dead-letter hook. */
  function Owed(p: Producer): Option<nat> {
    match p
    case Counted(_) => None
    case Signalling(d) => d
    case Uncounting(d) => d
    case Reporting(t) => Some(t)
  }

  function OwedBy(s: State, p: nat): Option<nat> {
    if p in s.producers then Owed(s.producers[p]) else None
  }

  ghost predicate Reported(s: State) {
    && NoDuplicates(s.dead)
    && (forall t | t in s.dead :: t in s.dropped)
    && (forall p | OwedBy(s, p).Some? :: OwedBy(s, p).value in s.dropped && OwedBy(s, p).value !in s.dead)
    && (forall p, q | p != q && OwedBy(s, p).Some? :: OwedBy(s, p) != OwedBy(s, q))
    && (forall t | t in s.dropped && t !in s.dead :: exists p :: OwedBy(s, p) == Some(t))
  }

  ghost predicate Bounded(s: State) {
    && (s.policy != Unbounded ==> |s.queue| <= s.cap)
    && (s.policy == Block || s.policy == Unbounded ==> s.dropped == {})
    && (s.loop.Running? ==> s.dispatched != [] && s.loop.ticket == s.dispatched[|s.dispatched| - 1])
  }

  ghost predicate Inv(s: State) {
    && s.cap >= 1 && Conserved(s) && Ordered(s) && Bounded(s) && Reported(s)
    && (s.loop == Parked && s.queue != [] ==> WakeupPending(s))
    && (s.loop == Parked ==> s.policy != Block)
  }

  // ----- every step keeps each part -----

  lemma SizeWithout(a: set<nat>, p: nat)
    ensures |a| == |a - {p}| + (if p in a then 1 else 0)
  {
    if p in a { assert a == (a - {p}) + {p}; } else { assert a == a - {p}; }
  }

  lemma UncoveredChange(s: State, s2: State, p: nat)
    requires forall q | q != p :: (q in s2.producers <==> q in s.producers) && (q in s.producers ==> s2.producers[q] == s.producers[q])
    ensures |UncoveredPids(s2)| ==
            |UncoveredPids(s)| - (if p in UncoveredPids(s) then 1 else 0) + (if p in UncoveredPids(s2) then 1 else 0)
  {
    assert UncoveredPids(s2) - {p} == UncoveredPids(s) - {p};
    SizeWithout(UncoveredPids(s), p);
    SizeWithout(UncoveredPids(s2), p);
  }

  lemma StepConserves(s: State, l: Label)
    requires s.cap >= 1 && Conserved(s) && Enabled(s, l)
    ensures Conserved(Step(s, l))
  {
    hide UncoveredPids;
    var s2 := Step(s, l);
    if l.Take? || l.Park? || l.Wake? || l.Finish? || l.Stop? || l.Shutdown? {
      SamePids(s, s2);
    } else {
      UncoveredChange(s, s2, l.pid);
      UncoveredAt(s, l.pid);
      UncoveredAt(s2, l.pid);
    }
  }

  lemma SamePids(s: State, s2: State)
    requires s2.producers == s.producers
    ensures UncoveredPids(s2) == UncoveredPids(s)
  {
  }

  lemma UncoveredAt(s: State, p: nat)
    ensures p in UncoveredPids(s) <==> p in s.producers && Uncovered(s.producers[p])
  {
  }

  lemma AppendTicket(ts: seq<nat>, n: nat, dropped: set<nat>)
    requires Accounts(ts, n, dropped)
    ensures Accounts(ts + [n], n + 1, dropped)
  {
    assert forall i | 0 <= i < |ts| :: ts[i] in ts;
  }

  lemma DropTicket(ts: seq<nat>, n: nat, dropped: set<nat>)
    requires Accounts(ts, n, dropped)
    ensures Accounts(ts, n + 1, dropped + {n})
  {
  }

  lemma EvictTicket(ts: seq<nat>, k: nat, n: nat, dropped: set<nat>)
    requires Accounts(ts, n, dropped) && k < |ts|
    ensures Accounts(ts[..k] + ts[k + 1..], n, dropped + {ts[k]})
  {
    hide Increasing;
    RemoveAt(ts, k);
    var kept := ts[..k] + ts[k + 1..];
    assert ts[k] in ts;
    assert forall t: nat :: t in kept <==> t in ts && t != ts[k];
  }

  lemma PushOrdered(s: State, p: nat)
    requires s.cap >= 1 && Ordered(s) && Bounded(s) && p in s.producers && s.producers[p].Counted?
    ensures Ordered(PushStep(s, p))
  {
    hide Accounts;
    var s2 := PushStep(s, p);
    var t := |s.log|;
    var r := EnqueueLocked(s.policy, s.cap, s.queue, t);
    var ts := Surviving(s);
    if r.dropped.None? {
      assert Surviving(s2) == ts + [t];
      AppendTicket(ts, t, s.dropped);
    } else if s.policy == DropNewest {
      DropTicket(ts, t, s.dropped);
    } else {
      var k := |s.dispatched|;
      assert ts[k] == s.queue[0];
      assert Surviving(s2) == ts[..k] + ts[k + 1..] + [t];
      EvictTicket(ts, k, t, s.dropped);
      AppendTicket(ts[..k] + ts[k + 1..], t, s.dropped + {ts[k]});
    }
  }

  lemma RemoveAt(ts: seq<nat>, k: nat)
    requires Increasing(ts) && k < |ts|
    ensures Increasing(ts[..k] + ts[k + 1..])
    ensures forall x :: x in ts[..k] + ts[k + 1..] <==> x in ts && x != ts[k]
  {
    assert ts == ts[..k] + [ts[k]] + ts[k + 1..];
    var kept := ts[..k] + ts[k + 1..];
    assert forall i | 0 <= i < |kept| :: kept[i] == ts[if i < k then i else i + 1];
  }

  lemma StepOrdered(s: State, l: Label)
    requires s.cap >= 1 && Ordered(s) && Bounded(s) && Enabled(s, l)
    ensures Ordered(Step(s, l))
  {
    if l.Push? {
      PushOrdered(s, l.pid);
    } else {
      assert Surviving(Step(s, l)) == Surviving(s);
    }
  }

  lemma StepBounded(s: State, l: Label)
    requires s.cap >= 1 && Bounded(s) && Enabled(s, l)
    ensures Bounded(Step(s, l))
  {
  }

  /** A dropped ticket is new to the dropped set. */
  lemma DropIsNew(s: State, p: nat)
    requires s.cap >= 1 && Ordered(s) && p in s.producers && s.producers[p].Counted?
    ensures var r := EnqueueLocked(s.policy, s.cap, s.queue, |s.log|); r.dropped.Some? ==> r.dropped.value !in s.dropped
  {
    if s.queue != [] { assert s.queue[0] in Surviving(s); }
  }

  lemma ReportedSame(s: State, s2: State)
    requires Reported(s) && s2.dead == s.dead && s2.dropped == s.dropped && forall p :: OwedBy(s2, p) == OwedBy(s, p)
    ensures Reported(s2)
  {
    hide OwedBy;
  }

  lemma PushReported(s: State, p: nat)
    requires s.cap >= 1 && Ordered(s) && Reported(s) && p in s.producers && s.producers[p].Counted?
    ensures Reported(PushStep(s, p))
  {
    hide Ordered;
    DropIsNew(s, p);
    var s2 := PushStep(s, p);
    var r := EnqueueLocked(s.policy, s.cap, s.queue, |s.log|);
    assert OwedBy(s2, p) == r.dropped && OwedBy(s, p) == None;
    assert forall q | q != p :: OwedBy(s2, q) == OwedBy(s, q);
    hide PushStep, OwedBy;
    forall t | t in s2.dropped && t !in s2.dead ensures exists q :: OwedBy(s2, q) == Some(t) {
      if t in s.dropped {
        var q :| OwedBy(s, q) == Some(t);
        assert OwedBy(s2, q) == Some(t);
      } else {
        assert OwedBy(s2, p) == Some(t);
      }
    }
  }

  lemma ReportReported(s: State, s2: State, p: nat, t: nat)
    requires Reported(s) && OwedBy(s, p) == Some(t) && OwedBy(s2, p) == None
    requires s2.dead == s.dead + [t] && s2.dropped == s.dropped && forall q | q != p :: OwedBy(s2, q) == OwedBy(s, q)
    ensures Reported(s2)
  {
    hide OwedBy;
    forall x | x in s2.dropped && x !in s2.dead ensures exists q :: OwedBy(s2, q) == Some(x) {
      var q :| OwedBy(s, q) == Some(x);
      assert OwedBy(s2, q) == Some(x);
    }
  }

  lemma StepReported(s: State, l: Label)
    requires s.cap >= 1 && Ordered(s) && Reported(s) && Enabled(s, l)
    ensures Reported(Step(s, l))
  {
    hide Ordered, Reported, PushStep;
    if l.Push? {
      PushReported(s, l.pid);
    } else if l.Report? {
      ReportReported(s, Step(s, l), l.pid, s.producers[l.pid].ticket);
    } else {
      ReportedSame(s, Step(s, l));
    }
  }

  lemma StepWakeup(s: State, l: Label)
    requires Inv(s) && Enabled(s, l)
    ensures var s2 := Step(s, l); s2.loop == Parked && s2.queue != [] ==> WakeupPending(s2)
  {
    hide Conserved, Ordered, Bounded, Reported;
    var s2 := Step(s, l);
    if s2.loop == Parked && s2.queue != [] {
      if l.Push? {
        assert l.pid in s2.producers && s2.producers[l.pid].Signalling?;
      } else if !s.signal && !l.Signal? {
        var p :| p in s.producers && s.producers[p].Signalling?;
        assert p in s2.producers && s2.producers[p].Signalling?;
      }
    }
  }

  lemma StepInv(s: State, l: Label)
    requires Inv(s) && Enabled(s, l)
    ensures Inv(Step(s, l))
  {
    hide Conserved, Ordered, Bounded, Reported, WakeupPending;
    StepConserves(s, l);
    StepOrdered(s, l);
    StepBounded(s, l);
    StepReported(s, l);
    StepWakeup(s, l);
  }

  lemma {:induction false} RunInv(policy: Policy, cap: nat, ss: seq<State>, ls: seq<Label>, k: nat)
    requires IsRun(policy, cap, ss, ls) && k < |ss|
    ensures Inv(ss[k]) && ss[k].policy == policy && ss[k].cap == cap
  {
    hide Inv, Enabled;
    if k == 0 {
      InitInv(policy, cap);
    } else {
      RunInv(policy, cap, ss, ls, k - 1);
      assert ss[k - 1 + 1] == Step(ss[k - 1], ls[k - 1]);
      StepInv(ss[k - 1], ls[k - 1]);
    }
  }

  lemma InitInv(policy: Policy, cap: nat)
    requires cap >= 1
    ensures Inv(Init(policy, cap))
  {
    assert UncoveredPids(Init(policy, cap)) == {};
  }

  // ----- the theorems -----

  /** In every interleaving the counter is exactly the number of events queued,
      being dispatched, or held by a producer mid-enqueue. */
  lemma InFlightConserved(policy: Policy, cap: nat, ss: seq<State>, ls: seq<Label>, k: nat)
    requires IsRun(policy, cap, ss, ls) && k < |ss|
    ensures Conserved(ss[k]) && ss[k].inFlight >= 0
  {
    RunInv(policy, cap, ss, ls, k);
  }

  /** A Quiescent reader that sees zero sees an idle protocol: nothing queued,
      no handler running, and no producer that has yet to push. */
  lemma ZeroMeansQuiescent(policy: Policy, cap: nat, ss: seq<State>, ls: seq<Label>, k: nat)
    requires IsRun(policy, cap, ss, ls) && k < |ss| && ss[k].inFlight == 0
    ensures ss[k].queue == [] && !ss[k].loop.Running?
    ensures forall p | p in ss[k].producers :: !ss[k].producers[p].Counted?
  {
    RunInv(policy, cap, ss, ls, k);
    forall p | p in ss[k].producers ensures !ss[k].producers[p].Counted? {
      assert p !in UncoveredPids(ss[k]);
    }
  }

  /** Handlers see the events in the order they were pushed, minus exactly the
      dropped ones: nothing is lost, repeated or reordered. */
  lemma DispatchInPushOrder(policy: Policy, cap: nat, ss: seq<State>, ls: seq<Label>, k: nat)
    requires IsRun(policy, cap, ss, ls) && k < |ss|
    ensures var s := ss[k];
            && Increasing(s.dispatched + s.queue)
            && (forall t: nat :: t in s.dispatched + s.queue <==> t < |s.log| && t !in s.dropped)
            && (policy == Block || policy == Unbounded ==> s.dropped == {})
            && (policy != Unbounded ==> |s.queue| <= cap)
  {
    hide IsRun;
    RunInv(policy, cap, ss, ls, k);
  }

  /** No wakeup is lost: a loop parked beside a non-empty queue has a signal
      waiting or a producer about to send one. */
  lemma NoLostWakeup(policy: Policy, cap: nat, ss: seq<State>, ls: seq<Label>, k: nat)
    requires IsRun(policy, cap, ss, ls) && k < |ss| && ss[k].loop == Parked && ss[k].queue != []
    ensures ss[k].cap >= 1
    ensures Enabled(ss[k], Wake) || exists p :: Enabled(ss[k], Signal(p)) && Enabled(Step(ss[k], Signal(p)), Wake)
  {
    hide IsRun, Conserved, Ordered, Bounded, Reported;
    RunInv(policy, cap, ss, ls, k);
    var s := ss[k];
    if !s.signal {
      var p :| p in s.producers && s.producers[p].Signalling?;
      assert Enabled(s, Signal(p));
    }
  }

  /** Dead letters: the hook is called at most once per dropped event and for
      nothing else, and once the producers have left enqueue, for all of them. */
  lemma DeadLettersExact(policy: Policy, cap: nat, ss: seq<State>, ls: seq<Label>, k: nat)
    requires IsRun(policy, cap, ss, ls) && k < |ss|
    ensures NoDuplicates(ss[k].dead) && Elements(ss[k].dead) <= ss[k].dropped
    ensures ss[k].producers == map[] ==> Elements(ss[k].dead) == ss[k].dropped
  {
    hide IsRun, Conserved, Ordered, Bounded;
    RunInv(policy, cap, ss, ls, k);
    var s := ss[k];
    if s.producers == map[] {
      forall t | t in s.dropped ensures t in s.dead {
        assert forall p :: OwedBy(s, p) == None;
      }
    }
  }
}
