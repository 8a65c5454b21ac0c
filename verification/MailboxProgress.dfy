/** A mailbox never gets stuck: while its loop has not been stopped, whatever is
    under way in any interleaving can be finished, and then every event ever
    pushed was handled or reported. */
module MailboxProgress {
  import opened Foundation
  import opened MailboxModel
  import opened MailboxSafety

  // ----- what is left to do -----

  function Pushing(s: State): set<nat> {
    set p | p in s.producers && s.producers[p].Counted?
  }

  function Waking(s: State): set<nat> {
    set p | p in s.producers && s.producers[p].Signalling?
  }

  function Undoing(s: State): set<nat> {
    set p | p in s.producers && s.producers[p].Uncounting?
  }

  function Telling(s: State): set<nat> {
    set p | p in s.producers && s.producers[p].Reporting?
  }

  function Busy(l: Loop): nat {
    match l case Running(_) => 2 case Parked => 1 case _ => 0
  }

  /** s2 is closer to rest than s: fewer events to push, else fewer queued, else
      a loop nearer to its next look, else fewer producers on their way out. */
  predicate Closer(s: State, s2: State) {
    || |Pushing(s2)| < |Pushing(s)|
    || (|Pushing(s2)| == |Pushing(s)| &&
        (|| |s2.queue| < |s.queue|
         || (|s2.queue| == |s.queue| &&
             (|| Busy(s2.loop) < Busy(s.loop)
              || (Busy(s2.loop) == Busy(s.loop) &&
                  (|| |Waking(s2)| < |Waking(s)|
                   || (|Waking(s2)| == |Waking(s)| &&
                       (|| |Undoing(s2)| < |Undoing(s)|
                        || (|Undoing(s2)| == |Undoing(s)| && |Telling(s2)| < |Telling(s)|)))))))))
  }

  /** Nothing queued, running, or on its way in or out. */
  predicate AtRest(s: State) {
    s.producers == map[] && s.queue == [] && !s.loop.Running?
  }

  lemma Dropped1(a: set<nat>, b: set<nat>, p: nat)
    requires p in a && b == a - {p}
    ensures |b| == |a| - 1
  {
  }

  lemma PushCloser(s: State, p: nat)
    requires s.cap >= 1 && Enabled(s, Push(p))
    ensures Closer(s, Step(s, Push(p)))
  {
    var s2 := Step(s, Push(p));
    assert Pushing(s2) == Pushing(s) - {p};
    Dropped1(Pushing(s), Pushing(s2), p);
  }

  lemma SignalCloser(s: State, p: nat)
    requires s.cap >= 1 && Enabled(s, Signal(p))
    ensures Closer(s, Step(s, Signal(p)))
  {
    var s2 := Step(s, Signal(p));
    assert Pushing(s2) == Pushing(s);
    assert Waking(s2) == Waking(s) - {p};
    Dropped1(Waking(s), Waking(s2), p);
  }

  lemma UncountCloser(s: State, p: nat)
    requires s.cap >= 1 && Enabled(s, Uncount(p))
    ensures Closer(s, Step(s, Uncount(p)))
  {
    var s2 := Step(s, Uncount(p));
    assert Pushing(s2) == Pushing(s) && Waking(s2) == Waking(s);
    assert Undoing(s2) == Undoing(s) - {p};
    Dropped1(Undoing(s), Undoing(s2), p);
  }

  lemma ReportCloser(s: State, p: nat)
    requires s.cap >= 1 && Enabled(s, Report(p))
    ensures Closer(s, Step(s, Report(p)))
  {
    var s2 := Step(s, Report(p));
    assert Pushing(s2) == Pushing(s) && Waking(s2) == Waking(s) && Undoing(s2) == Undoing(s);
    assert Telling(s2) == Telling(s) - {p};
    Dropped1(Telling(s), Telling(s2), p);
  }

  lemma LoopCloser(s: State, l: Label)
    requires s.cap >= 1 && Enabled(s, l) && (l.Take? || l.Wake? || l.Finish?)
    ensures Closer(s, Step(s, l))
  {
    assert Pushing(Step(s, l)) == Pushing(s);
  }

  /** No new event, no shutdown: only what is under way goes on. */
  predicate Settles(l: Label) {
    !l.Begin? && !l.Abort? && !l.Shutdown? && !l.Stop? && !l.Park?
  }

  /** Short of rest, some step brings it closer. */
  lemma NextStep(s: State) returns (l: Label)
    requires Inv(s) && s.loop != Stopped && !AtRest(s)
    ensures Enabled(s, l) && Settles(l) && Closer(s, Step(s, l)) && Step(s, l).loop != Stopped
  {
    hide Conserved, Ordered, Bounded, Reported, Closer;
    if s.loop.Running? {
      l := Finish;
      LoopCloser(s, l);
    } else if s.queue != [] && s.loop == Checking {
      l := Take;
      LoopCloser(s, l);
    } else if s.queue != [] && s.signal {
      l := Wake;
      LoopCloser(s, l);
    } else if s.queue != [] {
      var p :| p in s.producers && s.producers[p].Signalling?;
      l := Signal(p);
      SignalCloser(s, p);
    } else {
      var p :| p in s.producers;
      match s.producers[p]
      case Counted(_) =>
        l := Push(p);
        PushCloser(s, p);
      case Signalling(_) =>
        l := Signal(p);
        SignalCloser(s, p);
      case Uncounting(_) =>
        l := Uncount(p);
        UncountCloser(s, p);
      case Reporting(_) =>
        l := Report(p);
        ReportCloser(s, p);
    }
  }

  // ----- to rest -----

  ghost function Last(ss: seq<State>): State
    requires ss != []
  {
    ss[|ss| - 1]
  }

  /** The second run is the first one, taken further by steps under way. */
  ghost predicate Continues(policy: Policy, cap: nat, ss: seq<State>, ls: seq<Label>, ss2: seq<State>, ls2: seq<Label>) {
    && IsRun(policy, cap, ss, ls) && IsRun(policy, cap, ss2, ls2) && ss <= ss2 && ls <= ls2
    && |ss| == |ls| + 1 && |ss2| == |ls2| + 1 && forall i | |ls| <= i < |ls2| :: Settles(ls2[i])
  }

  lemma Take1(policy: Policy, cap: nat, ss: seq<State>, ls: seq<Label>, l: Label) returns (ss2: seq<State>, ls2: seq<Label>)
    requires IsRun(policy, cap, ss, ls) && ss != [] && Last(ss).cap >= 1 && Enabled(Last(ss), l) && Settles(l)
    ensures Continues(policy, cap, ss, ls, ss2, ls2) && Last(ss2) == Step(Last(ss), l)
  {
    hide Step, Enabled;
    ss2, ls2 := ss + [Step(Last(ss), l)], ls + [l];
  }

  lemma {:induction false} ComesToRest(policy: Policy, cap: nat, ss: seq<State>, ls: seq<Label>) returns (ss2: seq<State>, ls2: seq<Label>)
    requires IsRun(policy, cap, ss, ls) && ss != [] && Last(ss).loop != Stopped
    ensures Continues(policy, cap, ss, ls, ss2, ls2) && AtRest(Last(ss2))
    decreases |Pushing(Last(ss))|, |Last(ss).queue|, Busy(Last(ss).loop), |Waking(Last(ss))|, |Undoing(Last(ss))|, |Telling(Last(ss))|
  {
    hide Conserved, Ordered, Bounded, Reported, Step, Enabled, AtRest, Pushing, Waking, Undoing, Telling, Settles;
    assert |ss| == |ls| + 1;
    RunInv(policy, cap, ss, ls, |ls|);
    if AtRest(Last(ss)) {
      ss2, ls2 := ss, ls;
    } else {
      var l := NextStep(Last(ss));
      var ss1, ls1 := Take1(policy, cap, ss, ls, l);
      ss2, ls2 := ComesToRest(policy, cap, ss1, ls1);
    }
  }

  /** From every state of every interleaving in which the loop has not been
      stopped there is a way on, with no new event, to rest: the in-flight counter
      is zero, and every event ever pushed was dispatched, in push order, or was
      dropped and reported. */
  lemma CanDrain(policy: Policy, cap: nat, ss: seq<State>, ls: seq<Label>) returns (ss2: seq<State>, ls2: seq<Label>)
    requires IsRun(policy, cap, ss, ls) && ss != [] && Last(ss).loop != Stopped
    ensures Continues(policy, cap, ss, ls, ss2, ls2) && AtRest(Last(ss2))
    ensures var s := Last(ss2);
            && s.inFlight == 0 && Increasing(s.dispatched) && Elements(s.dead) == s.dropped
            && forall t: nat :: t < |s.log| <==> t in s.dispatched || t in s.dropped
  {
    hide Continues;
    ss2, ls2 := ComesToRest(policy, cap, ss, ls);
    assert IsRun(policy, cap, ss2, ls2) && |ss2| == |ls2| + 1 by { ContinuesIs(policy, cap, ss, ls, ss2, ls2); }
    var s := Last(ss2);
    RunInv(policy, cap, ss2, ls2, |ls2|);
    DeadLettersExact(policy, cap, ss2, ls2, |ls2|);
    assert UncoveredPids(s) == {};
    assert s.dispatched + s.queue == s.dispatched;
  }

  lemma ContinuesIs(policy: Policy, cap: nat, ss: seq<State>, ls: seq<Label>, ss2: seq<State>, ls2: seq<Label>)
    requires Continues(policy, cap, ss, ls, ss2, ls2)
    ensures IsRun(policy, cap, ss2, ls2) && |ss2| == |ls2| + 1
  {
  }
}
