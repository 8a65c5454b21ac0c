/** Which event an overflow policy gives up, over every interleaving. */
module MailboxPolicy {
  import opened Foundation
  import opened MailboxModel
  import opened MailboxSafety

  lemma RunStep(policy: Policy, cap: nat, ss: seq<State>, ls: seq<Label>, k: nat)
    requires IsRun(policy, cap, ss, ls) && k < |ls|
    ensures ss[k].cap == cap >= 1 && ss[k].policy == policy && Inv(ss[k]) && Enabled(ss[k], ls[k]) && ss[k + 1] == Step(ss[k], ls[k])
  {
    hide Inv, Enabled;
    RunInv(policy, cap, ss, ls, k);
  }

  /** A push, exactly: the new event goes to the end of the queue; at a full
      queue DropNewest gives up the new event instead, and DropOldest the one at
      the head. Something is dropped only then. */
  lemma PushIsExact(policy: Policy, cap: nat, ss: seq<State>, ls: seq<Label>, k: nat)
    requires IsRun(policy, cap, ss, ls) && k < |ls| && ls[k].Push?
    ensures var s, s2 := ss[k], ss[k + 1]; var t := |s.log|; var full := |s.queue| == cap;
            && (full && policy == DropNewest ==> s2.queue == s.queue && s2.dropped == s.dropped + {t})
            && (full && policy == DropOldest ==> s2.queue == s.queue[1..] + [t] && s2.dropped == s.dropped + {s.queue[0]})
            && (!full || policy == Unbounded ==> s2.queue == s.queue + [t] && s2.dropped == s.dropped)
            && (full ==> policy != Block)
            && |s2.log| == t + 1 && s2.dispatched == s.dispatched
            && (s2.dropped != s.dropped <==> full && (policy == DropNewest || policy == DropOldest))
  {
    hide IsRun, Conserved, Reported;
    RunStep(policy, cap, ss, ls, k);
    RunLength(policy, cap, ss, ls);
    assert ss[k].queue != [] ==> ss[k].queue[0] in Surviving(ss[k]);
  }

  /** Nothing but a push drops an event. */
  lemma OnlyPushDrops(policy: Policy, cap: nat, ss: seq<State>, ls: seq<Label>, k: nat)
    requires IsRun(policy, cap, ss, ls) && k < |ls| && !ls[k].Push?
    ensures ss[k + 1].dropped == ss[k].dropped && ss[k + 1].log == ss[k].log
  {
    hide IsRun, Inv;
    RunStep(policy, cap, ss, ls, k);
  }

  // ----- DropNewest -----

  lemma SurvivorsStay(s: State, l: Label, t: nat)
    requires s.cap >= 1 && Enabled(s, l) && s.policy != DropOldest && t in Surviving(s)
    ensures t in Surviving(Step(s, l))
  {
    if l.Push? {
      var s2 := Step(s, l);
      assert s2.queue == s.queue || s2.queue == s.queue + [|s.log|];
    } else {
      assert Surviving(Step(s, l)) == Surviving(s);
    }
  }

  lemma {:induction false} SurvivorsStayForever(policy: Policy, cap: nat, ss: seq<State>, ls: seq<Label>, i: nat, k: nat, t: nat)
    requires IsRun(policy, cap, ss, ls) && i <= k < |ss| && policy != DropOldest && t in Surviving(ss[i])
    ensures t in Surviving(ss[k])
    decreases k
  {
    hide IsRun, Surviving, Inv, Enabled;
    if i < k {
      SurvivorsStayForever(policy, cap, ss, ls, i, k - 1, t);
      assert k - 1 < |ls| by { RunLength(policy, cap, ss, ls); }
      RunStep(policy, cap, ss, ls, k - 1);
      assert ss[k - 1 + 1] == Step(ss[k - 1], ls[k - 1]);
      SurvivorsStay(ss[k - 1], ls[k - 1], t);
    }
  }

  lemma RunLength(policy: Policy, cap: nat, ss: seq<State>, ls: seq<Label>)
    requires IsRun(policy, cap, ss, ls)
    ensures |ss| == |ls| + 1
  {
  }

  lemma {:induction false} DroppedStays(policy: Policy, cap: nat, ss: seq<State>, ls: seq<Label>, i: nat, k: nat, t: nat)
    requires IsRun(policy, cap, ss, ls) && i <= k < |ss| && t in ss[i].dropped
    ensures t in ss[k].dropped
    decreases k
  {
    hide IsRun, Inv, Enabled;
    if i < k {
      DroppedStays(policy, cap, ss, ls, i, k - 1, t);
      assert k - 1 < |ls| by { RunLength(policy, cap, ss, ls); }
      RunStep(policy, cap, ss, ls, k - 1);
      assert ss[k - 1 + 1] == Step(ss[k - 1], ls[k - 1]);
    }
  }

  /** Unless the policy is DropOldest, an event once queued is never dropped: a
      dropped one never was in the queue, at any moment of the run. */
  lemma QueuedIsSafe(policy: Policy, cap: nat, ss: seq<State>, ls: seq<Label>, i: nat, k: nat, t: nat)
    requires IsRun(policy, cap, ss, ls) && i < |ss| && k < |ss| && policy != DropOldest && t in ss[i].queue
    ensures t !in ss[k].dropped
  {
    hide IsRun, Conserved, Bounded, Reported, WakeupPending;
    var last := if i < k then k else i;
    assert t in Surviving(ss[i]);
    SurvivorsStayForever(policy, cap, ss, ls, i, last, t);
    RunInv(policy, cap, ss, ls, last);
    if t in ss[k].dropped { DroppedStays(policy, cap, ss, ls, k, last, t); }
  }

  // ----- DropOldest -----

  ghost predicate OldestFirst(s: State) {
    forall d, q | d in s.dropped && q in s.queue :: d < q
  }

  lemma StepOldestFirst(s: State, l: Label)
    requires Inv(s) && Enabled(s, l) && s.policy == DropOldest && OldestFirst(s)
    ensures OldestFirst(Step(s, l))
  {
    hide Conserved, Reported, WakeupPending;
    var s2 := Step(s, l);
    if l.Push? {
      var t := |s.log|;
      if |s.queue| >= s.cap {
        HeadIsLeast(s);
        assert s2.queue == s.queue[1..] + [t] && s2.dropped == s.dropped + {s.queue[0]};
        assert forall q | q in s2.queue :: q == t || (q in s.queue[1..] && q in s.queue);
      }
      assert forall d | d in s2.dropped :: d < t;
    } else {
      assert forall q | q in s2.queue :: q in s.queue;
    }
  }

  lemma HeadIsLeast(s: State)
    requires Ordered(s) && s.queue != []
    ensures s.queue[0] < |s.log| && forall q | q in s.queue[1..] :: s.queue[0] < q
  {
    var ts, n := Surviving(s), |s.dispatched|;
    assert ts[n] == s.queue[0] && ts[n] in ts;
    forall q | q in s.queue[1..] ensures s.queue[0] < q {
      var j :| 1 <= j < |s.queue| && s.queue[j] == q;
      assert ts[n + j] == q;
    }
  }

  /** Under DropOldest whatever was dropped is older than everything still
      queued, and the newest event of all is in the queue or already dispatched. */
  lemma {:induction false} DropsOldest(cap: nat, ss: seq<State>, ls: seq<Label>, k: nat)
    requires IsRun(DropOldest, cap, ss, ls) && k < |ss|
    ensures OldestFirst(ss[k])
    ensures ss[k].log != [] ==> |ss[k].log| - 1 !in ss[k].dropped && |ss[k].log| - 1 in ss[k].dispatched + ss[k].queue
  {
    hide IsRun, Conserved, Reported, WakeupPending, OldestFirst, Bounded;
    RunLength(DropOldest, cap, ss, ls);
    RunInv(DropOldest, cap, ss, ls, k);
    if k == 0 {
      FreshState(cap, ss, ls);
    } else {
      DropsOldest(cap, ss, ls, k - 1);
      RunStep(DropOldest, cap, ss, ls, k - 1);
      var s, l := ss[k - 1], ls[k - 1];
      assert ss[k - 1 + 1] == Step(s, l);
      StepOldestFirst(s, l);
      NewestKept(s, l);
    }
  }

  lemma FreshState(cap: nat, ss: seq<State>, ls: seq<Label>)
    requires IsRun(DropOldest, cap, ss, ls)
    ensures OldestFirst(ss[0]) && ss[0].log == []
  {
  }

  lemma NewestKept(s: State, l: Label)
    requires Inv(s) && Enabled(s, l) && s.policy == DropOldest
    requires s.log != [] ==> |s.log| - 1 !in s.dropped
    ensures Step(s, l).log != [] ==> |Step(s, l).log| - 1 !in Step(s, l).dropped
  {
    hide Conserved, Reported, WakeupPending;
    if l.Push? && s.queue != [] { HeadIsLeast(s); }
  }
}
