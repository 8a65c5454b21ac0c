/** What Advance promises when no delay is negative, and what goes wrong
    otherwise. */
module FakeClockSafety {
  import opened Foundation
  import opened FakeClockModel

  // ----- scanning and removing -----

  /** The scan finds the first due timer. */
  lemma {:induction false} EarliestIs(items: seq<Entry>, target: int)
    ensures var b := EarliestDue(items, target);
            && (b.None? <==> forall e | e in items :: e.deadline > target)
            && (b.Some? ==> b.value in items && b.value.deadline <= target
                            && forall e | e in items && e.deadline <= target :: e == b.value || !Before(e, b.value))
  {
    if items != [] {
      var front, last := items[..|items| - 1], items[|items| - 1];
      EarliestIs(front, target);
      assert items == front + [last];
      assert forall e :: e in items <==> e in front || e == last;
    }
  }

  ghost predicate Distinct(items: seq<Entry>) {
    forall i, j | 0 <= i < j < |items| :: items[i].seqNo != items[j].seqNo
  }

  lemma {:induction false} RemoveIs(items: seq<Entry>, e: Entry)
    requires Distinct(items)
    ensures Distinct(Remove(items, e))
    ensures forall x :: x in Remove(items, e) <==> x in items && x != e
  {
    if items != [] {
      assert items == [items[0]] + items[1..];
      RemoveIs(items[1..], e);
      var r := Remove(items[1..], e);
      assert forall i | 0 <= i < |r| :: r[i] in items[1..];
    }
  }

  // ----- sound clocks -----

  ghost predicate ClockOk(c: Clock) {
    && Distinct(c.items)
    && (forall e | e in c.items :: c.now <= e.deadline && e.seqNo <= c.seqNo)
  }

  ghost predicate Forward(script: Script) {
    forall i | 0 <= i < |script| :: ForwardOps(script[i])
  }

  ghost predicate ForwardOps(ops: seq<Op>) {
    forall j | 0 <= j < |ops| && ops[j].Arm? :: ops[j].delay >= 0
  }

  // ----- what a log says -----

  ghost function ArmedIn(log: seq<Action>): set<Entry> {
    set a | a in log && a.Armed? :: a.entry
  }

  ghost function StoppedIn(log: seq<Action>): set<Entry> {
    set a | a in log && a.Stopped? :: a.entry
  }

  ghost function FiredIn(log: seq<Action>): set<Entry> {
    set a | a in log && a.Fired? :: a.entry
  }

  /** The timers that ended in this log, each in one way and once. */
  ghost function Ended(log: seq<Action>): set<Entry> {
    StoppedIn(log) + FiredIn(log)
  }

  lemma LogSplit(a: seq<Action>, b: seq<Action>)
    ensures ArmedIn(a + b) == ArmedIn(a) + ArmedIn(b)
    ensures StoppedIn(a + b) == StoppedIn(a) + StoppedIn(b)
    ensures FiredIn(a + b) == FiredIn(a) + FiredIn(b)
  {
    assert forall x :: x in a + b <==> x in a || x in b;
    forall x | x in ArmedIn(a) + ArmedIn(b) ensures x in ArmedIn(a + b) { assert Armed(x) in a + b; }
    forall x | x in StoppedIn(a) + StoppedIn(b) ensures x in StoppedIn(a + b) { assert Stopped(x) in a + b; }
    forall x | x in FiredIn(a) + FiredIn(b) ensures x in FiredIn(a + b) { assert Fired(x) in a + b; }
  }

  /** From c to c2 with this log: what is pending is what was, plus what was
      armed, minus what ended; only pending timers end; new timers are armed
      with new numbers and not in the past. */
  ghost predicate Accounts(c: Clock, log: seq<Action>, c2: Clock) {
    && Elements(c2.items) == Elements(c.items) + ArmedIn(log) - Ended(log)
    && Ended(log) <= Elements(c.items) + ArmedIn(log)
    && StoppedIn(log) !! FiredIn(log)
    && c.seqNo <= c2.seqNo && c.now <= c2.now
    && (forall e | e in ArmedIn(log) :: c.seqNo < e.seqNo <= c2.seqNo && c.now <= e.deadline)
  }

  lemma AccountsSelf(c: Clock)
    ensures Accounts(c, [], c)
  {
  }

  lemma KnownNumbers(c: Clock)
    requires ClockOk(c)
    ensures forall e | e in Elements(c.items) :: e.seqNo <= c.seqNo
  {
  }

  lemma AccountsJoin(a: Clock, la: seq<Action>, b: Clock, lb: seq<Action>, c: Clock)
    requires ClockOk(a) && Accounts(a, la, b) && Accounts(b, lb, c)
    ensures Accounts(a, la + lb, c)
  {
    hide ArmedIn, StoppedIn, FiredIn;
    LogSplit(la, lb);
    KnownNumbers(a);
    forall e | e in Ended(la) ensures e !in Elements(b.items) && e !in ArmedIn(lb) {
      assert e.seqNo <= b.seqNo;
    }
  }

  lemma PerformOk(c: Clock, op: Op)
    requires ClockOk(c) && (op.Arm? ==> op.delay >= 0)
    ensures ClockOk(Perform(c, op).clock) && Accounts(c, Perform(c, op).log, Perform(c, op).clock)
    ensures FiredIn(Perform(c, op).log) == {} && Perform(c, op).clock.now == c.now
  {
    match op
    case Arm(d) => ArmOk(c, d);
    case Halt(e) => StopOk(c, e);
  }

  lemma ArmOk(c: Clock, d: int)
    requires ClockOk(c) && d >= 0
    ensures var r := AfterFunc(c, d); ClockOk(r.clock) && Accounts(c, r.log, r.clock) && FiredIn(r.log) == {} && r.clock.now == c.now
  {
    var r := AfterFunc(c, d);
    var e := Entry(c.now + d, c.seqNo + 1);
    assert r.log == [Armed(e)];
    assert ArmedIn(r.log) == {e} by { assert Armed(e) in r.log; }
    assert StoppedIn(r.log) == {} && FiredIn(r.log) == {};
    assert forall i | 0 <= i < |c.items| :: c.items[i] in c.items;
    assert Elements(r.clock.items) == Elements(c.items) + {e};
  }

  lemma StopOk(c: Clock, e: Entry)
    requires ClockOk(c)
    ensures var r := Stop(c, e); ClockOk(r.clock) && Accounts(c, r.log, r.clock) && FiredIn(r.log) == {} && r.clock.now == c.now
  {
    var r := Stop(c, e);
    if e in c.items {
      RemoveIs(c.items, e);
      assert r.log == [Stopped(e)];
      assert StoppedIn(r.log) == {e} by { assert Stopped(e) in r.log; }
      assert ArmedIn(r.log) == {} && FiredIn(r.log) == {};
      assert Elements(r.clock.items) == Elements(c.items) - {e};
    } else {
      AccountsSelf(c);
    }
  }

  lemma {:induction false} PerformAllOk(c: Clock, ops: seq<Op>)
    requires ClockOk(c) && ForwardOps(ops)
    ensures var r := PerformAll(c, ops); ClockOk(r.clock) && Accounts(c, r.log, r.clock) && FiredIn(r.log) == {} && r.clock.now == c.now
  {
    hide ClockOk, Accounts, Perform;
    if ops == [] {
      AccountsSelf(c);
    } else {
      var front, op := ops[..|ops| - 1], ops[|ops| - 1];
      PerformAllOk(c, front);
      var r := PerformAll(c, front);
      PerformOk(r.clock, op);
      var s := Perform(r.clock, op);
      AccountsJoin(c, r.log, r.clock, s.log, s.clock);
      LogSplit(r.log, s.log);
    }
  }

  lemma FireOk(c: Clock, target: int)
    requires ClockOk(c) && EarliestDue(c.items, target).Some?
    ensures var e := EarliestDue(c.items, target).value;
            && c.now <= e.deadline <= target && e in c.items
            && ClockOk(Fire(c, e, true)) && Accounts(c, [Fired(e)], Fire(c, e, true))
            && (forall x | x in Fire(c, e, true).items && x.deadline <= target :: Before(e, x))
  {
    var e := EarliestDue(c.items, target).value;
    EarliestIs(c.items, target);
    RemoveIs(c.items, e);
    var log := [Fired(e)];
    assert FiredIn(log) == {e} by { assert Fired(e) in log; }
    assert ArmedIn(log) == {} && StoppedIn(log) == {};
    assert Elements(Remove(c.items, e)) == Elements(c.items) - {e};
    forall x | x in Remove(c.items, e) ensures e.deadline <= x.deadline || x.deadline > target {
      assert x.deadline <= target ==> !Before(x, e);
    }
    forall x | x in Remove(c.items, e) && x.deadline <= target ensures Before(e, x) {
      assert !Before(x, e);
      if x.seqNo == e.seqNo { SameNumber(c.items, e, x); }
    }
  }

  lemma SameNumber(items: seq<Entry>, a: Entry, b: Entry)
    requires Distinct(items) && a in items && b in items && a.seqNo == b.seqNo
    ensures a == b
  {
  }

  // ----- the order of firing -----

  ghost predicate InOrder(log: seq<Action>) {
    forall i, j | 0 <= i < j < |log| && log[i].Fired? && log[j].Fired? :: Before(log[i].entry, log[j].entry)
  }

  /** Every timer fired in the log comes after e and is due by target. */
  ghost predicate AllAfter(log: seq<Action>, e: Entry, target: int) {
    forall x | x in FiredIn(log) :: Before(e, x) && x.deadline <= target
  }

  lemma InOrderJoin(e: Entry, ops: seq<Action>, log: seq<Action>, target: int)
    requires FiredIn(ops) == {} && InOrder(log) && AllAfter(log, e, target)
    ensures InOrder([Fired(e)] + ops + log)
  {
    forall k | 0 <= k < |ops| && ops[k].Fired? ensures ops[k].entry in FiredIn(ops) { FiredIsListed(ops, k); }
    forall k | 0 <= k < |log| && log[k].Fired? ensures log[k].entry in FiredIn(log) { FiredIsListed(log, k); }
    assert forall k | 0 <= k < |ops| :: !ops[k].Fired?;
    assert forall k | 0 <= k < |log| && log[k].Fired? :: Before(e, log[k].entry);
  }

  lemma FiredIsListed(log: seq<Action>, k: nat)
    requires k < |log| && log[k].Fired?
    ensures log[k].entry in FiredIn(log)
  {
    assert log[k] in log;
  }

  /** What is pending and due after e fires, and whatever its callback arms,
      comes after e. */
  lemma PendingAfter(c: Clock, e: Entry, target: int, log: seq<Action>, c2: Clock)
    requires ClockOk(c) && Accounts(c, log, c2) && c.now == e.deadline && e.seqNo <= c.seqNo
    requires forall x | x in c.items && x.deadline <= target :: Before(e, x)
    ensures forall x | x in c2.items && x.deadline <= target :: Before(e, x)
  {
    forall x | x in c2.items && x.deadline <= target ensures Before(e, x) {
      assert x in Elements(c2.items);
      if x !in ArmedIn(log) { assert x in Elements(c.items); }
    }
  }

  /** The main loop: from a sound clock, with callbacks that do not arm in the
      past, it accounts for every timer, fires in order, ends with nothing due,
      and moves time only forward. */
  lemma {:induction false} FireAllOk(c: Clock, target: int, script: Script)
    requires ClockOk(c) && Forward(script) && c.now <= target
    ensures var r := FireAll(c, target, script, true);
            && ClockOk(r.clock) && Accounts(c, r.log, r.clock) && InOrder(r.log) && r.clock.now <= target
            && (forall x | x in r.clock.items :: x.deadline > target)
            && (forall x | x in FiredIn(r.log) :: x.deadline <= target)
    decreases |script|, |c.items|
  {
    hide ClockOk, Accounts, InOrder, Fire, ArmedIn, StoppedIn, FiredIn, Before, ForwardOps;
    EarliestIs(c.items, target);
    var due := EarliestDue(c.items, target);
    var r := FireAll(c, target, script, true);
    if due.None? {
      AccountsSelf(c);
      NothingFired();
    } else {
      FireStepOk(c, target, script);
    }
  }

  lemma NothingFired()
    ensures InOrder([]) && FiredIn([]) == {}
  {
  }

  lemma {:induction false} FireStepOk(c: Clock, target: int, script: Script)
    requires ClockOk(c) && Forward(script) && c.now <= target && EarliestDue(c.items, target).Some?
    ensures var r := FireAll(c, target, script, true);
            && ClockOk(r.clock) && Accounts(c, r.log, r.clock) && InOrder(r.log) && r.clock.now <= target
            && (forall x | x in r.clock.items :: x.deadline > target)
            && (forall x | x in FiredIn(r.log) :: x.deadline <= target)
    decreases |script|, |c.items|, 0
  {
    hide ClockOk, Accounts, InOrder, ArmedIn, StoppedIn, FiredIn, Before, ForwardOps, EarliestDue, PerformAll;
    var e := EarliestDue(c.items, target).value;
    FireOk(c, target);
    RemoveShrinks(c.items, e);
    var f := Fire(c, e, true);
    assert ForwardOps(First(script)) by { NoOps(); }
    PerformAllOk(f, First(script));
    var p := PerformAll(f, First(script));
    var n := FireAll(p.clock, target, Rest(script), true);
    if script == [] { assert p == Run(f, []) by { NoScript(f); } }
    FireAllOk(p.clock, target, Rest(script));
    AccountsJoin(c, [Fired(e)], f, p.log, p.clock);
    AccountsJoin(c, [Fired(e)] + p.log, p.clock, n.log, n.clock);
    NumberKnown(c, e);
    PendingAfter(f, e, target, p.log, p.clock);
    LaterFires(c, e, f, p, target, n);
    InOrderJoin(e, p.log, n.log, target);
    LogSplit([Fired(e)] + p.log, n.log);
    LogSplit([Fired(e)], p.log);
    OneFired(e);
  }

  lemma NoOps()
    ensures ForwardOps([])
  {
  }

  lemma NoScript(c: Clock)
    ensures PerformAll(c, []) == Run(c, [])
  {
  }

  lemma OneFired(e: Entry)
    ensures FiredIn([Fired(e)]) == {e}
  {
    assert Fired(e) in [Fired(e)];
  }

  lemma NumberKnown(c: Clock, e: Entry)
    requires ClockOk(c) && e in c.items
    ensures e.seqNo <= c.seqNo
  {
  }

  /** Timers fired later were pending after e's callback, or armed later still. */
  lemma LaterFires(c: Clock, e: Entry, f: Clock, p: Run, target: int, n: Run)
    requires ClockOk(p.clock) && Accounts(p.clock, n.log, n.clock) && Accounts(f, p.log, p.clock)
    requires f.now == e.deadline && e.seqNo <= f.seqNo
    requires forall x | x in p.clock.items && x.deadline <= target :: Before(e, x)
    requires forall x | x in FiredIn(n.log) :: x.deadline <= target
    ensures AllAfter(n.log, e, target)
  {
    forall x | x in FiredIn(n.log) ensures Before(e, x) {
      assert x in Ended(n.log);
      if x in ArmedIn(n.log) { assert x.seqNo > e.seqNo && x.deadline >= e.deadline; } else { assert x in Elements(p.clock.items); }
    }
  }

  // ----- the theorems -----

  /** Advance(d) with d > 0 ends exactly at now + d, with every timer accounted
      for: of the timers pending before or armed meanwhile, those due by then
      were each fired or stopped, never both, and the others are still pending
      unless stopped. */
  lemma AdvanceFiresAllDue(c: Clock, d: int, script: Script, e: Entry)
    requires ClockOk(c) && Forward(script) && d > 0
    ensures var r := Advance(c, d, script);
            && r.clock.now == c.now + d && ClockOk(r.clock)
            && (e in r.clock.items <==>
                  (e in c.items || e in ArmedIn(r.log)) && e !in StoppedIn(r.log) && e.deadline > c.now + d)
            && (e in FiredIn(r.log) <==>
                  (e in c.items || e in ArmedIn(r.log)) && e !in StoppedIn(r.log) && e.deadline <= c.now + d)
  {
    FireAllOk(c, c.now + d, script);
    hide FireAll, ArmedIn, StoppedIn, FiredIn, EarliestDue;
    assert e in c.items <==> e in Elements(c.items);
    var r := FireAll(c, c.now + d, script, true);
    assert e in r.clock.items <==> e in Elements(r.clock.items);
    if e in FiredIn(r.log) { assert e in Ended(r.log); }
  }

  /** Timers fire in strictly increasing (deadline, arm order), so none fires
      twice. */
  lemma AdvanceFiresInOrder(c: Clock, d: int, script: Script, i: nat, j: nat)
    requires ClockOk(c) && Forward(script)
    requires var log := Advance(c, d, script).log; i < j < |log| && log[i].Fired? && log[j].Fired?
    ensures var log := Advance(c, d, script).log; Before(log[i].entry, log[j].entry)
  {
    FireAllOk(c, c.now + d, script);
  }

  /** A stopped timer was pending, was not fired before, and is not fired
      afterwards. */
  lemma StopIsFinal(c: Clock, d: int, script: Script, e: Entry)
    requires ClockOk(c) && Forward(script) && e in StoppedIn(Advance(c, d, script).log)
    ensures e !in FiredIn(Advance(c, d, script).log) && e !in Advance(c, d, script).clock.items
  {
    if d > 0 {
      AdvanceFiresAllDue(c, d, script, e);
    }
  }

  // ----- flushing the current instant -----

  /** fireDue never moves time: it is the loop of Advance with the target at
      the present. */
  lemma {:induction false} FireDueIs(c: Clock, script: Script)
    requires ClockOk(c) && Forward(script)
    ensures FireDue(c, script) == FireAll(c, c.now, script, true)
    ensures FireDue(c, script).clock.now == c.now
    decreases |script|, |c.items|
  {
    hide ClockOk, Accounts, ForwardOps, EarliestDue, PerformAll;
    if EarliestDue(c.items, c.now).Some? {
      var e := EarliestDue(c.items, c.now).value;
      FireOk(c, c.now);
      RemoveShrinks(c.items, e);
      assert Fire(c, e, false) == Fire(c, e, true);
      assert ForwardOps(First(script)) by { NoOps(); }
      PerformAllOk(Fire(c, e, true), First(script));
      if script == [] { NoScript(Fire(c, e, true)); }
      FireDueIs(PerformAll(Fire(c, e, true), First(script)).clock, Rest(script));
    }
  }

  // ----- negative delays -----

  /** The requirement on delays is needed: on any sound clock, the timer that
      fires next takes the clock back in time if and only if the timer just
      armed has a negative delay. */
  lemma NegativeDelayMovesBack(c: Clock, d: int, delay: int)
    requires ClockOk(c) && d >= 0
    ensures var a := AfterFunc(c, delay).clock; var due := EarliestDue(a.items, c.now + d);
            due.Some? && Fire(a, due.value, true).now < c.now <==> delay < 0
  {
    var a := AfterFunc(c, delay).clock;
    var e := Entry(c.now + delay, c.seqNo + 1);
    EarliestIs(a.items, c.now + d);
    assert e in a.items;
    if delay >= 0 {
      ArmOk(c, delay);
    }
  }

  /** The clocks of the loop, whatever the callbacks do: the one it starts from
      and the one each callback leaves. */
  function Trace(c: Clock, target: int, script: Script): seq<Clock>
    decreases |script|, |c.items|
  {
    var due := EarliestDue(c.items, target);
    if due.None? then [c]
    else
      EarliestIsMember(c.items, target);
      RemoveShrinks(c.items, due.value);
      [c] + Trace(PerformAll(Fire(c, due.value, true), First(script)).clock, target, Rest(script))
  }

  /** A timer is pending in the past. */
  predicate Overdue(c: Clock) {
    exists e :: e in c.items && e.deadline < c.now
  }

  lemma {:induction false} PerformAllKeepsNow(c: Clock, ops: seq<Op>)
    ensures PerformAll(c, ops).clock.now == c.now
  {
    if ops != [] { PerformAllKeepsNow(c, ops[..|ops| - 1]); }
  }

  /** The trace is the loop's: it ends with the clock the loop ends with. */
  lemma {:induction false} TraceIsLoop(c: Clock, target: int, script: Script)
    ensures var t := Trace(c, target, script); t != [] && t[0] == c && t[|t| - 1] == FireAll(c, target, script, true).clock
    decreases |script|, |c.items|
  {
    var due := EarliestDue(c.items, target);
    if due.Some? {
      EarliestIsMember(c.items, target);
      RemoveShrinks(c.items, due.value);
      TraceIsLoop(PerformAll(Fire(c, due.value, true), First(script)).clock, target, Rest(script));
    }
  }

  /** Each clock of the trace comes from the one before by firing its first due
      timer; the last has none. */
  lemma {:induction false} TraceSteps(c: Clock, target: int, script: Script, i: nat)
    requires i < |Trace(c, target, script)|
    ensures var t := Trace(c, target, script); var due := EarliestDue(t[i].items, target);
            && (due.None? <==> i == |t| - 1)
            && (due.Some? ==> t[i + 1].now == due.value.deadline)
    decreases |script|, |c.items|
  {
    hide PerformAll, EarliestDue;
    var due := EarliestDue(c.items, target);
    if due.Some? {
      EarliestIsMember(c.items, target);
      RemoveShrinks(c.items, due.value);
      var f := Fire(c, due.value, true);
      var n := PerformAll(f, First(script)).clock;
      TraceIsLoop(n, target, Rest(script));
      if i == 0 {
        PerformAllKeepsNow(f, First(script));
      } else {
        if script == [] { NoScript(f); }
        TraceSteps(n, target, Rest(script), i - 1);
      }
    }
  }

  lemma TraceDue(c: Clock, target: int, script: Script, i: nat)
    requires i < |Trace(c, target, script)| && c.now <= target
    ensures Trace(c, target, script)[i].now <= target
  {
    hide Trace;
    TraceIsLoop(c, target, script);
    if i > 0 {
      TraceSteps(c, target, script, i - 1);
      EarliestIs(Trace(c, target, script)[i - 1].items, target);
    }
  }

  /** Fire i + 1 takes Now backwards. */
  predicate GoesBack(t: seq<Clock>, i: int) {
    0 <= i < |t| - 1 && t[i + 1].now < t[i].now
  }

  /** Whatever delays the callbacks use: a fire takes Now backwards if and only
      if a timer was pending in the past just before it; so over the whole of
      Advance time goes back if and only if it started with such a timer, or
      some callback left one behind. */
  lemma TimeGoesBackIff(c: Clock, target: int, script: Script)
    requires c.now <= target
    ensures var t := Trace(c, target, script);
            && t != [] && t[0] == c && t[|t| - 1] == FireAll(c, target, script, true).clock
            && (forall i | 0 <= i < |t| - 1 :: GoesBack(t, i) <==> Overdue(t[i]))
            && ((exists i :: GoesBack(t, i)) <==> (exists i :: 0 <= i < |t| && Overdue(t[i])))
  {
    hide Trace, EarliestDue;
    var t := Trace(c, target, script);
    TraceIsLoop(c, target, script);
    forall i | 0 <= i < |t| - 1 ensures GoesBack(t, i) <==> Overdue(t[i]) {
      TraceSteps(c, target, script, i);
      TraceDue(c, target, script, i);
      FiresBack(t[i], target, t[i + 1]);
    }
    TraceSteps(c, target, script, |t| - 1);
    TraceDue(c, target, script, |t| - 1);
    EarliestIs(t[|t| - 1].items, target);
    if i :| 0 <= i < |t| && Overdue(t[i]) { assert GoesBack(t, i); }
  }

  lemma FiresBack(c: Clock, target: int, next: Clock)
    requires c.now <= target && EarliestDue(c.items, target).Some? && next.now == EarliestDue(c.items, target).value.deadline
    ensures next.now < c.now <==> Overdue(c)
  {
    hide EarliestDue;
    EarliestIs(c.items, target);
  }

  /** Only a negative delay leaves a timer in the past. */
  lemma {:induction false} OnlyNegativeDelays(c: Clock, ops: seq<Op>)
    requires !Overdue(c) && Overdue(PerformAll(c, ops).clock)
    ensures !ForwardOps(ops)
  {
    if ops != [] {
      var front, op := ops[..|ops| - 1], ops[|ops| - 1];
      var r := PerformAll(c, front).clock;
      if Overdue(r) {
        OnlyNegativeDelays(c, front);
        var j :| 0 <= j < |front| && front[j].Arm? && front[j].delay < 0;
        assert ops[j].Arm? && ops[j].delay < 0;
      } else {
        PerformOverdue(r, op);
        assert ops[|ops| - 1].Arm?;
      }
    }
  }

  lemma {:induction false} RemoveSubset(items: seq<Entry>, e: Entry)
    ensures forall x | x in Remove(items, e) :: x in items
  {
    if items != [] { RemoveSubset(items[1..], e); }
  }

  lemma PerformOverdue(c: Clock, op: Op)
    requires !Overdue(c) && Overdue(Perform(c, op).clock)
    ensures op.Arm? && op.delay < 0
  {
    var e :| e in Perform(c, op).clock.items && e.deadline < Perform(c, op).clock.now;
    if op.Halt? { RemoveSubset(c.items, op.entry); }
  }
}
