/** What arming and stopping a timer mean for what later fires, over a whole
    Advance. */
module FakeClockAnswers {
  import opened Foundation
  import opened FakeClockModel
  import opened FakeClockSafety

  // ----- a timer fires after its delay -----

  /** A timer armed with delay d fires in an Advance by a if and only if time
      moves on, by at least d, and nobody stops it; otherwise, if it was not
      stopped, it is still pending. */
  lemma FiresAfterDelay(c: Clock, d: int, a: int, script: Script, e: Entry)
    requires ClockOk(c) && d >= 0 && Forward(script) && Armed(e) in AfterFunc(c, d).log
    ensures var r := Advance(AfterFunc(c, d).clock, a, script);
            && (e in FiredIn(r.log) <==> a > 0 && a >= d && e !in StoppedIn(r.log))
            && (e in r.clock.items <==> (a <= 0 || a < d) && e !in StoppedIn(r.log))
            && e !in c.items
  {
    hide FireAll, ClockOk, FiredIn, StoppedIn, ArmedIn;
    ArmOk(c, d);
    var k := AfterFunc(c, d).clock;
    assert e == Entry(c.now + d, c.seqNo + 1) && k.now == c.now;
    assert e in k.items;
    if e in c.items { NumberKnown(c, e); }
    if a > 0 {
      AdvanceFiresAllDue(k, a, script, e);
    } else {
      EmptyLog();
    }
  }

  lemma EmptyLog()
    ensures FiredIn([]) == {} && StoppedIn([]) == {} && ArmedIn([]) == {}
  {
  }

  // ----- what callbacks arm -----

  function FiredSeq(log: seq<Action>): seq<Entry> {
    if log == [] then []
    else
      var rest := FiredSeq(log[..|log| - 1]);
      if log[|log| - 1].Fired? then rest + [log[|log| - 1].entry] else rest
  }

  function ArmedSeq(log: seq<Action>): seq<Entry> {
    if log == [] then []
    else
      var rest := ArmedSeq(log[..|log| - 1]);
      if log[|log| - 1].Armed? then rest + [log[|log| - 1].entry] else rest
  }

  lemma {:induction false} SeqJoin(a: seq<Action>, b: seq<Action>)
    ensures FiredSeq(a + b) == FiredSeq(a) + FiredSeq(b) && ArmedSeq(a + b) == ArmedSeq(a) + ArmedSeq(b)
  {
    if b == [] {
      assert a + b == a;
    } else {
      var front, last := b[..|b| - 1], b[|b| - 1];
      SeqJoin(a, front);
      assert (a + b)[..|a + b| - 1] == a + front && (a + b)[|a + b| - 1] == last;
    }
  }

  /** The timers these operations arm at time `time`, numbered from n + 1. */
  function Arms(time: int, ops: seq<Op>, n: nat): seq<Entry> {
    if ops == [] then []
    else
      var rest := Arms(time, ops[..|ops| - 1], n);
      if ops[|ops| - 1].Arm? then rest + [Entry(time + ops[|ops| - 1].delay, n + |rest| + 1)] else rest
  }

  /** The timers armed by callbacks that run at these times, in turn. */
  function ArmsAt(times: seq<int>, script: Script, n: nat): seq<Entry>
    decreases |times|
  {
    if times == [] then []
    else
      var first := Arms(times[0], First(script), n);
      first + ArmsAt(times[1..], Rest(script), n + |first|)
  }

  function Deadlines(es: seq<Entry>): seq<int> {
    seq(|es|, i requires 0 <= i < |es| => es[i].deadline)
  }

  lemma PerformOne(c: Clock, op: Op)
    ensures var r := Perform(c, op);
            && ArmedSeq(r.log) == (if op.Arm? then [Entry(c.now + op.delay, c.seqNo + 1)] else []) && FiredSeq(r.log) == []
            && r.clock.seqNo == c.seqNo + |ArmedSeq(r.log)| && r.clock.now == c.now
  {
    var log := Perform(c, op).log;
    if log != [] {
      OneAction(log[0]);
      assert log == [log[0]];
    }
  }

  lemma {:induction false} PerformArms(c: Clock, ops: seq<Op>)
    ensures var r := PerformAll(c, ops);
            && ArmedSeq(r.log) == Arms(c.now, ops, c.seqNo) && FiredSeq(r.log) == []
            && r.clock.seqNo == c.seqNo + |ArmedSeq(r.log)| && r.clock.now == c.now
  {
    hide Perform;
    if ops == [] {
      EmptySeqs();
    } else {
      hide ArmedSeq, FiredSeq;
      var front, op := ops[..|ops| - 1], ops[|ops| - 1];
      PerformArms(c, front);
      var r := PerformAll(c, front);
      PerformOne(r.clock, op);
      SeqJoin(r.log, Perform(r.clock, op).log);
    }
  }

  lemma EmptySeqs()
    ensures ArmedSeq([]) == [] && FiredSeq([]) == []
  {
  }

  lemma OneAction(a: Action)
    ensures FiredSeq([a]) == (if a.Fired? then [a.entry] else []) && ArmedSeq([a]) == if a.Armed? then [a.entry] else []
  {
    assert [a][..0] == [];
  }

  lemma LogParts(e: Entry, ops: seq<Action>, rest: seq<Action>)
    ensures ArmedSeq([Fired(e)] + ops + rest) == ArmedSeq(ops) + ArmedSeq(rest)
    ensures FiredSeq([Fired(e)] + ops + rest) == [e] + FiredSeq(ops) + FiredSeq(rest)
  {
    hide ArmedSeq, FiredSeq;
    SeqJoin([Fired(e)] + ops, rest);
    SeqJoin([Fired(e)], ops);
    OneAction(Fired(e));
  }

  lemma ArmsAtStep(e: Entry, fired: seq<Entry>, script: Script, n: nat)
    ensures var first := Arms(e.deadline, First(script), n);
            ArmsAt(Deadlines([e] + fired), script, n) == first + ArmsAt(Deadlines(fired), Rest(script), n + |first|)
  {
    hide Arms;
    var times := Deadlines([e] + fired);
    assert times[0] == e.deadline && times[1..] == Deadlines(fired);
  }

  lemma {:induction false} LoopArms(c: Clock, target: int, script: Script)
    ensures var r := FireAll(c, target, script, true);
            ArmedSeq(r.log) == ArmsAt(Deadlines(FiredSeq(r.log)), script, c.seqNo)
    decreases |script|, |c.items|
  {
    hide EarliestDue, PerformAll, Remove, Arms, ArmedSeq, FiredSeq, ArmsAt, Deadlines;
    var due := EarliestDue(c.items, target);
    if due.None? {
      NoneArmed(script, c.seqNo);
    } else {
      EarliestIsMember(c.items, target);
      RemoveShrinks(c.items, due.value);
      var e := due.value;
      var f := Fire(c, e, true);
      var p := PerformAll(f, First(script));
      if script == [] { NoScript(f); }
      PerformArms(f, First(script));
      LoopArms(p.clock, target, Rest(script));
      var n := FireAll(p.clock, target, Rest(script), true);
      LogParts(e, p.log, n.log);
      ArmsAtStep(e, FiredSeq(n.log), script, c.seqNo);
      assert [e] + [] + FiredSeq(n.log) == [e] + FiredSeq(n.log);
    }
  }

  lemma NoneArmed(script: Script, n: nat)
    ensures ArmedSeq([]) == ArmsAt(Deadlines(FiredSeq([])), script, n)
  {
  }

  /** Over a whole Advance, whatever the delays: the timers armed are exactly
      those the callbacks ask for, in order, each at the deadline of the timer
      whose callback asked plus the delay asked for, and numbered in turn. */
  lemma AdvanceArms(c: Clock, d: int, script: Script)
    ensures var log := Advance(c, d, script).log; ArmedSeq(log) == ArmsAt(Deadlines(FiredSeq(log)), script, c.seqNo)
  {
    hide FireAll, ArmedSeq, FiredSeq, ArmsAt, Deadlines;
    if d > 0 { LoopArms(c, c.now + d, script); } else { NoneArmed(script, c.seqNo); }
  }

  // ----- stopping -----

  lemma StopAnswer(c: Clock, e: Entry)
    requires ClockOk(c)
    ensures var r := Stop(c, e);
            && (forall x :: x in r.clock.items <==> x in c.items && x != e)
            && (Stopped(e) in r.log <==> e in c.items)
  {
    RemoveIs(c.items, e);
  }

  /** After Halt(e) among these operations, a timer e armed before is gone. */
  lemma {:induction false} HaltRemoves(c: Clock, ops: seq<Op>, e: Entry)
    requires ClockOk(c) && ForwardOps(ops) && Halt(e) in ops && e.seqNo <= c.seqNo
    ensures e !in PerformAll(c, ops).clock.items
  {
    hide ClockOk, Accounts;
    var front, op := ops[..|ops| - 1], ops[|ops| - 1];
    var r := PerformAll(c, front);
    PerformAllOk(c, front);
    if op == Halt(e) {
      StopAnswer(r.clock, e);
    } else {
      assert Halt(e) in front;
      HaltRemoves(c, front, e);
      NumbersGrow(c, front);
      if op.Halt? { RemoveSubset(r.clock.items, op.entry); }
    }
  }

  lemma NumbersGrow(c: Clock, ops: seq<Op>)
    ensures PerformAll(c, ops).clock.seqNo >= c.seqNo
  {
    PerformArms(c, ops);
  }

  /** A timer that is not pending and has an old number does not fire. */
  lemma GoneStaysGone(c: Clock, target: int, script: Script, e: Entry)
    requires ClockOk(c) && Forward(script) && c.now <= target && e !in c.items && e.seqNo <= c.seqNo
    ensures e !in FiredIn(FireAll(c, target, script, true).log)
  {
    hide ClockOk, FireAll, ArmedIn, StoppedIn, FiredIn;
    FireAllOk(c, target, script);
    var r := FireAll(c, target, script, true);
    assert e in FiredIn(r.log) ==> e in Ended(r.log);
  }

  lemma {:induction false} FiredSeqIs(log: seq<Action>, k: nat)
    requires k < |FiredSeq(log)|
    ensures FiredSeq(log)[k] in FiredIn(log)
  {
    var front, last := log[..|log| - 1], log[|log| - 1];
    assert log == front + [last];
    LogSplit(front, [last]);
    if k < |FiredSeq(front)| {
      FiredSeqIs(front, k);
    } else {
      OneFired(last.entry);
    }
  }

  lemma {:induction false} LoopHonoursStop(c: Clock, target: int, script: Script, e: Entry, i: nat, k: nat)
    requires ClockOk(c) && Forward(script) && c.now <= target && e.seqNo <= c.seqNo && i < |script| && Halt(e) in script[i]
    requires var fired := FiredSeq(FireAll(c, target, script, true).log); k < |fired| && fired[k] == e
    ensures k <= i
    decreases |script|, |c.items|
  {
    hide ClockOk, EarliestDue, PerformAll, Remove, ForwardOps, Accounts, FiredIn;
    var due := EarliestDue(c.items, target);
    EarliestIsMember(c.items, target);
    RemoveShrinks(c.items, due.value);
    FireOk(c, target);
    var f := Fire(c, due.value, true);
    var p := PerformAll(f, First(script));
    assert ForwardOps(First(script));
    PerformAllOk(f, First(script));
    NumbersGrow(f, First(script));
    PerformArms(f, First(script));
    var n := FireAll(p.clock, target, Rest(script), true);
    LogParts(due.value, p.log, n.log);
    if k > 0 {
      assert FiredSeq(n.log)[k - 1] == e;
      if i == 0 {
        HaltRemoves(f, First(script), e);
        GoneStaysGone(p.clock, target, Rest(script), e);
        FiredSeqIs(n.log, k - 1);
      } else {
        LoopHonoursStop(p.clock, target, Rest(script), e, i - 1, k - 1);
      }
    }
  }

  /** Over a whole Advance: a timer that was pending, and that the i-th callback
      stops, does not fire after that callback. */
  lemma StopPreventsFire(c: Clock, d: int, script: Script, e: Entry, i: nat, k: nat)
    requires ClockOk(c) && Forward(script) && e in c.items && i < |script| && Halt(e) in script[i]
    requires var fired := FiredSeq(Advance(c, d, script).log); k < |fired| && fired[k] == e
    ensures k <= i
  {
    hide FireAll, ForwardOps;
    NumberKnown(c, e);
    if d > 0 { LoopHonoursStop(c, c.now + d, script, e, i, k); }
  }
}
