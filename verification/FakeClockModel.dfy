/** The virtual clock of the simulator. Time is a whole number of nanoseconds,
    and a callback is what it does to the clock: arm timers and stop timers. */
module FakeClockModel {
  import opened Foundation

  /** A pending one-shot timer; seqNo is its arm order. */
  datatype Entry = Entry(deadline: int, seqNo: nat)

  datatype Clock = Clock(now: int, seqNo: nat, items: seq<Entry>)

  /** One use of the clock by a running callback. */
  datatype Op = Arm(delay: int) | Halt(entry: Entry)

  datatype Action = Armed(entry: Entry) | Stopped(entry: Entry) | Fired(entry: Entry)

  datatype Run = Run(clock: Clock, log: seq<Action>)

  /** Deadline order, ties broken by arm order. */
  predicate Before(a: Entry, b: Entry) {
    a.deadline < b.deadline || (a.deadline == b.deadline && a.seqNo < b.seqNo)
  }

  /** Scanning the pending timers for the first one due by target. */
  function EarliestDue(items: seq<Entry>, target: int): Option<Entry> {
    if items == [] then None
    else
      var e := items[|items| - 1];
      var best := EarliestDue(items[..|items| - 1], target);
      if e.deadline <= target && (best.None? || Before(e, best.value)) then Some(e) else best
  }

  function Remove(items: seq<Entry>, e: Entry): seq<Entry> {
    if items == [] then []
    else if items[0] == e then items[1..]
    else [items[0]] + Remove(items[1..], e)
  }

  lemma {:induction false} RemoveShrinks(items: seq<Entry>, e: Entry)
    ensures |Remove(items, e)| == |items| - (if e in items then 1 else 0)
    ensures e !in items ==> Remove(items, e) == items
  {
    if items != [] && items[0] != e {
      RemoveShrinks(items[1..], e);
    }
  }

  lemma {:induction false} EarliestIsMember(items: seq<Entry>, target: int)
    ensures EarliestDue(items, target).Some? ==> EarliestDue(items, target).value in items
  {
    if items != [] {
      EarliestIsMember(items[..|items| - 1], target);
    }
  }

  function AfterFunc(c: Clock, d: int): Run {
    var e := Entry(c.now + d, c.seqNo + 1);
    Run(Clock(c.now, c.seqNo + 1, c.items + [e]), [Armed(e)])
  }

  /** Stopping a timer that already fired or was stopped does nothing. */
  function Stop(c: Clock, e: Entry): Run {
    if e in c.items then Run(c.(items := Remove(c.items, e)), [Stopped(e)]) else Run(c, [])
  }

  function Perform(c: Clock, op: Op): Run {
    match op
    case Arm(d) => AfterFunc(c, d)
    case Halt(e) => Stop(c, e)
  }

  function PerformAll(c: Clock, ops: seq<Op>): Run {
    if ops == [] then Run(c, [])
    else
      var r := PerformAll(c, ops[..|ops| - 1]);
      var s := Perform(r.clock, ops[|ops| - 1]);
      Run(s.clock, r.log + s.log)
  }

  /** Firing e: time steps to its deadline, and it is no longer pending when
      its callback runs. */
  function Fire(c: Clock, e: Entry, moves: bool): Clock {
    c.(now := if moves then e.deadline else c.now, items := Remove(c.items, e))
  }

  /** What the callbacks fired by one Advance do, in the order they fire; those
      past the end do nothing. */
  type Script = seq<seq<Op>>

  function First(script: Script): seq<Op> {
    if script == [] then [] else script[0]
  }

  function Rest(script: Script): Script {
    if script == [] then [] else script[1..]
  }

  /** The loop of Advance (`moves`) and of fireDue. */
  function FireAll(c: Clock, target: int, script: Script, moves: bool): Run
    decreases |script|, |c.items|
  {
    var due := EarliestDue(c.items, target);
    if due.None? then Run(c, [])
    else
      EarliestIsMember(c.items, target);
      RemoveShrinks(c.items, due.value);
      var p := PerformAll(Fire(c, due.value, moves), First(script));
      var r := FireAll(p.clock, target, Rest(script), moves);
      Run(r.clock, [Fired(due.value)] + p.log + r.log)
  }

  function Advance(c: Clock, d: int, script: Script): Run {
    if d <= 0 then Run(c, [])
    else
      var r := FireAll(c, c.now + d, script, true);
      Run(r.clock.(now := c.now + d), r.log)
  }

  function FireDue(c: Clock, script: Script): Run {
    FireAll(c, c.now, script, false)
  }
}
