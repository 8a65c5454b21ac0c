/** The clock object. */
module FakeClockClass {
  import opened Foundation
  import opened FakeClockModel

  class FakeClock {
    var now: int
    var seqNo: nat
    var items: seq<Entry>

    constructor (start: int)
      ensures View() == Clock(start, 0, [])
    {
      now, seqNo, items := start, 0, [];
    }

    function View(): Clock
      reads this
    {
      Clock(now, seqNo, items)
    }

    method Arm(d: int) returns (e: Entry)
      modifies this
      ensures View() == AfterFunc(old(View()), d).clock && AfterFunc(old(View()), d).log == [Armed(e)]
    {
      seqNo := seqNo + 1;
      e := Entry(now + d, seqNo);
      items := items + [e];
    }

    method Earliest(target: int) returns (best: Option<Entry>)
      ensures best == EarliestDue(items, target)
    {
      best := None;
      var i := 0;
      while i < |items|
        invariant 0 <= i <= |items| && best == EarliestDue(items[..i], target)
      {
        assert items[..i + 1][..i] == items[..i];
        var e := items[i];
        if e.deadline <= target {
          if best.None? || e.deadline < best.value.deadline ||
             (e.deadline == best.value.deadline && e.seqNo < best.value.seqNo) {
            best := Some(e);
          }
        }
        i := i + 1;
      }
      assert items[..i] == items;
    }

    /** The earliest pending fire time. */
    method NextDeadline() returns (t: Option<int>)
      ensures t.None? <==> items == []
      ensures t.Some? ==> (exists e :: e in items && e.deadline == t.value) && forall e | e in items :: t.value <= e.deadline
    {
      t := None;
      var i := 0;
      while i < |items|
        invariant 0 <= i <= |items| && (t.None? <==> i == 0)
        invariant t.Some? ==> (exists e :: e in items[..i] && e.deadline == t.value) && forall e | e in items[..i] :: t.value <= e.deadline
      {
        if t.None? || items[i].deadline < t.value { t := Some(items[i].deadline); }
        assert items[..i + 1] == items[..i] + [items[i]];
        i := i + 1;
      }
      assert items[..i] == items;
    }

    method Delete(e: Entry)
      modifies this`items
      ensures items == Remove(old(items), e)
    {
      var i := 0;
      while i < |items|
        invariant 0 <= i <= |items| && items == old(items)
        invariant Remove(old(items), e) == old(items)[..i] + Remove(old(items)[i..], e)
      {
        assert items[i..][1..] == items[i + 1..];
        if items[i] == e {
          items := items[..i] + items[i + 1..];
          return;
        }
        i := i + 1;
      }
    }

    method Halt(e: Entry) returns (stopped: bool)
      modifies this
      ensures View() == Stop(old(View()), e).clock && stopped == (e in old(items))
    {
      if e !in items { return false; }
      Delete(e);
      return true;
    }

    /** A callback using the clock it was fired by. */
    method RunCallback(ops: seq<Op>)
      modifies this
      ensures View() == PerformAll(old(View()), ops).clock
    {
      var i := 0;
      while i < |ops|
        invariant 0 <= i <= |ops| && View() == PerformAll(old(View()), ops[..i]).clock
      {
        assert ops[..i + 1][..i] == ops[..i];
        match ops[i] {
          case Arm(d) => var _ := Arm(d);
          case Halt(e) => var _ := Halt(e);
        }
        i := i + 1;
      }
      assert ops[..i] == ops;
    }

    /** Fires what is due by target; `fired` counts the callbacks run. */
    method FireUntil(target: int, script: Script, moves: bool) returns (fired: nat)
      modifies this
      ensures View() == FireAll(old(View()), target, script, moves).clock
      ensures fired == 0 <==> EarliestDue(old(items), target).None?
    {
      var left := script;
      fired := 0;
      while true
        invariant FireAll(View(), target, left, moves).clock == FireAll(old(View()), target, script, moves).clock
        invariant fired == 0 ==> items == old(items)
        invariant fired > 0 ==> EarliestDue(old(items), target).Some?
        decreases |left|, |items|
      {
        var e := Earliest(target);
        if e.None? { return; }
        EarliestIsMember(items, target);
        RemoveShrinks(items, e.value);
        if moves { now := e.value.deadline; }
        Delete(e.value);
        RunCallback(First(left));
        left := Rest(left);
        fired := fired + 1;
      }
    }

    method AdvanceBy(d: int, script: Script)
      modifies this
      ensures View() == Advance(old(View()), d, script).clock
    {
      if d <= 0 { return; }
      var target := now + d;
      var _ := FireUntil(target, script, true);
      now := target;
    }

    method FlushDue(script: Script) returns (fired: bool)
      modifies this
      ensures View() == FireDue(old(View()), script).clock
      ensures fired == EarliestDue(old(items), old(now)).Some?
    {
      var n := FireUntil(now, script, false);
      fired := n > 0;
    }
  }
}
