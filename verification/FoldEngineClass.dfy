/** The engine: keyframes cloned from a running cursor, and queries that replay
    from the nearest keyframe. */
module FoldEngineClass {
  import opened Foundation
  import opened FoldModel
  import opened FoldWorld

  const KeyframeEvery := 500

  // ----- the engine -----

  /** How many keyframes n events have: one at every multiple of 500. */
  function Keyframes(n: nat): nat {
    (n + KeyframeEvery - 1) / KeyframeEvery
  }

  /** The index the engine folds to when asked for target. */
  function Clamped(n: nat, target: int): int {
    if target < 0 || n == 0 then -1 else Min(target, n - 1)
  }

  /** Keyframe f holds the fold of events 0 .. 500j. */
  ghost predicate HoldsFold(f: WorldState, j: nat, events: seq<TraceEvent>)
    reads f, f.Repr
  {
    f.Valid() && f.idx == j * KeyframeEvery < |events| && f.Value() == FoldTo(events, j * KeyframeEvery + 1)
  }

  class FoldEngine {
    var events: seq<TraceEvent>
    var keyframes: seq<WorldState>
    var cursor: WorldState
    var built: nat
    ghost var Frames: set<object>

    ghost predicate KeyframeOk(j: nat)
      requires j < |keyframes|
      reads this, Frames
    {
      keyframes[j] in Frames && keyframes[j].Repr <= Frames && HoldsFold(keyframes[j], j, events)
    }

    /** The state in the middle of ingesting: `built` events folded. */
    ghost predicate Folded()
      reads this, cursor, cursor.Repr, Frames
    {
      && cursor.Valid() && this !in cursor.Repr && this !in Frames && Frames !! cursor.Repr
      && built <= |events| && |keyframes| == Keyframes(built)
      && cursor.Value() == FoldTo(events, built)
      && forall j | 0 <= j < |keyframes| :: KeyframeOk(j)
    }

    ghost predicate Valid()
      reads this, cursor, cursor.Repr, Frames
    {
      Folded() && built == |events|
    }

    constructor (trace: seq<TraceEvent>)
      ensures Valid() && events == trace && fresh(cursor.Repr) && fresh(Frames)
    {
      events, keyframes, built := trace, [], 0;
      cursor := new WorldState.Empty();
      Frames := {};
      new;
      Ingest();
    }

    method StepCursor()
      requires Folded() && built < |events|
      modifies cursor.Repr
      ensures cursor.Valid() && this !in cursor.Repr && Frames !! cursor.Repr && fresh(cursor.Repr - old(cursor.Repr))
      ensures cursor.Value() == FoldTo(events, built + 1) && cursor.idx == built
      ensures forall j | 0 <= j < |keyframes| :: KeyframeOk(j)
    {
      hide Apply, HoldsFold;
      assert FoldTo(events, built + 1) == Apply(FoldTo(events, built), events[built]);
      cursor.ApplyEvent(events[built]);
      cursor.Stamp(built, events[built].step, cursor.current);
      forall j | 0 <= j < |keyframes| ensures KeyframeOk(j) {
        assert old(KeyframeOk(j));
      }
    }

    method CopyCursor(ghost n: nat) returns (k: WorldState)
      requires cursor.Valid() && cursor.idx == n * KeyframeEvery < |events|
      requires cursor.Value() == FoldTo(events, n * KeyframeEvery + 1)
      ensures fresh(k.Repr) && k in k.Repr && HoldsFold(k, n, events)
    {
      hide FoldTo;
      k := cursor.Clone();
    }

    method KeepFrame()
      requires cursor.Valid() && this !in cursor.Repr && this !in Frames && Frames !! cursor.Repr
      requires cursor.idx == |keyframes| * KeyframeEvery < |events|
      requires cursor.Value() == FoldTo(events, |keyframes| * KeyframeEvery + 1)
      requires forall j | 0 <= j < |keyframes| :: KeyframeOk(j)
      modifies this`keyframes, this`Frames
      ensures |keyframes| == old(|keyframes|) + 1 && fresh(Frames - old(Frames)) && this !in Frames && Frames !! cursor.Repr
      ensures forall j | 0 <= j < |keyframes| :: KeyframeOk(j)
    {
      hide FoldTo, HoldsFold;
      ghost var n, was := |keyframes|, keyframes;
      var k := CopyCursor(n);
      keyframes := keyframes + [k];
      Frames := Frames + k.Repr;
      forall j | 0 <= j < |keyframes| ensures KeyframeOk(j) {
        if j < n { assert old(KeyframeOk(j)); assert keyframes[j] == was[j]; }
      }
    }

    /** Folding one more event into the cursor, and keeping a copy at every
        500th. */
    method IngestOne()
      requires Folded() && built < |events|
      modifies this, cursor.Repr
      ensures Folded() && built == old(built) + 1 && events == old(events) && cursor == old(cursor)
      ensures fresh(cursor.Repr - old(cursor.Repr)) && fresh(Frames - old(Frames))
    {
      hide FoldTo;
      StepCursor();
      KeyframeCount(built);
      if built % KeyframeEvery == 0 { KeepFrame(); }
      Built();
    }

    method Built()
      requires cursor.Valid() && this !in cursor.Repr && this !in Frames && Frames !! cursor.Repr
      requires built < |events| && |keyframes| == Keyframes(built + 1) && cursor.Value() == FoldTo(events, built + 1)
      requires forall j | 0 <= j < |keyframes| :: KeyframeOk(j)
      modifies this`built
      ensures Folded() && built == old(built) + 1
    {
      hide FoldTo, Keyframes, HoldsFold;
      built := built + 1;
      forall j | 0 <= j < |keyframes| ensures KeyframeOk(j) {
        assert old(KeyframeOk(j));
      }
    }

    method Ingest()
      requires Folded()
      modifies this, cursor.Repr
      ensures Valid() && events == old(events) && cursor == old(cursor)
      ensures fresh(cursor.Repr - old(cursor.Repr)) && fresh(Frames - old(Frames))
    {
      hide KeyframeOk;
      while built < |events|
        invariant Folded() && events == old(events) && cursor == old(cursor)
        invariant fresh(cursor.Repr - old(cursor.Repr)) && fresh(Frames - old(Frames))
        decreases |events| - built
      {
        IngestOne();
      }
    }

    /** Live events: only the new tail is folded. */
    method Append(more: seq<TraceEvent>)
      requires Valid()
      modifies this, cursor.Repr
      ensures Valid() && events == old(events) + more
      ensures fresh(cursor.Repr - old(cursor.Repr)) && fresh(Frames - old(Frames))
    {
      if |more| == 0 {
        assert events + more == events;
        return;
      }
      Extend(more);
      Ingest();
    }

    method Extend(more: seq<TraceEvent>)
      requires Valid()
      modifies this`events
      ensures Folded() && events == old(events) + more
    {
      ghost var was := events;
      events := events + more;
      FoldToPrefix(was, events, built);
      forall j | 0 <= j < |keyframes| ensures KeyframeOk(j) {
        assert old(KeyframeOk(j));
        FoldToPrefix(was, events, j * KeyframeEvery + 1);
      }
    }

    /** The last index stamped at or before step, by binary search. */
    method IndexForStep(step: int) returns (ans: int)
      requires StepSorted(events)
      ensures -1 <= ans < |events|
      ensures forall i | 0 <= i <= ans :: events[i].step <= step
      ensures forall i | ans < i < |events| :: events[i].step > step
    {
      if step < 0 || |events| == 0 { return -1; }
      var lo, hi := 0, |events| - 1;
      ans := -1;
      while lo <= hi
        invariant 0 <= lo <= hi + 1 <= |events| && ans == lo - 1
        invariant forall i | 0 <= i < lo :: events[i].step <= step
        invariant forall i | hi < i < |events| :: events[i].step > step
      {
        var mid := (lo + hi) / 2;
        if events[mid].step <= step {
          ans := mid;
          lo := mid + 1;
        } else {
          hi := mid - 1;
        }
      }
    }

    /** The events around index i stamped with its step. */
    method CurrentAt(i: nat) returns (cur: seq<TraceEvent>)
      requires i < |events|
      ensures exists lo, hi | 0 <= lo <= i < hi <= |events| :: IsRunOf(lo, hi, events[i].step) && cur == events[lo..hi]
    {
      var step := events[i].step;
      var lo := i;
      while lo > 0 && events[lo - 1].step == step
        invariant 0 <= lo <= i
        invariant forall k | lo <= k <= i :: events[k].step == step
      {
        lo := lo - 1;
      }
      var hi := i;
      while hi + 1 < |events| && events[hi + 1].step == step
        invariant i <= hi < |events|
        invariant forall k | lo <= k <= hi :: events[k].step == step
      {
        hi := hi + 1;
      }
      cur := events[lo..hi + 1];
      assert IsRunOf(lo, hi + 1, step);
    }

    /** events[lo..hi] is a longest run stamped with step. */
    ghost predicate IsRunOf(lo: nat, hi: nat, step: int)
      reads this
    {
      && lo <= hi <= |events| && (forall k | lo <= k < hi :: events[k].step == step)
      && (lo > 0 ==> events[lo - 1].step != step) && (hi < |events| ==> events[hi].step != step)
    }

    /** Folding forward from a copy of the nearest keyframe, which is always
        there, gives the plain fold. */
    method WorldAtIndex(target: int) returns (w: WorldState)
      requires Valid()
      ensures w.Valid() && fresh(w.Repr)
      ensures w.idx == Clamped(|events|, target)
      ensures w.Value() == FoldTo(events, w.idx + 1)
      ensures w.idx >= 0 ==> w.step == events[w.idx].step
      ensures if w.idx < 0 then w.current == []
              else exists lo, hi | 0 <= lo <= w.idx < hi <= |events| ::
                     IsRunOf(lo, hi, events[w.idx].step) && w.current == events[lo..hi]
    {
      hide Folded, IsRunOf;
      if target < 0 || |events| == 0 {
        w := new WorldState.Empty();
        return;
      }
      var i: nat := Min(target, |events| - 1);
      w := Replay(i);
      var cur := CurrentAt(i);
      w.Stamp(i, events[i].step, cur);
    }

    method Replay(i: nat) returns (w: WorldState)
      requires Valid() && i < |events|
      ensures w.Valid() && fresh(w.Repr) && w.Value() == FoldTo(events, i + 1)
    {
      hide Apply, Keyframes;
      var kf := i / KeyframeEvery;
      KeyframeThere(i, |events|);
      assert KeyframeOk(kf);
      w := keyframes[kf].Clone();
      var k := keyframes[kf].idx + 1;
      while k <= i
        invariant kf * KeyframeEvery + 1 <= k <= i + 1
        invariant w.Valid() && fresh(w.Repr) && w.Value() == FoldTo(events, k)
      {
        w.ApplyEvent(events[k]);
        k := k + 1;
      }
    }

    /** Folding to a step is folding exactly the events stamped up to it. */
    method WorldAtStep(step: int) returns (w: WorldState)
      requires Valid() && StepSorted(events)
      ensures w.Valid() && fresh(w.Repr) && w.Value() == Fold(UpTo(events, step))
    {
      var i := IndexForStep(step);
      w := WorldAtIndex(i);
      UpToIsPrefix(events, step, i + 1);
      FoldToPrefix(events, UpTo(events, step), i + 1);
    }
  }

  lemma KeyframeCount(n: nat)
    ensures Keyframes(n + 1) == if n % KeyframeEvery == 0 then Keyframes(n) + 1 else Keyframes(n)
    ensures n % KeyframeEvery == 0 ==> Keyframes(n) * KeyframeEvery == n
  {
  }

  lemma KeyframeThere(i: nat, n: nat)
    requires i < n
    ensures i / KeyframeEvery < Keyframes(n) && i / KeyframeEvery * KeyframeEvery <= i
  {
  }
}
