/** The mailbox objects themselves. */
module MailboxClasses {
  import opened Foundation
  import opened MailboxModel

  const DefaultMailboxCapacity := 1024

  /** A non-positive capacity means the default. */
  function NormalCapacity(configured: int): (c: nat)
    ensures c >= 1
  {
    if configured <= 0 then DefaultMailboxCapacity else configured
  }

  /** The mutex-guarded deque behind the drop and unbounded policies; a method
      is what runs under the lock, and `signal` the 1-buffered channel. */
  class DequeMailbox {
    const pol: Policy
    const cap: nat
    var queue: seq<Event>
    var signal: bool

    constructor (policy: Policy, configured: int)
      requires policy != Block
      ensures Valid() && queue == [] && !signal && pol == policy && cap == NormalCapacity(configured)
    {
      pol, cap, queue, signal := policy, NormalCapacity(configured), [], false;
    }

    ghost predicate Valid()
      reads this
    {
      cap >= 1 && pol != Block && (pol != Unbounded ==> |queue| <= cap)
    }

    /** Under the lock; the producer wakes the loop afterwards. */
    method Insert(ev: Event) returns (dropped: Option<Event>)
      requires Valid()
      modifies this`queue
      ensures Valid()
      ensures |old(queue)| >= cap && pol == DropNewest ==> dropped == Some(ev) && queue == old(queue)
      ensures |old(queue)| >= cap && pol == DropOldest ==> dropped == Some(old(queue)[0]) && queue == old(queue)[1..] + [ev]
      ensures |old(queue)| < cap || pol == Unbounded ==> dropped == None && queue == old(queue) + [ev]
      ensures Enqueued(queue, dropped) == EnqueueLocked(pol, cap, old(queue), ev)
      ensures multiset(queue) + (if dropped.Some? then multiset{dropped.value} else multiset{}) == multiset(old(queue)) + multiset{ev}
    {
      dropped := None;
      var full := |queue| >= cap;
      if pol == DropNewest && full {
        dropped := Some(ev);
      } else if pol == DropOldest && full {
        dropped := Some(queue[0]);
        assert queue == [queue[0]] + queue[1..];
        queue := queue[1..];
        queue := queue + [ev];
      } else {
        queue := queue + [ev];
      }
    }

    /** A non-blocking send on the 1-buffered channel, outside the lock. */
    method Wake()
      modifies this`signal
      ensures signal
    {
      if !signal { signal := true; }
    }

    /** A whole push, when no other thread runs between its two halves. */
    method Push(ev: Event) returns (dropped: Option<Event>)
      requires Valid()
      modifies this
      ensures Valid() && signal
      ensures Enqueued(queue, dropped) == EnqueueLocked(pol, cap, old(queue), ev)
    {
      dropped := Insert(ev);
      Wake();
    }

    /** One pass of next: take the head, or consume a pending signal. */
    method TryNext() returns (ev: Option<Event>, parked: bool)
      requires Valid()
      modifies this
      ensures Valid()
      ensures old(queue) != [] ==> ev == Some(old(queue)[0]) && queue == old(queue)[1..] && signal == old(signal) && !parked
      ensures old(queue) == [] ==> ev == None && queue == [] && !signal && parked == !old(signal)
    {
      if |queue| > 0 {
        ev, parked := Some(queue[0]), false;
        queue := queue[1..];
        return;
      }
      ev, parked := None, !signal;
      signal := false;
    }

    method Drain() returns (out: seq<Event>)
      requires Valid()
      modifies this
      ensures Valid() && out == old(queue) && queue == [] && signal == old(signal)
    {
      out := queue;
      queue := [];
    }
  }

  /** The buffered channel behind OverflowBlock. */
  class BlockingMailbox {
    const cap: nat
    var ch: seq<Event>

    constructor (configured: int)
      ensures Valid() && ch == [] && cap == NormalCapacity(configured)
    {
      cap, ch := NormalCapacity(configured), [];
    }

    ghost predicate Valid()
      reads this
    {
      cap >= 1 && |ch| <= cap
    }

    /** A send that does not have to wait. */
    method TrySend(ev: Event) returns (sent: bool)
      requires Valid()
      modifies this
      ensures Valid() && sent == (|old(ch)| < cap)
      ensures ch == if sent then EnqueueLocked(Block, cap, old(ch), ev).queue else old(ch)
    {
      sent := |ch| < cap;
      if sent { ch := ch + [ev]; }
    }

    method Drain() returns (out: seq<Event>)
      requires Valid()
      modifies this
      ensures Valid() && out == old(ch) && ch == []
    {
      out := [];
      while |ch| > 0
        invariant out + ch == old(ch) && |ch| <= cap
        decreases |ch|
      {
        out := out + [ch[0]];
        ch := ch[1..];
      }
    }
  }

  // ----- a protocol whose only producers are its own handlers -----

  /** What handlers enqueue: the reactions of the first, second, ... event they
      handle; past the end there are none. */
  type Script = seq<seq<Event>>

  function First(script: Script): seq<Event> {
    if script == [] then [] else script[0]
  }

  function Rest(script: Script): Script {
    if script == [] then [] else script[1..]
  }

  datatype Pushed = Pushed(queue: seq<Event>, dead: seq<Event>)

  function EnqueueAll(pol: Policy, cap: nat, q: seq<Event>, evs: seq<Event>): (r: Pushed)
    requires cap >= 1
    ensures |r.queue| <= |q| + |evs|
  {
    if evs == [] then Pushed(q, [])
    else
      var r := EnqueueAll(pol, cap, q, evs[..|evs| - 1]);
      var e := EnqueueLocked(pol, cap, r.queue, evs[|evs| - 1]);
      Pushed(e.queue, r.dead + (if e.dropped.Some? then [e.dropped.value] else []))
  }

  datatype Idle = Idle(handled: seq<Event>, dead: seq<Event>)

  /** The event loop run until the queue is empty: each event is handled, and
      then what its handler enqueued stands behind the rest. */
  function RunLoop(pol: Policy, cap: nat, q: seq<Event>, script: Script): Idle
    requires cap >= 1
    decreases |script|, |q|
  {
    if q == [] then Idle([], [])
    else
      var p := EnqueueAll(pol, cap, q[1..], First(script));
      var r := RunLoop(pol, cap, p.queue, Rest(script));
      Idle([q[0]] + r.handled, p.dead + r.dead)
  }

  function Lost(dropped: Option<Event>): multiset<Event> {
    if dropped.Some? then multiset{dropped.value} else multiset{}
  }

  lemma EnqueueConserves(pol: Policy, cap: nat, q: seq<Event>, x: Event)
    requires cap >= 1
    ensures var r := EnqueueLocked(pol, cap, q, x); multiset(r.queue) + Lost(r.dropped) == multiset(q) + multiset{x}
  {
    if q != [] { assert q == [q[0]] + q[1..]; }
  }

  lemma {:induction false} EnqueueAllConserves(pol: Policy, cap: nat, q: seq<Event>, evs: seq<Event>)
    requires cap >= 1
    ensures var p := EnqueueAll(pol, cap, q, evs); multiset(p.queue) + multiset(p.dead) == multiset(q) + multiset(evs)
  {
    hide EnqueueLocked;
    if evs != [] {
      var n := |evs| - 1;
      EnqueueAllConserves(pol, cap, q, evs[..n]);
      var r := EnqueueAll(pol, cap, q, evs[..n]);
      EnqueueConserves(pol, cap, r.queue, evs[n]);
      assert evs == evs[..n] + [evs[n]];
      assert multiset(evs) == multiset(evs[..n]) + multiset{evs[n]};
      var e := EnqueueLocked(pol, cap, r.queue, evs[n]);
      Balance(multiset(r.queue), multiset(r.dead), multiset(q), multiset(evs[..n]), multiset{evs[n]}, multiset(e.queue), Lost(e.dropped));
      assert multiset(r.dead + (if e.dropped.Some? then [e.dropped.value] else [])) == multiset(r.dead) + Lost(e.dropped);
    }
  }

  lemma Balance(rq: multiset<Event>, rd: multiset<Event>, q: multiset<Event>, es: multiset<Event>, x: multiset<Event>,
                eq: multiset<Event>, l: multiset<Event>)
    requires rq + rd == q + es && eq + l == rq + x
    ensures eq + (rd + l) == q + (es + x)
  {
    assert eq + (rd + l) == (eq + l) + rd == (rq + x) + rd == (rq + rd) + x;
  }

  /** The reactions of the first n events handled. */
  function Reactions(script: Script, n: nat): multiset<Event> {
    if n == 0 then multiset{} else multiset(First(script)) + Reactions(Rest(script), n - 1)
  }

  /** Every event that was queued or enqueued on the way is handled or dead
      lettered, once. */
  lemma {:induction false} RunLoopConserves(pol: Policy, cap: nat, q: seq<Event>, script: Script)
    requires cap >= 1
    ensures var r := RunLoop(pol, cap, q, script);
            multiset(r.handled) + multiset(r.dead) == multiset(q) + Reactions(script, |r.handled|)
    decreases |script|, |q|
  {
    hide EnqueueAll, RunLoop, Reactions;
    if q == [] {
      NothingRuns(pol, cap, script);
    } else {
      var p := EnqueueAll(pol, cap, q[1..], First(script));
      EnqueueAllConserves(pol, cap, q[1..], First(script));
      if script == [] { RunLoopShrinks(pol, cap, q, script); }
      RunLoopConserves(pol, cap, p.queue, Rest(script));
      var r := RunLoop(pol, cap, p.queue, Rest(script));
      RunLoopTurn(pol, cap, q, script, p, r);
      HandledFirst(q, r.handled);
      TurnBalance(multiset{q[0]}, multiset(q[1..]), multiset(First(script)), multiset(p.queue), multiset(p.dead), multiset(r.handled),
                  multiset(r.dead), Reactions(Rest(script), |r.handled|));
    }
  }

  lemma NothingRuns(pol: Policy, cap: nat, script: Script)
    requires cap >= 1
    ensures RunLoop(pol, cap, [], script) == Idle([], []) && Reactions(script, 0) == multiset{}
  {
  }

  lemma RunLoopTurn(pol: Policy, cap: nat, q: seq<Event>, script: Script, p: Pushed, r: Idle)
    requires cap >= 1 && q != [] && p == EnqueueAll(pol, cap, q[1..], First(script)) && r == RunLoop(pol, cap, p.queue, Rest(script))
    ensures RunLoop(pol, cap, q, script) == Idle([q[0]] + r.handled, p.dead + r.dead)
    ensures multiset(p.dead + r.dead) == multiset(p.dead) + multiset(r.dead)
    ensures Reactions(script, 1 + |r.handled|) == multiset(First(script)) + Reactions(Rest(script), |r.handled|)
  {
    hide EnqueueAll;
  }

  lemma RunLoopShrinks(pol: Policy, cap: nat, q: seq<Event>, script: Script)
    requires cap >= 1 && q != [] && script == []
    ensures |EnqueueAll(pol, cap, q[1..], First(script)).queue| < |q|
  {
  }

  lemma HandledFirst(q: seq<Event>, handled: seq<Event>)
    requires q != []
    ensures multiset(q) == multiset{q[0]} + multiset(q[1..]) && multiset([q[0]] + handled) == multiset{q[0]} + multiset(handled)
  {
    assert q == [q[0]] + q[1..];
  }

  lemma TurnBalance(x: multiset<Event>, rest: multiset<Event>, first: multiset<Event>, pq: multiset<Event>, pd: multiset<Event>,
                    h: multiset<Event>, d: multiset<Event>, more: multiset<Event>)
    requires pq + pd == rest + first && h + d == pq + more
    ensures (x + h) + (pd + d) == (x + rest) + (first + more)
  {
    assert (x + h) + (pd + d) == x + pd + (h + d) == x + (pq + pd) + more;
  }

  /** Enqueue and the event loop, with no concurrent producer. */
  class Protocol {
    const mailbox: DequeMailbox
    var inFlight: int
    var handled: seq<Event>
    var deadLetters: seq<Event>

    constructor (m: DequeMailbox)
      requires m.Valid() && m.queue == []
      ensures mailbox == m && Valid() && handled == [] && deadLetters == []
    {
      mailbox, inFlight, handled, deadLetters := m, 0, [], [];
    }

    /** Between turns the counter is the queue length. */
    ghost predicate Valid()
      reads this, mailbox
    {
      mailbox.Valid() && inFlight == |mailbox.queue|
    }

    /** Called between turns or from a running handler: the counter moves with
        the queue. */
    method Enqueue(ev: Event)
      requires mailbox.Valid()
      modifies this, mailbox
      ensures mailbox.Valid() && handled == old(handled)
      ensures inFlight - |mailbox.queue| == old(inFlight) - |old(mailbox.queue)|
      ensures var r := EnqueueLocked(mailbox.pol, mailbox.cap, old(mailbox.queue), ev);
              && mailbox.queue == r.queue
              && deadLetters == old(deadLetters) + (if r.dropped.Some? then [r.dropped.value] else [])
    {
      inFlight := inFlight + 1;
      var dropped := mailbox.Push(ev);
      if dropped.Some? { inFlight := inFlight - 1; }
      if dropped.Some? { deadLetters := deadLetters + [dropped.value]; }
    }

    /** A handler enqueueing to its own protocol. */
    method React(evs: seq<Event>)
      requires mailbox.Valid()
      modifies this, mailbox
      ensures mailbox.Valid() && handled == old(handled)
      ensures inFlight - |mailbox.queue| == old(inFlight) - |old(mailbox.queue)|
      ensures var p := EnqueueAll(mailbox.pol, mailbox.cap, old(mailbox.queue), evs);
              mailbox.queue == p.queue && deadLetters == old(deadLetters) + p.dead
    {
      var i := 0;
      while i < |evs|
        invariant 0 <= i <= |evs| && mailbox.Valid() && handled == old(handled)
        invariant inFlight - |mailbox.queue| == old(inFlight) - |old(mailbox.queue)|
        invariant var p := EnqueueAll(mailbox.pol, mailbox.cap, old(mailbox.queue), evs[..i]);
                  mailbox.queue == p.queue && deadLetters == old(deadLetters) + p.dead
      {
        assert evs[..i + 1][..i] == evs[..i];
        Enqueue(evs[i]);
        i := i + 1;
      }
      assert evs[..i] == evs;
    }

    /** One event: its handler, what it enqueues, and only then the decrement. */
    method Dispatch(ev: Event, reactions: seq<Event>)
      requires mailbox.Valid() && inFlight == |mailbox.queue| + 1
      modifies this, mailbox
      ensures Valid() && handled == old(handled) + [ev]
      ensures var p := EnqueueAll(mailbox.pol, mailbox.cap, old(mailbox.queue), reactions);
              mailbox.queue == p.queue && deadLetters == old(deadLetters) + p.dead
    {
      hide EnqueueAll;
      handled := handled + [ev];
      React(reactions);
      inFlight := inFlight - 1;
    }

    /** The event loop until nothing is left. */
    method RunUntilIdle(script: Script)
      requires Valid()
      modifies this, mailbox
      ensures Valid() && mailbox.queue == [] && inFlight == 0
      ensures var r := RunLoop(mailbox.pol, mailbox.cap, old(mailbox.queue), script);
              handled == old(handled) + r.handled && deadLetters == old(deadLetters) + r.dead
    {
      hide EnqueueAll;
      var left := script;
      ghost var r := RunLoop(mailbox.pol, mailbox.cap, mailbox.queue, script);
      ghost var s := r;
      while true
        invariant Valid() && s == RunLoop(mailbox.pol, mailbox.cap, mailbox.queue, left)
        invariant handled + s.handled == old(handled) + r.handled && deadLetters + s.dead == old(deadLetters) + r.dead
        decreases |left|, |mailbox.queue|, mailbox.signal
      {
        var ev, parked := mailbox.TryNext();
        if parked { return; }
        if ev.Some? {
          ghost var p := EnqueueAll(mailbox.pol, mailbox.cap, mailbox.queue, First(left));
          ghost var n := RunLoop(mailbox.pol, mailbox.cap, p.queue, Rest(left));
          assert s.handled == [ev.value] + n.handled && s.dead == p.dead + n.dead;
          if left == [] { NoReactions(mailbox.pol, mailbox.cap, mailbox.queue); }
          Dispatch(ev.value, First(left));
          left, s := Rest(left), n;
        }
      }
    }
  }

  lemma NoReactions(pol: Policy, cap: nat, q: seq<Event>)
    requires cap >= 1
    ensures EnqueueAll(pol, cap, q, []) == Pushed(q, [])
  {
  }
}
