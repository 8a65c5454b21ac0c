/** A protocol's mailbox and its in-flight counter, as small steps that any
    number of producers and one event loop interleave. Queued events are named
    by their ticket: their position in the order of pushes. */
module MailboxModel {
  import opened Foundation

  datatype Policy = Block | DropOldest | DropNewest | Unbounded

  datatype Event = Event(kind: string, payload: Bytes)

  datatype Enqueued<T> = Enqueued(queue: seq<T>, dropped: Option<T>)

  /** The overflow policy, applied under the lock. */
  function EnqueueLocked<T>(pol: Policy, cap: nat, q: seq<T>, x: T): Enqueued<T>
    requires cap >= 1
  {
    match pol
    case DropNewest => if |q| >= cap then Enqueued(q, Some(x)) else Enqueued(q + [x], None)
    case DropOldest => if |q| >= cap then Enqueued(q[1..] + [x], Some(q[0])) else Enqueued(q + [x], None)
    case _ => Enqueued(q + [x], None)
  }

  /** Where a producer is inside enqueue; a producer not listed is outside.
      Counted: after the increment, before the push. Signalling: pushed, about
      to wake the loop. Uncounting: about to undo its increment, for a drop or
      an aborted push. Reporting: about to call the dead-letter hook. */
  datatype Producer =
    | Counted(event: Event)
    | Signalling(dropped: Option<nat>)
    | Uncounting(lost: Option<nat>)
    | Reporting(ticket: nat)

  /** Where the event loop is: about to look at the queue, blocked on the signal
      channel, running a handler, or gone after shutdown. */
  datatype Loop = Checking | Parked | Running(ticket: nat) | Stopped

  /** `log` holds the events in push order, `dispatched` the tickets handed to
      handlers so far, `dropped` those an overflow policy discarded, `dead` the
      calls of the dead-letter hook. */
  datatype State = State(
    policy: Policy,
    cap: nat,
    queue: seq<nat>,
    signal: bool,
    inFlight: int,
    producers: map<nat, Producer>,
    loop: Loop,
    done: bool,
    log: seq<Event>,
    dispatched: seq<nat>,
    dropped: set<nat>,
    dead: seq<nat>)

  datatype Label =
    | Begin(pid: nat, event: Event)
    | Push(pid: nat)
    | Signal(pid: nat)
    | Abort(pid: nat)
    | Uncount(pid: nat)
    | Report(pid: nat)
    | Take
    | Park
    | Wake
    | Finish
    | Stop
    | Shutdown

  function Init(policy: Policy, cap: nat): State {
    State(policy, cap, [], false, 0, map[], Checking, false, [], [], {}, [])
  }

  predicate Enabled(s: State, l: Label) {
    match l
    case Begin(p, _) => p !in s.producers
    case Push(p) => p in s.producers && s.producers[p].Counted? && (s.policy == Block ==> |s.queue| < s.cap)
    case Signal(p) => p in s.producers && s.producers[p].Signalling?
    case Abort(p) => p in s.producers && s.producers[p].Counted? && s.policy == Block && s.done
    case Uncount(p) => p in s.producers && s.producers[p].Uncounting?
    case Report(p) => p in s.producers && s.producers[p].Reporting?
    case Take => s.loop == Checking && s.queue != []
    case Park => s.loop == Checking && s.queue == [] && s.policy != Block
    case Wake => s.loop == Parked && s.signal
    case Finish => s.loop.Running?
    case Stop => s.done && (s.loop == Parked || (s.loop == Checking && s.policy == Block))
    case Shutdown => !s.done
  }

  function Leave(s: State, p: nat): State {
    s.(producers := s.producers - {p})
  }

  function PushStep(s: State, p: nat): State
    requires s.cap >= 1 && p in s.producers && s.producers[p].Counted?
  {
    var t := |s.log|;
    var r := EnqueueLocked(s.policy, s.cap, s.queue, t);
    var s1 := s.(queue := r.queue, log := s.log + [s.producers[p].event],
                 dropped := if r.dropped.Some? then s.dropped + {r.dropped.value} else s.dropped);
    if s.policy == Block then Leave(s1, p) else s1.(producers := s1.producers[p := Signalling(r.dropped)])
  }

  function Step(s: State, l: Label): State
    requires s.cap >= 1 && Enabled(s, l)
  {
    match l
    case Begin(p, e) => s.(producers := s.producers[p := Counted(e)], inFlight := s.inFlight + 1)
    case Push(p) => PushStep(s, p)
    case Signal(p) =>
      var d := s.producers[p].dropped;
      var s1 := s.(signal := true);
      if d.Some? then s1.(producers := s.producers[p := Uncounting(d)]) else Leave(s1, p)
    case Abort(p) => s.(producers := s.producers[p := Uncounting(None)])
    case Uncount(p) =>
      var d := s.producers[p].lost;
      var s1 := s.(inFlight := s.inFlight - 1);
      if d.Some? then s1.(producers := s.producers[p := Reporting(d.value)]) else Leave(s1, p)
    case Report(p) => Leave(s.(dead := s.dead + [s.producers[p].ticket]), p)
    case Take => s.(loop := Running(s.queue[0]), queue := s.queue[1..], dispatched := s.dispatched + [s.queue[0]])
    case Park => s.(loop := Parked)
    case Wake => s.(loop := Checking, signal := false)
    case Finish => s.(loop := Checking, inFlight := s.inFlight - 1)
    case Stop => s.(loop := Stopped)
    case Shutdown => s.(done := true)
  }

  ghost predicate IsRun(policy: Policy, cap: nat, ss: seq<State>, ls: seq<Label>) {
    && cap >= 1 && |ss| == |ls| + 1 && ss[0] == Init(policy, cap)
    && forall k | 0 <= k < |ls| :: ss[k].cap >= 1 && Enabled(ss[k], ls[k]) && ss[k + 1] == Step(ss[k], ls[k])
  }
}
