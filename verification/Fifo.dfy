/**
 The queue that the buffered channels are proved to implement: a FIFO with a
 closed flag and, for the bounded flavour, a capacity. A channel step shows an
 `Event` at its linearization point; every other step shows `Tau`.
 */
module Fifo {
  import opened Common

  datatype Event =
    | Tau
    | Enq(m: Msg)       // a send takes effect
    | Deq(m: Msg)       // a receive takes effect
    | SawFull           // a send finds no room
    | SawEmpty          // a receive finds nothing, channel open
    | SawClosed         // a receive finds nothing, channel closed
    | Reject            // a send is refused because the channel is closed
    | Close(first: bool)  // shutdown, and the answer it gives

  /** What a step shows, and the message it takes out. */
  function Seen(e: Event): seq<Event> { if e.Tau? then [] else [e] }

  function DeqOf(e: Event): seq<Msg> { if e.Deq? then [e.m] else [] }

  datatype Queue = Queue(items: seq<Msg>, closed: bool)

  const EMPTY := Queue([], false)

  /** `cap` is None for the unbounded flavour. */
  predicate QueueStep(cap: Option<nat>, q: Queue, e: Event, q': Queue) {
    match e
    case Tau => q' == q
    case Enq(m) => !q.closed && (cap.Some? ==> |q.items| < cap.value) && q' == q.(items := q.items + [m])
    case Deq(m) => q.items != [] && q.items[0] == m && q' == q.(items := q.items[1..])
    case SawFull => cap.Some? && |q.items| == cap.value && q' == q
    case SawEmpty => q.items == [] && !q.closed && q' == q
    case SawClosed => q.items == [] && q.closed && q' == q
    case Reject => q.closed && q' == q
    case Close(first) => first == !q.closed && q' == q.(closed := true)
  }

  /** What a receive is told by a queue, and a send of `m`. */
  function RecvAnswer(q: Queue): Event {
    if q.items != [] then Deq(q.items[0]) else if q.closed then SawClosed else SawEmpty
  }

  function SendAnswer(cap: Option<nat>, q: Queue, m: Msg): Event {
    if q.closed then Reject else if cap.Some? && |q.items| == cap.value then SawFull else Enq(m)
  }

  predicate EndsWith(es: seq<Event>, e: Event) { es != [] && es[|es| - 1] == e }

  /** The queue states of a run, and the event between each two of them. */
  ghost predicate Legal(cap: Option<nat>, qs: seq<Queue>, es: seq<Event>) {
    |qs| == |es| + 1 && forall i :: 0 <= i < |es| ==> QueueStep(cap, qs[i], es[i], qs[i + 1])
  }

  function Enqueued(es: seq<Event>): seq<Msg> {
    if es == [] then [] else
      var l := es[|es| - 1];
      Enqueued(es[..|es| - 1]) + (if l.Enq? then [l.m] else [])
  }

  function Dequeued(es: seq<Event>): seq<Msg> {
    if es == [] then [] else
      var l := es[|es| - 1];
      Dequeued(es[..|es| - 1]) + (if l.Deq? then [l.m] else [])
  }

  function Closings(es: seq<Event>): nat {
    if es == [] then 0 else
      var l := es[|es| - 1];
      Closings(es[..|es| - 1]) + (if l == Close(true) then 1 else 0)
  }

  /** What a run delivers: exactly the messages accepted, in that order, less those still inside. */
  lemma {:induction false} FifoOrder(cap: Option<nat>, qs: seq<Queue>, es: seq<Event>)
    requires Legal(cap, qs, es) && qs[0] == EMPTY
    ensures Enqueued(es) == Dequeued(es) + qs[|es|].items
  {
    if es != [] {
      var n := |es| - 1;
      FifoOrder(cap, qs[..n + 1], es[..n]);
      OrderStep(cap, qs[n], es[n], qs[n + 1], Enqueued(es[..n]), Dequeued(es[..n]));
    }
  }

  lemma OrderStep(cap: Option<nat>, q: Queue, e: Event, q': Queue, sent: seq<Msg>, taken: seq<Msg>)
    requires QueueStep(cap, q, e, q') && sent == taken + q.items
    ensures sent + (if e.Enq? then [e.m] else []) == taken + (if e.Deq? then [e.m] else []) + q'.items
  {
    if e.Deq? {
      assert q.items == [e.m] + q'.items;
    }
  }

  /** A bounded queue never holds more than its capacity. */
  lemma {:induction false} NeverOverfull(cap: Option<nat>, qs: seq<Queue>, es: seq<Event>)
    requires Legal(cap, qs, es) && qs[0] == EMPTY && cap.Some?
    ensures |qs[|es|].items| <= cap.value
  {
    if es != [] {
      var n := |es| - 1;
      NeverOverfull(cap, qs[..n + 1], es[..n]);
      assert QueueStep(cap, qs[n], es[n], qs[n + 1]);
    }
  }

  /** Exactly one shutdown answers `true` in a run that closes the queue, and none otherwise. */
  lemma {:induction false} OneShutdown(cap: Option<nat>, qs: seq<Queue>, es: seq<Event>)
    requires Legal(cap, qs, es) && qs[0] == EMPTY
    ensures Closings(es) == if qs[|es|].closed then 1 else 0
  {
    if es != [] {
      var n := |es| - 1;
      OneShutdown(cap, qs[..n + 1], es[..n]);
      assert QueueStep(cap, qs[n], es[n], qs[n + 1]);
    }
  }

  /** Once closed, always closed: nothing is accepted after a shutdown. */
  lemma {:induction false} NothingAfterClose(cap: Option<nat>, qs: seq<Queue>, es: seq<Event>, i: nat, j: nat)
    requires Legal(cap, qs, es) && i <= j < |es|
    requires qs[i].closed
    ensures qs[j].closed && !es[j].Enq? && es[j] != Close(true)
  {
    if i < j {
      NothingAfterClose(cap, qs, es, i, j - 1);
    }
    assert QueueStep(cap, qs[j], es[j], qs[j + 1]);
  }

  /**
   A receiver is told "disconnected" only after a shutdown, when every message
   ever accepted has already been taken by a receiver.
   */
  lemma ClosedMeansDrained(cap: Option<nat>, qs: seq<Queue>, es: seq<Event>, i: nat)
    requires Legal(cap, qs, es) && qs[0] == EMPTY && i < |es|
    requires es[i].SawClosed?
    ensures Closings(es[..i]) == 1
    ensures Dequeued(es[..i]) == Enqueued(es[..i])
    ensures forall j :: i <= j < |es| ==> !es[j].Enq? && !es[j].Deq?
  {
    assert QueueStep(cap, qs[i], es[i], qs[i + 1]);
    FifoOrder(cap, qs[..i + 1], es[..i]);
    OneShutdown(cap, qs[..i + 1], es[..i]);
    forall j | i <= j < |es| ensures !es[j].Enq? && !es[j].Deq? {
      StaysDrained(cap, qs, es, i, j);
    }
  }

  lemma {:induction false} StaysDrained(cap: Option<nat>, qs: seq<Queue>, es: seq<Event>, i: nat, j: nat)
    requires Legal(cap, qs, es) && i <= j < |es|
    requires qs[i].closed && qs[i].items == []
    ensures qs[j].closed && qs[j].items == [] && !es[j].Enq? && !es[j].Deq?
  {
    if i < j {
      StaysDrained(cap, qs, es, i, j - 1);
      assert QueueStep(cap, qs[j - 1], es[j - 1], qs[j]);
    }
    assert QueueStep(cap, qs[j], es[j], qs[j + 1]);
  }
}
