/**
 The rendezvous that the zero-capacity channel is proved to implement. Whoever
 arrives pairs up with the one who has waited longest on the other side; if there
 is nobody, it waits or leaves. Closing sends everybody away.
 */
module Meeting {
  import opened Common

  /** A waiting thread; a sender has its message. */
  datatype Waiter = Waiter(t: nat, m: Option<Msg>)

  /** The threads waiting on each side, in order of arrival. */
  datatype Hall = Hall(senders: seq<Waiter>, receivers: seq<Waiter>, closed: bool)

  datatype Event =
    | Tau
    | SendMeets(t: nat, m: Msg, r: nat)   // sender `t` hands `m` to waiting receiver `r`
    | RecvMeets(t: nat, s: nat, m: Msg)   // receiver `t` gets `m` from waiting sender `s`
    | SendWaits(t: nat, m: Msg)
    | RecvWaits(t: nat)
    | SendLeaves(t: nat, m: Msg)          // try_send finds nobody
    | RecvLeaves(t: nat)
    | SendRefused(t: nat, m: Msg)         // the channel is closed
    | RecvRefused(t: nat)
    | Close(first: bool)

  const EMPTY := Hall([], [], false)

  predicate HallStep(h: Hall, e: Event, h': Hall) {
    match e
    case Tau => h' == h
    case SendMeets(_, _, r) =>
      !h.closed && h.receivers != [] && h.receivers[0].t == r && h' == h.(receivers := h.receivers[1..])
    case RecvMeets(_, s, m) =>
      !h.closed && h.senders != [] && h.senders[0] == Waiter(s, Some(m)) && h' == h.(senders := h.senders[1..])
    case SendWaits(t, m) => !h.closed && h.receivers == [] && h' == h.(senders := h.senders + [Waiter(t, Some(m))])
    case RecvWaits(t) => !h.closed && h.senders == [] && h' == h.(receivers := h.receivers + [Waiter(t, None)])
    case SendLeaves(_, _) => !h.closed && h.receivers == [] && h' == h
    case RecvLeaves(_) => !h.closed && h.senders == [] && h' == h
    case SendRefused(_, _) => h.closed && h' == h
    case RecvRefused(_) => h.closed && h' == h
    case Close(first) => first == !h.closed && h' == Hall([], [], true)
  }

  ghost predicate Legal(hs: seq<Hall>, es: seq<Event>) {
    |hs| == |es| + 1 && forall i {:trigger es[i]} :: 0 <= i < |es| ==> HallStep(hs[i], es[i], hs[i + 1])
  }

  /** Never do senders and receivers wait at the same time; nobody waits once it is closed. */
  lemma {:induction false} OneSideWaits(hs: seq<Hall>, es: seq<Event>, i: nat)
    requires Legal(hs, es) && hs[0] == EMPTY && i < |hs|
    ensures hs[i].senders == [] || hs[i].receivers == []
    ensures hs[i].closed ==> hs[i].senders == [] && hs[i].receivers == []
  {
    if i > 0 {
      OneSideWaits(hs, es, i - 1);
      assert HallStep(hs[i - 1], es[i - 1], hs[i]);
    }
  }

  predicate Meets(e: Event) { e.SendMeets? || e.RecvMeets? }

  /** Once closed, nobody meets or waits any more, and no other shutdown is the first. */
  lemma {:induction false} NothingAfterClose(hs: seq<Hall>, es: seq<Event>, i: nat, j: nat)
    requires Legal(hs, es) && i <= j < |es| && hs[i].closed
    ensures hs[j].closed && !Meets(es[j]) && !es[j].SendWaits? && !es[j].RecvWaits? && es[j] != Close(true)
  {
    if i < j {
      NothingAfterClose(hs, es, i, j - 1);
    }
    assert HallStep(hs[j], es[j], hs[j + 1]);
  }
}
