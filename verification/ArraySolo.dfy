/**
 A thread of the bounded channel that runs alone, no other call under way and no
 CAS failing spuriously, ends its call within 8 steps: from any reachable state,
 whatever it has loaded before. From rest the call has the effect that the
 contents of the queue call for.
 */
module ArraySolo {
  import opened Common
  import opened Fifo
  import opened ArrayWords
  import opened ArrayProtocol
  import opened ArrayInvariant
  import opened ArraySteps
  import opened ArrayTheorems
  import opened ArrayQueries

  ghost predicate Alone(threads: seq<Pc>, t: nat) {
    t < |threads| && forall u :: 0 <= u < |threads| && u != t ==> threads[u].Idle?
  }

  /** `n` steps of thread `t`. */
  ghost function After(c: Config, s: State, t: nat, n: nat): (s': State)
    requires t < |s.threads|
    ensures |s'.threads| == |s.threads|
    decreases n
  {
    if n == 0 then s else After(c, Step(c, s, t, Go), t, n - 1)
  }

  // ---- how far a thread still has to go ----

  /** By whether the saved words are current. */
  function Rank(c: Config, mem: Mem, pc: Pc): (n: nat)
    ensures n <= 8 && (n == 0 <==> pc.Idle?)
  {
    match pc
    case Idle => 0
    case SLoad(_) => 5
    case SLoop(_, tail) => if mem.tail == tail then 4 else 8
    case SCas(_, tail) => if mem.tail == tail then 3 else 5
    case SFull(_, tail) => if mem.head + c.lap == tail then 1 else 6
    case SWrite(_, _, _) => 2
    case SStamp(_, _) => 1
    case RLoad => 5
    case RLoop(head) => if mem.head == head then 4 else 8
    case RCas(head) => if mem.head == head then 3 else 5
    case REmpty(head) => if Strip(c, mem.tail) == head then 1 else 6
    case RRead(_, _) => 2
    case RStamp(_, _, _) => 1
    case LLoadTail => 3
    case LLoadHead(tail) => if mem.tail == tail then 2 else 5
    case LCheck(tail, _) => if mem.tail == tail then 1 else 4
    case FLoadTail => 2
    case FLoadHead(_) => 1
  }

  // ---- alone, the stamps are settled ----

  predicate Owning(pc: Pc) { pc.SWrite? || pc.SStamp? || pc.RRead? || pc.RStamp? }

  ghost predicate Settled(aux: Aux) { forall p :: 0 <= p < |aux.cells| ==> !Pending(aux.cells[p]) }

  lemma NobodyOwns(aux: Aux, threads: seq<Pc>)
    requires Held(aux, threads) && forall u :: 0 <= u < |threads| ==> !Owning(threads[u])
    ensures Settled(aux)
  {
  }

  /** With room, the slot of the tail invites a sender. */
  lemma SlotForSender(c: Config, mem: Mem, aux: Aux)
    requires Words(c, mem, aux) && Cells(c, mem, aux) && Settled(aux) && |aux.log| < aux.taken + c.cap
    ensures mem.slots[At(c, |aux.log|)].stamp == Stamp(c, |aux.log|)
  {
    var n := |aux.log|;
    if n >= c.cap {
      NextLap(c, n - c.cap);
      assert CellOk(c, mem, aux, n - c.cap);
      assert !Pending(aux.cells[n - c.cap]);
    } else {
      FreshStamp(c, n);
    }
  }

  lemma FreshStamp(c: Config, n: nat)
    requires n < c.cap
    ensures Stamp(c, n) == n && At(c, n) == n
  {
  }

  /** Without room, it is a lap behind, and so is the head. */
  lemma SlotWhenFull(c: Config, mem: Mem, aux: Aux)
    requires Words(c, mem, aux) && Cells(c, mem, aux) && Settled(aux) && |aux.log| == aux.taken + c.cap
    ensures mem.slots[At(c, |aux.log|)].stamp != Stamp(c, |aux.log|)
    ensures mem.slots[At(c, |aux.log|)].stamp + c.lap == Stamp(c, |aux.log|) + 1
    ensures mem.head + c.lap == Stamp(c, |aux.log|)
  {
    NextLap(c, aux.taken);
    assert CellOk(c, mem, aux, aux.taken);
    assert !Pending(aux.cells[aux.taken]);
  }

  /** With a message, the slot of the head invites a receiver. */
  lemma SlotForReceiver(c: Config, mem: Mem, aux: Aux)
    requires Words(c, mem, aux) && Cells(c, mem, aux) && Settled(aux) && aux.taken < |aux.log|
    ensures mem.slots[At(c, aux.taken)].stamp == Stamp(c, aux.taken) + 1
  {
    assert CellOk(c, mem, aux, aux.taken);
    assert !Pending(aux.cells[aux.taken]);
  }

  /** An open channel's tail is the word of the next position. */
  lemma OpenWord(c: Config, mem: Mem, aux: Aux)
    requires Words(c, mem, aux) && !Marked(c, mem.tail)
    ensures mem.tail == Stamp(c, |aux.log|) && Index(c, mem.tail) == At(c, |aux.log|)
  {
    StampParts(c, |aux.log|);
  }

  // ---- every step gets closer ----

  ghost predicate Nearer(c: Config, mem: Mem, pc: Pc) {
    var out := MemStep(c, mem, pc, Go);
    Rank(c, out.mem, out.pc) < Rank(c, mem, pc)
  }

  lemma SendLoopNearer(c: Config, mem: Mem, aux: Aux, pc: Pc)
    requires Words(c, mem, aux) && Cells(c, mem, aux) && Settled(aux) && pc.SLoop?
    ensures Nearer(c, mem, pc)
  {
    if mem.tail == pc.tail && !Marked(c, pc.tail) {
      OpenWord(c, mem, aux);
      if |aux.log| == aux.taken + c.cap {
        SlotWhenFull(c, mem, aux);
      } else {
        SlotForSender(c, mem, aux);
      }
    }
  }

  lemma RecvLoopNearer(c: Config, mem: Mem, aux: Aux, pc: Pc)
    requires Words(c, mem, aux) && Cells(c, mem, aux) && Settled(aux) && pc.RLoop?
    ensures Nearer(c, mem, pc)
  {
    if mem.head == pc.head {
      StampParts(c, aux.taken);
      if aux.taken < |aux.log| {
        SlotForReceiver(c, mem, aux);
      } else {
        SlotForSender(c, mem, aux);
      }
    }
  }

  lemma OtherNearer(c: Config, mem: Mem, pc: Pc)
    requires !pc.SLoop? && !pc.RLoop? && !pc.Idle?
    ensures Nearer(c, mem, pc)
  {
  }

  lemma Descends(c: Config, s: State, t: nat)
    requires Inv(c, s) && Alone(s.threads, t) && !s.threads[t].Idle?
    ensures Nearer(c, s.mem, s.threads[t])
  {
    var pc := s.threads[t];
    if pc.SLoop? || pc.RLoop? {
      NobodyOwns(s.aux, s.threads);
      if pc.SLoop? {
        SendLoopNearer(c, s.mem, s.aux, pc);
      } else {
        RecvLoopNearer(c, s.mem, s.aux, pc);
      }
    } else {
      OtherNearer(c, s.mem, pc);
    }
  }

  // ---- the call ends ----

  /** At most `n` steps are left. */
  ghost predicate Within(c: Config, s: State, t: nat, n: nat)
    requires t < |s.threads|
  {
    forall k {:trigger Unfold(k)} :: Unfold(k) ==> Rank(c, s.mem, s.threads[t]) <= n
  }

  lemma NoneLeft(c: Config, s: State, t: nat)
    requires Alone(s.threads, t) && Within(c, s, t, 0)
    ensures Quiet(s.threads)
  {
    assert Unfold(0);
  }

  lemma StepReaches(c: Config, s: State, t: nat, x: Choice)
    requires Reachable(c, s) && t < |s.threads|
    ensures Reachable(c, Step(c, s, t, x))
  {
    var run: seq<State>, sched: Schedule :| IsRun(c, run, sched) && run[|sched|] == s;
    var run', sched' := run + [Turn(c, s, (t, x))], sched + [(t, x)];
    assert IsRun(c, run', sched') && run'[|sched'|] == Step(c, s, t, x);
  }

  lemma Closer(c: Config, s: State, t: nat, n: nat) returns (s': State)
    requires Reachable(c, s) && Alone(s.threads, t) && Within(c, s, t, n) && n > 0
    ensures Reachable(c, s') && Alone(s'.threads, t) && Within(c, s', t, n - 1)
    ensures After(c, s, t, n) == After(c, s', t, n - 1)
  {
    ReachableInv(c, s);
    StepReaches(c, s, t, Go);
    s' := Step(c, s, t, Go);
    assert Unfold(0);
    if !s.threads[t].Idle? {
      Descends(c, s, t);
    }
  }

  lemma {:induction false} EndsWithin(c: Config, s: State, t: nat, n: nat)
    requires Reachable(c, s) && Alone(s.threads, t) && Within(c, s, t, n)
    ensures Reachable(c, After(c, s, t, n)) && Quiet(After(c, s, t, n).threads)
    decreases n
  {
    if n == 0 {
      NoneLeft(c, s, t);
    } else {
      var s' := Closer(c, s, t, n);
      EndsWithin(c, s', t, n - 1);
    }
  }

  /**
   In any reachable state in which no other call is under way, a thread in the
   middle of any call ends it within 8 steps of its own.
   */
  lemma RunsToEnd(c: Config, s: State, t: nat)
    requires Reachable(c, s) && Alone(s.threads, t)
    ensures Reachable(c, After(c, s, t, 8)) && Quiet(After(c, s, t, 8).threads)
  {
    EndsWithin(c, s, t, 8);
  }

  // ---- with the right effect ----

  predicate Unsent(pc: Pc, m: Msg) { (pc.SLoad? || pc.SLoop? || pc.SCas? || pc.SFull?) && pc.m == m }

  predicate Ended(pc: Pc) { pc.Idle? || Owning(pc) }

  /** The queue that a send of `m` leaves: with `m` at its end, unless it is closed or full. */
  function WithSent(cap: nat, q: Queue, m: Msg): Queue {
    if q.closed || |q.items| == cap then q else Queue(q.items + [m], false)
  }

  ghost predicate SendingFrom(c: Config, s: State, t: nat, m: Msg, q: Queue) {
    && t < |s.threads|
    && ((Unsent(s.threads[t], m) && Abs(c, s) == q) || (Ended(s.threads[t]) && Abs(c, s) == WithSent(c.cap, q, m)))
  }

  /** Where a step of a send leads, by what it shows. */
  ghost predicate SendMoves(pc: Pc, pc': Pc, m: Msg, e: Event) {
    if Unsent(pc, m) then
      (Unsent(pc', m) && e == Tau) || (Ended(pc') && (e == Enq(m) || e == SawFull || e == Reject))
    else
      Ended(pc') && e == Tau
  }

  lemma SendMovesOn(c: Config, s: State, t: nat, m: Msg)
    requires Inv(c, s) && t < |s.threads| && (Unsent(s.threads[t], m) || Ended(s.threads[t]))
    ensures SendMoves(s.threads[t], Step(c, s, t, Go).threads[t], m, EventOf(c, s, (t, Go)))
  {
    NeverFaults(c, s, t);
  }

  lemma NeverFaults(c: Config, s: State, t: nat)
    requires Inv(c, s) && t < |s.threads|
    ensures !MemStep(c, s.mem, s.threads[t], Go).fault
  {
    StepKeeps(c, s, t, Go);
  }

  lemma SendStepIsEnough(c: Config, s: State, t: nat, m: Msg, q: Queue, e: Event, s': State)
    requires SendingFrom(c, s, t, m, q) && QueueStep(Some(c.cap), Abs(c, s), e, Abs(c, s'))
    requires |s'.threads| == |s.threads| && SendMoves(s.threads[t], s'.threads[t], m, e)
    ensures SendingFrom(c, s', t, m, q)
  {
  }

  lemma SendingOn(c: Config, s: State, t: nat, m: Msg, q: Queue)
    requires Reachable(c, s) && SendingFrom(c, s, t, m, q)
    ensures Reachable(c, Step(c, s, t, Go)) && SendingFrom(c, Step(c, s, t, Go), t, m, q)
    ensures Step(c, s, t, Go).aux.taken == s.aux.taken
  {
    ReachableInv(c, s);
    StepReaches(c, s, t, Go);
    StepRefines(c, s, (t, Go));
    SendMovesOn(c, s, t, m);
    SendStepIsEnough(c, s, t, m, q, EventOf(c, s, (t, Go)), Step(c, s, t, Go));
  }

  lemma {:induction false} SendingRun(c: Config, s: State, t: nat, m: Msg, q: Queue, n: nat)
    requires Reachable(c, s) && SendingFrom(c, s, t, m, q)
    ensures SendingFrom(c, After(c, s, t, n), t, m, q) && After(c, s, t, n).aux.taken == s.aux.taken
    decreases n
  {
    if n > 0 {
      SendingOn(c, s, t, m, q);
      SendingRun(c, Step(c, s, t, Go), t, m, q, n - 1);
    }
  }

  /** From rest, a send made alone ends, and the queue has the message at its end, unless it was closed or full. */
  lemma SoloSend(c: Config, s: State, t: nat, m: Msg)
    requires Reachable(c, s) && Quiet(s.threads) && t < |s.threads|
    ensures var s' := After(c, Step(c, s, t, Choice.Send(m)), t, 8);
      Reachable(c, s') && Quiet(s'.threads) && Abs(c, s') == WithSent(c.cap, Abs(c, s), m) && s'.aux.taken == s.aux.taken
  {
    StepReaches(c, s, t, Choice.Send(m));
    var s1 := Step(c, s, t, Choice.Send(m));
    RunsToEnd(c, s1, t);
    SendingRun(c, s1, t, m, Abs(c, s), 8);
  }

  predicate Untaken(pc: Pc) { pc.RLoad? || pc.RLoop? || pc.RCas? || pc.REmpty? }

  /** The queue that a receive leaves. */
  function WithTaken(q: Queue): Queue { if q.items == [] then q else Queue(q.items[1..], q.closed) }

  ghost predicate ReceivingFrom(c: Config, s: State, t: nat, q: Queue) {
    && t < |s.threads|
    && ((Untaken(s.threads[t]) && Abs(c, s) == q) || (Ended(s.threads[t]) && Abs(c, s) == WithTaken(q)))
  }

  ghost predicate RecvMoves(pc: Pc, pc': Pc, e: Event) {
    if Untaken(pc) then
      (Untaken(pc') && e == Tau) || (Ended(pc') && (e.Deq? || e == SawEmpty || e == SawClosed))
    else
      Ended(pc') && e == Tau
  }

  /** A receiver at its CAS has seen a message. */
  lemma SomethingThere(c: Config, mem: Mem, aux: Aux, t: nat, pc: Pc)
    requires Words(c, mem, aux) && Cells(c, mem, aux) && ThreadOk(c, mem, aux, t, pc) && pc.RCas? && mem.head == pc.head
    ensures aux.taken < |aux.log|
  {
    StampParts(c, aux.taken);
    FullSlot(c, mem, aux);
  }

  lemma RecvMovesOn(c: Config, s: State, t: nat)
    requires Inv(c, s) && t < |s.threads| && (Untaken(s.threads[t]) || Ended(s.threads[t]))
    ensures RecvMoves(s.threads[t], Step(c, s, t, Go).threads[t], EventOf(c, s, (t, Go)))
  {
    NeverFaults(c, s, t);
    assert ThreadOk(c, s.mem, s.aux, t, s.threads[t]);
    if s.threads[t].RCas? && s.mem.head == s.threads[t].head {
      SomethingThere(c, s.mem, s.aux, t, s.threads[t]);
    }
  }

  lemma RecvStepIsEnough(c: Config, s: State, t: nat, q: Queue, e: Event, s': State)
    requires ReceivingFrom(c, s, t, q) && QueueStep(Some(c.cap), Abs(c, s), e, Abs(c, s'))
    requires |s'.threads| == |s.threads| && RecvMoves(s.threads[t], s'.threads[t], e)
    ensures ReceivingFrom(c, s', t, q)
  {
  }

  lemma ReceivingOn(c: Config, s: State, t: nat, q: Queue)
    requires Reachable(c, s) && ReceivingFrom(c, s, t, q)
    ensures Reachable(c, Step(c, s, t, Go)) && ReceivingFrom(c, Step(c, s, t, Go), t, q)
    ensures |Step(c, s, t, Go).aux.log| >= |s.aux.log|
  {
    ReachableInv(c, s);
    StepReaches(c, s, t, Go);
    StepRefines(c, s, (t, Go));
    RecvMovesOn(c, s, t);
    RecvStepIsEnough(c, s, t, q, EventOf(c, s, (t, Go)), Step(c, s, t, Go));
  }

  lemma {:induction false} ReceivingRun(c: Config, s: State, t: nat, q: Queue, n: nat)
    requires Reachable(c, s) && ReceivingFrom(c, s, t, q)
    ensures ReceivingFrom(c, After(c, s, t, n), t, q) && |After(c, s, t, n).aux.log| >= |s.aux.log|
    decreases n
  {
    if n > 0 {
      ReceivingOn(c, s, t, q);
      ReceivingRun(c, Step(c, s, t, Go), t, q, n - 1);
    }
  }

  /** From rest, a receive made alone ends, and the queue is without its first message, if it had one. */
  lemma SoloRecv(c: Config, s: State, t: nat)
    requires Reachable(c, s) && Quiet(s.threads) && t < |s.threads|
    ensures var s' := After(c, Step(c, s, t, Recv), t, 8);
      Reachable(c, s') && Quiet(s'.threads) && Abs(c, s') == WithTaken(Abs(c, s)) && |s'.aux.log| >= |s.aux.log|
  {
    StepReaches(c, s, t, Recv);
    var s1 := Step(c, s, t, Recv);
    RunsToEnd(c, s1, t);
    ReceivingRun(c, s1, t, Abs(c, s), 8);
  }

  // ---- is_empty is wrong ----

  lemma StartReachable(c: Config, s: State)
    requires Initial(c, s)
    ensures Reachable(c, s) && Quiet(s.threads) && Abs(c, s) == EMPTY && s.aux.taken == 0
  {
    StartsEmpty(c, s);
    var run, sched: Schedule := [s], [];
    assert IsRun(c, run, sched) && run[|sched|] == s;
  }

  /**
   For every capacity: after one send `is_empty` says that the channel is empty,
   and after one receive, that it is not. Both states are reachable, and at rest.
   */
  lemma IsEmptyFails(c: Config, s0: State, m: Msg) returns (full: State, empty: State)
    requires Initial(c, s0) && |s0.threads| > 0
    ensures Reachable(c, full) && Quiet(full.threads) && Abs(c, full).items == [m] && EmptyOf(c, full.mem.tail, full.mem.head)
    ensures Reachable(c, empty) && Quiet(empty.threads) && Abs(c, empty).items == [] && !EmptyOf(c, empty.mem.tail, empty.mem.head)
  {
    StartReachable(c, s0);
    SoloSend(c, s0, 0, m);
    full := After(c, Step(c, s0, 0, Choice.Send(m)), 0, 8);
    SoloRecv(c, full, 0);
    empty := After(c, Step(c, full, 0, Recv), 0, 8);
    SentAndTaken(c, full, empty);
  }

  lemma SentAndTaken(c: Config, full: State, empty: State)
    requires Reachable(c, full) && |Abs(c, full).items| == 1 && !Abs(c, full).closed && full.aux.taken == 0
    requires Reachable(c, empty) && Abs(c, empty).items == [] && |empty.aux.log| >= |full.aux.log|
    ensures EmptyOf(c, full.mem.tail, full.mem.head) && !EmptyOf(c, empty.mem.tail, empty.mem.head)
  {
    ReachableInv(c, full);
    ReachableInv(c, empty);
    IsEmptyWrong(c, full);
    IsEmptyWrong(c, empty);
  }
}
