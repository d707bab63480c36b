/**
 A thread of the unbounded channel that runs alone, no other call under way and
 no CAS failing spuriously, ends its call: from any reachable state, whatever it
 has loaded before, in a bounded number of steps. From rest the call has the
 effect that the contents of the queue call for.
 */
module ListSolo {
  import opened Common
  import opened Fifo
  import opened ListProtocol
  import opened ListInvariant
  import opened ListFrame
  import opened ListTheorems
  import opened ListReclaim
  import opened ListDelivery
  import SendSteps = ListSendSteps
  import RecvSteps = ListRecvSteps
  import ReadSteps = ListReadSteps

  ghost predicate Alone(threads: seq<Pc>, t: nat) {
    t < |threads| && forall u :: 0 <= u < |threads| && u != t ==> threads[u].Idle?
  }

  /** `n` steps of thread `t`. */
  ghost function After(s: State, t: nat, n: nat): (s': State)
    requires t < |s.threads|
    ensures |s'.threads| == |s.threads|
    decreases n
  {
    if n == 0 then s else After(Step(s, t, Go), t, n - 1)
  }

  // ---- how far a thread still has to go ----

  /** From the loop of `start_send` on, by whether the saved words are current. */
  function LoopRank(mem: Mem, nb: Ptr, tail: nat, block: Ptr): nat {
    if Marked(tail) then 1
    else if Offset(tail) == 31 then 12
    else (if block.Null? then 13 else if mem.tail == tail then 6 else 11)
         + (if Offset(tail) == 30 && nb.Null? then 1 else 0)
  }

  function SendRank(mem: Mem, pc: Pc): nat {
    match pc
    case SLoadTail(_, _) => if mem.tailBlock.Null? then 17 else 9
    case SLoadBlock(_, _, tail) => if mem.tail != tail then 16 else if mem.tailBlock.Null? then 15 else 8
    case SLoop(_, nb, tail, block) => LoopRank(mem, nb, tail, block)
    case SStoreHead(_, _, _, _) => 14
    case SDropSpare(_, _, _, _) => 3
    case SStoreTailBlock(_, _, _) => 5
    case SBumpTail(_, _, _) => 4
    case SStoreNext(_, _, _) => 3
    case SWriteMsg(_, _, _) => 2
    case SSetWrite(_, _) => 1
    case _ => 0
  }

  function RecvRank(mem: Mem, pc: Pc): nat {
    match pc
    case RLoadHead => 74
    case RLoadBlock(head) => if mem.head == head then 73 else 77
    case RLoop(head, block) => if mem.head == head && block == mem.headBlock then 72 else 76
    case RCas(head, _, block) => if mem.head == head && block.At? then 71 else 75
    case RWaitNext(_, _) => 70
    case RPeek(_, _, _) => 69
    case RStoreBlock(_, _, _) => 68
    case RStoreIndex(_, _) => 67
    case _ => 0
  }

  function ReadRank(pc: Pc): nat {
    match pc
    case RWaitWrite(_, _) => 66
    case RReadMsg(_, _) => 65
    case RMark(_, _, _) => 64
    case DCheck(_, i, _) => if i >= 30 then 2 else 62 - 2 * i
    case DOr(_, i, _) => if i >= 30 then 3 else 61 - 2 * i
    case _ => 0
  }

  function LenRank(mem: Mem, pc: Pc): nat {
    match pc
    case LLoadTail => 3
    case LLoadHead(tail) => if mem.tail == tail then 2 else 5
    case LCheck(tail, _) => if mem.tail == tail then 1 else 4
    case _ => 0
  }

  /** Before there is a first block, a send has that to install as well. */
  function Rank(mem: Mem, pc: Pc): (n: nat)
    ensures n <= 77 && (n == 0 <==> pc.Idle?)
  {
    if SendSteps.Sending(pc) then SendRank(mem, pc) + (if mem.tailBlock.Null? then 20 else 0)
    else if RecvSteps.Receiving(pc) then RecvRank(mem, pc)
    else if ReadSteps.Reading(pc) then ReadRank(pc)
    else LenRank(mem, pc)
  }

  // ---- alone, nothing is waited for ----

  lemma NoSectionOfOthers(aux: Aux, threads: seq<Pc>, t: nat)
    requires HeldSections(aux, threads) && Alone(threads, t)
    ensures !aux.install.Vacant? ==> threads[t].SStoreTailBlock? || threads[t].SBumpTail?
    ensures !aux.advance.Vacant? ==> BeforeAdvance(threads[t]) || threads[t].RStoreIndex?
    ensures aux.boot.Some? ==> threads[t].SStoreHead?
  {
  }

  /** The message claimed has been written. */
  lemma NoWriterLeft(mem: Mem, aux: Aux, threads: seq<Pc>, t: nat, b: nat, j: nat)
    requires Shape(mem, aux) && Blocks(mem, aux) && Held(aux, threads) && Alone(threads, t) && threads[t] == RWaitWrite(b, j)
    requires RecvOk(mem, aux, t, threads[t])
    ensures b < |mem.heap| && mem.heap[b].slots[j].write
  {
    CellFact(mem, aux, b, j);
    assert HeldCell(threads, b, j, aux.info[b].cells[j]);
  }

  /** The next block has been linked. */
  lemma NoLinkLeft(mem: Mem, aux: Aux, threads: seq<Pc>, t: nat, b: nat, newHead: nat)
    requires Shape(mem, aux) && Blocks(mem, aux) && Held(aux, threads) && Alone(threads, t) && threads[t] == RWaitNext(b, newHead)
    requires RecvOk(mem, aux, t, threads[t])
    ensures b < |mem.heap| && mem.heap[b].next.At?
  {
    CellFact(mem, aux, b, 30);
    assert HeldBlock(threads, b, aux.info[b]);
  }

  // ---- every step gets closer ----

  lemma LoadDescends(mem: Mem, aux: Aux, t: nat, pc: Pc)
    requires Shape(mem, aux) && SendOk(mem, aux, t, pc) && aux.install.Vacant? && (pc.SLoadTail? || pc.SLoadBlock?)
    ensures Rank(mem, MemStep(mem, pc, Go).pc) < Rank(mem, pc)
  {
  }

  lemma LoopDescends(mem: Mem, aux: Aux, t: nat, pc: Pc)
    requires Shape(mem, aux) && SendOk(mem, aux, t, pc) && aux.install.Vacant? && pc.SLoop?
    ensures var out := MemStep(mem, pc, Go); Rank(out.mem, out.pc) < Rank(mem, pc)
  {
  }

  lemma SentDescends(mem: Mem, aux: Aux, t: nat, pc: Pc)
    requires Shape(mem, aux) && SendOk(mem, aux, t, pc) && SendSteps.Sending(pc) && !pc.SLoadTail? && !pc.SLoadBlock? && !pc.SLoop?
    ensures var out := MemStep(mem, pc, Go); Rank(out.mem, out.pc) < Rank(mem, pc)
  {
  }

  lemma HeadDescends(mem: Mem, aux: Aux, t: nat, pc: Pc)
    requires Shape(mem, aux) && RecvOk(mem, aux, t, pc) && aux.advance.Vacant? && aux.boot.None?
    requires pc.RLoadHead? || pc.RLoadBlock? || pc.RLoop? || pc.RCas?
    ensures var out := MemStep(mem, pc, Go); Rank(out.mem, out.pc) < Rank(mem, pc)
  {
  }

  lemma AdvanceDescends(mem: Mem, pc: Pc)
    requires pc.RWaitNext? || pc.RPeek? || pc.RStoreBlock? || pc.RStoreIndex?
    requires pc.RWaitNext? ==> pc.b < |mem.heap| && mem.heap[pc.b].next.At?
    ensures var out := MemStep(mem, pc, Go); Rank(out.mem, out.pc) < Rank(mem, pc)
  {
  }

  lemma ReadDescends(mem: Mem, pc: Pc)
    requires ReadSteps.Reading(pc) && (pc.RWaitWrite? && pc.j < 31 ==> pc.b < |mem.heap| && mem.heap[pc.b].slots[pc.j].write)
    requires (pc.RMark? ==> pc.j < 30) && (pc.DOr? ==> pc.i < 30)
    ensures var out := MemStep(mem, pc, Go); Rank(out.mem, out.pc) < Rank(mem, pc)
  {
  }

  lemma LenDescends(mem: Mem, pc: Pc)
    requires ReadSteps.Other(pc) && !pc.Idle?
    ensures var out := MemStep(mem, pc, Go); Rank(out.mem, out.pc) < Rank(mem, pc)
  {
  }

  lemma Descends(s: State, t: nat)
    requires Inv(s) && Alone(s.threads, t) && !s.threads[t].Idle?
    ensures var s' := Step(s, t, Go); Rank(s'.mem, s'.threads[t]) < Rank(s.mem, s.threads[t])
  {
    var mem, aux, pc := s.mem, s.aux, s.threads[t];
    ThreadFacts(s, t);
    NoSectionOfOthers(aux, s.threads, t);
    if pc.SLoadTail? || pc.SLoadBlock? {
      LoadDescends(mem, aux, t, pc);
    } else if pc.SLoop? {
      LoopDescends(mem, aux, t, pc);
    } else if SendSteps.Sending(pc) {
      SentDescends(mem, aux, t, pc);
    } else if pc.RLoadHead? || pc.RLoadBlock? || pc.RLoop? || pc.RCas? {
      HeadDescends(mem, aux, t, pc);
    } else if RecvSteps.Receiving(pc) {
      if pc.RWaitNext? {
        NoLinkLeft(mem, aux, s.threads, t, pc.b, pc.newHead);
      }
      AdvanceDescends(mem, pc);
    } else if ReadSteps.Reading(pc) {
      if pc.RWaitWrite? {
        NoWriterLeft(mem, aux, s.threads, t, pc.b, pc.j);
      }
      ReadDescends(mem, pc);
    } else {
      LenDescends(mem, pc);
    }
  }

  // ---- the call ends ----

  lemma StaysAlone(s: State, t: nat)
    requires Alone(s.threads, t)
    ensures Alone(Step(s, t, Go).threads, t)
    ensures s.threads[t].Idle? ==> Step(s, t, Go).threads[t].Idle?
  {
  }

  /** At most `n` steps are left. */
  ghost predicate Within(s: State, t: nat, n: nat)
    requires t < |s.threads|
  {
    forall k {:trigger Unfold(k)} :: Unfold(k) ==> Rank(s.mem, s.threads[t]) <= n
  }

  lemma NoneLeft(s: State, t: nat)
    requires Alone(s.threads, t) && Within(s, t, 0)
    ensures Quiet(s.threads)
  {
    assert Unfold(0);
  }

  lemma {:induction false} EndsWithin(s: State, t: nat, n: nat)
    requires Reachable(s) && Alone(s.threads, t) && Within(s, t, n)
    ensures Reachable(After(s, t, n)) && Quiet(After(s, t, n).threads)
    decreases n
  {
    if n == 0 {
      NoneLeft(s, t);
    } else {
      var s' := Closer(s, t, n);
      EndsWithin(s', t, n - 1);
    }
  }

  lemma Closer(s: State, t: nat, n: nat) returns (s': State)
    requires Reachable(s) && Alone(s.threads, t) && Within(s, t, n) && n > 0
    ensures Reachable(s') && Alone(s'.threads, t) && Within(s', t, n - 1)
    ensures After(s, t, n) == After(s', t, n - 1)
  {
    ReachableInv(s);
    StaysAlone(s, t);
    StepReaches(s, t, Go);
    s' := Step(s, t, Go);
    assert Unfold(0);
    if !s.threads[t].Idle? {
      Descends(s, t);
    }
  }

  /**
   In any reachable state in which no other call is under way, a thread in the
   middle of any call ends it within 77 steps of its own: no lock is waited for,
   no loop goes on for ever, and no bit that the thread spins on is missing.
   */
  lemma RunsToEnd(s: State, t: nat)
    requires Reachable(s) && Alone(s.threads, t)
    ensures Reachable(After(s, t, 77)) && Quiet(After(s, t, 77).threads)
  {
    EndsWithin(s, t, 77);
  }

  // ---- with the right effect ----

  predicate Unsent(pc: Pc, m: Msg) {
    match pc
    case SLoadTail(m', _) => m' == m
    case SLoadBlock(m', _, _) => m' == m
    case SLoop(m', _, _, _) => m' == m
    case SStoreHead(m', _, _, _) => m' == m
    case _ => false
  }

  predicate Sent(pc: Pc) {
    || pc.SDropSpare? || pc.SStoreTailBlock? || pc.SBumpTail? || pc.SStoreNext? || pc.SWriteMsg? || pc.SSetWrite? || pc.Idle?
  }

  /** The queue that a send of `m` leaves. */
  function WithSent(q: Queue, m: Msg): Queue { if q.closed then q else Queue(q.items + [m], false) }

  ghost predicate Sending(s: State, t: nat, m: Msg, q: Queue) {
    && t < |s.threads|
    && ((Unsent(s.threads[t], m) && Abs(s) == q) || (Sent(s.threads[t]) && Abs(s) == WithSent(q, m)))
  }

  /** Where a step of a send leads, by what it shows. */
  ghost predicate SendMoves(pc: Pc, pc': Pc, m: Msg, e: Event) {
    if Unsent(pc, m) then
      (Unsent(pc', m) && e == Tau) || (Sent(pc') && e == Enq(m)) || (pc'.Idle? && e == Reject)
    else
      Sent(pc') && e == Tau
  }

  lemma UnsentMoves(mem: Mem, log: seq<Msg>, pc: Pc, m: Msg)
    requires Unsent(pc, m) && !MemStep(mem, pc, Go).fault
    ensures SendMoves(pc, MemStep(mem, pc, Go).pc, m, EventIn(mem, log, pc, Go))
  {
  }

  lemma SentMoves(mem: Mem, log: seq<Msg>, pc: Pc, m: Msg)
    requires Sent(pc)
    ensures SendMoves(pc, MemStep(mem, pc, Go).pc, m, EventIn(mem, log, pc, Go))
  {
  }

  lemma SendingMoves(s: State, t: nat, m: Msg)
    requires Inv(s) && t < |s.threads| && (Unsent(s.threads[t], m) || Sent(s.threads[t]))
    ensures SendMoves(s.threads[t], MemStep(s.mem, s.threads[t], Go).pc, m, EventIn(s.mem, s.aux.log, s.threads[t], Go))
  {
    NoFault(s, t, Go);
    if Unsent(s.threads[t], m) {
      UnsentMoves(s.mem, s.aux.log, s.threads[t], m);
    } else {
      SentMoves(s.mem, s.aux.log, s.threads[t], m);
    }
  }

  /** What a step shows, and what it does to the queue, is enough. */
  lemma SendingStep(s: State, t: nat, m: Msg, q: Queue, e: Event, s': State)
    requires Sending(s, t, m, q) && QueueStep(None, Abs(s), e, Abs(s'))
    requires |s'.threads| == |s.threads| && SendMoves(s.threads[t], s'.threads[t], m, e)
    ensures Sending(s', t, m, q)
  {
  }

  lemma SendingOn(s: State, t: nat, m: Msg, q: Queue)
    requires Reachable(s) && Sending(s, t, m, q)
    ensures Reachable(Step(s, t, Go)) && Sending(Step(s, t, Go), t, m, q)
  {
    ReachableInv(s);
    StepReaches(s, t, Go);
    StepRefines(s, (t, Go));
    SendingMoves(s, t, m);
    SendingStep(s, t, m, q, EventOf(s, (t, Go)), Step(s, t, Go));
  }

  lemma {:induction false} SendingRun(s: State, t: nat, m: Msg, q: Queue, n: nat)
    requires Reachable(s) && Sending(s, t, m, q)
    ensures Sending(After(s, t, n), t, m, q)
    decreases n
  {
    if n > 0 {
      SendingOn(s, t, m, q);
      SendingRun(Step(s, t, Go), t, m, q, n - 1);
    }
  }

  /** From rest, a send made alone ends, and the queue has the message at its end, unless it was closed. */
  lemma SoloSend(s: State, t: nat, m: Msg)
    requires Reachable(s) && Quiet(s.threads) && t < |s.threads|
    ensures var s' := After(Step(s, t, Choice.Send(m)), t, 77);
      Reachable(s') && Quiet(s'.threads) && Abs(s') == WithSent(Abs(s), m)
  {
    StepReaches(s, t, Choice.Send(m));
    var s1 := Step(s, t, Choice.Send(m));
    RunsToEnd(s1, t);
    SendingRun(s1, t, m, Abs(s), 77);
  }

  predicate Untaken(pc: Pc) { pc.RLoadHead? || pc.RLoadBlock? || pc.RLoop? || pc.RCas? }

  predicate Taken(pc: Pc) {
    || pc.RWaitNext? || pc.RPeek? || pc.RStoreBlock? || pc.RStoreIndex? || ReadSteps.Reading(pc) || pc.Idle?
  }

  /** The queue that a receive leaves. */
  function WithTaken(q: Queue): Queue { if q.items == [] then q else Queue(q.items[1..], q.closed) }

  ghost predicate Receiving(s: State, t: nat, q: Queue) {
    && t < |s.threads|
    && ((Untaken(s.threads[t]) && Abs(s) == q) || (Taken(s.threads[t]) && Abs(s) == WithTaken(q)))
  }

  lemma UntakenMoves(mem: Mem, aux: Aux, t: nat, pc: Pc)
    requires Shape(mem, aux) && RecvOk(mem, aux, t, pc) && Untaken(pc)
    ensures Moves(pc, MemStep(mem, pc, Go).pc, EventIn(mem, aux.log, pc, Go))
  {
  }

  lemma TakenMoves(mem: Mem, log: seq<Msg>, pc: Pc)
    requires Taken(pc)
    ensures Moves(pc, MemStep(mem, pc, Go).pc, EventIn(mem, log, pc, Go))
  {
  }

  /** What a step shows, and what it does to the queue, is enough. */
  lemma ReceivingStep(s: State, t: nat, q: Queue, e: Event, s': State)
    requires Receiving(s, t, q) && QueueStep(None, Abs(s), e, Abs(s'))
    requires |s'.threads| == |s.threads| && Moves(s.threads[t], s'.threads[t], e)
    ensures Receiving(s', t, q)
  {
    TakesOne(Abs(s), e, Abs(s'));
  }

  /** Where a step of a receive leads, by what it shows. */
  ghost predicate Moves(pc: Pc, pc': Pc, e: Event) {
    if Untaken(pc) then
      (Untaken(pc') && e == Tau) || (Taken(pc') && e.Deq?) || (pc'.Idle? && (e.SawEmpty? || e.SawClosed?))
    else
      Taken(pc') && e == Tau
  }

  lemma ReceivingMoves(s: State, t: nat)
    requires Inv(s) && t < |s.threads| && (Untaken(s.threads[t]) || Taken(s.threads[t]))
    ensures Moves(s.threads[t], MemStep(s.mem, s.threads[t], Go).pc, EventIn(s.mem, s.aux.log, s.threads[t], Go))
  {
    ThreadFacts(s, t);
    if Untaken(s.threads[t]) {
      UntakenMoves(s.mem, s.aux, t, s.threads[t]);
    } else {
      TakenMoves(s.mem, s.aux.log, s.threads[t]);
    }
  }

  lemma TakesOne(q: Queue, e: Event, q': Queue)
    requires QueueStep(None, q, e, q')
    ensures e == Tau ==> q' == q
    ensures e.Deq? || e.SawEmpty? || e.SawClosed? ==> q' == WithTaken(q)
  {
  }

  lemma ReceivingOn(s: State, t: nat, q: Queue)
    requires Reachable(s) && Receiving(s, t, q)
    ensures Reachable(Step(s, t, Go)) && Receiving(Step(s, t, Go), t, q)
  {
    ReachableInv(s);
    StepReaches(s, t, Go);
    StepRefines(s, (t, Go));
    ReceivingMoves(s, t);
    ReceivingStep(s, t, q, EventOf(s, (t, Go)), Step(s, t, Go));
  }

  lemma {:induction false} ReceivingRun(s: State, t: nat, q: Queue, n: nat)
    requires Reachable(s) && Receiving(s, t, q)
    ensures Receiving(After(s, t, n), t, q)
    decreases n
  {
    if n > 0 {
      ReceivingOn(s, t, q);
      ReceivingRun(Step(s, t, Go), t, q, n - 1);
    }
  }

  /** From rest, a receive made alone ends, and the queue is without its first message, if it had one. */
  lemma SoloRecv(s: State, t: nat)
    requires Reachable(s) && Quiet(s.threads) && t < |s.threads|
    ensures var s' := After(Step(s, t, Recv), t, 77);
      Reachable(s') && Quiet(s'.threads) && Abs(s') == WithTaken(Abs(s))
  {
    StepReaches(s, t, Choice.Recv);
    var s1 := Step(s, t, Choice.Recv);
    RunsToEnd(s1, t);
    ReceivingRun(s1, t, Abs(s), 77);
  }
}
