/**
 The exception of `len` is reachable: a run of three threads, 31 messages sent
 and 30 received, in which both indices come to rest on the first block end while
 the third thread calls `len`.
 */
module ListWitness {
  import opened Common
  import opened ListProtocol
  import opened ListInvariant
  import opened ListFrame
  import opened ListTheorems
  import opened ListReclaim
  import opened ListLen
  import opened ListDelivery
  import opened ListHistory

  lemma NeverFaults(s: State, t: nat, c: Choice)
    requires Reachable(s) && t < |s.threads|
    ensures !MemStep(s.mem, s.threads[t], c).fault
  {
    ReachableInv(s);
    NoFault(s, t, c);
  }

  /** One step of a reachable state leads to a reachable state. */
  lemma Act(s: State, t: nat, c: Choice) returns (s': State)
    requires Reachable(s) && t < |s.threads|
    ensures Reachable(s') && !MemStep(s.mem, s.threads[t], c).fault
    ensures s'.mem == MemStep(s.mem, s.threads[t], c).mem
    ensures s'.threads == s.threads[t := MemStep(s.mem, s.threads[t], c).pc]
  {
    NeverFaults(s, t, c);
    StepReaches(s, t, c);
    s' := Step(s, t, c);
  }

  /** There are at least three threads, and all but the sender (0) and the receiver (1) are idle. */
  ghost predicate Crew(threads: seq<Pc>) {
    |threads| >= 3 && forall u :: 2 <= u < |threads| ==> threads[u].Idle?
  }

  /** All threads are idle; so many messages were sent and taken, all in the first block. */
  ghost predicate Resting(s: State, sent: nat, taken: nat) {
    && Reachable(s) && Crew(s.threads) && Quiet(s.threads)
    && s.mem.tail == 2 * sent && s.mem.head == 2 * taken && taken <= sent <= 30
    && s.mem.tailBlock.At? && s.mem.headBlock.At?
  }

  /** From its saved tail on, a send of the sender thread. */
  ghost predicate Claiming(s: State, m: Msg, sent: nat, taken: nat) {
    && Reachable(s) && Crew(s.threads) && s.threads[1].Idle? && s.mem.tail == 2 * sent && s.mem.head == 2 * taken
    && s.mem.tailBlock.At? && s.mem.headBlock.At? && s.threads[0] == SLoop(m, Null, 2 * sent, s.mem.tailBlock)
  }

  lemma BeginSend(s: State, m: Msg, sent: nat, taken: nat) returns (s': State)
    requires Resting(s, sent, taken)
    ensures Claiming(s', m, sent, taken)
  {
    var s1 := Act(s, 0, Choice.Send(m));
    var s2 := Act(s1, 0, Go);
    s' := Act(s2, 0, Go);
  }

  lemma LoopToClaim(mem: Mem, m: Msg, sent: nat, block: Ptr)
    requires mem.tail == 2 * sent && sent < 30 && block.At?
    ensures SendLoop(mem, m, Null, 2 * sent, block, Go) ==
              Ok(mem.(tail := 2 * sent + 2), SDropSpare(m, Null, block.id, sent))
  {
  }

  lemma EndSend(s: State, m: Msg, sent: nat, taken: nat) returns (s': State)
    requires Claiming(s, m, sent, taken) && taken <= sent < 30
    ensures Resting(s', sent + 1, taken)
  {
    LoopToClaim(s.mem, m, sent, s.mem.tailBlock);
    var s1 := Act(s, 0, Go);
    var s2 := Act(s1, 0, Go);
    assert s2.threads[0].SWriteMsg?;
    var s3 := Act(s2, 0, Go);
    assert s3.threads[0].SSetWrite?;
    s' := Act(s3, 0, Go);
  }

  /** The very first send installs the first block on its way. */
  lemma FirstSend(s: State, m: Msg) returns (s': State)
    requires Initial(s) && Reachable(s) && Crew(s.threads)
    ensures Resting(s', 1, 0)
  {
    var s1 := Act(s, 0, Choice.Send(m));
    var s2 := Act(s1, 0, Go);
    var s3 := Act(s2, 0, Go);
    assert s3.threads[0] == SLoop(m, Null, 0, Null) && s3.mem.tailBlock.Null?;
    var s4 := Act(s3, 0, Go);
    assert s4.threads[0].SStoreHead?;
    var s5 := Act(s4, 0, Go);
    s' := EndSend(s5, m, 0, 0);
  }

  lemma LoopToCas(mem: Mem, sent: nat, taken: nat, block: Ptr)
    requires mem.tail == 2 * sent && taken < sent <= 31
    ensures RecvLoop(mem, 2 * taken, block) == Ok(mem, RCas(2 * taken, 2 * taken + 2, block))
  {
  }

  /** The receiver is idle, and there is a message in the first block. */
  ghost predicate Waiting(s: State, sent: nat, taken: nat) {
    && Reachable(s) && Crew(s.threads) && s.threads[1].Idle?
    && s.mem.tail == 2 * sent && s.mem.head == 2 * taken && taken < sent <= 31 && s.mem.headBlock.At?
  }

  /** The loads with which an idle thread begins a receive. */
  lemma CallRecv(s: State, t: nat) returns (s': State)
    requires Reachable(s) && t < |s.threads| && s.threads[t].Idle?
    ensures Reachable(s') && s'.mem == s.mem && s'.threads == s.threads[t := RLoop(s.mem.head, s.mem.headBlock)]
  {
    var s1 := Act(s, t, Recv);
    var s2 := Act(s1, t, Go);
    s' := Act(s2, t, Go);
    assert s'.threads == s.threads[t := RLoop(s.mem.head, s.mem.headBlock)];
  }

  lemma BeginRecv(s: State, sent: nat, taken: nat) returns (s': State)
    requires Waiting(s, sent, taken)
    ensures Reachable(s') && s'.mem == s.mem && Crew(s'.threads)
    ensures s'.threads[0] == s.threads[0] && s'.threads[1] == RCas(2 * taken, 2 * taken + 2, s.mem.headBlock)
  {
    var s1 := CallRecv(s, 1);
    LoopToCas(s1.mem, sent, taken, s.mem.headBlock);
    s' := Act(s1, 1, Go);
  }

  lemma CasToWait(mem: Mem, j: nat, b: nat)
    requires mem.head == 2 * j && j < 31
    ensures RecvCas(mem, 2 * j, 2 * j + 2, At(b), Go).mem == mem.(head := 2 * j + 2)
    ensures RecvCas(mem, 2 * j, 2 * j + 2, At(b), Go).pc == if j == 30 then RWaitNext(b, 62) else RWaitWrite(b, j)
  {
  }

  /** With the sender idle a claimed message has been written; in the first block nothing is destroyed yet. */
  lemma WrittenSlot(s: State, b: nat, j: nat)
    requires Reachable(s) && Crew(s.threads) && s.threads[0].Idle? && s.threads[1] == RWaitWrite(b, j) && j < 30
    requires s.mem.head == 2 * j + 2
    ensures b < |s.mem.heap| && s.mem.heap[b].slots[j].write && !s.mem.heap[b].slots[j].destroy
  {
    ReachableInv(s);
    SlotReady(s.mem, s.aux, s.threads, b, j);
  }

  lemma SlotWritten(mem: Mem, aux: Aux, threads: seq<Pc>, b: nat, j: nat)
    requires Blocks(mem, aux) && Held(aux, threads) && InChain(aux, b, j) && 32 * aux.info[b].owner.k + j < Index(mem.tail)
    requires forall u :: 0 <= u < |threads| ==> threads[u].Idle? || threads[u].RWaitWrite?
    ensures mem.heap[b].slots[j].write
  {
    CellFact(mem, aux, b, j);
    assert HeldCell(threads, b, j, aux.info[b].cells[j]);
  }

  lemma SlotKept(mem: Mem, aux: Aux, b: nat, j: nat)
    requires Blocks(mem, aux) && InChain(aux, b, j) && Index(mem.head) <= 32 * aux.info[b].owner.k + 30
    ensures !mem.heap[b].slots[j].destroy
  {
    CellFact(mem, aux, b, j);
    CellFact(mem, aux, b, 30);
  }

  /** The block of a slot in the first lap. */
  lemma FirstLap(mem: Mem, aux: Aux, b: nat, j: nat, t: nat)
    requires Blocks(mem, aux) && Reads(aux, b, j, By(t)) && Index(mem.head) <= 31
    ensures aux.info[b].owner.k == 0 && j < Index(mem.head)
  {
    CellFact(mem, aux, b, j);
  }

  lemma SlotReady(mem: Mem, aux: Aux, threads: seq<Pc>, b: nat, j: nat)
    requires Index(mem.head) <= Index(mem.tail) && Blocks(mem, aux) && Held(aux, threads)
    requires Crew(threads) && threads[0].Idle? && threads[1] == RWaitWrite(b, j) && j < 30
    requires Reads(aux, b, j, By(1)) && mem.head == 2 * j + 2
    ensures b < |mem.heap| && mem.heap[b].slots[j].write && !mem.heap[b].slots[j].destroy
  {
    FirstLap(mem, aux, b, j, 1);
    SlotWritten(mem, aux, threads, b, j);
    SlotKept(mem, aux, b, j);
  }

  lemma ReadOne(s: State, b: nat, j: nat) returns (s': State)
    requires Reachable(s) && Crew(s.threads) && s.threads[0].Idle? && s.threads[1] == RWaitWrite(b, j) && j < 30
    requires s.mem.head == 2 * j + 2
    ensures Reachable(s') && Crew(s'.threads) && Quiet(s'.threads)
    ensures s'.mem.head == s.mem.head && s'.mem.tail == s.mem.tail
    ensures s'.mem.headBlock == s.mem.headBlock && s'.mem.tailBlock == s.mem.tailBlock
  {
    WrittenSlot(s, b, j);
    var s1 := Act(s, 1, Go);
    assert s1.threads[1] == RReadMsg(b, j);
    var s2 := Act(s1, 1, Go);
    s' := MarkOne(s2, b, j, s2.threads[1].m);
  }

  lemma MarkOne(s: State, b: nat, j: nat, m: Msg) returns (s': State)
    requires Reachable(s) && Crew(s.threads) && s.threads[0].Idle? && s.threads[1] == RMark(b, j, m) && j < 30
    requires b < |s.mem.heap| && !s.mem.heap[b].slots[j].destroy
    ensures Reachable(s') && Crew(s'.threads) && Quiet(s'.threads)
    ensures s'.mem.head == s.mem.head && s'.mem.tail == s.mem.tail
    ensures s'.mem.headBlock == s.mem.headBlock && s'.mem.tailBlock == s.mem.tailBlock
  {
    s' := Act(s, 1, Go);
  }

  /** One message is received. */
  lemma RecvOne(s: State, sent: nat, taken: nat) returns (s': State)
    requires Resting(s, sent, taken) && taken < sent
    ensures Resting(s', sent, taken + 1)
  {
    var s1 := BeginRecv(s, sent, taken);
    CasToWait(s1.mem, taken, s.mem.headBlock.id);
    var s2 := Act(s1, 1, Go);
    s' := ReadOne(s2, s.mem.headBlock.id, taken);
  }

  /** One message is sent. */
  lemma SendOne(s: State, m: Msg, sent: nat, taken: nat) returns (s': State)
    requires Resting(s, sent, taken) && sent < 30
    ensures Resting(s', sent + 1, taken)
  {
    var s1 := BeginSend(s, m, sent, taken);
    s' := EndSend(s1, m, sent, taken);
  }

  /** `n` messages are sent and received. */
  lemma {:induction false} Pass(s: State, m: Msg, n: nat) returns (s': State)
    requires Initial(s) && Reachable(s) && Crew(s.threads) && 1 <= n <= 30
    ensures Resting(s', n, n)
    decreases n
  {
    if n == 1 {
      s' := FirstSend(s, m);
      s' := RecvOne(s', 1, 0);
    } else {
      s' := Pass(s, m, n - 1);
      s' := SendOne(s', m, n - 1, n - 1);
      s' := RecvOne(s', n, n - 1);
    }
  }

  /** The 31st message claims the last slot; the next block is not in place yet. */
  lemma LastSend(s: State, m: Msg) returns (s': State)
    requires Resting(s, 30, 30)
    ensures Waiting(s', 31, 30) && s'.threads[0].SStoreTailBlock?
  {
    var s1 := BeginSend(s, m, 30, 30);
    var s2 := Act(s1, 0, Go);
    assert s2.threads[0].SLoop? && s2.threads[0].nb.At? && s2.mem.tail == 60;
    s' := Act(s2, 0, Go);
  }

  /** Both ends of the first block have been claimed, and a third thread is idle. */
  ghost predicate AtBlockEnd(s: State) {
    && Reachable(s) && Crew(s.threads) && s.threads[0].SStoreTailBlock? && s.threads[1].RWaitNext?
    && s.mem.head == 62 && s.mem.tail == 62
  }

  lemma BlockEndReached(s: State, m: Msg) returns (s': State)
    requires Initial(s) && Crew(s.threads)
    ensures AtBlockEnd(s')
  {
    StartReachable(s);
    s' := Pass(s, m, 30);
    s' := LastSend(s', m);
    var block := s'.mem.headBlock;
    s' := BeginRecv(s', 31, 30);
    CasToWait(s'.mem, 30, block.id);
    s' := Act(s', 1, Go);
  }

  /** The two loads of an idle thread that calls `len`. */
  lemma CallLen(s: State, t: nat) returns (s': State)
    requires Reachable(s) && t < |s.threads| && s.threads[t].Idle?
    ensures Reachable(s') && s'.mem == s.mem && s'.threads == s.threads[t := LCheck(s.mem.tail, s.mem.head)]
  {
    var s1 := Act(s, t, Choice.Len);
    var s2 := Act(s1, t, Go);
    s' := Act(s2, t, Go);
    assert s'.threads == s.threads[t := LCheck(s.mem.tail, s.mem.head)];
  }

  lemma BothClaimed(mem: Mem, aux: Aux, threads: seq<Pc>, b: nat, w: nat)
    requires Shape(mem, aux) && ChainOk(aux) && Blocks(mem, aux) && Held(aux, threads)
    requires |threads| > 1 && threads[0].SStoreTailBlock? && threads[1] == RWaitNext(b, w)
    requires forall u :: 2 <= u < |threads| ==> threads[u].Idle? || threads[u].LCheck?
    requires RecvOk(mem, aux, 1, threads[1]) && mem.head == 62 && mem.tail == 62
    ensures |aux.log| == 31 && forall n: nat :: n in aux.got <==> n < 30
  {
    forall n: nat ensures n in aux.got <==> n < 30 {
      if n < 31 {
        OneClaimed(mem, aux, threads, b, w, n);
      }
    }
  }

  /** Of the first block every message has been received but the last, which is only claimed. */
  lemma OneClaimed(mem: Mem, aux: Aux, threads: seq<Pc>, b: nat, w: nat, n: nat)
    requires Blocks(mem, aux) && Held(aux, threads) && InChain(aux, b, n) && aux.info[b].owner.k == 0
    requires |threads| > 1 && threads[0].SStoreTailBlock? && threads[1] == RWaitNext(b, w)
    requires forall u :: 2 <= u < |threads| ==> threads[u].Idle? || threads[u].LCheck?
    requires Index(mem.head) == 31 && Reads(aux, b, 30, By(1))
    ensures n in aux.got <==> n < 30
  {
    CellFact(mem, aux, b, n);
    assert HeldCell(threads, b, n, aux.info[b].cells[n]);
  }

  lemma ThirtyReceived(s: State)
    requires Reachable(s) && |s.threads| >= 3 && s.threads[0].SStoreTailBlock? && s.threads[1].RWaitNext?
    requires forall u :: 2 <= u < |s.threads| ==> s.threads[u].Idle? || s.threads[u].LCheck?
    requires s.mem.head == 62 && s.mem.tail == 62
    ensures |s.aux.log| == 31 && forall n: nat :: n in s.aux.got <==> n < 30
  {
    ReachableInv(s);
    ThreadFacts(s, 1);
    BothClaimed(s.mem, s.aux, s.threads, s.threads[1].b, s.threads[1].newHead);
  }

  /**
   In this state 31 messages have been accepted and 30 received; the sender is
   about to install the second block, the receiver waits for it, and a call of
   `len` has loaded both words: its next step finds the tail unchanged and
   answers, and the subtraction goes below zero.
   */
  lemma LenUnderflowReached(s: State, m: Msg) returns (s': State)
    requires Initial(s) && |s.threads| >= 3
    ensures Reachable(s') && |s'.threads| >= 3 && s'.threads[0].SStoreTailBlock? && s'.threads[1].RWaitNext?
    ensures |s'.aux.log| == 31 && forall n: nat :: n in s'.aux.got <==> n < 30
    ensures s'.threads[2] == LCheck(62, 62) && MemStep(s'.mem, s'.threads[2], Go).pc == Idle
    ensures LenOf(62, 62) == Underflow
  {
    s' := BlockEndReached(s, m);
    s' := CallLen(s', 2);
    ThirtyReceived(s');
  }
}
