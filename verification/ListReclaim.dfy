/** When and by whom the blocks of the unbounded channel are freed. */
module ListReclaim {
  import opened Common
  import opened ListProtocol
  import opened ListInvariant
  import opened ListFrame
  import opened ListTheorems

  lemma FreedSlot(mem: Mem, aux: Aux, b: nat, j: nat)
    requires Blocks(mem, aux) && InChain(aux, b, j) && mem.heap[b].freed
    ensures var n := 31 * aux.info[b].owner.k + j;
      n < |aux.log| && n in aux.got && aux.got[n] == aux.log[n]
  {
    CellFact(mem, aux, b, j);
  }

  /** The block is freed only after all 31 of its messages have been moved out, each being the one accepted. */
  lemma FreedOnlyWhenRead(s: State, b: nat, j: nat)
    requires Reachable(s) && b < |s.mem.heap| && b < |s.aux.info| && j < 31
    requires s.mem.heap[b].freed && s.aux.info[b].owner.Chained?
    ensures var n := 31 * s.aux.info[b].owner.k + j;
      n < |s.aux.log| && n in s.aux.got && s.aux.got[n] == s.aux.log[n]
  {
    ReachableInv(s);
    FreedSlot(s.mem, s.aux, b, j);
  }

  /** Thread at `pc` will still access block `b`: its slots, its `next`, or the block itself to free it. */
  predicate Uses(pc: Pc, b: nat) {
    match pc
    case SDropSpare(_, nb, x, _) => x == b || nb == At(b)
    case SStoreTailBlock(_, spare, x) => x == b || spare == b
    case SBumpTail(_, _, x) => x == b
    case SStoreNext(_, _, x) => x == b
    case SWriteMsg(_, x, _) => x == b
    case SSetWrite(x, _) => x == b
    case RWaitNext(x, _) => x == b
    case RPeek(x, _, next) => x == b || next == b
    case RStoreBlock(x, _, _) => x == b
    case RStoreIndex(x, _) => x == b
    case RWaitWrite(x, _) => x == b
    case RReadMsg(x, _) => x == b
    case RMark(x, _, _) => x == b
    case DCheck(x, _, _) => x == b
    case DOr(x, _, _) => x == b
    case _ => Spare(pc) == At(b)
  }

  lemma SpareIsLive(mem: Mem, aux: Aux, t: nat, nb: Ptr)
    requires Blocks(mem, aux) && SpareOk(aux, t, nb) && nb.At?
    ensures Live(mem, nb.id)
  {
    assert BlockOk(mem, aux, mem.heap[nb.id], aux.info[nb.id]);
  }

  lemma SenderUsesLive(mem: Mem, aux: Aux, t: nat, pc: Pc, b: nat)
    requires Blocks(mem, aux) && SendOk(mem, aux, t, pc) && Send.Sending(pc) && Uses(pc, b)
    ensures Live(mem, b)
  {
    if Spare(pc) == At(b) {
      SpareIsLive(mem, aux, t, Spare(pc));
    } else {
      var j := if pc.SDropSpare? || pc.SWriteMsg? || pc.SSetWrite? then pc.j else 30;
      CellFact(mem, aux, b, j);
    }
  }

  lemma NextIsLive(mem: Mem, aux: Aux, t: nat, b: nat, newHead: nat, next: nat)
    requires Shape(mem, aux) && ChainOk(aux) && Blocks(mem, aux) && RecvOk(mem, aux, t, RPeek(b, newHead, next))
    ensures Live(mem, next)
  {
    Recv.PeekFacts(mem, aux, t, b, newHead, next);
  }

  lemma ReaderUsesLive(mem: Mem, aux: Aux, t: nat, pc: Pc, b: nat)
    requires Blocks(mem, aux) && RecvOk(mem, aux, t, pc)
    requires pc.RWaitNext? || pc.RPeek? || pc.RStoreBlock? || pc.RStoreIndex?
          || pc.RWaitWrite? || pc.RReadMsg? || pc.RMark? || pc.DCheck? || pc.DOr?
    requires pc.b == b
    ensures Live(mem, b)
  {
    if pc.RWaitWrite? || pc.RReadMsg? || pc.RMark? {
      CellFact(mem, aux, b, pc.j);
    } else {
      CellFact(mem, aux, b, 30);
    }
  }

  /** No thread that will still access a block finds it freed. */
  lemma NoAccessAfterFree(s: State, t: nat, b: nat)
    requires Reachable(s) && t < |s.threads| && Uses(s.threads[t], b)
    ensures Live(s.mem, b)
  {
    ReachableInv(s);
    var pc := s.threads[t];
    assert ThreadOk(s.mem, s.aux, t, pc);
    if Send.Sending(pc) {
      SenderUsesLive(s.mem, s.aux, t, pc, b);
    } else if pc.RPeek? && pc.next == b {
      NextIsLive(s.mem, s.aux, t, pc.b, pc.newHead, b);
    } else {
      ReaderUsesLive(s.mem, s.aux, t, pc, b);
    }
  }

  // ---- the destruction token ----

  /** What the token of a block in the chain stands for, in the memory and among the threads. */
  lemma TokenMeaning(s: State, b: nat)
    requires Reachable(s) && b < |s.mem.heap| && b < |s.aux.info| && s.aux.info[b].owner.Chained?
    ensures match s.aux.info[b].token
      case Unborn => !s.mem.heap[b].freed && forall j :: 0 <= j < 31 ==> !s.mem.heap[b].slots[j].destroy
      case Active(t, c) => !s.mem.heap[b].freed && t < |s.threads| && DestroyDuty(s.threads[t], t, b) == Active(t, c)
      case Parked(c) => !s.mem.heap[b].freed && ParkedOn(s, b, c)
      case Spent => s.mem.heap[b].freed
  {
    ReachableInv(s);
    CellFact(s.mem, s.aux, b, 30);
    match s.aux.info[b].token
    case Unborn => UnbornMeaning(s.mem, s.aux, b);
    case Active(_, _) => assert HeldBlock(s.threads, b, s.aux.info[b]);
    case Parked(c) => ParkedMeaning(s, b, c);
    case Spent =>
  }

  /** Slot `c` has DESTROY set and READ clear, and a receiver is on it that will see DESTROY. */
  ghost predicate ParkedOn(s: State, b: nat, c: nat) {
    && b < |s.mem.heap| && c < 30
    && s.mem.heap[b].slots[c].destroy && !s.mem.heap[b].slots[c].read
    && exists t :: 0 <= t < |s.threads| && ReaderDuty(s.threads[t], t, b, c) != Nobody
  }

  lemma UnbornMeaning(mem: Mem, aux: Aux, b: nat)
    requires Blocks(mem, aux) && InChain(aux, b, 30) && aux.info[b].token.Unborn?
    ensures forall j :: 0 <= j < 31 ==> !mem.heap[b].slots[j].destroy
  {
    forall j | 0 <= j < 31 ensures !mem.heap[b].slots[j].destroy {
      CellFact(mem, aux, b, j);
    }
  }

  lemma LastReadMeansAllTaken(mem: Mem, aux: Aux, b: nat, c: nat)
    requires Blocks(mem, aux) && InChain(aux, b, c) && !aux.info[b].token.Unborn?
    ensures !aux.info[b].cells[c].reader.Nobody?
  {
    CellFact(mem, aux, b, 30);
    CellFact(mem, aux, b, c);
  }

  lemma ParkedMeaning(s: State, b: nat, c: nat)
    requires Inv(s) && b < |s.mem.heap| && s.aux.info[b].owner.Chained? && s.aux.info[b].token == Parked(c)
    ensures !s.mem.heap[b].freed && ParkedOn(s, b, c)
  {
    CellFact(s.mem, s.aux, b, 30);
    CellFact(s.mem, s.aux, b, c);
    LastReadMeansAllTaken(s.mem, s.aux, b, c);
    var cell := s.aux.info[b].cells[c];
    assert HeldCell(s.threads, b, c, cell);
    assert ReaderDuty(s.threads[cell.reader.t], cell.reader.t, b, c) != Nobody;
  }

  /** At most one thread destroys a block at a time. */
  lemma OneDestroyer(s: State, t: nat, u: nat, b: nat)
    requires Reachable(s) && t < |s.threads| && u < |s.threads|
    requires DestroyDuty(s.threads[t], t, b).Active? && DestroyDuty(s.threads[u], u, b).Active?
    ensures t == u
  {
    ReachableInv(s);
    assert ThreadOk(s.mem, s.aux, t, s.threads[t]);
    assert ThreadOk(s.mem, s.aux, u, s.threads[u]);
  }

  // ---- once and for all ----

  predicate IsFreed(mem: Mem, b: nat) { b < |mem.heap| && mem.heap[b].freed }

  lemma StepKeepsFreed(mem: Mem, pc: Pc, c: Choice, b: nat)
    requires IsFreed(mem, b)
    ensures IsFreed(MemStep(mem, pc, c).mem, b)
  {
    if Send.Sending(pc) {
      SendKeepsFreed(mem, pc, c, b);
    }
  }

  lemma SendKeepsFreed(mem: Mem, pc: Pc, c: Choice, b: nat)
    requires IsFreed(mem, b) && Send.Sending(pc)
    ensures IsFreed(SendStep(mem, pc, c).mem, b)
  {
  }

  lemma {:induction false} FreedStays(run: seq<State>, sched: Schedule, i: nat, j: nat, b: nat)
    requires IsRun(run, sched) && i <= j < |run| && IsFreed(run[i].mem, b)
    ensures IsFreed(run[j].mem, b)
  {
    if i < j {
      FreedStays(run, sched, i, j - 1, b);
      var s, x := run[j - 1], sched[j - 1];
      if x.0 < |s.threads| {
        StepKeepsFreed(s.mem, s.threads[x.0], x.1, b);
      }
    }
  }

  /** Step `i` of the run frees block `b`. */
  ghost predicate FreesAt(run: seq<State>, i: nat, b: nat)
    requires i + 1 < |run|
  {
    !IsFreed(run[i].mem, b) && IsFreed(run[i + 1].mem, b)
  }

  /** No block is freed by two steps of a run, and none is touched after it is freed. */
  lemma FreedOnce(run: seq<State>, sched: Schedule, i: nat, j: nat, b: nat)
    requires IsRun(run, sched) && i < |sched| && j < |sched|
    requires FreesAt(run, i, b) && FreesAt(run, j, b)
    ensures i == j && !run[|sched|].fault
  {
    Always(run, sched, |sched|);
    if i < j {
      FreedStays(run, sched, i + 1, j, b);
    } else if j < i {
      FreedStays(run, sched, j + 1, i, b);
    }
  }

  // ---- quiescence ----

  ghost predicate Quiet(threads: seq<Pc>) { forall t :: 0 <= t < |threads| ==> threads[t].Idle? }

  lemma QuietCell(aux: Aux, threads: seq<Pc>, b: nat, j: nat)
    requires Held(aux, threads) && Quiet(threads) && b < |aux.info| && j < 31
    ensures !Pending(aux.info[b].cells[j].writer) && !Pending(aux.info[b].cells[j].reader)
  {
    assert HeldCell(threads, b, j, aux.info[b].cells[j]);
  }

  /** With no call under way, a block of the chain is freed exactly when the head has left it. */
  lemma QuietBlock(s: State, b: nat)
    requires Inv(s) && Quiet(s.threads) && b < |s.mem.heap| && s.aux.info[b].owner.Chained?
    ensures s.mem.heap[b].freed <==> s.aux.info[b].owner.k < Lap(s.mem.head)
  {
    CellFact(s.mem, s.aux, b, 30);
    QuietCell(s.aux, s.threads, b, 30);
    assert HeldBlock(s.threads, b, s.aux.info[b]);
    if s.aux.info[b].token.Parked? {
      var c := s.aux.info[b].token.j;
      CellFact(s.mem, s.aux, b, c);
      QuietCell(s.aux, s.threads, b, c);
    }
  }

  /** With no call under way, no spare is left: a block outside the chain is freed. */
  lemma QuietSpare(s: State, b: nat)
    requires Inv(s) && Quiet(s.threads) && b < |s.mem.heap| && !s.aux.info[b].owner.Chained?
    ensures s.mem.heap[b].freed
  {
    assert HeldBlock(s.threads, b, s.aux.info[b]);
    assert BlockOk(s.mem, s.aux, s.mem.heap[b], s.aux.info[b]);
  }

  /** With no call under way, no section is held, so neither index rests on a block end. */
  lemma QuietWords(s: State)
    requires Inv(s) && Quiet(s.threads)
    ensures Offset(s.mem.head) != 31 && Offset(s.mem.tail) != 31 && s.aux.boot.None?
    ensures s.mem.headBlock == (if s.aux.chain == [] then Null else At(s.aux.chain[Lap(s.mem.head)]))
    ensures s.aux.chain != [] ==> |s.aux.chain| == Lap(s.mem.tail) + 1
  {
  }

  /** With no call under way, each block of the chain but the last points to the next. */
  lemma QuietLink(s: State, b: nat)
    requires Inv(s) && Quiet(s.threads) && b < |s.mem.heap| && s.aux.info[b].owner.Chained?
    ensures var k := s.aux.info[b].owner.k;
      s.mem.heap[b].next == if k < Lap(s.mem.tail) then At(s.aux.chain[k + 1]) else Null
  {
    CellFact(s.mem, s.aux, b, 30);
    assert HeldBlock(s.threads, b, s.aux.info[b]);
  }

  lemma DoneSlot(mem: Mem, aux: Aux, b: nat, j: nat)
    requires Blocks(mem, aux) && InChain(aux, b, j)
    requires !Pending(aux.info[b].cells[j].writer) && !Pending(aux.info[b].cells[j].reader)
    ensures var k := aux.info[b].owner.k;
      mem.heap[b].slots[j].msg ==
        if Index(mem.head) <= 32 * k + j < Index(mem.tail) && 31 * k + j < |aux.log|
        then Some(aux.log[31 * k + j]) else None
  {
    CellFact(mem, aux, b, j);
  }

  /** With no call under way, a slot holds a message exactly when its index lies between head and tail. */
  lemma QuietSlot(s: State, b: nat, j: nat)
    requires Inv(s) && Quiet(s.threads) && b < |s.mem.heap| && j < 31 && s.aux.info[b].owner.Chained?
    ensures var k := s.aux.info[b].owner.k;
      s.mem.heap[b].slots[j].msg ==
        if Index(s.mem.head) <= 32 * k + j < Index(s.mem.tail) && 31 * k + j < |s.aux.log|
        then Some(s.aux.log[31 * k + j]) else None
  {
    QuietCell(s.aux, s.threads, b, j);
    DoneSlot(s.mem, s.aux, b, j);
  }

  /**
   With no call under way: a block is freed exactly when the head has left its
   lap, or it was never put to use; every block but the last points to the next;
   a slot holds its message exactly when its index lies between head and tail.
   */
  lemma ChannelAtRest(s: State, b: nat, j: nat)
    requires Reachable(s) && Quiet(s.threads) && b < |s.mem.heap| && j < 31
    ensures b < |s.aux.info| && |s.aux.log| == Pos(Index(s.mem.tail))
    ensures match s.aux.info[b].owner
      case Chained(k) =>
        && k < |s.aux.chain| == Lap(s.mem.tail) + 1
        && (s.mem.heap[b].freed <==> k < Lap(s.mem.head))
        && s.mem.heap[b].next == (if k + 1 < |s.aux.chain| then At(s.aux.chain[k + 1]) else Null)
        && s.mem.heap[b].slots[j].msg ==
             if Index(s.mem.head) <= 32 * k + j < Index(s.mem.tail) && 31 * k + j < |s.aux.log|
             then Some(s.aux.log[31 * k + j]) else None
      case _ => s.mem.heap[b].freed
  {
    ReachableInv(s);
    QuietWords(s);
    if s.aux.info[b].owner.Chained? {
      QuietBlock(s, b);
      QuietLink(s, b);
      QuietSlot(s, b, j);
    } else {
      QuietSpare(s, b);
    }
  }
}
