/** Every step of `start_recv` keeps the invariant. */
module ListRecvSteps {
  import opened Common
  import opened ListProtocol
  import opened ListInvariant
  import opened ListFrame

  lemma IndexLoadLocal(mem: Mem, aux: Aux, t: nat, pc: Pc, c: Choice)
    requires RecvOk(mem, aux, t, pc) && pc.RLoadHead?
    ensures Local(mem, aux, t, pc, c)
  {
  }

  lemma BlockLoadLocal(mem: Mem, aux: Aux, t: nat, pc: Pc, c: Choice)
    requires RecvOk(mem, aux, t, pc) && pc.RLoadBlock? && Shape(mem, aux)
    ensures Local(mem, aux, t, pc, c)
  {
  }

  lemma Load(s: State, t: nat, c: Choice)
    requires Inv(s) && t < |s.threads| && (s.threads[t].RLoadHead? || s.threads[t].RLoadBlock?)
    ensures Inv(Step(s, t, c))
  {
    ThreadFacts(s, t);
    if s.threads[t].RLoadHead? {
      IndexLoadLocal(s.mem, s.aux, t, s.threads[t], c);
    } else {
      BlockLoadLocal(s.mem, s.aux, t, s.threads[t], c);
    }
    LocalStep(s, t, c);
  }

  /** What the loop computes before the CAS: with the hint set, or after loading the tail. */
  lemma LoopThread(mem: Mem, aux: Aux, t: nat, head: nat, block: Ptr)
    requires Shape(mem, aux) && RecvOk(mem, aux, t, RLoop(head, block))
    ensures !RecvLoop(mem, head, block).fault && RecvLoop(mem, head, block).mem == mem
    ensures ThreadOk(mem, aux, t, RecvLoop(mem, head, block).pc)
  {
  }

  lemma LoopDuties(mem: Mem, t: nat, head: nat, block: Ptr)
    ensures SameDuties(t, RLoop(head, block), RecvLoop(mem, head, block).pc)
  {
  }

  lemma Loop(s: State, t: nat, c: Choice)
    requires Inv(s) && t < |s.threads| && s.threads[t].RLoop?
    ensures Inv(Step(s, t, c))
  {
    var RLoop(head, block) := s.threads[t];
    ThreadFacts(s, t);
    LoopThread(s.mem, s.aux, t, head, block);
    LoopDuties(s.mem, t, head, block);
    assert Local(s.mem, s.aux, t, s.threads[t], c);
    LocalStep(s, t, c);
  }

  lemma CasLocal(mem: Mem, aux: Aux, t: nat, pc: Pc, c: Choice)
    requires RecvOk(mem, aux, t, pc) && pc.RCas? && (pc.block.Null? || mem.head != pc.head || c.Spurious?)
    ensures Local(mem, aux, t, pc, c)
  {
  }

  lemma CasFails(s: State, t: nat, c: Choice)
    requires Inv(s) && t < |s.threads| && s.threads[t].RCas?
    requires var RCas(head, _, block) := s.threads[t]; block.Null? || s.mem.head != head || c.Spurious?
    ensures Inv(Step(s, t, c))
  {
    ThreadFacts(s, t);
    CasLocal(s.mem, s.aux, t, s.threads[t], c);
    LocalStep(s, t, c);
  }

  // ---- claiming a slot: the CAS on the head ----

  function HeadAt(mem: Mem, newHead: nat): Mem { mem.(head := newHead) }

  ghost predicate CanTake(mem: Mem, aux: Aux, b: nat, k: nat, j: nat) {
    && Index(mem.head) == 32 * k + j && j < 31 && Index(mem.head) < Index(mem.tail)
    && k < |aux.chain| && aux.chain[k] == b && InChain(aux, b, j) && aux.info[b].owner.k == k
    && aux.info[b].cells[j].reader.Nobody? && aux.advance.Vacant? && aux.boot.None? && !aux.info[b].token.Active?
  }

  ghost predicate NewHeadOk(mem: Mem, newHead: nat) {
    Index(newHead) == Index(mem.head) + 1 && (Marked(newHead) ==> Lap(mem.head) < Lap(mem.tail))
  }

  lemma HeadBlockIsLive(mem: Mem, aux: Aux, t: nat, head: nat, newHead: nat, block: Ptr)
    requires Shape(mem, aux) && ChainOk(aux) && Blocks(mem, aux)
    requires RecvOk(mem, aux, t, RCas(head, newHead, block)) && block.At? && mem.head == head
    ensures CanTake(mem, aux, block.id, Lap(head), Offset(head)) && NewHeadOk(mem, newHead)
    ensures Live(mem, block.id)
  {
    CellFact(mem, aux, block.id, Offset(head));
    CellFact(mem, aux, block.id, 30);
  }

  ghost function TakeInfo(i: Info, t: nat, j: nat): Info
    requires j < 31
  {
    Info(i.owner, i.link, i.token, i.cells[j := Cell(i.cells[j].writer, By(t))])
  }

  ghost function TakeAux(aux: Aux, t: nat, b: nat, j: nat, n: nat): Aux
    requires b < |aux.info| && j < 31 && n < |aux.log|
  {
    SetInfo(aux, b, TakeInfo(aux.info[b], t, j)).(
      want := aux.want[t := aux.log[n]], advance := if j == 30 then Before(t) else aux.advance)
  }

  lemma TakeOther(mem: Mem, aux: Aux, mem': Mem, aux': Aux, x: Block, i: Info, k: nat, j: nat)
    requires BlockOk(mem, aux, x, i) && (i.owner.Chained? ==> i.owner.k != k)
    requires Index(mem.head) == 32 * k + j && j < 31 && Index(mem'.head) == Index(mem.head) + 1
    requires Index(mem'.tail) == Index(mem.tail)
    requires aux'.chain == aux.chain && aux'.got == aux.got && aux.log == aux'.log
    ensures BlockOk(mem', aux', x, i)
  {
  }

  lemma TakeThis(mem: Mem, aux: Aux, mem': Mem, aux': Aux, x: Block, i: Info, k: nat, j: nat, t: nat)
    requires BlockOk(mem, aux, x, i) && i.owner == Chained(k)
    requires Index(mem.head) == 32 * k + j && j < 31 && Index(mem'.head) == Index(mem.head) + 1
    requires Index(mem'.tail) == Index(mem.tail) && i.cells[j].reader.Nobody?
    requires aux'.chain == aux.chain && aux'.got == aux.got && aux.log == aux'.log
    ensures BlockOk(mem', aux', x, TakeInfo(i, t, j))
  {
    var cells := TakeInfo(i, t, j).cells;
    forall y | 0 <= y < 31
      ensures CellOk(x.slots[y], cells[y], i.token, y, 32 * k + y, 31 * k + y, Index(mem'.head), Index(mem'.tail), aux')
    {
      assert CellOk(x.slots[y], i.cells[y], i.token, y, 32 * k + y, 31 * k + y, Index(mem.head), Index(mem.tail), aux);
    }
  }

  lemma OtherLap(aux: Aux, b: nat, k: nat, x: nat)
    requires ChainOk(aux) && k < |aux.chain| && aux.chain[k] == b
    requires x < |aux.info| && x != b && aux.info[x].owner.Chained?
    ensures aux.info[x].owner.k != k
  {
  }

  lemma TakeNumber(mem: Mem, aux: Aux, b: nat, k: nat, j: nat)
    requires Shape(mem, aux) && CanTake(mem, aux, b, k, j)
    ensures Pos(Index(mem.head)) == 31 * k + j < |aux.log|
  {
  }

  lemma TakeBlocks(mem: Mem, aux: Aux, t: nat, newHead: nat, b: nat, k: nat, j: nat, n: nat)
    requires ChainOk(aux) && Blocks(mem, aux) && CanTake(mem, aux, b, k, j) && NewHeadOk(mem, newHead)
    requires n < |aux.log|
    ensures Blocks(HeadAt(mem, newHead), TakeAux(aux, t, b, j, n))
  {
    var mem', aux' := HeadAt(mem, newHead), TakeAux(aux, t, b, j, n);
    forall x | 0 <= x < |mem.heap| && x != b ensures BlockOk(mem', aux', mem'.heap[x], aux'.info[x]) {
      if aux.info[x].owner.Chained? {
        OtherLap(aux, b, k, x);
      }
      TakeOther(mem, aux, mem', aux', mem.heap[x], aux.info[x], k, j);
    }
    TakeThis(mem, aux, mem', aux', mem.heap[b], aux.info[b], k, j, t);
  }

  lemma TakeShape(mem: Mem, aux: Aux, t: nat, newHead: nat, b: nat, k: nat, j: nat, n: nat)
    requires Shape(mem, aux) && ChainOk(aux) && CanTake(mem, aux, b, k, j) && NewHeadOk(mem, newHead)
    requires n < |aux.log|
    ensures Shape(HeadAt(mem, newHead), TakeAux(aux, t, b, j, n)) && ChainOk(TakeAux(aux, t, b, j, n))
  {
    TakeChain(aux, t, b, j, n);
    NextInLap(Index(mem.head));
  }

  lemma NextInLap(i: nat)
    requires i % 32 < 31
    ensures (i + 1) / 32 == i / 32 && (i + 1) % 32 == i % 32 + 1
  {
  }

  lemma TakeChain(aux: Aux, t: nat, b: nat, j: nat, n: nat)
    requires ChainOk(aux) && b < |aux.info| && j < 31 && n < |aux.log|
    ensures ChainOk(TakeAux(aux, t, b, j, n))
  {
  }

  lemma TakeGuar(mem: Mem, aux: Aux, t: nat, newHead: nat, b: nat, k: nat, j: nat, n: nat)
    requires Shape(mem, aux) && CanTake(mem, aux, b, k, j) && NewHeadOk(mem, newHead)
    requires n < |aux.log|
    ensures Guar(mem, aux, t, HeadAt(mem, newHead), TakeAux(aux, t, b, j, n))
  {
  }

  ghost function TakePc(b: nat, j: nat, newHead: nat): Pc {
    if j == 30 then RWaitNext(b, newHead) else RWaitWrite(b, j)
  }

  lemma TakeThread(mem: Mem, aux: Aux, t: nat, newHead: nat, b: nat, k: nat, j: nat)
    requires Shape(mem, aux) && CanTake(mem, aux, b, k, j) && NewHeadOk(mem, newHead)
    ensures 31 * k + j < |aux.log|
    ensures ThreadOk(HeadAt(mem, newHead), TakeAux(aux, t, b, j, 31 * k + j), t, TakePc(b, j, newHead))
  {
    TakeNumber(mem, aux, b, k, j);
  }

  lemma TakeHeld(aux: Aux, threads: seq<Pc>, t: nat, newHead: nat, b: nat, j: nat, n: nat)
    requires Held(aux, threads) && t < |threads| && threads[t].RCas?
    requires b < |aux.info| && j < 31 && n < |aux.log| && aux.advance.Vacant?
    ensures Held(TakeAux(aux, t, b, j, n), threads[t := TakePc(b, j, newHead)])
  {
    var aux', pc := TakeAux(aux, t, b, j, n), TakePc(b, j, newHead);
    assert HeldBlock(threads, b, aux.info[b]);
    forall x | 0 <= x < 31 ensures CellDuty(t, pc, b, x, aux.info[b].cells[x], aux'.info[b].cells[x]) {
      assert HeldCell(threads, b, x, aux.info[b].cells[x]);
    }
    BlockHeld'(aux, threads, t, aux', pc, b);
  }

  lemma TakeOut(s: State, t: nat, c: Choice, head: nat, newHead: nat, b: nat, k: nat, j: nat)
    requires t < |s.threads| && s.threads[t] == RCas(head, newHead, At(b)) && !s.fault
    requires s.mem.head == head && !c.Spurious? && Index(head) == 32 * k + j && j < 31
    requires b < |s.aux.info| && 31 * k + j < |s.aux.log|
    ensures Step(s, t, c) == State(HeadAt(s.mem, newHead), s.threads[t := TakePc(b, j, newHead)], false,
                                   TakeAux(s.aux, t, b, j, 31 * k + j))
  {
  }

  lemma TakeAll(mem: Mem, aux: Aux, t: nat, newHead: nat, b: nat, k: nat, j: nat)
    requires Shape(mem, aux) && ChainOk(aux) && Blocks(mem, aux)
    requires CanTake(mem, aux, b, k, j) && NewHeadOk(mem, newHead)
    ensures 31 * k + j < |aux.log|
    ensures var mem', aux' := HeadAt(mem, newHead), TakeAux(aux, t, b, j, 31 * k + j);
      && Shape(mem', aux') && ChainOk(aux') && Blocks(mem', aux') && Guar(mem, aux, t, mem', aux')
      && ThreadOk(mem', aux', t, TakePc(b, j, newHead))
  {
    TakeThread(mem, aux, t, newHead, b, k, j);
    TakeShape(mem, aux, t, newHead, b, k, j, 31 * k + j);
    TakeGuar(mem, aux, t, newHead, b, k, j, 31 * k + j);
    TakeBlocks(mem, aux, t, newHead, b, k, j, 31 * k + j);
  }

  lemma CasSucceeds(s: State, t: nat, c: Choice)
    requires Inv(s) && t < |s.threads| && s.threads[t].RCas?
    requires var RCas(head, _, block) := s.threads[t]; block.At? && s.mem.head == head && !c.Spurious?
    ensures Inv(Step(s, t, c))
  {
    var RCas(head, newHead, block) := s.threads[t];
    var b, k, j := block.id, Lap(head), Offset(head);
    assert ThreadOk(s.mem, s.aux, t, s.threads[t]);
    HeadBlockIsLive(s.mem, s.aux, t, head, newHead, block);
    TakeAll(s.mem, s.aux, t, newHead, b, k, j);
    TakeHeld(s.aux, s.threads, t, newHead, b, j, 31 * k + j);
    Assemble(s, t, HeadAt(s.mem, newHead), TakeAux(s.aux, t, b, j, 31 * k + j), TakePc(b, j, newHead));
    TakeOut(s, t, c, head, newHead, b, k, j);
  }

  // ---- advancing to the next block ----

  lemma LastSlotIsLive(mem: Mem, aux: Aux, t: nat, b: nat, p: Phase)
    requires Blocks(mem, aux) && Advancing(mem, aux, t, b, p)
    ensures Live(mem, b)
  {
    LiveWhileRead(mem, aux, b, 30);
  }

  lemma NextIsLinked(mem: Mem, aux: Aux, b: nat)
    requires Blocks(mem, aux) && InChain(aux, b, 30) && mem.heap[b].next.At?
    ensures Linked(aux, b, mem.heap[b].next.id)
  {
    CellFact(mem, aux, b, 30);
  }

  lemma WaitNextLocal(mem: Mem, aux: Aux, t: nat, pc: Pc, c: Choice)
    requires Blocks(mem, aux) && RecvOk(mem, aux, t, pc) && pc.RWaitNext?
    ensures Local(mem, aux, t, pc, c)
  {
    LastSlotIsLive(mem, aux, t, pc.b, Before(t));
    if mem.heap[pc.b].next.At? {
      NextIsLinked(mem, aux, pc.b);
    }
  }

  lemma WaitNext(s: State, t: nat, c: Choice)
    requires Inv(s) && t < |s.threads| && s.threads[t].RWaitNext?
    ensures Inv(Step(s, t, c))
  {
    ThreadFacts(s, t);
    WaitNextLocal(s.mem, s.aux, t, s.threads[t], c);
    LocalStep(s, t, c);
  }

  /** The next block has no reader yet, so it is not freed; and if its own `next` is set, the tail is past it. */
  lemma PeekFacts(mem: Mem, aux: Aux, t: nat, b: nat, newHead: nat, next: nat)
    requires Shape(mem, aux) && ChainOk(aux) && Blocks(mem, aux)
    requires RecvOk(mem, aux, t, RPeek(b, newHead, next))
    ensures Live(mem, next)
    ensures RecvOk(mem, aux, t, RecvStep(mem, RPeek(b, newHead, next), Go).pc)
  {
    CellFact(mem, aux, next, 30);
  }

  lemma PeekDuties(mem: Mem, t: nat, b: nat, newHead: nat, next: nat)
    ensures Live(mem, next) ==> SameDuties(t, RPeek(b, newHead, next), RecvStep(mem, RPeek(b, newHead, next), Go).pc)
  {
  }

  lemma PeekOut(mem: Mem, aux: Aux, t: nat, pc: Pc, c: Choice)
    requires pc.RPeek? && Live(mem, pc.next)
    ensures var out := MemStep(mem, pc, c);
      out == RecvStep(mem, pc, Go) && out.mem == mem && !out.fault && out.pc.RStoreBlock? && Annotate(mem, aux, t, pc, out) == aux
  {
  }

  lemma PeekLocal(mem: Mem, aux: Aux, t: nat, pc: Pc, c: Choice)
    requires Shape(mem, aux) && ChainOk(aux) && Blocks(mem, aux) && RecvOk(mem, aux, t, pc) && pc.RPeek?
    ensures Local(mem, aux, t, pc, c)
  {
    PeekFacts(mem, aux, t, pc.b, pc.newHead, pc.next);
    PeekDuties(mem, t, pc.b, pc.newHead, pc.next);
    PeekOut(mem, aux, t, pc, c);
  }

  lemma Peek(s: State, t: nat, c: Choice)
    requires Inv(s) && t < |s.threads| && s.threads[t].RPeek?
    ensures Inv(Step(s, t, c))
  {
    ThreadFacts(s, t);
    PeekLocal(s.mem, s.aux, t, s.threads[t], c);
    LocalStep(s, t, c);
  }

  function MovedMem(mem: Mem, next: nat): Mem { mem.(headBlock := At(next)) }

  function MovedAux(aux: Aux, t: nat): Aux { aux.(advance := After(t)) }

  lemma NextBlock(mem: Mem, aux: Aux, b: nat, next: nat)
    requires Shape(mem, aux) && Blocks(mem, aux) && Linked(aux, b, next)
    ensures 32 * (aux.info[b].owner.k + 1) <= Index(mem.tail)
  {
    CellFact(mem, aux, b, 30);
  }

  lemma MoveShape(mem: Mem, aux: Aux, t: nat, b: nat, next: nat)
    requires Shape(mem, aux) && ChainOk(aux) && Advancing(mem, aux, t, b, Before(t)) && Linked(aux, b, next)
    ensures Shape(MovedMem(mem, next), MovedAux(aux, t)) && ChainOk(MovedAux(aux, t))
  {
  }

  lemma MoveThread(mem: Mem, aux: Aux, t: nat, b: nat, next: nat, nextIndex: nat)
    requires RecvOk(mem, aux, t, RStoreBlock(b, next, nextIndex))
    requires 32 * (aux.info[b].owner.k + 1) <= Index(mem.tail)
    ensures Guar(mem, aux, t, MovedMem(mem, next), MovedAux(aux, t))
    ensures ThreadOk(MovedMem(mem, next), MovedAux(aux, t), t, RStoreIndex(b, nextIndex))
  {
  }

  lemma MoveHeld(aux: Aux, threads: seq<Pc>, t: nat, b: nat, next: nat, nextIndex: nat)
    requires Held(aux, threads) && t < |threads| && threads[t] == RStoreBlock(b, next, nextIndex)
    requires aux.advance == Before(t)
    ensures Held(MovedAux(aux, t), threads[t := RStoreIndex(b, nextIndex)])
  {
    SectionHeld(aux, threads, t, MovedAux(aux, t), RStoreIndex(b, nextIndex));
  }

  lemma StoreBlockOut(s: State, t: nat, c: Choice, b: nat, next: nat, nextIndex: nat)
    requires t < |s.threads| && s.threads[t] == RStoreBlock(b, next, nextIndex) && !s.fault
    ensures Step(s, t, c) ==
      State(MovedMem(s.mem, next), s.threads[t := RStoreIndex(b, nextIndex)], false, MovedAux(s.aux, t))
  {
  }

  lemma StoreBlock(s: State, t: nat, c: Choice)
    requires Inv(s) && t < |s.threads| && s.threads[t].RStoreBlock?
    ensures Inv(Step(s, t, c))
  {
    var RStoreBlock(b, next, nextIndex) := s.threads[t];
    StoreBlockKeeps(s, t, b, next, nextIndex);
    StoreBlockOut(s, t, c, b, next, nextIndex);
  }

  lemma StoreBlockKeeps(s: State, t: nat, b: nat, next: nat, nextIndex: nat)
    requires Inv(s) && t < |s.threads| && s.threads[t] == RStoreBlock(b, next, nextIndex)
    ensures Inv(State(MovedMem(s.mem, next), s.threads[t := RStoreIndex(b, nextIndex)], false, MovedAux(s.aux, t)))
  {
    ThreadFacts(s, t);
    NextBlock(s.mem, s.aux, b, next);
    MoveShape(s.mem, s.aux, t, b, next);
    MoveThread(s.mem, s.aux, t, b, next, nextIndex);
    MoveHeld(s.aux, s.threads, t, b, next, nextIndex);
    SectionBlocks(s.mem, s.aux, MovedMem(s.mem, next), MovedAux(s.aux, t));
    Assemble(s, t, MovedMem(s.mem, next), MovedAux(s.aux, t), RStoreIndex(b, nextIndex));
  }

  function Arrived(aux: Aux): Aux { aux.(advance := Vacant) }

  lemma ArriveFacts(mem: Mem, aux: Aux, t: nat, b: nat, nextIndex: nat)
    requires Shape(mem, aux) && ChainOk(aux) && RecvOk(mem, aux, t, RStoreIndex(b, nextIndex))
    ensures Shape(HeadAt(mem, nextIndex), Arrived(aux)) && ChainOk(Arrived(aux))
    ensures Guar(mem, aux, t, HeadAt(mem, nextIndex), Arrived(aux))
    ensures ThreadOk(HeadAt(mem, nextIndex), Arrived(aux), t, RWaitWrite(b, 30))
  {
    ArriveShape(mem, aux, t, b, nextIndex);
    ArriveGuar(mem, aux, t, b, nextIndex);
  }

  lemma ArriveShape(mem: Mem, aux: Aux, t: nat, b: nat, nextIndex: nat)
    requires Shape(mem, aux) && RecvOk(mem, aux, t, RStoreIndex(b, nextIndex))
    ensures Shape(HeadAt(mem, nextIndex), Arrived(aux))
  {
  }

  lemma ArriveGuar(mem: Mem, aux: Aux, t: nat, b: nat, nextIndex: nat)
    requires RecvOk(mem, aux, t, RStoreIndex(b, nextIndex))
    ensures Guar(mem, aux, t, HeadAt(mem, nextIndex), Arrived(aux))
  {
  }

  lemma ArriveBlock(mem: Mem, aux: Aux, mem': Mem, aux': Aux, x: Block, i: Info)
    requires BlockOk(mem, aux, x, i)
    requires Index(mem.head) % 32 == 31 && Index(mem'.head) == Index(mem.head) + 1 && Index(mem'.tail) == Index(mem.tail)
    requires aux'.chain == aux.chain && aux'.log == aux.log && aux'.got == aux.got
    ensures BlockOk(mem', aux', x, i)
  {
  }

  lemma ArriveBlocks(mem: Mem, aux: Aux, nextIndex: nat)
    requires Blocks(mem, aux) && Index(mem.head) % 32 == 31 && Index(nextIndex) == Index(mem.head) + 1
    ensures Blocks(HeadAt(mem, nextIndex), Arrived(aux))
  {
    forall x | 0 <= x < |mem.heap| ensures BlockOk(HeadAt(mem, nextIndex), Arrived(aux), mem.heap[x], aux.info[x]) {
      ArriveBlock(mem, aux, HeadAt(mem, nextIndex), Arrived(aux), mem.heap[x], aux.info[x]);
    }
  }

  lemma ArriveHeld(aux: Aux, threads: seq<Pc>, t: nat, b: nat, nextIndex: nat)
    requires Held(aux, threads) && t < |threads| && threads[t] == RStoreIndex(b, nextIndex) && aux.advance == After(t)
    ensures Held(Arrived(aux), threads[t := RWaitWrite(b, 30)])
  {
    SectionHeld(aux, threads, t, Arrived(aux), RWaitWrite(b, 30));
  }

  lemma StoreIndex(s: State, t: nat, c: Choice)
    requires Inv(s) && t < |s.threads| && s.threads[t].RStoreIndex?
    ensures Inv(Step(s, t, c))
  {
    var RStoreIndex(b, nextIndex) := s.threads[t];
    assert ThreadOk(s.mem, s.aux, t, s.threads[t]);
    ArriveFacts(s.mem, s.aux, t, b, nextIndex);
    ArriveBlocks(s.mem, s.aux, nextIndex);
    ArriveHeld(s.aux, s.threads, t, b, nextIndex);
    Assemble(s, t, HeadAt(s.mem, nextIndex), Arrived(s.aux), RWaitWrite(b, 30));
  }

  predicate Receiving(pc: Pc) {
    || pc.RLoadHead? || pc.RLoadBlock? || pc.RLoop? || pc.RCas? || pc.RWaitNext? || pc.RPeek?
    || pc.RStoreBlock? || pc.RStoreIndex?
  }

  lemma RecvKeeps(s: State, t: nat, c: Choice)
    requires Inv(s) && t < |s.threads| && Receiving(s.threads[t])
    ensures Inv(Step(s, t, c))
  {
    match s.threads[t]
    case RLoadHead => Load(s, t, c);
    case RLoadBlock(_) => Load(s, t, c);
    case RLoop(_, _) => Loop(s, t, c);
    case RCas(head, newHead, block) =>
      if block.Null? || s.mem.head != head || c.Spurious? { CasFails(s, t, c); } else { CasSucceeds(s, t, c); }
    case RWaitNext(_, _) => WaitNext(s, t, c);
    case RPeek(_, _, _) => Peek(s, t, c);
    case RStoreBlock(_, _, _) => StoreBlock(s, t, c);
    case RStoreIndex(_, _) => StoreIndex(s, t, c);
  }
}
