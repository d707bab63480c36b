/** Every step of `start_send` and `write` keeps the invariant. */
module ListSendSteps {
  import opened Common
  import opened ListProtocol
  import opened ListInvariant
  import opened ListFrame

  lemma IndexLoadLocal(mem: Mem, aux: Aux, t: nat, pc: Pc, c: Choice)
    requires SendOk(mem, aux, t, pc) && pc.SLoadTail?
    ensures Local(mem, aux, t, pc, c)
  {
  }

  lemma BlockLoadLocal(mem: Mem, aux: Aux, t: nat, pc: Pc, c: Choice)
    requires SendOk(mem, aux, t, pc) && pc.SLoadBlock? && Shape(mem, aux)
    ensures Local(mem, aux, t, pc, c)
  {
  }

  lemma Load(s: State, t: nat, c: Choice)
    requires Inv(s) && t < |s.threads| && (s.threads[t].SLoadTail? || s.threads[t].SLoadBlock?)
    ensures Inv(Step(s, t, c))
  {
    ThreadFacts(s, t);
    if s.threads[t].SLoadTail? {
      IndexLoadLocal(s.mem, s.aux, t, s.threads[t], c);
    } else {
      BlockLoadLocal(s.mem, s.aux, t, s.threads[t], c);
    }
    LocalStep(s, t, c);
  }

  // ---- the retry loop ----

  function Dropped(x: Block): Block { x.(freed := true) }

  lemma SpareFacts(mem: Mem, aux: Aux, t: nat, nb: nat, pc: Pc)
    requires Blocks(mem, aux) && SpareOk(aux, t, At(nb)) && Spare(pc).Null?
    ensures Live(mem, nb)
    ensures BlockOk(mem, aux, Dropped(mem.heap[nb]), aux.info[nb].(owner := Discarded))
    ensures InfoGuar(aux.info[nb], aux.info[nb].(owner := Discarded), t)
    ensures BlockDuty(t, pc, nb, aux.info[nb], aux.info[nb].(owner := Discarded))
  {
    assert BlockOk(mem, aux, mem.heap[nb], aux.info[nb]);
  }

  /** A spare block is dropped. */
  lemma DropSpareStep(s: State, t: nat, nb: nat, pc: Pc)
    requires Inv(s) && t < |s.threads| && Spare(s.threads[t]) == At(nb) && SpareOk(s.aux, t, At(nb))
    requires Spare(pc).Null? && SameClaimsButSpare(t, s.threads[t], pc) && SameSections(s.threads[t], pc)
    requires ThreadOk(SetBlock(s.mem, nb, Dropped(s.mem.heap[nb])), SetOwner(s.aux, nb, Discarded), t, pc)
    ensures Inv(State(SetBlock(s.mem, nb, Dropped(s.mem.heap[nb])), s.threads[t := pc], false,
                      SetOwner(s.aux, nb, Discarded)))
  {
    SpareFacts(s.mem, s.aux, t, nb, pc);
    assert SameDutiesBut(t, s.threads[t], pc, nb);
    BlockStep(s, t, pc, nb, Dropped(s.mem.heap[nb]), s.aux.info[nb].(owner := Discarded));
  }

  lemma LoopMarked(s: State, t: nat, c: Choice)
    requires Inv(s) && t < |s.threads| && s.threads[t].SLoop? && Marked(s.threads[t].tail)
    ensures Inv(Step(s, t, c))
  {
    var SLoop(m, nb, tail, block) := s.threads[t];
    ThreadFacts(s, t);
    if nb.Null? {
      LoopLocal(s.mem, s.aux, t, s.threads[t], c);
      LocalStep(s, t, c);
    } else {
      SpareFacts(s.mem, s.aux, t, nb.id, Idle);
      DropSpareStep(s, t, nb.id, Idle);
    }
  }

  /** The loop starts over, with a fresh tail or a failed CAS, or leaves with nothing in hand. */
  lemma LoopLocal(mem: Mem, aux: Aux, t: nat, pc: Pc, c: Choice)
    requires SendOk(mem, aux, t, pc) && pc.SLoop?
    requires if Marked(pc.tail) then pc.nb.Null?
             else Offset(pc.tail) == 31 || (!(Offset(pc.tail) == 30 && pc.nb.Null?) && pc.block.At? && (mem.tail != pc.tail || c.Spurious?))
    ensures Local(mem, aux, t, pc, c)
  {
  }

  lemma LoopReload(s: State, t: nat, c: Choice)
    requires Inv(s) && t < |s.threads| && s.threads[t].SLoop?
    requires var tail := s.threads[t].tail; !Marked(tail) && Offset(tail) == 31
    ensures Inv(Step(s, t, c))
  {
    ThreadFacts(s, t);
    LoopLocal(s.mem, s.aux, t, s.threads[t], c);
    LocalStep(s, t, c);
  }

  lemma LoopRetry(s: State, t: nat, c: Choice)
    requires Inv(s) && t < |s.threads| && s.threads[t].SLoop?
    requires var SLoop(_, nb, tail, block) := s.threads[t];
      && !Marked(tail) && Offset(tail) != 31 && !(Offset(tail) == 30 && nb.Null?)
      && block.At? && (s.mem.tail != tail || c.Spurious?)
    ensures Inv(Step(s, t, c))
  {
    ThreadFacts(s, t);
    LoopLocal(s.mem, s.aux, t, s.threads[t], c);
    LocalStep(s, t, c);
  }

  /** A block is allocated and kept as thread `t`'s spare. */
  lemma GrowBlocks(mem: Mem, aux: Aux, t: nat)
    requires Blocks(mem, aux)
    ensures Blocks(Alloc(mem), AddInfo(aux, Private(t)))
  {
    var mem', aux' := Alloc(mem), AddInfo(aux, Private(t));
    forall x | 0 <= x < |mem.heap| ensures BlockOk(mem', aux', mem'.heap[x], aux'.info[x]) {
      BlockFrame(mem, aux, mem', aux', mem.heap[x], aux.info[x]);
    }
  }

  lemma GrowShape(mem: Mem, aux: Aux, t: nat)
    requires Shape(mem, aux) && ChainOk(aux)
    ensures Shape(Alloc(mem), AddInfo(aux, Private(t)))
    ensures ChainOk(AddInfo(aux, Private(t)))
    ensures Guar(mem, aux, t, Alloc(mem), AddInfo(aux, Private(t)))
  {
  }

  lemma AllocStep(s: State, t: nat, pc: Pc)
    requires Inv(s) && t < |s.threads| && Spare(s.threads[t]).Null?
    requires Spare(pc) == At(|s.mem.heap|) && SameClaimsButSpare(t, s.threads[t], pc) && SameSections(s.threads[t], pc)
    requires ThreadOk(Alloc(s.mem), AddInfo(s.aux, Private(t)), t, pc)
    ensures Inv(State(Alloc(s.mem), s.threads[t := pc], false, AddInfo(s.aux, Private(t))))
  {
    GrowBlocks(s.mem, s.aux, t);
    GrowShape(s.mem, s.aux, t);
    GrowHeld(s.aux, s.threads, t, AddInfo(s.aux, Private(t)), pc, Private(t));
    ThreadsStep(s.mem, s.aux, s.threads, t, Alloc(s.mem), AddInfo(s.aux, Private(t)), pc);
  }

  lemma LoopAlloc(s: State, t: nat, c: Choice)
    requires Inv(s) && t < |s.threads| && s.threads[t].SLoop?
    requires var SLoop(_, nb, tail, block) := s.threads[t];
      !Marked(tail) && Offset(tail) == 30 && nb.Null?
    ensures Inv(Step(s, t, c))
  {
    var SLoop(m, nb, tail, block) := s.threads[t];
    assert ThreadOk(s.mem, s.aux, t, s.threads[t]);
    AllocStep(s, t, SLoop(m, At(|s.mem.heap|), tail, block));
  }

  lemma LoopLoses(s: State, t: nat, c: Choice)
    requires Inv(s) && t < |s.threads| && s.threads[t].SLoop?
    requires var SLoop(_, nb, tail, block) := s.threads[t];
      && !Marked(tail) && Offset(tail) != 31 && !(Offset(tail) == 30 && nb.Null?)
      && block.Null? && s.mem.tailBlock.At?
    ensures Inv(Step(s, t, c))
  {
    var SLoop(m, nb, tail, block) := s.threads[t];
    assert ThreadOk(s.mem, s.aux, t, s.threads[t]);
    AllocStep(s, t, SLoadTail(m, At(|s.mem.heap|)));
  }

  // ---- the first block ----

  function FirstAux(aux: Aux, t: nat, b: nat): Aux {
    AddInfo(aux, Chained(0)).(chain := [b], boot := Some(t))
  }

  function FirstMem(mem: Mem): Mem { Alloc(mem).(tailBlock := At(|mem.heap|)) }

  lemma FirstBlocks(mem: Mem, aux: Aux, t: nat)
    requires Shape(mem, aux) && ChainOk(aux) && Blocks(mem, aux) && aux.chain == []
    ensures Shape(FirstMem(mem), FirstAux(aux, t, |mem.heap|))
    ensures ChainOk(FirstAux(aux, t, |mem.heap|))
    ensures Blocks(FirstMem(mem), FirstAux(aux, t, |mem.heap|))
  {
    var mem', aux' := FirstMem(mem), FirstAux(aux, t, |mem.heap|);
    forall x | 0 <= x < |mem.heap| ensures BlockOk(mem', aux', mem'.heap[x], aux'.info[x]) {
      assert BlockOk(mem, aux, mem.heap[x], aux.info[x]);
    }
  }

  lemma FirstGuar(mem: Mem, aux: Aux, t: nat)
    requires Shape(mem, aux) && aux.chain == []
    ensures Guar(mem, aux, t, FirstMem(mem), FirstAux(aux, t, |mem.heap|))
  {
  }

  lemma FirstThread(mem: Mem, aux: Aux, t: nat, pc: Pc)
    requires Shape(mem, aux) && SendOk(mem, aux, t, pc) && pc.SLoop? && pc.block.Null? && mem.tailBlock.Null?
    requires !Marked(pc.tail)
    ensures aux.chain == []
    ensures ThreadOk(FirstMem(mem), FirstAux(aux, t, |mem.heap|), t, SStoreHead(pc.m, pc.nb, pc.tail, |mem.heap|))
  {
  }

  lemma WinKeeps(s: State, t: nat, m: Msg, nb: Ptr, tail: nat)
    requires Inv(s) && t < |s.threads| && s.threads[t] == SLoop(m, nb, tail, Null) && s.mem.tailBlock.Null? && !Marked(tail)
    ensures Inv(State(FirstMem(s.mem), s.threads[t := SStoreHead(m, nb, tail, |s.mem.heap|)], false,
                      FirstAux(s.aux, t, |s.mem.heap|)))
  {
    var pc, aux' := SStoreHead(m, nb, tail, |s.mem.heap|), FirstAux(s.aux, t, |s.mem.heap|);
    ThreadFacts(s, t);
    FirstThread(s.mem, s.aux, t, s.threads[t]);
    FirstBlocks(s.mem, s.aux, t);
    FirstGuar(s.mem, s.aux, t);
    GrowHeld(s.aux, s.threads, t, aux', pc, Chained(0));
    ThreadsStep(s.mem, s.aux, s.threads, t, FirstMem(s.mem), aux', pc);
  }

  lemma WinOut(s: State, t: nat, c: Choice, m: Msg, nb: Ptr, tail: nat)
    requires t < |s.threads| && s.threads[t] == SLoop(m, nb, tail, Null) && s.mem.tailBlock.Null? && !s.fault
    requires !Marked(tail) && Offset(tail) != 31 && !(Offset(tail) == 30 && nb.Null?)
    ensures Step(s, t, c) == State(FirstMem(s.mem), s.threads[t := SStoreHead(m, nb, tail, |s.mem.heap|)], false,
                                   FirstAux(s.aux, t, |s.mem.heap|))
  {
  }

  lemma LoopWins(s: State, t: nat, c: Choice)
    requires Inv(s) && t < |s.threads| && s.threads[t].SLoop?
    requires var SLoop(_, nb, tail, block) := s.threads[t];
      && !Marked(tail) && Offset(tail) != 31 && !(Offset(tail) == 30 && nb.Null?)
      && block.Null? && s.mem.tailBlock.Null?
    ensures Inv(Step(s, t, c))
  {
    var SLoop(m, nb, tail, block) := s.threads[t];
    WinKeeps(s, t, m, nb, tail);
    WinOut(s, t, c, m, nb, tail);
  }

  function StoredMem(mem: Mem, b: nat): Mem { mem.(headBlock := At(b)) }

  function StoredAux(aux: Aux): Aux { aux.(boot := None) }

  lemma StoreHeadShape(mem: Mem, aux: Aux, t: nat, b: nat)
    requires Shape(mem, aux) && ChainOk(aux) && aux.boot == Some(t) && aux.chain != [] && aux.chain[0] == b
    ensures Shape(StoredMem(mem, b), StoredAux(aux)) && ChainOk(StoredAux(aux))
    ensures Guar(mem, aux, t, StoredMem(mem, b), StoredAux(aux))
  {
  }

  lemma StoreHeadThread(mem: Mem, aux: Aux, threads: seq<Pc>, t: nat, m: Msg, nb: Ptr, tail: nat, b: nat)
    requires SendOk(mem, aux, t, SStoreHead(m, nb, tail, b)) && Held(aux, threads)
    requires t < |threads| && threads[t] == SStoreHead(m, nb, tail, b)
    ensures ThreadOk(StoredMem(mem, b), StoredAux(aux), t, SLoop(m, nb, tail, At(b)))
    ensures SameClaims(t, threads[t], SLoop(m, nb, tail, At(b)))
    ensures HeldSections(StoredAux(aux), threads[t := SLoop(m, nb, tail, At(b))])
  {
  }

  lemma StoreHeadKeeps(s: State, t: nat, m: Msg, nb: Ptr, tail: nat, b: nat)
    requires Inv(s) && t < |s.threads| && s.threads[t] == SStoreHead(m, nb, tail, b)
    ensures Inv(State(StoredMem(s.mem, b), s.threads[t := SLoop(m, nb, tail, At(b))], false, StoredAux(s.aux)))
  {
    ThreadFacts(s, t);
    StoreHeadShape(s.mem, s.aux, t, b);
    StoreHeadThread(s.mem, s.aux, s.threads, t, m, nb, tail, b);
    SectionStep(s, t, StoredMem(s.mem, b), StoredAux(s.aux), SLoop(m, nb, tail, At(b)));
  }

  lemma StoreHeadOut(s: State, t: nat, c: Choice, m: Msg, nb: Ptr, tail: nat, b: nat)
    requires t < |s.threads| && s.threads[t] == SStoreHead(m, nb, tail, b) && !s.fault
    ensures Step(s, t, c) == State(StoredMem(s.mem, b), s.threads[t := SLoop(m, nb, tail, At(b))], false, StoredAux(s.aux))
  {
  }

  lemma StoreHead(s: State, t: nat, c: Choice)
    requires Inv(s) && t < |s.threads| && s.threads[t].SStoreHead?
    ensures Inv(Step(s, t, c))
  {
    var SStoreHead(m, nb, tail, b) := s.threads[t];
    StoreHeadKeeps(s, t, m, nb, tail, b);
    StoreHeadOut(s, t, c, m, nb, tail, b);
  }

  lemma NoSpareLocal(mem: Mem, aux: Aux, t: nat, pc: Pc, c: Choice)
    requires SendOk(mem, aux, t, pc) && pc.SDropSpare? && pc.nb.Null?
    ensures Local(mem, aux, t, pc, c)
  {
  }

  lemma DropSpareAfterClaim(s: State, t: nat, c: Choice)
    requires Inv(s) && t < |s.threads| && s.threads[t].SDropSpare?
    ensures Inv(Step(s, t, c))
  {
    var SDropSpare(m, nb, b, j) := s.threads[t];
    if nb.Null? {
      ThreadFacts(s, t);
      NoSpareLocal(s.mem, s.aux, t, s.threads[t], c);
      LocalStep(s, t, c);
    } else {
      DropSpareThenWrite(s, t, c, nb.id);
    }
  }

  lemma DropSpareOut(s: State, t: nat, c: Choice, m: Msg, nb: nat, b: nat, j: nat)
    requires t < |s.threads| && s.threads[t] == SDropSpare(m, At(nb), b, j) && !s.fault && Live(s.mem, nb)
    ensures Step(s, t, c) == State(SetBlock(s.mem, nb, Dropped(s.mem.heap[nb])),
                                   s.threads[t := SWriteMsg(m, b, j)], false, SetOwner(s.aux, nb, Discarded))
  {
  }

  lemma ClaimSurvivesDrop(mem: Mem, aux: Aux, mem': Mem, t: nat, m: Msg, nb: nat, b: nat, j: nat)
    requires SendOk(mem, aux, t, SDropSpare(m, At(nb), b, j))
    ensures ThreadOk(mem', SetOwner(aux, nb, Discarded), t, SWriteMsg(m, b, j))
  {
  }

  lemma DropSpareDuties(mem: Mem, aux: Aux, t: nat, pc: Pc)
    requires SendOk(mem, aux, t, pc) && pc.SDropSpare? && pc.nb.At?
    ensures SpareOk(aux, t, pc.nb) && SameClaimsButSpare(t, pc, SWriteMsg(pc.m, pc.b, pc.j))
    ensures SameSections(pc, SWriteMsg(pc.m, pc.b, pc.j))
  {
  }

  lemma DropSpareKeeps(s: State, t: nat, m: Msg, nb: nat, b: nat, j: nat)
    requires Inv(s) && t < |s.threads| && s.threads[t] == SDropSpare(m, At(nb), b, j)
    ensures Live(s.mem, nb)
    ensures Inv(State(SetBlock(s.mem, nb, Dropped(s.mem.heap[nb])), s.threads[t := SWriteMsg(m, b, j)], false,
                      SetOwner(s.aux, nb, Discarded)))
  {
    ThreadFacts(s, t);
    DropSpareDuties(s.mem, s.aux, t, s.threads[t]);
    SpareFacts(s.mem, s.aux, t, nb, SWriteMsg(m, b, j));
    ClaimSurvivesDrop(s.mem, s.aux, SetBlock(s.mem, nb, Dropped(s.mem.heap[nb])), t, m, nb, b, j);
    DropSpareStep(s, t, nb, SWriteMsg(m, b, j));
  }

  lemma DropSpareThenWrite(s: State, t: nat, c: Choice, nb: nat)
    requires Inv(s) && t < |s.threads| && s.threads[t].SDropSpare? && s.threads[t].nb == At(nb)
    ensures Inv(Step(s, t, c))
  {
    var SDropSpare(m, _, b, j) := s.threads[t];
    DropSpareKeeps(s, t, m, nb, b, j);
    DropSpareOut(s, t, c, m, nb, b, j);
  }

  lemma WriteMsgStep(s: State, t: nat, c: Choice, b: nat, j: nat, m: Msg)
    requires t < |s.threads| && s.threads[t] == SWriteMsg(m, b, j) && !s.fault
    requires |s.aux.info| == |s.mem.heap| && j < 31 && Live(s.mem, b)
    ensures Step(s, t, c) == State(SetSlot(s.mem, b, j, s.mem.heap[b].slots[j].(msg := Some(m))),
                                   s.threads[t := SSetWrite(b, j)], false,
                                   SetCell(s.aux, b, j, Cell(Half(t), s.aux.info[b].cells[j].reader)))
  {
  }

  lemma WriteMsgCell(mem: Mem, aux: Aux, t: nat, b: nat, j: nat, m: Msg)
    requires Blocks(mem, aux) && Writes(aux, b, j, By(t)) && Entry(aux, b, j, m)
    ensures Live(mem, b)
    ensures CellAt(mem, aux, b, j, mem.heap[b].slots[j].(msg := Some(m)), Cell(Half(t), aux.info[b].cells[j].reader))
  {
    CellFact(mem, aux, b, j);
  }

  lemma WriteMsgDuties(mem: Mem, aux: Aux, t: nat, b: nat, j: nat, m: Msg)
    requires SendOk(mem, aux, t, SWriteMsg(m, b, j))
    ensures DutiesButSlot(t, SWriteMsg(m, b, j), SSetWrite(b, j), b, j)
  {
  }

  lemma WriteMsg(s: State, t: nat, c: Choice)
    requires Inv(s) && t < |s.threads| && s.threads[t].SWriteMsg?
    ensures Inv(Step(s, t, c))
  {
    var SWriteMsg(m, b, j) := s.threads[t];
    assert ThreadOk(s.mem, s.aux, t, s.threads[t]);
    WriteMsgDuties(s.mem, s.aux, t, b, j, m);
    WriteMsgCell(s.mem, s.aux, t, b, j, m);
    WriteMsgStep(s, t, c, b, j, m);
    var cell := s.aux.info[b].cells[j];
    assert HeldCell(s.threads, b, j, cell);
    SlotStep(s, t, SSetWrite(b, j), b, j, s.mem.heap[b].slots[j].(msg := Some(m)), Cell(Half(t), cell.reader));
  }

  lemma SetWriteStep(s: State, t: nat, c: Choice, b: nat, j: nat)
    requires t < |s.threads| && s.threads[t] == SSetWrite(b, j) && !s.fault
    requires |s.aux.info| == |s.mem.heap| && j < 31 && Live(s.mem, b)
    ensures Step(s, t, c) == State(SetSlot(s.mem, b, j, s.mem.heap[b].slots[j].(write := true)),
                                   s.threads[t := Idle], false,
                                   SetCell(s.aux, b, j, Cell(Done, s.aux.info[b].cells[j].reader)))
  {
  }

  lemma SetWriteCell(mem: Mem, aux: Aux, t: nat, b: nat, j: nat)
    requires Blocks(mem, aux) && Writes(aux, b, j, Half(t))
    ensures Live(mem, b)
    ensures CellAt(mem, aux, b, j, mem.heap[b].slots[j].(write := true), Cell(Done, aux.info[b].cells[j].reader))
    ensures DutiesButSlot(t, SSetWrite(b, j), Idle, b, j)
  {
    CellFact(mem, aux, b, j);
  }

  lemma SetWrite(s: State, t: nat, c: Choice)
    requires Inv(s) && t < |s.threads| && s.threads[t].SSetWrite?
    ensures Inv(Step(s, t, c))
  {
    var SSetWrite(b, j) := s.threads[t];
    assert ThreadOk(s.mem, s.aux, t, s.threads[t]);
    SetWriteCell(s.mem, s.aux, t, b, j);
    SetWriteStep(s, t, c, b, j);
    var cell := s.aux.info[b].cells[j];
    assert HeldCell(s.threads, b, j, cell);
    SlotStep(s, t, Idle, b, j, s.mem.heap[b].slots[j].(write := true), Cell(Done, cell.reader));
  }

  // ---- claiming a slot: the CAS on the tail ----

  function Bumped(mem: Mem): Mem { mem.(tail := mem.tail + 2) }

  /** The CAS on the tail can succeed: `b` is the block of the tail's lap `k`, `j` its next slot. */
  ghost predicate CanClaim(mem: Mem, aux: Aux, b: nat, k: nat, j: nat) {
    && Index(mem.tail) == 32 * k + j && j < 31 && !Marked(mem.tail)
    && k < |aux.chain| && aux.chain[k] == b && InChain(aux, b, j) && aux.info[b].owner.k == k
    && aux.info[b].cells[j] == BLANK_CELL && aux.install.Vacant? && aux.info[b].link.Nobody?
    && |aux.chain| == k + 1 && !aux.info[b].token.Active?
  }

  lemma TailBlockIsLive(mem: Mem, aux: Aux, tail: nat, block: Ptr)
    requires Shape(mem, aux) && ChainOk(aux) && Blocks(mem, aux)
    requires TailCoherent(mem, aux, tail, block) && block.At?
    requires mem.tail == tail && !Marked(tail) && Offset(tail) != 31
    ensures CanClaim(mem, aux, block.id, Lap(tail), Offset(tail))
    ensures Live(mem, block.id)
  {
    CellFact(mem, aux, block.id, Offset(tail));
    CellFact(mem, aux, block.id, 30);
  }

  lemma ClaimOther(mem: Mem, aux: Aux, mem': Mem, aux': Aux, x: Block, i: Info, k: nat, j: nat)
    requires BlockOk(mem, aux, x, i) && (i.owner.Chained? ==> i.owner.k < k)
    requires Index(mem.tail) == 32 * k + j && j < 31 && Index(mem'.tail) == Index(mem.tail) + 1
    requires Index(mem'.head) == Index(mem.head)
    requires aux'.chain == aux.chain && aux'.got == aux.got && aux.log <= aux'.log
    ensures BlockOk(mem', aux', x, i)
  {
  }

  lemma ClaimCells(mem: Mem, aux: Aux, mem': Mem, aux': Aux, x: Block, i: Info, k: nat, j: nat, t: nat)
    requires BlockOk(mem, aux, x, i) && i.owner == Chained(k)
    requires Index(mem.tail) == 32 * k + j && j < 31 && Index(mem'.tail) == Index(mem.tail) + 1
    requires Index(mem'.head) == Index(mem.head) <= Index(mem.tail) && i.cells[j] == BLANK_CELL
    requires aux'.chain == aux.chain && aux'.got == aux.got && aux.log <= aux'.log
    requires |aux.log| == Pos(Index(mem.tail)) && |aux'.log| == |aux.log| + 1
    ensures var cells := i.cells[j := Cell(By(t), Nobody)];
      && TokenOk(i.(cells := cells), x.freed)
      && forall y :: 0 <= y < 31 ==>
           CellOk(x.slots[y], cells[y], i.token, y, 32 * k + y, 31 * k + y, Index(mem'.head), Index(mem'.tail), aux')
  {
    var cells := i.cells[j := Cell(By(t), Nobody)];
    forall y | 0 <= y < 31
      ensures CellOk(x.slots[y], cells[y], i.token, y, 32 * k + y, 31 * k + y, Index(mem'.head), Index(mem'.tail), aux')
    {
      assert CellOk(x.slots[y], i.cells[y], i.token, y, 32 * k + y, 31 * k + y, Index(mem.head), Index(mem.tail), aux);
    }
  }

  lemma ClaimThis(mem: Mem, aux: Aux, mem': Mem, aux': Aux, x: Block, i: Info, k: nat, j: nat, t: nat, link: Hold)
    requires BlockOk(mem, aux, x, i) && i.owner == Chained(k) && i.link.Nobody?
    requires Index(mem.tail) == 32 * k + j && j < 31 && Index(mem'.tail) == Index(mem.tail) + 1
    requires Index(mem'.head) == Index(mem.head) <= Index(mem.tail) && i.cells[j] == BLANK_CELL
    requires aux'.chain == aux.chain && aux'.got == aux.got && aux.log <= aux'.log
    requires |aux.log| == Pos(Index(mem.tail)) && |aux'.log| == |aux.log| + 1
    requires link == if j == 30 then By(t) else Nobody
    ensures BlockOk(mem', aux', x, Info(i.owner, link, i.token, i.cells[j := Cell(By(t), Nobody)]))
  {
    ClaimCells(mem, aux, mem', aux', x, i, k, j, t);
  }

  /** Only the last block of the chain sees the tail move. */
  lemma EarlierLap(aux: Aux, b: nat, k: nat, x: nat)
    requires ChainOk(aux) && |aux.chain| == k + 1 && aux.chain[k] == b
    requires x < |aux.info| && x != b && aux.info[x].owner.Chained?
    ensures aux.info[x].owner.k < k
  {
  }

  lemma ClaimBlocks(mem: Mem, aux: Aux, mem': Mem, aux': Aux, t: nat, b: nat, k: nat, j: nat)
    requires ChainOk(aux) && Blocks(mem, aux) && CanClaim(mem, aux, b, k, j)
    requires mem' == Bumped(mem) && Index(mem.head) <= Index(mem.tail)
    requires |aux'.info| == |aux.info| && aux'.info == aux.info[b := aux'.info[b]]
    requires aux'.chain == aux.chain && aux'.got == aux.got && aux.log <= aux'.log
    requires BlockOk(mem', aux', mem.heap[b], aux'.info[b])
    ensures Blocks(mem', aux')
  {
    forall x | 0 <= x < |mem.heap| && x != b ensures BlockOk(mem', aux', mem'.heap[x], aux'.info[x]) {
      if aux.info[x].owner.Chained? {
        EarlierLap(aux, b, k, x);
      }
      ClaimOther(mem, aux, mem', aux', mem.heap[x], aux.info[x], k, j);
    }
  }

  ghost function ClaimInfo(i: Info, t: nat, j: nat): Info
    requires j < 31
  {
    Info(i.owner, if j == 30 then By(t) else i.link, i.token, i.cells[j := Cell(By(t), Nobody)])
  }

  ghost function ClaimAux(aux: Aux, t: nat, b: nat, j: nat, m: Msg): Aux
    requires b < |aux.info| && j < 31
  {
    SetInfo(aux, b, ClaimInfo(aux.info[b], t, j)).(
      log := aux.log + [m], install := if j == 30 then Before(t) else aux.install)
  }

  lemma ClaimMemory(mem: Mem, aux: Aux, t: nat, b: nat, k: nat, j: nat, m: Msg)
    requires Shape(mem, aux) && ChainOk(aux) && Blocks(mem, aux) && CanClaim(mem, aux, b, k, j)
    ensures Blocks(Bumped(mem), ClaimAux(aux, t, b, j, m))
  {
    var mem', aux' := Bumped(mem), ClaimAux(aux, t, b, j, m);
    ClaimThis(mem, aux, mem', aux', mem.heap[b], aux.info[b], k, j, t, aux'.info[b].link);
    ClaimBlocks(mem, aux, mem', aux', t, b, k, j);
  }

  lemma ClaimShape(mem: Mem, aux: Aux, t: nat, b: nat, k: nat, j: nat, m: Msg)
    requires Shape(mem, aux) && CanClaim(mem, aux, b, k, j)
    ensures Shape(Bumped(mem), ClaimAux(aux, t, b, j, m))
  {
    NextIndex(mem.tail);
  }

  /** The word of the next index, which holds one more message. */
  lemma NextIndex(word: nat)
    requires Index(word) % 32 < 31
    ensures Index(word + 2) == Index(word) + 1 && (Marked(word + 2) <==> Marked(word))
    ensures Index(word + 2) / 32 == Index(word) / 32 && Index(word + 2) % 32 == Index(word) % 32 + 1
    ensures Pos(Index(word + 2)) == Pos(Index(word)) + 1
  {
  }

  lemma ClaimChain(mem: Mem, aux: Aux, t: nat, b: nat, k: nat, j: nat, m: Msg)
    requires ChainOk(aux) && CanClaim(mem, aux, b, k, j)
    ensures ChainOk(ClaimAux(aux, t, b, j, m))
  {
  }

  lemma ClaimGuar(mem: Mem, aux: Aux, t: nat, b: nat, k: nat, j: nat, m: Msg)
    requires Shape(mem, aux) && CanClaim(mem, aux, b, k, j)
    ensures Guar(mem, aux, t, Bumped(mem), ClaimAux(aux, t, b, j, m))
  {
  }

  /** The claim takes the next number: index `32 * k + j` is message `31 * k + j`. */
  lemma ClaimEntry(mem: Mem, aux: Aux, t: nat, b: nat, k: nat, j: nat, m: Msg)
    requires Shape(mem, aux) && CanClaim(mem, aux, b, k, j)
    ensures var aux' := ClaimAux(aux, t, b, j, m);
      Entry(aux', b, j, m) && Writes(aux', b, j, By(t)) && 31 * k + j == |aux.log|
  {
  }

  lemma ClaimHeld(aux: Aux, threads: seq<Pc>, t: nat, m: Msg, b: nat, j: nat, pc: Pc)
    requires Held(aux, threads) && t < |threads| && b < |aux.info| && j < 31
    requires SameDutiesBut(t, threads[t], pc, b)
    requires BlockDuty(t, pc, b, aux.info[b], ClaimInfo(aux.info[b], t, j))
    requires HeldSections(ClaimAux(aux, t, b, j, m), threads[t := pc])
    ensures Held(ClaimAux(aux, t, b, j, m), threads[t := pc])
  {
    BlockHeld'(aux, threads, t, ClaimAux(aux, t, b, j, m), pc, b);
  }

  lemma Claim(s: State, t: nat, m: Msg, b: nat, k: nat, j: nat, pc: Pc)
    requires Inv(s) && t < |s.threads| && CanClaim(s.mem, s.aux, b, k, j)
    requires SameDutiesBut(t, s.threads[t], pc, b)
    requires BlockDuty(t, pc, b, s.aux.info[b], ClaimInfo(s.aux.info[b], t, j))
    requires HeldSections(ClaimAux(s.aux, t, b, j, m), s.threads[t := pc])
    requires ThreadOk(Bumped(s.mem), ClaimAux(s.aux, t, b, j, m), t, pc)
    ensures Inv(State(Bumped(s.mem), s.threads[t := pc], false, ClaimAux(s.aux, t, b, j, m)))
  {
    ClaimShape(s.mem, s.aux, t, b, k, j, m);
    ClaimChain(s.mem, s.aux, t, b, k, j, m);
    ClaimGuar(s.mem, s.aux, t, b, k, j, m);
    ClaimMemory(s.mem, s.aux, t, b, k, j, m);
    ClaimHeld(s.aux, s.threads, t, m, b, j, pc);
    Assemble(s, t, Bumped(s.mem), ClaimAux(s.aux, t, b, j, m), pc);
  }

  lemma ClaimThread(mem: Mem, aux: Aux, t: nat, m: Msg, nb: Ptr, b: nat, k: nat, j: nat, pc: Pc)
    requires Shape(mem, aux) && CanClaim(mem, aux, b, k, j) && SpareOk(aux, t, nb)
    requires j == 30 ==> nb.At?
    requires pc == if j == 30 then SStoreTailBlock(m, nb.id, b) else SDropSpare(m, nb, b, j)
    ensures ThreadOk(Bumped(mem), ClaimAux(aux, t, b, j, m), t, pc)
  {
    ClaimEntry(mem, aux, t, b, k, j, m);
  }

  lemma ClaimDuties(t: nat, m: Msg, nb: Ptr, tail: nat, block: nat, j: nat, i: Info, pc: Pc)
    requires j < 31
    requires pc == if j == 30 && nb.At? then SStoreTailBlock(m, nb.id, block) else SDropSpare(m, nb, block, j)
    requires j == 30 ==> nb.At?
    requires !(i.owner.Private? && i.owner.t == t) && !i.token.Active?
    requires i.cells[j] == BLANK_CELL && i.link.Nobody?
    requires forall x :: 0 <= x < 31 && Pending(i.cells[x].writer) ==> i.cells[x].writer.t != t
    requires forall x :: 0 <= x < 31 && Pending(i.cells[x].reader) ==> i.cells[x].reader.t != t
    requires !i.owner.Private?
    ensures SameDutiesBut(t, SLoop(m, nb, tail, At(block)), pc, block) && Spare(pc) == nb
    ensures BlockDuty(t, pc, block, i, ClaimInfo(i, t, j))
  {
  }

  /** A thread in the retry loop holds no cell. */
  lemma LoopHoldsNoCell(s: State, t: nat, b: nat)
    requires Inv(s) && t < |s.threads| && s.threads[t].SLoop? && b < |s.aux.info|
    ensures forall x :: 0 <= x < 31 && Pending(s.aux.info[b].cells[x].writer) ==> s.aux.info[b].cells[x].writer.t != t
    ensures forall x :: 0 <= x < 31 && Pending(s.aux.info[b].cells[x].reader) ==> s.aux.info[b].cells[x].reader.t != t
  {
    forall x | 0 <= x < 31
      ensures Pending(s.aux.info[b].cells[x].writer) ==> s.aux.info[b].cells[x].writer.t != t
      ensures Pending(s.aux.info[b].cells[x].reader) ==> s.aux.info[b].cells[x].reader.t != t
    {
      assert HeldCell(s.threads, b, x, s.aux.info[b].cells[x]);
    }
  }

  lemma ClaimOut(s: State, t: nat, c: Choice, m: Msg, nb: Ptr, tail: nat, b: nat)
    requires t < |s.threads| && s.threads[t] == SLoop(m, nb, tail, At(b)) && !s.fault
    requires !Marked(tail) && Offset(tail) != 31 && (Offset(tail) == 30 ==> nb.At?)
    requires s.mem.tail == tail && !c.Spurious? && b < |s.aux.info| && s.aux.info[b].cells[Offset(tail)].reader.Nobody?
    ensures Step(s, t, c) ==
      State(Bumped(s.mem),
            s.threads[t := if Offset(tail) == 30 then SStoreTailBlock(m, nb.id, b) else SDropSpare(m, nb, b, Offset(tail))],
            false, ClaimAux(s.aux, t, b, Offset(tail), m))
  {
  }

  lemma LoopClaimsFacts(mem: Mem, aux: Aux, t: nat, m: Msg, nb: Ptr, tail: nat, b: nat)
    requires Shape(mem, aux) && ChainOk(aux) && Blocks(mem, aux) && SendOk(mem, aux, t, SLoop(m, nb, tail, At(b)))
    requires !Marked(tail) && Offset(tail) != 31 && !(Offset(tail) == 30 && nb.Null?) && mem.tail == tail
    ensures CanClaim(mem, aux, b, Lap(tail), Offset(tail))
    ensures
      var pc := if Offset(tail) == 30 then SStoreTailBlock(m, nb.id, b) else SDropSpare(m, nb, b, Offset(tail));
      ThreadOk(Bumped(mem), ClaimAux(aux, t, b, Offset(tail), m), t, pc)
  {
    TailBlockIsLive(mem, aux, tail, At(b));
    ClaimThread(mem, aux, t, m, nb, b, Lap(tail), Offset(tail),
                if Offset(tail) == 30 then SStoreTailBlock(m, nb.id, b) else SDropSpare(m, nb, b, Offset(tail)));
  }

  lemma LoopClaimsKeeps(s: State, t: nat, m: Msg, nb: Ptr, tail: nat, b: nat)
    requires Inv(s) && t < |s.threads| && s.threads[t] == SLoop(m, nb, tail, At(b))
    requires !Marked(tail) && Offset(tail) != 31 && !(Offset(tail) == 30 && nb.Null?) && s.mem.tail == tail
    ensures b < |s.aux.info| && s.aux.info[b].cells[Offset(tail)].reader.Nobody?
    ensures
      var pc := if Offset(tail) == 30 then SStoreTailBlock(m, nb.id, b) else SDropSpare(m, nb, b, Offset(tail));
      Inv(State(Bumped(s.mem), s.threads[t := pc], false, ClaimAux(s.aux, t, b, Offset(tail), m)))
  {
    var k, j := Lap(tail), Offset(tail);
    var pc := if j == 30 then SStoreTailBlock(m, nb.id, b) else SDropSpare(m, nb, b, j);
    ThreadFacts(s, t);
    LoopClaimsFacts(s.mem, s.aux, t, m, nb, tail, b);
    LoopHoldsNoCell(s, t, b);
    ClaimDuties(t, m, nb, tail, b, j, s.aux.info[b], pc);
    ClaimSections(s.aux, s.threads, t, m, nb, tail, b, j);
    Claim(s, t, m, b, k, j, pc);
  }

  lemma ClaimSections(aux: Aux, threads: seq<Pc>, t: nat, m: Msg, nb: Ptr, tail: nat, b: nat, j: nat)
    requires HeldSections(aux, threads) && t < |threads| && threads[t] == SLoop(m, nb, tail, At(b)) && aux.install.Vacant?
    requires b < |aux.info| && j < 31 && (j == 30 ==> nb.At?)
    ensures
      var pc := if j == 30 then SStoreTailBlock(m, nb.id, b) else SDropSpare(m, nb, b, j);
      HeldSections(ClaimAux(aux, t, b, j, m), threads[t := pc])
  {
  }

  lemma LoopClaims(s: State, t: nat, c: Choice)
    requires Inv(s) && t < |s.threads| && s.threads[t].SLoop?
    requires var SLoop(_, nb, tail, block) := s.threads[t];
      && !Marked(tail) && Offset(tail) != 31 && !(Offset(tail) == 30 && nb.Null?)
      && block.At? && s.mem.tail == tail && !c.Spurious?
    ensures Inv(Step(s, t, c))
  {
    var SLoop(m, nb, tail, block) := s.threads[t];
    LoopClaimsKeeps(s, t, m, nb, tail, block.id);
    ClaimOut(s, t, c, m, nb, tail, block.id);
  }

  // ---- installing the next block ----

  function InstalledMem(mem: Mem, spare: nat): Mem { mem.(tailBlock := At(spare)) }

  function InstalledAux(aux: Aux, t: nat, spare: nat): Aux
  {
    SetOwner(aux, spare, Chained(|aux.chain|)).(chain := aux.chain + [spare], install := After(t))
  }

  ghost predicate CanInstall(mem: Mem, aux: Aux, t: nat, spare: nat) {
    && aux.install == Before(t) && SpareOk(aux, t, At(spare))
  }

  lemma InstallShape(mem: Mem, aux: Aux, t: nat, spare: nat)
    requires Shape(mem, aux) && ChainOk(aux) && CanInstall(mem, aux, t, spare)
    ensures Shape(InstalledMem(mem, spare), InstalledAux(aux, t, spare)) && ChainOk(InstalledAux(aux, t, spare))
  {
  }

  lemma InstallGuar(mem: Mem, aux: Aux, t: nat, spare: nat)
    requires Shape(mem, aux) && CanInstall(mem, aux, t, spare)
    ensures Guar(mem, aux, t, InstalledMem(mem, spare), InstalledAux(aux, t, spare))
  {
  }

  lemma InstallOther(mem: Mem, aux: Aux, mem': Mem, aux': Aux, x: Block, i: Info)
    requires BlockOk(mem, aux, x, i) && aux.chain <= aux'.chain
    requires Index(mem'.head) == Index(mem.head) && Index(mem'.tail) == Index(mem.tail)
    requires aux'.log == aux.log && aux'.got == aux.got
    ensures BlockOk(mem', aux', x, i)
  {
  }

  /** A spare block becomes the empty block of the lap after the tail's. */
  lemma InstallThis(mem: Mem, aux: Aux, x: Block, i: Info, k: nat)
    requires IsNew(x, i) && !x.freed && i.owner == Chained(k)
    requires Index(mem.tail) <= 32 * k && Index(mem.head) <= Index(mem.tail)
    requires forall n :: n in aux.got ==> n < 31 * k
    ensures BlockOk(mem, aux, x, i)
  {
    forall j | 0 <= j < 31
      ensures CellOk(x.slots[j], i.cells[j], i.token, j, 32 * k + j, 31 * k + j, Index(mem.head), Index(mem.tail), aux)
    {
      assert 31 * k + j !in aux.got;
    }
  }

  lemma InstallBlocks(mem: Mem, aux: Aux, t: nat, spare: nat)
    requires Shape(mem, aux) && Blocks(mem, aux) && CanInstall(mem, aux, t, spare)
    ensures Blocks(InstalledMem(mem, spare), InstalledAux(aux, t, spare))
  {
    var mem', aux' := InstalledMem(mem, spare), InstalledAux(aux, t, spare);
    forall x | 0 <= x < |mem.heap| && x != spare ensures BlockOk(mem', aux', mem'.heap[x], aux'.info[x]) {
      InstallOther(mem, aux, mem', aux', mem.heap[x], aux.info[x]);
    }
    assert BlockOk(mem, aux, mem.heap[spare], aux.info[spare]);
    InstallThis(mem', aux', mem.heap[spare], aux'.info[spare], |aux.chain|);
  }

  lemma InstallHeld(aux: Aux, threads: seq<Pc>, t: nat, m: Msg, spare: nat, b: nat)
    requires Held(aux, threads) && t < |threads| && spare < |aux.info| && aux.install == Before(t)
    requires threads[t] == SStoreTailBlock(m, spare, b) && aux.info[spare].owner == Private(t)
    ensures Held(InstalledAux(aux, t, spare), threads[t := SBumpTail(m, spare, b)])
  {
    var aux', pc := InstalledAux(aux, t, spare), SBumpTail(m, spare, b);
    forall x | 0 <= x < |aux.info| ensures HeldBlock(threads[t := pc], x, aux'.info[x]) {
      assert HeldBlock(threads, x, aux.info[x]);
    }
    forall x, j | 0 <= x < |aux.info| && 0 <= j < 31 ensures HeldCell(threads[t := pc], x, j, aux'.info[x].cells[j]) {
      assert HeldCell(threads, x, j, aux.info[x].cells[j]);
    }
  }

  lemma InstallThread(mem: Mem, aux: Aux, t: nat, m: Msg, spare: nat, b: nat)
    requires Shape(mem, aux) && ChainOk(aux) && SendOk(mem, aux, t, SStoreTailBlock(m, spare, b))
    ensures ThreadOk(InstalledMem(mem, spare), InstalledAux(aux, t, spare), t, SBumpTail(m, spare, b))
  {
  }

  lemma StoreTailBlock(s: State, t: nat, c: Choice)
    requires Inv(s) && t < |s.threads| && s.threads[t].SStoreTailBlock?
    ensures Inv(Step(s, t, c))
  {
    var SStoreTailBlock(m, spare, b) := s.threads[t];
    assert ThreadOk(s.mem, s.aux, t, s.threads[t]);
    InstallShape(s.mem, s.aux, t, spare);
    InstallGuar(s.mem, s.aux, t, spare);
    InstallBlocks(s.mem, s.aux, t, spare);
    InstallHeld(s.aux, s.threads, t, m, spare, b);
    InstallThread(s.mem, s.aux, t, m, spare, b);
    Assemble(s, t, InstalledMem(s.mem, spare), InstalledAux(s.aux, t, spare), SBumpTail(m, spare, b));
  }

  function Left(aux: Aux): Aux { aux.(install := Vacant) }

  lemma BumpShape(mem: Mem, aux: Aux, t: nat)
    requires Shape(mem, aux) && ChainOk(aux) && aux.install == After(t)
    ensures Shape(Bumped(mem), Left(aux)) && ChainOk(Left(aux)) && Guar(mem, aux, t, Bumped(mem), Left(aux))
  {
  }

  lemma BumpBlock(mem: Mem, aux: Aux, mem': Mem, aux': Aux, x: Block, i: Info)
    requires BlockOk(mem, aux, x, i)
    requires Index(mem.tail) % 32 == 31 && Index(mem'.tail) == Index(mem.tail) + 1 && Index(mem'.head) == Index(mem.head)
    requires aux'.chain == aux.chain && aux'.log == aux.log && aux'.got == aux.got
    ensures BlockOk(mem', aux', x, i)
  {
  }

  lemma BumpBlocks(mem: Mem, aux: Aux)
    requires Blocks(mem, aux) && Index(mem.tail) % 32 == 31
    ensures Blocks(Bumped(mem), Left(aux))
  {
    forall x | 0 <= x < |mem.heap| ensures BlockOk(Bumped(mem), Left(aux), mem.heap[x], aux.info[x]) {
      BumpBlock(mem, aux, Bumped(mem), Left(aux), mem.heap[x], aux.info[x]);
    }
  }

  lemma BumpHeld(aux: Aux, threads: seq<Pc>, t: nat, m: Msg, spare: nat, b: nat)
    requires Held(aux, threads) && t < |threads| && aux.install == After(t)
    requires threads[t] == SBumpTail(m, spare, b)
    ensures Held(Left(aux), threads[t := SStoreNext(m, spare, b)])
  {
    SectionHeld(aux, threads, t, Left(aux), SStoreNext(m, spare, b));
  }

  lemma BumpThread(mem: Mem, aux: Aux, t: nat, m: Msg, spare: nat, b: nat)
    requires SendOk(mem, aux, t, SBumpTail(m, spare, b))
    ensures ThreadOk(Bumped(mem), Left(aux), t, SStoreNext(m, spare, b))
  {
  }

  lemma BumpTail(s: State, t: nat, c: Choice)
    requires Inv(s) && t < |s.threads| && s.threads[t].SBumpTail?
    ensures Inv(Step(s, t, c))
  {
    var SBumpTail(m, spare, b) := s.threads[t];
    assert ThreadOk(s.mem, s.aux, t, s.threads[t]);
    BumpShape(s.mem, s.aux, t);
    BumpBlocks(s.mem, s.aux);
    BumpHeld(s.aux, s.threads, t, m, spare, b);
    BumpThread(s.mem, s.aux, t, m, spare, b);
    Assemble(s, t, Bumped(s.mem), Left(s.aux), SStoreNext(m, spare, b));
  }

  // ---- storing `next` ----

  function LinkedBlock(x: Block, spare: nat): Block { x.(next := At(spare)) }

  function LinkedInfo(i: Info): Info { i.(link := Done) }

  lemma LinkFacts(mem: Mem, aux: Aux, t: nat, m: Msg, spare: nat, b: nat)
    requires Blocks(mem, aux) && SendOk(mem, aux, t, SStoreNext(m, spare, b))
    ensures Live(mem, b)
    ensures BlockOk(mem, aux, LinkedBlock(mem.heap[b], spare), LinkedInfo(aux.info[b]))
    ensures InfoGuar(aux.info[b], LinkedInfo(aux.info[b]), t)
    ensures ThreadOk(SetBlock(mem, b, LinkedBlock(mem.heap[b], spare)), SetInfo(aux, b, LinkedInfo(aux.info[b])), t,
                     SWriteMsg(m, b, 30))
  {
    CellFact(mem, aux, b, 30);
    assert BlockOk(mem, aux, mem.heap[b], aux.info[b]);
  }

  lemma LinkDuties(aux: Aux, threads: seq<Pc>, t: nat, m: Msg, spare: nat, b: nat)
    requires Held(aux, threads) && t < |threads| && threads[t] == SStoreNext(m, spare, b)
    requires b < |aux.info|
    ensures SameDutiesBut(t, threads[t], SWriteMsg(m, b, 30), b)
    ensures BlockDuty(t, SWriteMsg(m, b, 30), b, aux.info[b], LinkedInfo(aux.info[b]))
  {
    assert HeldBlock(threads, b, aux.info[b]);
    forall j | 0 <= j < 31 ensures CellDuty(t, SWriteMsg(m, b, 30), b, j, aux.info[b].cells[j], aux.info[b].cells[j]) {
      assert HeldCell(threads, b, j, aux.info[b].cells[j]);
    }
  }

  lemma StoreNextKeeps(s: State, t: nat, m: Msg, spare: nat, b: nat)
    requires Inv(s) && t < |s.threads| && s.threads[t] == SStoreNext(m, spare, b)
    ensures Live(s.mem, b) && b < |s.aux.info|
    ensures Inv(State(SetBlock(s.mem, b, LinkedBlock(s.mem.heap[b], spare)), s.threads[t := SWriteMsg(m, b, 30)], false,
                      SetInfo(s.aux, b, LinkedInfo(s.aux.info[b]))))
  {
    ThreadFacts(s, t);
    LinkFacts(s.mem, s.aux, t, m, spare, b);
    LinkDuties(s.aux, s.threads, t, m, spare, b);
    BlockStep(s, t, SWriteMsg(m, b, 30), b, LinkedBlock(s.mem.heap[b], spare), LinkedInfo(s.aux.info[b]));
  }

  lemma StoreNextOut(s: State, t: nat, c: Choice, m: Msg, spare: nat, b: nat)
    requires t < |s.threads| && s.threads[t] == SStoreNext(m, spare, b) && !s.fault && Live(s.mem, b) && b < |s.aux.info|
    ensures Step(s, t, c) ==
      State(SetBlock(s.mem, b, LinkedBlock(s.mem.heap[b], spare)), s.threads[t := SWriteMsg(m, b, 30)], false,
            SetInfo(s.aux, b, LinkedInfo(s.aux.info[b])))
  {
  }

  lemma StoreNext(s: State, t: nat, c: Choice)
    requires Inv(s) && t < |s.threads| && s.threads[t].SStoreNext?
    ensures Inv(Step(s, t, c))
  {
    var SStoreNext(m, spare, b) := s.threads[t];
    StoreNextKeeps(s, t, m, spare, b);
    StoreNextOut(s, t, c, m, spare, b);
  }

  predicate Sending(pc: Pc) {
    || pc.SLoadTail? || pc.SLoadBlock? || pc.SLoop? || pc.SStoreHead? || pc.SDropSpare?
    || pc.SStoreTailBlock? || pc.SBumpTail? || pc.SStoreNext? || pc.SWriteMsg? || pc.SSetWrite?
  }

  lemma LoopKeeps(s: State, t: nat, c: Choice)
    requires Inv(s) && t < |s.threads| && s.threads[t].SLoop?
    ensures Inv(Step(s, t, c))
  {
    var SLoop(m, nb, tail, block) := s.threads[t];
    if Marked(tail) {
      LoopMarked(s, t, c);
    } else if Offset(tail) == 31 {
      LoopReload(s, t, c);
    } else if Offset(tail) == 30 && nb.Null? {
      LoopAlloc(s, t, c);
    } else if block.Null? {
      if s.mem.tailBlock.Null? { LoopWins(s, t, c); } else { LoopLoses(s, t, c); }
    } else if s.mem.tail != tail || c.Spurious? {
      LoopRetry(s, t, c);
    } else {
      LoopClaims(s, t, c);
    }
  }

  lemma SendKeeps(s: State, t: nat, c: Choice)
    requires Inv(s) && t < |s.threads| && Sending(s.threads[t])
    ensures Inv(Step(s, t, c))
  {
    match s.threads[t]
    case SLoadTail(_, _) => Load(s, t, c);
    case SLoadBlock(_, _, _) => Load(s, t, c);
    case SLoop(_, _, _, _) => LoopKeeps(s, t, c);
    case SStoreHead(_, _, _, _) => StoreHead(s, t, c);
    case SDropSpare(_, _, _, _) => DropSpareAfterClaim(s, t, c);
    case SStoreTailBlock(_, _, _) => StoreTailBlock(s, t, c);
    case SBumpTail(_, _, _) => BumpTail(s, t, c);
    case SStoreNext(_, _, _) => StoreNext(s, t, c);
    case SWriteMsg(_, _, _) => WriteMsg(s, t, c);
    case SSetWrite(_, _) => SetWrite(s, t, c);
  }
}
