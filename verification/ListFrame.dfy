/** How the invariant is carried over a step, by what the step changes. */
module ListFrame {
  import opened Common
  import opened ListProtocol
  import opened ListInvariant

  /** Thread `t` moves from `p` to `p'` and still answers for the same claims. */
  ghost predicate SameDuties(t: nat, p: Pc, p': Pc) {
    && Spare(p) == Spare(p') && LinkDuty(p) == LinkDuty(p')
    && (forall b, j :: WriterDuty(p, t, b, j) == WriterDuty(p', t, b, j))
    && (forall b, j :: ReaderDuty(p, t, b, j) == ReaderDuty(p', t, b, j))
    && (forall b :: DestroyDuty(p, t, b) == DestroyDuty(p', t, b))
    && SameSections(p, p')
  }

  predicate SameSections(p: Pc, p': Pc) {
    && (p.SStoreHead? <==> p'.SStoreHead?)
    && (p.SStoreTailBlock? <==> p'.SStoreTailBlock?)
    && (p.SBumpTail? <==> p'.SBumpTail?)
    && (BeforeAdvance(p) <==> BeforeAdvance(p'))
    && (p.RStoreIndex? <==> p'.RStoreIndex?)
  }

  lemma HeldLocal(aux: Aux, threads: seq<Pc>, t: nat, pc: Pc)
    requires Held(aux, threads) && t < |threads| && SameDuties(t, threads[t], pc)
    ensures Held(aux, threads[t := pc])
  {
    var threads' := threads[t := pc];
    forall b | 0 <= b < |aux.info| ensures HeldBlock(threads', b, aux.info[b]) {
      assert HeldBlock(threads, b, aux.info[b]);
    }
    forall b, j | 0 <= b < |aux.info| && 0 <= j < 31 ensures HeldCell(threads', b, j, aux.info[b].cells[j]) {
      assert HeldCell(threads, b, j, aux.info[b].cells[j]);
    }
  }

  lemma GuarRefl(mem: Mem, aux: Aux, t: nat)
    ensures Guar(mem, aux, t, mem, aux)
  {
  }

  /** A step that touches no shared memory and no claim. */
  ghost predicate Local(mem: Mem, aux: Aux, t: nat, pc: Pc, c: Choice) {
    var out := MemStep(mem, pc, c);
    && out.mem == mem && !out.fault && Annotate(mem, aux, t, pc, out) == aux
    && ThreadOk(mem, aux, t, out.pc) && SameDuties(t, pc, out.pc)
  }

  /** What the invariant says of one thread. */
  lemma ThreadFacts(s: State, t: nat)
    requires Inv(s) && t < |s.threads|
    ensures SendOk(s.mem, s.aux, t, s.threads[t]) && RecvOk(s.mem, s.aux, t, s.threads[t])
  {
    assert ThreadOk(s.mem, s.aux, t, s.threads[t]);
  }

  lemma LocalStep(s: State, t: nat, c: Choice)
    requires Inv(s) && t < |s.threads| && Local(s.mem, s.aux, t, s.threads[t], c)
    ensures Inv(Step(s, t, c))
  {
    HeldLocal(s.aux, s.threads, t, Step(s, t, c).threads[t]);
    GuarRefl(s.mem, s.aux, t);
    ThreadsStep(s.mem, s.aux, s.threads, t, s.mem, s.aux, Step(s, t, c).threads[t]);
  }

  lemma Assemble(s: State, t: nat, mem': Mem, aux': Aux, pc: Pc)
    requires Inv(s) && t < |s.threads|
    requires Shape(mem', aux') && ChainOk(aux') && Blocks(mem', aux') && Guar(s.mem, s.aux, t, mem', aux')
    requires Held(aux', s.threads[t := pc]) && ThreadOk(mem', aux', t, pc)
    ensures Inv(State(mem', s.threads[t := pc], false, aux'))
  {
    ThreadsStep(s.mem, s.aux, s.threads, t, mem', aux', pc);
  }

  // ---- steps that change one block ----

  /** Outside block `b` nothing changes, and block `b` is still in order. */
  lemma BlocksOne(mem: Mem, aux: Aux, mem': Mem, aux': Aux, b: nat)
    requires Blocks(mem, aux) && b < |mem.heap|
    requires |mem'.heap| == |mem.heap| && |aux'.info| == |aux.info|
    requires mem'.heap == mem.heap[b := mem'.heap[b]] && aux'.info == aux.info[b := aux'.info[b]]
    requires Index(mem'.head) == Index(mem.head) && Index(mem'.tail) == Index(mem.tail)
    requires aux'.chain == aux.chain && aux'.log == aux.log && aux'.got == aux.got
    requires BlockOk(mem', aux', mem'.heap[b], aux'.info[b])
    ensures Blocks(mem', aux')
  {
    forall x | 0 <= x < |mem.heap| && x != b ensures BlockOk(mem', aux', mem'.heap[x], aux'.info[x]) {
      assert BlockOk(mem, aux, mem.heap[x], aux.info[x]);
    }
  }

  /** What thread `t` answers for outside block `b` it still answers for. */
  ghost predicate SameDutiesBut(t: nat, p: Pc, p': Pc, b: nat) {
    && (forall x :: x != b && Spare(p) == At(x) ==> Spare(p') == At(x))
    && (forall x :: x != b && LinkDuty(p) == At(x) ==> LinkDuty(p') == At(x))
    && (forall x, j :: x != b && WriterDuty(p, t, x, j) != Nobody ==> WriterDuty(p', t, x, j) == WriterDuty(p, t, x, j))
    && (forall x, j :: x != b && ReaderDuty(p, t, x, j) != Nobody ==> ReaderDuty(p', t, x, j) == ReaderDuty(p, t, x, j))
    && (forall x :: x != b && DestroyDuty(p, t, x) != Unborn ==> DestroyDuty(p', t, x) == DestroyDuty(p, t, x))
  }

  lemma HeldOne(aux: Aux, threads: seq<Pc>, t: nat, aux': Aux, pc: Pc, b: nat)
    requires Held(aux, threads) && t < |threads| && b < |aux.info|
    requires |aux'.info| == |aux.info| && aux'.info == aux.info[b := aux'.info[b]]
    requires SameDutiesBut(t, threads[t], pc, b)
    requires HeldSections(aux', threads[t := pc])
    requires HeldBlock(threads[t := pc], b, aux'.info[b])
    requires forall j :: 0 <= j < 31 ==> HeldCell(threads[t := pc], b, j, aux'.info[b].cells[j])
    ensures Held(aux', threads[t := pc])
  {
    var threads' := threads[t := pc];
    forall x | 0 <= x < |aux.info| && x != b ensures HeldBlock(threads', x, aux'.info[x]) {
      assert HeldBlock(threads, x, aux.info[x]);
    }
    forall x, j | 0 <= x < |aux.info| && x != b && 0 <= j < 31
      ensures HeldCell(threads', x, j, aux'.info[x].cells[j])
    {
      assert HeldCell(threads, x, j, aux.info[x].cells[j]);
    }
  }

  /** Block `b` keeps everything but one cell. */
  lemma HeldAfter(aux: Aux, threads: seq<Pc>, t: nat, pc: Pc, b: nat, i': Info, j: nat)
    requires Held(aux, threads) && t < |threads| && b < |aux.info| && j < 31
    requires forall x :: 0 <= x < 31 && x != j ==> i'.cells[x] == aux.info[b].cells[x]
    requires forall x :: x != j ==> WriterDuty(threads[t], t, b, x) == WriterDuty(pc, t, b, x)
    requires forall x :: x != j ==> ReaderDuty(threads[t], t, b, x) == ReaderDuty(pc, t, b, x)
    requires HeldCell(threads[t := pc], b, j, i'.cells[j])
    ensures forall x :: 0 <= x < 31 ==> HeldCell(threads[t := pc], b, x, i'.cells[x])
  {
    forall x | 0 <= x < 31 && x != j ensures HeldCell(threads[t := pc], b, x, i'.cells[x]) {
      assert HeldCell(threads, b, x, aux.info[b].cells[x]);
    }
  }

  /** A cell changed by thread `t` from `c` to `c'` is claimed by `t`, or by whom it was. */
  ghost predicate CellDuty(t: nat, pc: Pc, b: nat, j: nat, c: Cell, c': Cell) {
    && (Pending(c'.writer) ==>
          (if c'.writer.t == t then c'.writer == WriterDuty(pc, t, b, j) else c'.writer == c.writer))
    && (Pending(c'.reader) ==>
          (if c'.reader.t == t then c'.reader == ReaderDuty(pc, t, b, j) else c'.reader == c.reader))
  }

  ghost predicate BlockDuty(t: nat, pc: Pc, b: nat, i: Info, i': Info) {
    && (i'.owner.Private? ==> i'.owner == i.owner && (i.owner.t == t ==> Spare(pc) == At(b)))
    && (i'.link.By? ==> if i'.link.t == t then LinkDuty(pc) == At(b) else i'.link == i.link)
    && (i'.token.Active? ==>
          if i'.token.t == t then DestroyDuty(pc, t, b) == i'.token else i'.token == i.token)
    && (forall j :: 0 <= j < 31 ==> CellDuty(t, pc, b, j, i.cells[j], i'.cells[j]))
  }

  lemma BlockHeld'(aux: Aux, threads: seq<Pc>, t: nat, aux': Aux, pc: Pc, b: nat)
    requires Held(aux, threads) && t < |threads| && b < |aux.info|
    requires |aux'.info| == |aux.info| && aux'.info == aux.info[b := aux'.info[b]]
    requires SameDutiesBut(t, threads[t], pc, b)
    requires HeldSections(aux', threads[t := pc])
    requires BlockDuty(t, pc, b, aux.info[b], aux'.info[b])
    ensures Held(aux', threads[t := pc])
  {
    assert HeldBlock(threads, b, aux.info[b]);
    forall j | 0 <= j < 31 ensures HeldCell(threads[t := pc], b, j, aux'.info[b].cells[j]) {
      assert HeldCell(threads, b, j, aux.info[b].cells[j]);
    }
    HeldOne(aux, threads, t, aux', pc, b);
  }

  lemma BlockHeld(aux: Aux, threads: seq<Pc>, t: nat, pc: Pc, b: nat, i: Info)
    requires Held(aux, threads) && t < |threads| && b < |aux.info|
    requires SameDutiesBut(t, threads[t], pc, b) && SameSections(threads[t], pc)
    requires BlockDuty(t, pc, b, aux.info[b], i)
    ensures Held(SetInfo(aux, b, i), threads[t := pc])
  {
    BlockHeld'(aux, threads, t, SetInfo(aux, b, i), pc, b);
  }

  lemma BlockChain(mem: Mem, aux: Aux, b: nat, x: Block, i: Info)
    requires Shape(mem, aux) && ChainOk(aux) && b < |aux.info|
    requires i.owner == aux.info[b].owner || (aux.info[b].owner.Private? && i.owner.Discarded?)
    ensures Shape(SetBlock(mem, b, x), SetInfo(aux, b, i)) && ChainOk(SetInfo(aux, b, i))
  {
  }

  lemma BlockBlocks(mem: Mem, aux: Aux, b: nat, x: Block, i: Info)
    requires Blocks(mem, aux) && b < |aux.info| && BlockOk(mem, aux, x, i)
    ensures Blocks(SetBlock(mem, b, x), SetInfo(aux, b, i))
  {
    BlockFrame(mem, aux, SetBlock(mem, b, x), SetInfo(aux, b, i), x, i);
    BlocksOne(mem, aux, SetBlock(mem, b, x), SetInfo(aux, b, i), b);
  }

  lemma BlockGuar(mem: Mem, aux: Aux, t: nat, b: nat, x: Block, i: Info)
    requires |aux.info| == |mem.heap| && b < |aux.info| && InfoGuar(aux.info[b], i, t)
    ensures Guar(mem, aux, t, SetBlock(mem, b, x), SetInfo(aux, b, i))
  {
  }

  /** The whole argument for a step that changes one block. */
  lemma BlockStep(s: State, t: nat, pc: Pc, b: nat, x: Block, i: Info)
    requires Inv(s) && t < |s.threads| && b < |s.aux.info|
    requires i.owner == s.aux.info[b].owner || (s.aux.info[b].owner.Private? && i.owner.Discarded?)
    requires BlockOk(s.mem, s.aux, x, i)
    requires InfoGuar(s.aux.info[b], i, t)
    requires SameDutiesBut(t, s.threads[t], pc, b) && BlockDuty(t, pc, b, s.aux.info[b], i)
    requires SameSections(s.threads[t], pc)
    requires ThreadOk(SetBlock(s.mem, b, x), SetInfo(s.aux, b, i), t, pc)
    ensures Inv(State(SetBlock(s.mem, b, x), s.threads[t := pc], false, SetInfo(s.aux, b, i)))
  {
    var mem', aux' := SetBlock(s.mem, b, x), SetInfo(s.aux, b, i);
    BlockChain(s.mem, s.aux, b, x, i);
    BlockBlocks(s.mem, s.aux, b, x, i);
    BlockHeld(s.aux, s.threads, t, pc, b, i);
    BlockGuar(s.mem, s.aux, t, b, x, i);
    ThreadsStep(s.mem, s.aux, s.threads, t, mem', aux', pc);
  }

  // ---- steps that change one slot ----

  ghost predicate CellAt(mem: Mem, aux: Aux, b: nat, j: nat, x: Slot, c: Cell)
    requires InChain(aux, b, j)
  {
    CellOk(x, c, aux.info[b].token, j, 32 * aux.info[b].owner.k + j, 31 * aux.info[b].owner.k + j,
           Index(mem.head), Index(mem.tail), aux)
  }

  lemma CellFact(mem: Mem, aux: Aux, b: nat, j: nat)
    requires Blocks(mem, aux) && InChain(aux, b, j)
    ensures CellAt(mem, aux, b, j, mem.heap[b].slots[j], aux.info[b].cells[j])
    ensures TokenOk(aux.info[b], mem.heap[b].freed)
    ensures LinkOk(mem.heap[b].next, aux.info[b].link, aux.info[b].owner.k, Index(mem.tail), aux.chain)
  {
    assert BlockOk(mem, aux, mem.heap[b], aux.info[b]);
  }

  /** A block is not freed before each of its readers is done. */
  lemma LiveWhileRead(mem: Mem, aux: Aux, b: nat, j: nat)
    requires Blocks(mem, aux) && InChain(aux, b, j) && !aux.info[b].cells[j].reader.Done?
    ensures Live(mem, b)
  {
    CellFact(mem, aux, b, j);
  }

  lemma SlotBlockOk(mem: Mem, aux: Aux, x: Block, i: Info, j: nat, slot: Slot, c: Cell)
    requires BlockOk(mem, aux, x, i) && i.owner.Chained? && j < 31
    requires CellOk(slot, c, i.token, j, 32 * i.owner.k + j, 31 * i.owner.k + j, Index(mem.head), Index(mem.tail), aux)
    requires i.cells[j].reader.Done? ==> c.reader.Done?
    requires j == 30 ==> c.reader == i.cells[j].reader
    ensures BlockOk(mem, aux, Block(x.next, x.slots[j := slot], x.freed), Info(i.owner, i.link, i.token, i.cells[j := c]))
  {
  }

  lemma BlockFrame(mem: Mem, aux: Aux, mem': Mem, aux': Aux, x: Block, i: Info)
    requires BlockOk(mem, aux, x, i)
    requires Index(mem'.head) == Index(mem.head) && Index(mem'.tail) == Index(mem.tail)
    requires aux'.chain == aux.chain && aux'.log == aux.log && aux'.got == aux.got
    ensures BlockOk(mem', aux', x, i)
  {
  }

  lemma SlotBlocks(mem: Mem, aux: Aux, b: nat, j: nat, x: Slot, c: Cell)
    requires Blocks(mem, aux) && InChain(aux, b, j)
    requires CellAt(mem, aux, b, j, x, c)
    requires aux.info[b].cells[j].reader.Done? ==> c.reader.Done?
    requires j == 30 ==> c.reader == aux.info[b].cells[j].reader
    ensures Blocks(SetSlot(mem, b, j, x), SetCell(aux, b, j, c))
  {
    var mem', aux' := SetSlot(mem, b, j, x), SetCell(aux, b, j, c);
    SlotBlockOk(mem, aux, mem.heap[b], aux.info[b], j, x, c);
    BlockFrame(mem, aux, mem', aux', mem'.heap[b], aux'.info[b]);
    BlocksOne(mem, aux, mem', aux', b);
  }

  /** The duties of thread `t` are the same before and after, except at slot `j` of block `b`. */
  ghost predicate DutiesButSlot(t: nat, p: Pc, p': Pc, b: nat, j: nat) {
    && Spare(p) == Spare(p') && LinkDuty(p) == LinkDuty(p')
    && (forall x, y :: x != b || y != j ==> WriterDuty(p, t, x, y) == WriterDuty(p', t, x, y))
    && (forall x, y :: x != b || y != j ==> ReaderDuty(p, t, x, y) == ReaderDuty(p', t, x, y))
    && (forall x :: DestroyDuty(p, t, x) == DestroyDuty(p', t, x))
    && SameSections(p, p')
  }

  lemma SlotHeld(aux: Aux, threads: seq<Pc>, t: nat, pc: Pc, b: nat, j: nat, c: Cell)
    requires Held(aux, threads) && t < |threads| && b < |aux.info| && j < 31
    requires DutiesButSlot(t, threads[t], pc, b, j)
    requires CellDuty(t, pc, b, j, aux.info[b].cells[j], c)
    ensures Held(SetCell(aux, b, j, c), threads[t := pc])
  {
    var aux' := SetCell(aux, b, j, c);
    assert HeldBlock(threads, b, aux.info[b]);
    assert HeldCell(threads, b, j, aux.info[b].cells[j]);
    HeldAfter(aux, threads, t, pc, b, aux'.info[b], j);
    HeldOne(aux, threads, t, aux', pc, b);
  }

  lemma SlotGuar(mem: Mem, aux: Aux, t: nat, b: nat, j: nat, x: Slot, c: Cell)
    requires |aux.info| == |mem.heap| && b < |aux.info| && j < 31
    requires CellGuar(aux.info[b].cells[j], c, t)
    ensures Guar(mem, aux, t, SetSlot(mem, b, j, x), SetCell(aux, b, j, c))
  {
  }

  lemma SlotShape(mem: Mem, aux: Aux, b: nat, j: nat, x: Slot, c: Cell)
    requires Shape(mem, aux) && ChainOk(aux) && InChain(aux, b, j)
    ensures Shape(SetSlot(mem, b, j, x), SetCell(aux, b, j, c)) && ChainOk(SetCell(aux, b, j, c))
  {
  }

  /** The whole argument for a step that changes one slot, and one cell of one block. */
  lemma SlotStep(s: State, t: nat, pc: Pc, b: nat, j: nat, x: Slot, cell: Cell)
    requires Inv(s) && t < |s.threads| && InChain(s.aux, b, j)
    requires DutiesButSlot(t, s.threads[t], pc, b, j)
    requires CellDuty(t, pc, b, j, s.aux.info[b].cells[j], cell)
    requires ThreadOk(SetSlot(s.mem, b, j, x), SetCell(s.aux, b, j, cell), t, pc)
    requires CellAt(s.mem, s.aux, b, j, x, cell)
    requires s.aux.info[b].cells[j].reader.Done? ==> cell.reader.Done?
    requires j == 30 ==> cell.reader == s.aux.info[b].cells[j].reader
    requires CellGuar(s.aux.info[b].cells[j], cell, t)
    ensures Inv(State(SetSlot(s.mem, b, j, x), s.threads[t := pc], false, SetCell(s.aux, b, j, cell)))
  {
    SlotShape(s.mem, s.aux, b, j, x, cell);
    SlotBlocks(s.mem, s.aux, b, j, x, cell);
    SlotHeld(s.aux, s.threads, t, pc, b, j, cell);
    SlotGuar(s.mem, s.aux, t, b, j, x, cell);
    ThreadsStep(s.mem, s.aux, s.threads, t, SetSlot(s.mem, b, j, x), SetCell(s.aux, b, j, cell), pc);
  }

  // ---- steps that add a block, or change only words and section owners ----

  ghost predicate SameHeap(mem: Mem, aux: Aux, mem': Mem, aux': Aux) {
    && mem'.heap == mem.heap && aux'.info == aux.info
    && aux'.chain == aux.chain && aux'.log == aux.log && aux'.got == aux.got
  }

  /** Heap, chain and log stay as they are, and so do the indices. */
  lemma SectionBlocks(mem: Mem, aux: Aux, mem': Mem, aux': Aux)
    requires Blocks(mem, aux) && SameHeap(mem, aux, mem', aux')
    requires Index(mem'.head) == Index(mem.head) && Index(mem'.tail) == Index(mem.tail)
    ensures Blocks(mem', aux')
  {
    forall x | 0 <= x < |mem.heap| ensures BlockOk(mem', aux', mem'.heap[x], aux'.info[x]) {
      BlockFrame(mem, aux, mem', aux', mem.heap[x], aux.info[x]);
    }
  }

  ghost predicate SameClaims(t: nat, p: Pc, p': Pc) {
    && Spare(p) == Spare(p') && LinkDuty(p) == LinkDuty(p')
    && (forall b, j :: WriterDuty(p, t, b, j) == WriterDuty(p', t, b, j))
    && (forall b, j :: ReaderDuty(p, t, b, j) == ReaderDuty(p', t, b, j))
    && (forall b :: DestroyDuty(p, t, b) == DestroyDuty(p', t, b))
  }

  lemma SectionHeld(aux: Aux, threads: seq<Pc>, t: nat, aux': Aux, pc: Pc)
    requires Held(aux, threads) && t < |threads| && aux'.info == aux.info
    requires SameClaims(t, threads[t], pc)
    requires HeldSections(aux', threads[t := pc])
    ensures Held(aux', threads[t := pc])
  {
    forall b | 0 <= b < |aux.info| ensures HeldBlock(threads[t := pc], b, aux.info[b]) {
      assert HeldBlock(threads, b, aux.info[b]);
    }
    forall b, j | 0 <= b < |aux.info| && 0 <= j < 31 ensures HeldCell(threads[t := pc], b, j, aux.info[b].cells[j]) {
      assert HeldCell(threads, b, j, aux.info[b].cells[j]);
    }
  }

  /** The whole argument for a store that moves a section on and touches no block. */
  lemma SectionStep(s: State, t: nat, mem': Mem, aux': Aux, pc: Pc)
    requires Inv(s) && t < |s.threads|
    requires SameHeap(s.mem, s.aux, mem', aux') && mem'.head == s.mem.head && mem'.tail == s.mem.tail
    requires Shape(mem', aux') && ChainOk(aux') && Guar(s.mem, s.aux, t, mem', aux')
    requires SameClaims(t, s.threads[t], pc) && HeldSections(aux', s.threads[t := pc])
    requires ThreadOk(mem', aux', t, pc)
    ensures Inv(State(mem', s.threads[t := pc], false, aux'))
  {
    SectionBlocks(s.mem, s.aux, mem', aux');
    SectionHeld(s.aux, s.threads, t, aux', pc);
    ThreadsStep(s.mem, s.aux, s.threads, t, mem', aux', pc);
  }

  /** Thread `t` takes on block `b`, which is new, and nothing else. */
  lemma GrowHeld(aux: Aux, threads: seq<Pc>, t: nat, aux': Aux, pc: Pc, o: Owner)
    requires Held(aux, threads) && t < |threads| && aux'.info == aux.info + [NewInfo(o)]
    requires SameClaims(t, threads[t], pc) || (Spare(threads[t]).Null? && SameClaimsButSpare(t, threads[t], pc))
    requires o.Private? ==> o.t == t && Spare(pc) == At(|aux.info|)
    requires HeldSections(aux', threads[t := pc])
    ensures Held(aux', threads[t := pc])
  {
    forall b | 0 <= b < |aux.info| ensures HeldBlock(threads[t := pc], b, aux.info[b]) {
      assert HeldBlock(threads, b, aux.info[b]);
    }
    forall b, j | 0 <= b < |aux.info| && 0 <= j < 31 ensures HeldCell(threads[t := pc], b, j, aux.info[b].cells[j]) {
      assert HeldCell(threads, b, j, aux.info[b].cells[j]);
    }
  }

  ghost predicate SameClaimsButSpare(t: nat, p: Pc, p': Pc) {
    && LinkDuty(p) == LinkDuty(p')
    && (forall b, j :: WriterDuty(p, t, b, j) == WriterDuty(p', t, b, j))
    && (forall b, j :: ReaderDuty(p, t, b, j) == ReaderDuty(p', t, b, j))
    && (forall b :: DestroyDuty(p, t, b) == DestroyDuty(p', t, b))
  }
}
