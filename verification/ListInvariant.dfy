/** What every interleaving of the unbounded channel keeps. */
module ListInvariant {
  import opened Common
  import opened ListProtocol

  // ---- shape: words, block pointers and the chain of laps ----

  ghost predicate Shape(mem: Mem, aux: Aux) {
    var tail, head := Index(mem.tail), Index(mem.head);
    && |aux.info| == |mem.heap|
    && head <= tail
    // MARK_BIT in the head: the tail is in a later block
    && (Marked(mem.head) ==> head / 32 < tail / 32)
    // a word rests on a block end exactly while one thread is in the section that moves it on
    && (tail % 32 == 31 <==> !aux.install.Vacant?)
    && (head % 32 == 31 <==> !aux.advance.Vacant?)
    && |aux.log| == Pos(tail)
    && (if aux.chain == [] then tail == 0
        else |aux.chain| == tail / 32 + 1 + (if aux.install.After? then 1 else 0))
    && (aux.advance.After? ==> head / 32 + 1 < |aux.chain|)
    && (aux.boot.Some? ==> aux.chain != [] && head == 0)
    && mem.tailBlock == (if aux.chain == [] then Null else At(aux.chain[|aux.chain| - 1]))
    && mem.headBlock == HeadBlock(aux, head)
  }

  ghost function HeadBlock(aux: Aux, head: nat): Ptr {
    var k := head / 32 + (if aux.advance.After? then 1 else 0);
    if aux.boot.Some? || k >= |aux.chain| then Null else At(aux.chain[k])
  }

  ghost predicate ChainOk(aux: Aux) {
    && (forall k :: 0 <= k < |aux.chain| ==>
          aux.chain[k] < |aux.info| && aux.info[aux.chain[k]].owner == Chained(k))
    && (forall b :: 0 <= b < |aux.info| && aux.info[b].owner.Chained? ==>
          aux.info[b].owner.k < |aux.chain| && aux.chain[aux.info[b].owner.k] == b)
  }

  // ---- blocks ----

  predicate Taken(h: Hold) { h.Half? || h.Done? }

  /** Slot `j` of lap `k`, for index `i == 32 * k + j` and message number `n == 31 * k + j`. */
  ghost predicate CellOk(x: Slot, c: Cell, token: Token, j: nat, i: nat, n: nat, head: nat, tail: nat, aux: Aux) {
    && (c.writer.Nobody? <==> i >= tail)
    && (c.reader.Nobody? <==> i >= head)
    && (x.write <==> c.writer.Done?)
    && (Taken(c.reader) ==> c.writer.Done?)
    && (i < tail ==> n < |aux.log|)
    && x.msg == (if Taken(c.writer) && !Taken(c.reader) && n < |aux.log| then Some(aux.log[n]) else None)
    && (n in aux.got <==> Taken(c.reader))
    && (j == 30 ==> !c.reader.Half? && !x.destroy)
    && (x.read <==> c.reader.Done? && j < 30)
    && (x.destroy && !c.reader.Done? <==> token == Parked(j))
    && (x.destroy ==> Visited(token, j))
  }

  /** A destroyer has been at slot `j`. */
  predicate Visited(token: Token, j: nat) {
    match token
    case Unborn => false
    case Active(_, c) => j < c
    case Parked(c) => j <= c
    case Spent => true
  }

  ghost predicate TokenOk(i: Info, freed: bool) {
    && (i.token.Unborn? <==> !i.cells[30].reader.Done?)
    && (freed <==> i.token.Spent?)
    && match i.token
       case Unborn => true
       case Active(_, c) => c <= 30 && forall j :: 0 <= j < c ==> i.cells[j].reader.Done?
       case Parked(c) => c < 30 && forall j :: 0 <= j < c ==> i.cells[j].reader.Done?
       case Spent => forall j :: 0 <= j < 31 ==> i.cells[j].reader.Done?
  }

  ghost predicate LinkOk(next: Ptr, link: Hold, k: nat, tail: nat, chain: seq<nat>) {
    && !link.Half?
    && (link.Nobody? <==> tail < 32 * k + 31)
    && (link.Done? ==> k + 1 < |chain| && 32 * (k + 1) <= tail)
    && next == (if link.Done? && k + 1 < |chain| then At(chain[k + 1]) else Null)
  }

  predicate IsNew(x: Block, i: Info) {
    && x.next.Null? && i.link.Nobody? && i.token.Unborn?
    && forall j :: 0 <= j < 31 ==> x.slots[j] == BLANK_SLOT && i.cells[j] == BLANK_CELL
  }

  ghost predicate BlockOk(mem: Mem, aux: Aux, x: Block, i: Info) {
    match i.owner
    case Private(_) => !x.freed && IsNew(x, i)
    case Discarded => x.freed && IsNew(x, i)
    case Chained(k) =>
      && LinkOk(x.next, i.link, k, Index(mem.tail), aux.chain)
      && TokenOk(i, x.freed)
      && forall j :: 0 <= j < 31 ==>
           CellOk(x.slots[j], i.cells[j], i.token, j, 32 * k + j, 31 * k + j, Index(mem.head), Index(mem.tail), aux)
  }

  ghost predicate Blocks(mem: Mem, aux: Aux) {
    && |aux.info| == |mem.heap|
    && (forall b :: 0 <= b < |mem.heap| ==> BlockOk(mem, aux, mem.heap[b], aux.info[b]))
    && (forall n :: n in aux.got ==> n < |aux.log| && aux.got[n] == aux.log[n])
  }

  // ---- threads ----

  ghost predicate SpareOk(aux: Aux, t: nat, nb: Ptr) {
    nb.At? ==> nb.id < |aux.info| && aux.info[nb.id].owner == Private(t) && aux.chain != []
  }

  ghost predicate SavedTail(mem: Mem, tail: nat) {
    tail <= mem.tail && (Marked(tail) ==> Marked(mem.tail))
  }

  /** If the CAS on the tail can succeed, the saved block is the block of its lap. */
  ghost predicate TailCoherent(mem: Mem, aux: Aux, tail: nat, block: Ptr) {
    && SavedTail(mem, tail)
    && (block.At? ==> aux.chain != [])
    && (block.At? && mem.tail == tail && !Marked(tail) && Offset(tail) != 31 ==>
          Lap(tail) < |aux.chain| && block.id == aux.chain[Lap(tail)])
  }

  ghost predicate SavedHead(mem: Mem, head: nat) {
    && Index(head) <= Index(mem.head)
    && (Index(head) == Index(mem.head) ==> head == mem.head)
  }

  ghost predicate HeadCoherent(mem: Mem, aux: Aux, head: nat, block: Ptr) {
    && SavedHead(mem, head)
    && (block.At? ==> aux.chain != [] && aux.boot.None?)
    && (block.At? && mem.head == head && Offset(head) != 31 ==>
          Lap(head) < |aux.chain| && block.id == aux.chain[Lap(head)])
  }

  ghost predicate InChain(aux: Aux, b: nat, j: nat) {
    b < |aux.info| && j < 31 && aux.info[b].owner.Chained?
  }

  ghost predicate Entry(aux: Aux, b: nat, j: nat, m: Msg) {
    && InChain(aux, b, j)
    && 31 * aux.info[b].owner.k + j < |aux.log| && aux.log[31 * aux.info[b].owner.k + j] == m
  }

  ghost predicate Writes(aux: Aux, b: nat, j: nat, h: Hold) {
    InChain(aux, b, j) && aux.info[b].cells[j].writer == h
  }

  ghost predicate Reads(aux: Aux, b: nat, j: nat, h: Hold) {
    InChain(aux, b, j) && aux.info[b].cells[j].reader == h
  }

  ghost predicate Wants(aux: Aux, t: nat, m: Msg) { t in aux.want && aux.want[t] == m }

  ghost predicate Installing(mem: Mem, aux: Aux, t: nat, m: Msg, b: nat) {
    && Writes(aux, b, 30, By(t)) && Entry(aux, b, 30, m)
    && aux.info[b].link == By(t)
  }

  /** The block after `b` in the chain is `next`, and `next` has been stored. */
  ghost predicate Linked(aux: Aux, b: nat, next: nat) {
    && b < |aux.info| && aux.info[b].owner.Chained? && aux.info[b].link.Done?
    && aux.info[b].owner.k + 1 < |aux.chain| && aux.chain[aux.info[b].owner.k + 1] == next
  }

  ghost predicate Advancing(mem: Mem, aux: Aux, t: nat, b: nat, p: Phase) {
    && Reads(aux, b, 30, By(t)) && t in aux.want && Entry(aux, b, 30, aux.want[t])
    && aux.advance == p && Index(mem.head) == 32 * aux.info[b].owner.k + 31
  }

  ghost predicate Destroying(aux: Aux, t: nat, b: nat, i: nat, m: Msg) {
    && InChain(aux, b, i) && aux.info[b].token == Active(t, i) && Wants(aux, t, m)
  }

  ghost predicate SendOk(mem: Mem, aux: Aux, t: nat, pc: Pc) {
    match pc
    case SLoadTail(_, nb) => SpareOk(aux, t, nb)
    case SLoadBlock(_, nb, tail) => SpareOk(aux, t, nb) && SavedTail(mem, tail)
    case SLoop(_, nb, tail, block) =>
      && SpareOk(aux, t, nb) && TailCoherent(mem, aux, tail, block)
      && (block.Null? ==> nb.Null? && Index(tail) == 0)
    case SStoreHead(_, nb, tail, b) =>
      && nb.Null? && TailCoherent(mem, aux, tail, At(b)) && Index(tail) == 0 && !Marked(tail)
      && aux.boot == Some(t) && aux.chain != [] && aux.chain[0] == b
    case SDropSpare(m, nb, b, j) => SpareOk(aux, t, nb) && Writes(aux, b, j, By(t)) && Entry(aux, b, j, m)
    case SStoreTailBlock(m, spare, b) =>
      && Installing(mem, aux, t, m, b) && aux.install == Before(t)
      && Index(mem.tail) == 32 * aux.info[b].owner.k + 31 && SpareOk(aux, t, At(spare))
    case SBumpTail(m, spare, b) =>
      && Installing(mem, aux, t, m, b) && aux.install == After(t)
      && Index(mem.tail) == 32 * aux.info[b].owner.k + 31
      && aux.info[b].owner.k + 1 < |aux.chain| && aux.chain[aux.info[b].owner.k + 1] == spare
    case SStoreNext(m, spare, b) =>
      && Installing(mem, aux, t, m, b)
      && Index(mem.tail) >= 32 * (aux.info[b].owner.k + 1)
      && aux.info[b].owner.k + 1 < |aux.chain| && aux.chain[aux.info[b].owner.k + 1] == spare
    case SWriteMsg(m, b, j) => Writes(aux, b, j, By(t)) && Entry(aux, b, j, m)
    case SSetWrite(b, j) => Writes(aux, b, j, Half(t))
    case _ => true
  }

  ghost predicate RecvOk(mem: Mem, aux: Aux, t: nat, pc: Pc) {
    match pc
    case RLoadBlock(head) => SavedHead(mem, head)
    case RLoop(head, block) => HeadCoherent(mem, aux, head, block)
    case RCas(head, newHead, block) =>
      && HeadCoherent(mem, aux, head, block) && Offset(head) != 31
      && Index(newHead) == Index(head) + 1 && (Marked(head) ==> Marked(newHead))
      && Index(head) < Index(mem.tail)
      && (Marked(newHead) && mem.head == head ==> Lap(head) < Lap(mem.tail))
    case RWaitNext(b, newHead) => Advancing(mem, aux, t, b, Before(t)) && newHead == mem.head
    case RPeek(b, newHead, next) =>
      Advancing(mem, aux, t, b, Before(t)) && newHead == mem.head && Linked(aux, b, next)
    case RStoreBlock(b, next, nextIndex) =>
      && Advancing(mem, aux, t, b, Before(t)) && Linked(aux, b, next) && NextIndexOk(mem, nextIndex)
    case RStoreIndex(b, nextIndex) =>
      && Advancing(mem, aux, t, b, After(t)) && NextIndexOk(mem, nextIndex)
      && Index(nextIndex) <= Index(mem.tail)
    case RWaitWrite(b, j) => Reads(aux, b, j, By(t)) && t in aux.want && Entry(aux, b, j, aux.want[t])
    case RReadMsg(b, j) =>
      && Reads(aux, b, j, By(t)) && t in aux.want && Entry(aux, b, j, aux.want[t])
      && aux.info[b].cells[j].writer.Done?
    case RMark(b, j, m) => j < 30 && Reads(aux, b, j, Half(t)) && Wants(aux, t, m)
    case DCheck(b, i, m) => Destroying(aux, t, b, i, m)
    case DOr(b, i, m) => i < 30 && Destroying(aux, t, b, i, m)
    case _ => true
  }

  ghost predicate NextIndexOk(mem: Mem, nextIndex: nat) {
    && Index(nextIndex) == Index(mem.head) + 1
    && (Marked(nextIndex) ==> Index(nextIndex) / 32 < Lap(mem.tail))
  }

  ghost predicate ThreadOk(mem: Mem, aux: Aux, t: nat, pc: Pc) {
    SendOk(mem, aux, t, pc) && RecvOk(mem, aux, t, pc)
  }

  ghost predicate Threads(mem: Mem, aux: Aux, threads: seq<Pc>) {
    forall t :: 0 <= t < |threads| ==> ThreadOk(mem, aux, t, threads[t])
  }

  // ---- every claim is held by a thread that will act on it ----

  function Spare(pc: Pc): Ptr {
    match pc
    case SLoadTail(_, nb) => nb
    case SLoadBlock(_, nb, _) => nb
    case SLoop(_, nb, _, _) => nb
    case SStoreHead(_, nb, _, _) => nb
    case SDropSpare(_, nb, _, _) => nb
    case SStoreTailBlock(_, spare, _) => At(spare)
    case _ => Null
  }

  function LinkDuty(pc: Pc): Ptr {
    match pc
    case SStoreTailBlock(_, _, b) => At(b)
    case SBumpTail(_, _, b) => At(b)
    case SStoreNext(_, _, b) => At(b)
    case _ => Null
  }

  function WriterDuty(pc: Pc, t: nat, b: nat, j: nat): Hold {
    match pc
    case SDropSpare(_, _, b', j') => if b == b' && j == j' then By(t) else Nobody
    case SStoreTailBlock(_, _, b') => if b == b' && j == 30 then By(t) else Nobody
    case SBumpTail(_, _, b') => if b == b' && j == 30 then By(t) else Nobody
    case SStoreNext(_, _, b') => if b == b' && j == 30 then By(t) else Nobody
    case SWriteMsg(_, b', j') => if b == b' && j == j' then By(t) else Nobody
    case SSetWrite(b', j') => if b == b' && j == j' then Half(t) else Nobody
    case _ => Nobody
  }

  function ReaderDuty(pc: Pc, t: nat, b: nat, j: nat): Hold {
    match pc
    case RWaitNext(b', _) => if b == b' && j == 30 then By(t) else Nobody
    case RPeek(b', _, _) => if b == b' && j == 30 then By(t) else Nobody
    case RStoreBlock(b', _, _) => if b == b' && j == 30 then By(t) else Nobody
    case RStoreIndex(b', _) => if b == b' && j == 30 then By(t) else Nobody
    case RWaitWrite(b', j') => if b == b' && j == j' then By(t) else Nobody
    case RReadMsg(b', j') => if b == b' && j == j' then By(t) else Nobody
    case RMark(b', j', _) => if b == b' && j == j' then Half(t) else Nobody
    case _ => Nobody
  }

  function DestroyDuty(pc: Pc, t: nat, b: nat): Token {
    match pc
    case DCheck(b', i, _) => if b == b' then Active(t, i) else Unborn
    case DOr(b', i, _) => if b == b' then Active(t, i) else Unborn
    case _ => Unborn
  }

  predicate Pending(h: Hold) { h.By? || h.Half? }

  ghost predicate HeldBlock(threads: seq<Pc>, b: nat, i: Info) {
    && (i.owner.Private? ==> i.owner.t < |threads| && Spare(threads[i.owner.t]) == At(b))
    && (i.link.By? ==> i.link.t < |threads| && LinkDuty(threads[i.link.t]) == At(b))
    && (i.token.Active? ==> i.token.t < |threads| && DestroyDuty(threads[i.token.t], i.token.t, b) == i.token)
  }

  ghost predicate HeldCell(threads: seq<Pc>, b: nat, j: nat, c: Cell) {
    && (Pending(c.writer) ==>
          c.writer.t < |threads| && WriterDuty(threads[c.writer.t], c.writer.t, b, j) == c.writer)
    && (Pending(c.reader) ==>
          c.reader.t < |threads| && ReaderDuty(threads[c.reader.t], c.reader.t, b, j) == c.reader)
  }

  predicate BeforeAdvance(pc: Pc) { pc.RWaitNext? || pc.RPeek? || pc.RStoreBlock? }

  ghost predicate HeldSections(aux: Aux, threads: seq<Pc>) {
    && (aux.boot.Some? ==> aux.boot.value < |threads| && threads[aux.boot.value].SStoreHead?)
    && (aux.install.Before? ==> aux.install.t < |threads| && threads[aux.install.t].SStoreTailBlock?)
    && (aux.install.After? ==> aux.install.t < |threads| && threads[aux.install.t].SBumpTail?)
    && (aux.advance.Before? ==> aux.advance.t < |threads| && BeforeAdvance(threads[aux.advance.t]))
    && (aux.advance.After? ==> aux.advance.t < |threads| && threads[aux.advance.t].RStoreIndex?)
  }

  ghost predicate Held(aux: Aux, threads: seq<Pc>) {
    && HeldSections(aux, threads)
    && (forall b :: 0 <= b < |aux.info| ==> HeldBlock(threads, b, aux.info[b]))
    && (forall b, j :: 0 <= b < |aux.info| && 0 <= j < 31 ==> HeldCell(threads, b, j, aux.info[b].cells[j]))
  }

  ghost predicate Inv(s: State) {
    && !s.fault
    && Shape(s.mem, s.aux)
    && ChainOk(s.aux)
    && Blocks(s.mem, s.aux)
    && Threads(s.mem, s.aux, s.threads)
    && Held(s.aux, s.threads)
  }

  // ---- what a step of thread `t` guarantees to the others ----

  ghost predicate InfoGuar(i: Info, i': Info, t: nat) {
    && (i.owner.Chained? ==> i'.owner == i.owner)
    && (i.owner.Private? && i.owner.t != t ==> i'.owner == i.owner)
    && (i.link.By? && i.link.t != t ==> i'.link == i.link)
    && (i.link.Done? ==> i'.link.Done?)
    && (i.token.Active? && i.token.t != t ==> i'.token == i.token)
    && (forall j :: 0 <= j < 31 ==> CellGuar(i.cells[j], i'.cells[j], t))
  }

  ghost predicate CellGuar(c: Cell, c': Cell, t: nat) {
    && (Pending(c.writer) && c.writer.t != t ==> c'.writer == c.writer)
    && (c.writer.Done? ==> c'.writer.Done?)
    && (Pending(c.reader) && c.reader.t != t ==> c'.reader == c.reader)
  }

  ghost predicate Guar(mem: Mem, aux: Aux, t: nat, mem': Mem, aux': Aux) {
    && mem.tail <= mem'.tail && (Marked(mem.tail) ==> Marked(mem'.tail))
    && Index(mem.head) <= Index(mem'.head)
    && (Index(mem.head) == Index(mem'.head) ==> mem.head == mem'.head)
    && aux.chain <= aux'.chain && aux.log <= aux'.log && |aux.info| <= |aux'.info|
    && (aux.boot.Some? && aux.boot.value != t ==> aux'.boot == aux.boot)
    && (aux.boot.None? && aux.chain != [] ==> aux'.boot.None?)
    && (!aux.install.Vacant? && aux.install.t != t ==>
          aux'.install == aux.install && Index(mem'.tail) == Index(mem.tail) )
    && (!aux.advance.Vacant? && aux.advance.t != t ==> aux'.advance == aux.advance && mem'.head == mem.head)
    && (forall b :: 0 <= b < |aux.info| ==> InfoGuar(aux.info[b], aux'.info[b], t))
    && (forall u :: u != t && u in aux.want ==> u in aux'.want && aux'.want[u] == aux.want[u])
  }

  lemma SendStable(mem: Mem, aux: Aux, t: nat, mem': Mem, aux': Aux, u: nat, pc: Pc)
    requires SendOk(mem, aux, u, pc) && u != t && Guar(mem, aux, t, mem', aux')
    ensures SendOk(mem', aux', u, pc)
  {
  }

  lemma RecvStable(mem: Mem, aux: Aux, t: nat, mem': Mem, aux': Aux, u: nat, pc: Pc)
    requires RecvOk(mem, aux, u, pc) && u != t && Guar(mem, aux, t, mem', aux')
    ensures RecvOk(mem', aux', u, pc)
  {
  }

  lemma ThreadsStep(mem: Mem, aux: Aux, threads: seq<Pc>, t: nat, mem': Mem, aux': Aux, pc: Pc)
    requires Threads(mem, aux, threads) && t < |threads|
    requires Guar(mem, aux, t, mem', aux')
    requires ThreadOk(mem', aux', t, pc)
    ensures Threads(mem', aux', threads[t := pc])
  {
    forall u | 0 <= u < |threads| && u != t ensures ThreadOk(mem', aux', u, threads[u]) {
      SendStable(mem, aux, t, mem', aux', u, threads[u]);
      RecvStable(mem, aux, t, mem', aux', u, threads[u]);
    }
  }
}
