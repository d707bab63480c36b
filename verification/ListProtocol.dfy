/**
 The unbounded channel (src/list.rs) as a state machine: any number of threads,
 one step per atomic access of the original, sequentially consistent.

 Index words are packed as in the original: the low bit is MARK_BIT, the rest is
 the index (SHIFT = 1). Each block covers LAP = 32 indices and holds
 BLOCK_CAP = 31 messages, in the slots 0 .. 30; offset 31 is the block end.
 Indices are unbounded and an allocation never reuses an address.

 The real memory is `Mem` and a thread is its `Pc`; `MemStep` moves them and
 reads nothing else. `Aux` is specification state that runs alongside:
 `Annotate` updates it and no step ever consults it.
 */
module ListProtocol {
  import opened Common

  datatype Ptr = Null | At(id: nat)

  /** The bits WRITE, READ and DESTROY of `state`, and the message cell.
      `msg` is None while the cell is uninitialized or moved out of. */
  datatype Slot = Slot(write: bool, read: bool, destroy: bool, msg: Option<Msg>)
  const BLANK_SLOT := Slot(false, false, false, None)
  type Slots = s: seq<Slot> | |s| == 31 witness seq(31, _ => BLANK_SLOT)

  datatype Block = Block(next: Ptr, slots: Slots, freed: bool)

  function NewBlock(): (b: Block)
    ensures b.next.Null? && !b.freed
    ensures forall j :: 0 <= j < 31 ==> b.slots[j] == BLANK_SLOT
  {
    Block(Null, seq(31, _ => BLANK_SLOT), false)
  }

  datatype Mem = Mem(head: nat, tail: nat, headBlock: Ptr, tailBlock: Ptr, heap: seq<Block>)

  /**
   Where a thread is, with its saved locals. `nb` is the block allocated in
   advance (`next_block`); `tail`, `head`, `block` are the saved copies.
   */
  datatype Pc =
    | Idle
    // start_send
    | SLoadTail(m: Msg, nb: Ptr)
    | SLoadBlock(m: Msg, nb: Ptr, tail: nat)
    | SLoop(m: Msg, nb: Ptr, tail: nat, block: Ptr)
    | SStoreHead(m: Msg, nb: Ptr, tail: nat, b: nat)         // won the race for the first block
    | SDropSpare(m: Msg, nb: Ptr, b: nat, j: nat)   // claimed a slot, not the last
    | SStoreTailBlock(m: Msg, spare: nat, b: nat)     // claimed the last slot: install
    | SBumpTail(m: Msg, spare: nat, b: nat)
    | SStoreNext(m: Msg, spare: nat, b: nat)
    // write
    | SWriteMsg(m: Msg, b: nat, j: nat)
    | SSetWrite(b: nat, j: nat)
    // start_recv
    | RLoadHead
    | RLoadBlock(head: nat)
    | RLoop(head: nat, block: Ptr)
    | RCas(head: nat, newHead: nat, block: Ptr)
    | RWaitNext(b: nat, newHead: nat)               // claimed the last slot: advance
    | RPeek(b: nat, newHead: nat, next: nat)
    | RStoreBlock(b: nat, next: nat, nextIndex: nat)
    | RStoreIndex(b: nat, nextIndex: nat)
    // read, Block::destroy
    | RWaitWrite(b: nat, j: nat)
    | RReadMsg(b: nat, j: nat)
    | RMark(b: nat, j: nat, m: Msg)
    | DCheck(b: nat, i: nat, m: Msg)
    | DOr(b: nat, i: nat, m: Msg)
    // len
    | LLoadTail
    | LLoadHead(tail: nat)
    | LCheck(tail: nat, head: nat)

  /** What the scheduler decides: which call an idle thread makes, and whether a
      `compare_exchange_weak` fails spuriously. */
  datatype Choice = Go | Spurious | Send(m: Msg) | Recv | Len | Shutdown

  datatype Out = Out(mem: Mem, pc: Pc, fault: bool)

  function Ok(mem: Mem, pc: Pc): Out { Out(mem, pc, false) }

  /** An access to a freed or never allocated block, a second free, a read of an
      uninitialized message, or `unwrap` on None. */
  function Crash(mem: Mem): Out { Out(mem, Idle, true) }

  // ---- words ----

  function Index(word: nat): nat { word / 2 }

  predicate Marked(word: nat) { word % 2 == 1 }

  function Offset(word: nat): nat { Index(word) % 32 }

  function Lap(word: nat): nat { Index(word) / 32 }

  // ---- memory ----

  predicate Live(mem: Mem, b: nat) { b < |mem.heap| && !mem.heap[b].freed }

  function SetBlock(mem: Mem, b: nat, x: Block): Mem
    requires b < |mem.heap|
  {
    mem.(heap := mem.heap[b := x])
  }

  function SetSlot(mem: Mem, b: nat, j: nat, x: Slot): Mem
    requires b < |mem.heap| && j < 31
  {
    SetBlock(mem, b, mem.heap[b].(slots := mem.heap[b].slots[j := x]))
  }

  function Alloc(mem: Mem): Mem { mem.(heap := mem.heap + [NewBlock()]) }

  function Free(mem: Mem, b: nat, pc: Pc): Out {
    if Live(mem, b) then Ok(SetBlock(mem, b, mem.heap[b].(freed := true)), pc) else Crash(mem)
  }

  /** Dropping an `Option<Box<Block>>`. */
  function DropSpare(mem: Mem, nb: Ptr, pc: Pc): Out {
    match nb
    case Null => Ok(mem, pc)
    case At(b) => Free(mem, b, pc)
  }

  // ---- start_send and write ----

  function SendLoop(mem: Mem, m: Msg, nb: Ptr, tail: nat, block: Ptr, c: Choice): Out {
    if Marked(tail) then
      DropSpare(mem, nb, Idle)
    else if Offset(tail) == 31 then
      Ok(mem, SLoadTail(m, nb))
    else if Offset(tail) == 30 && nb.Null? then
      Ok(Alloc(mem), SLoop(m, At(|mem.heap|), tail, block))
    else if block.Null? then
      if mem.tailBlock.Null? then
        Ok(Alloc(mem).(tailBlock := At(|mem.heap|)), SStoreHead(m, nb, tail, |mem.heap|))
      else
        DropSpare(Alloc(mem), nb, SLoadTail(m, At(|mem.heap|)))
    else if mem.tail != tail || c.Spurious? then
      Ok(mem, SLoadBlock(m, nb, mem.tail))
    else if Offset(tail) != 30 then
      Ok(mem.(tail := tail + 2), SDropSpare(m, nb, block.id, Offset(tail)))
    else if nb.Null? then
      Crash(mem)
    else
      Ok(mem.(tail := tail + 2), SStoreTailBlock(m, nb.id, block.id))
  }

  function SendStep(mem: Mem, pc: Pc, c: Choice): Out {
    match pc
    case SLoadTail(m, nb) => Ok(mem, SLoadBlock(m, nb, mem.tail))
    case SLoadBlock(m, nb, tail) => Ok(mem, SLoop(m, nb, tail, mem.tailBlock))
    case SLoop(m, nb, tail, block) => SendLoop(mem, m, nb, tail, block, c)
    case SStoreHead(m, nb, tail, b) => Ok(mem.(headBlock := At(b)), SLoop(m, nb, tail, At(b)))
    case SDropSpare(m, nb, b, j) => DropSpare(mem, nb, SWriteMsg(m, b, j))
    case SStoreTailBlock(m, spare, b) => Ok(mem.(tailBlock := At(spare)), SBumpTail(m, spare, b))
    case SBumpTail(m, spare, b) => Ok(mem.(tail := mem.tail + 2), SStoreNext(m, spare, b))
    case SStoreNext(m, spare, b) =>
      if Live(mem, b) then
        Ok(SetBlock(mem, b, mem.heap[b].(next := At(spare))), SWriteMsg(m, b, 30))
      else Crash(mem)
    case SWriteMsg(m, b, j) =>
      if Live(mem, b) && j < 31 then
        Ok(SetSlot(mem, b, j, mem.heap[b].slots[j].(msg := Some(m))), SSetWrite(b, j))
      else Crash(mem)
    case SSetWrite(b, j) =>
      if Live(mem, b) && j < 31 then
        Ok(SetSlot(mem, b, j, mem.heap[b].slots[j].(write := true)), Idle)
      else Crash(mem)
    case _ => Ok(mem, pc)
  }

  // ---- start_recv ----

  function RecvLoop(mem: Mem, head: nat, block: Ptr): Out {
    if Offset(head) == 31 then
      Ok(mem, RLoadHead)
    else if Marked(head) then
      Ok(mem, RCas(head, head + 2, block))
    else if Index(head) == Index(mem.tail) then
      Ok(mem, Idle)
    else
      Ok(mem, RCas(head, head + 2 + (if Lap(head) != Lap(mem.tail) then 1 else 0), block))
  }

  function RecvCas(mem: Mem, head: nat, newHead: nat, block: Ptr, c: Choice): Out {
    if block.Null? then
      Ok(mem, RLoadHead)
    else if mem.head != head || c.Spurious? then
      Ok(mem, RLoadBlock(mem.head))
    else if Offset(head) == 30 then
      Ok(mem.(head := newHead), RWaitNext(block.id, newHead))
    else
      Ok(mem.(head := newHead), RWaitWrite(block.id, Offset(head)))
  }

  function RecvStep(mem: Mem, pc: Pc, c: Choice): Out {
    match pc
    case RLoadHead => Ok(mem, RLoadBlock(mem.head))
    case RLoadBlock(head) => Ok(mem, RLoop(head, mem.headBlock))
    case RLoop(head, block) => RecvLoop(mem, head, block)
    case RCas(head, newHead, block) => RecvCas(mem, head, newHead, block, c)
    case RWaitNext(b, newHead) =>
      if !Live(mem, b) then Crash(mem)
      else if mem.heap[b].next.Null? then Ok(mem, pc)
      else Ok(mem, RPeek(b, newHead, mem.heap[b].next.id))
    case RPeek(b, newHead, next) =>
      if !Live(mem, next) then Crash(mem)
      else
        var nextIndex := newHead / 2 * 2 + 2;
        Ok(mem, RStoreBlock(b, next, nextIndex + (if mem.heap[next].next.Null? then 0 else 1)))
    case RStoreBlock(b, next, nextIndex) => Ok(mem.(headBlock := At(next)), RStoreIndex(b, nextIndex))
    case RStoreIndex(b, nextIndex) => Ok(mem.(head := nextIndex), RWaitWrite(b, 30))
    case _ => Ok(mem, pc)
  }

  // ---- read and Block::destroy ----

  function ReadStep(mem: Mem, pc: Pc): Out {
    match pc
    case RWaitWrite(b, j) =>
      if !(Live(mem, b) && j < 31) then Crash(mem)
      else Ok(mem, if mem.heap[b].slots[j].write then RReadMsg(b, j) else pc)
    case RReadMsg(b, j) =>
      if !(Live(mem, b) && j < 31) then Crash(mem) else
        var slot := mem.heap[b].slots[j];
        if slot.msg.None? then Crash(mem)
        else Ok(SetSlot(mem, b, j, slot.(msg := None)),
                if j == 30 then DCheck(b, 0, slot.msg.value) else RMark(b, j, slot.msg.value))
    case RMark(b, j, m) =>
      if !(Live(mem, b) && j < 31) then Crash(mem) else
        var slot := mem.heap[b].slots[j];
        Ok(SetSlot(mem, b, j, slot.(read := true)), if slot.destroy then DCheck(b, j + 1, m) else Idle)
    case DCheck(b, i, m) =>
      if i >= 30 then Free(mem, b, Idle)
      else if !Live(mem, b) then Crash(mem)
      else Ok(mem, if mem.heap[b].slots[i].read then DCheck(b, i + 1, m) else DOr(b, i, m))
    case DOr(b, i, m) =>
      if !(Live(mem, b) && i < 31) then Crash(mem) else
        var slot := mem.heap[b].slots[i];
        Ok(SetSlot(mem, b, i, slot.(destroy := true)), if slot.read then DCheck(b, i + 1, m) else Idle)
    case _ => Ok(mem, pc)
  }

  // ---- len, shutdown, and the start of a call ----

  function LenStep(mem: Mem, pc: Pc): Out {
    match pc
    case LLoadTail => Ok(mem, LLoadHead(mem.tail))
    case LLoadHead(tail) => Ok(mem, LCheck(tail, mem.head))
    case LCheck(tail, head) => Ok(mem, if mem.tail == tail then Idle else LLoadTail)
    case _ => Ok(mem, pc)
  }

  function SetMark(word: nat): nat { if Marked(word) then word else word + 1 }

  function CallStep(mem: Mem, c: Choice): Out {
    match c
    case Send(m) => Ok(mem, SLoadTail(m, Null))
    case Recv => Ok(mem, RLoadHead)
    case Len => Ok(mem, LLoadTail)
    case Shutdown => Ok(mem.(tail := SetMark(mem.tail)), Idle)
    case _ => Ok(mem, Idle)
  }

  function MemStep(mem: Mem, pc: Pc, c: Choice): Out {
    match pc
    case Idle => CallStep(mem, c)
    case SLoadTail(_, _) => SendStep(mem, pc, c)
    case SLoadBlock(_, _, _) => SendStep(mem, pc, c)
    case SLoop(_, _, _, _) => SendStep(mem, pc, c)
    case SStoreHead(_, _, _, _) => SendStep(mem, pc, c)
    case SDropSpare(_, _, _, _) => SendStep(mem, pc, c)
    case SStoreTailBlock(_, _, _) => SendStep(mem, pc, c)
    case SBumpTail(_, _, _) => SendStep(mem, pc, c)
    case SStoreNext(_, _, _) => SendStep(mem, pc, c)
    case SWriteMsg(_, _, _) => SendStep(mem, pc, c)
    case SSetWrite(_, _) => SendStep(mem, pc, c)
    case RLoadHead => RecvStep(mem, pc, c)
    case RLoadBlock(_) => RecvStep(mem, pc, c)
    case RLoop(_, _) => RecvStep(mem, pc, c)
    case RCas(_, _, _) => RecvStep(mem, pc, c)
    case RWaitNext(_, _) => RecvStep(mem, pc, c)
    case RPeek(_, _, _) => RecvStep(mem, pc, c)
    case RStoreBlock(_, _, _) => RecvStep(mem, pc, c)
    case RStoreIndex(_, _) => RecvStep(mem, pc, c)
    case LLoadTail => LenStep(mem, pc)
    case LLoadHead(_) => LenStep(mem, pc)
    case LCheck(_, _) => LenStep(mem, pc)
    case _ => ReadStep(mem, pc)
  }

  // ---- specification state ----

  /** How far the sender (or receiver) that claimed a slot has come: not claimed;
      claimed; message stored (moved out) but the bit not yet set; bit set. */
  datatype Hold = Nobody | By(t: nat) | Half(t: nat) | Done
  datatype Cell = Cell(writer: Hold, reader: Hold)
  const BLANK_CELL := Cell(Nobody, Nobody)
  type Cells = s: seq<Cell> | |s| == 31 witness seq(31, _ => BLANK_CELL)

  /** A block is a thread's spare, the block of a lap, or dropped unused. */
  datatype Owner = Private(t: nat) | Chained(k: nat) | Discarded

  /** Who may destroy the block: nobody yet; thread `t`, past the slots below `c`;
      whoever sets READ on slot `j`; nobody any more. */
  datatype Token = Unborn | Active(t: nat, c: nat) | Parked(j: nat) | Spent

  /** `link` is the duty of storing `next`. */
  datatype Info = Info(owner: Owner, link: Hold, token: Token, cells: Cells)

  function NewInfo(o: Owner): (i: Info)
    ensures i.owner == o && i.link.Nobody? && i.token.Unborn?
    ensures forall j :: 0 <= j < 31 ==> i.cells[j] == BLANK_CELL
  {
    Info(o, Nobody, Unborn, seq(31, _ => BLANK_CELL))
  }

  /** A two-store critical section: free, or held by a thread before or after its first store. */
  datatype Phase = Vacant | Before(t: nat) | After(t: nat)

  /**
   `chain[k]` is the block of lap `k`; `log` is the messages accepted, in order;
   `want[t]` is what thread `t`'s last claim dequeued; `got` is the messages
   moved out of their slots, by their number in `log`.
   */
  datatype Aux = Aux(
    info: seq<Info>, chain: seq<nat>, log: seq<Msg>,
    boot: Option<nat>, install: Phase, advance: Phase,
    want: map<nat, Msg>, got: map<nat, Msg>)

  datatype State = State(mem: Mem, threads: seq<Pc>, fault: bool, aux: Aux)

  function AddInfo(aux: Aux, o: Owner): Aux { aux.(info := aux.info + [NewInfo(o)]) }

  function SetInfo(aux: Aux, b: nat, x: Info): Aux {
    if b < |aux.info| then aux.(info := aux.info[b := x]) else aux
  }

  function SetOwner(aux: Aux, b: nat, o: Owner): Aux {
    if b < |aux.info| then aux.(info := aux.info[b := aux.info[b].(owner := o)]) else aux
  }

  function SetLink(aux: Aux, b: nat, h: Hold): Aux {
    if b < |aux.info| then aux.(info := aux.info[b := aux.info[b].(link := h)]) else aux
  }

  function SetToken(aux: Aux, b: nat, x: Token): Aux {
    if b < |aux.info| then aux.(info := aux.info[b := aux.info[b].(token := x)]) else aux
  }

  function SetCell(aux: Aux, b: nat, j: nat, x: Cell): Aux
    requires b < |aux.info| && j < 31
  {
    var i := aux.info[b];
    SetInfo(aux, b, Info(i.owner, i.link, i.token, i.cells[j := x]))
  }

  function SetWriter(aux: Aux, b: nat, j: nat, h: Hold): Aux {
    if b < |aux.info| && j < 31 then SetCell(aux, b, j, Cell(h, aux.info[b].cells[j].reader)) else aux
  }

  function SetReader(aux: Aux, b: nat, j: nat, h: Hold): Aux {
    if b < |aux.info| && j < 31 then SetCell(aux, b, j, Cell(aux.info[b].cells[j].writer, h)) else aux
  }

  function DiscardSpare(aux: Aux, nb: Ptr): Aux {
    match nb
    case Null => aux
    case At(b) => SetOwner(aux, b, Discarded)
  }

  /** The number, among all messages, of the one at index `i`: one index per lap holds none. */
  function Pos(i: nat): nat { i - i / 32 }

  /** The number of the message in slot `j` of block `b`. */
  function Number(aux: Aux, b: nat, j: nat): nat {
    if b < |aux.info| && aux.info[b].owner.Chained? then 31 * aux.info[b].owner.k + j else 0
  }

  function Record(aux: Aux, n: nat, m: Msg): Aux { aux.(got := aux.got[n := m]) }

  function NoteWant(aux: Aux, t: nat, n: nat): Aux {
    if n < |aux.log| then aux.(want := aux.want[t := aux.log[n]]) else aux
  }

  function Annotate(mem: Mem, aux: Aux, t: nat, pc: Pc, out: Out): Aux {
    match pc
    case SLoop(m, nb, _, _) => (
      match out.pc
      case Idle => DiscardSpare(aux, nb)
      case SLoop(_, _, _, _) => AddInfo(aux, Private(t))
      case SStoreHead(_, _, _, b) => AddInfo(aux, Chained(0)).(chain := [b], boot := Some(t))
      case SLoadTail(_, _) => if |out.mem.heap| > |mem.heap| then DiscardSpare(AddInfo(aux, Private(t)), nb) else aux
      case SDropSpare(_, _, b, j) => SetWriter(aux, b, j, By(t)).(log := aux.log + [m])
      case SStoreTailBlock(_, _, b) =>
        SetLink(SetWriter(aux, b, 30, By(t)), b, By(t)).(log := aux.log + [m], install := Before(t))
      case _ => aux)
    case SStoreHead(_, _, _, _) => aux.(boot := None)
    case SDropSpare(_, nb, _, _) => DiscardSpare(aux, nb)
    case SStoreTailBlock(_, spare, _) =>
      SetOwner(aux, spare, Chained(|aux.chain|)).(chain := aux.chain + [spare], install := After(t))
    case SBumpTail(_, _, _) => aux.(install := Vacant)
    case SStoreNext(_, _, b) => SetLink(aux, b, Done)
    case SWriteMsg(_, b, j) => SetWriter(aux, b, j, Half(t))
    case SSetWrite(b, j) => SetWriter(aux, b, j, Done)
    case RCas(head, _, _) => (
      match out.pc
      case RWaitWrite(b, j) => SetReader(NoteWant(aux, t, Pos(Index(head))), b, j, By(t))
      case RWaitNext(b, _) => SetReader(NoteWant(aux, t, Pos(Index(head))), b, 30, By(t)).(advance := Before(t))
      case _ => aux)
    case RStoreBlock(_, _, _) => aux.(advance := After(t))
    case RStoreIndex(_, _) => aux.(advance := Vacant)
    case RReadMsg(b, j) => (
      match out.pc
      case RMark(_, _, m) => Record(SetReader(aux, b, j, Half(t)), Number(aux, b, j), m)
      case DCheck(_, _, m) => Record(SetToken(SetReader(aux, b, j, Done), b, Active(t, 0)), Number(aux, b, j), m)
      case _ => aux)
    case RMark(b, j, _) => (
      match out.pc
      case DCheck(_, i, _) => SetToken(SetReader(aux, b, j, Done), b, Active(t, i))
      case _ => SetReader(aux, b, j, Done))
    case DCheck(b, _, _) => (
      match out.pc
      case DCheck(_, i, _) => SetToken(aux, b, Active(t, i))
      case Idle => SetToken(aux, b, Spent)
      case _ => aux)
    case DOr(b, j, _) => (
      match out.pc
      case DCheck(_, i, _) => SetToken(aux, b, Active(t, i))
      case _ => SetToken(aux, b, Parked(j)))
    case _ => aux
  }

  function Step(s: State, t: nat, c: Choice): State
    requires t < |s.threads|
  {
    var out := MemStep(s.mem, s.threads[t], c);
    State(out.mem, s.threads[t := out.pc], s.fault || out.fault,
          Annotate(s.mem, s.aux, t, s.threads[t], out))
  }

  /** A new channel, shared by any number of threads that have not made a call yet. */
  ghost predicate Initial(s: State) {
    && s.mem.head == 0 && s.mem.tail == 0 && s.mem.headBlock.Null? && s.mem.tailBlock.Null? && s.mem.heap == []
    && (forall t :: 0 <= t < |s.threads| ==> s.threads[t].Idle?) && !s.fault
    && s.aux.info == [] && s.aux.chain == [] && s.aux.log == [] && s.aux.got == map[]
    && s.aux.boot.None? && s.aux.install.Vacant? && s.aux.advance.Vacant?
  }
}
