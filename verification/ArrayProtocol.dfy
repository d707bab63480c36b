/**
 The bounded channel (src/array.rs) as a state machine: any number of threads,
 one step per atomic access or message move of the original, sequentially
 consistent. `MemStep` moves the real memory and the thread, and reads nothing
 else; `Annotate` updates specification state that no step consults.
 */
module ArrayProtocol {
  import opened Common
  import opened ArrayWords

  /** `msg` is None while the cell is uninitialized or moved out of. */
  datatype Slot = Slot(stamp: nat, msg: Option<Msg>)

  datatype Mem = Mem(head: nat, tail: nat, slots: seq<Slot>)

  /** Where a thread is, with its saved locals. */
  datatype Pc =
    | Idle
    // start_send
    | SLoad(m: Msg)
    | SLoop(m: Msg, tail: nat)
    | SCas(m: Msg, tail: nat)
    | SFull(m: Msg, tail: nat)                 // the slot is a lap behind: look at the head
    // write, with the token: a slot and the stamp to store
    | SWrite(i: nat, stamp: nat, m: Msg)
    | SStamp(i: nat, stamp: nat)
    // start_recv
    | RLoad
    | RLoop(head: nat)
    | RCas(head: nat)
    | REmpty(head: nat)                        // the slot is not written: look at the tail
    // read
    | RRead(i: nat, stamp: nat)
    | RStamp(i: nat, stamp: nat, m: Msg)
    // len
    | LLoadTail
    | LLoadHead(tail: nat)
    | LCheck(tail: nat, head: nat)
    // is_full
    | FLoadTail
    | FLoadHead(tail: nat)

  datatype Choice = Go | Spurious | Send(m: Msg) | Recv | Len | IsFull | Shutdown

  datatype Out = Out(mem: Mem, pc: Pc, fault: bool)

  function Ok(mem: Mem, pc: Pc): Out { Out(mem, pc, false) }

  /** A slot outside the buffer, a message written over another, or a read where there is no message. */
  function Crash(mem: Mem): Out { Out(mem, Idle, true) }

  function SetSlot(mem: Mem, i: nat, x: Slot): Mem
    requires i < |mem.slots|
  {
    Mem(mem.head, mem.tail, mem.slots[i := x])
  }

  function SetTail(mem: Mem, w: nat): Mem { Mem(mem.head, w, mem.slots) }

  function SetHead(mem: Mem, w: nat): Mem { Mem(w, mem.tail, mem.slots) }

  // ---- start_send and write ----

  function SendLoop(c: Config, mem: Mem, m: Msg, tail: nat): Out {
    if Marked(c, tail) then Ok(mem, Idle)
    else
      var i := Index(c, tail);
      if i >= |mem.slots| then Crash(mem)
      else if mem.slots[i].stamp == tail then Ok(mem, SCas(m, tail))
      else if mem.slots[i].stamp + c.lap == tail + 1 then Ok(mem, SFull(m, tail))
      else Ok(mem, SLoad(m))
  }

  function SendStep(c: Config, mem: Mem, pc: Pc, x: Choice): Out {
    match pc
    case SLoad(m) => Ok(mem, SLoop(m, mem.tail))
    case SLoop(m, tail) => SendLoop(c, mem, m, tail)
    case SCas(m, tail) =>
      if mem.tail != tail || x.Spurious? then Ok(mem, SLoop(m, mem.tail))
      else Ok(SetTail(mem, Next(c, tail)), SWrite(Index(c, tail), tail + 1, m))
    case SFull(m, tail) => Ok(mem, if mem.head + c.lap == tail then Idle else SLoad(m))
    case SWrite(i, stamp, m) =>
      if i >= |mem.slots| || mem.slots[i].msg.Some? then Crash(mem)
      else Ok(SetSlot(mem, i, Slot(mem.slots[i].stamp, Some(m))), SStamp(i, stamp))
    case SStamp(i, stamp) =>
      if i >= |mem.slots| then Crash(mem)
      else Ok(SetSlot(mem, i, Slot(stamp, mem.slots[i].msg)), Idle)
    case _ => Ok(mem, pc)
  }

  // ---- start_recv and read ----

  function RecvLoop(c: Config, mem: Mem, head: nat): Out {
    var i := Index(c, head);
    if i >= |mem.slots| then Crash(mem)
    else if mem.slots[i].stamp == head + 1 then Ok(mem, RCas(head))
    else if mem.slots[i].stamp == head then Ok(mem, REmpty(head))
    else Ok(mem, RLoad)
  }

  function RecvStep(c: Config, mem: Mem, pc: Pc, x: Choice): Out {
    match pc
    case RLoad => Ok(mem, RLoop(mem.head))
    case RLoop(head) => RecvLoop(c, mem, head)
    case RCas(head) =>
      if mem.head != head || x.Spurious? then Ok(mem, RLoop(mem.head))
      else Ok(SetHead(mem, Next(c, head)), RRead(Index(c, head), head + c.lap))
    case REmpty(head) => Ok(mem, if Strip(c, mem.tail) == head then Idle else RLoad)
    case RRead(i, stamp) =>
      if i >= |mem.slots| || mem.slots[i].msg.None? then Crash(mem)
      else Ok(SetSlot(mem, i, Slot(mem.slots[i].stamp, None)), RStamp(i, stamp, mem.slots[i].msg.value))
    case RStamp(i, stamp, m) =>
      if i >= |mem.slots| then Crash(mem)
      else Ok(SetSlot(mem, i, Slot(stamp, mem.slots[i].msg)), Idle)
    case _ => Ok(mem, pc)
  }

  // ---- len, is_full, shutdown, and the start of a call ----

  function QueryStep(mem: Mem, pc: Pc): Out {
    match pc
    case LLoadTail => Ok(mem, LLoadHead(mem.tail))
    case LLoadHead(tail) => Ok(mem, LCheck(tail, mem.head))
    case LCheck(tail, head) => Ok(mem, if mem.tail == tail then Idle else LLoadTail)
    case FLoadTail => Ok(mem, FLoadHead(mem.tail))
    case FLoadHead(tail) => Ok(mem, Idle)
    case _ => Ok(mem, pc)
  }

  function CallStep(c: Config, mem: Mem, x: Choice): Out {
    match x
    case Send(m) => Ok(mem, SLoad(m))
    case Recv => Ok(mem, RLoad)
    case Len => Ok(mem, LLoadTail)
    case IsFull => Ok(mem, FLoadTail)
    case Shutdown => Ok(SetTail(mem, SetMark(c, mem.tail)), Idle)
    case _ => Ok(mem, Idle)
  }

  predicate Sending(pc: Pc) { pc.SLoad? || pc.SLoop? || pc.SCas? || pc.SFull? || pc.SWrite? || pc.SStamp? }

  predicate Receiving(pc: Pc) { pc.RLoad? || pc.RLoop? || pc.RCas? || pc.REmpty? || pc.RRead? || pc.RStamp? }

  function MemStep(c: Config, mem: Mem, pc: Pc, x: Choice): Out {
    if pc.Idle? then CallStep(c, mem, x)
    else if Sending(pc) then SendStep(c, mem, pc, x)
    else if Receiving(pc) then RecvStep(c, mem, pc, x)
    else QueryStep(mem, pc)
  }

  // ---- specification state ----

  /** How far a position has come, from its claim by a sender to the end of its read. */
  datatype Cell =
    | Writing(t: nat)   // claimed by sender `t`
    | Written(t: nat)   // message stored, stamp not yet
    | Full
    | Reading(t: nat)   // claimed by receiver `t`
    | Moved(t: nat)     // message taken, stamp not yet
    | Done

  /**
   `log[p]` is the message accepted for position `p`, `cells[p]` how far it has
   come, `taken` the number of positions claimed by receivers, and `claim[t]` the
   position that thread `t` claimed last.
   */
  datatype Aux = Aux(log: seq<Msg>, cells: seq<Cell>, taken: nat, claim: map<nat, nat>)

  datatype State = State(mem: Mem, threads: seq<Pc>, fault: bool, aux: Aux)

  function SetCell(aux: Aux, p: nat, x: Cell): Aux {
    if p < |aux.cells| then Aux(aux.log, aux.cells[p := x], aux.taken, aux.claim) else aux
  }

  function Claim(aux: Aux, t: nat): nat { if t in aux.claim then aux.claim[t] else 0 }

  function Accept(aux: Aux, t: nat, m: Msg): Aux {
    Aux(aux.log + [m], aux.cells + [Writing(t)], aux.taken, aux.claim[t := |aux.log|])
  }

  function Take(aux: Aux, t: nat): Aux {
    var x := SetCell(aux, aux.taken, Reading(t));
    Aux(x.log, x.cells, x.taken + 1, x.claim[t := aux.taken])
  }

  function Annotate(aux: Aux, t: nat, pc: Pc, out: Out): Aux {
    match pc
    case SCas(m, _) => if out.pc.SWrite? then Accept(aux, t, m) else aux
    case SWrite(_, _, _) => SetCell(aux, Claim(aux, t), Written(t))
    case SStamp(_, _) => SetCell(aux, Claim(aux, t), Full)
    case RCas(_) => if out.pc.RRead? then Take(aux, t) else aux
    case RRead(_, _) => SetCell(aux, Claim(aux, t), Moved(t))
    case RStamp(_, _, _) => SetCell(aux, Claim(aux, t), Done)
    case _ => aux
  }

  function Step(c: Config, s: State, t: nat, x: Choice): State
    requires t < |s.threads|
  {
    var out := MemStep(c, s.mem, s.threads[t], x);
    State(out.mem, s.threads[t := out.pc], s.fault || out.fault, Annotate(s.aux, t, s.threads[t], out))
  }

  /** `with_capacity`, shared by any number of threads that have not made a call yet. */
  ghost predicate Initial(c: Config, s: State) {
    && s.mem.head == 0 && s.mem.tail == 0 && |s.mem.slots| == c.cap
    && (forall i :: 0 <= i < c.cap ==> s.mem.slots[i] == Slot(i, None))
    && (forall t :: 0 <= t < |s.threads| ==> s.threads[t].Idle?) && !s.fault
    && s.aux.log == [] && s.aux.cells == [] && s.aux.taken == 0 && s.aux.claim == map[]
  }
}
