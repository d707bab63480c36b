/** Every step of the bounded channel keeps the invariant. */
module ArraySteps {
  import opened Common
  import opened ArrayWords
  import opened ArrayProtocol
  import opened ArrayInvariant

  lemma AtBelow(c: Config, p: nat)
    ensures At(c, p) <= p
  {
  }

  lemma WordOrder(c: Config, p: nat, q: nat)
    ensures p < q <==> Stamp(c, p) < Stamp(c, q)
    ensures p == q <==> Stamp(c, p) == Stamp(c, q)
  {
    if p < q {
      StampGrows(c, p, q);
    } else if q < p {
      StampGrows(c, q, p);
    }
  }

  /** Between two positions of the same slot, at most one is the last claimed. */
  lemma LastOfSlot(c: Config, p: nat, q: nat, n: nat)
    requires p < n && q < n && n <= p + c.cap && n <= q + c.cap && At(c, p) == At(c, q)
    ensures p == q
  {
    if p < q {
      SameSlot(c, p, q);
    } else if q < p {
      SameSlot(c, q, p);
    }
  }

  // ---- putting a step together ----

  lemma Assemble(c: Config, s: State, t: nat, x: Choice, mem': Mem, aux': Aux, pc': Pc)
    requires Inv(c, s) && t < |s.threads|
    requires Step(c, s, t, x) == State(mem', s.threads[t := pc'], false, aux')
    requires Words(c, mem', aux') && Cells(c, mem', aux') && Guar(c, s.mem, s.aux, t, mem', aux')
    requires ThreadOk(c, mem', aux', t, pc') && Held(aux', s.threads[t := pc'])
    ensures Inv(c, Step(c, s, t, x))
  {
    ThreadsStep(c, s.mem, s.aux, s.threads, t, mem', aux', pc');
  }

  /** The thread has a claimed slot in its hands. */
  predicate Holding(pc: Pc) { pc.SWrite? || pc.SStamp? || pc.RRead? || pc.RStamp? }

  lemma HeldLocal(aux: Aux, threads: seq<Pc>, t: nat, pc': Pc)
    requires Held(aux, threads) && t < |threads| && !Holding(threads[t])
    ensures Held(aux, threads[t := pc'])
  {
  }

  lemma GuarSame(c: Config, mem: Mem, aux: Aux, t: nat)
    requires Words(c, mem, aux)
    ensures Guar(c, mem, aux, t, mem, aux)
  {
  }

  /** A step that only moves the thread. */
  lemma LocalStep(c: Config, s: State, t: nat, x: Choice, pc': Pc)
    requires Inv(c, s) && t < |s.threads| && !Holding(s.threads[t])
    requires Step(c, s, t, x) == State(s.mem, s.threads[t := pc'], false, s.aux)
    requires ThreadOk(c, s.mem, s.aux, t, pc')
    ensures Inv(c, Step(c, s, t, x))
  {
    GuarSame(c, s.mem, s.aux, t);
    HeldLocal(s.aux, s.threads, t, pc');
    Assemble(c, s, t, x, s.mem, s.aux, pc');
  }

  // ---- loads ----

  lemma LoadedTail(c: Config, mem: Mem, aux: Aux)
    requires Words(c, mem, aux)
    ensures TailWord(c, mem, aux, mem.tail)
  {
  }

  lemma LoadedHead(c: Config, mem: Mem, aux: Aux)
    requires Words(c, mem, aux)
    ensures HeadWord(c, mem, aux, mem.head)
  {
  }

  lemma UnmarkedWord(c: Config, mem: Mem, aux: Aux, tail: nat)
    requires TailWord(c, mem, aux, tail) && !Marked(c, tail)
    ensures SentWord(c, mem, aux, tail) && Index(c, tail) < c.cap
  {
    var p :| 0 <= p <= |aux.log| && (tail == Stamp(c, p) || tail == Stamp(c, p) + c.mark);
    StampParts(c, p);
  }

  lemma SendLoopOk(c: Config, mem: Mem, aux: Aux, t: nat, m: Msg, tail: nat)
    requires Words(c, mem, aux) && TailWord(c, mem, aux, tail)
    ensures var out := SendLoop(c, mem, m, tail);
      out.mem == mem && !out.fault && ThreadOk(c, mem, aux, t, out.pc) && !Holding(out.pc)
  {
    if !Marked(c, tail) {
      UnmarkedWord(c, mem, aux, tail);
    }
  }

  lemma SendLoad(c: Config, s: State, t: nat, x: Choice)
    requires Inv(c, s) && t < |s.threads|
    requires var pc := s.threads[t]; pc.SLoad? || pc.SLoop? || (pc.SCas? && MemStep(c, s.mem, pc, x).pc.SLoop?)
    ensures Inv(c, Step(c, s, t, x))
  {
    var pc := s.threads[t];
    LoadedTail(c, s.mem, s.aux);
    assert ThreadOk(c, s.mem, s.aux, t, pc);
    if pc.SLoop? {
      SendLoopOk(c, s.mem, s.aux, t, pc.m, pc.tail);
      LocalStep(c, s, t, x, SendLoop(c, s.mem, pc.m, pc.tail).pc);
    } else {
      LocalStep(c, s, t, x, SLoop(pc.m, s.mem.tail));
    }
  }

  lemma RecvLoopOk(c: Config, mem: Mem, aux: Aux, t: nat, head: nat)
    requires Words(c, mem, aux) && HeadWord(c, mem, aux, head)
    ensures var out := RecvLoop(c, mem, head);
      out.mem == mem && !out.fault && ThreadOk(c, mem, aux, t, out.pc) && !Holding(out.pc)
  {
    var p :| 0 <= p <= aux.taken && head == Stamp(c, p);
    StampParts(c, p);
  }

  lemma RecvLoad(c: Config, s: State, t: nat, x: Choice)
    requires Inv(c, s) && t < |s.threads|
    requires var pc := s.threads[t]; pc.RLoad? || pc.RLoop? || (pc.RCas? && MemStep(c, s.mem, pc, x).pc.RLoop?)
    ensures Inv(c, Step(c, s, t, x))
  {
    var pc := s.threads[t];
    LoadedHead(c, s.mem, s.aux);
    assert ThreadOk(c, s.mem, s.aux, t, pc);
    if pc.RLoop? {
      RecvLoopOk(c, s.mem, s.aux, t, pc.head);
      LocalStep(c, s, t, x, RecvLoop(c, s.mem, pc.head).pc);
    } else {
      LocalStep(c, s, t, x, RLoop(s.mem.head));
    }
  }

  /** The verdicts, `len` and `is_full`, and the start of every call but `shutdown`. */
  lemma OtherLocal(c: Config, s: State, t: nat, x: Choice)
    requires Inv(c, s) && t < |s.threads|
    requires var pc := s.threads[t];
      pc.SFull? || pc.REmpty? || (pc.Idle? && !x.Shutdown?)
      || !(Sending(pc) || Receiving(pc) || pc.Idle?)
    ensures Inv(c, Step(c, s, t, x))
  {
    LocalStep(c, s, t, x, MemStep(c, s.mem, s.threads[t], x).pc);
  }

  // ---- a sender claims a slot ----

  /**
   The stamp a sender read is still there when its CAS succeeds; then the last
   reader of the slot is done with it and the channel is not full.
   */
  lemma FreeSlot(c: Config, mem: Mem, aux: Aux)
    requires Words(c, mem, aux) && Cells(c, mem, aux)
    requires mem.tail == Stamp(c, |aux.log|) && mem.slots[At(c, |aux.log|)].stamp == mem.tail
    ensures |aux.log| < aux.taken + c.cap && mem.slots[At(c, |aux.log|)].msg.None?
    ensures |aux.log| >= c.cap ==> aux.cells[|aux.log| - c.cap].Done?
  {
    var n := |aux.log|;
    if n >= c.cap {
      NextLap(c, n - c.cap);
      assert CellOk(c, mem, aux, n - c.cap);
    }
  }

  function Claimed(c: Config, mem: Mem): Mem { SetTail(mem, Next(c, mem.tail)) }

  lemma AcceptCell(c: Config, mem: Mem, aux: Aux, t: nat, m: Msg, p: nat)
    requires Words(c, mem, aux) && Cells(c, mem, aux) && p <= |aux.log|
    requires mem.tail == Stamp(c, |aux.log|) && mem.slots[At(c, |aux.log|)].stamp == mem.tail
    ensures CellOk(c, Claimed(c, mem), Accept(aux, t, m), p)
  {
    FreeSlot(c, mem, aux);
    if p < |aux.log| {
      assert CellOk(c, mem, aux, p);
    }
  }

  lemma AcceptWords(c: Config, mem: Mem, aux: Aux, t: nat, m: Msg)
    requires Words(c, mem, aux) && Cells(c, mem, aux)
    requires mem.tail == Stamp(c, |aux.log|) && mem.slots[At(c, |aux.log|)].stamp == mem.tail
    ensures Words(c, Claimed(c, mem), Accept(aux, t, m)) && Cells(c, Claimed(c, mem), Accept(aux, t, m))
  {
    FreeSlot(c, mem, aux);
    StampParts(c, |aux.log|);
    forall p | 0 <= p <= |aux.log| ensures CellOk(c, Claimed(c, mem), Accept(aux, t, m), p) {
      AcceptCell(c, mem, aux, t, m, p);
    }
  }

  lemma AcceptGuar(c: Config, mem: Mem, aux: Aux, t: nat, m: Msg)
    requires Words(c, mem, aux) && mem.tail == Stamp(c, |aux.log|)
    ensures Guar(c, mem, aux, t, Claimed(c, mem), Accept(aux, t, m))
    ensures ThreadOk(c, Claimed(c, mem), Accept(aux, t, m), t, SWrite(Index(c, mem.tail), mem.tail + 1, m))
  {
    StampParts(c, |aux.log|);
    WordOrder(c, |aux.log|, |aux.log| + 1);
  }

  lemma AcceptHeld(aux: Aux, threads: seq<Pc>, t: nat, m: Msg, pc': Pc)
    requires Held(aux, threads) && t < |threads| && !Holding(threads[t]) && pc'.SWrite?
    requires |aux.cells| == |aux.log|
    ensures Held(Accept(aux, t, m), threads[t := pc'])
  {
  }

  lemma SendClaim(c: Config, s: State, t: nat, x: Choice)
    requires Inv(c, s) && t < |s.threads|
    requires s.threads[t].SCas? && MemStep(c, s.mem, s.threads[t], x).pc.SWrite?
    ensures Inv(c, Step(c, s, t, x))
  {
    var SCas(m, tail) := s.threads[t];
    assert ThreadOk(c, s.mem, s.aux, t, s.threads[t]);
    SavedTail(c, s.mem, s.aux, tail);
    AcceptWords(c, s.mem, s.aux, t, m);
    AcceptGuar(c, s.mem, s.aux, t, m);
    AcceptHeld(s.aux, s.threads, t, m, SWrite(Index(c, tail), tail + 1, m));
    Assemble(c, s, t, x, Claimed(c, s.mem), Accept(s.aux, t, m), SWrite(Index(c, tail), tail + 1, m));
  }

  /** An unmarked saved word that equals the tail is the word of the next position. */
  lemma SavedTail(c: Config, mem: Mem, aux: Aux, tail: nat)
    requires Words(c, mem, aux) && SentWord(c, mem, aux, tail) && mem.tail == tail
    ensures tail == Stamp(c, |aux.log|) && Index(c, tail) == At(c, |aux.log|)
  {
    var p :| 0 <= p <= |aux.log| && tail == Stamp(c, p);
    StampParts(c, p);
    StampParts(c, |aux.log|);
  }

  // ---- a receiver claims a slot ----

  /** A drained channel invites no receiver. */
  lemma DrainedSlot(c: Config, mem: Mem, aux: Aux)
    requires Words(c, mem, aux) && Cells(c, mem, aux) && aux.taken == |aux.log|
    ensures mem.slots[At(c, aux.taken)].stamp != mem.head + 1
  {
    var n := aux.taken;
    if n >= c.cap {
      NextLap(c, n - c.cap);
      assert CellOk(c, mem, aux, n - c.cap);
    }
  }

  /** The stamp a receiver read is still there when its CAS succeeds; then the slot holds an unclaimed message. */
  lemma FullSlot(c: Config, mem: Mem, aux: Aux)
    requires Words(c, mem, aux) && Cells(c, mem, aux)
    requires mem.slots[At(c, aux.taken)].stamp == mem.head + 1
    ensures aux.taken < |aux.log| && aux.cells[aux.taken].Full?
  {
    if aux.taken == |aux.log| {
      DrainedSlot(c, mem, aux);
    } else {
      assert CellOk(c, mem, aux, aux.taken);
    }
  }

  function Taken(c: Config, mem: Mem): Mem { SetHead(mem, Next(c, mem.head)) }

  lemma TakeCell(c: Config, mem: Mem, aux: Aux, t: nat, p: nat)
    requires Words(c, mem, aux) && Cells(c, mem, aux) && p < |aux.log|
    requires mem.slots[At(c, aux.taken)].stamp == mem.head + 1
    ensures CellOk(c, Taken(c, mem), Take(aux, t), p)
  {
    FullSlot(c, mem, aux);
    assert CellOk(c, mem, aux, p);
  }

  lemma TakeWords(c: Config, mem: Mem, aux: Aux, t: nat)
    requires Words(c, mem, aux) && Cells(c, mem, aux)
    requires mem.slots[At(c, aux.taken)].stamp == mem.head + 1
    ensures Words(c, Taken(c, mem), Take(aux, t)) && Cells(c, Taken(c, mem), Take(aux, t))
  {
    FullSlot(c, mem, aux);
    StampParts(c, aux.taken);
    forall p | 0 <= p < |aux.log| ensures CellOk(c, Taken(c, mem), Take(aux, t), p) {
      TakeCell(c, mem, aux, t, p);
    }
  }

  lemma TakeGuar(c: Config, mem: Mem, aux: Aux, t: nat)
    requires Words(c, mem, aux) && aux.taken < |aux.log| && aux.cells[aux.taken].Full?
    ensures Guar(c, mem, aux, t, Taken(c, mem), Take(aux, t))
    ensures ThreadOk(c, Taken(c, mem), Take(aux, t), t, RRead(Index(c, mem.head), mem.head + c.lap))
  {
    StampParts(c, aux.taken);
    WordOrder(c, aux.taken, aux.taken + 1);
    NextLap(c, aux.taken);
  }

  lemma TakeHeld(aux: Aux, threads: seq<Pc>, t: nat, pc': Pc)
    requires Held(aux, threads) && t < |threads| && !Holding(threads[t]) && pc'.RRead?
    requires aux.taken < |aux.cells|
    ensures Held(Take(aux, t), threads[t := pc'])
  {
  }

  lemma SavedHead(c: Config, mem: Mem, aux: Aux, head: nat)
    requires Words(c, mem, aux) && mem.head == head
    ensures head == Stamp(c, aux.taken) && Index(c, head) == At(c, aux.taken)
  {
    StampParts(c, aux.taken);
  }

  lemma RecvClaim(c: Config, s: State, t: nat, x: Choice)
    requires Inv(c, s) && t < |s.threads|
    requires s.threads[t].RCas? && MemStep(c, s.mem, s.threads[t], x).pc.RRead?
    ensures Inv(c, Step(c, s, t, x))
  {
    var RCas(head) := s.threads[t];
    assert ThreadOk(c, s.mem, s.aux, t, s.threads[t]);
    SavedHead(c, s.mem, s.aux, head);
    FullSlot(c, s.mem, s.aux);
    TakeWords(c, s.mem, s.aux, t);
    TakeGuar(c, s.mem, s.aux, t);
    TakeHeld(s.aux, s.threads, t, RRead(Index(c, head), head + c.lap));
    Assemble(c, s, t, x, Taken(c, s.mem), Take(s.aux, t), RRead(Index(c, head), head + c.lap));
  }

  // ---- the owner of a slot works on it ----

  /** Cell and slot of position `p` change together. */
  lemma SlotCells(c: Config, mem: Mem, aux: Aux, p: nat, slot: Slot, x: Cell)
    requires Words(c, mem, aux) && Cells(c, mem, aux) && p < |aux.log| && !aux.cells[p].Done?
    requires Sent(x) == Sent(aux.cells[p]) && SlotOk(c, slot, x, p, aux.log)
    ensures Cells(c, SetSlot(mem, At(c, p), slot), SetCell(aux, p, x))
    ensures Words(c, SetSlot(mem, At(c, p), slot), SetCell(aux, p, x))
  {
    assert CellOk(c, mem, aux, p);
    AtBelow(c, p);
    forall q | 0 <= q < |aux.log| ensures CellOk(c, SetSlot(mem, At(c, p), slot), SetCell(aux, p, x), q) {
      assert CellOk(c, mem, aux, q);
      if |aux.log| <= q + c.cap && At(c, p) == At(c, q) {
        LastOfSlot(c, p, q, |aux.log|);
      }
    }
  }

  /** An owned slot does not invite a claim. */
  lemma NotInviting(c: Config, mem: Mem, aux: Aux, p: nat)
    requires Words(c, mem, aux) && Cells(c, mem, aux) && p < |aux.log| && Pending(aux.cells[p])
    ensures At(c, p) == Index(c, mem.tail) ==> mem.slots[At(c, p)].stamp != mem.tail
    ensures At(c, p) == Index(c, mem.head) ==> mem.slots[At(c, p)].stamp != mem.head + 1
  {
    var n := |aux.log|;
    assert CellOk(c, mem, aux, p);
    StampParts(c, n);
    StampParts(c, aux.taken);
    if At(c, p) == At(c, n) {
      SameSlot(c, p, n);
    }
    if At(c, p) == At(c, aux.taken) {
      if p < aux.taken {
        SameSlot(c, p, aux.taken);
      } else if aux.taken < p {
        SameSlot(c, aux.taken, p);
      }
    }
  }

  lemma SlotGuar(c: Config, mem: Mem, aux: Aux, t: nat, p: nat, slot: Slot, x: Cell)
    requires Words(c, mem, aux) && Cells(c, mem, aux) && p < |aux.log|
    requires Pending(aux.cells[p]) && aux.cells[p].t == t
    ensures Guar(c, mem, aux, t, SetSlot(mem, At(c, p), slot), SetCell(aux, p, x))
  {
    NotInviting(c, mem, aux, p);
  }

  lemma SlotHeld(aux: Aux, threads: seq<Pc>, t: nat, p: nat, x: Cell, pc': Pc)
    requires Held(aux, threads) && t < |threads| && p < |aux.cells|
    requires t in aux.claim && aux.claim[t] == p
    requires Pending(x) ==> x.t == t && HeldBy(pc', aux, t, p, x)
    ensures Held(SetCell(aux, p, x), threads[t := pc'])
  {
  }

  function SlotAfter(c: Config, aux: Aux, p: nat, slot: Slot): Slot
    requires p < |aux.cells| && |aux.cells| == |aux.log|
  {
    match aux.cells[p]
    case Writing(_) => Slot(slot.stamp, Some(aux.log[p]))
    case Written(_) => Slot(Stamp(c, p) + 1, slot.msg)
    case Reading(_) => Slot(slot.stamp, None)
    case _ => Slot(Stamp(c, p + c.cap), slot.msg)
  }

  function CellAfter(x: Cell, t: nat): Cell {
    match x
    case Writing(_) => Written(t)
    case Written(_) => Full
    case Reading(_) => Moved(t)
    case _ => Done
  }

  function PcAfter(c: Config, aux: Aux, p: nat, i: nat, stamp: nat): Pc
    requires p < |aux.cells| && |aux.cells| == |aux.log|
  {
    match aux.cells[p]
    case Writing(_) => SStamp(i, stamp)
    case Reading(_) => RStamp(i, stamp, aux.log[p])
    case _ => Idle
  }

  lemma SlotWork(c: Config, mem: Mem, aux: Aux, t: nat, p: nat)
    requires Words(c, mem, aux) && Cells(c, mem, aux) && p < |aux.log|
    requires Pending(aux.cells[p]) && aux.cells[p].t == t && t in aux.claim && aux.claim[t] == p
    ensures var slot := SlotAfter(c, aux, p, mem.slots[At(c, p)]);
      var mem', aux' := SetSlot(mem, At(c, p), slot), SetCell(aux, p, CellAfter(aux.cells[p], t));
      && Words(c, mem', aux') && Cells(c, mem', aux') && Guar(c, mem, aux, t, mem', aux')
  {
    assert CellOk(c, mem, aux, p);
    var slot := SlotAfter(c, aux, p, mem.slots[At(c, p)]);
    SlotCells(c, mem, aux, p, slot, CellAfter(aux.cells[p], t));
    SlotGuar(c, mem, aux, t, p, slot, CellAfter(aux.cells[p], t));
  }

  lemma OwnerOut(c: Config, mem: Mem, aux: Aux, t: nat, pc: Pc, x: Choice)
    requires Words(c, mem, aux) && Cells(c, mem, aux) && ThreadOk(c, mem, aux, t, pc) && Holding(pc)
    ensures t in aux.claim && aux.claim[t] < |aux.log|
    ensures var p := aux.claim[t];
      && Pending(aux.cells[p]) && aux.cells[p].t == t && pc.i == At(c, p)
      && MemStep(c, mem, pc, x) ==
           Ok(SetSlot(mem, At(c, p), SlotAfter(c, aux, p, mem.slots[At(c, p)])), PcAfter(c, aux, p, pc.i, pc.stamp))
      && Annotate(aux, t, pc, MemStep(c, mem, pc, x)) == SetCell(aux, p, CellAfter(aux.cells[p], t))
  {
    assert CellOk(c, mem, aux, aux.claim[t]);
  }

  lemma OwnerStep(c: Config, s: State, t: nat, x: Choice)
    requires Inv(c, s) && t < |s.threads| && Holding(s.threads[t])
    ensures Inv(c, Step(c, s, t, x))
  {
    var pc := s.threads[t];
    assert ThreadOk(c, s.mem, s.aux, t, pc);
    OwnerOut(c, s.mem, s.aux, t, pc, x);
    var p := s.aux.claim[t];
    SlotWork(c, s.mem, s.aux, t, p);
    var mem' := SetSlot(s.mem, At(c, p), SlotAfter(c, s.aux, p, s.mem.slots[At(c, p)]));
    var aux' := SetCell(s.aux, p, CellAfter(s.aux.cells[p], t));
    var pc' := PcAfter(c, s.aux, p, pc.i, pc.stamp);
    SlotHeld(s.aux, s.threads, t, p, CellAfter(s.aux.cells[p], t), pc');
    Assemble(c, s, t, x, mem', aux', pc');
  }

  // ---- shutdown ----

  function ClosedMem(c: Config, mem: Mem): Mem { SetTail(mem, SetMark(c, mem.tail)) }

  lemma CloseFacts(c: Config, mem: Mem, aux: Aux, t: nat)
    requires Words(c, mem, aux) && Cells(c, mem, aux)
    ensures Words(c, ClosedMem(c, mem), aux) && Cells(c, ClosedMem(c, mem), aux)
    ensures Guar(c, mem, aux, t, ClosedMem(c, mem), aux)
  {
    StampParts(c, |aux.log|);
    forall p | 0 <= p < |aux.cells| ensures CellOk(c, ClosedMem(c, mem), aux, p) {
      assert CellOk(c, mem, aux, p);
    }
  }

  lemma Close(c: Config, s: State, t: nat)
    requires Inv(c, s) && t < |s.threads| && s.threads[t].Idle?
    ensures Inv(c, Step(c, s, t, Shutdown))
  {
    CloseFacts(c, s.mem, s.aux, t);
    HeldLocal(s.aux, s.threads, t, Idle);
    Assemble(c, s, t, Shutdown, ClosedMem(c, s.mem), s.aux, Idle);
  }

  /** Every step keeps the invariant. */
  lemma StepKeeps(c: Config, s: State, t: nat, x: Choice)
    requires Inv(c, s) && t < |s.threads|
    ensures Inv(c, Step(c, s, t, x))
  {
    var pc := s.threads[t];
    if Holding(pc) {
      OwnerStep(c, s, t, x);
    } else if pc.SCas? && MemStep(c, s.mem, pc, x).pc.SWrite? {
      SendClaim(c, s, t, x);
    } else if pc.RCas? && MemStep(c, s.mem, pc, x).pc.RRead? {
      RecvClaim(c, s, t, x);
    } else if pc.SLoad? || pc.SLoop? || pc.SCas? {
      SendLoad(c, s, t, x);
    } else if pc.RLoad? || pc.RLoop? || pc.RCas? {
      RecvLoad(c, s, t, x);
    } else if pc.Idle? && x.Shutdown? {
      Close(c, s, t);
    } else {
      OtherLocal(c, s, t, x);
    }
  }
}
