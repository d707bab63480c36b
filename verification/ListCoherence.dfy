/** Saved copies, critical sections and the head's hint in the unbounded channel. */
module ListCoherence {
  import opened Common
  import opened ListProtocol
  import opened ListInvariant
  import opened ListFrame
  import opened ListTheorems

  /**
   Index and block of the tail are loaded one after the other, and both may be
   stale. If the CAS succeeds all the same, the saved block is the block the
   tail points to now, it is the block of the claimed lap, and it is not freed;
   the slot is blank, and if it is the last one, a live next block is in hand.
   */
  lemma TailCasIsCoherent(s: State, t: nat, c: Choice)
    requires Reachable(s) && t < |s.threads| && s.threads[t].SLoop?
    requires Step(s, t, c).threads[t].SDropSpare? || Step(s, t, c).threads[t].SStoreTailBlock?
    ensures var SLoop(_, nb, tail, block) := s.threads[t];
      && Offset(tail) < 31 && block.At? && s.mem.tailBlock == block && Live(s.mem, block.id)
      && Lap(tail) < |s.aux.chain| && s.aux.chain[Lap(tail)] == block.id
      && !s.mem.heap[block.id].slots[Offset(tail)].write && s.mem.heap[block.id].slots[Offset(tail)].msg.None?
      && (Offset(tail) == 30 ==> nb.At? && Live(s.mem, nb.id) && nb != block)
  {
    ReachableInv(s);
    ThreadFacts(s, t);
    ClaimCondition(s, t, c);
    TailCasFacts(s.mem, s.aux, t, s.threads[t]);
  }

  lemma TailCasFacts(mem: Mem, aux: Aux, t: nat, pc: Pc)
    requires Shape(mem, aux) && ChainOk(aux) && Blocks(mem, aux) && SendOk(mem, aux, t, pc) && pc.SLoop?
    requires !Marked(pc.tail) && Offset(pc.tail) != 31 && pc.block.At? && mem.tail == pc.tail
    ensures mem.tailBlock == pc.block && Live(mem, pc.block.id)
    ensures Lap(pc.tail) < |aux.chain| && aux.chain[Lap(pc.tail)] == pc.block.id
    ensures var x := mem.heap[pc.block.id].slots[Offset(pc.tail)]; !x.write && x.msg.None?
    ensures pc.nb.At? ==> Live(mem, pc.nb.id) && pc.nb != pc.block
  {
    Send.TailBlockIsLive(mem, aux, pc.tail, pc.block);
    UnclaimedIsEmpty(mem, aux, pc.block.id, Offset(pc.tail));
  }

  lemma ClaimCondition(s: State, t: nat, c: Choice)
    requires t < |s.threads| && s.threads[t].SLoop?
    requires Step(s, t, c).threads[t].SDropSpare? || Step(s, t, c).threads[t].SStoreTailBlock?
    ensures var SLoop(_, nb, tail, block) := s.threads[t];
      !Marked(tail) && Offset(tail) != 31 && block.At? && s.mem.tail == tail && (Offset(tail) == 30 ==> nb.At?)
  {
  }

  lemma UnclaimedIsEmpty(mem: Mem, aux: Aux, b: nat, j: nat)
    requires Blocks(mem, aux) && InChain(aux, b, j) && aux.info[b].cells[j] == BLANK_CELL
    ensures !mem.heap[b].slots[j].write && mem.heap[b].slots[j].msg.None?
  {
    CellFact(mem, aux, b, j);
  }

  /**
   The same for the head: the claimed slot belongs to the block of its lap, which
   is not freed; a sender has claimed it, and no receiver has.
   */
  lemma HeadCasIsCoherent(s: State, t: nat, c: Choice)
    requires Reachable(s) && t < |s.threads| && s.threads[t].RCas?
    requires Step(s, t, c).threads[t].RWaitWrite? || Step(s, t, c).threads[t].RWaitNext?
    ensures var RCas(head, _, block) := s.threads[t];
      && block.At? && s.mem.headBlock == block && Live(s.mem, block.id)
      && Lap(head) < |s.aux.chain| && s.aux.chain[Lap(head)] == block.id
      && Index(head) < Index(s.mem.tail) && Offset(head) < 31
      && !s.mem.heap[block.id].slots[Offset(head)].read && Pos(Index(head)) !in s.aux.got
      && forall u :: 0 <= u < |s.threads| ==> ReaderDuty(s.threads[u], u, block.id, Offset(head)).Nobody?
  {
    ReachableInv(s);
    ThreadFacts(s, t);
    TakeCondition(s, t, c);
    HeadCasFacts(s.mem, s.aux, t, s.threads[t]);
    var b, j := s.threads[t].block.id, Offset(s.threads[t].head);
    forall u | 0 <= u < |s.threads| ensures ReaderDuty(s.threads[u], u, b, j).Nobody? {
      ThreadFacts(s, u);
      NoReader(s.mem, s.aux, u, s.threads[u], b, j);
    }
  }

  lemma NoReader(mem: Mem, aux: Aux, u: nat, pc: Pc, b: nat, j: nat)
    requires RecvOk(mem, aux, u, pc) && b < |aux.info| && j < 31 && aux.info[b].cells[j].reader.Nobody?
    ensures ReaderDuty(pc, u, b, j).Nobody?
  {
  }

  lemma HeadCasFacts(mem: Mem, aux: Aux, t: nat, pc: Pc)
    requires Shape(mem, aux) && ChainOk(aux) && Blocks(mem, aux) && RecvOk(mem, aux, t, pc) && pc.RCas?
    requires pc.block.At? && mem.head == pc.head
    ensures mem.headBlock == pc.block && Live(mem, pc.block.id)
    ensures Lap(pc.head) < |aux.chain| && aux.chain[Lap(pc.head)] == pc.block.id
    ensures Index(pc.head) < Index(mem.tail) && Offset(pc.head) < 31
    ensures pc.block.id < |aux.info| && aux.info[pc.block.id].cells[Offset(pc.head)].reader.Nobody?
    ensures !mem.heap[pc.block.id].slots[Offset(pc.head)].read && Pos(Index(pc.head)) !in aux.got
  {
    UntakenIsUnread(mem, aux, pc.head);
    Recv.HeadBlockIsLive(mem, aux, t, pc.head, pc.newHead, pc.block);
  }

  lemma UntakenIsUnread(mem: Mem, aux: Aux, head: nat)
    requires Shape(mem, aux) && ChainOk(aux) && Blocks(mem, aux) && mem.head == head
    requires Offset(head) < 31 && Lap(head) < |aux.chain|
    ensures var b, j := aux.chain[Lap(head)], Offset(head);
      && b < |aux.info| && aux.info[b].cells[j].reader.Nobody? && !mem.heap[b].slots[j].read && Pos(Index(head)) !in aux.got
  {
    CellFact(mem, aux, aux.chain[Lap(head)], Offset(head));
  }

  lemma TakeCondition(s: State, t: nat, c: Choice)
    requires t < |s.threads| && s.threads[t].RCas?
    requires Step(s, t, c).threads[t].RWaitWrite? || Step(s, t, c).threads[t].RWaitNext?
    ensures var RCas(head, _, block) := s.threads[t]; block.At? && s.mem.head == head
  {
  }

  // ---- critical sections ----

  predicate InInstall(pc: Pc) { pc.SStoreTailBlock? || pc.SBumpTail? }

  predicate InAdvance(pc: Pc) { BeforeAdvance(pc) || pc.RStoreIndex? }

  lemma SectionOwner(mem: Mem, aux: Aux, t: nat, pc: Pc)
    requires ThreadOk(mem, aux, t, pc)
    ensures InInstall(pc) ==> !aux.install.Vacant? && aux.install.t == t
    ensures InAdvance(pc) ==> !aux.advance.Vacant? && aux.advance.t == t
  {
  }

  lemma SectionOwners(s: State)
    requires Inv(s)
    ensures forall t :: 0 <= t < |s.threads| && InInstall(s.threads[t]) ==> !s.aux.install.Vacant? && s.aux.install.t == t
    ensures forall t :: 0 <= t < |s.threads| && InAdvance(s.threads[t]) ==> !s.aux.advance.Vacant? && s.aux.advance.t == t
  {
    forall t | 0 <= t < |s.threads|
      ensures InInstall(s.threads[t]) ==> !s.aux.install.Vacant? && s.aux.install.t == t
      ensures InAdvance(s.threads[t]) ==> !s.aux.advance.Vacant? && s.aux.advance.t == t
    {
      SectionOwner(s.mem, s.aux, t, s.threads[t]);
    }
  }

  /** At most one thread installs the next block, and at most one moves the head to it. */
  lemma OneAtATime(s: State, t: nat, u: nat)
    requires Reachable(s) && t < |s.threads| && u < |s.threads|
    requires (InInstall(s.threads[t]) && InInstall(s.threads[u])) || (InAdvance(s.threads[t]) && InAdvance(s.threads[u]))
    ensures t == u
  {
    ReachableInv(s);
    SectionOwners(s);
  }

  lemma SectionHasThread(aux: Aux, threads: seq<Pc>)
    requires HeldSections(aux, threads)
    ensures !aux.install.Vacant? ==> exists t :: 0 <= t < |threads| && InInstall(threads[t])
    ensures !aux.advance.Vacant? ==> exists t :: 0 <= t < |threads| && InAdvance(threads[t])
  {
    if !aux.install.Vacant? {
      assert InInstall(threads[aux.install.t]);
    }
    if !aux.advance.Vacant? {
      assert InAdvance(threads[aux.advance.t]);
    }
  }

  /** The index rests on a block end exactly while some thread is in the section that moves it on. */
  lemma BlockEndMeansSection(s: State)
    requires Reachable(s)
    ensures Offset(s.mem.tail) == 31 <==> exists t :: 0 <= t < |s.threads| && InInstall(s.threads[t])
    ensures Offset(s.mem.head) == 31 <==> exists t :: 0 <= t < |s.threads| && InAdvance(s.threads[t])
  {
    ReachableInv(s);
    SectionOwners(s);
    SectionHasThread(s.aux, s.threads);
  }

  // ---- the first block ----

  /** One thread wins the race for the first block; until it stores `head.block` nothing is received. */
  lemma FirstBlockOnce(s: State, t: nat, u: nat)
    requires Reachable(s) && t < |s.threads| && u < |s.threads|
    requires s.threads[t].SStoreHead? && s.threads[u].SStoreHead?
    ensures t == u
    ensures s.mem.headBlock.Null? && Index(s.mem.head) == 0 && s.aux.chain != [] && s.aux.chain[0] == s.threads[t].b
  {
    ReachableInv(s);
    assert ThreadOk(s.mem, s.aux, t, s.threads[t]);
    assert ThreadOk(s.mem, s.aux, u, s.threads[u]);
  }

  /** The first block is installed, and `head.block` is set. */
  predicate Booted(aux: Aux) { aux.boot.None? && aux.chain != [] }

  lemma StoredHead(s: State, t: nat, c: Choice)
    requires Inv(s) && t < |s.threads| && s.threads[t].SStoreHead?
    ensures !Booted(s.aux) && Booted(Step(s, t, c).aux)
  {
    assert ThreadOk(s.mem, s.aux, t, s.threads[t]);
  }

  lemma LoopStaysBooted(mem: Mem, aux: Aux, t: nat, pc: Pc, c: Choice)
    requires Shape(mem, aux) && Booted(aux) && pc.SLoop?
    ensures Booted(Annotate(mem, aux, t, pc, MemStep(mem, pc, c)))
  {
  }

  lemma RestStaysBooted(mem: Mem, aux: Aux, t: nat, pc: Pc, out: Out)
    requires Booted(aux) && !pc.SLoop?
    ensures Booted(Annotate(mem, aux, t, pc, out))
  {
  }

  lemma TurnStaysBooted(s: State, x: (nat, Choice))
    requires Inv(s) && Booted(s.aux)
    ensures Booted(Turn(s, x).aux)
  {
    if x.0 < |s.threads| {
      var pc := s.threads[x.0];
      if pc.SLoop? {
        LoopStaysBooted(s.mem, s.aux, x.0, pc, x.1);
      } else {
        RestStaysBooted(s.mem, s.aux, x.0, pc, MemStep(s.mem, pc, x.1));
      }
    }
  }

  lemma NextBooted(run: seq<State>, sched: Schedule, i: nat)
    requires IsRun(run, sched) && i < |sched| && Booted(run[i].aux)
    ensures Booted(run[i + 1].aux)
  {
    Always(run, sched, i);
    TurnStaysBooted(run[i], sched[i]);
  }

  lemma {:induction false} StaysBooted(run: seq<State>, sched: Schedule, i: nat, j: nat)
    requires IsRun(run, sched) && i <= j < |run| && Booted(run[i].aux)
    ensures Booted(run[j].aux)
  {
    if i < j {
      StaysBooted(run, sched, i, j - 1);
      NextBooted(run, sched, j - 1);
    }
  }

  /** The step is the store of the first block into `head.block`. */
  ghost predicate StoresHeadAt(run: seq<State>, sched: Schedule, i: nat)
    requires i < |sched| && i < |run|
  {
    sched[i].0 < |run[i].threads| && run[i].threads[sched[i].0].SStoreHead?
  }

  /** In any run the first block is put into `head.block` at most once. */
  lemma HeadBlockStoredOnce(run: seq<State>, sched: Schedule, i: nat, j: nat)
    requires IsRun(run, sched) && i <= j < |sched|
    requires StoresHeadAt(run, sched, i) && StoresHeadAt(run, sched, j)
    ensures i == j
  {
    if i < j {
      Always(run, sched, i);
      StoredHead(run[i], sched[i].0, sched[i].1);
      StaysBooted(run, sched, i + 1, j);
      Always(run, sched, j);
      StoredHead(run[j], sched[j].0, sched[j].1);
    }
  }

  // ---- the hint ----

  /** MARK_BIT in the head means the tail is in a later block; and the head never overtakes the tail. */
  lemma HintIsSound(s: State)
    requires Reachable(s)
    ensures Index(s.mem.head) <= Index(s.mem.tail)
    ensures Marked(s.mem.head) ==> Lap(s.mem.head) < Lap(s.mem.tail)
  {
    ReachableInv(s);
  }

  /** A receiver that skips the emptiness check on account of the hint never finds the queue empty. */
  lemma HintedTakeFindsMessage(s: State, t: nat)
    requires Reachable(s) && t < |s.threads| && s.threads[t].RCas? && Marked(s.threads[t].head)
    requires s.mem.head == s.threads[t].head
    ensures Abs(s).items != []
  {
    ReachableInv(s);
    assert ThreadOk(s.mem, s.aux, t, s.threads[t]);
  }
}
