/** Every step of the zero-capacity channel keeps the invariant. */
module ZeroSteps {
  import opened Common
  import opened Select
  import opened ZeroProtocol
  import opened ZeroInvariant

  /** What the new state keeps, seen without the step. */
  ghost predicate Good(mem: Mem, aux: Aux, threads: seq<Pc>, t: nat, mem': Mem, aux': Aux, pc': Pc) {
    && t < |threads| && |mem'.contexts| == |threads| && LockOk(mem', aux', threads[t := pc'])
    && Queues(mem', aux') && Packets(mem', aux') && Contexts(mem', aux')
    && Held(mem', aux', threads[t := pc']) && Guar(mem, aux, t, mem', aux') && ThreadOk(mem', aux', t, pc')
  }

  lemma Assemble(s: State, t: nat, x: Choice, mem': Mem, aux': Aux, pc': Pc)
    requires Inv(s) && t < |s.threads|
    requires MemStep(s.mem, t, s.threads[t], x).mem == mem' && MemStep(s.mem, t, s.threads[t], x).pc == pc'
    requires !MemStep(s.mem, t, s.threads[t], x).fault
    requires Annotate(s.mem, s.aux, t, s.threads[t], MemStep(s.mem, t, s.threads[t], x)) == aux'
    requires Good(s.mem, s.aux, s.threads, t, mem', aux', pc')
    ensures Inv(Step(s, t, x))
  {
    ThreadsStep(s.mem, s.aux, s.threads, t, mem', aux', pc');
  }

  // ---- steps that move only the thread and the lock ----

  /** Nothing but the lock changes. */
  ghost predicate SameButLock(mem: Mem, aux: Aux, mem': Mem, aux': Aux) {
    && mem' == SetLock(mem, mem'.locked) && aux' == SetHolder(aux, aux'.holder)
  }

  ghost predicate SamePlace(mem: Mem, pc: Pc, pc': Pc) {
    OwnPacket(pc') == OwnPacket(pc) && Target(mem, pc') == Target(mem, pc) && pc'.SetReady? == pc.SetReady?
  }

  lemma HeldSame(mem: Mem, aux: Aux, threads: seq<Pc>, t: nat, mem': Mem, aux': Aux, pc': Pc)
    requires Held(mem, aux, threads) && t < |threads| && SamePlace(mem, threads[t], pc')
    requires aux'.info == aux.info && mem'.senders == mem.senders && mem'.receivers == mem.receivers
    ensures Held(mem', aux', threads[t := pc'])
  {
    forall p | 0 <= p < |aux.info|
      ensures OwnerOk(threads[t := pc'], p, aux.info[p]) && PartnerOk(mem', threads[t := pc'], p, aux.info[p].phase)
    {
      assert OwnerOk(threads, p, aux.info[p]) && PartnerOk(mem, threads, p, aux.info[p].phase);
    }
  }

  lemma GuardedSame(mem: Mem, aux: Aux, mem': Mem, aux': Aux)
    requires SameButLock(mem, aux, mem', aux')
    ensures Queues(mem, aux) ==> Queues(mem', aux')
    ensures Packets(mem, aux) ==> Packets(mem', aux')
    ensures Contexts(mem, aux) ==> Contexts(mem', aux')
  {
    if Queues(mem, aux) {
      QueueSame(aux, aux', Sender, mem.senders);
      QueueSame(aux, aux', Receiver, mem.receivers);
    }
  }

  lemma QueueSame(aux: Aux, aux': Aux, s: Side, q: seq<Entry>)
    requires QueueOk(aux, s, q) && aux'.info == aux.info && aux'.picked == aux.picked
    ensures QueueOk(aux', s, q)
  {
    forall i | 0 <= i < |q| ensures EntryOk(aux', s, q[i]) {
      assert EntryOk(aux, s, q[i]);
    }
  }

  /** The thread takes the lock, lets go of it, or leaves it alone. */
  ghost predicate LockMove(aux: Aux, t: nat, pc: Pc, pc': Pc, mem': Mem, aux': Aux) {
    && (mem'.locked <==> aux'.holder.Some?)
    && (aux'.holder != aux.holder ==> (aux.holder.None? && aux'.holder == Some(t)) || (aux.holder == Some(t) && aux'.holder.None?))
    && (InSection(pc') <==> aux'.holder == Some(t))
    && (pc.CloseMark? && aux.marking ==> pc'.CloseMark?)
    && (Picking(pc) ==> Picking(pc') || aux.picked.None?)
  }

  lemma LockSame(mem: Mem, aux: Aux, threads: seq<Pc>, t: nat, mem': Mem, aux': Aux, pc': Pc)
    requires LockOk(mem, aux, threads) && t < |threads| && LockMove(aux, t, threads[t], pc', mem', aux')
    requires aux'.marking == aux.marking && aux'.picked == aux.picked
    ensures LockOk(mem', aux', threads[t := pc'])
  {
  }

  lemma PlainStep(s: State, t: nat, x: Choice, mem': Mem, aux': Aux, pc': Pc)
    requires Inv(s) && t < |s.threads|
    requires MemStep(s.mem, t, s.threads[t], x).mem == mem' && MemStep(s.mem, t, s.threads[t], x).pc == pc'
    requires !MemStep(s.mem, t, s.threads[t], x).fault
    requires Annotate(s.mem, s.aux, t, s.threads[t], MemStep(s.mem, t, s.threads[t], x)) == aux'
    requires SameButLock(s.mem, s.aux, mem', aux') && SamePlace(s.mem, s.threads[t], pc')
    requires LockMove(s.aux, t, s.threads[t], pc', mem', aux') && ThreadOk(mem', aux', t, pc')
    requires s.aux.holder.Some? && s.aux.holder.value != t ==> aux'.holder == s.aux.holder
    ensures Inv(Step(s, t, x))
  {
    GuardedSame(s.mem, s.aux, mem', aux');
    HeldSame(s.mem, s.aux, s.threads, t, mem', aux', pc');
    LockSame(s.mem, s.aux, s.threads, t, mem', aux', pc');
    Assemble(s, t, x, mem', aux', pc');
  }

  predicate Plain(mem: Mem, t: nat, pc: Pc, x: Choice) {
    || pc.Lock? || pc.Unlock? || pc.Leave? || pc.Release? || pc.Relock? || pc.UnlockAgain? || pc.CloseLock? || pc.CloseUnlock?
    || pc.Miss? || pc.Wait? || pc.Idle?
    || (pc.Scan? && !MemStep(mem, t, pc, x).pc.StorePacket?)
    || (pc.WaitReady? && !MemStep(mem, t, pc, x).pc.Idle?)
  }

  /** What the thread knows before a plain step, apart from the rest of the invariant. */
  ghost predicate Knows(mem: Mem, aux: Aux, t: nat, pc: Pc) {
    && ThreadOk(mem, aux, t, pc) && (InSection(pc) <==> aux.holder == Some(t)) && (mem.locked <==> aux.holder.Some?)
    && t < |mem.contexts|
    && (aux.picked.Some? ==> aux.holder.Some?) && (aux.marking && aux.holder == Some(t) ==> pc.CloseMark?)
    && (aux.picked.Some? && aux.holder == Some(t) ==> Picking(pc))
  }

  lemma ThreadKnows(s: State, t: nat)
    requires Inv(s) && t < |s.threads|
    ensures Knows(s.mem, s.aux, t, s.threads[t])
  {
    assert ThreadOk(s.mem, s.aux, t, s.threads[t]);
  }

  lemma LockPlain(mem: Mem, aux: Aux, t: nat, pc: Pc, x: Choice)
    requires Knows(mem, aux, t, pc)
    requires pc.Lock? || pc.Unlock? || pc.Leave? || pc.Release? || pc.Relock? || pc.UnlockAgain? || pc.CloseLock? || pc.CloseUnlock?
    ensures var out := MemStep(mem, t, pc, x);
      var aux' := Annotate(mem, aux, t, pc, out);
      && !out.fault && SameButLock(mem, aux, out.mem, aux') && SamePlace(mem, pc, out.pc)
      && LockMove(aux, t, pc, out.pc, out.mem, aux') && ThreadOk(out.mem, aux', t, out.pc)
      && (aux.holder.Some? && aux.holder.value != t ==> aux'.holder == aux.holder)
  {
  }

  /** The context of a packet's owner says how far the packet has come. */
  lemma WaitFacts(mem: Mem, aux: Aux, t: nat, side: Side, p: nat)
    requires Contexts(mem, aux) && ThreadOk(mem, aux, t, Wait(side, p))
    ensures t < |mem.contexts| && !mem.contexts[t].select.Aborted?
    ensures mem.contexts[t].select.Disconnected? ==> aux.info[p].phase.Cut?
    ensures mem.contexts[t].select.Operation? ==> Paired(aux.info[p].phase)
  {
    assert ContextOk(mem.contexts, p, aux.info[p]);
  }

  lemma WaitPlain(mem: Mem, aux: Aux, t: nat, pc: Pc, x: Choice)
    requires Knows(mem, aux, t, pc) && Contexts(mem, aux) && Packets(mem, aux)
    requires pc.Wait? || (pc.WaitReady? && !MemStep(mem, t, pc, x).pc.Idle?)
    ensures var out := MemStep(mem, t, pc, x);
      var aux' := Annotate(mem, aux, t, pc, out);
      && !out.fault && SameButLock(mem, aux, out.mem, aux') && SamePlace(mem, pc, out.pc)
      && LockMove(aux, t, pc, out.pc, out.mem, aux') && ThreadOk(out.mem, aux', t, out.pc)
      && aux'.holder == aux.holder
  {
    if pc.Wait? {
      WaitFacts(mem, aux, t, pc.side, pc.p);
    } else {
      assert PacketOk(mem.packets[pc.p], aux.info[pc.p]);
    }
  }

  /** An entry that `try_select` passes over is not waiting; it is never the caller's own. */
  lemma SkipFacts(mem: Mem, aux: Aux, t: nat, c: Call, i: nat)
    requires Queues(mem, aux) && Contexts(mem, aux) && i < |Queue(mem, Other(c.side))|
    ensures var e := Queue(mem, Other(c.side))[i];
      && e.cx < |mem.contexts| && e.packet < |aux.info| && e.cx == aux.info[e.packet].owner
      && (mem.contexts[e.cx].select.Waiting? <==> aux.info[e.packet].phase.Queued?)
  {
    var e := Queue(mem, Other(c.side))[i];
    assert EntryOk(aux, Other(c.side), e);
    assert ContextOk(mem.contexts, e.packet, aux.info[e.packet]);
  }

  /** The caller, in the section, has no packet of its own. */
  lemma NotOwn(mem: Mem, aux: Aux, threads: seq<Pc>, t: nat, p: nat)
    requires Held(mem, aux, threads) && t < |threads| && OwnPacket(threads[t]).None? && p < |aux.info|
    ensures aux.info[p].phase.Gone? || aux.info[p].owner != t
  {
    assert OwnerOk(threads, p, aux.info[p]);
  }

  lemma ScanPlain(mem: Mem, aux: Aux, threads: seq<Pc>, t: nat, c: Call, i: nat, x: Choice)
    requires t < |threads| && threads[t] == Scan(c, i) && Held(mem, aux, threads)
    requires Knows(mem, aux, t, threads[t]) && Contexts(mem, aux) && Queues(mem, aux)
    requires !ScanStep(mem, t, c, i).pc.StorePacket?
    ensures var out := ScanStep(mem, t, c, i);
      && out.mem == mem && !out.fault && SamePlace(mem, Scan(c, i), out.pc) && InSection(out.pc)
      && ThreadOk(mem, aux, t, out.pc)
  {
    if i < |Queue(mem, Other(c.side))| {
      SkipFacts(mem, aux, t, c, i);
      NotOwn(mem, aux, threads, t, Queue(mem, Other(c.side))[i].packet);
    }
  }

  lemma PlainKeeps(s: State, t: nat, x: Choice)
    requires Inv(s) && t < |s.threads| && Plain(s.mem, t, s.threads[t], x)
    ensures Inv(Step(s, t, x))
  {
    var pc := s.threads[t];
    var out := MemStep(s.mem, t, pc, x);
    ThreadKnows(s, t);
    if pc.Wait? || pc.WaitReady? {
      WaitPlain(s.mem, s.aux, t, pc, x);
    } else if pc.Scan? {
      ScanPlain(s.mem, s.aux, s.threads, t, pc.c, pc.i, x);
    } else if !pc.Miss? && !pc.Idle? {
      LockPlain(s.mem, s.aux, t, pc, x);
    }
    PlainStep(s, t, x, out.mem, Annotate(s.mem, s.aux, t, pc, out), out.pc);
  }

  // ---- the thread in the section ----

  /** The lock and all it says about threads, after a step of its holder inside the section. */
  lemma LockInside(mem: Mem, aux: Aux, threads: seq<Pc>, t: nat, mem': Mem, aux': Aux, pc': Pc)
    requires LockOk(mem, aux, threads) && t < |threads| && aux.holder == Some(t)
    requires mem'.locked == mem.locked && aux'.holder == aux.holder && InSection(pc')
    requires aux'.marking ==> pc'.CloseMark?
    requires aux'.picked.Some? ==> Picking(pc')
    ensures LockOk(mem', aux', threads[t := pc'])
  {
  }

  /** Nobody else holds the lock while the thread is in the section. */
  lemma GuarInside(mem: Mem, aux: Aux, t: nat, mem': Mem, aux': Aux)
    requires aux.holder == Some(t) && |aux.info| <= |aux'.info|
    requires forall p :: 0 <= p < |aux.info| ==> InfoGuar(aux.info[p], aux'.info[p], t)
    ensures Guar(mem, aux, t, mem', aux')
  {
  }

  // ---- contexts ----

  ghost predicate KeepsSelect(aux: Aux, contexts: seq<Context>, v: nat, x: Context) {
    v < |contexts|
    && (x.select == contexts[v].select
        || forall p :: 0 <= p < |aux.info| ==> aux.info[p].phase.Gone? || aux.info[p].owner != v)
  }

  lemma ContextsSame(mem: Mem, aux: Aux, v: nat, x: Context)
    requires Contexts(mem, aux) && KeepsSelect(aux, mem.contexts, v, x)
    ensures Contexts(SetContext(mem, v, x), aux)
  {
    forall p | 0 <= p < |aux.info| ensures ContextOk(mem.contexts[v := x], p, aux.info[p]) {
      assert ContextOk(mem.contexts, p, aux.info[p]);
    }
  }

  lemma ContextStep(s: State, t: nat, x: Choice, v: nat, cx: Context, pc': Pc)
    requires Inv(s) && t < |s.threads| && s.aux.holder == Some(t) && v < |s.mem.contexts|
    requires KeepsSelect(s.aux, s.mem.contexts, v, cx)
    requires MemStep(s.mem, t, s.threads[t], x) == Ok(SetContext(s.mem, v, cx), pc')
    requires Annotate(s.mem, s.aux, t, s.threads[t], Ok(SetContext(s.mem, v, cx), pc')) == s.aux
    requires SamePlace(s.mem, s.threads[t], pc') && InSection(pc')
    requires s.aux.picked.Some? ==> Picking(pc')
    requires !s.aux.marking
    requires ThreadOk(SetContext(s.mem, v, cx), s.aux, t, pc')
    ensures Inv(Step(s, t, x))
  {
    var mem' := SetContext(s.mem, v, cx);
    ContextsSame(s.mem, s.aux, v, cx);
    HeldSame(s.mem, s.aux, s.threads, t, mem', s.aux, pc');
    LockInside(s.mem, s.aux, s.threads, t, mem', s.aux, pc');
    GuarInside(s.mem, s.aux, t, mem', s.aux);
    Assemble(s, t, x, mem', s.aux, pc');
  }

  lemma NoneOwn(mem: Mem, aux: Aux, threads: seq<Pc>, t: nat)
    requires Held(mem, aux, threads) && t < |threads| && OwnPacket(threads[t]).None?
    ensures forall p :: 0 <= p < |aux.info| ==> aux.info[p].phase.Gone? || aux.info[p].owner != t
  {
    forall p | 0 <= p < |aux.info| ensures aux.info[p].phase.Gone? || aux.info[p].owner != t {
      NotOwn(mem, aux, threads, t, p);
    }
  }

  lemma ContextKeeps(s: State, t: nat, x: Choice)
    requires Inv(s) && t < |s.threads|
    requires var pc := s.threads[t]; pc.Reset? || pc.ResetPacket?
    ensures Inv(Step(s, t, x))
  {
    ThreadKnows(s, t);
    NoneOwn(s.mem, s.aux, s.threads, t);
    match s.threads[t]
    case Reset(c) => ContextStep(s, t, x, t, Context(Waiting, s.mem.contexts[t].packet), ResetPacket(c));
    case ResetPacket(c) => ContextStep(s, t, x, t, Context(s.mem.contexts[t].select, None), Register(c));
  }

  lemma StoreKeeps(s: State, t: nat, x: Choice)
    requires Inv(s) && t < |s.threads| && s.threads[t].StorePacket?
    ensures Inv(Step(s, t, x))
  {
    ThreadKnows(s, t);
    var StorePacket(c, i) := s.threads[t];
    SkipFacts(s.mem, s.aux, t, c, i);
    var e := Queue(s.mem, Other(c.side))[i];
    ContextStep(s, t, x, e.cx, Context(s.mem.contexts[e.cx].select, Some(e.packet)), Remove(c, i));
  }

  // ---- a packet moves on ----

  /** Packet `p` moves to phase `y`, held as its owner and its partner hold it. */
  lemma HeldMoves(mem: Mem, aux: Aux, threads: seq<Pc>, t: nat, mem': Mem, aux': Aux, pc': Pc, p: nat, y: Info)
    requires Held(mem, aux, threads) && t < |threads| && p < |aux.info|
    requires aux'.info == aux.info[p := y]
    requires OwnPacket(pc') == OwnPacket(threads[t]) || (OwnPacket(threads[t]) == Some(p) && y.phase.Gone?)
    requires y.owner == aux.info[p].owner && (aux.info[p].phase.Gone? ==> y.phase.Gone?)
    requires forall u :: 0 <= u < |threads| && u != t ==> Target(mem', threads[u]) == Target(mem, threads[u])
    requires forall q :: 0 <= q < |aux.info| && q != p ==> PartnerKept(mem, aux.info[q].phase, t, threads[t], mem', pc', q)
    requires PartnerOk(mem', threads[t := pc'], p, y.phase)
    ensures Held(mem', aux', threads[t := pc'])
  {
    forall q | 0 <= q < |aux.info|
      ensures OwnerOk(threads[t := pc'], q, aux'.info[q]) && PartnerOk(mem', threads[t := pc'], q, aux'.info[q].phase)
    {
      assert OwnerOk(threads, q, aux.info[q]) && PartnerOk(mem, threads, q, aux.info[q].phase);
    }
  }

  /** The thread is not the partner of packet `q`, or stays it. */
  ghost predicate PartnerKept(mem: Mem, x: Phase, t: nat, pc: Pc, mem': Mem, pc': Pc, q: nat) {
    (x.Chosen? || x.Filled?) && x.u == t && Target(mem, pc) == Some(q) ==>
      Target(mem', pc') == Some(q) && pc'.SetReady? == pc.SetReady?
  }

  // ---- try_select succeeds ----

  function Picked(c: Call, t: nat, i: Info): Info {
    Info(i.owner, i.side, Chosen(t), if c.side.Sender? then c.m else i.deal)
  }

  function PickAux(aux: Aux, p: nat, i: Info): Aux
    requires p < |aux.info|
  {
    Aux(aux.info[p := i], aux.holder, aux.marking, Some(p))
  }

  lemma PickQueue(aux: Aux, s: Side, q: seq<Entry>, p: nat, i: Info)
    requires QueueOk(aux, s, q) && p < |aux.info| && aux.picked.None?
    requires aux.info[p].phase.Queued? && i.phase.Chosen? && i.owner == aux.info[p].owner && i.side == aux.info[p].side
    ensures QueueOk(PickAux(aux, p, i), s, q)
    ensures Nobody(aux, q) ==> Nobody(PickAux(aux, p, i), q)
  {
    forall k | 0 <= k < |q| ensures EntryOk(PickAux(aux, p, i), s, q[k]) {
      assert EntryOk(aux, s, q[k]);
    }
  }

  lemma PickContexts(mem: Mem, aux: Aux, threads: seq<Pc>, p: nat, i: Info)
    requires Contexts(mem, aux) && Held(mem, aux, threads) && p < |aux.info| && aux.info[p].owner < |mem.contexts|
    requires aux.info[p].phase.Queued? && i.phase.Chosen? && i.owner == aux.info[p].owner
    ensures Contexts(SetContext(mem, i.owner, Context(Operation(OperOf(p)), mem.contexts[i.owner].packet)), PickAux(aux, p, i))
  {
    forall q | 0 <= q < |aux.info|
      ensures ContextOk(mem.contexts[i.owner := Context(Operation(OperOf(p)), mem.contexts[i.owner].packet)], q,
                        PickAux(aux, p, i).info[q])
    {
      assert ContextOk(mem.contexts, q, aux.info[q]);
      assert OwnerOk(threads, q, aux.info[q]) && OwnerOk(threads, p, aux.info[p]);
    }
  }

  lemma PickPackets(mem: Mem, aux: Aux, p: nat, c: Call, t: nat)
    requires Packets(mem, aux) && p < |aux.info| && aux.info[p].phase.Queued? && CallOk(c)
    requires aux.info[p].side == Other(c.side)
    ensures Packets(mem, PickAux(aux, p, Picked(c, t, aux.info[p])))
  {
    assert PacketOk(mem.packets[p], aux.info[p]);
  }

  function PickMem(mem: Mem, e: Entry): Mem
    requires e.cx < |mem.contexts|
  {
    SetContext(mem, e.cx, Context(Operation(e.oper), mem.contexts[e.cx].packet))
  }

  lemma PickGood(mem: Mem, aux: Aux, threads: seq<Pc>, t: nat, c: Call, i: nat)
    requires |mem.contexts| == |threads| && LockOk(mem, aux, threads) && Queues(mem, aux) && Packets(mem, aux)
    requires Contexts(mem, aux) && Held(mem, aux, threads)
    requires t < |threads| && threads[t] == Scan(c, i) && ThreadOk(mem, aux, t, threads[t])
    requires i < |Queue(mem, Other(c.side))|
    requires var e := Queue(mem, Other(c.side))[i]; e.cx < |mem.contexts| && mem.contexts[e.cx].select.Waiting?
    ensures var e := Queue(mem, Other(c.side))[i];
      && e.packet < |aux.info|
      && Good(mem, aux, threads, t, PickMem(mem, e), PickAux(aux, e.packet, Picked(c, t, aux.info[e.packet])), StorePacket(c, i))
  {
    SkipFacts(mem, aux, t, c, i);
    var e := Queue(mem, Other(c.side))[i];
    var p, info' := e.packet, Picked(c, t, aux.info[e.packet]);
    var mem', aux', pc' := PickMem(mem, e), PickAux(aux, p, info'), StorePacket(c, i);
    assert EntryOk(aux, Other(c.side), e);
    PickQueue(aux, Sender, mem.senders, p, info');
    PickQueue(aux, Receiver, mem.receivers, p, info');
    PickContexts(mem, aux, threads, p, info');
    PickPackets(mem, aux, p, c, t);
    HeldMoves(mem, aux, threads, t, mem', aux', pc', p, info');
    LockInside(mem, aux, threads, t, mem', aux', pc');
    GuarInside(mem, aux, t, mem', aux');
  }

  lemma PickKeeps(s: State, t: nat, x: Choice)
    requires Inv(s) && t < |s.threads| && s.threads[t].Scan? && MemStep(s.mem, t, s.threads[t], x).pc.StorePacket?
    ensures Inv(Step(s, t, x))
  {
    ThreadKnows(s, t);
    var Scan(c, i) := s.threads[t];
    var e := Queue(s.mem, Other(c.side))[i];
    PickGood(s.mem, s.aux, s.threads, t, c, i);
    Assemble(s, t, x, PickMem(s.mem, e), PickAux(s.aux, e.packet, Picked(c, t, s.aux.info[e.packet])), StorePacket(c, i));
  }

  // ---- an entry leaves its queue ----

  lemma RemovedContains(q: seq<Entry>, i: nat, p: nat)
    requires i < |q| && Contains(q, p) && q[i].packet != p
    ensures Contains(Removed(q, i), p)
  {
    var k :| 0 <= k < |q| && q[k].packet == p;
    var r := Removed(q, i);
    if k < i {
      assert r[k] == q[k];
    } else {
      assert r[k - 1] == q[k];
    }
  }

  /** The queue without entry `i`, whose packet waits no more. */
  lemma RemoveQueue(aux: Aux, s: Side, q: seq<Entry>, i: nat, aux': Aux)
    requires QueueOk(aux, s, q) && i < |q| && |aux'.info| == |aux.info|
    requires forall p :: 0 <= p < |aux.info| && p != q[i].packet ==> aux'.info[p] == aux.info[p]
    requires var p := q[i].packet;
      p < |aux.info| && aux'.info[p].side == aux.info[p].side && !aux'.info[p].phase.Queued? && !aux'.info[p].phase.Cut?
    requires aux'.picked == (if aux.picked == Some(q[i].packet) then None else aux.picked)
    ensures QueueOk(aux', s, Removed(q, i))
    ensures Nobody(aux, q) ==> Nobody(aux', Removed(q, i))
  {
    var r := Removed(q, i);
    forall k | 0 <= k < |r| ensures EntryOk(aux', s, r[k]) && r[k].packet != q[i].packet {
      assert EntryOk(aux, s, q[if k < i then k else k + 1]);
    }
    forall p | 0 <= p < |aux.info| && aux'.info[p].side == s && (aux'.info[p].phase.Queued? || aux'.info[p].phase.Cut?)
      ensures Contains(r, p)
    {
      RemovedContains(q, i, p);
    }
  }

  /** The other queue, when a packet of this side moves on. */
  lemma OtherQueue(aux: Aux, s: Side, q: seq<Entry>, p: nat, aux': Aux)
    requires QueueOk(aux, s, q) && p < |aux.info| && aux.info[p].side != s && |aux'.info| == |aux.info|
    requires forall k :: 0 <= k < |aux.info| && k != p ==> aux'.info[k] == aux.info[k]
    requires aux'.info[p].side == aux.info[p].side
    requires aux.picked == aux'.picked || aux.picked == Some(p)
    ensures QueueOk(aux', s, q)
    ensures Nobody(aux, q) ==> Nobody(aux', q)
  {
    forall k | 0 <= k < |q| ensures EntryOk(aux', s, q[k]) {
      assert EntryOk(aux, s, q[k]);
    }
  }

  lemma RemoveQueues(mem: Mem, aux: Aux, s: Side, i: nat, aux': Aux)
    requires Queues(mem, aux) && i < |Queue(mem, s)| && |aux'.info| == |aux.info|
    requires forall p :: 0 <= p < |aux.info| && p != PacketAt(mem, s, i) ==> aux'.info[p] == aux.info[p]
    requires var p := PacketAt(mem, s, i);
      p < |aux.info| && aux'.info[p].side == aux.info[p].side == s
      && !aux'.info[p].phase.Queued? && !aux'.info[p].phase.Cut?
      && aux'.picked == (if aux.picked == Some(p) then None else aux.picked)
    requires aux'.marking == aux.marking
    ensures Queues(SetQueue(mem, s, Removed(Queue(mem, s), i)), aux')
  {
    RemoveQueue(aux, s, Queue(mem, s), i, aux');
    OtherQueue(aux, Other(s), Queue(mem, Other(s)), PacketAt(mem, s, i), aux');
  }

  lemma RemoveKeeps(s: State, t: nat, x: Choice)
    requires Inv(s) && t < |s.threads| && s.threads[t].Remove?
    ensures Inv(Step(s, t, x))
  {
    ThreadKnows(s, t);
    var Remove(c, i) := s.threads[t];
    var side := Other(c.side);
    var p := PacketAt(s.mem, side, i);
    var mem', aux', pc' := SetQueue(s.mem, side, Removed(Queue(s.mem, side), i)), SetPicked(s.aux, None), Unlock(c, p);
    RemoveQueues(s.mem, s.aux, side, i, aux');
    HeldMoves(s.mem, s.aux, s.threads, t, mem', aux', pc', p, s.aux.info[p]);
    LockInside(s.mem, s.aux, s.threads, t, mem', aux', pc');
    GuarInside(s.mem, s.aux, t, mem', aux');
    Assemble(s, t, x, mem', aux', pc');
  }

  /** The entry that `unregister` looks for is there. */
  lemma EntryFound(aux: Aux, s: Side, q: seq<Entry>, p: nat)
    requires QueueOk(aux, s, q) && p < |aux.info| && aux.info[p].side == s && aux.info[p].phase.Cut?
    ensures Find(q, OperOf(p)) < |q| && q[Find(q, OperOf(p))].packet == p
  {
    assert Contains(q, p);
    var k :| 0 <= k < |q| && q[k].packet == p;
    assert EntryOk(aux, s, q[k]);
    var i := Find(q, OperOf(p));
    assert q[k].oper == OperOf(p);
    assert EntryOk(aux, s, q[i]);
  }

  lemma LeavePackets(mem: Mem, aux: Aux, p: nat)
    requires Packets(mem, aux) && p < |aux.info| && aux.info[p].phase.Cut?
    ensures Packets(mem, SetPhase(aux, p, Left))
  {
    assert PacketOk(mem.packets[p], aux.info[p]);
  }

  function WithoutEntry(mem: Mem, side: Side, i: nat): Mem
    requires i < |Queue(mem, side)|
  {
    SetQueue(mem, side, Removed(Queue(mem, side), i))
  }

  /** The entry is the caller's, so its packet leaves the queue. */
  lemma LeaveQueue(mem: Mem, aux: Aux, t: nat, side: Side, p: nat, i: nat)
    requires Queues(mem, aux) && Knows(mem, aux, t, Unregister(side, p))
    requires i < |Queue(mem, side)| && Queue(mem, side)[i].packet == p
    ensures Queues(WithoutEntry(mem, side, i), SetPhase(aux, p, Left))
    ensures ThreadOk(WithoutEntry(mem, side, i), SetPhase(aux, p, Left), t, UnlockAgain(side, p))
  {
    RemoveQueues(mem, aux, side, i, SetPhase(aux, p, Left));
  }

  lemma LeaveRest(mem: Mem, aux: Aux, side: Side, p: nat, i: nat)
    requires Packets(mem, aux) && Contexts(mem, aux) && p < |aux.info| && aux.info[p].phase.Cut? && i < |Queue(mem, side)|
    ensures Packets(WithoutEntry(mem, side, i), SetPhase(aux, p, Left))
    ensures Contexts(WithoutEntry(mem, side, i), SetPhase(aux, p, Left))
  {
    LeavePackets(mem, aux, p);
    LeaveContexts(mem, aux, p);
  }

  /** While the thread is in the section no other thread is picking from a queue. */
  lemma TargetsStay(mem: Mem, aux: Aux, threads: seq<Pc>, t: nat, mem': Mem)
    requires LockOk(mem, aux, threads) && aux.holder == Some(t)
    ensures forall u :: 0 <= u < |threads| && u != t ==> Target(mem', threads[u]) == Target(mem, threads[u])
  {
  }

  lemma LeaveHeld(mem: Mem, aux: Aux, threads: seq<Pc>, t: nat, side: Side, p: nat, mem': Mem)
    requires Held(mem, aux, threads) && LockOk(mem, aux, threads) && t < |threads| && threads[t] == Unregister(side, p)
    requires p < |aux.info| && aux.info[p].phase.Cut?
    ensures Held(mem', SetPhase(aux, p, Left), threads[t := UnlockAgain(side, p)])
  {
    TargetsStay(mem, aux, threads, t, mem');
    HeldMoves(mem, aux, threads, t, mem', SetPhase(aux, p, Left), UnlockAgain(side, p), p, SetPhase(aux, p, Left).info[p]);
  }

  lemma UnregisterOut(mem: Mem, aux: Aux, t: nat, side: Side, p: nat, i: nat, x: Choice)
    requires i == Find(Queue(mem, side), OperOf(p)) && i < |Queue(mem, side)|
    ensures MemStep(mem, t, Unregister(side, p), x) == Ok(WithoutEntry(mem, side, i), UnlockAgain(side, p))
    ensures Annotate(mem, aux, t, Unregister(side, p), MemStep(mem, t, Unregister(side, p), x)) == SetPhase(aux, p, Left)
  {
  }

  lemma UnregisterKeeps(s: State, t: nat, x: Choice)
    requires Inv(s) && t < |s.threads| && s.threads[t].Unregister?
    ensures Inv(Step(s, t, x))
  {
    ThreadKnows(s, t);
    var Unregister(side, p) := s.threads[t];
    EntryFound(s.aux, side, Queue(s.mem, side), p);
    var i := Find(Queue(s.mem, side), OperOf(p));
    var mem', aux', pc' := WithoutEntry(s.mem, side, i), SetPhase(s.aux, p, Left), UnlockAgain(side, p);
    LeaveQueue(s.mem, s.aux, t, side, p, i);
    LeaveRest(s.mem, s.aux, side, p, i);
    LeaveHeld(s.mem, s.aux, s.threads, t, side, p, mem');
    LockInside(s.mem, s.aux, s.threads, t, mem', aux', pc');
    GuarInside(s.mem, s.aux, t, mem', aux');
    UnregisterOut(s.mem, s.aux, t, side, p, i, x);
    Assemble(s, t, x, mem', aux', pc');
  }

  lemma LeaveContexts(mem: Mem, aux: Aux, p: nat)
    requires Contexts(mem, aux) && p < |aux.info|
    ensures Contexts(mem, SetPhase(aux, p, Left))
  {
    forall k | 0 <= k < |aux.info| ensures ContextOk(mem.contexts, k, SetPhase(aux, p, Left).info[k]) {
      assert ContextOk(mem.contexts, k, aux.info[k]);
    }
  }

  // ---- registration ----

  lemma AddedContains(q: seq<Entry>, e: Entry, p: nat)
    ensures Contains(q, p) ==> Contains(q + [e], p)
    ensures Contains(q + [e], e.packet)
  {
    if Contains(q, p) {
      var k :| 0 <= k < |q| && q[k].packet == p;
      assert (q + [e])[k].packet == p;
    }
    assert (q + [e])[|q|] == e;
  }

  /** The queue with the new entry at its end. */
  lemma AddQueue(aux: Aux, s: Side, q: seq<Entry>, i: Info)
    requires QueueOk(aux, s, q) && i.phase.Queued? && i.side == s
    ensures QueueOk(AddInfo(aux, i), s, q + [Entry(OperOf(|aux.info|), |aux.info|, i.owner)])
  {
    var n, e := |aux.info|, Entry(OperOf(|aux.info|), |aux.info|, i.owner);
    var aux' := AddInfo(aux, i);
    forall k | 0 <= k < |q| ensures EntryOk(aux', s, q[k]) && q[k].packet < n {
      assert EntryOk(aux, s, q[k]);
    }
    forall p | 0 <= p <= n && aux'.info[p].side == s && (aux'.info[p].phase.Queued? || aux'.info[p].phase.Cut?)
      ensures Contains(q + [e], p)
    {
      AddedContains(q, e, p);
    }
  }

  lemma KeepQueue(aux: Aux, s: Side, q: seq<Entry>, i: Info)
    requires QueueOk(aux, s, q) && i.side != s
    ensures QueueOk(AddInfo(aux, i), s, q)
    ensures Nobody(aux, q) ==> Nobody(AddInfo(aux, i), q)
  {
    forall k | 0 <= k < |q| ensures EntryOk(AddInfo(aux, i), s, q[k]) {
      assert EntryOk(aux, s, q[k]);
    }
  }

  lemma RegisterQueues(mem: Mem, aux: Aux, t: nat, c: Call)
    requires Queues(mem, aux) && Nobody(aux, Queue(mem, Other(c.side))) && !mem.disconnected
    requires |aux.info| == |mem.packets|
    ensures Queues(RegisterStep(mem, t, c).mem, AddInfo(aux, Info(t, c.side, Queued, c.m)))
  {
    AddQueue(aux, c.side, Queue(mem, c.side), Info(t, c.side, Queued, c.m));
    KeepQueue(aux, Other(c.side), Queue(mem, Other(c.side)), Info(t, c.side, Queued, c.m));
  }

  lemma RegisterPackets(mem: Mem, aux: Aux, t: nat, c: Call)
    requires Packets(mem, aux) && Contexts(mem, aux) && CallOk(c)
    requires t < |mem.contexts| && mem.contexts[t].select.Waiting?
    ensures Packets(RegisterStep(mem, t, c).mem, AddInfo(aux, Info(t, c.side, Queued, c.m)))
    ensures Contexts(RegisterStep(mem, t, c).mem, AddInfo(aux, Info(t, c.side, Queued, c.m)))
  {
    var aux' := AddInfo(aux, Info(t, c.side, Queued, c.m));
    forall p | 0 <= p < |aux'.info|
      ensures PacketOk(RegisterStep(mem, t, c).mem.packets[p], aux'.info[p]) && ContextOk(mem.contexts, p, aux'.info[p])
    {
      if p < |aux.info| {
        assert PacketOk(mem.packets[p], aux.info[p]) && ContextOk(mem.contexts, p, aux.info[p]);
      }
    }
  }

  lemma RegisterHeld(mem: Mem, aux: Aux, threads: seq<Pc>, t: nat, c: Call)
    requires Held(mem, aux, threads) && t < |threads| && threads[t].Register? && |aux.info| == |mem.packets|
    requires LockOk(mem, aux, threads)
    ensures Held(RegisterStep(mem, t, c).mem, AddInfo(aux, Info(t, c.side, Queued, c.m)), threads[t := Release(c.side, |aux.info|)])
  {
    var mem', aux' := RegisterStep(mem, t, c).mem, AddInfo(aux, Info(t, c.side, Queued, c.m));
    var threads' := threads[t := Release(c.side, |aux.info|)];
    forall p | 0 <= p < |aux.info|
      ensures OwnerOk(threads', p, aux'.info[p]) && PartnerOk(mem', threads', p, aux'.info[p].phase)
    {
      assert OwnerOk(threads, p, aux.info[p]) && PartnerOk(mem, threads, p, aux.info[p].phase);
    }
  }

  lemma RegisterGood(mem: Mem, aux: Aux, threads: seq<Pc>, t: nat, c: Call)
    requires |mem.contexts| == |threads| && LockOk(mem, aux, threads) && Queues(mem, aux) && Packets(mem, aux)
    requires Contexts(mem, aux) && Held(mem, aux, threads)
    requires t < |threads| && threads[t] == Register(c) && ThreadOk(mem, aux, t, threads[t])
    ensures Good(mem, aux, threads, t, RegisterStep(mem, t, c).mem, AddInfo(aux, Info(t, c.side, Queued, c.m)),
                 Release(c.side, |aux.info|))
  {
    var mem', aux' := RegisterStep(mem, t, c).mem, AddInfo(aux, Info(t, c.side, Queued, c.m));
    RegisterQueues(mem, aux, t, c);
    RegisterPackets(mem, aux, t, c);
    RegisterHeld(mem, aux, threads, t, c);
    LockInside(mem, aux, threads, t, mem', aux', Release(c.side, |aux.info|));
    GuarInside(mem, aux, t, mem', aux');
  }

  lemma RegisterKeeps(s: State, t: nat, x: Choice)
    requires Inv(s) && t < |s.threads| && s.threads[t].Register?
    ensures Inv(Step(s, t, x))
  {
    ThreadKnows(s, t);
    var c := s.threads[t].c;
    RegisterGood(s.mem, s.aux, s.threads, t, c);
    Assemble(s, t, x, RegisterStep(s.mem, t, c).mem, AddInfo(s.aux, Info(t, c.side, Queued, c.m)),
             Release(c.side, |s.aux.info|));
  }

  // ---- the message, and the end of a packet ----

  /** Outside the section, a packet that is in no queue moves on. */
  lemma LooseQueue(aux: Aux, s: Side, q: seq<Entry>, p: nat, y: Phase)
    requires QueueOk(aux, s, q) && p < |aux.info| && !y.Queued? && !y.Cut?
    requires aux.picked != Some(p) && !aux.info[p].phase.Queued? && !aux.info[p].phase.Cut?
    ensures QueueOk(SetPhase(aux, p, y), s, q)
    ensures Nobody(aux, q) ==> Nobody(SetPhase(aux, p, y), q)
  {
    forall k | 0 <= k < |q| ensures EntryOk(SetPhase(aux, p, y), s, q[k]) {
      assert EntryOk(aux, s, q[k]);
    }
  }

  lemma LooseContexts(mem: Mem, aux: Aux, p: nat, y: Phase)
    requires Contexts(mem, aux) && p < |aux.info| && !y.Queued? && !y.Cut?
    requires Paired(y) ==> Paired(aux.info[p].phase)
    ensures Contexts(mem, SetPhase(aux, p, y))
  {
    forall k | 0 <= k < |aux.info| ensures ContextOk(mem.contexts, k, SetPhase(aux, p, y).info[k]) {
      assert ContextOk(mem.contexts, k, aux.info[k]);
    }
  }

  lemma LoosePackets(mem: Mem, aux: Aux, p: nat, x: Packet, y: Phase)
    requires Packets(mem, aux) && p < |aux.info| && PacketOk(x, SetPhase(aux, p, y).info[p])
    ensures Packets(SetPacket(mem, p, x), SetPhase(aux, p, y))
  {
  }

  lemma LockLoose(mem: Mem, aux: Aux, threads: seq<Pc>, t: nat, mem': Mem, aux': Aux, pc': Pc)
    requires LockOk(mem, aux, threads) && t < |threads| && !InSection(threads[t]) && !InSection(pc')
    requires mem'.locked == mem.locked && aux'.holder == aux.holder && aux'.marking == aux.marking && aux'.picked == aux.picked
    ensures LockOk(mem', aux', threads[t := pc'])
  {
  }

  lemma PickedByHolder(mem: Mem, aux: Aux, threads: seq<Pc>)
    requires LockOk(mem, aux, threads) && Threads(mem, aux, threads) && aux.picked.Some?
    ensures aux.holder.Some? && aux.picked.value < |aux.info|
    ensures aux.info[aux.picked.value].phase == Chosen(aux.holder.value)
  {
    assert ThreadOk(mem, aux, aux.holder.value, threads[aux.holder.value]);
  }

  /** The selected packet of a thread outside the section is in no queue. */
  lemma NotPicked(mem: Mem, aux: Aux, threads: seq<Pc>, t: nat, p: nat)
    requires LockOk(mem, aux, threads) && Threads(mem, aux, threads)
    requires t < |threads| && !InSection(threads[t]) && p < |aux.info|
    requires (aux.info[p].phase.Chosen? && aux.info[p].phase.u == t) || !aux.info[p].phase.Chosen?
    ensures aux.picked != Some(p)
  {
    if aux.picked.Some? {
      PickedByHolder(mem, aux, threads);
    }
  }

  lemma LooseGuar(mem: Mem, aux: Aux, t: nat, p: nat, x: Packet, y: Phase)
    requires p < |aux.info| && p < |mem.packets|
    requires !aux.info[p].phase.Queued? && !y.Queued?
    requires InfoGuar(aux.info[p], SetPhase(aux, p, y).info[p], t)
    ensures Guar(mem, aux, t, SetPacket(mem, p, x), SetPhase(aux, p, y))
  {
  }

  /** Thread `t`, at `pc`, moves packet `p` to phase `y`, outside the section. */
  ghost predicate LooseMove(mem: Mem, aux: Aux, t: nat, pc: Pc, x: Choice, p: nat, pk: Packet, y: Phase, pc': Pc) {
    && p < |aux.info| == |mem.packets|
    && MemStep(mem, t, pc, x).mem == SetPacket(mem, p, pk) && MemStep(mem, t, pc, x).pc == pc' && !MemStep(mem, t, pc, x).fault
    && Annotate(mem, aux, t, pc, MemStep(mem, t, pc, x)) == SetPhase(aux, p, y)
    && !InSection(pc) && !InSection(pc') && !y.Queued? && !y.Cut?
    && LooseInfo(aux.info[p], SetPhase(aux, p, y).info[p], pk, t)
    && (OwnPacket(pc') == OwnPacket(pc) || (OwnPacket(pc) == Some(p) && y.Gone?))
    && (Target(mem, pc).Some? ==> Target(mem, pc) == Some(p))
    && (y.Chosen? || y.Filled? ==> y.u == t && Target(mem, pc') == Some(p) && (y.Filled? <==> pc'.SetReady?))
    && ThreadOk(SetPacket(mem, p, pk), SetPhase(aux, p, y), t, pc')
  }

  ghost predicate LooseInfo(i: Info, i': Info, pk: Packet, t: nat) {
    && !i.phase.Queued? && !i.phase.Cut? && (i.phase.Chosen? ==> i.phase.u == t)
    && PacketOk(pk, i') && InfoGuar(i, i', t)
    && (Paired(i'.phase) ==> Paired(i.phase)) && (i.phase.Gone? ==> i'.phase.Gone?)
  }

  lemma LooseHeld(mem: Mem, aux: Aux, threads: seq<Pc>, t: nat, x: Choice, p: nat, pk: Packet, y: Phase, pc': Pc)
    requires Held(mem, aux, threads) && t < |threads| && LooseMove(mem, aux, t, threads[t], x, p, pk, y, pc')
    ensures Held(SetPacket(mem, p, pk), SetPhase(aux, p, y), threads[t := pc'])
  {
    HeldMoves(mem, aux, threads, t, SetPacket(mem, p, pk), SetPhase(aux, p, y), pc', p, SetPhase(aux, p, y).info[p]);
  }

  lemma LooseStep(s: State, t: nat, x: Choice, p: nat, pk: Packet, y: Phase, pc': Pc)
    requires Inv(s) && t < |s.threads| && LooseMove(s.mem, s.aux, t, s.threads[t], x, p, pk, y, pc')
    ensures Inv(Step(s, t, x))
  {
    var mem', aux' := SetPacket(s.mem, p, pk), SetPhase(s.aux, p, y);
    NotPicked(s.mem, s.aux, s.threads, t, p);
    LooseQueue(s.aux, Sender, s.mem.senders, p, y);
    LooseQueue(s.aux, Receiver, s.mem.receivers, p, y);
    LooseContexts(s.mem, s.aux, p, y);
    LoosePackets(s.mem, s.aux, p, pk, y);
    LooseHeld(s.mem, s.aux, s.threads, t, x, p, pk, y, pc');
    LockLoose(s.mem, s.aux, s.threads, t, mem', aux', pc');
    LooseGuar(s.mem, s.aux, t, p, pk, y);
    Assemble(s, t, x, mem', aux', pc');
  }

  /** The partner moves the message: the packet is live, and full or empty as it should be. */
  lemma AccessOut(mem: Mem, aux: Aux, t: nat, c: Call, p: nat)
    requires Packets(mem, aux) && ThreadOk(mem, aux, t, Access(c, p))
    ensures p < |aux.info| == |mem.packets| && aux.info[p].deal.Some? && Live(mem, p)
    ensures var m := aux.info[p].deal;
      AccessStep(mem, c, p) ==
        Ok(SetPacket(mem, p, Packet(mem.packets[p].ready, if c.side.Sender? then m else None, true)),
           SetReady(Call(c.side, m, c.block), p))
    ensures PacketOk(Packet(mem.packets[p].ready, if c.side.Sender? then aux.info[p].deal else None, true),
                     SetPhase(aux, p, Filled(t)).info[p])
  {
    assert PacketOk(mem.packets[p], aux.info[p]);
  }

  lemma AccessMove(mem: Mem, aux: Aux, t: nat, c: Call, p: nat, x: Choice)
    requires Packets(mem, aux) && ThreadOk(mem, aux, t, Access(c, p))
    ensures p < |aux.info| == |mem.packets|
    ensures LooseMove(mem, aux, t, Access(c, p), x, p,
                      Packet(mem.packets[p].ready, if c.side.Sender? then aux.info[p].deal else None, true), Filled(t),
                      SetReady(Call(c.side, aux.info[p].deal, c.block), p))
  {
    AccessOut(mem, aux, t, c, p);
  }

  lemma ReadyMove(mem: Mem, aux: Aux, t: nat, c: Call, p: nat, x: Choice)
    requires Packets(mem, aux) && ThreadOk(mem, aux, t, SetReady(c, p))
    ensures p < |aux.info| == |mem.packets|
    ensures LooseMove(mem, aux, t, SetReady(c, p), x, p, Packet(true, mem.packets[p].msg, true), Finished, Idle)
  {
    assert PacketOk(mem.packets[p], aux.info[p]);
  }

  lemma AccessKeeps(s: State, t: nat, x: Choice)
    requires Inv(s) && t < |s.threads| && s.threads[t].Access?
    ensures Inv(Step(s, t, x))
  {
    ThreadKnows(s, t);
    var Access(c, p) := s.threads[t];
    AccessMove(s.mem, s.aux, t, c, p, x);
    var m := s.aux.info[p].deal;
    LooseStep(s, t, x, p, Packet(s.mem.packets[p].ready, if c.side.Sender? then m else None, true), Filled(t),
              SetReady(Call(c.side, m, c.block), p));
  }

  lemma ReadyKeeps(s: State, t: nat, x: Choice)
    requires Inv(s) && t < |s.threads| && s.threads[t].SetReady?
    ensures Inv(Step(s, t, x))
  {
    ThreadKnows(s, t);
    var SetReady(c, p) := s.threads[t];
    ReadyMove(s.mem, s.aux, t, c, p, x);
    LooseStep(s, t, x, p, Packet(true, s.mem.packets[p].msg, true), Finished, Idle);
  }

  /** The owner leaves: its packet is finished, or it has taken its entry back. */
  lemma EndOut(mem: Mem, aux: Aux, t: nat, pc: Pc, x: Choice)
    requires Packets(mem, aux) && ThreadOk(mem, aux, t, pc)
    requires pc.Take? || pc.GiveBack? || (pc.WaitReady? && MemStep(mem, t, pc, x).pc.Idle? && !MemStep(mem, t, pc, x).fault)
    ensures var p := OwnPacket(pc).value;
      && p < |aux.info| && Live(mem, p) && aux.info[p].owner == t
      && (aux.info[p].phase.Finished? || aux.info[p].phase.Left?)
      && MemStep(mem, t, pc, x).mem == Drop(mem, p) && MemStep(mem, t, pc, x).pc.Idle? && !MemStep(mem, t, pc, x).fault
  {
    assert PacketOk(mem.packets[OwnPacket(pc).value], aux.info[OwnPacket(pc).value]);
  }

  lemma WaitsLive(mem: Mem, aux: Aux, t: nat, pc: Pc, x: Choice)
    requires Packets(mem, aux) && ThreadOk(mem, aux, t, pc) && pc.WaitReady?
    ensures !MemStep(mem, t, pc, x).fault
  {
    assert PacketOk(mem.packets[pc.p], aux.info[pc.p]);
  }

  lemma EndMove(mem: Mem, aux: Aux, t: nat, pc: Pc, x: Choice)
    requires Packets(mem, aux) && ThreadOk(mem, aux, t, pc)
    requires pc.Take? || pc.GiveBack? || (pc.WaitReady? && MemStep(mem, t, pc, x).pc.Idle?)
    ensures var p := OwnPacket(pc).value;
      p < |aux.info| == |mem.packets|
      && LooseMove(mem, aux, t, pc, x, p, Packet(mem.packets[p].ready, None, false), Gone, Idle)
  {
    if pc.WaitReady? {
      WaitsLive(mem, aux, t, pc, x);
    }
    EndOut(mem, aux, t, pc, x);
  }

  lemma EndKeeps(s: State, t: nat, x: Choice)
    requires Inv(s) && t < |s.threads|
    requires var pc := s.threads[t];
      pc.Take? || pc.GiveBack? || (pc.WaitReady? && MemStep(s.mem, t, pc, x).pc.Idle?)
    ensures Inv(Step(s, t, x))
  {
    ThreadKnows(s, t);
    EndMove(s.mem, s.aux, t, s.threads[t], x);
    var p := OwnPacket(s.threads[t]).value;
    LooseStep(s, t, x, p, Packet(s.mem.packets[p].ready, None, false), Gone, Idle);
  }

  // ---- shutdown ----

  /** A step that sets or clears `marking`, and may set the flag. */
  ghost predicate FlagMove(mem: Mem, aux: Aux, t: nat, pc: Pc, x: Choice, mem': Mem, b: bool, pc': Pc) {
    && MemStep(mem, t, pc, x) == Ok(mem', pc') && Annotate(mem, aux, t, pc, Ok(mem', pc')) == SetMarking(aux, b)
    && (mem' == mem || mem' == SetClosed(mem)) && SamePlace(mem, pc, pc') && InSection(pc') && (b ==> pc'.CloseMark?)
    && Queues(mem', SetMarking(aux, b)) && ThreadOk(mem', SetMarking(aux, b), t, pc')
  }

  lemma FlagStep(s: State, t: nat, x: Choice, mem': Mem, b: bool, pc': Pc)
    requires Inv(s) && t < |s.threads| && s.aux.holder == Some(t) && s.aux.picked.None?
    requires FlagMove(s.mem, s.aux, t, s.threads[t], x, mem', b, pc')
    ensures Inv(Step(s, t, x))
  {
    var aux' := SetMarking(s.aux, b);
    HeldSame(s.mem, s.aux, s.threads, t, mem', aux', pc');
    LockInside(s.mem, s.aux, s.threads, t, mem', aux', pc');
    GuarInside(s.mem, s.aux, t, mem', aux');
    Assemble(s, t, x, mem', aux', pc');
  }

  lemma SetMove(mem: Mem, aux: Aux, t: nat, x: Choice)
    requires Queues(mem, aux) && !mem.disconnected
    ensures FlagMove(mem, aux, t, CloseSet, x, SetClosed(mem), true, CloseMark(Sender, 0))
  {
    QueueSame(aux, SetMarking(aux, true), Sender, mem.senders);
    QueueSame(aux, SetMarking(aux, true), Receiver, mem.receivers);
  }

  lemma CloseSetKeeps(s: State, t: nat, x: Choice)
    requires Inv(s) && t < |s.threads| && s.threads[t].CloseSet?
    ensures Inv(Step(s, t, x))
  {
    ThreadKnows(s, t);
    if s.mem.disconnected {
      PlainStep(s, t, x, s.mem, s.aux, CloseUnlock(false));
    } else {
      SetMove(s.mem, s.aux, t, x);
      FlagStep(s, t, x, SetClosed(s.mem), true, CloseMark(Sender, 0));
    }
  }

  lemma EndMark(mem: Mem, aux: Aux, t: nat, i: nat, x: Choice)
    requires Queues(mem, aux) && ThreadOk(mem, aux, t, CloseMark(Receiver, i)) && i >= |mem.receivers|
    ensures FlagMove(mem, aux, t, CloseMark(Receiver, i), x, mem, false, CloseUnlock(true))
  {
    QueueSame(aux, SetMarking(aux, false), Sender, mem.senders);
    QueueSame(aux, SetMarking(aux, false), Receiver, mem.receivers);
  }

  /** The marking moves from the senders to the receivers, and ends. */
  lemma MarkEndKeeps(s: State, t: nat, x: Choice)
    requires Inv(s) && t < |s.threads| && s.threads[t].CloseMark?
    requires s.threads[t].i >= |Queue(s.mem, s.threads[t].side)|
    ensures Inv(Step(s, t, x))
  {
    ThreadKnows(s, t);
    var CloseMark(side, i) := s.threads[t];
    if side.Sender? {
      PlainStep(s, t, x, s.mem, s.aux, CloseMark(Receiver, 0));
    } else {
      EndMark(s.mem, s.aux, t, i, x);
      FlagStep(s, t, x, s.mem, false, CloseUnlock(true));
    }
  }

  lemma CutQueue(aux: Aux, s: Side, q: seq<Entry>, p: nat)
    requires QueueOk(aux, s, q) && p < |aux.info| && aux.info[p].phase.Queued?
    ensures QueueOk(SetPhase(aux, p, Cut), s, q)
    ensures Nobody(aux, q) ==> Nobody(SetPhase(aux, p, Cut), q)
  {
    forall k | 0 <= k < |q| ensures EntryOk(SetPhase(aux, p, Cut), s, q[k]) {
      assert EntryOk(aux, s, q[k]);
    }
  }

  lemma CutContexts(mem: Mem, aux: Aux, threads: seq<Pc>, p: nat)
    requires Contexts(mem, aux) && Held(mem, aux, threads) && p < |aux.info| && aux.info[p].phase.Queued?
    requires aux.info[p].owner < |mem.contexts|
    ensures var v := aux.info[p].owner;
      Contexts(SetContext(mem, v, Context(Disconnected, mem.contexts[v].packet)), SetPhase(aux, p, Cut))
  {
    var v := aux.info[p].owner;
    forall q | 0 <= q < |aux.info|
      ensures ContextOk(mem.contexts[v := Context(Disconnected, mem.contexts[v].packet)], q, SetPhase(aux, p, Cut).info[q])
    {
      assert ContextOk(mem.contexts, q, aux.info[q]);
      assert OwnerOk(threads, q, aux.info[q]) && OwnerOk(threads, p, aux.info[p]);
    }
  }

  lemma CutPackets(mem: Mem, aux: Aux, p: nat)
    requires Packets(mem, aux) && p < |aux.info| && aux.info[p].phase.Queued?
    ensures Packets(mem, SetPhase(aux, p, Cut))
  {
    assert PacketOk(mem.packets[p], aux.info[p]);
  }

  function CutMem(mem: Mem, v: nat): Mem
    requires v < |mem.contexts|
  {
    SetContext(mem, v, Context(Disconnected, mem.contexts[v].packet))
  }

  lemma CutQueues(mem: Mem, aux: Aux, p: nat)
    requires Queues(mem, aux) && p < |aux.info| && aux.info[p].phase.Queued? && aux.info[p].owner < |mem.contexts|
    ensures Queues(CutMem(mem, aux.info[p].owner), SetPhase(aux, p, Cut))
  {
    CutQueue(aux, Sender, mem.senders, p);
    CutQueue(aux, Receiver, mem.receivers, p);
  }

  lemma CutOut(mem: Mem, aux: Aux, t: nat, side: Side, i: nat, x: Choice)
    requires i < |Queue(mem, side)| && Queue(mem, side)[i].cx < |mem.contexts|
    requires mem.contexts[Queue(mem, side)[i].cx].select.Waiting?
    ensures var e := Queue(mem, side)[i];
      var out := Ok(CutMem(mem, e.cx), CloseMark(side, i + 1));
      && MemStep(mem, t, CloseMark(side, i), x) == out
      && Annotate(mem, aux, t, CloseMark(side, i), out) == SetPhase(aux, e.packet, Cut)
  {
    var e := Queue(mem, side)[i];
    assert CutMem(mem, e.cx).contexts[e.cx] != mem.contexts[e.cx];
  }

  lemma CutThread(mem: Mem, aux: Aux, t: nat, side: Side, i: nat, p: nat, v: nat)
    requires Queues(mem, aux) && ThreadOk(mem, aux, t, CloseMark(side, i)) && i < |Queue(mem, side)|
    requires Queue(mem, side)[i].packet == p < |aux.info| && v < |mem.contexts|
    ensures ThreadOk(CutMem(mem, v), SetPhase(aux, p, Cut), t, CloseMark(side, i + 1))
  {
  }

  lemma CutHeld(mem: Mem, aux: Aux, threads: seq<Pc>, t: nat, side: Side, i: nat, p: nat, mem': Mem)
    requires Held(mem, aux, threads) && LockOk(mem, aux, threads) && t < |threads| && threads[t] == CloseMark(side, i)
    requires p < |aux.info| && aux.info[p].phase.Queued?
    ensures aux.info[p].owner != t && Held(mem', SetPhase(aux, p, Cut), threads[t := CloseMark(side, i + 1)])
  {
    TargetsStay(mem, aux, threads, t, mem');
    NotOwn(mem, aux, threads, t, p);
    HeldMoves(mem, aux, threads, t, mem', SetPhase(aux, p, Cut), CloseMark(side, i + 1), p, SetPhase(aux, p, Cut).info[p]);
  }

  lemma CutGood(mem: Mem, aux: Aux, threads: seq<Pc>, t: nat, side: Side, i: nat)
    requires |mem.contexts| == |threads| && LockOk(mem, aux, threads) && Queues(mem, aux) && Packets(mem, aux)
    requires Contexts(mem, aux) && Held(mem, aux, threads)
    requires t < |threads| && threads[t] == CloseMark(side, i) && ThreadOk(mem, aux, t, threads[t]) && i < |Queue(mem, side)|
    requires Queue(mem, side)[i].cx < |mem.contexts| && mem.contexts[Queue(mem, side)[i].cx].select.Waiting?
    ensures var e := Queue(mem, side)[i];
      Good(mem, aux, threads, t, CutMem(mem, e.cx), SetPhase(aux, e.packet, Cut), CloseMark(side, i + 1))
  {
    SkipFacts(mem, aux, t, Call(Other(side), None, false), i);
    var e, pc' := Queue(mem, side)[i], CloseMark(side, i + 1);
    var p, mem', aux' := e.packet, CutMem(mem, e.cx), SetPhase(aux, e.packet, Cut);
    CutQueues(mem, aux, p);
    CutContexts(mem, aux, threads, p);
    CutPackets(mem, aux, p);
    CutThread(mem, aux, t, side, i, p, e.cx);
    CutHeld(mem, aux, threads, t, side, i, p, mem');
    LockInside(mem, aux, threads, t, mem', aux', pc');
    GuarInside(mem, aux, t, mem', aux');
  }

  lemma CutKeeps(s: State, t: nat, x: Choice, side: Side, i: nat)
    requires Inv(s) && t < |s.threads| && s.threads[t] == CloseMark(side, i) && i < |Queue(s.mem, side)|
    requires Queue(s.mem, side)[i].cx < |s.mem.contexts| && s.mem.contexts[Queue(s.mem, side)[i].cx].select.Waiting?
    ensures Inv(Step(s, t, x))
  {
    ThreadKnows(s, t);
    CutGood(s.mem, s.aux, s.threads, t, side, i);
    CutOut(s.mem, s.aux, t, side, i, x);
    var e := Queue(s.mem, side)[i];
    Assemble(s, t, x, CutMem(s.mem, e.cx), SetPhase(s.aux, e.packet, Cut), CloseMark(side, i + 1));
  }

  lemma MarkSkips(mem: Mem, aux: Aux, t: nat, side: Side, i: nat, x: Choice)
    requires Knows(mem, aux, t, CloseMark(side, i)) && i < |Queue(mem, side)|
    requires var e := Queue(mem, side)[i];
      && e.cx < |mem.contexts| && e.packet < |aux.info|
      && !mem.contexts[e.cx].select.Waiting? && !aux.info[e.packet].phase.Queued?
    ensures MemStep(mem, t, CloseMark(side, i), x) == Ok(mem, CloseMark(side, i + 1))
    ensures Annotate(mem, aux, t, CloseMark(side, i), Ok(mem, CloseMark(side, i + 1))) == aux
    ensures ThreadOk(mem, aux, t, CloseMark(side, i + 1))
  {
  }

  lemma MarkKeeps(s: State, t: nat, x: Choice)
    requires Inv(s) && t < |s.threads| && s.threads[t].CloseMark?
    requires s.threads[t].i < |Queue(s.mem, s.threads[t].side)|
    ensures Inv(Step(s, t, x))
  {
    ThreadKnows(s, t);
    var CloseMark(side, i) := s.threads[t];
    SkipFacts(s.mem, s.aux, t, Call(Other(side), None, false), i);
    if s.mem.contexts[Queue(s.mem, side)[i].cx].select.Waiting? {
      CutKeeps(s, t, x, side, i);
    } else {
      MarkSkips(s.mem, s.aux, t, side, i, x);
      PlainStep(s, t, x, s.mem, s.aux, CloseMark(side, i + 1));
    }
  }

  /** Every step keeps the invariant. */
  lemma StepKeeps(s: State, t: nat, x: Choice)
    requires Inv(s) && t < |s.threads|
    ensures Inv(Step(s, t, x))
  {
    var pc := s.threads[t];
    if Plain(s.mem, t, pc, x) {
      PlainKeeps(s, t, x);
    } else if pc.Scan? {
      PickKeeps(s, t, x);
    } else if pc.StorePacket? {
      StoreKeeps(s, t, x);
    } else if pc.Remove? {
      RemoveKeeps(s, t, x);
    } else if pc.Access? {
      AccessKeeps(s, t, x);
    } else if pc.SetReady? {
      ReadyKeeps(s, t, x);
    } else if pc.Reset? || pc.ResetPacket? {
      ContextKeeps(s, t, x);
    } else if pc.Register? {
      RegisterKeeps(s, t, x);
    } else if pc.Unregister? {
      UnregisterKeeps(s, t, x);
    } else if pc.CloseSet? {
      CloseSetKeeps(s, t, x);
    } else if pc.CloseMark? {
      if pc.i < |Queue(s.mem, pc.side)| {
        MarkKeeps(s, t, x);
      } else {
        MarkEndKeeps(s, t, x);
      }
    } else {
      EndKeeps(s, t, x);
    }
  }
}
