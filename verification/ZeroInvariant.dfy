/** What every interleaving of the zero-capacity channel keeps. */
module ZeroInvariant {
  import opened Common
  import opened Select
  import opened ZeroProtocol

  // ---- the lock ----

  /** The thread is between taking the lock and letting go of it. */
  predicate InSection(pc: Pc) {
    || pc.Scan? || pc.StorePacket? || pc.Remove? || pc.Unlock? || pc.Miss? || pc.Leave?
    || pc.Reset? || pc.ResetPacket? || pc.Register? || pc.Release?
    || pc.Unregister? || pc.UnlockAgain? || pc.CloseSet? || pc.CloseMark? || pc.CloseUnlock?
  }

  predicate Picking(pc: Pc) { pc.StorePacket? || pc.Remove? }

  ghost predicate LockOk(mem: Mem, aux: Aux, threads: seq<Pc>) {
    && (mem.locked <==> aux.holder.Some?)
    && (aux.holder.Some? ==> aux.holder.value < |threads|)
    && (forall t :: 0 <= t < |threads| ==> (InSection(threads[t]) <==> aux.holder == Some(t)))
    && (aux.marking ==> aux.holder.Some? && threads[aux.holder.value].CloseMark?)
    && (aux.picked.Some? ==> aux.holder.Some? && Picking(threads[aux.holder.value]))
  }

  // ---- queues ----

  predicate InQueue(x: Phase) { x.Queued? || x.Cut? || x.Chosen? }

  ghost predicate EntryOk(aux: Aux, s: Side, e: Entry) {
    && e.packet < |aux.info| && e.oper == OperOf(e.packet) && e.cx == aux.info[e.packet].owner
    && aux.info[e.packet].side == s && InQueue(aux.info[e.packet].phase)
    && (aux.info[e.packet].phase.Chosen? ==> aux.picked == Some(e.packet))
  }

  ghost predicate Contains(q: seq<Entry>, p: nat) { exists i :: 0 <= i < |q| && q[i].packet == p }

  /** Entries are in order of registration, and every packet that waits has its entry. */
  ghost predicate QueueOk(aux: Aux, s: Side, q: seq<Entry>) {
    && (forall i :: 0 <= i < |q| ==> EntryOk(aux, s, q[i]))
    && (forall i, j :: 0 <= i < j < |q| ==> q[i].packet < q[j].packet)
    && (forall p :: 0 <= p < |aux.info| && aux.info[p].side == s && (aux.info[p].phase.Queued? || aux.info[p].phase.Cut?) ==>
          Contains(q, p))
  }

  /** Nobody in the first `n` entries is still waiting. */
  ghost predicate NoneWaiting(aux: Aux, q: seq<Entry>, n: nat) {
    forall i :: 0 <= i < |q| && i < n && q[i].packet < |aux.info| ==> !aux.info[q[i].packet].phase.Queued?
  }

  ghost predicate Nobody(aux: Aux, q: seq<Entry>) { NoneWaiting(aux, q, |q|) }

  ghost predicate Queues(mem: Mem, aux: Aux) {
    && QueueOk(aux, Sender, mem.senders)
    && QueueOk(aux, Receiver, mem.receivers)
    && (Nobody(aux, mem.senders) || Nobody(aux, mem.receivers))
    && (aux.marking ==> mem.disconnected)
    && (mem.disconnected && !aux.marking ==> Nobody(aux, mem.senders) && Nobody(aux, mem.receivers))
  }

  // ---- packets and contexts ----

  predicate Moved(x: Phase) { x.Filled? || x.Finished? }

  predicate Paired(x: Phase) { x.Chosen? || x.Filled? || x.Finished? }

  /** A sender's packet holds its message until it is moved, a receiver's from then on. */
  ghost predicate PacketOk(x: Packet, i: Info) {
    && (x.live <==> !i.phase.Gone?)
    && (x.live ==> (x.ready <==> i.phase.Finished?))
    && (x.live ==> x.msg == if i.side.Sender? == Moved(i.phase) then None else i.deal)
    && (i.side.Sender? || Paired(i.phase) ==> i.deal.Some?)
  }

  ghost predicate Packets(mem: Mem, aux: Aux) {
    |aux.info| == |mem.packets| && forall p :: 0 <= p < |aux.info| ==> PacketOk(mem.packets[p], aux.info[p])
  }

  ghost predicate ContextOk(contexts: seq<Context>, p: nat, i: Info) {
    && i.owner < |contexts|
    && (i.phase.Queued? ==> contexts[i.owner].select.Waiting?)
    && (i.phase.Cut? ==> contexts[i.owner].select.Disconnected?)
    && (Paired(i.phase) ==> contexts[i.owner].select == Operation(OperOf(p)))
  }

  ghost predicate Contexts(mem: Mem, aux: Aux) {
    forall p :: 0 <= p < |aux.info| ==> ContextOk(mem.contexts, p, aux.info[p])
  }

  // ---- owners and partners ----

  /** The packet on the thread's own stack. */
  function OwnPacket(pc: Pc): Option<nat> {
    match pc
    case Release(_, p) => Some(p)
    case Wait(_, p) => Some(p)
    case WaitReady(_, p) => Some(p)
    case Take(p) => Some(p)
    case Relock(_, p) => Some(p)
    case Unregister(_, p) => Some(p)
    case UnlockAgain(_, p) => Some(p)
    case GiveBack(_, p) => Some(p)
    case _ => None
  }

  function SideOf(pc: Pc): Side {
    match pc
    case Release(s, _) => s
    case Wait(s, _) => s
    case WaitReady(s, _) => s
    case Relock(s, _) => s
    case Unregister(s, _) => s
    case UnlockAgain(s, _) => s
    case GiveBack(s, _) => s
    case _ => Receiver
  }

  /** Where the owner of a packet can be. */
  predicate PlaceOk(pc: Pc, x: Phase) {
    match x
    case Queued => pc.Release? || pc.Wait?
    case Cut => pc.Wait? || pc.Relock? || pc.Unregister?
    case Left => pc.UnlockAgain? || pc.GiveBack?
    case Chosen(_) => pc.Wait? || pc.WaitReady?
    case Filled(_) => pc.Wait? || pc.WaitReady?
    case Finished => pc.Wait? || pc.WaitReady? || pc.Take?
    case Gone => false
  }

  ghost predicate OwnerOk(threads: seq<Pc>, p: nat, i: Info) {
    !i.phase.Gone? ==> i.owner < |threads| && OwnPacket(threads[i.owner]) == Some(p)
  }

  /** The packet on another stack that the thread has selected. */
  function Target(mem: Mem, pc: Pc): Option<nat> {
    match pc
    case StorePacket(c, i) => Some(PacketAt(mem, Other(c.side), i))
    case Remove(c, i) => Some(PacketAt(mem, Other(c.side), i))
    case Unlock(_, p) => Some(p)
    case Access(_, p) => Some(p)
    case SetReady(_, p) => Some(p)
    case _ => None
  }

  ghost predicate PartnerOk(mem: Mem, threads: seq<Pc>, p: nat, x: Phase) {
    && (x.Chosen? ==> x.u < |threads| && Target(mem, threads[x.u]) == Some(p) && !threads[x.u].SetReady?)
    && (x.Filled? ==> x.u < |threads| && Target(mem, threads[x.u]) == Some(p) && threads[x.u].SetReady?)
  }

  ghost predicate Held(mem: Mem, aux: Aux, threads: seq<Pc>) {
    && (forall p :: 0 <= p < |aux.info| ==> OwnerOk(threads, p, aux.info[p]))
    && (forall p :: 0 <= p < |aux.info| ==> PartnerOk(mem, threads, p, aux.info[p].phase))
  }

  // ---- threads ----

  predicate CallOk(c: Call) { c.m.Some? <==> c.side.Sender? }

  /** The packet on the thread's stack is its own, and has come as far as the thread believes. */
  ghost predicate Owns(aux: Aux, t: nat, pc: Pc, p: nat) {
    && p < |aux.info| && aux.info[p].owner == t && aux.info[p].side == SideOf(pc)
    && PlaceOk(pc, aux.info[p].phase)
  }

  /** The thread has selected packet `p` for its call. */
  ghost predicate Partner(aux: Aux, p: nat, c: Call, x: Phase) {
    && p < |aux.info| && aux.info[p].phase == x && aux.info[p].side == Other(c.side)
    && (c.m.Some? ==> c.m == aux.info[p].deal)
  }

  ghost predicate ThreadOk(mem: Mem, aux: Aux, t: nat, pc: Pc) {
    match pc
    case Idle => true
    case Lock(c) => CallOk(c)
    case Scan(c, i) => CallOk(c) && NoneWaiting(aux, Queue(mem, Other(c.side)), i)
    case StorePacket(c, i) =>
      && CallOk(c) && i < |Queue(mem, Other(c.side))| && Partner(aux, PacketAt(mem, Other(c.side), i), c, Chosen(t))
      && aux.picked == Some(PacketAt(mem, Other(c.side), i))
    case Remove(c, i) =>
      && CallOk(c) && i < |Queue(mem, Other(c.side))| && Partner(aux, PacketAt(mem, Other(c.side), i), c, Chosen(t))
      && aux.picked == Some(PacketAt(mem, Other(c.side), i))
    case Unlock(c, p) => CallOk(c) && Partner(aux, p, c, Chosen(t))
    case Access(c, p) => CallOk(c) && Partner(aux, p, c, Chosen(t))
    case SetReady(c, p) => c.m.Some? && Partner(aux, p, c, Filled(t))
    case Miss(c) => CallOk(c) && Nobody(aux, Queue(mem, Other(c.side)))
    case Leave(a) => a.Closed? || a.WouldBlock?
    case Reset(c) => CallOk(c) && Nobody(aux, Queue(mem, Other(c.side))) && !mem.disconnected
    case ResetPacket(c) =>
      && CallOk(c) && Nobody(aux, Queue(mem, Other(c.side))) && !mem.disconnected
      && t < |mem.contexts| && mem.contexts[t].select.Waiting?
    case Register(c) =>
      && CallOk(c) && Nobody(aux, Queue(mem, Other(c.side))) && !mem.disconnected
      && t < |mem.contexts| && mem.contexts[t].select.Waiting?
    case CloseLock => true
    case CloseSet => true
    case CloseMark(side, i) =>
      && aux.marking && NoneWaiting(aux, Queue(mem, side), i)
      && (side.Receiver? ==> Nobody(aux, mem.senders))
    case CloseUnlock(_) => true
    case _ => Owns(aux, t, pc, OwnPacket(pc).value)
  }

  ghost predicate Threads(mem: Mem, aux: Aux, threads: seq<Pc>) {
    forall t :: 0 <= t < |threads| ==> ThreadOk(mem, aux, t, threads[t])
  }

  ghost predicate Inv(s: State) {
    && !s.fault && |s.mem.contexts| == |s.threads|
    && LockOk(s.mem, s.aux, s.threads)
    && Queues(s.mem, s.aux)
    && Packets(s.mem, s.aux)
    && Contexts(s.mem, s.aux)
    && Held(s.mem, s.aux, s.threads)
    && Threads(s.mem, s.aux, s.threads)
  }

  // ---- what a step of thread `t` guarantees to the others ----

  /** A packet of another thread moves on only as its owner expects; a selected one not at all. */
  ghost predicate InfoGuar(i: Info, i': Info, t: nat) {
    && i'.owner == i.owner && i'.side == i.side
    && ((i.phase.Chosen? || i.phase.Filled?) && i.phase.u != t ==> i' == i)
    && (i.owner != t ==>
          match i.phase
          case Queued => i'.phase.Queued? || i'.phase.Cut? || i'.phase.Chosen?
          case Chosen(_) => i'.phase.Chosen? || i'.phase.Filled?
          case Filled(_) => i'.phase.Filled? || i'.phase.Finished?
          case _ => i'.phase == i.phase)
  }

  /** While another thread holds the lock, everything it guards stays. */
  ghost predicate SectionGuar(mem: Mem, aux: Aux, mem': Mem, aux': Aux) {
    && mem'.senders == mem.senders && mem'.receivers == mem.receivers && mem'.disconnected == mem.disconnected
    && mem'.contexts == mem.contexts && |aux'.info| == |aux.info|
    && aux'.holder == aux.holder && aux'.marking == aux.marking && aux'.picked == aux.picked
    && (forall p :: 0 <= p < |aux.info| && p < |aux'.info| ==>
          && (aux'.info[p].phase.Queued? <==> aux.info[p].phase.Queued?))
  }

  ghost predicate Guar(mem: Mem, aux: Aux, t: nat, mem': Mem, aux': Aux) {
    && |aux.info| <= |aux'.info|
    && (forall p :: 0 <= p < |aux.info| && p < |aux'.info| ==> InfoGuar(aux.info[p], aux'.info[p], t))
    && (aux.holder.Some? && aux.holder.value != t ==> SectionGuar(mem, aux, mem', aux'))
  }

  lemma Stable(mem: Mem, aux: Aux, t: nat, mem': Mem, aux': Aux, u: nat, pc: Pc)
    requires ThreadOk(mem, aux, u, pc) && u != t && Guar(mem, aux, t, mem', aux')
    requires InSection(pc) <==> aux.holder == Some(u)
    ensures ThreadOk(mem', aux', u, pc)
  {
  }

  lemma ThreadsStep(mem: Mem, aux: Aux, threads: seq<Pc>, t: nat, mem': Mem, aux': Aux, pc: Pc)
    requires Threads(mem, aux, threads) && LockOk(mem, aux, threads) && t < |threads|
    requires Guar(mem, aux, t, mem', aux') && ThreadOk(mem', aux', t, pc)
    ensures Threads(mem', aux', threads[t := pc])
  {
    forall u | 0 <= u < |threads| && u != t ensures ThreadOk(mem', aux', u, threads[u]) {
      Stable(mem, aux, t, mem', aux', u, threads[u]);
    }
  }
}
