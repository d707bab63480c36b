/**
 The zero-capacity channel (src/zero.rs, src/waker.rs, src/context.rs) as a state
 machine: any number of threads, one step per atomic access, and one for each
 access to a packet or a queue, sequentially consistent. Each thread has one
 context, reset for each blocking operation; a packet lives on the stack of the
 blocked thread until its call returns. Packets and operations are numbered and
 numbers are never reused; operation numbers are above 2.
 */
module ZeroProtocol {
  import opened Common
  import opened Select

  datatype Side = Sender | Receiver

  function Other(s: Side): Side { if s.Sender? then Receiver else Sender }

  datatype Entry = Entry(oper: nat, packet: nat, cx: nat)

  datatype Context = Context(select: Selected, packet: Option<nat>)

  datatype Packet = Packet(ready: bool, msg: Option<Msg>, live: bool)

  datatype Mem = Mem(
    locked: bool, senders: seq<Entry>, receivers: seq<Entry>, disconnected: bool,
    contexts: seq<Context>, packets: seq<Packet>)

  /** A call: a send has its message; a `try_` call does not block. */
  datatype Call = Call(side: Side, m: Option<Msg>, block: bool)

  /** What a call returns. */
  datatype Answer = Nothing | SentOk | Got(m: Msg) | Closed(back: Option<Msg>) | WouldBlock(back: Option<Msg>) | Shut(first: bool)

  datatype Pc =
    | Idle
    | Lock(c: Call)
    // Waker::try_select on the other side's queue
    | Scan(c: Call, i: nat)
    | StorePacket(c: Call, i: nat)           // entry `i` selected
    | Remove(c: Call, i: nat)
    | Unlock(c: Call, p: nat)
    // write or read
    | Access(c: Call, p: nat)
    | SetReady(c: Call, p: nat)
    // nobody to pair up with
    | Miss(c: Call)
    | Leave(a: Answer)
    | Reset(c: Call)
    | ResetPacket(c: Call)
    | Register(c: Call)
    | Release(side: Side, p: nat)
    | Wait(side: Side, p: nat)
    | WaitReady(side: Side, p: nat)
    | Take(p: nat)
    // disconnected while waiting
    | Relock(side: Side, p: nat)
    | Unregister(side: Side, p: nat)
    | UnlockAgain(side: Side, p: nat)
    | GiveBack(side: Side, p: nat)
    // shutdown
    | CloseLock
    | CloseSet
    | CloseMark(side: Side, i: nat)
    | CloseUnlock(first: bool)

  datatype Choice = Go | Start(c: Call) | Shutdown

  datatype Out = Out(mem: Mem, pc: Pc, answer: Answer, fault: bool)

  function Ok(mem: Mem, pc: Pc): Out { Out(mem, pc, Nothing, false) }

  function Done(mem: Mem, a: Answer): Out { Out(mem, Idle, a, false) }

  /** An access to a packet that is gone, a message overwritten, `unwrap` on None,
      `unreachable!`, or an index outside a queue. */
  function Crash(mem: Mem): Out { Out(mem, Idle, Nothing, true) }

  // ---- memory ----

  function Queue(mem: Mem, s: Side): seq<Entry> { if s.Sender? then mem.senders else mem.receivers }

  function SetQueue(mem: Mem, s: Side, q: seq<Entry>): Mem {
    if s.Sender? then Mem(mem.locked, q, mem.receivers, mem.disconnected, mem.contexts, mem.packets)
    else Mem(mem.locked, mem.senders, q, mem.disconnected, mem.contexts, mem.packets)
  }

  function SetLock(mem: Mem, b: bool): Mem {
    Mem(b, mem.senders, mem.receivers, mem.disconnected, mem.contexts, mem.packets)
  }

  function SetClosed(mem: Mem): Mem {
    Mem(mem.locked, mem.senders, mem.receivers, true, mem.contexts, mem.packets)
  }

  function SetContext(mem: Mem, t: nat, x: Context): Mem
    requires t < |mem.contexts|
  {
    Mem(mem.locked, mem.senders, mem.receivers, mem.disconnected, mem.contexts[t := x], mem.packets)
  }

  function SetPacket(mem: Mem, p: nat, x: Packet): Mem
    requires p < |mem.packets|
  {
    Mem(mem.locked, mem.senders, mem.receivers, mem.disconnected, mem.contexts, mem.packets[p := x])
  }

  function AddPacket(mem: Mem, x: Packet): Mem {
    Mem(mem.locked, mem.senders, mem.receivers, mem.disconnected, mem.contexts, mem.packets + [x])
  }

  predicate Live(mem: Mem, p: nat) { p < |mem.packets| && mem.packets[p].live }

  /** Entry `i` is gone; those before it stay, those behind it move up by one. */
  function Removed(q: seq<Entry>, i: nat): (r: seq<Entry>)
    requires i < |q|
    ensures |r| == |q| - 1
    ensures forall j :: 0 <= j < i ==> r[j] == q[j]
    ensures forall j :: i <= j < |r| ==> r[j] == q[j + 1]
  {
    q[..i] + q[i + 1..]
  }

  /** The place of operation `oper` in the queue, or its length. */
  function Find(q: seq<Entry>, oper: nat): (i: nat)
    ensures i <= |q| && (i < |q| ==> q[i].oper == oper)
    ensures forall j :: 0 <= j < i ==> q[j].oper != oper
  {
    if q == [] then 0 else if q[0].oper == oper then 0 else 1 + Find(q[1..], oper)
  }

  function OperOf(p: nat): nat { p + 3 }

  // ---- steps ----

  function TryLock(mem: Mem, pc: Pc, pc': Pc): Out {
    if mem.locked then Ok(mem, pc) else Ok(SetLock(mem, true), pc')
  }

  /** `try_select` on entry `i`: skip the caller's own, and those already selected. */
  function ScanStep(mem: Mem, t: nat, c: Call, i: nat): Out {
    var q := Queue(mem, Other(c.side));
    if i >= |q| then Ok(mem, Miss(c))
    else if q[i].cx >= |mem.contexts| then Crash(mem)
    else if q[i].cx != t && mem.contexts[q[i].cx].select.Waiting? then
      Ok(SetContext(mem, q[i].cx, Context(Operation(q[i].oper), mem.contexts[q[i].cx].packet)), StorePacket(c, i))
    else Ok(mem, Scan(c, i + 1))
  }

  function StoreStep(mem: Mem, c: Call, i: nat): Out {
    var q := Queue(mem, Other(c.side));
    if i >= |q| || q[i].cx >= |mem.contexts| then Crash(mem)
    else Ok(SetContext(mem, q[i].cx, Context(mem.contexts[q[i].cx].select, Some(q[i].packet))), Remove(c, i))
  }

  function RemoveStep(mem: Mem, c: Call, i: nat): Out {
    var q := Queue(mem, Other(c.side));
    if i >= |q| then Crash(mem)
    else Ok(SetQueue(mem, Other(c.side), Removed(q, i)), Unlock(c, q[i].packet))
  }

  /** `write` fills the packet, `read` empties it. */
  function AccessStep(mem: Mem, c: Call, p: nat): Out {
    if !Live(mem, p) then Crash(mem)
    else
      var x := mem.packets[p];
      if c.side.Sender? then
        if x.msg.Some? then Crash(mem) else Ok(SetPacket(mem, p, Packet(x.ready, c.m, x.live)), SetReady(c, p))
      else
        if x.msg.None? then Crash(mem)
        else Ok(SetPacket(mem, p, Packet(x.ready, None, x.live)), SetReady(Call(c.side, x.msg, c.block), p))
  }

  function ReadyStep(mem: Mem, c: Call, p: nat): Out {
    if !Live(mem, p) || (c.side.Receiver? && c.m.None?) then Crash(mem)
    else Done(SetPacket(mem, p, Packet(true, mem.packets[p].msg, true)), if c.side.Sender? then SentOk else Got(c.m.value))
  }

  function MissStep(mem: Mem, c: Call): Out {
    if mem.disconnected then Ok(mem, Leave(Closed(c.m)))
    else if !c.block then Ok(mem, Leave(WouldBlock(c.m)))
    else Ok(mem, Reset(c))
  }

  function ResetStep(mem: Mem, t: nat, c: Call): Out {
    if t >= |mem.contexts| then Crash(mem)
    else Ok(SetContext(mem, t, Context(Waiting, mem.contexts[t].packet)), ResetPacket(c))
  }

  function ResetPacketStep(mem: Mem, t: nat, c: Call): Out {
    if t >= |mem.contexts| then Crash(mem)
    else Ok(SetContext(mem, t, Context(mem.contexts[t].select, None)), Register(c))
  }

  /** The packet goes on the stack, the entry into the queue. */
  function RegisterStep(mem: Mem, t: nat, c: Call): Out {
    var p := |mem.packets|;
    Ok(SetQueue(AddPacket(mem, Packet(false, c.m, true)), c.side, Queue(mem, c.side) + [Entry(OperOf(p), p, t)]),
       Release(c.side, p))
  }

  function WaitStep(mem: Mem, t: nat, side: Side, p: nat): Out {
    if t >= |mem.contexts| then Crash(mem)
    else match mem.contexts[t].select
      case Waiting => Ok(mem, Wait(side, p))
      case Aborted => Crash(mem)
      case Disconnected => Ok(mem, Relock(side, p))
      case Operation(_) => Ok(mem, WaitReady(side, p))
  }

  function Drop(mem: Mem, p: nat): Mem
    requires p < |mem.packets|
  {
    SetPacket(mem, p, Packet(mem.packets[p].ready, None, false))
  }

  function WaitReadyStep(mem: Mem, side: Side, p: nat): Out {
    if !Live(mem, p) then Crash(mem)
    else if !mem.packets[p].ready then Ok(mem, WaitReady(side, p))
    else if side.Sender? then Done(Drop(mem, p), SentOk)
    else Ok(mem, Take(p))
  }

  function TakeStep(mem: Mem, p: nat): Out {
    if !Live(mem, p) || mem.packets[p].msg.None? then Crash(mem)
    else Done(Drop(mem, p), Got(mem.packets[p].msg.value))
  }

  function UnregisterStep(mem: Mem, side: Side, p: nat): Out {
    var q := Queue(mem, side);
    var i := Find(q, OperOf(p));
    if i >= |q| then Crash(mem) else Ok(SetQueue(mem, side, Removed(q, i)), UnlockAgain(side, p))
  }

  function GiveBackStep(mem: Mem, side: Side, p: nat): Out {
    if !Live(mem, p) || (side.Sender? && mem.packets[p].msg.None?) then Crash(mem)
    else Done(Drop(mem, p), Closed(if side.Sender? then mem.packets[p].msg else None))
  }

  /** `disconnect` on one queue after the other. */
  function MarkStep(mem: Mem, side: Side, i: nat): Out {
    var q := Queue(mem, side);
    if i >= |q| then Ok(mem, if side.Sender? then CloseMark(Receiver, 0) else CloseUnlock(true))
    else if q[i].cx >= |mem.contexts| then Crash(mem)
    else if mem.contexts[q[i].cx].select.Waiting? then
      Ok(SetContext(mem, q[i].cx, Context(Disconnected, mem.contexts[q[i].cx].packet)), CloseMark(side, i + 1))
    else Ok(mem, CloseMark(side, i + 1))
  }

  function CallStep(mem: Mem, x: Choice): Out {
    match x
    case Start(c) => Ok(mem, if c.m.Some? <==> c.side.Sender? then Lock(c) else Idle)
    case Shutdown => Ok(mem, CloseLock)
    case Go => Ok(mem, Idle)
  }

  function MemStep(mem: Mem, t: nat, pc: Pc, x: Choice): Out {
    match pc
    case Idle => CallStep(mem, x)
    case Lock(c) => TryLock(mem, pc, Scan(c, 0))
    case Scan(c, i) => ScanStep(mem, t, c, i)
    case StorePacket(c, i) => StoreStep(mem, c, i)
    case Remove(c, i) => RemoveStep(mem, c, i)
    case Unlock(c, p) => Ok(SetLock(mem, false), Access(c, p))
    case Access(c, p) => AccessStep(mem, c, p)
    case SetReady(c, p) => ReadyStep(mem, c, p)
    case Miss(c) => MissStep(mem, c)
    case Leave(a) => Done(SetLock(mem, false), a)
    case Reset(c) => ResetStep(mem, t, c)
    case ResetPacket(c) => ResetPacketStep(mem, t, c)
    case Register(c) => RegisterStep(mem, t, c)
    case Release(side, p) => Ok(SetLock(mem, false), Wait(side, p))
    case Wait(side, p) => WaitStep(mem, t, side, p)
    case WaitReady(side, p) => WaitReadyStep(mem, side, p)
    case Take(p) => TakeStep(mem, p)
    case Relock(side, p) => TryLock(mem, pc, Unregister(side, p))
    case Unregister(side, p) => UnregisterStep(mem, side, p)
    case UnlockAgain(side, p) => Ok(SetLock(mem, false), GiveBack(side, p))
    case GiveBack(side, p) => GiveBackStep(mem, side, p)
    case CloseLock => TryLock(mem, pc, CloseSet)
    case CloseSet =>
      if mem.disconnected then Ok(mem, CloseUnlock(false)) else Ok(SetClosed(mem), CloseMark(Sender, 0))
    case CloseMark(side, i) => MarkStep(mem, side, i)
    case CloseUnlock(first) => Done(SetLock(mem, false), Shut(first))
  }

  // ---- specification state ----

  /** How far a packet has come. */
  datatype Phase =
    | Queued           // in its queue, nobody has selected it
    | Cut              // in its queue, disconnected
    | Left             // taken out of its queue again by its owner
    | Chosen(u: nat)   // selected by thread `u`
    | Filled(u: nat)   // thread `u` has moved the message, but not set `ready`
    | Finished         // `ready` is set
    | Gone             // off the stack

  /** Whose packet it is, and the message it carries in the end (known from the start for a sender's). */
  datatype Info = Info(owner: nat, side: Side, phase: Phase, deal: Option<Msg>)

  /**
   `holder` is the thread that holds the lock; `marking` is set while it marks the
   entries disconnected; `picked` is a selected packet whose entry is still in its queue.
   */
  datatype Aux = Aux(info: seq<Info>, holder: Option<nat>, marking: bool, picked: Option<nat>)

  datatype State = State(mem: Mem, threads: seq<Pc>, fault: bool, aux: Aux)

  function SetInfo(aux: Aux, p: nat, x: Phase, deal: Option<Msg>): Aux {
    if p < |aux.info| then
      Aux(aux.info[p := Info(aux.info[p].owner, aux.info[p].side, x, deal)], aux.holder, aux.marking, aux.picked)
    else aux
  }

  function SetPhase(aux: Aux, p: nat, x: Phase): Aux {
    SetInfo(aux, p, x, if p < |aux.info| then aux.info[p].deal else None)
  }

  function SetHolder(aux: Aux, h: Option<nat>): Aux { Aux(aux.info, h, aux.marking, aux.picked) }

  function SetMarking(aux: Aux, b: bool): Aux { Aux(aux.info, aux.holder, b, aux.picked) }

  function SetPicked(aux: Aux, p: Option<nat>): Aux { Aux(aux.info, aux.holder, aux.marking, p) }

  function AddInfo(aux: Aux, x: Info): Aux { Aux(aux.info + [x], aux.holder, aux.marking, aux.picked) }

  /** The packet of entry `i` on one side. */
  function PacketAt(mem: Mem, s: Side, i: nat): nat { if i < |Queue(mem, s)| then Queue(mem, s)[i].packet else 0 }

  function DealOf(aux: Aux, p: nat): Option<Msg> { if p < |aux.info| then aux.info[p].deal else None }

  function Annotate(mem: Mem, aux: Aux, t: nat, pc: Pc, out: Out): Aux {
    match pc
    case Lock(_) => if out.pc.Scan? then SetHolder(aux, Some(t)) else aux
    case Relock(_, _) => if out.pc.Unregister? then SetHolder(aux, Some(t)) else aux
    case CloseLock => if out.pc.CloseSet? then SetHolder(aux, Some(t)) else aux
    case Unlock(_, _) => SetHolder(aux, None)
    case Leave(_) => SetHolder(aux, None)
    case Release(_, _) => SetHolder(aux, None)
    case UnlockAgain(_, _) => SetHolder(aux, None)
    case CloseUnlock(_) => SetHolder(aux, None)
    case Scan(c, i) =>
      if out.pc.StorePacket? then
        var p := PacketAt(mem, Other(c.side), i);
        SetPicked(SetInfo(aux, p, Chosen(t), if c.side.Sender? then c.m else DealOf(aux, p)), Some(p))
      else aux
    case Remove(_, _) => SetPicked(aux, None)
    case Access(_, p) => SetPhase(aux, p, Filled(t))
    case SetReady(_, p) => SetPhase(aux, p, Finished)
    case Register(c) => AddInfo(aux, Info(t, c.side, Queued, c.m))
    case WaitReady(_, p) => if out.pc.Idle? then SetPhase(aux, p, Gone) else aux
    case Take(p) => SetPhase(aux, p, Gone)
    case GiveBack(_, p) => SetPhase(aux, p, Gone)
    case Unregister(_, p) => SetPhase(aux, p, Left)
    case CloseSet => if out.pc.CloseMark? then SetMarking(aux, true) else aux
    case CloseMark(side, i) =>
      if out.pc.CloseUnlock? then SetMarking(aux, false)
      else if out.mem != mem then SetPhase(aux, PacketAt(mem, side, i), Cut)
      else aux
    case _ => aux
  }

  function Step(s: State, t: nat, x: Choice): State
    requires t < |s.threads|
  {
    var out := MemStep(s.mem, t, s.threads[t], x);
    State(out.mem, s.threads[t := out.pc], s.fault || out.fault, Annotate(s.mem, s.aux, t, s.threads[t], out))
  }

  /** A new channel, shared by any number of threads that have not made a call yet. */
  ghost predicate Initial(s: State) {
    && !s.mem.locked && s.mem.senders == [] && s.mem.receivers == [] && !s.mem.disconnected
    && |s.mem.contexts| == |s.threads| && s.mem.packets == []
    && (forall t :: 0 <= t < |s.threads| ==> s.threads[t].Idle?) && !s.fault
    && s.aux.info == [] && s.aux.holder.None? && !s.aux.marking && s.aux.picked.None?
  }
}
