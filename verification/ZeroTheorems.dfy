/** The results about the zero-capacity channel: for every number of threads and every schedule. */
module ZeroTheorems {
  import opened Common
  import opened Select
  import opened Meeting
  import opened ZeroProtocol
  import opened ZeroInvariant
  import opened ZeroSteps

  // ---- runs ----

  type Schedule = seq<(nat, Choice)>

  ghost function Turn(s: State, x: (nat, Choice)): State {
    if x.0 < |s.threads| then Step(s, x.0, x.1) else s
  }

  /** The states a new channel goes through under a schedule. */
  ghost predicate IsRun(run: seq<State>, sched: Schedule) {
    && |run| == |sched| + 1
    && Initial(run[0])
    && forall i {:trigger sched[i]} :: 0 <= i < |sched| ==> run[i + 1] == Turn(run[i], sched[i])
  }

  lemma InitialInv(s: State)
    requires Initial(s)
    ensures Inv(s)
  {
  }

  /**
   The invariant holds throughout every run. With it goes `!fault`: no packet is
   touched off its owner's stack frame, no message overwritten or missing, every
   `unregister` finds its entry, and no waiting thread sees `Aborted`.
   */
  lemma {:induction false} Always(run: seq<State>, sched: Schedule, i: nat)
    requires IsRun(run, sched) && i < |run|
    ensures Inv(run[i]) && !run[i].fault
  {
    if i == 0 {
      InitialInv(run[0]);
    } else {
      Always(run, sched, i - 1);
      var s, x := run[i - 1], sched[i - 1];
      if x.0 < |s.threads| {
        StepKeeps(s, x.0, x.1);
      }
    }
  }

  /** `s` is the state that some run has led to. */
  ghost predicate Reachable(s: State) {
    exists run: seq<State>, sched: Schedule :: IsRun(run, sched) && run[|sched|] == s
  }

  lemma ReachableInv(s: State)
    requires Reachable(s)
    ensures Inv(s)
  {
    var run: seq<State>, sched: Schedule :| IsRun(run, sched) && run[|sched|] == s;
    Always(run, sched, |sched|);
  }

  /** Every state of every run is reachable. */
  lemma RunReaches(run: seq<State>, sched: Schedule, i: nat)
    requires IsRun(run, sched) && i < |run|
    ensures Reachable(run[i])
  {
    var run', sched' := run[..i + 1], sched[..i];
    assert IsRun(run', sched') && run'[|sched'|] == run[i];
  }

  // ---- packets and their partners ----

  /** At most one thread is the partner of a packet, and it is not its owner. */
  lemma OnePartner(s: State, t: nat, u: nat)
    requires Reachable(s) && t < |s.threads| && u < |s.threads|
    requires Target(s.mem, s.threads[t]).Some? && Target(s.mem, s.threads[t]) == Target(s.mem, s.threads[u])
    ensures t == u
    ensures var p := Target(s.mem, s.threads[t]).value; p < |s.aux.info| && s.aux.info[p].owner != t
  {
    ReachableInv(s);
    assert ThreadOk(s.mem, s.aux, t, s.threads[t]);
    assert ThreadOk(s.mem, s.aux, u, s.threads[u]);
    var p := Target(s.mem, s.threads[t]).value;
    assert OwnerOk(s.threads, p, s.aux.info[p]);
  }

  /** Until its partner's last access a packet stays on the stack: its owner is still in the call. */
  lemma PacketOutlivesPartner(s: State, t: nat)
    requires Reachable(s) && t < |s.threads| && Target(s.mem, s.threads[t]).Some?
    ensures var p := Target(s.mem, s.threads[t]).value;
      && p < |s.aux.info| && Live(s.mem, p) && !s.mem.packets[p].ready
      && var o := s.aux.info[p].owner;
         o < |s.threads| && (s.threads[o].Wait? || s.threads[o].WaitReady?) && s.threads[o].p == p
  {
    ReachableInv(s);
    assert ThreadOk(s.mem, s.aux, t, s.threads[t]);
    var p := Target(s.mem, s.threads[t]).value;
    assert PacketOk(s.mem.packets[p], s.aux.info[p]);
    var o := s.aux.info[p].owner;
    assert OwnerOk(s.threads, p, s.aux.info[p]);
    assert ThreadOk(s.mem, s.aux, o, s.threads[o]);
  }

  /** A packet address is stored into a context before its owner can reset it for another operation. */
  lemma PacketStoredInTime(s: State, t: nat)
    requires Reachable(s) && t < |s.threads| && s.threads[t].StorePacket?
    ensures var StorePacket(c, i) := s.threads[t];
      && i < |Queue(s.mem, Other(c.side))|
      && var e := Queue(s.mem, Other(c.side))[i];
         e.cx < |s.mem.contexts| && s.mem.contexts[e.cx].select == Operation(e.oper)
  {
    ReachableInv(s);
    assert ThreadOk(s.mem, s.aux, t, s.threads[t]);
    var StorePacket(c, i) := s.threads[t];
    var e := Queue(s.mem, Other(c.side))[i];
    assert EntryOk(s.aux, Other(c.side), e);
    assert ContextOk(s.mem.contexts, e.packet, s.aux.info[e.packet]);
  }

  /** A thread never meets an entry of its own, so the comparison of thread ids never decides anything. */
  lemma NeverOwnEntry(s: State, t: nat, i: nat)
    requires Reachable(s) && t < |s.threads| && s.threads[t].Scan?
    requires i < |Queue(s.mem, Other(s.threads[t].c.side))|
    ensures Queue(s.mem, Other(s.threads[t].c.side))[i].cx != t
  {
    ReachableInv(s);
    var c := s.threads[t].c;
    SkipFacts(s.mem, s.aux, t, c, i);
    NotOwn(s.mem, s.aux, s.threads, t, Queue(s.mem, Other(c.side))[i].packet);
    assert EntryOk(s.aux, Other(c.side), Queue(s.mem, Other(c.side))[i]);
  }

  /** After a disconnect a waiter finds its own entry, whatever has happened to the queue since. */
  lemma UnregisterFinds(s: State, t: nat)
    requires Reachable(s) && t < |s.threads| && s.threads[t].Unregister?
    ensures var Unregister(side, p) := s.threads[t];
      var q := Queue(s.mem, side);
      Find(q, OperOf(p)) < |q| && q[Find(q, OperOf(p))] == Entry(OperOf(p), p, t)
  {
    ReachableInv(s);
    assert ThreadOk(s.mem, s.aux, t, s.threads[t]);
    var Unregister(side, p) := s.threads[t];
    var q := Queue(s.mem, side);
    EntryFound(s.aux, side, q, p);
    assert EntryOk(s.aux, side, q[Find(q, OperOf(p))]);
  }

  /**
   The lock invariant: never do both queues hold a waiting entry, and after a
   disconnect, once the lock is free again, neither does.
   */
  lemma WaitersOnOneSide(s: State, i: nat, j: nat)
    requires Reachable(s) && i < |s.mem.senders| && j < |s.mem.receivers|
    ensures s.mem.senders[i].cx < |s.mem.contexts| && s.mem.receivers[j].cx < |s.mem.contexts|
    ensures !s.mem.contexts[s.mem.senders[i].cx].select.Waiting? || !s.mem.contexts[s.mem.receivers[j].cx].select.Waiting?
  {
    ReachableInv(s);
    SkipFacts(s.mem, s.aux, 0, Call(Receiver, None, false), i);
    SkipFacts(s.mem, s.aux, 0, Call(Sender, None, false), j);
  }

  lemma NoWaiterOnceClosed(s: State, side: Side, i: nat)
    requires Reachable(s) && s.mem.disconnected && !s.mem.locked && i < |Queue(s.mem, side)|
    ensures Queue(s.mem, side)[i].cx < |s.mem.contexts|
    ensures s.mem.contexts[Queue(s.mem, side)[i].cx].select.Disconnected?
  {
    ReachableInv(s);
    SkipFacts(s.mem, s.aux, 0, Call(Other(side), None, false), i);
    var e := Queue(s.mem, side)[i];
    assert EntryOk(s.aux, side, e);
    assert ContextOk(s.mem.contexts, e.packet, s.aux.info[e.packet]);
  }

  // ---- refinement of the meeting ----

  /** The packets of a queue that still wait, in order. */
  ghost function Line(aux: Aux, q: seq<Entry>): seq<nat> {
    if q == [] then [] else
      (if q[0].packet < |aux.info| && aux.info[q[0].packet].phase.Queued? then [q[0].packet] else []) + Line(aux, q[1..])
  }

  lemma {:induction false} LineNone(aux: Aux, q: seq<Entry>)
    requires Nobody(aux, q)
    ensures Line(aux, q) == []
  {
    if q != [] {
      assert forall i :: 0 <= i < |q| - 1 ==> q[1..][i] == q[i + 1];
      LineNone(aux, q[1..]);
    }
  }

  ghost predicate SamePhase(aux: Aux, aux': Aux, p: nat) {
    (p < |aux.info| && aux.info[p].phase.Queued?) <==> (p < |aux'.info| && aux'.info[p].phase.Queued?)
  }

  lemma {:induction false} LineSame(aux: Aux, aux': Aux, q: seq<Entry>)
    requires forall i :: 0 <= i < |q| ==> SamePhase(aux, aux', q[i].packet)
    ensures Line(aux', q) == Line(aux, q)
  {
    if q != [] {
      assert forall i :: 0 <= i < |q| - 1 ==> q[1..][i] == q[i + 1];
      LineSame(aux, aux', q[1..]);
    }
  }

  lemma {:induction false} LineJoin(aux: Aux, q: seq<Entry>, r: seq<Entry>)
    ensures Line(aux, q + r) == Line(aux, q) + Line(aux, r)
  {
    if q == [] {
      assert q + r == r;
    } else {
      assert (q + r)[1..] == q[1..] + r;
      LineJoin(aux, q[1..], r);
    }
  }

  /** The line consists of queued packets of the queue. */
  lemma {:induction false} LineIn(aux: Aux, q: seq<Entry>, k: nat)
    requires k < |Line(aux, q)|
    ensures Line(aux, q)[k] < |aux.info| && aux.info[Line(aux, q)[k]].phase.Queued?
    ensures Contains(q, Line(aux, q)[k])
  {
    var w := if q[0].packet < |aux.info| && aux.info[q[0].packet].phase.Queued? then 1 else 0;
    if k >= w {
      LineIn(aux, q[1..], k - w);
      var p := Line(aux, q)[k];
      var i :| 0 <= i < |q[1..]| && q[1..][i].packet == p;
      assert q[i + 1].packet == p;
    } else {
      assert q[0].packet == Line(aux, q)[k];
    }
  }

  lemma LineSplit(aux: Aux, q: seq<Entry>, i: nat)
    requires i < |q|
    ensures Line(aux, q) == Line(aux, q[..i]) + Line(aux, [q[i]]) + Line(aux, q[i + 1..])
  {
    assert q == q[..i] + [q[i]] + q[i + 1..];
    LineJoin(aux, q[..i] + [q[i]], q[i + 1..]);
    LineJoin(aux, q[..i], [q[i]]);
  }

  lemma LineOne(aux: Aux, e: Entry)
    ensures Line(aux, [e]) == if e.packet < |aux.info| && aux.info[e.packet].phase.Queued? then [e.packet] else []
  {
    LineNone(aux, [e][1..]);
  }

  /** The first waiting entry is the head of the line. */
  lemma LinePick(aux: Aux, aux': Aux, q: seq<Entry>, i: nat)
    requires i < |q| && NoneWaiting(aux, q, i) && q[i].packet < |aux.info|
    requires aux.info[q[i].packet].phase.Queued?
    requires q[i].packet < |aux'.info| && !aux'.info[q[i].packet].phase.Queued?
    requires forall j :: 0 <= j < |q| && j != i ==> SamePhase(aux, aux', q[j].packet)
    ensures Line(aux, q) == [q[i].packet] + Line(aux', q)
  {
    LineFrom(aux, q, i);
    LineAfter(aux, aux', q, i);
  }

  lemma LineAfter(aux: Aux, aux': Aux, q: seq<Entry>, i: nat)
    requires i < |q| && NoneWaiting(aux, q, i) && q[i].packet < |aux'.info| && !aux'.info[q[i].packet].phase.Queued?
    requires forall j :: 0 <= j < |q| && j != i ==> SamePhase(aux, aux', q[j].packet)
    ensures Line(aux', q) == Line(aux, q[i + 1..])
  {
    PickSame(aux, aux', q, i);
    LineFrom(aux', q, i);
  }

  /** Nobody waits before entry `i`. */
  lemma LineFrom(aux: Aux, q: seq<Entry>, i: nat)
    requires i < |q| && NoneWaiting(aux, q, i) && q[i].packet < |aux.info|
    ensures Line(aux, q) == (if aux.info[q[i].packet].phase.Queued? then [q[i].packet] else []) + Line(aux, q[i + 1..])
  {
    LineSplit(aux, q, i);
    LineOne(aux, q[i]);
    LineNone(aux, q[..i]);
  }

  lemma PickSame(aux: Aux, aux': Aux, q: seq<Entry>, i: nat)
    requires i < |q| && forall j :: 0 <= j < |q| && j != i ==> SamePhase(aux, aux', q[j].packet)
    ensures NoneWaiting(aux, q, i) ==> NoneWaiting(aux', q, i)
    ensures Line(aux, q[i + 1..]) == Line(aux', q[i + 1..])
  {
    LineSame(aux, aux', q[i + 1..]);
  }

  lemma LineRemove(aux: Aux, q: seq<Entry>, i: nat)
    requires i < |q| && q[i].packet < |aux.info| && !aux.info[q[i].packet].phase.Queued?
    ensures Line(aux, Removed(q, i)) == Line(aux, q)
  {
    LineSplit(aux, q, i);
    LineOne(aux, q[i]);
    LineJoin(aux, q[..i], q[i + 1..]);
  }

  ghost function WaiterOf(aux: Aux, p: nat): Waiter {
    if p < |aux.info| then
      Waiter(aux.info[p].owner, if aux.info[p].side.Sender? then aux.info[p].deal else None)
    else Waiter(0, None)
  }

  ghost function Waiters(aux: Aux, line: seq<nat>): seq<Waiter> {
    seq(|line|, k requires 0 <= k < |line| => WaiterOf(aux, line[k]))
  }

  /** Who waits; nobody does from the moment the channel is marked disconnected. */
  ghost function AbsOf(mem: Mem, aux: Aux): Hall {
    if mem.disconnected then Hall([], [], true)
    else Hall(Waiters(aux, Line(aux, mem.senders)), Waiters(aux, Line(aux, mem.receivers)), false)
  }

  ghost function Abs(s: State): Hall { AbsOf(s.mem, s.aux) }

  /** Where a call takes effect: the selection of a waiter, the registration, the
      look at `is_disconnected` under the lock, and the setting of it. */
  ghost function EventIn(mem: Mem, aux: Aux, t: nat, pc: Pc, x: Choice): Event {
    var pc' := MemStep(mem, t, pc, x).pc;
    match pc
    case Scan(c, i) =>
      var w := WaiterOf(aux, PacketAt(mem, Other(c.side), i));
      if !pc'.StorePacket? then Tau
      else if c.side.Sender? then (if c.m.Some? then SendMeets(t, c.m.value, w.t) else Tau)
      else (if w.m.Some? then RecvMeets(t, w.t, w.m.value) else Tau)
    case Register(c) =>
      if c.side.Sender? then (if c.m.Some? then SendWaits(t, c.m.value) else Tau) else RecvWaits(t)
    case Miss(c) =>
      if !pc'.Leave? then Tau
      else if c.side.Sender? then
        (if c.m.None? then Tau else if mem.disconnected then SendRefused(t, c.m.value) else SendLeaves(t, c.m.value))
      else if mem.disconnected then RecvRefused(t) else RecvLeaves(t)
    case CloseSet => Close(!mem.disconnected)
    case _ => Tau
  }

  ghost function EventOf(s: State, x: (nat, Choice)): Event {
    if x.0 < |s.threads| then EventIn(s.mem, s.aux, x.0, s.threads[x.0], x.1) else Tau
  }

  ghost predicate Refines(mem: Mem, aux: Aux, t: nat, pc: Pc, x: Choice) {
    var out := MemStep(mem, t, pc, x);
    HallStep(AbsOf(mem, aux), EventIn(mem, aux, t, pc, x), AbsOf(out.mem, Annotate(mem, aux, t, pc, out)))
  }

  /** The hall depends only on who is queued where. */
  /** Nothing moves that the meeting consists of. */
  ghost predicate HallMoves(mem: Mem, aux: Aux, mem': Mem, aux': Aux) {
    && mem'.senders == mem.senders && mem'.receivers == mem.receivers && mem'.disconnected == mem.disconnected
    && |aux'.info| == |aux.info|
    && forall p :: 0 <= p < |aux.info| ==>
         && (aux'.info[p].phase.Queued? <==> aux.info[p].phase.Queued?)
         && (aux.info[p].phase.Queued? ==> aux'.info[p] == aux.info[p])
  }

  lemma SameHall(mem: Mem, aux: Aux, mem': Mem, aux': Aux)
    requires HallMoves(mem, aux, mem', aux')
    ensures AbsOf(mem', aux') == AbsOf(mem, aux)
  {
    SameWaiters(aux, aux', mem.senders);
    SameWaiters(aux, aux', mem.receivers);
  }

  lemma SameWaiters(aux: Aux, aux': Aux, q: seq<Entry>)
    requires |aux'.info| == |aux.info|
    requires forall p :: 0 <= p < |aux.info| ==>
      && (aux'.info[p].phase.Queued? <==> aux.info[p].phase.Queued?)
      && (aux.info[p].phase.Queued? ==> aux'.info[p] == aux.info[p])
    ensures Waiters(aux', Line(aux', q)) == Waiters(aux, Line(aux, q))
  {
    LineSame(aux, aux', q);
    forall k | 0 <= k < |Line(aux, q)| ensures WaiterOf(aux', Line(aux, q)[k]) == WaiterOf(aux, Line(aux, q)[k]) {
      LineIn(aux, q, k);
    }
  }

  lemma NobodyWaits(aux: Aux, q: seq<Entry>)
    requires Nobody(aux, q)
    ensures Waiters(aux, Line(aux, q)) == []
  {
    LineNone(aux, q);
  }

  lemma PickLine(aux: Aux, s: Side, q: seq<Entry>, i: nat, info: Info)
    requires QueueOk(aux, s, q) && i < |q| && NoneWaiting(aux, q, i)
    requires q[i].packet < |aux.info| && aux.info[q[i].packet].phase.Queued? && info.phase.Chosen?
    ensures Line(aux, q) == [q[i].packet] + Line(PickAux(aux, q[i].packet, info), q)
  {
    var aux' := PickAux(aux, q[i].packet, info);
    forall j | 0 <= j < |q| && j != i ensures SamePhase(aux, aux', q[j].packet) {
      assert q[j].packet != q[i].packet;
    }
    LinePick(aux, aux', q, i);
  }

  lemma WaitersCons(aux: Aux, p: nat, line: seq<nat>)
    ensures Waiters(aux, [p] + line) == [WaiterOf(aux, p)] + Waiters(aux, line)
  {
  }

  lemma RestWaits(aux: Aux, q: seq<Entry>, p: nat, info: Info)
    requires p < |aux.info| && info.phase.Chosen?
    ensures var aux' := PickAux(aux, p, info);
      Waiters(aux, Line(aux', q)) == Waiters(aux', Line(aux', q))
  {
    var aux' := PickAux(aux, p, info);
    forall k | 0 <= k < |Line(aux', q)| ensures WaiterOf(aux', Line(aux', q)[k]) == WaiterOf(aux, Line(aux', q)[k]) {
      LineIn(aux', q, k);
    }
  }

  lemma PickWaiters(aux: Aux, s: Side, q: seq<Entry>, i: nat, info: Info)
    requires QueueOk(aux, s, q) && i < |q| && NoneWaiting(aux, q, i)
    requires q[i].packet < |aux.info| && aux.info[q[i].packet].phase.Queued? && info.phase.Chosen?
    ensures var aux' := PickAux(aux, q[i].packet, info);
      Waiters(aux, Line(aux, q)) == [WaiterOf(aux, q[i].packet)] + Waiters(aux', Line(aux', q))
  {
    var aux' := PickAux(aux, q[i].packet, info);
    PickLine(aux, s, q, i, info);
    WaitersCons(aux, q[i].packet, Line(aux', q));
    RestWaits(aux, q, q[i].packet, info);
  }

  lemma PickOther(aux: Aux, s: Side, q: seq<Entry>, p: nat, i: Info)
    requires QueueOk(aux, s, q) && p < |aux.info| && aux.info[p].side != s && i.phase.Chosen?
    ensures Waiters(PickAux(aux, p, i), Line(PickAux(aux, p, i), q)) == Waiters(aux, Line(aux, q))
  {
    var aux' := PickAux(aux, p, i);
    forall k | 0 <= k < |q| ensures SamePhase(aux, aux', q[k].packet) {
      assert EntryOk(aux, s, q[k]);
    }
    LineSame(aux, aux', q);
    forall k | 0 <= k < |Line(aux, q)| ensures WaiterOf(aux', Line(aux, q)[k]) == WaiterOf(aux, Line(aux, q)[k]) {
      LineIn(aux, q, k);
      var j :| 0 <= j < |q| && q[j].packet == Line(aux, q)[k];
      assert EntryOk(aux, s, q[j]);
    }
  }

  lemma PickRefines(s: State, t: nat, x: Choice)
    requires Inv(s) && t < |s.threads| && s.threads[t].Scan? && MemStep(s.mem, t, s.threads[t], x).pc.StorePacket?
    ensures Refines(s.mem, s.aux, t, s.threads[t], x)
  {
    ThreadKnows(s, t);
    var Scan(c, i) := s.threads[t];
    var q := Queue(s.mem, Other(c.side));
    SkipFacts(s.mem, s.aux, t, c, i);
    var p := q[i].packet;
    assert EntryOk(s.aux, Other(c.side), q[i]);
    assert PacketOk(s.mem.packets[p], s.aux.info[p]);
    PickWaiters(s.aux, Other(c.side), q, i, Picked(c, t, s.aux.info[p]));
    PickOther(s.aux, c.side, Queue(s.mem, c.side), p, Picked(c, t, s.aux.info[p]));
  }

  lemma RegisterWaiters(aux: Aux, s: Side, q: seq<Entry>, i: Info)
    requires QueueOk(aux, s, q) && i.phase.Queued?
    ensures var aux' := AddInfo(aux, i);
      && Waiters(aux', Line(aux', q)) == Waiters(aux, Line(aux, q))
      && Waiters(aux', Line(aux', q + [Entry(OperOf(|aux.info|), |aux.info|, i.owner)])) ==
           Waiters(aux, Line(aux, q)) + [Waiter(i.owner, if i.side.Sender? then i.deal else None)]
  {
    var aux', e := AddInfo(aux, i), Entry(OperOf(|aux.info|), |aux.info|, i.owner);
    forall k | 0 <= k < |q| ensures SamePhase(aux, aux', q[k].packet) {
      assert EntryOk(aux, s, q[k]);
    }
    LineSame(aux, aux', q);
    LineJoin(aux', q, [e]);
    LineOne(aux', e);
    forall k | 0 <= k < |Line(aux, q)| ensures WaiterOf(aux', Line(aux, q)[k]) == WaiterOf(aux, Line(aux, q)[k]) {
      LineIn(aux, q, k);
    }
  }

  lemma RegisterHall(mem: Mem, aux: Aux, t: nat, c: Call)
    requires Queues(mem, aux) && Nobody(aux, Queue(mem, Other(c.side))) && !mem.disconnected && CallOk(c)
    requires |aux.info| == |mem.packets|
    ensures HallStep(AbsOf(mem, aux), if c.side.Sender? then SendWaits(t, c.m.value) else RecvWaits(t),
                     AbsOf(RegisterStep(mem, t, c).mem, AddInfo(aux, Info(t, c.side, Queued, c.m))))
  {
    RegisterWaiters(aux, Sender, mem.senders, Info(t, c.side, Queued, c.m));
    RegisterWaiters(aux, Receiver, mem.receivers, Info(t, c.side, Queued, c.m));
    NobodyWaits(aux, Queue(mem, Other(c.side)));
  }

  lemma RegisterRefines(s: State, t: nat, x: Choice)
    requires Inv(s) && t < |s.threads| && s.threads[t].Register?
    ensures Refines(s.mem, s.aux, t, s.threads[t], x)
  {
    ThreadKnows(s, t);
    RegisterHall(s.mem, s.aux, t, s.threads[t].c);
  }

  lemma MissRefines(s: State, t: nat, x: Choice)
    requires Inv(s) && t < |s.threads| && s.threads[t].Miss?
    ensures Refines(s.mem, s.aux, t, s.threads[t], x)
  {
    ThreadKnows(s, t);
    NobodyWaits(s.aux, Queue(s.mem, Other(s.threads[t].c.side)));
  }

  /** A queue without an entry that waits no more. */
  lemma RemoveWaiters(aux: Aux, q: seq<Entry>, i: nat, aux': Aux)
    requires i < |q| && q[i].packet < |aux.info| && !aux.info[q[i].packet].phase.Queued?
    requires |aux'.info| == |aux.info|
    requires forall p :: 0 <= p < |aux.info| ==>
      && (aux'.info[p].phase.Queued? <==> aux.info[p].phase.Queued?)
      && (aux.info[p].phase.Queued? ==> aux'.info[p] == aux.info[p])
    ensures Waiters(aux', Line(aux', Removed(q, i))) == Waiters(aux, Line(aux, q))
  {
    LineRemove(aux, q, i);
    SameWaiters(aux, aux', Removed(q, i));
  }

  lemma RemoveRefines(s: State, t: nat, x: Choice)
    requires Inv(s) && t < |s.threads| && s.threads[t].Remove?
    ensures Refines(s.mem, s.aux, t, s.threads[t], x)
  {
    ThreadKnows(s, t);
    var Remove(c, i) := s.threads[t];
    RemoveWaiters(s.aux, Queue(s.mem, Other(c.side)), i, SetPicked(s.aux, None));
    SameWaiters(s.aux, SetPicked(s.aux, None), Queue(s.mem, c.side));
  }

  lemma UnregisterRefines(s: State, t: nat, x: Choice)
    requires Inv(s) && t < |s.threads| && s.threads[t].Unregister?
    ensures Refines(s.mem, s.aux, t, s.threads[t], x)
  {
    ThreadKnows(s, t);
    var Unregister(side, p) := s.threads[t];
    EntryFound(s.aux, side, Queue(s.mem, side), p);
    UnregisterHall(s.mem, s.aux, side, p, Find(Queue(s.mem, side), OperOf(p)));
  }

  lemma UnregisterHall(mem: Mem, aux: Aux, side: Side, p: nat, i: nat)
    requires p < |aux.info| && aux.info[p].phase.Cut? && i < |Queue(mem, side)| && Queue(mem, side)[i].packet == p
    ensures AbsOf(SetQueue(mem, side, Removed(Queue(mem, side), i)), SetPhase(aux, p, Left)) == AbsOf(mem, aux)
  {
    RemoveWaiters(aux, Queue(mem, side), i, SetPhase(aux, p, Left));
    SameWaiters(aux, SetPhase(aux, p, Left), Queue(mem, Other(side)));
  }

  predicate Loose(pc: Pc) { pc.Access? || pc.SetReady? || pc.WaitReady? || pc.Take? || pc.GiveBack? }

  /** The message moves, the owner leaves: nobody sees that. */
  lemma LooseRefines(s: State, t: nat, x: Choice)
    requires Inv(s) && t < |s.threads| && Loose(s.threads[t])
    ensures Refines(s.mem, s.aux, t, s.threads[t], x)
  {
    ThreadKnows(s, t);
    LooseMoves(s.mem, s.aux, t, s.threads[t], x);
    var out := MemStep(s.mem, t, s.threads[t], x);
    SameHall(s.mem, s.aux, out.mem, Annotate(s.mem, s.aux, t, s.threads[t], out));
  }

  lemma LooseMoves(mem: Mem, aux: Aux, t: nat, pc: Pc, x: Choice)
    requires ThreadOk(mem, aux, t, pc) && Loose(pc)
    ensures HallMoves(mem, aux, MemStep(mem, t, pc, x).mem, Annotate(mem, aux, t, pc, MemStep(mem, t, pc, x)))
  {
  }

  lemma MarkRefines(mem: Mem, aux: Aux, t: nat, pc: Pc, x: Choice)
    requires pc.CloseMark? && mem.disconnected
    ensures Refines(mem, aux, t, pc, x)
  {
  }

  lemma SetRefines(mem: Mem, aux: Aux, t: nat, x: Choice)
    ensures Refines(mem, aux, t, CloseSet, x)
  {
  }

  lemma CloseRefines(s: State, t: nat, x: Choice)
    requires Inv(s) && t < |s.threads| && (s.threads[t].CloseSet? || s.threads[t].CloseMark?)
    ensures Refines(s.mem, s.aux, t, s.threads[t], x)
  {
    ThreadKnows(s, t);
    if s.threads[t].CloseSet? {
      SetRefines(s.mem, s.aux, t, x);
    } else {
      MarkRefines(s.mem, s.aux, t, s.threads[t], x);
    }
  }

  predicate Quiet(mem: Mem, t: nat, pc: Pc, x: Choice) {
    || (Plain(mem, t, pc, x) && !pc.Miss? && !pc.WaitReady?)
    || pc.StorePacket? || pc.Reset? || pc.ResetPacket?
  }

  lemma QuietRefines(mem: Mem, aux: Aux, t: nat, pc: Pc, x: Choice)
    requires Quiet(mem, t, pc, x)
    ensures Refines(mem, aux, t, pc, x)
  {
    var out := MemStep(mem, t, pc, x);
    QuietMoves(mem, aux, t, pc, x);
    SameHall(mem, aux, out.mem, Annotate(mem, aux, t, pc, out));
  }

  lemma QuietMoves(mem: Mem, aux: Aux, t: nat, pc: Pc, x: Choice)
    requires Quiet(mem, t, pc, x)
    ensures HallMoves(mem, aux, MemStep(mem, t, pc, x).mem, Annotate(mem, aux, t, pc, MemStep(mem, t, pc, x)))
    ensures EventIn(mem, aux, t, pc, x) == Tau
  {
  }

  /** Every step is one step of the meeting. */
  lemma StepRefines(s: State, x: (nat, Choice))
    requires Inv(s)
    ensures HallStep(Abs(s), EventOf(s, x), Abs(Turn(s, x)))
  {
    if x.0 < |s.threads| {
      var t, c, pc := x.0, x.1, s.threads[x.0];
      if Quiet(s.mem, t, pc, c) {
        QuietRefines(s.mem, s.aux, t, pc, c);
      } else if Loose(pc) {
        LooseRefines(s, t, c);
      } else if pc.Scan? {
        PickRefines(s, t, c);
      } else if pc.Register? {
        RegisterRefines(s, t, c);
      } else if pc.Miss? {
        MissRefines(s, t, c);
      } else if pc.Remove? {
        RemoveRefines(s, t, c);
      } else if pc.Unregister? {
        UnregisterRefines(s, t, c);
      } else {
        CloseRefines(s, t, c);
      }
    }
  }

  ghost function Halls(run: seq<State>): seq<Hall> { seq(|run|, i requires 0 <= i < |run| => Abs(run[i])) }

  ghost function Trace(run: seq<State>, sched: Schedule): seq<Event>
    requires |run| == |sched| + 1
  {
    seq(|sched|, i requires 0 <= i < |sched| => EventOf(run[i], sched[i]))
  }

  lemma TurnRefines(run: seq<State>, sched: Schedule, i: nat)
    requires IsRun(run, sched) && i < |sched|
    ensures HallStep(Halls(run)[i], Trace(run, sched)[i], Halls(run)[i + 1])
  {
    Always(run, sched, i);
    StepRefines(run[i], sched[i]);
  }

  lemma StartsEmpty(s: State)
    requires Initial(s)
    ensures Abs(s) == EMPTY
  {
    NobodyWaits(s.aux, s.mem.senders);
    NobodyWaits(s.aux, s.mem.receivers);
  }

  /**
   Linearizability: every run of the channel, with any number of threads, is a
   run of the meeting. So a pairing always takes the waiter that registered first,
   and after a shutdown there are no more pairings.
   */
  lemma ZeroIsMeeting(run: seq<State>, sched: Schedule)
    requires IsRun(run, sched)
    ensures Legal(Halls(run), Trace(run, sched)) && Halls(run)[0] == EMPTY
  {
    StartsEmpty(run[0]);
    forall i | 0 <= i < |sched| ensures HallStep(Halls(run)[i], Trace(run, sched)[i], Halls(run)[i + 1]) {
      TurnRefines(run, sched, i);
    }
  }

  // ---- selections and their words ----

  ghost predicate WordsOk(cxs: seq<Context>) {
    forall u :: 0 <= u < |cxs| ==> SelectedOf(WordOf(cxs[u].select)) == cxs[u].select
  }

  lemma ScanKeepsWords(mem: Mem, aux: Aux, t: nat, c: Call, i: nat)
    requires Queues(mem, aux) && WordsOk(mem.contexts)
    ensures WordsOk(ScanStep(mem, t, c, i).mem.contexts)
  {
    var q := Queue(mem, Other(c.side));
    if i < |q| {
      assert EntryOk(aux, Other(c.side), q[i]);
      SelectedRoundTrip(Operation(q[i].oper));
    }
  }

  lemma RestKeepsWords(mem: Mem, t: nat, pc: Pc, x: Choice)
    requires WordsOk(mem.contexts) && !pc.Scan?
    ensures WordsOk(MemStep(mem, t, pc, x).mem.contexts)
  {
  }

  lemma TurnKeepsWords(s: State, x: (nat, Choice))
    requires Inv(s) && WordsOk(s.mem.contexts)
    ensures WordsOk(Turn(s, x).mem.contexts)
  {
    if x.0 < |s.threads| {
      var pc := s.threads[x.0];
      if pc.Scan? {
        ScanKeepsWords(s.mem, s.aux, x.0, pc.c, pc.i);
      } else {
        RestKeepsWords(s.mem, x.0, pc, x.1);
      }
    }
  }

  /**
   A context is one machine word. In no run is the operation written into it
   taken for one of the other selections.
   */
  lemma {:induction false} WordsAreSelections(run: seq<State>, sched: Schedule, i: nat)
    requires IsRun(run, sched) && i < |run| && WordsOk(run[0].mem.contexts)
    ensures WordsOk(run[i].mem.contexts)
  {
    if i > 0 {
      WordsAreSelections(run, sched, i - 1);
      Always(run, sched, i - 1);
      var _ := sched[i - 1];
      TurnKeepsWords(run[i - 1], sched[i - 1]);
    }
  }
}
