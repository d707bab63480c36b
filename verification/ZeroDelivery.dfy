/**
 Each pairing on the zero-capacity channel is answered on both sides, once: the
 receiver returns the message, and the sender returns Ok.
 */
module ZeroDelivery {
  import opened Common
  import opened Select
  import opened Meeting
  import opened ZeroProtocol
  import opened ZeroInvariant
  import opened ZeroSteps
  import opened ZeroTheorems

  /** One side of an exchange: a message sent, or a message received. */
  datatype Token = Token(side: Side, m: Msg)

  function TokenOf(side: Side, m: Option<Msg>): seq<Token> { if m.Some? then [Token(side, m.value)] else [] }

  /** What a pairing deals to thread `t`. */
  function Deals(e: Event, t: nat): seq<Token> {
    match e
    case SendMeets(a, m, r) => if t == a then [Token(Sender, m)] else if t == r then [Token(Receiver, m)] else []
    case RecvMeets(a, s, m) => if t == a then [Token(Receiver, m)] else if t == s then [Token(Sender, m)] else []
    case _ => []
  }

  /** What a call has been dealt and has not returned yet. */
  ghost function DebtOf(mem: Mem, aux: Aux, pc: Pc): seq<Token> {
    match Target(mem, pc)
    case Some(p) => if p < |aux.info| then TokenOf(Other(aux.info[p].side), aux.info[p].deal) else []
    case None =>
      match OwnPacket(pc)
      case Some(p) => if p < |aux.info| && Paired(aux.info[p].phase) then TokenOf(aux.info[p].side, aux.info[p].deal) else []
      case None => []
  }

  ghost function Debt(s: State, t: nat): seq<Token> {
    if t < |s.threads| then DebtOf(s.mem, s.aux, s.threads[t]) else []
  }

  /** What a call returns with this step. For a send that returns Ok the message is that of its packet or call. */
  ghost function ReturnsIn(mem: Mem, aux: Aux, t: nat, pc: Pc, x: Choice): seq<Token> {
    match MemStep(mem, t, pc, x).answer
    case SentOk =>
      (match pc
       case SetReady(c, _) => TokenOf(Sender, c.m)
       case WaitReady(_, p) => TokenOf(Sender, DealOf(aux, p))
       case _ => [])
    case Got(m) => [Token(Receiver, m)]
    case _ => []
  }

  // ---- the thread that takes the step ----

  lemma PickBalance(s: State, t: nat, x: Choice)
    requires Inv(s) && t < |s.threads| && s.threads[t].Scan? && MemStep(s.mem, t, s.threads[t], x).pc.StorePacket?
    ensures Debt(s, t) + Deals(EventOf(s, (t, x)), t) ==
              ReturnsIn(s.mem, s.aux, t, s.threads[t], x) + Debt(Step(s, t, x), t)
  {
    ThreadKnows(s, t);
    var Scan(c, i) := s.threads[t];
    SkipFacts(s.mem, s.aux, t, c, i);
    var e := Queue(s.mem, Other(c.side))[i];
    assert EntryOk(s.aux, Other(c.side), e);
    assert PacketOk(s.mem.packets[e.packet], s.aux.info[e.packet]);
  }

  /** The step neither loses nor makes up what the thread owes. */
  ghost predicate Settles(mem: Mem, aux: Aux, t: nat, pc: Pc, x: Choice) {
    var out := MemStep(mem, t, pc, x);
    DebtOf(mem, aux, pc) == ReturnsIn(mem, aux, t, pc, x) + DebtOf(out.mem, Annotate(mem, aux, t, pc, out), out.pc)
  }

  lemma PickedSettles(mem: Mem, aux: Aux, t: nat, pc: Pc, x: Choice)
    requires ThreadOk(mem, aux, t, pc) && (pc.StorePacket? || pc.Remove? || pc.Unlock?)
    requires !MemStep(mem, t, pc, x).fault
    ensures Settles(mem, aux, t, pc, x)
  {
  }

  lemma AccessSettles(mem: Mem, aux: Aux, t: nat, pc: Pc, x: Choice)
    requires ThreadOk(mem, aux, t, pc) && Packets(mem, aux) && (pc.Access? || pc.SetReady?)
    ensures Settles(mem, aux, t, pc, x)
  {
    assert PacketOk(mem.packets[pc.p], aux.info[pc.p]);
  }

  lemma EndSettles(mem: Mem, aux: Aux, t: nat, pc: Pc, x: Choice)
    requires ThreadOk(mem, aux, t, pc) && Packets(mem, aux) && (pc.WaitReady? || pc.Take? || pc.GiveBack?)
    ensures Settles(mem, aux, t, pc, x)
  {
    assert PacketOk(mem.packets[pc.p], aux.info[pc.p]);
  }

  lemma WokenSettles(mem: Mem, aux: Aux, t: nat, pc: Pc, x: Choice)
    requires ThreadOk(mem, aux, t, pc) && Contexts(mem, aux) && pc.Wait? && !MemStep(mem, t, pc, x).fault
    ensures Settles(mem, aux, t, pc, x)
  {
    WaitFacts(mem, aux, t, pc.side, pc.p);
  }

  lemma LeaveSettles(mem: Mem, aux: Aux, t: nat, pc: Pc, x: Choice)
    requires ThreadOk(mem, aux, t, pc) && pc.Unregister? && !MemStep(mem, t, pc, x).fault
    ensures Settles(mem, aux, t, pc, x)
  {
  }

  lemma LockSettles(mem: Mem, aux: Aux, t: nat, pc: Pc, x: Choice)
    requires pc.Release? || pc.Relock? || pc.UnlockAgain?
    ensures Settles(mem, aux, t, pc, x)
  {
  }

  lemma WaitSettles(mem: Mem, aux: Aux, t: nat, pc: Pc, x: Choice)
    requires ThreadOk(mem, aux, t, pc) && !MemStep(mem, t, pc, x).fault
    requires pc.Release? || pc.Wait? || pc.Relock? || pc.Unregister? || pc.UnlockAgain?
    requires pc.Wait? ==> Contexts(mem, aux)
    ensures Settles(mem, aux, t, pc, x)
  {
    if pc.Wait? {
      WokenSettles(mem, aux, t, pc, x);
    } else if pc.Unregister? {
      LeaveSettles(mem, aux, t, pc, x);
    } else {
      LockSettles(mem, aux, t, pc, x);
    }
  }

  lemma FreeSettles(mem: Mem, aux: Aux, t: nat, pc: Pc, x: Choice)
    requires ThreadOk(mem, aux, t, pc) && OwnPacket(pc).None? && Target(mem, pc).None? && !pc.Register?
    requires !(pc.Scan? && MemStep(mem, t, pc, x).pc.StorePacket?)
    ensures Settles(mem, aux, t, pc, x)
  {
  }

  lemma RegisterSettles(mem: Mem, aux: Aux, t: nat, pc: Pc, x: Choice)
    requires pc.Register? && |aux.info| == |mem.packets|
    ensures Settles(mem, aux, t, pc, x)
  {
  }

  lemma StepSettles(s: State, t: nat, x: Choice)
    requires Inv(s) && t < |s.threads|
    requires !(s.threads[t].Scan? && MemStep(s.mem, t, s.threads[t], x).pc.StorePacket?)
    ensures Settles(s.mem, s.aux, t, s.threads[t], x)
  {
    var pc := s.threads[t];
    StepKeeps(s, t, x);
    assert ThreadOk(s.mem, s.aux, t, pc);
    if pc.StorePacket? || pc.Remove? || pc.Unlock? {
      PickedSettles(s.mem, s.aux, t, pc, x);
    } else if pc.Access? || pc.SetReady? {
      AccessSettles(s.mem, s.aux, t, pc, x);
    } else if pc.WaitReady? || pc.Take? || pc.GiveBack? {
      EndSettles(s.mem, s.aux, t, pc, x);
    } else if OwnPacket(pc).Some? {
      WaitSettles(s.mem, s.aux, t, pc, x);
    } else if pc.Register? {
      RegisterSettles(s.mem, s.aux, t, pc, x);
    } else {
      FreeSettles(s.mem, s.aux, t, pc, x);
    }
  }

  lemma OwnStepBalance(s: State, t: nat, x: Choice)
    requires Inv(s) && t < |s.threads|
    ensures Debt(s, t) + Deals(EventOf(s, (t, x)), t) ==
              ReturnsIn(s.mem, s.aux, t, s.threads[t], x) + Debt(Step(s, t, x), t)
  {
    var pc := s.threads[t];
    if pc.Scan? && MemStep(s.mem, t, pc, x).pc.StorePacket? {
      PickBalance(s, t, x);
    } else {
      assert Debt(s, t) + [] == Debt(s, t);
      StepSettles(s, t, x);
    }
  }

  // ---- the other threads ----

  /** What a step leaves of the packets that another thread has to do with. */
  ghost predicate DealsKept(mem: Mem, aux: Aux, mem': Mem, aux': Aux, pc: Pc) {
    && Target(mem', pc) == Target(mem, pc)
    && (Target(mem, pc).Some? ==> DealKept(aux, aux', Target(mem, pc).value))
    && (OwnPacket(pc).Some? ==> DealKept(aux, aux', OwnPacket(pc).value))
  }

  lemma KeptDebt(mem: Mem, aux: Aux, mem': Mem, aux': Aux, pc: Pc)
    requires DealsKept(mem, aux, mem', aux', pc)
    ensures DebtOf(mem', aux', pc) == DebtOf(mem, aux, pc)
  {
  }

  lemma QueuesStay(mem: Mem, t: nat, pc: Pc, x: Choice)
    requires !InSection(pc)
    ensures MemStep(mem, t, pc, x).mem.senders == mem.senders && MemStep(mem, t, pc, x).mem.receivers == mem.receivers
  {
  }

  ghost predicate DealKept(aux: Aux, aux': Aux, p: nat) {
    && p < |aux.info| && p < |aux'.info|
    && aux'.info[p].side == aux.info[p].side && aux'.info[p].deal == aux.info[p].deal
    && (Paired(aux'.info[p].phase) <==> Paired(aux.info[p].phase))
  }

  lemma PartnerKeepsDeal(mem: Mem, aux: Aux, t: nat, pc: Pc, out: Out, p: nat)
    requires ThreadOk(mem, aux, t, pc) && p < |aux.info| && (pc.Access? || pc.SetReady?)
    ensures DealKept(aux, Annotate(mem, aux, t, pc, out), p)
  {
  }

  lemma OwnerKeepsDeal(mem: Mem, aux: Aux, t: nat, pc: Pc, out: Out, p: nat)
    requires ThreadOk(mem, aux, t, pc) && p < |aux.info| && aux.info[p].owner != t && OwnPacket(pc).Some?
    ensures DealKept(aux, Annotate(mem, aux, t, pc, out), p)
  {
  }

  lemma MarkKeepsDeal(mem: Mem, aux: Aux, t: nat, pc: Pc, p: nat)
    requires Queues(mem, aux) && Contexts(mem, aux) && pc.CloseMark? && p < |aux.info|
    ensures DealKept(aux, Annotate(mem, aux, t, pc, MarkStep(mem, pc.side, pc.i)), p)
  {
    if pc.i < |Queue(mem, pc.side)| {
      SkipFacts(mem, aux, t, Call(Other(pc.side), None, false), pc.i);
    }
  }

  lemma RestKeepsDeal(mem: Mem, aux: Aux, t: nat, pc: Pc, out: Out, p: nat)
    requires p < |aux.info| && OwnPacket(pc).None? && !pc.Access? && !pc.SetReady? && !pc.CloseMark?
    requires !(pc.Scan? && out.pc.StorePacket?)
    ensures DealKept(aux, Annotate(mem, aux, t, pc, out), p)
  {
  }

  /** A step of `t` that selects nobody keeps all deals of others, and pairs nobody. */
  lemma DealsStay(s: State, t: nat, x: Choice, p: nat)
    requires Inv(s) && t < |s.threads| && p < |s.aux.info| && s.aux.info[p].owner != t
    requires !(s.threads[t].Scan? && MemStep(s.mem, t, s.threads[t], x).pc.StorePacket?)
    ensures DealKept(s.aux, Step(s, t, x).aux, p)
  {
    var pc := s.threads[t];
    assert ThreadOk(s.mem, s.aux, t, pc);
    if pc.Access? || pc.SetReady? {
      PartnerKeepsDeal(s.mem, s.aux, t, pc, MemStep(s.mem, t, pc, x), p);
    } else if OwnPacket(pc).Some? {
      OwnerKeepsDeal(s.mem, s.aux, t, pc, MemStep(s.mem, t, pc, x), p);
    } else if pc.CloseMark? {
      MarkKeepsDeal(s.mem, s.aux, t, pc, p);
    } else {
      RestKeepsDeal(s.mem, s.aux, t, pc, MemStep(s.mem, t, pc, x), p);
    }
  }

  /** Only the picked packet changes. */
  lemma PickDeals(s: State, t: nat, x: Choice)
    requires Inv(s) && t < |s.threads| && s.threads[t].Scan? && MemStep(s.mem, t, s.threads[t], x).pc.StorePacket?
    ensures var Scan(c, i) := s.threads[t];
      var k := PacketAt(s.mem, Other(c.side), i);
      && k < |s.aux.info| && s.aux.info[k].phase.Queued?
      && s.aux.info[k].side == Other(c.side) && (c.side.Receiver? ==> s.aux.info[k].deal.Some?)
      && Step(s, t, x).aux.info == s.aux.info[k := Picked(c, t, s.aux.info[k])]
  {
    ThreadKnows(s, t);
    var Scan(c, i) := s.threads[t];
    SkipFacts(s.mem, s.aux, t, c, i);
    var e := Queue(s.mem, Other(c.side))[i];
    assert EntryOk(s.aux, Other(c.side), e);
    assert PacketOk(s.mem.packets[e.packet], s.aux.info[e.packet]);
  }

  /** The owner of a packet with a partner does nothing but wait. */
  lemma WaiterWaits(s: State, t: nat, x: Choice, p: nat)
    requires Inv(s) && t < |s.threads| && p < |s.aux.info| && s.aux.info[p].owner == t
    requires s.aux.info[p].phase.Chosen? || s.aux.info[p].phase.Filled?
    ensures Step(s, t, x).aux == s.aux
  {
    assert OwnerOk(s.threads, p, s.aux.info[p]) && PacketOk(s.mem.packets[p], s.aux.info[p]);
    assert ThreadOk(s.mem, s.aux, t, s.threads[t]);
  }

  lemma TargetStays(s: State, t: nat, x: Choice, u: nat)
    requires Inv(s) && t < |s.threads| && u < |s.threads| && u != t && Target(s.mem, s.threads[u]).Some?
    requires !(s.threads[t].Scan? && MemStep(s.mem, t, s.threads[t], x).pc.StorePacket?)
    ensures Target(Step(s, t, x).mem, s.threads[u]) == Target(s.mem, s.threads[u])
    ensures DealKept(s.aux, Step(s, t, x).aux, Target(s.mem, s.threads[u]).value)
  {
    assert ThreadOk(s.mem, s.aux, u, s.threads[u]);
    var p := Target(s.mem, s.threads[u]).value;
    if s.aux.info[p].owner == t {
      WaiterWaits(s, t, x, p);
    } else {
      DealsStay(s, t, x, p);
    }
    if Picking(s.threads[u]) {
      QueuesStay(s.mem, t, s.threads[t], x);
    }
  }

  lemma OthersSettle(s: State, t: nat, x: Choice, u: nat)
    requires Inv(s) && t < |s.threads| && u < |s.threads| && u != t
    requires !(s.threads[t].Scan? && MemStep(s.mem, t, s.threads[t], x).pc.StorePacket?)
    ensures Debt(Step(s, t, x), u) == Debt(s, u)
  {
    var pc := s.threads[u];
    assert ThreadOk(s.mem, s.aux, u, pc);
    if Target(s.mem, pc).Some? {
      TargetStays(s, t, x, u);
    }
    if OwnPacket(pc).Some? {
      DealsStay(s, t, x, OwnPacket(pc).value);
    }
    KeptDebt(s.mem, s.aux, Step(s, t, x).mem, Step(s, t, x).aux, pc);
  }

  lemma PickSettlesOther(s: State, t: nat, x: Choice, u: nat)
    requires Inv(s) && t < |s.threads| && u < |s.threads| && u != t
    requires s.threads[t].Scan? && MemStep(s.mem, t, s.threads[t], x).pc.StorePacket?
    requires var k := PacketAt(s.mem, Other(s.threads[t].c.side), s.threads[t].i);
      k < |s.aux.info| && s.aux.info[k].owner != u
    ensures Debt(s, u) + Deals(EventOf(s, (t, x)), u) == Debt(Step(s, t, x), u)
  {
    PickDeals(s, t, x);
    ThreadKnows(s, u);
    KeptDebt(s.mem, s.aux, Step(s, t, x).mem, Step(s, t, x).aux, s.threads[u]);
  }

  /** A pairing deals to the one whose packet is picked, and to nobody else who waits. */
  /** The thread that was waiting is dealt what the packet carries. */
  lemma PickSettlesOwner(s: State, t: nat, x: Choice, u: nat)
    requires Inv(s) && t < |s.threads| && u < |s.threads| && u != t
    requires s.threads[t].Scan? && MemStep(s.mem, t, s.threads[t], x).pc.StorePacket?
    requires var k := PacketAt(s.mem, Other(s.threads[t].c.side), s.threads[t].i);
      k < |s.aux.info| && s.aux.info[k].owner == u
    ensures Debt(s, u) + Deals(EventOf(s, (t, x)), u) == Debt(Step(s, t, x), u)
  {
    PickDeals(s, t, x);
    ThreadKnows(s, t);
    var k := PacketAt(s.mem, Other(s.threads[t].c.side), s.threads[t].i);
    assert OwnerOk(s.threads, k, s.aux.info[k]);
  }

  lemma PickSettles(s: State, t: nat, x: Choice, u: nat)
    requires Inv(s) && t < |s.threads| && u < |s.threads| && u != t
    requires s.threads[t].Scan? && MemStep(s.mem, t, s.threads[t], x).pc.StorePacket?
    ensures Debt(s, u) + Deals(EventOf(s, (t, x)), u) == Debt(Step(s, t, x), u)
  {
    PickDeals(s, t, x);
    var Scan(c, i) := s.threads[t];
    var k := PacketAt(s.mem, Other(c.side), i);
    if s.aux.info[k].owner != u {
      PickSettlesOther(s, t, x, u);
    } else {
      PickSettlesOwner(s, t, x, u);
    }
  }

  // ---- runs ----

  ghost function ReturnBy(s: State, x: (nat, Choice), t: nat): seq<Token> {
    if x.0 == t && t < |s.threads| then ReturnsIn(s.mem, s.aux, t, s.threads[t], x.1) else []
  }

  lemma NoMeeting(mem: Mem, aux: Aux, t: nat, pc: Pc, x: Choice, u: nat)
    requires !(pc.Scan? && MemStep(mem, t, pc, x).pc.StorePacket?)
    ensures Deals(EventIn(mem, aux, t, pc, x), u) == []
  {
  }

  lemma OtherStepBalance(s: State, t: nat, x: Choice, u: nat)
    requires Inv(s) && t < |s.threads| && u != t
    ensures Debt(s, u) + Deals(EventOf(s, (t, x)), u) == Debt(Step(s, t, x), u)
  {
    if s.threads[t].Scan? && MemStep(s.mem, t, s.threads[t], x).pc.StorePacket? {
      if u < |s.threads| {
        PickSettles(s, t, x, u);
      } else {
        OwnerExists(s, t, x);
      }
    } else {
      NoMeeting(s.mem, s.aux, t, s.threads[t], x, u);
      if u < |s.threads| {
        OthersSettle(s, t, x, u);
      }
    }
  }

  lemma StepBalance(s: State, x: (nat, Choice), t: nat)
    requires Inv(s)
    ensures Debt(s, t) + Deals(EventOf(s, x), t) == ReturnBy(s, x, t) + Debt(Turn(s, x), t)
  {
    if x.0 >= |s.threads| {
    } else if x.0 == t {
      OwnStepBalance(s, t, x.1);
    } else {
      OtherStepBalance(s, x.0, x.1, t);
      assert [] + Debt(Turn(s, x), t) == Debt(Turn(s, x), t);
    }
  }

  lemma OwnerExists(s: State, t: nat, x: Choice)
    requires Inv(s) && t < |s.threads| && s.threads[t].Scan? && MemStep(s.mem, t, s.threads[t], x).pc.StorePacket?
    ensures forall u :: u >= |s.threads| ==> Deals(EventOf(s, (t, x)), u) == []
  {
    PickDeals(s, t, x);
    var Scan(c, i) := s.threads[t];
    var k := PacketAt(s.mem, Other(c.side), i);
    assert OwnerOk(s.threads, k, s.aux.info[k]);
  }

  /** What the pairings of the first `n` steps deal to thread `t`, in order. */
  ghost function Dealt(run: seq<State>, sched: Schedule, t: nat, n: nat): seq<Token>
    requires |run| == |sched| + 1 && n <= |sched|
  {
    if n == 0 then [] else Dealt(run, sched, t, n - 1) + Deals(EventOf(run[n - 1], sched[n - 1]), t)
  }

  /** What the calls of thread `t` return in the first `n` steps, in order: messages received, sends answered Ok. */
  ghost function Returned(run: seq<State>, sched: Schedule, t: nat, n: nat): seq<Token>
    requires |run| == |sched| + 1 && n <= |sched|
  {
    if n == 0 then [] else Returned(run, sched, t, n - 1) + ReturnBy(run[n - 1], sched[n - 1], t)
  }

  /** The balance of thread `t` over the step to state `k`. */
  lemma RunBalance(run: seq<State>, sched: Schedule, t: nat, k: nat)
    requires IsRun(run, sched) && 0 < k <= |sched|
    ensures Debt(run[k - 1], t) + Deals(EventOf(run[k - 1], sched[k - 1]), t) ==
              ReturnBy(run[k - 1], sched[k - 1], t) + Debt(run[k], t)
  {
    Always(run, sched, k - 1);
    StepBalance(run[k - 1], sched[k - 1], t);
    assert run[k] == Turn(run[k - 1], sched[k - 1]);
  }

  /** The account of thread `t` over the step to state `k`. */
  lemma {:induction false} AccountStep(run: seq<State>, sched: Schedule, t: nat, k: nat) returns (dealt: seq<Token>, paid: seq<Token>)
    requires IsRun(run, sched) && 0 < k <= |sched|
    ensures Dealt(run, sched, t, k) == Dealt(run, sched, t, k - 1) + dealt
    ensures Returned(run, sched, t, k) == Returned(run, sched, t, k - 1) + paid
    ensures Debt(run[k - 1], t) + dealt == paid + Debt(run[k], t)
  {
    dealt, paid := Deals(EventOf(run[k - 1], sched[k - 1]), t), ReturnBy(run[k - 1], sched[k - 1], t);
    RunBalance(run, sched, t, k);
  }

  /**
   In every run, the calls of a thread return exactly what pairings have dealt
   it, once and in order, up to the one call that may still be under way. So a
   send returns Ok exactly when one receive was dealt its message.
   */
  lemma {:induction false} ReturnsWhatWasDealt(run: seq<State>, sched: Schedule, t: nat, n: nat)
    requires IsRun(run, sched) && n <= |sched|
    ensures Dealt(run, sched, t, n) == Returned(run, sched, t, n) + Debt(run[n], t)
    decreases n
  {
    AllSquare(run, sched, t, n);
    assert Unfold(0);
  }

  /** What thread `t` has been dealt is what it has returned and what it owes, kept folded. */
  ghost predicate Square(run: seq<State>, sched: Schedule, t: nat, n: nat) {
    && |run| == |sched| + 1 && n <= |sched|
    && forall k {:trigger Unfold(k)} :: Unfold(k) ==> Dealt(run, sched, t, n) == Returned(run, sched, t, n) + Debt(run[n], t)
  }

  lemma {:induction false} AllSquare(run: seq<State>, sched: Schedule, t: nat, n: nat)
    requires IsRun(run, sched) && n <= |sched|
    ensures Square(run, sched, t, n)
    decreases n
  {
    if n == 0 {
      StartsSquare(run, sched, t);
    } else {
      AllSquare(run, sched, t, n - 1);
      StaysSquare(run, sched, t, n);
    }
  }

  lemma StartsSquare(run: seq<State>, sched: Schedule, t: nat)
    requires |run| == |sched| + 1 && Initial(run[0])
    ensures Square(run, sched, t, 0)
  {
    StartsFree(run[0], t);
  }

  lemma StaysSquare(run: seq<State>, sched: Schedule, t: nat, n: nat)
    requires IsRun(run, sched) && 0 < n <= |sched| && Square(run, sched, t, n - 1)
    ensures Square(run, sched, t, n)
  {
    assert Unfold(0);
    var dealt, paid := AccountStep(run, sched, t, n);
    var k := n - 1;
    Balance(Dealt(run, sched, t, k), Returned(run, sched, t, k), Debt(run[k], t), dealt, paid, Debt(run[n], t));
  }

  lemma StartsFree(s: State, t: nat)
    requires Initial(s)
    ensures Debt(s, t) == []
  {
  }

  // ---- refusals ----

  /** A sender cut off while waiting gets back the message it came with. */
  lemma GivesBackOriginal(s: State, t: nat, x: Choice)
    requires Reachable(s) && t < |s.threads| && s.threads[t].GiveBack?
    ensures var GiveBack(side, p) := s.threads[t];
      && p < |s.aux.info| && s.aux.info[p].owner == t
      && MemStep(s.mem, t, s.threads[t], x).answer == Closed(if side.Sender? then s.aux.info[p].deal else None)
      && (side.Sender? ==> s.aux.info[p].deal.Some?)
  {
    ReachableInv(s);
    assert ThreadOk(s.mem, s.aux, t, s.threads[t]);
    assert PacketOk(s.mem.packets[s.threads[t].p], s.aux.info[s.threads[t].p]);
  }
}
