/**
 A thread of the rendezvous channel that runs alone, no other call under way,
 ends its call within 5 steps, from any reachable state, unless it has to wait
 for a partner. From rest a call that does not block is told that nobody is there.
 */
module ZeroSolo {
  import opened Common
  import opened Select
  import opened ZeroProtocol
  import opened ZeroInvariant
  import opened ZeroSteps
  import opened ZeroTheorems

  ghost predicate Alone(threads: seq<Pc>, t: nat) {
    t < |threads| && forall u :: 0 <= u < |threads| && u != t ==> threads[u].Idle?
  }

  /** `n` steps of thread `t`. */
  ghost function After(s: State, t: nat, n: nat): (s': State)
    requires t < |s.threads|
    ensures |s'.threads| == |s.threads|
    decreases n
  {
    if n == 0 then s else After(Step(s, t, Go), t, n - 1)
  }

  /** The call has to wait until somebody comes: it blocks, on an open channel, and has not been selected. */
  predicate MustWait(mem: Mem, t: nat, pc: Pc) {
    match pc
    case Lock(c) => c.block && !mem.disconnected
    case Scan(c, _) => c.block && !mem.disconnected
    case Miss(c) => c.block && !mem.disconnected
    case Reset(_) => true
    case ResetPacket(_) => true
    case Register(_) => true
    case Release(_, _) => true
    case Wait(_, _) => t < |mem.contexts| && mem.contexts[t].select.Waiting?
    case _ => false
  }

  // ---- how far a thread still has to go ----

  function Rank(pc: Pc): (n: nat)
    ensures n <= 5
  {
    match pc
    case Lock(_) => 4
    case Scan(_, _) => 3
    case Miss(_) => 2
    case Leave(_) => 1
    case Wait(_, _) => 5
    case WaitReady(_, _) => 2
    case Take(_) => 1
    case Relock(_, _) => 4
    case Unregister(_, _) => 3
    case UnlockAgain(_, _) => 2
    case GiveBack(_, _) => 1
    case CloseLock => 5
    case CloseSet => 4
    case CloseMark(side, _) => if side.Sender? then 3 else 2
    case CloseUnlock(_) => 1
    case _ => 0
  }

  // ---- alone, nobody else is in the way ----

  lemma EntryHasOwner(mem: Mem, aux: Aux, threads: seq<Pc>, side: Side)
    requires Queues(mem, aux) && Held(mem, aux, threads)
    ensures Queue(mem, side) == [] || exists u :: 0 <= u < |threads| && OwnPacket(threads[u]).Some?
  {
    var q := Queue(mem, side);
    if q != [] {
      assert EntryOk(aux, side, q[0]);
      assert OwnerOk(threads, q[0].packet, aux.info[q[0].packet]);
    }
  }

  /** A thread that is not waiting has nothing in the queues, and nobody else has. */
  lemma QueuesEmpty(mem: Mem, aux: Aux, threads: seq<Pc>, t: nat, side: Side)
    requires Queues(mem, aux) && Held(mem, aux, threads) && Alone(threads, t) && OwnPacket(threads[t]).None?
    ensures Queue(mem, side) == []
  {
    EntryHasOwner(mem, aux, threads, side);
  }

  lemma LockFree(mem: Mem, aux: Aux, threads: seq<Pc>, t: nat)
    requires LockOk(mem, aux, threads) && Alone(threads, t) && !InSection(threads[t])
    ensures !mem.locked
  {
  }

  predicate Exchanging(pc: Pc) { pc.StorePacket? || pc.Remove? || pc.Unlock? || pc.Access? || pc.SetReady? }

  /** Nobody is there to be paired with. */
  lemma NoPartner(mem: Mem, aux: Aux, threads: seq<Pc>, t: nat)
    requires Held(mem, aux, threads) && Alone(threads, t) && ThreadOk(mem, aux, t, threads[t])
    ensures !Exchanging(threads[t])
  {
  }

  /** A packet that has been selected has been dealt with. */
  lemma PacketReady(mem: Mem, aux: Aux, threads: seq<Pc>, t: nat, side: Side, p: nat)
    requires Packets(mem, aux) && Held(mem, aux, threads) && Alone(threads, t)
    requires ThreadOk(mem, aux, t, threads[t]) && threads[t] == WaitReady(side, p)
    ensures p < |mem.packets| && (mem.packets[p].live ==> mem.packets[p].ready)
  {
    assert PacketOk(mem.packets[p], aux.info[p]);
    assert PartnerOk(mem, threads, p, aux.info[p].phase);
  }

  // ---- every step gets closer ----

  ghost predicate Nearer(mem: Mem, t: nat, pc: Pc) {
    var out := MemStep(mem, t, pc, Go);
    (out.pc.Idle? || Rank(out.pc) < Rank(pc)) && !MustWait(out.mem, t, out.pc)
  }

  lemma LockNearer(mem: Mem, t: nat, pc: Pc)
    requires !MustWait(mem, t, pc) && !mem.locked && (pc.Lock? || pc.Relock? || pc.CloseLock?)
    ensures Nearer(mem, t, pc)
  {
  }

  lemma QueueNearer(mem: Mem, t: nat, pc: Pc)
    requires !MustWait(mem, t, pc) && (pc.Scan? || pc.CloseMark?) && mem.senders == [] && mem.receivers == []
    ensures Nearer(mem, t, pc)
  {
  }

  lemma WaitNearer(mem: Mem, t: nat, pc: Pc)
    requires !MustWait(mem, t, pc) && (pc.Wait? || (pc.WaitReady? && pc.p < |mem.packets| && (mem.packets[pc.p].live ==> mem.packets[pc.p].ready)))
    ensures Nearer(mem, t, pc)
  {
  }

  lemma OtherNearer(mem: Mem, t: nat, pc: Pc)
    requires !MustWait(mem, t, pc) && !Exchanging(pc) && !pc.Idle?
    requires !pc.Lock? && !pc.Relock? && !pc.CloseLock? && !pc.Scan? && !pc.CloseMark? && !pc.Wait? && !pc.WaitReady?
    ensures Nearer(mem, t, pc)
  {
  }

  lemma Descends(s: State, t: nat)
    requires Inv(s) && Alone(s.threads, t) && !s.threads[t].Idle? && !MustWait(s.mem, t, s.threads[t])
    ensures Nearer(s.mem, t, s.threads[t])
  {
    var mem, aux, pc := s.mem, s.aux, s.threads[t];
    assert ThreadOk(mem, aux, t, pc);
    NoPartner(mem, aux, s.threads, t);
    if pc.Lock? || pc.Relock? || pc.CloseLock? {
      LockFree(mem, aux, s.threads, t);
      LockNearer(mem, t, pc);
    } else if pc.Scan? || pc.CloseMark? {
      QueuesEmpty(mem, aux, s.threads, t, Sender);
      QueuesEmpty(mem, aux, s.threads, t, Receiver);
      QueueNearer(mem, t, pc);
    } else if pc.Wait? || pc.WaitReady? {
      if pc.WaitReady? {
        PacketReady(mem, aux, s.threads, t, pc.side, pc.p);
      }
      WaitNearer(mem, t, pc);
    } else {
      OtherNearer(mem, t, pc);
    }
  }

  // ---- the call ends ----

  /** At most `n` steps are left, and none of them waits. */
  ghost predicate Within(s: State, t: nat, n: nat)
    requires t < |s.threads|
  {
    forall k {:trigger Unfold(k)} :: Unfold(k) ==>
      s.threads[t].Idle? || (Rank(s.threads[t]) <= n && n > 0 && !MustWait(s.mem, t, s.threads[t]))
  }

  lemma NoneLeft(s: State, t: nat)
    requires Alone(s.threads, t) && Within(s, t, 0)
    ensures forall u :: 0 <= u < |s.threads| ==> s.threads[u].Idle?
  {
    assert Unfold(0);
  }

  lemma StepReaches(s: State, t: nat, x: Choice)
    requires Reachable(s) && t < |s.threads|
    ensures Reachable(Step(s, t, x))
  {
    var run: seq<State>, sched: Schedule :| IsRun(run, sched) && run[|sched|] == s;
    var run', sched' := run + [Turn(s, (t, x))], sched + [(t, x)];
    assert IsRun(run', sched') && run'[|sched'|] == Step(s, t, x);
  }

  lemma Closer(s: State, t: nat, n: nat) returns (s': State)
    requires Reachable(s) && Alone(s.threads, t) && Within(s, t, n) && n > 0
    ensures Reachable(s') && Alone(s'.threads, t) && Within(s', t, n - 1)
    ensures After(s, t, n) == After(s', t, n - 1)
  {
    ReachableInv(s);
    StepReaches(s, t, Go);
    s' := Step(s, t, Go);
    assert Unfold(0);
    if !s.threads[t].Idle? {
      Descends(s, t);
    }
  }

  lemma {:induction false} EndsWithin(s: State, t: nat, n: nat)
    requires Reachable(s) && Alone(s.threads, t) && Within(s, t, n)
    ensures Reachable(After(s, t, n)) && forall u :: 0 <= u < |s.threads| ==> After(s, t, n).threads[u].Idle?
    decreases n
  {
    if n == 0 {
      NoneLeft(s, t);
    } else {
      var s' := Closer(s, t, n);
      EndsWithin(s', t, n - 1);
    }
  }

  /**
   In any reachable state in which no other call is under way, a thread in the
   middle of any call that does not have to wait for a partner ends it within 5
   steps of its own.
   */
  lemma RunsToEnd(s: State, t: nat)
    requires Reachable(s) && Alone(s.threads, t) && !MustWait(s.mem, t, s.threads[t])
    ensures Reachable(After(s, t, 5)) && forall u :: 0 <= u < |s.threads| ==> After(s, t, 5).threads[u].Idle?
  {
    EndsWithin(s, t, 5);
  }

  // ---- with the right answer ----

  /** From rest, a call that does not block goes to its answer: nobody is there, or the channel is closed. */
  lemma {:induction false} TryMisses(mem: Mem, aux: Aux, t: nat, c: Call)
    requires !mem.locked && mem.senders == [] && mem.receivers == [] && !c.block
    ensures MemStep(mem, t, Lock(c), Go) == Ok(SetLock(mem, true), Scan(c, 0))
    ensures MemStep(SetLock(mem, true), t, Scan(c, 0), Go) == Ok(SetLock(mem, true), Miss(c))
    ensures MemStep(SetLock(mem, true), t, Miss(c), Go) ==
              Ok(SetLock(mem, true), Leave(if mem.disconnected then Closed(c.m) else WouldBlock(c.m)))
  {
  }

  /**
   From rest, a send or a receive that does not block, made alone, is told that
   the channel is disconnected if it is, and otherwise that nobody is there; a
   send gets its message back. The channel is as it was.
   */
  lemma SoloTry(s: State, t: nat, c: Call)
    requires Reachable(s) && t < |s.threads| && CallOk(c) && !c.block
    requires forall u :: 0 <= u < |s.threads| ==> s.threads[u].Idle?
    ensures var s3, s4 := After(Step(s, t, Start(c)), t, 3), After(Step(s, t, Start(c)), t, 4);
      && s3.threads[t] == Leave(if s.mem.disconnected then Closed(c.m) else WouldBlock(c.m))
      && s4.threads == s.threads && s4.mem == s.mem
  {
    ReachableInv(s);
    LockFree(s.mem, s.aux, s.threads, t);
    QueuesEmpty(s.mem, s.aux, s.threads, t, Sender);
    QueuesEmpty(s.mem, s.aux, s.threads, t, Receiver);
    TryMisses(s.mem, s.aux, t, c);
    var s1 := Step(s, t, Start(c));
    var s2 := Step(s1, t, Go);
    var s3 := Step(s2, t, Go);
    var s4 := Step(s3, t, Go);
    var s5 := Step(s4, t, Go);
    assert s4 == After(s3, t, 1) == After(s2, t, 2) == After(s1, t, 3);
    assert s5 == After(s4, t, 1) == After(s3, t, 2) == After(s2, t, 3) == After(s1, t, 4);
    assert s5.threads == s.threads;
  }
}
