/**
 The zero-capacity channel (src/zero.rs, with the queues of src/waker.rs and the
 contexts of src/context.rs) as a class, its operations in the shape of the
 original. Between any two accesses the other threads may run (`Environment`);
 every access is one step of the protocol, so the object's history is a protocol
 run and all that is proved about runs holds of it. A spin loop is given a number
 of retries; when they are used up the call answers None, still under way, and says
 in which states what it spins on was not there.
 */
module ZeroChannel {
  import opened Common
  import opened Select
  import opened Meeting
  import opened ZeroProtocol
  import opened ZeroInvariant
  import opened ZeroTheorems
  import opened ZeroDelivery
  import opened ZeroHistory
  import opened ZeroSteps
  import Calm = ZeroCalm

  class Channel {
    var locked: bool
    var senders: seq<Entry>
    var receivers: seq<Entry>
    var disconnected: bool
    var contexts: seq<Context>
    var packets: seq<Packet>
    /** Where every thread is. The operations only keep it up to date. */
    var threads: seq<Pc>
    ghost var run: seq<State>
    ghost var sched: Schedule
    ghost var now: State
    /** What the steps of each thread have shown so far, and what its calls have returned of what they were dealt. */
    ghost var shown: nat -> seq<Event>
    ghost var returned: nat -> seq<Token>

    function Memory(): Mem
      reads this
    {
      Mem(locked, senders, receivers, disconnected, contexts, packets)
    }

    /**
     The object is in the last state of the run it has gone through, but for an
     access that changed the memory from `mem` and is not recorded yet.
     */
    ghost predicate Recorded(mem: Mem)
      reads `run, `sched, `now, `threads, `shown, `returned
    {
      Past(run, sched, now, shown, returned) && now.mem == mem && now.threads == threads
    }

    ghost predicate Valid()
      reads this
    {
      Recorded(Memory())
    }

    /** Packet `p` came with message `m`; a receiver's came with none. */
    ghost predicate Letter(p: nat, m: Option<Msg>)
      reads `now
    {
      p < |Letters(now.aux)| && Letters(now.aux)[p] == m
    }

    /** `new`, for `n` threads. */
    constructor New(n: nat)
      ensures Valid() && threads == seq(n, _ => Idle) && run == [now] && |sched| == 0
      ensures Initial(now) && forall t :: shown(t) == [] && returned(t) == []
    {
      ghost var s := NewState(n);
      locked, senders, receivers, disconnected := false, [], [], false;
      contexts, packets, threads := seq(n, _ => Context(Waiting, None)), [], seq(n, _ => Idle);
      run, sched, now := [s], [], s;
      shown, returned := (u: nat) => [], (u: nat) => [];
      new;
      FirstPast(run, sched, s, shown, returned);
    }

    /**
     Between calls, what the calls of a thread have returned (messages received,
     sends answered Ok) is exactly what pairings have dealt it.
     */
    lemma ReturnedIsDealt(t: nat)
      requires Valid() && t < |threads| && threads[t] == Idle
      ensures |run| == |sched| + 1 && Dealt(run, sched, t, |sched|) == returned(t)
    {
      assert Unfold(0);
      ReturnsWhatWasDealt(run, sched, t, |sched|);
      assert returned(t) + [] == returned(t);
    }

    /**
     An access just made is the step of thread `t` from `before`, to `pc`; it
     shows `e` and returns `paid` of what the call was dealt.
     */
    method Follow(t: nat, x: Choice, before: Mem, pc: Pc, ghost a: Answer, ghost e: Event, ghost paid: seq<Token>)
      requires Recorded(before) && t < |threads|
      requires Outcome(before, now.aux, t, threads[t], x, Memory(), pc, a, e, paid)
      modifies `threads, `run, `sched, `now, `shown, `returned
      ensures Valid() && threads == old(threads)[t := pc] && Letters(old(now).aux) <= Letters(now.aux)
      ensures old(run) < run && |run| == |old(run)| + 1
      ensures old(threads)[t].Register? ==> Letters(now.aux) == Letters(old(now).aux) + [old(threads)[t].c.m]
      ensures shown(t) == old(shown(t)) + Seen(e) && returned(t) == old(returned(t)) + paid
      ensures OthersSame(t, old(shown), shown, old(returned), returned)
    {
      ghost var mem := Memory();
      var pcs := threads[t := pc];
      ghost var run', sched', now', shown', returned' :=
        Extend(run, sched, now, shown, returned, t, x, mem, pc, a, e, paid);
      threads, run, sched, now, shown, returned := pcs, run', sched', now', shown', returned';
      assert run == run' && sched == sched' && now == now' && shown == shown' && returned == returned';
    }

    /** The same for a step that neither takes effect nor returns. */
    method Silently(t: nat, before: Mem, pc: Pc)
      requires Recorded(before) && t < |threads|
      requires Outcome(before, now.aux, t, threads[t], Go, Memory(), pc, Nothing, Tau, [])
      modifies `threads, `run, `sched, `now, `shown, `returned
      ensures Valid() && threads == old(threads)[t := pc] && Letters(old(now).aux) <= Letters(now.aux)
      ensures old(run) < run && |run| == |old(run)| + 1
      ensures shown(t) == old(shown(t)) && returned(t) == old(returned(t))
    {
      Follow(t, Go, before, pc, Nothing, Tau, []);
    }

    /** The last state of the run is the present one. */
    lemma Present()
      requires Valid()
      ensures run[|run| - 1] == now && now.mem == Memory() && now.threads == threads
    {
      assert Unfold(0);
    }

    // ---- a call that nobody disturbs ----

    /** After the step with number `n` no other thread moves. */
    ghost predicate Undisturbed(t: nat, n: nat)
      reads `sched
    {
      forall k {:trigger sched[k]} :: n < k < |sched| ==> sched[k] == (t, Go)
    }

    /** Thread `t`, from state `n` on, has begun a call with the lock free, and nobody has moved since. */
    ghost predicate Calmly(t: nat, n: nat)
      reads `run, `sched
    {
      && n + 1 < |run| && t < |run[n].threads| == |run[n + 1].threads| && run[n].threads[t].Idle?
      && Calm.Locking(run[n + 1].threads[t]) && !run[n].mem.locked && Undisturbed(t, n)
    }

    /** It never finds the lock taken. */
    lemma NoSpin(t: nat, n: nat)
      requires Valid() && t < |threads| && Calmly(t, n) && n <= |sched|
      ensures forall k :: n < k < |run| && t < |run[k].threads| && Calm.Locking(run[k].threads[t]) ==> !Calm.Stuck(run[k], t)
    {
      assert Unfold(0);
      Calm.Begins(run, sched, t, n);
      forall k | n < k < |run| && t < |run[k].threads| && Calm.Locking(run[k].threads[t]) ensures !Calm.Stuck(run[k], t) {
        Calm.LockStaysFree(run, sched, t, n + 1, k);
      }
    }

    /** So it does not give up on the lock. */
    lemma FoundFree(t: nat, pc: Pc, from: nat, retries: nat, seen: seq<nat>)
      requires Calm.Locking(pc) && retries > 0
      requires forall k :: from <= k < |run| && t < |run[k].threads| && Calm.Locking(run[k].threads[t]) ==> !Calm.Stuck(run[k], t)
      ensures !GaveUp(t, pc, from, retries, seen)
    {
      if seen != [] {
        var k := seen[0];
        assert from <= k < |run| && t < |run[k].threads| && run[k].threads[t] == pc ==> !Calm.Stuck(run[k], t);
      }
    }

    /** It is told what the meeting looked like when it began. */
    lemma Told(t: nat, n: nat, c: Call)
      requires Valid() && t < |threads| && Calmly(t, n) && run[n + 1].threads[t] == Lock(c) && CallOk(c)
      requires Calm.Told(threads[t])
      ensures Calm.EndsWith(shown(t), Calm.HallAnswer(Abs(run[n]), t, c))
    {
      assert Unfold(0);
      Calm.CallIsTold(run, sched, t, n, c);
    }

    /** Thread `t` has spun at `pc` in each of these states, all its retries, and spins there still. */
    ghost predicate GaveUp(t: nat, pc: Pc, from: nat, retries: nat, seen: seq<nat>)
      reads `run, `threads
    {
      t < |threads| && threads[t] == pc && |seen| >= retries && Calm.Spun(run, from, t, pc, seen)
    }

    /** The next step of a thread does not fault. */
    lemma NoCrash(t: nat)
      requires Valid() && t < |threads|
      ensures t < |contexts| && !MemStep(Memory(), t, threads[t], Go).fault && ThreadOk(Memory(), now.aux, t, threads[t])
    {
      PastInv(run, sched, now, shown, returned);
      StepKeeps(now, t, Go);
    }

    // ---- the other threads ----

    /** Any steps of any threads other than `t`. */
    method Environment(t: nat)
      requires Valid() && t < |threads|
      modifies this
      ensures old(run) <= run
      ensures Valid() && |threads| == old(|threads|) && threads[t] == old(threads[t])
      ensures shown(t) == old(shown(t)) && returned(t) == old(returned(t)) && Letters(old(now).aux) <= Letters(now.aux)
      ensures InSection(threads[t]) ==> SameQueues(old(Memory()), Memory())
    {
      var n: nat := *;
      while n > 0
        invariant Valid() && |threads| == old(|threads|) && threads[t] == old(threads[t]) && old(run) <= run
        invariant shown(t) == old(shown(t)) && returned(t) == old(returned(t)) && Letters(old(now).aux) <= Letters(now.aux)
        invariant InSection(threads[t]) ==> SameQueues(old(Memory()), Memory())
      {
        n := n - 1;
        var u: nat := *;
        var x: Choice := *;
        if u < |threads| && u != t {
          AnotherStep(u, x, t);
        }
      }
    }

    lemma Alone(u: nat, x: Choice, t: nat)
      requires Valid() && u < |threads| && u != t && t < |threads| && InSection(threads[t])
      ensures SameQueues(Memory(), MemStep(Memory(), u, threads[u], x).mem)
    {
      PastInv(run, sched, now, shown, returned);
      AloneInSection(now, u, x, t);
    }

    method AnotherStep(u: nat, x: Choice, ghost t: nat)
      requires Valid() && u < |threads| && u != t && t < |threads|
      modifies this
      ensures old(run) <= run
      ensures Valid() && |threads| == old(|threads|) && threads[t] == old(threads[t])
      ensures shown(t) == old(shown(t)) && returned(t) == old(returned(t)) && Letters(old(now).aux) <= Letters(now.aux)
      ensures InSection(threads[t]) ==> SameQueues(old(Memory()), Memory())
    {
      var before := Memory();
      var out := MemStep(before, u, threads[u], x);
      if InSection(threads[t]) {
        Alone(u, x, t);
      }
      Store(out.mem);
      ghost var e, paid := EventIn(before, now.aux, u, threads[u], x), ReturnsIn(before, now.aux, u, threads[u], x);
      Follow(u, x, before, out.pc, out.answer, e, paid);
    }

    method Store(mem: Mem)
      modifies `locked, `senders, `receivers, `disconnected, `contexts, `packets
      ensures Memory() == mem
    {
      locked, senders, receivers := mem.locked, mem.senders, mem.receivers;
      disconnected, contexts, packets := mem.disconnected, mem.contexts, mem.packets;
    }

    // ---- the lock ----

    static predicate Locking(pc: Pc) { pc.Lock? || pc.Relock? || pc.CloseLock? }

    static function Locked(pc: Pc): Pc {
      match pc
      case Lock(c) => Scan(c, 0)
      case Relock(side, p) => Unregister(side, p)
      case _ => CloseSet
    }

    /** One attempt of the spinlock. */
    method TryAcquire(t: nat) returns (ok: bool, ghost i: nat)
      requires Valid() && t < |threads| && Locking(threads[t])
      modifies this
      ensures old(run) < run
      ensures Valid() && t < |threads| && threads[t] == (if ok then Locked(old(threads)[t]) else old(threads)[t])
      ensures shown(t) == old(shown(t)) && returned(t) == old(returned(t)) && Letters(old(now).aux) <= Letters(now.aux)
      ensures !ok ==> |old(run)| <= i + 1 < |run| && Calm.Stuck(run[i], t) && run[i].threads[t] == old(threads)[t]
    {
      Environment(t);
      Present();
      ok, i := !locked, |run| - 1;
      if ok {
        TakeLock(t);
      } else {
        SeeLocked(t);
      }
    }

    method TakeLock(t: nat)
      requires Valid() && t < |threads| && Locking(threads[t]) && !locked
      modifies this
      ensures old(run) < run
      ensures Valid() && threads == old(threads)[t := Locked(old(threads)[t])] && Letters(old(now).aux) <= Letters(now.aux)
      ensures shown(t) == old(shown(t)) && returned(t) == old(returned(t))
    {
      var before := Memory();
      locked := true;
      Silently(t, before, Locked(threads[t]));
    }

    method SeeLocked(t: nat)
      requires Valid() && t < |threads| && Locking(threads[t]) && locked
      modifies this
      ensures old(run) < run
      ensures Valid() && threads == old(threads) && Letters(old(now).aux) <= Letters(now.aux)
      ensures shown(t) == old(shown(t)) && returned(t) == old(returned(t))
    {
      var before := Memory();
      Silently(t, before, threads[t]);
    }

    method Acquire(t: nat, retries: nat) returns (ok: bool, ghost seen: seq<nat>)
      requires Valid() && t < |threads| && Locking(threads[t])
      modifies this
      ensures old(run) <= run
      ensures Valid() && t < |threads| && threads[t] == (if ok then Locked(old(threads)[t]) else old(threads)[t])
      ensures shown(t) == old(shown(t)) && returned(t) == old(returned(t)) && Letters(old(now).aux) <= Letters(now.aux)
      ensures !ok ==> GaveUp(t, old(threads)[t], |old(sched)|, retries, seen)
    {
      ok, seen := false, [];
      var n := retries;
      while n > 0 && !ok
        invariant Valid() && t < |threads| && threads[t] == (if ok then Locked(old(threads)[t]) else old(threads)[t])
        invariant shown(t) == old(shown(t)) && returned(t) == old(returned(t)) && Letters(old(now).aux) <= Letters(now.aux)
        invariant old(run) <= run && n <= retries
        invariant !ok ==> Calm.Spinning(run, |old(sched)|, t, old(threads)[t], seen, retries - n)
      {
        n := n - 1;
        ghost var before, i := run, 0;
        ok, i := TryAcquire(t);
        if !ok {
          Calm.SpinsOn(before, run, |old(sched)|, t, old(threads)[t], seen, retries - n - 1, i);
          seen := seen + [i];
        }
      }
    }

    static predicate Unlocking(pc: Pc) { pc.Unlock? || pc.Release? || pc.UnlockAgain? }

    static function Unlocked(pc: Pc): Pc {
      match pc
      case Unlock(c, p) => Access(c, p)
      case Release(side, p) => Wait(side, p)
      case UnlockAgain(side, p) => GiveBack(side, p)
      case _ => Idle
    }

    /** The guard is dropped. */
    method DropGuard(t: nat)
      requires Valid() && t < |threads| && Unlocking(threads[t])
      modifies this
      ensures old(run) < run
      ensures Valid() && t < |threads| && threads[t] == Unlocked(old(threads)[t])
      ensures shown(t) == old(shown(t)) && returned(t) == old(returned(t)) && Letters(old(now).aux) <= Letters(now.aux)
    {
      Environment(t);
      var before := Memory();
      locked := false;
      Silently(t, before, Unlocked(threads[t]));
    }

    // ---- Waker::try_select ----

    /** `e` is the pairing that call `c` of thread `t` brings about. */
    static predicate MetBy(e: Event, t: nat, c: Call) {
      match e
      case SendMeets(a, m, _) => a == t && c.side.Sender? && c.m == Some(m)
      case RecvMeets(a, _, _) => a == t && c.side.Receiver?
      case _ => false
    }

    lemma WillMeet(t: nat, c: Call, i: nat)
      requires Valid() && t < |threads| && threads[t] == Scan(c, i) && ScanStep(Memory(), t, c, i).pc.StorePacket?
      ensures MetBy(EventIn(Memory(), now.aux, t, threads[t], Go), t, c)
      ensures EventIn(Memory(), now.aux, t, threads[t], Go).RecvMeets? ==>
        Letter(PacketAt(Memory(), Other(c.side), i), Some(EventIn(Memory(), now.aux, t, threads[t], Go).m))
    {
      PastInv(run, sched, now, shown, returned);
      PickDeals(now, t, Go);
      ThreadKnows(now, t);
    }

    /** Entry `j` is another thread's, still waiting. */
    static predicate Selectable(q: seq<Entry>, j: nat, cxs: seq<Context>, t: nat) {
      j < |q| && q[j].cx < |cxs| && q[j].cx != t && cxs[q[j].cx].select.Waiting?
    }

    static predicate NoneBefore(q: seq<Entry>, i: nat, cxs: seq<Context>, t: nat) {
      forall j :: 0 <= j < i ==> !Selectable(q, j, cxs, t)
    }

    /** The context of entry `i` gets the selection, or the packet. */
    static predicate Tells(q: seq<Entry>, i: nat, cxs: seq<Context>, cxs': seq<Context>, x: Context) {
      i < |q| && q[i].cx < |cxs| && cxs' == cxs[q[i].cx := x]
    }

    /**
     From `mem` to `mem'` thread `t` selects the first entry it can: its context
     gets the operation and the packet, and the entry leaves the queue.
     */
    static predicate Picks(mem: Mem, mem': Mem, t: nat, c: Call, i: nat) {
      var q := Queue(mem, Other(c.side));
      && Selectable(q, i, mem.contexts, t) && NoneBefore(q, i, mem.contexts, t)
      && Queue(mem', Other(c.side)) == Removed(q, i) && Queue(mem', c.side) == Queue(mem, c.side)
      && Tells(q, i, mem.contexts, mem'.contexts, Context(Operation(q[i].oper), Some(q[i].packet)))
    }

    /** `Context::try_select` on entry `i`, if it is another thread's. */
    method TryEntry(t: nat, c: Call, i: nat) returns (ok: bool)
      requires Valid() && t < |threads| && threads[t] == Scan(c, i) && i < |Queue(Memory(), Other(c.side))|
      modifies this
      ensures old(run) < run
      ensures Valid() && t < |threads| && threads[t] == (if ok then StorePacket(c, i) else Scan(c, i + 1))
      ensures returned(t) == old(returned(t)) && senders == old(senders) && receivers == old(receivers)
      ensures ok == Selectable(Queue(Memory(), Other(c.side)), i, old(contexts), t)
      ensures !ok ==> shown(t) == old(shown(t)) && contexts == old(contexts)
      ensures ok ==> ChosenAt(Queue(Memory(), Other(c.side)), i, old(contexts), contexts)
      ensures ok ==> Paired(t, c, PacketAt(Memory(), Other(c.side), i), old(shown(t)))
    {
      Environment(t);
      NoCrash(t);
      var entry := Queue(Memory(), Other(c.side))[i];
      ok := entry.cx != t && contexts[entry.cx].select.Waiting?;
      if ok {
        SelectEntry(t, c, i);
      } else {
        var before := Memory();
        Silently(t, before, Scan(c, i + 1));
      }
    }

    /** The thread has met the owner of packet `p`; a receiver, for the message in it. */
    ghost predicate Paired(t: nat, c: Call, p: nat, earlier: seq<Event>)
      reads `now, `shown
    {
      exists e :: MetBy(e, t, c) && shown(t) == earlier + [e] && (e.RecvMeets? ==> Letter(p, Some(e.m)))
    }

    static predicate ChosenAt(q: seq<Entry>, i: nat, cxs: seq<Context>, cxs': seq<Context>) {
      i < |q| && q[i].cx < |cxs| && Tells(q, i, cxs, cxs', Context(Operation(q[i].oper), cxs[q[i].cx].packet))
    }

    method SelectEntry(t: nat, c: Call, i: nat)
      requires Valid() && t < |threads| && threads[t] == Scan(c, i) && ScanStep(Memory(), t, c, i).pc.StorePacket?
      modifies this
      ensures old(run) < run
      ensures Valid() && t < |threads| && threads[t] == StorePacket(c, i)
      ensures returned(t) == old(returned(t)) && senders == old(senders) && receivers == old(receivers)
      ensures ChosenAt(Queue(Memory(), Other(c.side)), i, old(contexts), contexts)
      ensures Paired(t, c, PacketAt(Memory(), Other(c.side), i), old(shown(t)))
    {
      WillMeet(t, c, i);
      var before := Memory();
      ghost var e := EventIn(before, now.aux, t, threads[t], Go);
      var entry := Queue(before, Other(c.side))[i];
      contexts := contexts[entry.cx := Context(Operation(entry.oper), contexts[entry.cx].packet)];
      Follow(t, Go, before, StorePacket(c, i), Nothing, e, []);
      assert MetBy(e, t, c);
    }

    static predicate GivenAt(q: seq<Entry>, i: nat, cxs: seq<Context>, cxs': seq<Context>) {
      i < |q| && q[i].cx < |cxs| && Tells(q, i, cxs, cxs', Context(cxs[q[i].cx].select, Some(q[i].packet)))
    }

    /** `Context::store_packet` */
    method StoreInContext(t: nat, c: Call, i: nat)
      requires Valid() && t < |threads| && threads[t] == StorePacket(c, i)
      modifies this
      ensures old(run) < run
      ensures Valid() && t < |threads| && threads[t] == Remove(c, i)
      ensures senders == old(senders) && receivers == old(receivers)
      ensures GivenAt(Queue(Memory(), Other(c.side)), i, old(contexts), contexts)
      ensures shown(t) == old(shown(t)) && returned(t) == old(returned(t)) && Letters(old(now).aux) <= Letters(now.aux)
    {
      Environment(t);
      NoCrash(t);
      var before := Memory();
      var entry := Queue(before, Other(c.side))[i];
      contexts := contexts[entry.cx := Context(contexts[entry.cx].select, Some(entry.packet))];
      Silently(t, before, Remove(c, i));
    }

    /** Entry `i` leaves one queue; the other stays. */
    static predicate WithoutEntry(mem: Mem, mem': Mem, side: Side, i: nat) {
      && i < |Queue(mem, side)| && Queue(mem', side) == Removed(Queue(mem, side), i)
      && Queue(mem', Other(side)) == Queue(mem, Other(side))
    }

    method DropEntry(side: Side, i: nat)
      requires i < |Queue(Memory(), side)|
      modifies `senders, `receivers
      ensures Memory() == SetQueue(old(Memory()), side, Removed(Queue(old(Memory()), side), i))
    {
      if side.Sender? {
        senders := senders[..i] + senders[i + 1..];
      } else {
        receivers := receivers[..i] + receivers[i + 1..];
      }
    }

    method RemoveEntry(t: nat, c: Call, i: nat) returns (p: nat)
      requires Valid() && t < |threads| && threads[t] == Remove(c, i)
      modifies this
      ensures old(run) < run
      ensures Valid() && t < |threads| && threads[t] == Unlock(c, p) && contexts == old(contexts)
      ensures WithoutEntry(old(Memory()), Memory(), Other(c.side), i) && p == PacketAt(old(Memory()), Other(c.side), i)
      ensures shown(t) == old(shown(t)) && returned(t) == old(returned(t)) && Letters(old(now).aux) <= Letters(now.aux)
    {
      Environment(t);
      NoCrash(t);
      var before := Memory();
      p := Queue(before, Other(c.side))[i].packet;
      RemoveOut(before, t, c, i);
      DropEntry(Other(c.side), i);
      Silently(t, before, Unlock(c, p));
    }

    static lemma RemoveOut(mem: Mem, t: nat, c: Call, i: nat)
      requires i < |Queue(mem, Other(c.side))|
      ensures var q := Queue(mem, Other(c.side));
        MemStep(mem, t, Remove(c, i), Go) == Ok(SetQueue(mem, Other(c.side), Removed(q, i)), Unlock(c, q[i].packet))
    {
    }

    method EndScan(t: nat, c: Call, i: nat)
      requires Valid() && t < |threads| && threads[t] == Scan(c, i) && i >= |Queue(Memory(), Other(c.side))|
      modifies this
      ensures old(run) < run
      ensures Valid() && t < |threads| && threads[t] == Miss(c) && SameQueues(old(Memory()), Memory())
      ensures shown(t) == old(shown(t)) && returned(t) == old(returned(t))
    {
      var before := Memory();
      Silently(t, before, Miss(c));
    }

    static lemma PicksAllTheSame(mem0: Mem, mem: Mem, mem': Mem, t: nat, c: Call, i: nat)
      requires SameQueues(mem0, mem) && Picks(mem, mem', t, c, i)
      ensures Picks(mem0, mem', t, c, i) && PacketAt(mem0, Other(c.side), i) == PacketAt(mem, Other(c.side), i)
    {
    }

    /** Selection, packet and removal make up one pick. */
    static lemma PicksInAll(mem: Mem, mem1: Mem, mem2: Mem, t: nat, c: Call, i: nat)
      requires mem.senders == mem1.senders && mem.receivers == mem1.receivers
      requires var q := Queue(mem, Other(c.side));
        && Selectable(q, i, mem.contexts, t) && NoneBefore(q, i, mem.contexts, t)
        && ChosenAt(q, i, mem.contexts, mem1.contexts) && GivenAt(q, i, mem1.contexts, mem2.contexts)
      requires WithoutEntry(mem1, mem2, Other(c.side), i)
      ensures Picks(mem, mem2, t, c, i)
    {
    }

    /** The packet goes into the context of the entry selected, and the entry leaves the queue. */
    method HandOver(t: nat, c: Call, i: nat) returns (p: nat)
      requires Valid() && t < |threads| && threads[t] == StorePacket(c, i)
      modifies this
      ensures old(run) < run
      ensures Valid() && t < |threads| && threads[t] == Unlock(c, p)
      ensures GivenAt(Queue(old(Memory()), Other(c.side)), i, old(contexts), contexts)
      ensures WithoutEntry(old(Memory()), Memory(), Other(c.side), i) && p == PacketAt(old(Memory()), Other(c.side), i)
      ensures shown(t) == old(shown(t)) && returned(t) == old(returned(t)) && Letters(old(now).aux) <= Letters(now.aux)
    {
      StoreInContext(t, c, i);
      p := RemoveEntry(t, c, i);
    }

    /** One turn of `try_select`, at the first entry that may be selectable. */
    method TryPick(t: nat, c: Call, i: nat) returns (found: Option<nat>)
      requires Valid() && t < |threads| && threads[t] == Scan(c, i) && i < |Queue(Memory(), Other(c.side))|
      requires NoneBefore(Queue(Memory(), Other(c.side)), i, contexts, t)
      modifies this
      ensures old(run) < run
      ensures Valid() && t < |threads| && returned(t) == old(returned(t))
      ensures found.None? ==> threads[t] == Scan(c, i + 1) && shown(t) == old(shown(t)) && SameQueues(old(Memory()), Memory())
      ensures found.None? ==> !Selectable(Queue(Memory(), Other(c.side)), i, contexts, t)
      ensures found.Some? ==> Picks(old(Memory()), Memory(), t, c, i) && found.value == PacketAt(old(Memory()), Other(c.side), i)
      ensures found.Some? ==> threads[t] == Unlock(c, found.value) && Paired(t, c, found.value, old(shown(t)))
    {
      found := None;
      ghost var mem := Memory();
      var ok := TryEntry(t, c, i);
      if ok {
        ghost var mem1 := Memory();
        var p := HandOver(t, c, i);
        PicksInAll(mem, mem1, Memory(), t, c, i);
        found := Some(p);
      }
    }

    /**
     `try_select`: the first entry that can be selected is, and leaves the queue;
     if there is none, nothing changes.
     */
    method TrySelect(t: nat, c: Call) returns (found: Option<nat>)
      requires Valid() && t < |threads| && threads[t] == Scan(c, 0)
      modifies this
      ensures old(run) < run
      ensures Valid() && t < |threads| && returned(t) == old(returned(t))
      ensures found.None? ==> threads[t] == Miss(c) && shown(t) == old(shown(t)) && SameQueues(old(Memory()), Memory())
      ensures found.None? ==> NoneBefore(Queue(Memory(), Other(c.side)), |Queue(Memory(), Other(c.side))|, contexts, t)
      ensures found.Some? ==> exists i :: Picks(old(Memory()), Memory(), t, c, i)
                                          && found.value == PacketAt(old(Memory()), Other(c.side), i)
      ensures found.Some? ==> threads[t] == Unlock(c, found.value) && Paired(t, c, found.value, old(shown(t)))
    {
      found := None;
      var i := 0;
      while i < |Queue(Memory(), Other(c.side))|
        invariant Valid() && t < |threads| && returned(t) == old(returned(t)) && old(run) <= run
        invariant found.None? && threads[t] == Scan(c, i) && shown(t) == old(shown(t)) && SameQueues(old(Memory()), Memory())
        invariant i <= |Queue(Memory(), Other(c.side))| && NoneBefore(Queue(Memory(), Other(c.side)), i, contexts, t)
        decreases |Queue(Memory(), Other(c.side))| - i
      {
        ghost var mem := Memory();
        found := TryPick(t, c, i);
        if found.Some? {
          PicksAllTheSame(old(Memory()), mem, Memory(), t, c, i);
          return;
        }
        i := i + 1;
      }
      EndScan(t, c, i);
    }

    // ---- write and read ----

    method Fill(t: nat, c: Call, p: nat)
      requires Valid() && t < |threads| && threads[t] == Access(c, p) && c.side.Sender?
      modifies this
      ensures old(run) < run
      ensures Valid() && t < |threads| && threads[t] == SetReady(c, p) && c.m.Some?
      ensures shown(t) == old(shown(t)) && returned(t) == old(returned(t)) && Letters(old(now).aux) <= Letters(now.aux)
    {
      Environment(t);
      NoCrash(t);
      var before := Memory();
      packets := packets[p := Packet(packets[p].ready, c.m, packets[p].live)];
      Silently(t, before, SetReady(c, p));
    }

    method Drain(t: nat, c: Call, p: nat) returns (m: Msg)
      requires Valid() && t < |threads| && threads[t] == Access(c, p) && c.side.Receiver?
      modifies this
      ensures old(run) < run
      ensures Valid() && t < |threads| && threads[t] == SetReady(Call(Receiver, Some(m), c.block), p)
      ensures shown(t) == old(shown(t)) && returned(t) == old(returned(t)) && Letters(old(now).aux) <= Letters(now.aux)
      ensures Letter(p, Some(m))
    {
      Environment(t);
      NoCrash(t);
      PartnerLetter(t, c, p);
      var before := Memory();
      m := packets[p].msg.value;
      packets := packets[p := Packet(packets[p].ready, None, packets[p].live)];
      Silently(t, before, SetReady(Call(Receiver, Some(m), c.block), p));
    }

    /** A receiver finds the letter in the packet of the sender it has selected. */
    lemma PartnerLetter(t: nat, c: Call, p: nat)
      requires Valid() && t < |threads| && threads[t] == Access(c, p) && c.side.Receiver?
      ensures p < |packets| && Letter(p, packets[p].msg)
    {
      PastInv(run, sched, now, shown, returned);
      assert ThreadOk(now.mem, now.aux, t, now.threads[t]);
      assert PacketOk(now.mem.packets[p], now.aux.info[p]);
    }

    /** The store of `ready`: from here on the packet may be gone. */
    method Finish(t: nat, c: Call, p: nat)
      requires Valid() && t < |threads| && threads[t] == SetReady(c, p) && c.m.Some?
      modifies this
      ensures old(run) < run
      ensures Valid() && t < |threads| && threads[t] == Idle
      ensures shown(t) == old(shown(t)) && returned(t) == old(returned(t)) + [Token(c.side, c.m.value)]
      ensures Letters(old(now).aux) <= Letters(now.aux)
    {
      Environment(t);
      NoCrash(t);
      var before := Memory();
      FinishOut(before, t, c, p);
      packets := packets[p := Packet(true, packets[p].msg, true)];
      Follow(t, Go, before, Idle, if c.side.Sender? then SentOk else Got(c.m.value), Tau, [Token(c.side, c.m.value)]);
    }

    static lemma FinishOut(mem: Mem, t: nat, c: Call, p: nat)
      requires !MemStep(mem, t, SetReady(c, p), Go).fault && c.m.Some?
      ensures p < |mem.packets|
      ensures MemStep(mem, t, SetReady(c, p), Go) ==
                Done(SetPacket(mem, p, Packet(true, mem.packets[p].msg, true)), if c.side.Sender? then SentOk else Got(c.m.value))
    {
    }

    /** `write`, or `read`, on the packet of the selected partner. */
    method Complete(t: nat, c: Call, p: nat) returns (a: Answer)
      requires Valid() && t < |threads| && threads[t] == Unlock(c, p)
      modifies this
      ensures old(run) < run
      ensures Valid() && t < |threads| && threads[t] == Idle && shown(t) == old(shown(t))
      ensures Answered(c, a, returned(t), old(returned(t))) && (a.SentOk? || a.Got?)
      ensures Letters(old(now).aux) <= Letters(now.aux) && (a.Got? ==> Letter(p, Some(a.m)))
    {
      DropGuard(t);
      if c.side.Sender? {
        WritePacket(t, c, p);
        a := SentOk;
      } else {
        var m := ReadPacket(t, c, p);
        a := Got(m);
      }
    }

    /** `write` */
    method WritePacket(t: nat, c: Call, p: nat)
      requires Valid() && t < |threads| && threads[t] == Access(c, p) && c.side.Sender?
      modifies this
      ensures old(run) < run
      ensures Valid() && t < |threads| && threads[t] == Idle && shown(t) == old(shown(t))
      ensures c.m.Some? && returned(t) == old(returned(t)) + [Token(Sender, c.m.value)]
      ensures Letters(old(now).aux) <= Letters(now.aux)
    {
      Fill(t, c, p);
      Finish(t, c, p);
    }

    /** `read` */
    method ReadPacket(t: nat, c: Call, p: nat) returns (m: Msg)
      requires Valid() && t < |threads| && threads[t] == Access(c, p) && c.side.Receiver?
      modifies this
      ensures old(run) < run
      ensures Valid() && t < |threads| && threads[t] == Idle && shown(t) == old(shown(t))
      ensures returned(t) == old(returned(t)) + [Token(Receiver, m)]
      ensures Letters(old(now).aux) <= Letters(now.aux) && Letter(p, Some(m))
    {
      m := Drain(t, c, p);
      Finish(t, Call(Receiver, Some(m), c.block), p);
    }

    /** What a call returns: Ok for its message, a message received, or its message back. */
    static predicate Answered(c: Call, a: Answer, later: seq<Token>, earlier: seq<Token>) {
      match a
      case SentOk => c.side.Sender? && c.m.Some? && later == earlier + [Token(Sender, c.m.value)]
      case Got(m) => c.side.Receiver? && later == earlier + [Token(Receiver, m)]
      case Closed(m) => m == c.m && later == earlier
      case WouldBlock(m) => m == c.m && later == earlier
      case _ => false
    }

    // ---- nobody to pair up with ----

    /** The verdict that thread `t` finds nobody, or that the channel is closed. */
    static predicate Verdict(e: Event, t: nat, c: Call, a: Answer) {
      match a
      case Closed(_) => if c.side.Sender? then c.m.Some? && e == SendRefused(t, c.m.value) else e == RecvRefused(t)
      case WouldBlock(_) => !c.block && if c.side.Sender? then c.m.Some? && e == SendLeaves(t, c.m.value) else e == RecvLeaves(t)
      case _ => false
    }

    /** The look at `is_disconnected`. */
    method Look(t: nat, c: Call) returns (a: Option<Answer>)
      requires Valid() && t < |threads| && threads[t] == Miss(c)
      modifies this
      ensures old(run) < run
      ensures Valid() && t < |threads| && returned(t) == old(returned(t))
      ensures a.None? ==> threads[t] == Reset(c) && shown(t) == old(shown(t)) && c.block
      ensures a.Some? ==> threads[t] == Leave(a.value) && (a.value == Closed(c.m) || (a.value == WouldBlock(c.m) && !c.block))
      ensures a.Some? ==> exists e :: Verdict(e, t, c, a.value) && shown(t) == old(shown(t)) + [e]
    {
      Environment(t);
      NoCrash(t);
      var before := Memory();
      ghost var e := EventIn(before, now.aux, t, threads[t], Go);
      a := if disconnected then Some(Closed(c.m)) else if !c.block then Some(WouldBlock(c.m)) else None;
      Follow(t, Go, before, if a.Some? then Leave(a.value) else Reset(c), Nothing, e, []);
      assert a.Some? ==> Verdict(e, t, c, a.value);
    }

    /** The guard is dropped with the return. */
    method Return(t: nat, a: Answer)
      requires Valid() && t < |threads| && threads[t] == Leave(a) && (a.Closed? || a.WouldBlock?)
      modifies this
      ensures old(run) < run
      ensures Valid() && t < |threads| && threads[t] == Idle
      ensures shown(t) == old(shown(t)) && returned(t) == old(returned(t))
    {
      Environment(t);
      var before := Memory();
      locked := false;
      Follow(t, Go, before, Idle, a, Tau, []);
    }

    // ---- blocking ----

    /** `Context::reset` */
    method ResetContext(t: nat, c: Call)
      requires Valid() && t < |threads| && threads[t] == Reset(c)
      modifies this
      ensures old(run) < run
      ensures Valid() && t < |threads| && threads[t] == Register(c)
      ensures shown(t) == old(shown(t)) && returned(t) == old(returned(t))
    {
      ClearSelection(t, c);
      ClearPacket(t, c);
    }

    method ClearSelection(t: nat, c: Call)
      requires Valid() && t < |threads| && threads[t] == Reset(c)
      modifies this
      ensures old(run) < run
      ensures Valid() && t < |threads| && threads[t] == ResetPacket(c)
      ensures shown(t) == old(shown(t)) && returned(t) == old(returned(t))
    {
      Environment(t);
      NoCrash(t);
      var before := Memory();
      contexts := contexts[t := Context(Waiting, contexts[t].packet)];
      Silently(t, before, ResetPacket(c));
    }

    method ClearPacket(t: nat, c: Call)
      requires Valid() && t < |threads| && threads[t] == ResetPacket(c)
      modifies this
      ensures old(run) < run
      ensures Valid() && t < |threads| && threads[t] == Register(c)
      ensures shown(t) == old(shown(t)) && returned(t) == old(returned(t))
    {
      Environment(t);
      NoCrash(t);
      var before := Memory();
      contexts := contexts[t := Context(contexts[t].select, None)];
      Silently(t, before, Register(c));
    }

    /** The start of a wait. */
    static predicate Waits(e: Event, t: nat, c: Call) {
      if c.side.Sender? then c.m.Some? && e == SendWaits(t, c.m.value) else e == RecvWaits(t)
    }

    /** `register_with_packet`: a packet on the stack, an entry at the end of the queue. */
    method Enter(t: nat, c: Call) returns (p: nat)
      requires Valid() && t < |threads| && threads[t] == Register(c)
      modifies this
      ensures old(run) < run
      ensures Valid() && t < |threads| && threads[t] == Release(c.side, p) && Letter(p, c.m)
      ensures returned(t) == old(returned(t)) && exists e :: Waits(e, t, c) && shown(t) == old(shown(t)) + [e]
    {
      Environment(t);
      NoCrash(t);
      NewLetter(t, c);
      var before := Memory();
      p := |packets|;
      packets := packets + [Packet(false, c.m, true)];
      if c.side.Sender? {
        senders := senders + [Entry(OperOf(p), p, t)];
      } else {
        receivers := receivers + [Entry(OperOf(p), p, t)];
      }
      ghost var e := EventIn(before, now.aux, t, threads[t], Go);
      Follow(t, Go, before, Release(c.side, p), Nothing, e, []);
      assert Waits(e, t, c);
    }

    lemma NewLetter(t: nat, c: Call)
      requires Valid() && t < |threads| && threads[t] == Register(c)
      ensures |now.aux.info| == |packets| && CallOk(c)
    {
      PastInv(run, sched, now, shown, returned);
      assert ThreadOk(now.mem, now.aux, t, now.threads[t]);
    }

    /** One load of the context's selection. */
    method LoadSelected(t: nat, side: Side, p: nat, ghost m: Option<Msg>) returns (sel: Selected, ghost i: nat)
      requires Valid() && t < |threads| && threads[t] == Wait(side, p) && Letter(p, m)
      modifies this
      ensures old(run) < run
      ensures Valid() && t < |threads| && Letter(p, m) && threads[t] == AfterWait(side, p, sel)
      ensures shown(t) == old(shown(t)) && returned(t) == old(returned(t)) && !sel.Aborted?
      ensures sel.Waiting? ==> |old(run)| <= i + 1 < |run| && Calm.Stuck(run[i], t) && run[i].threads[t] == Wait(side, p)
    {
      Environment(t);
      NoCrash(t);
      Present();
      var before := Memory();
      sel, i := contexts[t].select, |run| - 1;
      Silently(t, before, AfterWait(side, p, sel));
    }

    static function AfterWait(side: Side, p: nat, sel: Selected): Pc {
      match sel
      case Waiting => Wait(side, p)
      case Aborted => Idle
      case Disconnected => Relock(side, p)
      case Operation(_) => WaitReady(side, p)
    }

    /** `Context::wait`; `Waiting` if the retries are used up. */
    method WaitSelected(t: nat, side: Side, p: nat, ghost m: Option<Msg>, retries: nat)
      returns (sel: Selected, ghost seen: seq<nat>)
      requires Valid() && t < |threads| && threads[t] == Wait(side, p) && Letter(p, m)
      modifies this
      ensures old(run) <= run
      ensures Valid() && t < |threads| && Letter(p, m) && threads[t] == AfterWait(side, p, sel)
      ensures shown(t) == old(shown(t)) && returned(t) == old(returned(t)) && !sel.Aborted?
      ensures sel.Waiting? ==> GaveUp(t, Wait(side, p), |old(sched)|, retries, seen)
    {
      sel, seen := Waiting, [];
      var n := retries;
      while n > 0 && sel.Waiting?
        invariant Valid() && t < |threads| && Letter(p, m) && threads[t] == AfterWait(side, p, sel) && !sel.Aborted?
        invariant shown(t) == old(shown(t)) && returned(t) == old(returned(t)) && old(run) <= run && n <= retries
        invariant sel.Waiting? ==> Calm.Spinning(run, |old(sched)|, t, Wait(side, p), seen, retries - n)
      {
        n := n - 1;
        ghost var before, i := run, 0;
        sel, i := LoadSelected(t, side, p, m);
        if sel.Waiting? {
          Calm.SpinsOn(before, run, |old(sched)|, t, Wait(side, p), seen, retries - n - 1, i);
          seen := seen + [i];
        }
      }
    }

    /** The waiting sender finds its packet ready: the message is gone, and the packet may go. */
    method SenderReady(t: nat, p: nat, ghost m: Option<Msg>) returns (ready: bool, ghost i: nat)
      requires Valid() && t < |threads| && threads[t] == WaitReady(Sender, p) && Letter(p, m)
      modifies this
      ensures old(run) < run
      ensures Valid() && t < |threads| && shown(t) == old(shown(t))
      ensures !ready ==> threads[t] == WaitReady(Sender, p) && Letter(p, m) && returned(t) == old(returned(t))
      ensures ready ==> threads[t] == Idle && m.Some? && returned(t) == old(returned(t)) + [Token(Sender, m.value)]
      ensures !ready ==> |old(run)| <= i + 1 < |run| && Calm.Stuck(run[i], t) && run[i].threads[t] == WaitReady(Sender, p)
    {
      Environment(t);
      OwnLetter(t, p, m);
      NoCrash(t);
      Present();
      var before := Memory();
      ready, i := packets[p].ready, |run| - 1;
      if ready {
        SenderLeaves(t, p, m.value);
      } else {
        Silently(t, before, WaitReady(Sender, p));
      }
    }

    method SenderLeaves(t: nat, p: nat, ghost m: Msg)
      requires Valid() && t < |threads| && threads[t] == WaitReady(Sender, p) && Letter(p, Some(m))
      requires p < |packets| && packets[p].ready
      modifies this
      ensures old(run) < run
      ensures Valid() && t < |threads| && threads[t] == Idle
      ensures shown(t) == old(shown(t)) && returned(t) == old(returned(t)) + [Token(Sender, m)]
    {
      OwnLetter(t, p, Some(m));
      NoCrash(t);
      var before := Memory();
      packets := packets[p := Packet(packets[p].ready, None, false)];
      Follow(t, Go, before, Idle, SentOk, Tau, [Token(Sender, m)]);
    }

    /** The letter of the packet on the thread's own stack. */
    lemma OwnLetter(t: nat, p: nat, m: Option<Msg>)
      requires Valid() && t < |threads| && OwnPacket(threads[t]) == Some(p) && Letter(p, m)
      ensures p < |now.aux.info| && p < |packets| && now.aux.info[p].side == SideOf(threads[t])
      ensures SideOf(threads[t]).Sender? ==> m.Some? && now.aux.info[p].deal == m
      ensures threads[t].GiveBack? && SideOf(threads[t]).Sender? ==> packets[p].msg == m
    {
      PastInv(run, sched, now, shown, returned);
      assert ThreadOk(now.mem, now.aux, t, now.threads[t]);
      assert PacketOk(now.mem.packets[p], now.aux.info[p]);
    }

    method ReceiverReady(t: nat, p: nat) returns (ready: bool, ghost i: nat)
      requires Valid() && t < |threads| && threads[t] == WaitReady(Receiver, p)
      modifies this
      ensures old(run) < run
      ensures Valid() && t < |threads| && shown(t) == old(shown(t)) && returned(t) == old(returned(t))
      ensures threads[t] == if ready then Take(p) else WaitReady(Receiver, p)
      ensures !ready ==> |old(run)| <= i + 1 < |run| && Calm.Stuck(run[i], t) && run[i].threads[t] == WaitReady(Receiver, p)
    {
      Environment(t);
      NoCrash(t);
      Present();
      var before := Memory();
      ready, i := packets[p].ready, |run| - 1;
      Silently(t, before, if ready then Take(p) else WaitReady(Receiver, p));
    }

    method TakeMessage(t: nat, p: nat) returns (m: Msg)
      requires Valid() && t < |threads| && threads[t] == Take(p)
      modifies this
      ensures old(run) < run
      ensures Valid() && t < |threads| && threads[t] == Idle
      ensures shown(t) == old(shown(t)) && returned(t) == old(returned(t)) + [Token(Receiver, m)]
    {
      Environment(t);
      NoCrash(t);
      var before := Memory();
      m := packets[p].msg.value;
      packets := packets[p := Packet(packets[p].ready, None, false)];
      Follow(t, Go, before, Idle, Got(m), Tau, [Token(Receiver, m)]);
    }

    /** `wait_ready`, for the sender. */
    method AwaitRead(t: nat, p: nat, ghost m: Option<Msg>, retries: nat) returns (ready: bool, ghost seen: seq<nat>)
      requires Valid() && t < |threads| && threads[t] == WaitReady(Sender, p) && Letter(p, m)
      modifies this
      ensures old(run) <= run
      ensures Valid() && t < |threads| && shown(t) == old(shown(t))
      ensures ready ==> threads[t] == Idle && m.Some? && returned(t) == old(returned(t)) + [Token(Sender, m.value)]
      ensures !ready ==> returned(t) == old(returned(t)) && GaveUp(t, WaitReady(Sender, p), |old(sched)|, retries, seen)
    {
      ready, seen := false, [];
      var n := retries;
      while n > 0 && !ready
        invariant Valid() && t < |threads| && shown(t) == old(shown(t))
        invariant !ready ==> threads[t] == WaitReady(Sender, p) && Letter(p, m) && returned(t) == old(returned(t))
        invariant ready ==> threads[t] == Idle && m.Some? && returned(t) == old(returned(t)) + [Token(Sender, m.value)]
        invariant old(run) <= run && n <= retries
        invariant !ready ==> Calm.Spinning(run, |old(sched)|, t, WaitReady(Sender, p), seen, retries - n)
      {
        n := n - 1;
        ghost var before, i := run, 0;
        ready, i := SenderReady(t, p, m);
        if !ready {
          Calm.SpinsOn(before, run, |old(sched)|, t, WaitReady(Sender, p), seen, retries - n - 1, i);
          seen := seen + [i];
        }
      }
    }

    /** `wait_ready`, for the receiver. */
    method AwaitWritten(t: nat, p: nat, retries: nat) returns (ready: bool, ghost seen: seq<nat>)
      requires Valid() && t < |threads| && threads[t] == WaitReady(Receiver, p)
      modifies this
      ensures old(run) <= run
      ensures Valid() && t < |threads| && shown(t) == old(shown(t)) && returned(t) == old(returned(t))
      ensures threads[t] == if ready then Take(p) else WaitReady(Receiver, p)
      ensures !ready ==> GaveUp(t, WaitReady(Receiver, p), |old(sched)|, retries, seen)
    {
      ready, seen := false, [];
      var n := retries;
      while n > 0 && !ready
        invariant Valid() && t < |threads| && shown(t) == old(shown(t)) && returned(t) == old(returned(t))
        invariant threads[t] == if ready then Take(p) else WaitReady(Receiver, p)
        invariant old(run) <= run && n <= retries
        invariant !ready ==> Calm.Spinning(run, |old(sched)|, t, WaitReady(Receiver, p), seen, retries - n)
      {
        n := n - 1;
        ghost var before, i := run, 0;
        ready, i := ReceiverReady(t, p);
        if !ready {
          Calm.SpinsOn(before, run, |old(sched)|, t, WaitReady(Receiver, p), seen, retries - n - 1, i);
          seen := seen + [i];
        }
      }
    }

    /** The search of `unregister`. */
    static method FindEntry(q: seq<Entry>, oper: nat) returns (i: nat)
      requires Find(q, oper) < |q|
      ensures i == Find(q, oper)
    {
      i := 0;
      while q[i].oper != oper
        invariant i <= Find(q, oper)
        decreases |q| - i
      {
        i := i + 1;
      }
    }

    /** The entry found is the thread's own. */
    lemma OwnEntry(t: nat, side: Side, p: nat)
      requires Valid() && t < |threads| && threads[t] == Unregister(side, p)
      ensures var q, i := Queue(Memory(), side), Find(Queue(Memory(), side), OperOf(p));
        i < |q| && q[i] == Entry(OperOf(p), p, t)
    {
      NoCrash(t);
      PastInv(run, sched, now, shown, returned);
      EntryOf(now.mem, now.aux, side, Find(Queue(now.mem, side), OperOf(p)));
    }

    static lemma EntryOf(mem: Mem, aux: Aux, side: Side, i: nat)
      requires Queues(mem, aux) && i < |Queue(mem, side)|
      ensures EntryOk(aux, side, Queue(mem, side)[i])
    {
    }

    /** `unregister`: the thread's own entry is found and removed. */
    method TakeEntryBack(t: nat, side: Side, p: nat, ghost m: Option<Msg>)
      requires Valid() && t < |threads| && threads[t] == Unregister(side, p) && Letter(p, m)
      modifies this
      ensures old(run) < run
      ensures Valid() && t < |threads| && threads[t] == UnlockAgain(side, p) && Letter(p, m)
      ensures contexts == old(contexts) && exists i: nat :: WithoutEntry(old(Memory()), Memory(), side, i)
                                                            && Queue(old(Memory()), side)[i] == Entry(OperOf(p), p, t)
      ensures shown(t) == old(shown(t)) && returned(t) == old(returned(t))
    {
      Environment(t);
      OwnEntry(t, side, p);
      var i := FindEntry(Queue(Memory(), side), OperOf(p));
      TakeOut(t, side, p, i);
      assert WithoutEntry(old(Memory()), Memory(), side, i);
    }

    method TakeOut(t: nat, side: Side, p: nat, i: nat)
      requires Valid() && t < |threads| && threads[t] == Unregister(side, p)
      requires i == Find(Queue(Memory(), side), OperOf(p)) && i < |Queue(Memory(), side)|
      modifies this
      ensures old(run) < run
      ensures Valid() && threads == old(threads)[t := UnlockAgain(side, p)] && Letters(old(now).aux) <= Letters(now.aux)
      ensures contexts == old(contexts) && WithoutEntry(old(Memory()), Memory(), side, i)
      ensures shown(t) == old(shown(t)) && returned(t) == old(returned(t))
    {
      var before := Memory();
      DropEntry(side, i);
      Silently(t, before, UnlockAgain(side, p));
    }

    /** The packet leaves the stack; a sender gets its message back. */
    method LeavePacket(t: nat, side: Side, p: nat, ghost m: Option<Msg>) returns (a: Answer)
      requires Valid() && t < |threads| && threads[t] == GiveBack(side, p) && Letter(p, m) && (side.Receiver? ==> m.None?)
      modifies this
      ensures old(run) < run
      ensures Valid() && t < |threads| && threads[t] == Idle && a == Closed(m)
      ensures shown(t) == old(shown(t)) && returned(t) == old(returned(t))
    {
      Environment(t);
      NoCrash(t);
      OwnLetter(t, p, m);
      var before := Memory();
      a := Closed(if side.Sender? then packets[p].msg else None);
      packets := packets[p := Packet(packets[p].ready, None, false)];
      Follow(t, Go, before, Idle, a, Tau, []);
    }

    /** Disconnected while waiting. */
    method GiveUp(t: nat, side: Side, p: nat, ghost m: Option<Msg>, retries: nat)
      returns (a: Option<Answer>, ghost seen: seq<nat>)
      requires Valid() && t < |threads| && threads[t] == Relock(side, p) && Letter(p, m) && (side.Receiver? ==> m.None?)
      modifies this
      ensures old(run) <= run
      ensures Valid() && t < |threads| && shown(t) == old(shown(t)) && returned(t) == old(returned(t))
      ensures a.Some? ==> threads[t] == Idle && a.value == Closed(m)
      ensures a.None? ==> GaveUp(t, Relock(side, p), |old(sched)|, retries, seen)
    {
      a := None;
      var ok;
      ok, seen := Acquire(t, retries);
      if ok {
        var back := TakeBack(t, side, p, m);
        a := Some(back);
      }
    }

    method TakeBack(t: nat, side: Side, p: nat, ghost m: Option<Msg>) returns (a: Answer)
      requires Valid() && t < |threads| && threads[t] == Unregister(side, p) && Letter(p, m) && (side.Receiver? ==> m.None?)
      modifies this
      ensures old(run) < run
      ensures Valid() && t < |threads| && threads[t] == Idle && a == Closed(m)
      ensures shown(t) == old(shown(t)) && returned(t) == old(returned(t))
    {
      TakeEntryBack(t, side, p, m);
      DropGuard(t);
      a := LeavePacket(t, side, p, m);
    }

    /** Where a blocking call spins: on its selection, on its packet, or on the lock once it is disconnected. */
    static predicate WaitsAt(pc: Pc, c: Call) {
      match pc
      case Wait(side, _) => side == c.side
      case WaitReady(side, _) => side == c.side
      case Relock(side, _) => side == c.side
      case _ => false
    }

    /** The rest of a blocking call, from `Context::wait` on. */
    method Block(t: nat, c: Call, p: nat, retries: nat) returns (a: Option<Answer>, ghost seen: seq<nat>)
      requires Valid() && t < |threads| && threads[t] == Wait(c.side, p) && Letter(p, c.m) && CallOk(c)
      modifies this
      ensures old(run) <= run
      ensures Valid() && t < |threads| && shown(t) == old(shown(t))
      ensures a.Some? ==> threads[t] == Idle && Answered(c, a.value, returned(t), old(returned(t))) && !a.value.WouldBlock?
      ensures a.None? ==> WaitsAt(threads[t], c) && GaveUp(t, threads[t], |old(sched)|, retries, seen)
      ensures a.None? ==> returned(t) == old(returned(t))
    {
      a := None;
      var sel, ready;
      sel, seen := WaitSelected(t, c.side, p, c.m, retries);
      if sel.Disconnected? {
        a, seen := GiveUp(t, c.side, p, c.m, retries);
      } else if sel.Operation? && c.side.Sender? {
        ready, seen := AwaitRead(t, p, c.m, retries);
        a := if ready then Some(SentOk) else None;
      } else if sel.Operation? {
        a, seen := AwaitMessage(t, p, retries);
      }
    }

    /** The waiting receiver takes the message out of its packet. */
    method AwaitMessage(t: nat, p: nat, retries: nat) returns (a: Option<Answer>, ghost seen: seq<nat>)
      requires Valid() && t < |threads| && threads[t] == WaitReady(Receiver, p)
      modifies this
      ensures old(run) <= run
      ensures Valid() && t < |threads| && shown(t) == old(shown(t))
      ensures a.Some? ==> threads[t] == Idle && a.value.Got? && returned(t) == old(returned(t)) + [Token(Receiver, a.value.m)]
      ensures a.None? ==> GaveUp(t, WaitReady(Receiver, p), |old(sched)|, retries, seen) && returned(t) == old(returned(t))
    {
      a := None;
      var ready;
      ready, seen := AwaitWritten(t, p, retries);
      if ready {
        var m := TakeMessage(t, p);
        a := Some(Got(m));
      }
    }

    /** Nobody there: a verdict, or a wait. */
    method Missed(t: nat, c: Call, retries: nat) returns (a: Option<Answer>, ghost seen: seq<nat>)
      requires Valid() && t < |threads| && threads[t] == Miss(c) && CallOk(c)
      modifies this
      ensures old(run) < run
      ensures Valid() && t < |threads|
      ensures a.Some? ==> threads[t] == Idle && Answered(c, a.value, returned(t), old(returned(t)))
      ensures a.Some? ==> exists e :: Effect(e, t, c, a.value) && shown(t) == old(shown(t)) + [e]
      ensures a.None? ==> StillWaits(t, c, old(shown(t)), |old(sched)|, retries, seen) && returned(t) == old(returned(t))
    {
      seen := [];
      a := Look(t, c);
      if a.Some? {
        Return(t, a.value);
      } else {
        a, seen := EnterAndBlock(t, c, retries);
      }
    }

    /** The call has begun to wait, and spins. */
    ghost predicate StillWaits(t: nat, c: Call, earlier: seq<Event>, from: nat, retries: nat, seen: seq<nat>)
      reads `run, `threads, `shown
    {
      && c.block && t < |threads| && WaitsAt(threads[t], c) && GaveUp(t, threads[t], from, retries, seen)
      && exists e :: Waits(e, t, c) && shown(t) == earlier + [e]
    }

    method EnterAndBlock(t: nat, c: Call, retries: nat) returns (a: Option<Answer>, ghost seen: seq<nat>)
      requires Valid() && t < |threads| && threads[t] == Reset(c) && CallOk(c) && c.block
      modifies this
      ensures old(run) < run
      ensures Valid() && t < |threads|
      ensures a.Some? ==> threads[t] == Idle && Answered(c, a.value, returned(t), old(returned(t))) && !a.value.WouldBlock?
      ensures exists e :: Waits(e, t, c) && shown(t) == old(shown(t)) + [e]
      ensures a.None? ==> StillWaits(t, c, old(shown(t)), |old(sched)|, retries, seen) && returned(t) == old(returned(t))
    {
      ResetContext(t, c);
      var p := Enter(t, c);
      DropGuard(t);
      a, seen := Block(t, c, p, retries);
    }

    /**
     A call, from the lock on. What it answers is what the meeting said: it met
     somebody, found the channel closed or nobody there, or waited; and Ok is
     answered exactly for an exchange that took place. It gives up only in a spin
     loop, before it had any effect or once it waits; and a call made while the lock
     is free, and not disturbed, is told what the meeting looked like.
     */
    method Perform(t: nat, c: Call, retries: nat) returns (a: Option<Answer>, ghost seen: seq<nat>)
      requires Valid() && t < |threads| && threads[t] == Idle && CallOk(c)
      modifies this
      ensures old(run) < run
      ensures Valid() && t < |threads|
      ensures a.Some? ==> threads[t] == Idle && Answered(c, a.value, returned(t), old(returned(t)))
      ensures a.Some? ==> exists e :: Effect(e, t, c, a.value) && shown(t) == old(shown(t)) + [e]
      ensures a.None? ==> Spins(t, c, old(shown(t)), |old(sched)|, retries, seen) && returned(t) == old(returned(t))
      ensures forall e :: AnswerTo(e, c).Some? && shown(t) == old(shown(t)) + [e] ==> a == AnswerTo(e, c)
      ensures !old(locked) && Undisturbed(t, |old(sched)|) && retries > 0 ==>
        shown(t) == old(shown(t)) + [Calm.HallAnswer(old(Abs(now)), t, c)]
    {
      Present();
      ghost var n, s, earlier := |sched|, now, shown(t);
      Begin(t, c);
      Present();
      a, seen := Carry(t, c, retries);
      forall e | AnswerTo(e, c).Some? && shown(t) == earlier + [e] ensures a == AnswerTo(e, c) {
        OneEffect(t, c, a, earlier, n + 1, retries, seen, e);
      }
      if !s.mem.locked && Undisturbed(t, n) && retries > 0 {
        NoSpin(t, n);
        PastLock(t, c, n + 1, retries, seen, earlier, a);
        Told(t, n, c);
      }
    }

    method Carry(t: nat, c: Call, retries: nat) returns (a: Option<Answer>, ghost seen: seq<nat>)
      requires Valid() && t < |threads| && threads[t] == Lock(c) && CallOk(c)
      modifies this
      ensures old(run) <= run
      ensures Valid() && t < |threads|
      ensures a.Some? ==> threads[t] == Idle && Answered(c, a.value, returned(t), old(returned(t)))
      ensures a.Some? ==> exists e :: Effect(e, t, c, a.value) && shown(t) == old(shown(t)) + [e]
      ensures a.None? ==> Spins(t, c, old(shown(t)), |old(sched)|, retries, seen) && returned(t) == old(returned(t))
    {
      a := None;
      var ok;
      ok, seen := Acquire(t, retries);
      if ok {
        a, seen := MeetOrMiss(t, c, retries);
      }
    }

    /** With the lock: somebody is there, or nobody. */
    method MeetOrMiss(t: nat, c: Call, retries: nat) returns (a: Option<Answer>, ghost seen: seq<nat>)
      requires Valid() && t < |threads| && threads[t] == Scan(c, 0) && CallOk(c)
      modifies this
      ensures old(run) <= run
      ensures Valid() && t < |threads|
      ensures a.Some? ==> threads[t] == Idle && Answered(c, a.value, returned(t), old(returned(t)))
      ensures a.Some? ==> exists e :: Effect(e, t, c, a.value) && shown(t) == old(shown(t)) + [e]
      ensures a.None? ==> StillWaits(t, c, old(shown(t)), |old(sched)|, retries, seen) && returned(t) == old(returned(t))
    {
      seen := [];
      var found := TrySelect(t, c);
      if found.Some? {
        var done := Complete(t, c, found.value);
        a := Some(done);
      } else {
        a, seen := Missed(t, c, retries);
      }
    }

    /** Whoever has met somebody, or been sent away, has been answered accordingly. */
    lemma OneEffect(t: nat, c: Call, a: Option<Answer>, earlier: seq<Event>, from: nat, retries: nat, seen: seq<nat>, e: Event)
      requires a.Some? ==> BackTo(c, a.value) && exists e :: Effect(e, t, c, a.value) && shown(t) == earlier + [e]
      requires a.None? ==> Spins(t, c, earlier, from, retries, seen)
      requires shown(t) == earlier + [e] && AnswerTo(e, c).Some?
      ensures a == AnswerTo(e, c)
    {
      LastOne(earlier);
    }

    static predicate BackTo(c: Call, a: Answer) {
      match a
      case Closed(m) => m == c.m
      case WouldBlock(m) => m == c.m
      case _ => true
    }

    static lemma LastOne(es: seq<Event>)
      ensures forall e, e' :: es + [e] == es + [e'] ==> e == e'
    {
      forall e, e' | es + [e] == es + [e'] ensures e == e' {
        assert (es + [e])[|es|] == (es + [e'])[|es|];
      }
    }

    /** Whoever never finds the lock taken has had an effect. */
    lemma PastLock(t: nat, c: Call, from: nat, retries: nat, seen: seq<nat>, earlier: seq<Event>, a: Option<Answer>)
      requires t < |threads| && (a.Some? ==> threads[t] == Idle) && retries > 0
      requires a.None? ==> Spins(t, c, earlier, from, retries, seen)
      requires forall k :: from <= k < |run| && t < |run[k].threads| && Calm.Locking(run[k].threads[t]) ==> !Calm.Stuck(run[k], t)
      ensures Calm.Told(threads[t]) && (a.None? ==> StillWaits(t, c, earlier, from, retries, seen))
    {
      FoundFree(t, Lock(c), from, retries, seen);
    }

    /** The call has given up: on the lock, with nothing done, or waiting for a partner. */
    ghost predicate Spins(t: nat, c: Call, earlier: seq<Event>, from: nat, retries: nat, seen: seq<nat>)
      reads `run, `threads, `shown
    {
      || (GaveUp(t, Lock(c), from, retries, seen) && shown(t) == earlier)
      || StillWaits(t, c, earlier, from, retries, seen)
    }

    /** The answer to a call with effect `e`, unless it begins to wait. */
    static function AnswerTo(e: Event, c: Call): Option<Answer> {
      match e
      case SendMeets(_, _, _) => Some(SentOk)
      case RecvMeets(_, _, m) => Some(Got(m))
      case SendLeaves(_, _) => Some(WouldBlock(c.m))
      case RecvLeaves(_) => Some(WouldBlock(c.m))
      case SendRefused(_, _) => Some(Closed(c.m))
      case RecvRefused(_) => Some(Closed(c.m))
      case _ => None
    }

    /** The one effect of a call that answers `a`. */
    static predicate Effect(e: Event, t: nat, c: Call, a: Answer) {
      || (MetBy(e, t, c) && a == if e.RecvMeets? then Got(e.m) else SentOk)
      || Verdict(e, t, c, a)
      || (Waits(e, t, c) && c.block && !a.WouldBlock?)
    }

    method Begin(t: nat, c: Call)
      requires Valid() && t < |threads| && threads[t] == Idle && CallOk(c)
      modifies this
      ensures old(run) < run && |run| == |old(run)| + 1
      ensures Valid() && t < |threads| == old(|threads|) && threads[t] == Lock(c)
      ensures shown(t) == old(shown(t)) && returned(t) == old(returned(t))
    {
      var before := Memory();
      Follow(t, Start(c), before, Lock(c), Nothing, Tau, []);
    }

    /** `try_send`: on its own, with the lock free, it goes to the receiver that has waited longest. */
    method TrySend(t: nat, m: Msg, retries: nat) returns (a: Option<Answer>, ghost seen: seq<nat>)
      requires Valid() && t < |threads| && threads[t] == Idle
      modifies this
      ensures old(run) < run
      ensures Valid() && t < |threads|
      ensures a.Some? ==> threads[t] == Idle && match a.value
        case SentOk => returned(t) == old(returned(t)) + [Token(Sender, m)]
                       && exists r :: shown(t) == old(shown(t)) + [SendMeets(t, m, r)]
        case Closed(back) => back == Some(m) && returned(t) == old(returned(t)) && shown(t) == old(shown(t)) + [SendRefused(t, m)]
        case WouldBlock(back) => back == Some(m) && returned(t) == old(returned(t)) && shown(t) == old(shown(t)) + [SendLeaves(t, m)]
        case _ => false
      ensures a.None? ==> GaveUp(t, Lock(Call(Sender, Some(m), false)), |old(sched)|, retries, seen)
                          && shown(t) == old(shown(t)) && returned(t) == old(returned(t))
      ensures !old(locked) && Undisturbed(t, |old(sched)|) && retries > 0 ==>
        a == Some(if old(Abs(now)).closed then Closed(Some(m))
                  else if old(Abs(now)).receivers != [] then SentOk else WouldBlock(Some(m)))
    {
      a, seen := Perform(t, Call(Sender, Some(m), false), retries);
    }

    /** `_send`: Ok exactly if one receive was given the message; otherwise the message comes back. */
    method Send(t: nat, m: Msg, retries: nat) returns (a: Option<Answer>, ghost seen: seq<nat>)
      requires Valid() && t < |threads| && threads[t] == Idle
      modifies this
      ensures old(run) < run
      ensures Valid() && t < |threads|
      ensures a.Some? ==> threads[t] == Idle && match a.value
        case SentOk => returned(t) == old(returned(t)) + [Token(Sender, m)]
        case Closed(back) => back == Some(m) && returned(t) == old(returned(t))
        case _ => false
      ensures a.Some? ==> exists e :: Effect(e, t, Call(Sender, Some(m), true), a.value) && shown(t) == old(shown(t)) + [e]
      ensures a.None? ==> Spins(t, Call(Sender, Some(m), true), old(shown(t)), |old(sched)|, retries, seen)
                          && returned(t) == old(returned(t))
      ensures !old(locked) && Undisturbed(t, |old(sched)|) && retries > 0 ==>
        shown(t) == old(shown(t)) + [Calm.HallAnswer(old(Abs(now)), t, Call(Sender, Some(m), true))]
      ensures !old(locked) && Undisturbed(t, |old(sched)|) && retries > 0 && (old(Abs(now)).closed || old(Abs(now)).receivers != []) ==>
        a == Some(if old(Abs(now)).closed then Closed(Some(m)) else SentOk)
    {
      a, seen := Perform(t, Call(Sender, Some(m), true), retries);
    }

    /** `try_recv`: on its own, with the lock free, it takes from the sender that has waited longest. */
    method TryRecv(t: nat, retries: nat) returns (a: Option<Answer>, ghost seen: seq<nat>)
      requires Valid() && t < |threads| && threads[t] == Idle
      modifies this
      ensures old(run) < run
      ensures Valid() && t < |threads|
      ensures a.Some? ==> threads[t] == Idle && match a.value
        case Got(m) => returned(t) == old(returned(t)) + [Token(Receiver, m)]
                       && exists s :: shown(t) == old(shown(t)) + [RecvMeets(t, s, m)]
        case Closed(_) => returned(t) == old(returned(t)) && shown(t) == old(shown(t)) + [RecvRefused(t)]
        case WouldBlock(_) => returned(t) == old(returned(t)) && shown(t) == old(shown(t)) + [RecvLeaves(t)]
        case _ => false
      ensures a.None? ==> GaveUp(t, Lock(Call(Receiver, None, false)), |old(sched)|, retries, seen)
                          && shown(t) == old(shown(t)) && returned(t) == old(returned(t))
      ensures !old(locked) && Undisturbed(t, |old(sched)|) && retries > 0 ==>
        a == Some(if old(Abs(now)).closed then Closed(None) else match FirstLetter(old(Abs(now)))
                  case Some(m) => Got(m) case None => WouldBlock(None))
    {
      a, seen := Perform(t, Call(Receiver, None, false), retries);
    }

    /** What the sender that has waited longest brings. */
    static function FirstLetter(h: Hall): Option<Msg> { if h.senders == [] then None else h.senders[0].m }

    /** `recv`: a message it was dealt, or none and the channel is disconnected. */
    method Recv(t: nat, retries: nat) returns (a: Option<Answer>, ghost seen: seq<nat>)
      requires Valid() && t < |threads| && threads[t] == Idle
      modifies this
      ensures old(run) < run
      ensures Valid() && t < |threads|
      ensures a.Some? ==> threads[t] == Idle && match a.value
        case Got(m) => returned(t) == old(returned(t)) + [Token(Receiver, m)]
        case Closed(_) => returned(t) == old(returned(t))
        case _ => false
      ensures a.Some? ==> exists e :: Effect(e, t, Call(Receiver, None, true), a.value) && shown(t) == old(shown(t)) + [e]
      ensures a.None? ==> Spins(t, Call(Receiver, None, true), old(shown(t)), |old(sched)|, retries, seen)
                          && returned(t) == old(returned(t))
      ensures !old(locked) && Undisturbed(t, |old(sched)|) && retries > 0 ==>
        shown(t) == old(shown(t)) + [Calm.HallAnswer(old(Abs(now)), t, Call(Receiver, None, true))]
      ensures !old(locked) && Undisturbed(t, |old(sched)|) && retries > 0 && (old(Abs(now)).closed || FirstLetter(old(Abs(now))).Some?) ==>
        a == Some(if old(Abs(now)).closed then Closed(None) else Got(FirstLetter(old(Abs(now))).value))
    {
      a, seen := Perform(t, Call(Receiver, None, true), retries);
    }

    // ---- shutdown ----

    method SetDisconnected(t: nat) returns (first: bool)
      requires Valid() && t < |threads| && threads[t] == CloseSet
      modifies this
      ensures old(run) < run
      ensures Valid() && t < |threads| && threads[t] == if first then CloseMark(Sender, 0) else CloseUnlock(false)
      ensures shown(t) == old(shown(t)) + [Close(first)] && returned(t) == old(returned(t))
    {
      Environment(t);
      var before := Memory();
      first := !disconnected;
      disconnected := true;
      Follow(t, Go, before, if first then CloseMark(Sender, 0) else CloseUnlock(false), Nothing, Close(first), []);
    }

    /** The contexts of the first `n` entries that were waiting are Disconnected; no other context is touched. */
    static ghost predicate MarkedTo(q: seq<Entry>, n: nat, cxs: seq<Context>, cxs': seq<Context>) {
      && |cxs'| == |cxs|
      && (forall u :: 0 <= u < |cxs| && Among(q, n, u) && cxs[u].select.Waiting? ==> cxs'[u] == Context(Disconnected, cxs[u].packet))
      && (forall u :: 0 <= u < |cxs| && !(Among(q, n, u) && cxs[u].select.Waiting?) ==> cxs'[u] == cxs[u])
    }

    static ghost predicate Among(q: seq<Entry>, n: nat, u: nat) { exists i :: 0 <= i < |q| && i < n && q[i].cx == u }

    static function MarkedOne(cxs: seq<Context>, u: nat): seq<Context> {
      if u < |cxs| && cxs[u].select.Waiting? then cxs[u := Context(Disconnected, cxs[u].packet)] else cxs
    }

    static lemma MarkedNext(q: seq<Entry>, i: nat, cxs: seq<Context>, cxs': seq<Context>)
      requires MarkedTo(q, i, cxs, cxs') && i < |q|
      ensures MarkedTo(q, i + 1, cxs, MarkedOne(cxs', q[i].cx))
    {
      assert Among(q, i + 1, q[i].cx);
    }

    method Mark(t: nat, side: Side, i: nat)
      requires Valid() && t < |threads| && threads[t] == CloseMark(side, i) && i < |Queue(Memory(), side)|
      modifies this
      ensures old(run) < run
      ensures Valid() && t < |threads| && threads[t] == CloseMark(side, i + 1)
      ensures shown(t) == old(shown(t)) && returned(t) == old(returned(t))
      ensures senders == old(senders) && receivers == old(receivers)
      ensures i < |Queue(Memory(), side)| && contexts == MarkedOne(old(contexts), Queue(Memory(), side)[i].cx)
    {
      Environment(t);
      NoCrash(t);
      var before := Memory();
      var cx := Queue(before, side)[i].cx;
      if contexts[cx].select.Waiting? {
        contexts := contexts[cx := Context(Disconnected, contexts[cx].packet)];
      }
      Silently(t, before, CloseMark(side, i + 1));
    }

    /**
     `disconnect` on one queue: exactly the entries still waiting become
     Disconnected, and none is removed.
     */
    method MarkAll(t: nat, side: Side)
      requires Valid() && t < |threads| && threads[t] == CloseMark(side, 0)
      modifies this
      ensures old(run) < run
      ensures Valid() && t < |threads| && threads[t] == if side.Sender? then CloseMark(Receiver, 0) else CloseUnlock(true)
      ensures senders == old(senders) && receivers == old(receivers)
      ensures MarkedTo(Queue(Memory(), side), |Queue(Memory(), side)|, old(contexts), contexts)
      ensures shown(t) == old(shown(t)) && returned(t) == old(returned(t))
    {
      var q, i := Queue(Memory(), side), 0;
      ghost var cxs := contexts;
      while i < |q|
        invariant Valid() && t < |threads| && threads[t] == CloseMark(side, i) && old(run) <= run
        invariant shown(t) == old(shown(t)) && returned(t) == old(returned(t))
        invariant senders == old(senders) && receivers == old(receivers) && i <= |q|
        invariant MarkedTo(q, i, cxs, contexts)
      {
        MarkedNext(q, i, cxs, contexts);
        Mark(t, side, i);
        i := i + 1;
      }
      EndMarks(t, side, i);
    }

    method EndMarks(t: nat, side: Side, i: nat)
      requires Valid() && t < |threads| && threads[t] == CloseMark(side, i) && i >= |Queue(Memory(), side)|
      modifies this
      ensures old(run) < run
      ensures Valid() && t < |threads| && threads[t] == if side.Sender? then CloseMark(Receiver, 0) else CloseUnlock(true)
      ensures SameQueues(old(Memory()), Memory())
      ensures shown(t) == old(shown(t)) && returned(t) == old(returned(t))
    {
      var before := Memory();
      Silently(t, before, if side.Sender? then CloseMark(Receiver, 0) else CloseUnlock(true));
    }

    method EndClose(t: nat, first: bool)
      requires Valid() && t < |threads| && threads[t] == CloseUnlock(first)
      modifies this
      ensures old(run) < run
      ensures Valid() && t < |threads| && threads[t] == Idle
      ensures shown(t) == old(shown(t)) && returned(t) == old(returned(t))
    {
      Environment(t);
      var before := Memory();
      locked := false;
      Follow(t, Go, before, Idle, Shut(first), Tau, []);
    }

    /** `shutdown`: the answer is whether this call disconnected the channel. */
    method ShutDown(t: nat, retries: nat) returns (first: Option<bool>, ghost seen: seq<nat>)
      requires Valid() && t < |threads| && threads[t] == Idle
      modifies this
      ensures old(run) < run
      ensures Valid() && t < |threads| && returned(t) == old(returned(t))
      ensures first.Some? ==> threads[t] == Idle && shown(t) == old(shown(t)) + [Close(first.value)]
      ensures first.None? ==> shown(t) == old(shown(t)) && GaveUp(t, CloseLock, |old(sched)|, retries, seen)
      ensures !old(locked) && Undisturbed(t, |old(sched)|) && retries > 0 ==> first.Some?
    {
      Present();
      ghost var n, s := |sched|, now;
      first := None;
      BeginClose(t);
      Present();
      var ok;
      ok, seen := Acquire(t, retries);
      if ok {
        var done := Disconnect(t);
        first := Some(done);
      } else if !s.mem.locked && Undisturbed(t, n) && retries > 0 {
        NoSpin(t, n);
        FoundFree(t, CloseLock, n + 1, retries, seen);
      }
    }

    method BeginClose(t: nat)
      requires Valid() && t < |threads| && threads[t] == Idle
      modifies this
      ensures old(run) < run && |run| == |old(run)| + 1
      ensures Valid() && t < |threads| == old(|threads|) && threads[t] == CloseLock
      ensures shown(t) == old(shown(t)) && returned(t) == old(returned(t))
    {
      var before := Memory();
      Follow(t, Shutdown, before, CloseLock, Nothing, Tau, []);
    }

    method Disconnect(t: nat) returns (first: bool)
      requires Valid() && t < |threads| && threads[t] == CloseSet
      modifies this
      ensures old(run) < run
      ensures Valid() && t < |threads| && threads[t] == Idle
      ensures shown(t) == old(shown(t)) + [Close(first)] && returned(t) == old(returned(t))
    {
      first := SetDisconnected(t);
      if first {
        MarkBoth(t);
      }
      EndClose(t, first);
    }

    method MarkBoth(t: nat)
      requires Valid() && t < |threads| && threads[t] == CloseMark(Sender, 0)
      modifies this
      ensures old(run) < run
      ensures Valid() && t < |threads| && threads[t] == CloseUnlock(true)
      ensures shown(t) == old(shown(t)) && returned(t) == old(returned(t))
    {
      MarkAll(t, Sender);
      MarkAll(t, Receiver);
    }
  }
}
