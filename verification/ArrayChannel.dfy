/**
 The bounded channel (src/array.rs) as a class over an array of slots, its
 operations in the shape of the original. Between any two atomic accesses the
 other threads may run (`Environment`); every access is one step of the protocol,
 so the object's history is a protocol run and all that is proved about runs
 holds of it. A retry loop is given a number of retries; when they are used up
 the operation answers `Busy`, with the thread still inside its loop.
 */
module ArrayChannel {
  import opened Common
  import opened Fifo
  import opened ArrayWords
  import opened ArrayProtocol
  import opened ArrayInvariant
  import opened ArrayTheorems
  import opened ArrayDelivery
  import opened ArrayHistory
  import opened ArrayQueries
  import opened ArraySteps
  import opened ArrayCalm
  import Solo = ArraySolo

  /** The token (a slot and the stamp to store), or why there is none. */
  datatype Reserved = Granted(i: nat, stamp: nat) | Disconnected | NotReady | Busy

  class Channel {
    const layout: Config
    var head: nat
    var tail: nat
    const buffer: array<Slot>
    /** Where every thread is. The operations only keep it up to date. */
    var threads: seq<Pc>
    ghost var run: seq<State>
    ghost var sched: Schedule
    ghost var now: State
    /** What each thread has shown so far, and what it has dequeued and not returned. */
    ghost var shown: nat -> seq<Event>
    ghost var owed: nat -> seq<Msg>

    function Memory(): Mem
      reads this, buffer
    {
      Mem(head, tail, buffer[..])
    }

    /**
     The object is in the last state of the run it has gone through, but for an
     access that changed the memory from `mem` and is not recorded yet.
     */
    ghost predicate Recorded(mem: Mem)
      reads `run, `sched, `now, `threads, `shown, `owed
    {
      && Past(layout, run, sched, now, shown, owed) && now.mem == mem && now.threads == threads
      && buffer.Length == layout.cap && |mem.slots| == layout.cap
    }

    ghost predicate Valid()
      reads this, buffer
    {
      Recorded(Memory())
    }

    /** `with_capacity`, for `n` threads. The original panics on capacity 0. */
    constructor WithCapacity(cap: nat, n: nat)
      requires cap > 0
      ensures Valid() && layout == ArrayWords.WithCapacity(cap) && fresh(buffer)
      ensures threads == seq(n, _ => Idle) && run == [now] && sched == []
      ensures Abs(layout, now) == EMPTY && forall t :: shown(t) == []
    {
      var c := ArrayWords.WithCapacity(cap);
      var b := new Slot[cap](i => Slot(0, None));
      var i := 0;
      while i < cap
        invariant i <= cap && forall j :: 0 <= j < i ==> b[j] == Slot(j, None)
      {
        b[i] := Slot(i, None);
        i := i + 1;
      }
      layout, head, tail, buffer, threads := c, 0, 0, b, seq(n, _ => Idle);
      ghost var s := State(Mem(0, 0, b[..]), seq(n, _ => Idle), false, Aux([], [], 0, map[]));
      FirstPast(c, s);
      StartsEmpty(c, s);
      run, sched, now := [s], [], s;
      shown, owed := (u: nat) => [], (u: nat) => [];
    }

    /**
     An access just made is the step of thread `t` from `before`, to `pc`; it
     shows `e`, and if it ends a receive it returns `paid`.
     */
    method Follow(t: nat, x: Choice, before: Mem, pc: Pc, ghost e: Event, ghost paid: Option<Msg>)
      requires Recorded(before) && t < |threads|
      requires Outcome(layout, before, now.aux, threads[t], x, Memory(), pc, e, paid)
      modifies `threads, `run, `sched, `now, `shown, `owed
      ensures Valid() && threads == old(threads)[t := pc] && old(run) < run && |run| == |old(run)| + 1
      ensures shown(t) == old(shown(t)) + Seen(e)
      ensures old(owed(t)) + DeqOf(e) == ListOf(paid) + owed(t)
      ensures forall u :: u != t ==> shown(u) == old(shown(u)) && owed(u) == old(owed(u))
    {
      ghost var mem := Memory();
      ghost var run', sched', now', shown', owed' :=
        Extend(layout, run, sched, now, shown, owed, t, x, mem, pc, e, paid);
      run, sched, now, shown, owed := run', sched', now', shown', owed';
      threads := threads[t := pc];
      assert Memory() == mem;
    }

    /** The same for a step that takes no effect on the queue and returns nothing. */
    method Silently(t: nat, x: Choice, before: Mem, pc: Pc)
      requires Recorded(before) && t < |threads|
      requires Outcome(layout, before, now.aux, threads[t], x, Memory(), pc, Tau, None)
      modifies `threads, `run, `sched, `now, `shown, `owed
      ensures Valid() && threads == old(threads)[t := pc] && old(run) < run && |run| == |old(run)| + 1
      ensures shown(t) == old(shown(t)) && owed(t) == old(owed(t))
    {
      Follow(t, x, before, pc, Tau, None);
      assert [] + owed(t) == owed(t) && old(owed(t)) + [] == old(owed(t));
    }

    /** The last state of the run is the present one. */
    lemma Present()
      requires Valid()
      ensures run[|run| - 1] == now && now.mem == Memory() && now.threads == threads
    {
      assert Unfold(0);
    }

    // ---- a call that nobody disturbs ----

    /** After the step with number `n` no other thread moves, and no CAS fails spuriously. */
    ghost predicate Undisturbed(t: nat, n: nat)
      reads `sched
    {
      forall k {:trigger sched[k]} :: n < k < |sched| ==> sched[k] == (t, Go)
    }

    /** The call that thread `t` began from rest, in state `n`, has not been disturbed. */
    ghost predicate Calmly(t: nat, n: nat)
      reads `run, `sched
    {
      && n + 1 < |run| && Quiet(run[n].threads) && t < |run[n].threads| == |run[n + 1].threads|
      && !run[n + 1].threads[t].Idle? && Undisturbed(t, n)
    }

    /** It is over before long. */
    lemma NotForEver(t: nat, n: nat)
      requires Valid() && t < |threads| && Calmly(t, n) && |sched| > n + 8
      ensures threads[t] == Idle
    {
      assert Unfold(0);
      Begins(layout, run, sched, t, n);
      Ends(layout, run, sched, t, n + 1);
    }

    /** A receive is told what the queue held when it began. */
    lemma Told(t: nat, n: nat)
      requires Valid() && t < |threads| && Calmly(t, n) && run[n + 1].threads[t] == RLoad && Solo.Ended(threads[t])
      ensures EndsWith(shown(t), RecvAnswer(Abs(layout, run[n])))
    {
      assert Unfold(0);
      Begins(layout, run, sched, t, n);
      RecvShows(layout, run, sched, t, n + 1, Abs(layout, run[n]), |sched|);
    }

    /** So is a send. */
    lemma ToldSender(t: nat, n: nat, m: Msg)
      requires Valid() && t < |threads| && Calmly(t, n) && run[n + 1].threads[t] == SLoad(m) && Solo.Ended(threads[t])
      ensures EndsWith(shown(t), SendAnswer(Some(layout.cap), Abs(layout, run[n]), m))
    {
      assert Unfold(0);
      Begins(layout, run, sched, t, n);
      SendShows(layout, run, sched, t, n + 1, m, Abs(layout, run[n]), |sched|);
    }

    /** A call has given up: it is inside its loop, after so many steps. */
    ghost predicate GaveUp(t: nat, from: nat, retries: nat)
      reads `run, `threads
    {
      t < |threads| && threads[t] != Idle && |run| > from + retries
    }

    /** The next step of a thread does not fault. */
    lemma NoCrash(t: nat)
      requires Valid() && t < |threads|
      ensures !MemStep(layout, Memory(), threads[t], Go).fault
    {
      assert Unfold(0);
      SafeStep(layout, run, sched, t, Go);
    }

    lemma PaysDebt(t: nat, before: Mem, m: Msg)
      requires Recorded(before) && t < |threads|
      requires Outcome(layout, before, now.aux, threads[t], Go, Memory(), Idle, Tau, Some(m))
      ensures owed(t) == [m]
    {
      assert Unfold(0);
      PaidDebt(layout, run, sched, t, Go, Memory(), m);
    }

    /** A CAS on the head that succeeds: the thread owes nothing, and takes a message. */
    lemma WillTake(t: nat)
      requires Valid() && t < |threads| && threads[t].RCas?
      requires MemStep(layout, Memory(), threads[t], Go).pc.RRead?
      ensures owed(t) == [] && EventIn(layout, Memory(), now.aux, threads[t], Go).Deq?
    {
      assert Unfold(0);
      TakesMessage(layout, run, sched, t, Go);
    }

    /** The words a thread saved point into the buffer. */
    lemma InBuffer(word: nat, t: nat)
      requires Valid() && t < |threads|
      requires threads[t] == RLoop(word) || (threads[t].SLoop? && threads[t].tail == word && !Marked(layout, word))
      ensures Index(layout, word) < buffer.Length
    {
      NoCrash(t);
    }

    // ---- the other threads ----

    /** Any steps of any threads other than `t`. */
    method Environment(t: nat)
      requires Valid() && t < |threads|
      modifies this, buffer
      ensures Valid() && |threads| == old(|threads|) && threads[t] == old(threads[t]) && old(run) <= run
      ensures shown(t) == old(shown(t)) && owed(t) == old(owed(t))
    {
      var n: nat := *;
      while n > 0
        invariant Valid() && |threads| == old(|threads|) && threads[t] == old(threads[t]) && old(run) <= run
        invariant shown(t) == old(shown(t)) && owed(t) == old(owed(t))
      {
        n := n - 1;
        var u: nat := *;
        var x: Choice := *;
        if u < |threads| && u != t {
          Other(u, x, t);
        }
      }
    }

    method Other(u: nat, x: Choice, ghost t: nat)
      requires Valid() && u < |threads| && u != t && t < |threads|
      modifies this, buffer
      ensures Valid() && |threads| == old(|threads|) && threads[t] == old(threads[t]) && old(run) <= run
      ensures shown(t) == old(shown(t)) && owed(t) == old(owed(t))
    {
      var before := Memory();
      var out := MemStep(layout, before, threads[u], x);
      Store(out.mem);
      ghost var e, paid := EventIn(layout, before, now.aux, threads[u], x), Returns(layout, before, threads[u], x);
      Follow(u, x, before, out.pc, e, paid);
    }

    method Store(mem: Mem)
      requires |mem.slots| == buffer.Length
      modifies `head, `tail, buffer
      ensures Memory() == mem
    {
      head, tail := mem.head, mem.tail;
      forall i | 0 <= i < buffer.Length {
        buffer[i] := mem.slots[i];
      }
      assert buffer[..] == mem.slots;
    }

    method StoreSlot(i: nat, x: Slot)
      requires i < buffer.Length
      modifies buffer
      ensures Memory() == SetSlot(old(Memory()), i, x)
    {
      buffer[i] := x;
      assert buffer[..] == old(buffer[..])[i := x];
    }

    /** The start of a call. */
    method Call(t: nat, x: Choice)
      requires Valid() && t < |threads| && threads[t] == Idle && !x.Shutdown?
      modifies this
      ensures Valid() && t < |threads| && old(run) < run && |run| == |old(run)| + 1
      ensures threads == old(threads)[t := CallStep(layout, Mem(0, 0, []), x).pc]
      ensures shown(t) == old(shown(t)) && owed(t) == old(owed(t))
    {
      var before := Memory();
      Silently(t, x, before, CallStep(layout, before, x).pc);
    }

    // ---- start_send ----

    method LoadTail(t: nat, m: Msg) returns (r: nat)
      requires Valid() && t < |threads| && threads[t] == SLoad(m)
      modifies this, buffer
      ensures old(run) < run
      ensures Valid() && t < |threads| && threads[t] == SLoop(m, r) && shown(t) == old(shown(t))
    {
      Environment(t);
      var before := Memory();
      r := tail;
      Silently(t, Go, before, SLoop(m, r));
    }

    /** The saved tail is marked: the channel is disconnected. */
    method Refuse(t: nat, m: Msg, saved: nat)
      requires Valid() && t < |threads| && threads[t] == SLoop(m, saved) && Marked(layout, saved)
      modifies this
      ensures old(run) < run
      ensures Valid() && t < |threads| && threads[t] == Idle && shown(t) == old(shown(t)) + [Reject]
    {
      var before := Memory();
      Follow(t, Go, before, Idle, Reject, None);
    }

    /** Where the stamp of the slot sends a sender. */
    function SendsTo(m: Msg, saved: nat, stamp: nat): Pc {
      if stamp == saved then SCas(m, saved)
      else if stamp + layout.lap == saved + 1 then SFull(m, saved)
      else SLoad(m)
    }

    method LoadSendStamp(t: nat, m: Msg, saved: nat) returns (stamp: nat)
      requires Valid() && t < |threads| && threads[t] == SLoop(m, saved) && !Marked(layout, saved)
      modifies this, buffer
      ensures old(run) < run
      ensures Valid() && t < |threads| && threads[t] == SendsTo(m, saved, stamp) && shown(t) == old(shown(t))
    {
      Environment(t);
      InBuffer(saved, t);
      var before := Memory();
      stamp := buffer[Index(layout, saved)].stamp;
      Silently(t, Go, before, SendsTo(m, saved, stamp));
    }

    method SwapTail(t: nat, m: Msg, saved: nat, newTail: nat)
      requires Valid() && t < |threads| && threads[t] == SCas(m, saved) && tail == saved
      requires newTail == Next(layout, saved)
      modifies this
      ensures old(run) < run
      ensures Valid() && t < |threads| && threads[t] == SWrite(Index(layout, saved), saved + 1, m)
      ensures shown(t) == old(shown(t)) + [Enq(m)]
    {
      var before := Memory();
      tail := newTail;
      Follow(t, Go, before, SWrite(Index(layout, saved), saved + 1, m), Enq(m), None);
    }

    method KeepTail(t: nat, x: Choice, m: Msg, saved: nat)
      requires Valid() && t < |threads| && threads[t] == SCas(m, saved) && (tail != saved || x.Spurious?)
      modifies this
      ensures old(run) < run
      ensures Valid() && t < |threads| && threads[t] == SLoop(m, old(tail)) && shown(t) == old(shown(t))
    {
      var before := Memory();
      Silently(t, x, before, SLoop(m, tail));
    }

    /** `compare_exchange_weak` on the tail; `found` is the value it saw. */
    method CasTail(t: nat, m: Msg, saved: nat, newTail: nat) returns (ok: bool, found: nat)
      requires Valid() && t < |threads| && threads[t] == SCas(m, saved) && newTail == Next(layout, saved)
      modifies this, buffer
      ensures old(run) < run
      ensures Valid() && t < |threads|
      ensures !ok ==> threads[t] == SLoop(m, found) && shown(t) == old(shown(t))
      ensures ok ==> threads[t] == SWrite(Index(layout, saved), saved + 1, m) && shown(t) == old(shown(t)) + [Enq(m)]
    {
      Environment(t);
      found := tail;
      var fails: bool := *;
      ok := tail == saved && !fails;
      if ok {
        SwapTail(t, m, saved, newTail);
      } else {
        KeepTail(t, if fails then Spurious else Go, m, saved);
      }
    }

    /** The head, one lap behind the saved tail, shows that the channel is full. */
    method LoadHeadIfFull(t: nat, m: Msg, saved: nat) returns (full: bool)
      requires Valid() && t < |threads| && threads[t] == SFull(m, saved)
      modifies this, buffer
      ensures old(run) < run
      ensures Valid() && t < |threads| && threads[t] == if full then Idle else SLoad(m)
      ensures shown(t) == if full then old(shown(t)) + [SawFull] else old(shown(t))
    {
      Environment(t);
      var before := Memory();
      full := head + layout.lap == saved;
      Follow(t, Go, before, if full then Idle else SLoad(m), if full then SawFull else Tau, None);
    }

    /** One turn of the loop; `Busy` asks for another, with `found` as the saved tail. */
    method IterateSend(t: nat, m: Msg, saved: nat) returns (r: Reserved, found: nat)
      requires Valid() && t < |threads| && threads[t] == SLoop(m, saved)
      modifies this, buffer
      ensures old(run) < run
      ensures Valid() && t < |threads|
      ensures Sent(t, m, r, old(shown(t))) && (r.Busy? ==> threads[t] == SLoop(m, found))
    {
      r, found := Busy, saved;
      if Marked(layout, saved) {
        Refuse(t, m, saved);
        r := Disconnected;
      } else {
        var stamp := LoadSendStamp(t, m, saved);
        if stamp == saved {
          var newTail, ok := Next(layout, saved), false;
          ok, found := CasTail(t, m, saved, newTail);
          if ok {
            r := Granted(Index(layout, saved), saved + 1);
          }
        } else if stamp + layout.lap == saved + 1 {
          r, found := CheckFull(t, m, saved);
        } else {
          found := LoadTail(t, m);
        }
      }
    }

    method CheckFull(t: nat, m: Msg, saved: nat) returns (r: Reserved, found: nat)
      requires Valid() && t < |threads| && threads[t] == SFull(m, saved)
      modifies this, buffer
      ensures old(run) < run
      ensures Valid() && t < |threads|
      ensures Sent(t, m, r, old(shown(t))) && (r.Busy? ==> threads[t] == SLoop(m, found))
    {
      var full := LoadHeadIfFull(t, m, saved);
      r, found := NotReady, saved;
      if !full {
        found := LoadTail(t, m);
        r := Busy;
      }
    }

    /** What `start_send` reports: the one effect of the call on the queue. */
    ghost predicate Sent(t: nat, m: Msg, r: Reserved, earlier: seq<Event>)
      reads `threads, `shown
    {
      t < |threads|
      && match r
         case Granted(i, stamp) => threads[t] == SWrite(i, stamp, m) && shown(t) == earlier + [Enq(m)]
         case Disconnected => threads[t] == Idle && shown(t) == earlier + [Reject]
         case NotReady => threads[t] == Idle && shown(t) == earlier + [SawFull]
         case Busy => shown(t) == earlier
    }

    /**
     `start_send`: a slot is granted exactly when the queue accepted `m`,
     `NotReady` when it was full at an instant within the call. Begun from rest and
     not disturbed, with enough retries, it is told what the queue held.
     */
    method StartSend(t: nat, m: Msg, retries: nat) returns (r: Reserved)
      requires Valid() && t < |threads| && threads[t] == Idle
      modifies this, buffer
      ensures old(run) < run && run[|old(run)|].threads == old(threads)[t := SLoad(m)]
      ensures Valid() && Sent(t, m, r, old(shown(t)))
      ensures r.Busy? ==> threads[t].SLoop? && GaveUp(t, |old(sched)|, retries)
      ensures Quiet(old(threads)) && Undisturbed(t, |old(sched)|) && retries > 8 ==>
        !r.Busy? && EndsWith(shown(t), SendAnswer(Some(layout.cap), old(Abs(layout, now)), m))
    {
      Present();
      ghost var n, s := |sched|, now;
      Call(t, Choice.Send(m));
      Present();
      r := ClaimOrGiveUp(t, m, retries);
      if Quiet(s.threads) && Undisturbed(t, n) {
        if retries > 8 && r.Busy? {
          NotForEver(t, n);
        } else if !r.Busy? {
          ToldSender(t, n, m);
        }
      }
    }

    /** The loop. */
    method ClaimOrGiveUp(t: nat, m: Msg, retries: nat) returns (r: Reserved)
      requires Valid() && t < |threads| && threads[t] == SLoad(m)
      modifies this, buffer
      ensures old(run) < run
      ensures Valid() && Sent(t, m, r, old(shown(t)))
      ensures r.Busy? ==> threads[t].SLoop? && GaveUp(t, |old(sched)|, retries)
    {
      var saved := LoadTail(t, m);
      var n := retries;
      r := Busy;
      while n > 0 && r.Busy?
        invariant Valid() && Sent(t, m, r, old(shown(t))) && (r.Busy? ==> threads[t] == SLoop(m, saved))
        invariant old(run) < run && n <= retries && (r.Busy? ==> |run| > |old(run)| + (retries - n))
      {
        n := n - 1;
        r, saved := IterateSend(t, m, saved);
      }
    }

    // ---- write ----

    method WriteMsg(t: nat, i: nat, stamp: nat, m: Msg)
      requires Valid() && t < |threads| && threads[t] == SWrite(i, stamp, m)
      modifies this, buffer
      ensures old(run) < run
      ensures Valid() && t < |threads| && threads[t] == SStamp(i, stamp) && shown(t) == old(shown(t))
    {
      NoCrash(t);
      var before := Memory();
      StoreSlot(i, Slot(buffer[i].stamp, Some(m)));
      Silently(t, Go, before, SStamp(i, stamp));
    }

    method StoreStamp(t: nat, i: nat, stamp: nat)
      requires Valid() && t < |threads| && threads[t] == SStamp(i, stamp)
      modifies this, buffer
      ensures old(run) < run
      ensures Valid() && t < |threads| && threads[t] == Idle && shown(t) == old(shown(t))
    {
      NoCrash(t);
      var before := Memory();
      StoreSlot(i, Slot(stamp, buffer[i].msg));
      Silently(t, Go, before, Idle);
    }

    /** `write`: the message goes into the slot, then the stamp. */
    method Write(t: nat, i: nat, stamp: nat, m: Msg)
      requires Valid() && t < |threads| && threads[t] == SWrite(i, stamp, m)
      modifies this, buffer
      ensures old(run) < run
      ensures Valid() && t < |threads| && threads[t] == Idle && shown(t) == old(shown(t))
    {
      Environment(t);
      WriteMsg(t, i, stamp, m);
      Environment(t);
      StoreStamp(t, i, stamp);
    }

    /**
     `try_send`: the four answers are what the queue said to this one message.
     Begun from rest and not disturbed, with enough retries, it is Ok if the queue is
     open and has room, NoCapacity if it is full, Closed if it is closed.
     */
    method TrySend(t: nat, m: Msg, retries: nat) returns (r: Reserved)
      requires Valid() && t < |threads| && threads[t] == Idle
      modifies this, buffer
      ensures old(run) < run
      ensures Valid() && t < |threads| && (r.Busy? || threads[t] == Idle)
      ensures shown(t) == old(shown(t)) + match r
                                          case Granted(_, _) => [Enq(m)]
                                          case Disconnected => [Reject]
                                          case NotReady => [SawFull]
                                          case Busy => []
      ensures r.Busy? ==> GaveUp(t, |old(sched)|, retries)
      ensures Quiet(old(threads)) && Undisturbed(t, |old(sched)|) && retries > 8 ==>
        match SendAnswer(Some(layout.cap), old(Abs(layout, now)), m)
        case Enq(_) => r.Granted?
        case SawFull => r.NotReady?
        case _ => r.Disconnected?
    {
      Present();
      ghost var n, s := |sched|, now;
      r := StartSend(t, m, retries);
      if r.Granted? {
        Write(t, r.i, r.stamp, m);
      }
      if Quiet(s.threads) && Undisturbed(t, n) && !r.Busy? {
        ToldSender(t, n, m);
      }
    }

    // ---- start_recv ----

    method LoadHead(t: nat) returns (r: nat)
      requires Valid() && t < |threads| && threads[t] == RLoad
      modifies this, buffer
      ensures old(run) < run
      ensures Valid() && t < |threads| && threads[t] == RLoop(r) && shown(t) == old(shown(t))
    {
      Environment(t);
      var before := Memory();
      r := head;
      Silently(t, Go, before, RLoop(r));
    }

    /** Where the stamp of the slot sends a receiver. */
    static function RecvsTo(saved: nat, stamp: nat): Pc {
      if stamp == saved + 1 then RCas(saved) else if stamp == saved then REmpty(saved) else RLoad
    }

    method LoadRecvStamp(t: nat, saved: nat) returns (stamp: nat)
      requires Valid() && t < |threads| && threads[t] == RLoop(saved)
      modifies this, buffer
      ensures old(run) < run
      ensures Valid() && t < |threads| && threads[t] == RecvsTo(saved, stamp) && shown(t) == old(shown(t))
    {
      Environment(t);
      InBuffer(saved, t);
      var before := Memory();
      stamp := buffer[Index(layout, saved)].stamp;
      Silently(t, Go, before, RecvsTo(saved, stamp));
    }

    method SwapHead(t: nat, saved: nat, newHead: nat)
      requires Valid() && t < |threads| && threads[t] == RCas(saved) && head == saved && newHead == Next(layout, saved)
      modifies this
      ensures old(run) < run
      ensures Valid() && t < |threads| && threads[t] == RRead(Index(layout, saved), saved + layout.lap)
      ensures |owed(t)| == 1 && shown(t) == old(shown(t)) + [Deq(owed(t)[0])]
    {
      WillTake(t);
      var before := Memory();
      head := newHead;
      ghost var e := EventIn(layout, before, now.aux, threads[t], Go);
      Follow(t, Go, before, RRead(Index(layout, saved), saved + layout.lap), e, None);
      assert DeqOf(e) == [e.m] && [] + owed(t) == owed(t);
    }

    method KeepHead(t: nat, x: Choice, saved: nat)
      requires Valid() && t < |threads| && threads[t] == RCas(saved) && (head != saved || x.Spurious?)
      modifies this
      ensures old(run) < run
      ensures Valid() && t < |threads| && threads[t] == RLoop(old(head)) && shown(t) == old(shown(t))
    {
      var before := Memory();
      Silently(t, x, before, RLoop(head));
    }

    /** `compare_exchange_weak` on the head. */
    method CasHead(t: nat, saved: nat, newHead: nat) returns (ok: bool, found: nat)
      requires Valid() && t < |threads| && threads[t] == RCas(saved) && newHead == Next(layout, saved)
      modifies this, buffer
      ensures old(run) < run
      ensures Valid() && t < |threads|
      ensures !ok ==> threads[t] == RLoop(found) && shown(t) == old(shown(t))
      ensures ok ==> threads[t] == RRead(Index(layout, saved), saved + layout.lap)
                     && |owed(t)| == 1 && shown(t) == old(shown(t)) + [Deq(owed(t)[0])]
    {
      Environment(t);
      found := head;
      var fails: bool := *;
      ok := head == saved && !fails;
      if ok {
        SwapHead(t, saved, newHead);
      } else {
        KeepHead(t, if fails then Spurious else Go, saved);
      }
    }

    /** The tail, equal to the saved head, shows that the channel is empty, and whether it is disconnected. */
    method LoadTailIfEmpty(t: nat, saved: nat) returns (r: Reserved)
      requires Valid() && t < |threads| && threads[t] == REmpty(saved)
      modifies this, buffer
      ensures old(run) < run
      ensures Valid() && t < |threads| && (r.Busy? ==> threads[t] == RLoad)
      ensures Received(t, r, old(shown(t))) && !r.Granted?
    {
      Environment(t);
      var before := Memory();
      r := if Strip(layout, tail) != saved then Busy else if Marked(layout, tail) then Disconnected else NotReady;
      Follow(t, Go, before, if r.Busy? then RLoad else Idle,
             if r.Busy? then Tau else if r.NotReady? then SawEmpty else SawClosed, None);
    }

    /** What `start_recv` reports: a claim of one message, or a verdict on the queue. */
    ghost predicate Received(t: nat, r: Reserved, earlier: seq<Event>)
      reads `threads, `shown, `owed
    {
      t < |threads|
      && match r
         case Granted(i, stamp) => threads[t] == RRead(i, stamp) && |owed(t)| == 1 && shown(t) == earlier + [Deq(owed(t)[0])]
         case NotReady => threads[t] == Idle && shown(t) == earlier + [SawEmpty]
         case Disconnected => threads[t] == Idle && shown(t) == earlier + [SawClosed]
         case Busy => shown(t) == earlier
    }

    /** One turn of the loop; `Busy` asks for another, with `found` as the saved head. */
    method IterateRecv(t: nat, saved: nat) returns (r: Reserved, found: nat)
      requires Valid() && t < |threads| && threads[t] == RLoop(saved)
      modifies this, buffer
      ensures old(run) < run
      ensures Valid() && t < |threads|
      ensures Received(t, r, old(shown(t))) && (r.Busy? ==> threads[t] == RLoop(found))
    {
      var stamp := LoadRecvStamp(t, saved);
      r, found := Busy, saved;
      if stamp == saved + 1 {
        var newHead, ok := Next(layout, saved), false;
        ok, found := CasHead(t, saved, newHead);
        if ok {
          r := Granted(Index(layout, saved), saved + layout.lap);
        }
      } else if stamp == saved {
        r := LoadTailIfEmpty(t, saved);
        if r.Busy? {
          found := LoadHead(t);
        }
      } else {
        found := LoadHead(t);
      }
    }

    /**
     `start_recv`: one dequeue, or a verdict. Begun from rest and not disturbed, with
     enough retries, it is told what the queue held.
     */
    method StartRecv(t: nat, retries: nat) returns (r: Reserved)
      requires Valid() && t < |threads| && threads[t] == Idle
      modifies this, buffer
      ensures old(run) < run && run[|old(run)|].threads == old(threads)[t := RLoad]
      ensures Valid() && Received(t, r, old(shown(t)))
      ensures r.Busy? ==> threads[t].RLoop? && GaveUp(t, |old(sched)|, retries)
      ensures Quiet(old(threads)) && Undisturbed(t, |old(sched)|) && retries > 8 ==>
        !r.Busy? && EndsWith(shown(t), RecvAnswer(old(Abs(layout, now))))
    {
      Present();
      ghost var n, s := |sched|, now;
      Call(t, Recv);
      Present();
      r := TakeOrGiveUp(t, retries);
      if Quiet(s.threads) && Undisturbed(t, n) {
        if retries > 8 && r.Busy? {
          NotForEver(t, n);
        } else if !r.Busy? {
          Told(t, n);
        }
      }
    }

    /** The loop. */
    method TakeOrGiveUp(t: nat, retries: nat) returns (r: Reserved)
      requires Valid() && t < |threads| && threads[t] == RLoad
      modifies this, buffer
      ensures old(run) < run
      ensures Valid() && Received(t, r, old(shown(t)))
      ensures r.Busy? ==> threads[t].RLoop? && GaveUp(t, |old(sched)|, retries)
    {
      var saved := LoadHead(t);
      var n := retries;
      r := Busy;
      while n > 0 && r.Busy?
        invariant Valid() && Received(t, r, old(shown(t))) && (r.Busy? ==> threads[t] == RLoop(saved))
        invariant old(run) < run && n <= retries && (r.Busy? ==> |run| > |old(run)| + (retries - n))
      {
        n := n - 1;
        r, saved := IterateRecv(t, saved);
      }
    }

    // ---- read ----

    method MoveMsg(t: nat, i: nat, stamp: nat) returns (m: Msg)
      requires Valid() && t < |threads| && threads[t] == RRead(i, stamp)
      modifies this, buffer
      ensures old(run) < run
      ensures Valid() && t < |threads| && threads[t] == RStamp(i, stamp, m)
      ensures shown(t) == old(shown(t)) && owed(t) == old(owed(t))
    {
      NoCrash(t);
      var before := Memory();
      m := buffer[i].msg.value;
      StoreSlot(i, Slot(buffer[i].stamp, None));
      Silently(t, Go, before, RStamp(i, stamp, m));
    }

    method ReleaseSlot(t: nat, i: nat, stamp: nat, m: Msg)
      requires Valid() && t < |threads| && threads[t] == RStamp(i, stamp, m)
      modifies this, buffer
      ensures old(run) < run
      ensures Valid() && t < |threads| && threads[t] == Idle
      ensures shown(t) == old(shown(t)) && old(owed(t)) == [m]
    {
      NoCrash(t);
      var before := Memory();
      StoreSlot(i, Slot(stamp, buffer[i].msg));
      PaysDebt(t, before, m);
      Follow(t, Go, before, Idle, Tau, Some(m));
    }

    /** `read`: the message returned is the one this thread dequeued. */
    method Read(t: nat, i: nat, stamp: nat) returns (m: Msg)
      requires Valid() && t < |threads| && threads[t] == RRead(i, stamp)
      modifies this, buffer
      ensures old(run) < run
      ensures Valid() && t < |threads| && threads[t] == Idle
      ensures shown(t) == old(shown(t)) && old(owed(t)) == [m]
    {
      Environment(t);
      m := MoveMsg(t, i, stamp);
      Environment(t);
      ReleaseSlot(t, i, stamp, m);
    }

    /**
     `try_recv`: a message returned is the message dequeued; otherwise a true verdict.
     Begun from rest and not disturbed, with enough retries, it answers with the
     front of the queue.
     */
    method TryRecv(t: nat, retries: nat) returns (r: Reserved, m: Option<Msg>)
      requires Valid() && t < |threads| && threads[t] == Idle
      modifies this, buffer
      ensures old(run) < run
      ensures Valid() && t < |threads| && (r.Busy? || threads[t] == Idle) && (m.Some? <==> r.Granted?)
      ensures shown(t) == old(shown(t)) + match r
                                          case Granted(_, _) => if m.Some? then [Deq(m.value)] else []
                                          case Disconnected => [SawClosed]
                                          case NotReady => [SawEmpty]
                                          case Busy => []
      ensures r.Busy? ==> GaveUp(t, |old(sched)|, retries)
      ensures Quiet(old(threads)) && Undisturbed(t, |old(sched)|) && retries > 8 ==>
        match RecvAnswer(old(Abs(layout, now)))
        case Deq(front) => m == Some(front)
        case SawClosed => r.Disconnected?
        case _ => r.NotReady?
    {
      Present();
      ghost var n, s := |sched|, now;
      m := None;
      r := StartRecv(t, retries);
      if r.Granted? {
        var x := Read(t, r.i, r.stamp);
        m := Some(x);
      }
      if Quiet(s.threads) && Undisturbed(t, n) && !r.Busy? {
        Told(t, n);
      }
    }

    // ---- shutdown ----

    /** `shutdown`: `fetch_or` of the mark on the tail; the answer is whether this call closed the channel. */
    method Shutdown(t: nat) returns (first: bool)
      requires Valid() && t < |threads| && threads[t] == Idle
      modifies this, buffer
      ensures old(run) < run
      ensures Valid() && t < |threads| && threads[t] == Idle
      ensures shown(t) == old(shown(t)) + [Close(first)]
    {
      Environment(t);
      var before := Memory();
      first := !Marked(layout, tail);
      tail := SetMark(layout, tail);
      Follow(t, Choice.Shutdown, before, Idle, Close(first), None);
    }

    // ---- len and is_full ----

    /** A load of the tail on behalf of `pc`, in state `i`. */
    method QueryTail(t: nat) returns (word: nat, ghost i: nat)
      requires Valid() && t < |threads| && (threads[t] == LLoadTail || threads[t] == FLoadTail)
      modifies this, buffer
      ensures Valid() && t < |threads| && shown(t) == old(shown(t)) && old(run) < run
      ensures threads[t] == if old(threads)[t] == LLoadTail then LLoadHead(word) else FLoadHead(word)
      ensures |old(run)| <= i + 1 <= |run| && run[i].mem.tail == word
    {
      Environment(t);
      Present();
      i := |run| - 1;
      var before := Memory();
      word := tail;
      Silently(t, Go, before, if threads[t] == LLoadTail then LLoadHead(word) else FLoadHead(word));
    }

    method QueryHead(t: nat, saved: nat) returns (word: nat, ghost i: nat)
      requires Valid() && t < |threads| && (threads[t] == LLoadHead(saved) || threads[t] == FLoadHead(saved))
      modifies this, buffer
      ensures Valid() && t < |threads| && shown(t) == old(shown(t)) && old(run) < run
      ensures threads[t] == if old(threads)[t] == LLoadHead(saved) then LCheck(saved, word) else Idle
      ensures |old(run)| <= i + 1 <= |run| && run[i].mem.head == word
    {
      Environment(t);
      Present();
      i := |run| - 1;
      var before := Memory();
      word := head;
      Silently(t, Go, before, if threads[t] == LLoadHead(saved) then LCheck(saved, word) else Idle);
    }

    method CheckTail(t: nat, saved: nat, savedHead: nat) returns (same: bool, ghost i: nat)
      requires Valid() && t < |threads| && threads[t] == LCheck(saved, savedHead)
      modifies this, buffer
      ensures Valid() && t < |threads| && threads[t] == if same then Idle else LLoadTail
      ensures shown(t) == old(shown(t)) && old(run) < run
      ensures |old(run)| <= i + 1 <= |run| && (same ==> run[i].mem.tail == saved)
    {
      Environment(t);
      Present();
      i := |run| - 1;
      var before := Memory();
      same := tail == saved;
      Silently(t, Go, before, if same then Idle else LLoadTail);
    }

    lemma LenHolds(i: nat, j: nat, k: nat)
      requires Valid() && i <= j <= k < |run| && run[i].mem.tail == run[k].mem.tail
      ensures LenOf(layout, run[i].mem.tail, run[j].mem.head) == |Abs(layout, run[j]).items| <= layout.cap
    {
      assert Unfold(0);
      LenAtAnInstant(layout, run, sched, i, j, k);
    }

    /** One turn of the loop. */
    method Measure(t: nat) returns (r: Option<int>, ghost j: nat)
      requires Valid() && t < |threads| && threads[t] == LLoadTail
      modifies this, buffer
      ensures Valid() && t < |threads| && threads[t] == if r.Some? then Idle else LLoadTail
      ensures shown(t) == old(shown(t)) && old(run) < run
      ensures r.Some? ==> |old(run)| <= j + 1 <= |run| && r.value == |Abs(layout, run[j]).items| <= layout.cap
    {
      var word, word', same;
      ghost var i, k;
      word, i := QueryTail(t);
      word', j := QueryHead(t, word);
      same, k := CheckTail(t, word, word');
      r := None;
      if same {
        LenHolds(i, j, k);
        r := Some(LenOf(layout, word, word'));
      }
    }

    /**
     `len`: the number of messages in a state `j` that the channel was in during the
     call. Begun from rest and not disturbed, with enough retries, it has an answer.
     */
    method Len(t: nat, retries: nat) returns (r: Option<int>, ghost j: nat)
      requires Valid() && t < |threads| && threads[t] == Idle
      modifies this, buffer
      ensures Valid() && t < |threads| && shown(t) == old(shown(t)) && old(run) < run
      ensures r.Some? ==> threads[t] == Idle && |old(run)| <= j + 1 <= |run|
                          && r.value == |Abs(layout, run[j]).items| <= layout.cap
      ensures r.None? ==> GaveUp(t, |old(sched)|, retries)
      ensures Quiet(old(threads)) && Undisturbed(t, |old(sched)|) && retries > 8 ==> r.Some?
    {
      Present();
      ghost var n, s := |sched|, now;
      Call(t, Choice.Len);
      Present();
      r, j := MeasureOrGiveUp(t, retries);
      if Quiet(s.threads) && Undisturbed(t, n) && retries > 8 && r.None? {
        NotForEver(t, n);
      }
    }

    /** The loop. */
    method MeasureOrGiveUp(t: nat, retries: nat) returns (r: Option<int>, ghost j: nat)
      requires Valid() && t < |threads| && threads[t] == LLoadTail
      modifies this, buffer
      ensures Valid() && t < |threads| && threads[t] == if r.Some? then Idle else LLoadTail
      ensures shown(t) == old(shown(t)) && old(run) <= run
      ensures r.Some? ==> |old(run)| <= j + 1 <= |run| && r.value == |Abs(layout, run[j]).items| <= layout.cap
      ensures r.None? ==> |run| >= |old(run)| + retries
    {
      var n := retries;
      r, j := None, 0;
      while n > 0 && r.None?
        invariant Valid() && t < |threads| && threads[t] == if r.Some? then Idle else LLoadTail
        invariant shown(t) == old(shown(t)) && old(run) <= run && n <= retries
        invariant r.None? ==> |run| >= |old(run)| + (retries - n)
        invariant r.Some? ==> |old(run)| <= j + 1 <= |run| && r.value == |Abs(layout, run[j]).items| <= layout.cap
      {
        n := n - 1;
        r, j := Measure(t);
      }
    }

    lemma IsFullHolds(i: nat, j: nat)
      requires Valid() && i <= j < |run|
      ensures FullOf(layout, run[i].mem.tail, run[j].mem.head) ==> IsFullIn(layout, run[j])
      ensures !FullOf(layout, run[i].mem.tail, run[j].mem.head) ==> exists k :: i <= k <= j && !IsFullIn(layout, run[k])
    {
      assert Unfold(0);
      IsFullAtAnInstant(layout, run, sched, i, j);
    }

    /** `is_full`: the answer is true of a state `k` that the channel was in during the call. */
    method IsFull(t: nat) returns (full: bool, ghost k: nat)
      requires Valid() && t < |threads| && threads[t] == Idle
      modifies this, buffer
      ensures Valid() && t < |threads| && threads[t] == Idle && shown(t) == old(shown(t)) && old(run) < run
      ensures |old(run)| <= k + 1 <= |run| && (full <==> IsFullIn(layout, run[k]))
    {
      Call(t, Choice.IsFull);
      var word, word';
      ghost var i;
      word, i := QueryTail(t);
      word', k := QueryHead(t, word);
      full := FullOf(layout, word, word');
      IsFullHolds(i, k);
      if !full {
        ghost var x :| i <= x <= k && !IsFullIn(layout, run[x]);
        k := x;
      }
    }

    // ---- drop ----

    /** What holds of the object when no call is under way. */
    lemma AtRest()
      requires Valid() && Quiet(threads)
      ensures Standing(layout, now, buffer[..], now.aux.taken) && now.aux.taken <= |now.aux.log| && Index(layout, head) == At(layout, now.aux.taken)
      ensures LenOf(layout, tail, head) == |now.aux.log| - now.aux.taken
      ensures Abs(layout, now).items == now.aux.log[now.aux.taken..]
      ensures Enqueued(Trace(layout, run, sched)) == Dequeued(Trace(layout, run, sched)) + Abs(layout, now).items
      ensures forall t :: owed(t) == []
    {
      assert Unfold(0);
      Always(layout, run, sched, |sched|);
      DropStart(layout, now);
      ArrayIsFifo(layout, run, sched);
    }

    /** Takes the message out of a slot, where there must be one. */
    method DropMessage(i: nat) returns (m: Msg)
      requires i < buffer.Length && buffer[i].msg.Some?
      modifies buffer
      ensures m == old(buffer[i].msg.value)
      ensures buffer[..] == old(buffer[..])[i := Slot(old(buffer[i].stamp), None)]
    {
      m := buffer[i].msg.value;
      buffer[i] := Slot(buffer[i].stamp, None);
    }

    /** One turn: the slot `i` places after the head. */
    method DropAt(ghost s: State, hix: nat, i: nat) returns (m: Msg)
      requires Standing(layout, s, buffer[..], s.aux.taken + i) && s.aux.taken + i < |s.aux.log|
      requires hix == At(layout, s.aux.taken)
      modifies buffer
      ensures Standing(layout, s, buffer[..], s.aux.taken + i + 1) && m == s.aux.log[s.aux.taken + i]
    {
      ghost var n, slots := s.aux.taken + i, buffer[..];
      assert Unfold(0);
      AtShift(layout, s.aux.taken, i);
      var index := if hix + i < layout.cap then hix + i else hix + i - layout.cap;
      assert slots[At(layout, n)].msg == Some(s.aux.log[n]);
      m := DropMessage(index);
      DropNext(layout, s, slots, n, buffer[..]);
    }

    /** The loop over all slots that hold a message. */
    method DropAll(ghost s: State, hix: nat, len: nat) returns (dropped: seq<Msg>)
      requires Standing(layout, s, buffer[..], s.aux.taken) && s.aux.taken <= |s.aux.log| && hix == At(layout, s.aux.taken)
      requires len == |s.aux.log| - s.aux.taken
      modifies buffer
      ensures dropped == s.aux.log[s.aux.taken..]
      ensures forall i :: 0 <= i < buffer.Length ==> buffer[i].msg.None?
    {
      dropped := [];
      var i := 0;
      while i < len
        invariant 0 <= i <= len && Standing(layout, s, buffer[..], s.aux.taken + i)
        invariant dropped == s.aux.log[s.aux.taken..s.aux.taken + i]
      {
        var m := DropAt(s, hix, i);
        dropped := dropped + [m];
        i := i + 1;
      }
      NoneLeft(layout, s, buffer[..]);
      forall i | 0 <= i < buffer.Length ensures buffer[i].msg.None? {
        assert buffer[..][i].msg.None?;
      }
    }

    /**
     `Drop`, run when no other call can be under way: drops the messages not
     yet received, each once and in order, and leaves none in the buffer. Over the
     whole life of the channel the messages accepted are those received and those
     dropped here.
     */
    method Drop() returns (dropped: seq<Msg>)
      requires Valid() && Quiet(threads)
      modifies buffer
      ensures dropped == Abs(layout, now).items
      ensures forall i :: 0 <= i < buffer.Length ==> buffer[i].msg.None?
      ensures |run| == |sched| + 1
      ensures Enqueued(Trace(layout, run, sched)) == Dequeued(Trace(layout, run, sched)) + dropped
      ensures forall t :: owed(t) == []
    {
      AtRest();
      dropped := DropAll(now, Index(layout, head), LenOf(layout, tail, head));
    }
  }
}
