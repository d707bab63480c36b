/**
 The unbounded channel (src/list.rs) as a class, its operations in the shape of
 the original. Between any two atomic accesses the other threads may run
 (`Environment`); every access is one step of the protocol, so the object's
 history is a protocol run and all that is proved about runs holds of it.
 A retry loop is given a number of retries; when they are used up the operation
 answers `Busy`, with the thread still inside its loop.
 */
module ListChannel {
  import opened Common
  import opened Fifo
  import opened ListProtocol
  import opened ListTheorems
  import opened ListDelivery
  import opened ListHistory
  import opened ListInvariant
  import opened ListReclaim
  import opened ListLen
  import opened ListDrop
  import opened ListCalm
  import Solo = ListSolo

  datatype Reserved = Granted(b: nat, j: nat) | Disconnected | Empty | Busy

  class Channel {
    var head: nat
    var tail: nat
    var headBlock: Ptr
    var tailBlock: Ptr
    var heap: seq<Block>
    /** Where every thread is. The operations only keep it up to date. */
    var threads: seq<Pc>
    ghost var run: seq<State>
    ghost var sched: Schedule
    ghost var now: State
    /** What each thread has shown so far, and what it has dequeued and not returned. */
    ghost var shown: nat -> seq<Event>
    ghost var owed: nat -> seq<Msg>

    function Memory(): Mem
      reads this
    {
      Mem(head, tail, headBlock, tailBlock, heap)
    }

    /**
     The object is in the last state of the run it has gone through, but for an
     access that changed the memory from `mem` and is not recorded yet.
     */
    ghost predicate Recorded(mem: Mem)
      reads `run, `sched, `now, `threads, `shown, `owed
    {
      Past(run, sched, now, shown, owed) && now.mem == mem && now.threads == threads
    }

    ghost predicate Valid()
      reads this
    {
      Recorded(Memory())
    }

    /** `new`, for `n` threads. */
    constructor New(n: nat)
      ensures Valid() && threads == seq(n, _ => Idle) && run == [now] && |sched| == |heap| == 0
      ensures Initial(now) && forall t :: shown(t) == []
    {
      ghost var s := NewState(n);
      headBlock, tailBlock, heap, threads := Null, Null, [], seq(n, _ => Idle);
      head, tail := 0, 0;
      run, sched, now := [s], [], s;
      shown, owed := (u: nat) => [], (u: nat) => [];
      new;
      FirstPast(run, sched, s, shown, owed);
    }

    /**
     An access just made is the step of thread `t` from `before`, to `pc`; it
     shows `e`, and if it ends a receive it returns `paid`.
     */
    method Follow(t: nat, c: Choice, before: Mem, pc: Pc, ghost e: Event, ghost paid: Option<Msg>)
      requires Recorded(before) && t < |threads|
      requires Outcome(before, now.aux.log, threads[t], c, Memory(), pc, e, paid)
      modifies `threads, `run, `sched, `now, `shown, `owed
      ensures Valid() && threads == old(threads)[t := pc] && old(run) < run && |run| == |old(run)| + 1
      ensures shown(t) == old(shown(t)) + Seen(e)
      ensures old(owed(t)) + DeqOf(e) == ListOf(paid) + owed(t)
      ensures forall u :: u != t ==> shown(u) == old(shown(u)) && owed(u) == old(owed(u))
    {
      ghost var mem := Memory();
      ghost var run', sched', now', shown', owed' := Extend(run, sched, now, shown, owed, t, c, mem, pc, e, paid);
      run, sched, now, shown, owed := run', sched', now', shown', owed';
      threads := threads[t := pc];
      assert Memory() == mem;
    }

    /** The last state of the run is the present one. */
    lemma Present()
      requires Valid()
      ensures run[|run| - 1] == now && now.mem == Memory() && now.threads == threads
    {
      assert Unfold(0);
    }

    // ---- a call that nobody disturbs ----

    /** After the step with number `n` no other thread moves, and no CAS fails spuriously. */
    ghost predicate Undisturbed(t: nat, n: nat)
      reads `sched
    {
      forall k {:trigger sched[k]} :: n < k < |sched| ==> sched[k] == (t, Go)
    }

    /** The call that thread `t` began from rest, in state `n`, has not been disturbed. */
    ghost predicate Calmly(t: nat, n: nat)
      reads `run, `sched
    {
      && n + 1 < |run| && Quiet(run[n].threads) && t < |run[n].threads| == |run[n + 1].threads|
      && !run[n + 1].threads[t].Idle? && Undisturbed(t, n)
    }

    /** It is over before long. */
    lemma NotForEver(t: nat, n: nat)
      requires Valid() && t < |threads| && Calmly(t, n) && |sched| > n + 77
      ensures threads[t] == Idle
    {
      assert Unfold(0);
      Begins(run, sched, t, n);
      Ends(run, sched, t, n + 1);
    }

    /** A receive is told what the queue held when it began. */
    lemma Told(t: nat, n: nat)
      requires Valid() && t < |threads| && Calmly(t, n) && run[n + 1].threads[t] == RLoadHead && Solo.Taken(threads[t])
      ensures EndsWith(shown(t), RecvAnswer(Abs(run[n])))
    {
      assert Unfold(0);
      Begins(run, sched, t, n);
      RecvShows(run, sched, t, n + 1, Abs(run[n]), |sched|);
    }

    /** So is a send. */
    lemma ToldSender(t: nat, n: nat, m: Msg)
      requires Valid() && t < |threads| && Calmly(t, n) && run[n + 1].threads[t] == SLoadTail(m, Null) && Solo.Sent(threads[t])
      ensures EndsWith(shown(t), SendAnswer(None, Abs(run[n]), m))
    {
      assert Unfold(0);
      Begins(run, sched, t, n);
      SendShows(run, sched, t, n + 1, m, Abs(run[n]), |sched|);
    }

    /**
     A call has given up: it has made so many steps, and if it spins, then what it
     waits for was not there in so many states of the call.
     */
    ghost predicate GaveUp(t: nat, from: nat, retries: nat, seen: seq<nat>)
      reads `run, `threads
    {
      && t < |threads| && threads[t] != Idle && |run| > from + retries
      && (threads[t].RWaitNext? || threads[t].RWaitWrite? ==> |seen| >= retries && Spun(run, from, t, threads[t], seen))
    }

    /** The next step of a thread does not fault. */
    lemma NoCrash(t: nat)
      requires Valid() && t < |threads|
      ensures !MemStep(Memory(), threads[t], Go).fault
    {
      assert Unfold(0);
      SafeStep(run, sched, t, Go);
    }

    lemma PaysDebt(t: nat, before: Mem, m: Msg)
      requires Recorded(before) && t < |threads|
      requires Outcome(before, now.aux.log, threads[t], Go, Memory(), Idle, Tau, Some(m))
      ensures owed(t) == [m]
    {
      assert Unfold(0);
      PaidDebt(run, sched, t, Go, Memory(), m);
    }

    /** A CAS on the head that succeeds: the thread owes nothing, and takes a message. */
    lemma WillTake(t: nat)
      requires Valid() && t < |threads| && threads[t].RCas?
      requires MemStep(Memory(), threads[t], Go).pc.RWaitWrite? || MemStep(Memory(), threads[t], Go).pc.RWaitNext?
      ensures owed(t) == [] && EventIn(Memory(), now.aux.log, threads[t], Go).Deq?
    {
      assert Unfold(0);
      TakesMessage(run, sched, t, Go);
    }

    /** The same for a step that takes no effect on the queue and returns nothing. */
    method Silently(t: nat, c: Choice, before: Mem, pc: Pc)
      requires Recorded(before) && t < |threads|
      requires Outcome(before, now.aux.log, threads[t], c, Memory(), pc, Tau, None)
      modifies `threads, `run, `sched, `now, `shown, `owed
      ensures Valid() && threads == old(threads)[t := pc] && old(run) < run && |run| == |old(run)| + 1
      ensures shown(t) == old(shown(t)) && owed(t) == old(owed(t))
    {
      Follow(t, c, before, pc, Tau, None);
      assert [] + owed(t) == owed(t) && old(owed(t)) + [] == old(owed(t));
    }

    /** The same for a step with which a receive returns `m`. */
    method Returning(t: nat, before: Mem, m: Msg)
      requires Recorded(before) && t < |threads|
      requires Outcome(before, now.aux.log, threads[t], Go, Memory(), Idle, Tau, Some(m))
      modifies `threads, `run, `sched, `now, `shown, `owed
      ensures old(run) < run
      ensures Valid() && threads == old(threads)[t := Idle]
      ensures shown(t) == old(shown(t)) && old(owed(t)) == [m]
    {
      PaysDebt(t, before, m);
      Follow(t, Go, before, Idle, Tau, Some(m));
      assert old(owed(t)) + [] == old(owed(t));
    }

    /** Any steps of any threads other than `t`. */
    method Environment(t: nat)
      requires Valid() && t < |threads|
      modifies this
      ensures Valid() && |threads| == old(|threads|) && threads[t] == old(threads[t]) && old(run) <= run
      ensures shown(t) == old(shown(t)) && owed(t) == old(owed(t))
    {
      var n: nat := *;
      while n > 0
        invariant Valid() && |threads| == old(|threads|) && threads[t] == old(threads[t]) && old(run) <= run
        invariant shown(t) == old(shown(t)) && owed(t) == old(owed(t))
      {
        n := n - 1;
        var u: nat := *;
        var c: Choice := *;
        if u < |threads| && u != t {
          Other(u, c, t);
        }
      }
    }

    method Other(u: nat, c: Choice, ghost t: nat)
      requires Valid() && u < |threads| && u != t && t < |threads|
      modifies this
      ensures Valid() && |threads| == old(|threads|) && threads[t] == old(threads[t]) && old(run) <= run
      ensures shown(t) == old(shown(t)) && owed(t) == old(owed(t))
    {
      var before := Memory();
      Store(MemStep(before, threads[u], c).mem);
      ghost var e, paid := EventIn(before, now.aux.log, threads[u], c), Returns(before, threads[u], c);
      Follow(u, c, before, MemStep(before, threads[u], c).pc, e, paid);
    }

    method Store(mem: Mem)
      modifies `head, `tail, `headBlock, `tailBlock, `heap
      ensures Memory() == mem
    {
      head, tail, headBlock, tailBlock, heap := mem.head, mem.tail, mem.headBlock, mem.tailBlock, mem.heap;
    }

    // ---- start_send ----

    method LoadTail(t: nat, m: Msg, nextBlock: Ptr) returns (r: nat)
      requires Valid() && t < |threads| && threads[t] == SLoadTail(m, nextBlock)
      modifies this
      ensures old(run) < run
      ensures Valid() && t < |threads| && threads[t] == SLoadBlock(m, nextBlock, r)
      ensures shown(t) == old(shown(t))
    {
      Environment(t);
      var before := Memory();
      r := tail;
      Silently(t, Go, before, SLoadBlock(m, nextBlock, r));
    }

    method LoadTailBlock(t: nat, m: Msg, nextBlock: Ptr, saved: nat) returns (r: Ptr)
      requires Valid() && t < |threads| && threads[t] == SLoadBlock(m, nextBlock, saved)
      modifies this
      ensures old(run) < run
      ensures Valid() && t < |threads| && threads[t] == SLoop(m, nextBlock, saved, r)
      ensures shown(t) == old(shown(t))
    {
      Environment(t);
      var before := Memory();
      r := tailBlock;
      Silently(t, Go, before, SLoop(m, nextBlock, saved, r));
    }

    /** Both loads, on entry and after a failure. */
    method Reload(t: nat, m: Msg, nextBlock: Ptr) returns (saved: nat, block: Ptr)
      requires Valid() && t < |threads| && threads[t] == SLoadTail(m, nextBlock)
      modifies this
      ensures old(run) < run
      ensures Valid() && t < |threads| && threads[t] == SLoop(m, nextBlock, saved, block)
      ensures shown(t) == old(shown(t))
    {
      saved := LoadTail(t, m, nextBlock);
      block := LoadTailBlock(t, m, nextBlock, saved);
    }

    /** The saved tail shows a block end: start over. */
    method Restart(t: nat, m: Msg, nextBlock: Ptr, saved: nat, block: Ptr)
      requires Valid() && t < |threads| && threads[t] == SLoop(m, nextBlock, saved, block)
      requires !Marked(saved) && Offset(saved) == 31
      modifies this
      ensures old(run) < run
      ensures Valid() && t < |threads| && threads[t] == SLoadTail(m, nextBlock)
      ensures shown(t) == old(shown(t))
    {
      var before := Memory();
      Silently(t, Go, before, SLoadTail(m, nextBlock));
    }

    method FreeBlock(b: nat)
      requires b < |heap|
      modifies `heap
      ensures Memory() == SetBlock(old(Memory()), b, old(heap)[b].(freed := true))
    {
      heap := heap[b := heap[b].(freed := true)];
    }

    /** The channel is disconnected: the spare block goes, and so does the operation. */
    method Refuse(t: nat, m: Msg, nextBlock: Ptr, saved: nat, block: Ptr)
      requires Valid() && t < |threads| && threads[t] == SLoop(m, nextBlock, saved, block) && Marked(saved)
      modifies this
      ensures old(run) < run
      ensures Valid() && t < |threads| && threads[t] == Idle
      ensures shown(t) == old(shown(t)) + [Reject]
    {
      NoCrash(t);
      var before := Memory();
      if nextBlock.At? {
        FreeBlock(nextBlock.id);
      }
      Follow(t, Go, before, Idle, Reject, None);
    }

    method AllocNext(t: nat, m: Msg, saved: nat, block: Ptr) returns (nextBlock: Ptr)
      requires Valid() && t < |threads| && threads[t] == SLoop(m, Null, saved, block)
      requires !Marked(saved) && Offset(saved) == 30
      modifies this
      ensures old(run) < run
      ensures Valid() && t < |threads| && nextBlock.At? && threads[t] == SLoop(m, nextBlock, saved, block)
      ensures shown(t) == old(shown(t))
    {
      Environment(t);
      var before := Memory();
      nextBlock := At(|heap|);
      heap := heap + [NewBlock()];
      Silently(t, Go, before, SLoop(m, nextBlock, saved, block));
    }

    /** `compare_and_swap` of a new block into `tail.block`. */
    method CasTailBlock(t: nat, m: Msg, nextBlock: Ptr, saved: nat) returns (b: nat, won: bool)
      requires Valid() && t < |threads| && threads[t] == SLoop(m, nextBlock, saved, Null)
      requires !Marked(saved) && Offset(saved) != 31 && !(Offset(saved) == 30 && nextBlock.Null?)
      modifies this
      ensures old(run) < run
      ensures Valid() && t < |threads|
      ensures threads[t] == if won then SStoreHead(m, nextBlock, saved, b) else SLoadTail(m, At(b))
      ensures shown(t) == old(shown(t))
    {
      Environment(t);
      NoCrash(t);
      var before := Memory();
      b := |heap|;
      heap := heap + [NewBlock()];
      won := tailBlock.Null?;
      if won {
        tailBlock := At(b);
      } else if nextBlock.At? {
        FreeBlock(nextBlock.id);
      }
      Silently(t, Go, before, if won then SStoreHead(m, nextBlock, saved, b) else SLoadTail(m, At(b)));
    }

    method StoreHeadBlock(t: nat, m: Msg, nextBlock: Ptr, saved: nat, b: nat)
      requires Valid() && t < |threads| && threads[t] == SStoreHead(m, nextBlock, saved, b)
      modifies this
      ensures old(run) < run
      ensures Valid() && t < |threads| && threads[t] == SLoop(m, nextBlock, saved, At(b))
      ensures shown(t) == old(shown(t))
    {
      Environment(t);
      var before := Memory();
      headBlock := At(b);
      Silently(t, Go, before, SLoop(m, nextBlock, saved, At(b)));
    }

    /** `compare_exchange_weak` on the tail index; `found` is the value it saw. */
    method CasTail(t: nat, m: Msg, nextBlock: Ptr, saved: nat, b: nat) returns (ok: bool, found: nat)
      requires Valid() && t < |threads| && threads[t] == SLoop(m, nextBlock, saved, At(b))
      requires !Marked(saved) && Offset(saved) != 31 && !(Offset(saved) == 30 && nextBlock.Null?)
      modifies this
      ensures old(run) < run
      ensures Valid() && t < |threads|
      ensures !ok ==> threads[t] == SLoadBlock(m, nextBlock, found) && shown(t) == old(shown(t))
      ensures ok && Offset(saved) != 30 ==> threads[t] == SDropSpare(m, nextBlock, b, Offset(saved))
      ensures ok && Offset(saved) == 30 ==> threads[t] == SStoreTailBlock(m, nextBlock.id, b)
      ensures ok ==> shown(t) == old(shown(t)) + [Enq(m)]
    {
      Environment(t);
      found := tail;
      var fails: bool := *;
      ok := tail == saved && !fails;
      if ok {
        SwapTail(t, m, nextBlock, saved, b);
      } else {
        KeepTail(t, if fails then Spurious else Go, m, nextBlock, saved, b);
      }
    }

    method SwapTail(t: nat, m: Msg, nextBlock: Ptr, saved: nat, b: nat)
      requires Valid() && t < |threads| && threads[t] == SLoop(m, nextBlock, saved, At(b)) && tail == saved
      requires !Marked(saved) && Offset(saved) != 31 && !(Offset(saved) == 30 && nextBlock.Null?)
      modifies this
      ensures old(run) < run
      ensures Valid() && t < |threads|
      ensures threads[t] == if Offset(saved) == 30 then SStoreTailBlock(m, nextBlock.id, b)
                            else SDropSpare(m, nextBlock, b, Offset(saved))
      ensures shown(t) == old(shown(t)) + [Enq(m)]
    {
      var before := Memory();
      tail := saved + 2;
      Follow(t, Go, before, if Offset(saved) == 30 then SStoreTailBlock(m, nextBlock.id, b)
                            else SDropSpare(m, nextBlock, b, Offset(saved)), Enq(m), None);
    }

    method KeepTail(t: nat, c: Choice, m: Msg, nextBlock: Ptr, saved: nat, b: nat)
      requires Valid() && t < |threads| && threads[t] == SLoop(m, nextBlock, saved, At(b))
      requires !Marked(saved) && Offset(saved) != 31 && !(Offset(saved) == 30 && nextBlock.Null?)
      requires tail != saved || c.Spurious?
      modifies this
      ensures old(run) < run
      ensures Valid() && t < |threads| && threads[t] == SLoadBlock(m, nextBlock, old(tail))
      ensures shown(t) == old(shown(t))
    {
      var before := Memory();
      Silently(t, c, before, SLoadBlock(m, nextBlock, tail));
    }

    /** The three stores that put the next block in place. */
    method Install(t: nat, m: Msg, spare: nat, b: nat)
      requires Valid() && t < |threads| && threads[t] == SStoreTailBlock(m, spare, b)
      modifies this
      ensures old(run) < run
      ensures Valid() && t < |threads| && threads[t] == SWriteMsg(m, b, 30)
      ensures shown(t) == old(shown(t))
    {
      StoreTailBlock(t, m, spare, b);
      MoveTail(t, m, spare, b);
    }

    method StoreTailBlock(t: nat, m: Msg, spare: nat, b: nat)
      requires Valid() && t < |threads| && threads[t] == SStoreTailBlock(m, spare, b)
      modifies this
      ensures old(run) < run
      ensures Valid() && t < |threads| && threads[t] == SBumpTail(m, spare, b)
      ensures shown(t) == old(shown(t))
    {
      Environment(t);
      var before := Memory();
      tailBlock := At(spare);
      Silently(t, Go, before, SBumpTail(m, spare, b));
    }

    method MoveTail(t: nat, m: Msg, spare: nat, b: nat)
      requires Valid() && t < |threads| && threads[t] == SBumpTail(m, spare, b)
      modifies this
      ensures old(run) < run
      ensures Valid() && t < |threads| && threads[t] == SWriteMsg(m, b, 30)
      ensures shown(t) == old(shown(t))
    {
      BumpTail(t, m, spare, b);
      StoreNext(t, m, spare, b);
    }

    method BumpTail(t: nat, m: Msg, spare: nat, b: nat)
      requires Valid() && t < |threads| && threads[t] == SBumpTail(m, spare, b)
      modifies this
      ensures old(run) < run
      ensures Valid() && t < |threads| && threads[t] == SStoreNext(m, spare, b)
      ensures shown(t) == old(shown(t))
    {
      Environment(t);
      var before := Memory();
      tail := tail + 2;
      Silently(t, Go, before, SStoreNext(m, spare, b));
    }

    method StoreNext(t: nat, m: Msg, spare: nat, b: nat)
      requires Valid() && t < |threads| && threads[t] == SStoreNext(m, spare, b)
      modifies this
      ensures old(run) < run
      ensures Valid() && t < |threads| && threads[t] == SWriteMsg(m, b, 30)
      ensures shown(t) == old(shown(t))
    {
      Environment(t);
      NoCrash(t);
      var before := Memory();
      heap := heap[b := heap[b].(next := At(spare))];
      Silently(t, Go, before, SWriteMsg(m, b, 30));
    }

    method DropNext(t: nat, m: Msg, nextBlock: Ptr, b: nat, j: nat)
      requires Valid() && t < |threads| && threads[t] == SDropSpare(m, nextBlock, b, j)
      modifies this
      ensures old(run) < run
      ensures Valid() && t < |threads| && threads[t] == SWriteMsg(m, b, j)
      ensures shown(t) == old(shown(t))
    {
      NoCrash(t);
      var before := Memory();
      if nextBlock.At? {
        FreeBlock(nextBlock.id);
      }
      Silently(t, Go, before, SWriteMsg(m, b, j));
    }

    method Call(t: nat, c: Choice)
      requires Valid() && t < |threads| && threads[t] == Idle && !c.Shutdown?
      modifies this
      ensures Valid() && t < |threads| && threads == old(threads)[t := CallStep(Mem(0, 0, Null, Null, []), c).pc]
      ensures |run| == |old(run)| + 1
      ensures shown(t) == old(shown(t)) && owed(t) == old(owed(t)) && old(run) < run
    {
      var before := Memory();
      Silently(t, c, before, CallStep(before, c).pc);
    }

    /** The end of a successful CAS: install the next block after the last slot. */
    method Finish(t: nat, m: Msg, nextBlock: Ptr, b: nat, offset: nat)
      requires Valid() && t < |threads|
      requires threads[t] == if offset + 1 == 31 && nextBlock.At? then SStoreTailBlock(m, nextBlock.id, b)
                             else SDropSpare(m, nextBlock, b, offset)
      requires offset + 1 == 31 ==> nextBlock.At?
      modifies this
      ensures old(run) < run
      ensures Valid() && t < |threads| && threads[t] == SWriteMsg(m, b, offset)
      ensures shown(t) == old(shown(t))
    {
      if offset + 1 == 31 {
        Install(t, m, nextBlock.id, b);
      } else {
        DropNext(t, m, nextBlock, b, offset);
      }
    }

    /** Once the block is known: the CAS on the tail, and a reload if it fails. */
    method Attempt(t: nat, m: Msg, nextBlock: Ptr, saved: nat, b: nat)
      returns (ok: bool, found: nat, block: Ptr)
      requires Valid() && t < |threads| && threads[t] == SLoop(m, nextBlock, saved, At(b))
      requires !Marked(saved) && Offset(saved) != 31 && !(Offset(saved) == 30 && nextBlock.Null?)
      modifies this
      ensures old(run) < run
      ensures Valid() && t < |threads|
      ensures ok ==> threads[t] == SWriteMsg(m, b, Offset(saved)) && shown(t) == old(shown(t)) + [Enq(m)]
      ensures !ok ==> threads[t] == SLoop(m, nextBlock, found, block) && shown(t) == old(shown(t))
    {
      ok, found := CasTail(t, m, nextBlock, saved, b);
      block := Null;
      if ok {
        Finish(t, m, nextBlock, b, Offset(saved));
      } else {
        block := LoadTailBlock(t, m, nextBlock, found);
      }
    }

    /** The race for the first block. */
    method FirstBlock(t: nat, m: Msg, nextBlock: Ptr, saved: nat) returns (won: bool, next': Ptr, found: nat, block: Ptr)
      requires Valid() && t < |threads| && threads[t] == SLoop(m, nextBlock, saved, Null)
      requires !Marked(saved) && Offset(saved) != 31 && !(Offset(saved) == 30 && nextBlock.Null?)
      modifies this
      ensures old(run) < run
      ensures Valid() && t < |threads| && threads[t] == SLoop(m, next', found, block)
      ensures won ==> block.At? && next' == nextBlock && found == saved
      ensures shown(t) == old(shown(t))
    {
      var b;
      b, won := CasTailBlock(t, m, nextBlock, saved);
      if won {
        StoreHeadBlock(t, m, nextBlock, saved, b);
        next', found, block := nextBlock, saved, At(b);
      } else {
        next' := At(b);
        found, block := Reload(t, m, next');
      }
    }

    /** Allocate the next block in advance; install the first block if there is none. */
    method Prepare(t: nat, m: Msg, nextBlock: Ptr, saved: nat, block: Ptr)
      returns (ready: bool, next': Ptr, found: nat, block': Ptr)
      requires Valid() && t < |threads| && threads[t] == SLoop(m, nextBlock, saved, block)
      requires !Marked(saved) && Offset(saved) != 31
      modifies this
      ensures old(run) <= run
      ensures Valid() && t < |threads| && threads[t] == SLoop(m, next', found, block')
      ensures ready ==> found == saved && block'.At? && !(Offset(saved) == 30 && next'.Null?)
      ensures !ready ==> old(run) < run
      ensures shown(t) == old(shown(t))
    {
      ready, next', found, block' := true, nextBlock, saved, block;
      if Offset(saved) + 1 == 31 && nextBlock.Null? {
        next' := AllocNext(t, m, saved, block);
      }
      if block.Null? {
        ready, next', found, block' := FirstBlock(t, m, next', saved);
      }
    }

    /** One turn of the loop in `start_send`; `Busy` asks for another. */
    method Iterate(t: nat, m: Msg, nextBlock: Ptr, saved: nat, block: Ptr)
      returns (r: Reserved, next': Ptr, found: nat, block': Ptr)
      requires Valid() && t < |threads| && threads[t] == SLoop(m, nextBlock, saved, block)
      modifies this
      ensures old(run) < run
      ensures Valid() && t < |threads| && !r.Empty?
      ensures r.Granted? ==> threads[t] == SWriteMsg(m, r.b, r.j) && shown(t) == old(shown(t)) + [Enq(m)]
      ensures r.Disconnected? ==> threads[t] == Idle && shown(t) == old(shown(t)) + [Reject]
      ensures r.Busy? ==> threads[t] == SLoop(m, next', found, block') && shown(t) == old(shown(t))
    {
      r, next', found, block' := Busy, nextBlock, saved, block;
      if Marked(saved) {
        Refuse(t, m, nextBlock, saved, block);
        r := Disconnected;
      } else if Offset(saved) == 31 {
        Restart(t, m, nextBlock, saved, block);
        found, block' := Reload(t, m, nextBlock);
      } else {
        var ready;
        ready, next', found, block' := Prepare(t, m, nextBlock, saved, block);
        if ready {
          var b, ok := block'.id, false;
          ok, found, block' := Attempt(t, m, next', saved, b);
          if ok {
            r := Granted(b, Offset(saved));
          }
        }
      }
    }

    /**
     `start_send`: the one effect of the call is that `m` is accepted (a slot is
     granted) or that it is refused (the channel is closed). Begun from rest and not
     disturbed, with enough retries, it is told which.
     */
    method StartSend(t: nat, m: Msg, retries: nat) returns (r: Reserved)
      requires Valid() && t < |threads| && threads[t] == Idle
      modifies this
      ensures old(run) < run && run[|old(run)|].threads == old(threads)[t := SLoadTail(m, Null)]
      ensures Valid() && t < |threads| && !r.Empty?
      ensures r.Granted? ==> threads[t] == SWriteMsg(m, r.b, r.j) && shown(t) == old(shown(t)) + [Enq(m)]
      ensures r.Disconnected? ==> threads[t] == Idle && shown(t) == old(shown(t)) + [Reject]
      ensures r.Busy? ==> threads[t].SLoop? && shown(t) == old(shown(t)) && GaveUp(t, |old(sched)|, retries, [])
      ensures Quiet(old(threads)) && Undisturbed(t, |old(sched)|) && retries > 77 ==>
        if old(Abs(now)).closed then r.Disconnected? else r.Granted?
    {
      Present();
      ghost var n, s := |sched|, now;
      Call(t, Choice.Send(m));
      Present();
      r := ClaimOrGiveUp(t, m, retries);
      if Quiet(s.threads) && Undisturbed(t, n) && retries > 77 {
        if r.Busy? {
          NotForEver(t, n);
        } else {
          ToldSender(t, n, m);
        }
      }
    }

    /** The loop. */
    method ClaimOrGiveUp(t: nat, m: Msg, retries: nat) returns (r: Reserved)
      requires Valid() && t < |threads| && threads[t] == SLoadTail(m, Null)
      modifies this
      ensures old(run) < run
      ensures Valid() && t < |threads| && !r.Empty?
      ensures r.Granted? ==> threads[t] == SWriteMsg(m, r.b, r.j) && shown(t) == old(shown(t)) + [Enq(m)]
      ensures r.Disconnected? ==> threads[t] == Idle && shown(t) == old(shown(t)) + [Reject]
      ensures r.Busy? ==> threads[t].SLoop? && shown(t) == old(shown(t)) && GaveUp(t, |old(sched)|, retries, [])
    {
      var nextBlock := Null;
      var saved, block := Reload(t, m, nextBlock);
      var n := retries;
      r := Busy;
      while n > 0 && r.Busy?
        invariant Valid() && t < |threads| && !r.Empty? && old(run) < run && n <= retries
        invariant r.Busy? ==> |run| > |old(run)| + (retries - n)
        invariant r.Granted? ==> threads[t] == SWriteMsg(m, r.b, r.j) && shown(t) == old(shown(t)) + [Enq(m)]
        invariant r.Disconnected? ==> threads[t] == Idle && shown(t) == old(shown(t)) + [Reject]
        invariant r.Busy? ==> threads[t] == SLoop(m, nextBlock, saved, block) && shown(t) == old(shown(t))
      {
        n := n - 1;
        r, nextBlock, saved, block := Iterate(t, m, nextBlock, saved, block);
      }
    }

    // ---- write ----

    /** `write`: the message goes into the slot, then WRITE is set. */
    method Write(t: nat, m: Msg, b: nat, j: nat)
      requires Valid() && t < |threads| && threads[t] == SWriteMsg(m, b, j)
      modifies this
      ensures old(run) < run
      ensures Valid() && t < |threads| && threads[t] == Idle
      ensures shown(t) == old(shown(t))
    {
      Environment(t);
      StoreMsg(t, m, b, j);
      Environment(t);
      SetWrite(t, b, j);
    }

    method StoreMsg(t: nat, m: Msg, b: nat, j: nat)
      requires Valid() && t < |threads| && threads[t] == SWriteMsg(m, b, j)
      modifies this
      ensures old(run) < run
      ensures Valid() && t < |threads| && threads[t] == SSetWrite(b, j)
      ensures shown(t) == old(shown(t))
    {
      NoCrash(t);
      var before := Memory();
      heap := heap[b := Block(heap[b].next, heap[b].slots[j := heap[b].slots[j].(msg := Some(m))], heap[b].freed)];
      Silently(t, Go, before, SSetWrite(b, j));
    }

    method SetWrite(t: nat, b: nat, j: nat)
      requires Valid() && t < |threads| && threads[t] == SSetWrite(b, j)
      modifies this
      ensures old(run) < run
      ensures Valid() && t < |threads| && threads[t] == Idle
      ensures shown(t) == old(shown(t))
    {
      NoCrash(t);
      var before := Memory();
      heap := heap[b := Block(heap[b].next, heap[b].slots[j := heap[b].slots[j].(write := true)], heap[b].freed)];
      Silently(t, Go, before, Idle);
    }

    /** `send`: Ok exactly when the message was accepted. */
    method Send(t: nat, m: Msg, retries: nat) returns (r: Reserved)
      requires Valid() && t < |threads| && threads[t] == Idle
      modifies this
      ensures old(run) < run
      ensures Valid() && t < |threads| && !r.Empty?
      ensures r.Granted? ==> threads[t] == Idle && shown(t) == old(shown(t)) + [Enq(m)]
      ensures r.Disconnected? ==> threads[t] == Idle && shown(t) == old(shown(t)) + [Reject]
      ensures r.Busy? ==> shown(t) == old(shown(t)) && GaveUp(t, |old(sched)|, retries, [])
      ensures Quiet(old(threads)) && Undisturbed(t, |old(sched)|) && retries > 77 ==>
        if old(Abs(now)).closed then r.Disconnected? else r.Granted?
    {
      Present();
      ghost var n, s := |sched|, now;
      r := StartSend(t, m, retries);
      if r.Granted? {
        Write(t, m, r.b, r.j);
      }
      if Quiet(s.threads) && Undisturbed(t, n) && !r.Busy? {
        ToldSender(t, n, m);
      }
    }

    // ---- start_recv ----

    method LoadHead(t: nat) returns (r: nat)
      requires Valid() && t < |threads| && threads[t] == RLoadHead
      modifies this
      ensures old(run) < run
      ensures Valid() && t < |threads| && threads[t] == RLoadBlock(r)
      ensures shown(t) == old(shown(t))
    {
      Environment(t);
      var before := Memory();
      r := head;
      Silently(t, Go, before, RLoadBlock(r));
    }

    method LoadHeadBlock(t: nat, saved: nat) returns (r: Ptr)
      requires Valid() && t < |threads| && threads[t] == RLoadBlock(saved)
      modifies this
      ensures old(run) < run
      ensures Valid() && t < |threads| && threads[t] == RLoop(saved, r)
      ensures shown(t) == old(shown(t))
    {
      Environment(t);
      var before := Memory();
      r := headBlock;
      Silently(t, Go, before, RLoop(saved, r));
    }

    method ReloadHead(t: nat) returns (saved: nat, block: Ptr)
      requires Valid() && t < |threads| && threads[t] == RLoadHead
      modifies this
      ensures old(run) < run
      ensures Valid() && t < |threads| && threads[t] == RLoop(saved, block)
      ensures shown(t) == old(shown(t))
    {
      saved := LoadHead(t);
      block := LoadHeadBlock(t, saved);
    }

    /** A turn that only goes back to loading the head: block end, or no block yet. */
    method RestartRecv(t: nat, saved: nat, newHead: nat, block: Ptr)
      requires Valid() && t < |threads|
      requires (threads[t] == RLoop(saved, block) && Offset(saved) == 31)
            || (threads[t] == RCas(saved, newHead, block) && block.Null?)
      modifies this
      ensures old(run) < run
      ensures Valid() && t < |threads| && threads[t] == RLoadHead
      ensures shown(t) == old(shown(t))
    {
      var before := Memory();
      Silently(t, Go, before, RLoadHead);
    }

    /** Without the hint, load the tail: is the channel empty, is the tail in a later block? */
    method Examine(t: nat, saved: nat, block: Ptr) returns (r: Reserved, newHead: nat)
      requires Valid() && t < |threads| && threads[t] == RLoop(saved, block) && Offset(saved) != 31
      modifies this
      ensures old(run) < run
      ensures Valid() && t < |threads| && !r.Granted?
      ensures r.Busy? ==> threads[t] == RCas(saved, newHead, block) && shown(t) == old(shown(t))
      ensures r.Empty? ==> threads[t] == Idle && shown(t) == old(shown(t)) + [SawEmpty]
      ensures r.Disconnected? ==> threads[t] == Idle && shown(t) == old(shown(t)) + [SawClosed]
    {
      Environment(t);
      r, newHead := Busy, saved + 2;
      if !Marked(newHead) {
        if Index(saved) == Index(tail) {
          r := if Marked(tail) then Disconnected else Empty;
        } else if Lap(saved) != Lap(tail) {
          newHead := newHead + 1;
        }
      }
      if r.Busy? {
        GoOn(t, saved, newHead, block);
      } else {
        FindNothing(t, saved, block);
      }
    }

    /** The tail is elsewhere, or known to be: try to claim the slot. */
    method GoOn(t: nat, saved: nat, newHead: nat, block: Ptr)
      requires Valid() && t < |threads| && threads[t] == RLoop(saved, block) && Offset(saved) != 31
      requires Marked(saved) || Index(saved) != Index(tail)
      requires newHead == saved + 2 + (if !Marked(saved) && Lap(saved) != Lap(tail) then 1 else 0)
      modifies this
      ensures old(run) < run
      ensures Valid() && t < |threads| && threads[t] == RCas(saved, newHead, block) && shown(t) == old(shown(t))
    {
      var before := Memory();
      Silently(t, Go, before, RCas(saved, newHead, block));
    }

    /** Head and tail are at the same index. */
    method FindNothing(t: nat, saved: nat, block: Ptr)
      requires Valid() && t < |threads| && threads[t] == RLoop(saved, block) && Offset(saved) != 31
      requires !Marked(saved) && Index(saved) == Index(tail)
      modifies this
      ensures old(run) < run
      ensures Valid() && t < |threads| && threads[t] == Idle
      ensures shown(t) == old(shown(t)) + [if Marked(old(tail)) then SawClosed else SawEmpty]
    {
      var before := Memory();
      Follow(t, Go, before, Idle, if Marked(tail) then SawClosed else SawEmpty, None);
    }

    method SwapHead(t: nat, saved: nat, newHead: nat, b: nat)
      requires Valid() && t < |threads| && threads[t] == RCas(saved, newHead, At(b)) && head == saved
      requires Offset(saved) != 31
      modifies this
      ensures old(run) < run
      ensures Valid() && t < |threads|
      ensures threads[t] == if Offset(saved) == 30 then RWaitNext(b, newHead) else RWaitWrite(b, Offset(saved))
      ensures |owed(t)| == 1 && shown(t) == old(shown(t)) + [Deq(owed(t)[0])]
    {
      WillTake(t);
      var before := Memory();
      head := newHead;
      ghost var e := EventIn(before, now.aux.log, threads[t], Go);
      Follow(t, Go, before, if Offset(saved) == 30 then RWaitNext(b, newHead) else RWaitWrite(b, Offset(saved)), e, None);
      assert DeqOf(e) == [e.m] && [] + owed(t) == owed(t);
    }

    method KeepHead(t: nat, c: Choice, saved: nat, newHead: nat, b: nat)
      requires Valid() && t < |threads| && threads[t] == RCas(saved, newHead, At(b)) && (head != saved || c.Spurious?)
      modifies this
      ensures old(run) < run
      ensures Valid() && t < |threads| && threads[t] == RLoadBlock(old(head))
      ensures shown(t) == old(shown(t))
    {
      var before := Memory();
      Silently(t, c, before, RLoadBlock(head));
    }

    /** `compare_exchange_weak` on the head index. */
    method CasHead(t: nat, saved: nat, newHead: nat, b: nat) returns (ok: bool, found: nat)
      requires Valid() && t < |threads| && threads[t] == RCas(saved, newHead, At(b)) && Offset(saved) != 31
      modifies this
      ensures old(run) < run
      ensures Valid() && t < |threads|
      ensures !ok ==> threads[t] == RLoadBlock(found) && shown(t) == old(shown(t))
      ensures ok ==> threads[t] == if Offset(saved) == 30 then RWaitNext(b, newHead) else RWaitWrite(b, Offset(saved))
      ensures ok ==> |owed(t)| == 1 && shown(t) == old(shown(t)) + [Deq(owed(t)[0])]
    {
      Environment(t);
      found := head;
      var fails: bool := *;
      ok := head == saved && !fails;
      if ok {
        SwapHead(t, saved, newHead, b);
      } else {
        KeepHead(t, if fails then Spurious else Go, saved, newHead, b);
      }
    }

    /** `wait_next`, given up when the retries are used up; `seen` are the states in which `next` was null. */
    method WaitNext(t: nat, b: nat, newHead: nat, retries: nat) returns (next: Ptr, ghost seen: seq<nat>)
      requires Valid() && t < |threads| && threads[t] == RWaitNext(b, newHead)
      modifies this
      ensures old(run) <= run
      ensures Valid() && t < |threads|
      ensures threads[t] == if next.Null? then RWaitNext(b, newHead) else RPeek(b, newHead, next.id)
      ensures shown(t) == old(shown(t)) && owed(t) == old(owed(t))
      ensures next.Null? ==> GaveUp(t, |old(sched)|, retries, seen)
    {
      next, seen := Null, [];
      var n := retries;
      while n > 0 && next.Null?
        invariant Valid() && t < |threads| && old(run) <= run && n <= retries
        invariant threads[t] == if next.Null? then RWaitNext(b, newHead) else RPeek(b, newHead, next.id)
        invariant shown(t) == old(shown(t)) && owed(t) == old(owed(t))
        invariant next.Null? ==> Spinning(run, |old(sched)|, t, RWaitNext(b, newHead), seen, retries - n)
      {
        n := n - 1;
        ghost var before, i := run, 0;
        next, i := LoadNext(t, b, newHead);
        if next.Null? {
          SpinsOn(before, run, |old(sched)|, t, RWaitNext(b, newHead), seen, retries - n - 1, i);
          seen := seen + [i];
        }
      }
    }

    /** `i` is the number of the state in which the load is made. */
    method LoadNext(t: nat, b: nat, newHead: nat) returns (next: Ptr, ghost i: nat)
      requires Valid() && t < |threads| && threads[t] == RWaitNext(b, newHead)
      modifies this
      ensures old(run) < run
      ensures Valid() && t < |threads|
      ensures threads[t] == if next.Null? then RWaitNext(b, newHead) else RPeek(b, newHead, next.id)
      ensures shown(t) == old(shown(t)) && owed(t) == old(owed(t))
      ensures |old(run)| <= i + 1 < |run|
      ensures next.Null? ==> Stuck(run[i], t) && run[i].threads[t] == RWaitNext(b, newHead)
    {
      Environment(t);
      NoCrash(t);
      Present();
      i := |run| - 1;
      var before := Memory();
      next := heap[b].next;
      Silently(t, Go, before, if next.Null? then RWaitNext(b, newHead) else RPeek(b, newHead, next.id));
    }

    method PeekNext(t: nat, b: nat, newHead: nat, next: nat) returns (nextIndex: nat)
      requires Valid() && t < |threads| && threads[t] == RPeek(b, newHead, next)
      modifies this
      ensures old(run) < run
      ensures Valid() && t < |threads| && threads[t] == RStoreBlock(b, next, nextIndex)
      ensures Index(nextIndex) == Index(newHead) + 1
      ensures shown(t) == old(shown(t)) && owed(t) == old(owed(t))
    {
      Environment(t);
      NoCrash(t);
      var before := Memory();
      nextIndex := newHead / 2 * 2 + 2;
      if heap[next].next.At? {
        nextIndex := nextIndex + 1;
      }
      Silently(t, Go, before, RStoreBlock(b, next, nextIndex));
    }

    method MoveHeadBlock(t: nat, b: nat, next: nat, nextIndex: nat)
      requires Valid() && t < |threads| && threads[t] == RStoreBlock(b, next, nextIndex)
      modifies this
      ensures old(run) < run
      ensures Valid() && t < |threads| && threads[t] == RStoreIndex(b, nextIndex)
      ensures shown(t) == old(shown(t)) && owed(t) == old(owed(t))
    {
      Environment(t);
      var before := Memory();
      headBlock := At(next);
      Silently(t, Go, before, RStoreIndex(b, nextIndex));
    }

    method MoveHeadIndex(t: nat, b: nat, nextIndex: nat)
      requires Valid() && t < |threads| && threads[t] == RStoreIndex(b, nextIndex)
      modifies this
      ensures old(run) < run
      ensures Valid() && t < |threads| && threads[t] == RWaitWrite(b, 30)
      ensures head == nextIndex && AtNewLap()
      ensures shown(t) == old(shown(t)) && owed(t) == old(owed(t))
    {
      Environment(t);
      WillEnter(t, b, nextIndex);
      var before := Memory();
      head := nextIndex;
      Silently(t, Go, before, RWaitWrite(b, 30));
      Entered();
    }

    /** The head is on the first index of a lap, and its block is the block of that lap. */
    ghost predicate AtNewLap()
      reads this
    {
      && Offset(head) == 0 && 0 < Lap(head) < |now.aux.chain| && headBlock == At(now.aux.chain[Lap(head)])
      && (Marked(head) ==> Lap(head) < Lap(tail))
    }

    lemma WillEnter(t: nat, b: nat, nextIndex: nat)
      requires Valid() && t < |threads| && threads[t] == RStoreIndex(b, nextIndex)
      ensures Offset(nextIndex) == 0 && Lap(nextIndex) > 0
    {
      assert Unfold(0);
      Always(run, sched, |sched|);
      NextLap(now.mem, now.aux, t, b, nextIndex, now.threads);
    }

    static lemma NextLap(mem: Mem, aux: Aux, t: nat, b: nat, nextIndex: nat, threads: seq<Pc>)
      requires Threads(mem, aux, threads) && t < |threads| && threads[t] == RStoreIndex(b, nextIndex)
      ensures Offset(nextIndex) == 0 && Lap(nextIndex) > 0
    {
      assert RecvOk(mem, aux, t, threads[t]);
    }

    lemma Entered()
      requires Valid() && Offset(head) == 0 && Lap(head) > 0
      ensures AtNewLap()
    {
      assert Unfold(0);
      Always(run, sched, |sched|);
    }

    /** The head leaves the block whose last slot was claimed: one index on, into the block of the next lap. */
    method Advance(t: nat, b: nat, newHead: nat, retries: nat) returns (done: bool, ghost seen: seq<nat>)
      requires Valid() && t < |threads| && threads[t] == RWaitNext(b, newHead)
      modifies this
      ensures old(run) <= run
      ensures Valid() && t < |threads| && (done ==> threads[t] == RWaitWrite(b, 30))
      ensures done ==> Index(head) == Index(newHead) + 1 && AtNewLap()
      ensures !done ==> threads[t] == RWaitNext(b, newHead) && GaveUp(t, |old(sched)|, retries, seen)
      ensures shown(t) == old(shown(t)) && owed(t) == old(owed(t))
    {
      var next;
      next, seen := WaitNext(t, b, newHead, retries);
      done := next.At?;
      if done {
        MoveHead(t, b, newHead, next.id);
      }
    }

    /** The next block is known: its successor decides the hint, then the head moves. */
    method MoveHead(t: nat, b: nat, newHead: nat, next: nat)
      requires Valid() && t < |threads| && threads[t] == RPeek(b, newHead, next)
      modifies this
      ensures old(run) < run
      ensures Valid() && t < |threads| && threads[t] == RWaitWrite(b, 30)
      ensures Index(head) == Index(newHead) + 1 && AtNewLap()
      ensures shown(t) == old(shown(t)) && owed(t) == old(owed(t))
    {
      var nextIndex := PeekNext(t, b, newHead, next);
      MoveHeadBlock(t, b, next, nextIndex);
      MoveHeadIndex(t, b, nextIndex);
    }

    /** What `start_recv` reports: a claim of one message, or a verdict on the queue. */
    ghost predicate Received(t: nat, r: Reserved, earlier: seq<Event>)
      requires Valid()
      reads this
    {
      match r
      case Granted(b, j) => t < |threads| && threads[t] == RWaitWrite(b, j)
                            && |owed(t)| == 1 && shown(t) == earlier + [Deq(owed(t)[0])]
      case Empty => t < |threads| && threads[t] == Idle && shown(t) == earlier + [SawEmpty]
      case Disconnected => t < |threads| && threads[t] == Idle && shown(t) == earlier + [SawClosed]
      case Busy => t < |threads| && match threads[t]
                   case RLoop(_, _) => shown(t) == earlier
                   case RWaitNext(_, _) => |owed(t)| == 1 && shown(t) == earlier + [Deq(owed(t)[0])]
                   case _ => false
    }

    /** One turn of the loop; `more` asks for another. */
    method IterateRecv(t: nat, saved: nat, block: Ptr, retries: nat)
      returns (r: Reserved, more: bool, found: nat, block': Ptr, ghost seen: seq<nat>)
      requires Valid() && t < |threads| && threads[t] == RLoop(saved, block)
      modifies this
      ensures old(run) < run
      ensures Valid() && t < |threads| && Received(t, r, old(shown(t)))
      ensures more ==> r.Busy? && threads[t] == RLoop(found, block') && shown(t) == old(shown(t))
      ensures r.Busy? && !more ==> GaveUp(t, |old(sched)|, retries, seen)
    {
      r, more, found, block', seen := Busy, true, saved, block, [];
      if Offset(saved) == 31 {
        RestartRecv(t, saved, 0, block);
        found, block' := ReloadHead(t);
      } else {
        r, more, found, block', seen := TurnRecv(t, saved, block, retries);
      }
    }

    /** The turn, with the head not on a block end. */
    method TurnRecv(t: nat, saved: nat, block: Ptr, retries: nat)
      returns (r: Reserved, more: bool, found: nat, block': Ptr, ghost seen: seq<nat>)
      requires Valid() && t < |threads| && threads[t] == RLoop(saved, block) && Offset(saved) != 31
      modifies this
      ensures old(run) < run
      ensures Valid() && t < |threads| && Received(t, r, old(shown(t)))
      ensures more ==> r.Busy? && threads[t] == RLoop(found, block') && shown(t) == old(shown(t))
      ensures r.Busy? && !more ==> GaveUp(t, |old(sched)|, retries, seen)
    {
      more, found, block', seen := true, saved, block, [];
      var newHead;
      r, newHead := Examine(t, saved, block);
      if !r.Busy? {
        more := false;
      } else if block.Null? {
        RestartRecv(t, saved, newHead, block);
        found, block' := ReloadHead(t);
      } else {
        r, more, found, block', seen := Claim(t, saved, newHead, block.id, retries);
      }
    }

    method Claim(t: nat, saved: nat, newHead: nat, b: nat, retries: nat)
      returns (r: Reserved, more: bool, found: nat, block': Ptr, ghost seen: seq<nat>)
      requires Valid() && t < |threads| && threads[t] == RCas(saved, newHead, At(b)) && Offset(saved) != 31
      modifies this
      ensures old(run) < run
      ensures Valid() && t < |threads| && Received(t, r, old(shown(t))) && (r.Granted? || r.Busy?)
      ensures more ==> r.Busy? && threads[t] == RLoop(found, block') && shown(t) == old(shown(t))
      ensures r.Busy? && !more ==> GaveUp(t, |old(sched)|, retries, seen)
    {
      var ok;
      ok, found := CasHead(t, saved, newHead, b);
      r, more, block', seen := Busy, !ok, Null, [];
      if !ok {
        block' := LoadHeadBlock(t, found);
      } else if Offset(saved) + 1 == 31 {
        var done;
        done, seen := Advance(t, b, newHead, retries);
        if done {
          r := Granted(b, 30);
        }
      } else {
        r := Granted(b, Offset(saved));
      }
    }

    /**
     `start_recv`: the one effect of the call is that a message is dequeued for
     this thread, or that the queue is found empty, open or closed. Begun from rest
     and not disturbed, with enough retries, it is told what the queue held.
     */
    method StartRecv(t: nat, retries: nat) returns (r: Reserved, ghost seen: seq<nat>)
      requires Valid() && t < |threads| && threads[t] == Idle
      modifies this
      ensures old(run) < run && run[|old(run)|].threads == old(threads)[t := RLoadHead]
      ensures Valid() && t < |threads| && Received(t, r, old(shown(t)))
      ensures r.Busy? ==> GaveUp(t, |old(sched)|, retries, seen)
      ensures Quiet(old(threads)) && Undisturbed(t, |old(sched)|) && retries > 77 ==>
        !r.Busy? && EndsWith(shown(t), RecvAnswer(old(Abs(now))))
    {
      Present();
      ghost var n, s := |sched|, now;
      Call(t, Recv);
      Present();
      r, seen := TakeOrGiveUp(t, retries);
      if Quiet(s.threads) && Undisturbed(t, n) {
        if retries > 77 && r.Busy? {
          NotForEver(t, n);
        } else if !r.Busy? {
          Told(t, n);
        }
      }
    }

    /** The loop. */
    method TakeOrGiveUp(t: nat, retries: nat) returns (r: Reserved, ghost seen: seq<nat>)
      requires Valid() && t < |threads| && threads[t] == RLoadHead
      modifies this
      ensures old(run) < run
      ensures Valid() && t < |threads| && Received(t, r, old(shown(t)))
      ensures r.Busy? ==> GaveUp(t, |old(sched)|, retries, seen)
    {
      var saved, block := ReloadHead(t);
      var n, more := retries, true;
      r, seen := Busy, [];
      while n > 0 && more
        invariant Valid() && t < |threads| && Received(t, r, old(shown(t))) && old(run) < run && n <= retries
        invariant more ==> r.Busy? && threads[t] == RLoop(saved, block) && shown(t) == old(shown(t))
        invariant more ==> |run| > |old(run)| + (retries - n)
        invariant r.Busy? && !more ==> GaveUp(t, |old(sched)|, retries, seen)
      {
        n := n - 1;
        r, more, saved, block, seen := IterateRecv(t, saved, block, retries);
      }
    }

    // ---- read and Block::destroy ----

    /** `i` is the number of the state in which the load is made. */
    method LoadWrite(t: nat, b: nat, j: nat) returns (written: bool, ghost i: nat)
      requires Valid() && t < |threads| && threads[t] == RWaitWrite(b, j)
      modifies this
      ensures old(run) < run
      ensures Valid() && t < |threads| && threads[t] == if written then RReadMsg(b, j) else RWaitWrite(b, j)
      ensures shown(t) == old(shown(t)) && owed(t) == old(owed(t))
      ensures |old(run)| <= i + 1 < |run|
      ensures !written ==> Stuck(run[i], t) && run[i].threads[t] == RWaitWrite(b, j)
    {
      Environment(t);
      NoCrash(t);
      Present();
      i := |run| - 1;
      var before := Memory();
      written := heap[b].slots[j].write;
      Silently(t, Go, before, if written then RReadMsg(b, j) else RWaitWrite(b, j));
    }

    /** `wait_write`; `seen` are the states in which WRITE was clear. */
    method WaitWrite(t: nat, b: nat, j: nat, retries: nat) returns (written: bool, ghost seen: seq<nat>)
      requires Valid() && t < |threads| && threads[t] == RWaitWrite(b, j)
      modifies this
      ensures old(run) <= run
      ensures Valid() && t < |threads| && threads[t] == if written then RReadMsg(b, j) else RWaitWrite(b, j)
      ensures shown(t) == old(shown(t)) && owed(t) == old(owed(t))
      ensures !written ==> GaveUp(t, |old(sched)|, retries, seen)
    {
      written, seen := false, [];
      var n := retries;
      while n > 0 && !written
        invariant Valid() && t < |threads| && threads[t] == if written then RReadMsg(b, j) else RWaitWrite(b, j)
        invariant shown(t) == old(shown(t)) && owed(t) == old(owed(t)) && old(run) <= run && n <= retries
        invariant !written ==> Spinning(run, |old(sched)|, t, RWaitWrite(b, j), seen, retries - n)
      {
        n := n - 1;
        ghost var before, i := run, 0;
        written, i := LoadWrite(t, b, j);
        if !written {
          SpinsOn(before, run, |old(sched)|, t, RWaitWrite(b, j), seen, retries - n - 1, i);
          seen := seen + [i];
        }
      }
    }

    method MoveMsg(t: nat, b: nat, j: nat) returns (m: Msg)
      requires Valid() && t < |threads| && threads[t] == RReadMsg(b, j)
      modifies this
      ensures old(run) < run
      ensures Valid() && t < |threads| && threads[t] == if j == 30 then DCheck(b, 0, m) else RMark(b, j, m)
      ensures j < 31 && shown(t) == old(shown(t)) && owed(t) == old(owed(t))
    {
      Environment(t);
      NoCrash(t);
      var before := Memory();
      m := heap[b].slots[j].msg.value;
      heap := heap[b := Block(heap[b].next, heap[b].slots[j := heap[b].slots[j].(msg := None)], heap[b].freed)];
      Silently(t, Go, before, if j == 30 then DCheck(b, 0, m) else RMark(b, j, m));
    }

    static lemma MarkOut(mem: Mem, b: nat, j: nat, m: Msg)
      requires Live(mem, b) && j < 31
      ensures var slot := mem.heap[b].slots[j];
        MemStep(mem, RMark(b, j, m), Go) ==
          Ok(SetSlot(mem, b, j, slot.(read := true)), if slot.destroy then DCheck(b, j + 1, m) else Idle)
    {
    }

    method OrRead(b: nat, j: nat) returns (destroy: bool)
      requires b < |heap| && j < 31
      modifies `heap
      ensures destroy == old(heap)[b].slots[j].destroy
      ensures Memory() == SetSlot(old(Memory()), b, j, old(heap)[b].slots[j].(read := true))
    {
      destroy := heap[b].slots[j].destroy;
      heap := heap[b := Block(heap[b].next, heap[b].slots[j := heap[b].slots[j].(read := true)], heap[b].freed)];
    }

    /** `fetch_or(READ)`; the answer is whether DESTROY was set. */
    method SetRead(t: nat, b: nat, j: nat, m: Msg) returns (destroy: bool)
      requires Valid() && t < |threads| && threads[t] == RMark(b, j, m)
      modifies this
      ensures old(run) < run
      ensures Valid() && t < |threads| && shown(t) == old(shown(t))
      ensures destroy ==> threads[t] == DCheck(b, j + 1, m) && owed(t) == old(owed(t))
      ensures !destroy ==> threads[t] == Idle && old(owed(t)) == [m]
    {
      Environment(t);
      NoCrash(t);
      var before := Memory();
      MarkOut(before, b, j, m);
      destroy := OrRead(b, j);
      if destroy {
        Silently(t, Go, before, DCheck(b, j + 1, m));
      } else {
        Returning(t, before, m);
      }
    }

    method CheckRead(t: nat, b: nat, i: nat, m: Msg) returns (read: bool)
      requires Valid() && t < |threads| && threads[t] == DCheck(b, i, m) && i < 30
      modifies this
      ensures old(run) < run
      ensures Valid() && t < |threads| && threads[t] == if read then DCheck(b, i + 1, m) else DOr(b, i, m)
      ensures shown(t) == old(shown(t)) && owed(t) == old(owed(t))
    {
      Environment(t);
      NoCrash(t);
      var before := Memory();
      read := heap[b].slots[i].read;
      Silently(t, Go, before, if read then DCheck(b, i + 1, m) else DOr(b, i, m));
    }

    /** `fetch_or(DESTROY)`; the answer is whether READ was set. */
    method SetDestroy(t: nat, b: nat, i: nat, m: Msg) returns (read: bool)
      requires Valid() && t < |threads| && threads[t] == DOr(b, i, m)
      modifies this
      ensures old(run) < run
      ensures Valid() && t < |threads| && shown(t) == old(shown(t))
      ensures read ==> threads[t] == DCheck(b, i + 1, m) && owed(t) == old(owed(t))
      ensures !read ==> threads[t] == Idle && old(owed(t)) == [m]
      ensures !read ==> b < |heap| && i < 31 && heap[b].slots[i].destroy && !heap[b].slots[i].read
    {
      Environment(t);
      NoCrash(t);
      var before := Memory();
      read := heap[b].slots[i].read;
      heap := heap[b := Block(heap[b].next, heap[b].slots[i := heap[b].slots[i].(destroy := true)], heap[b].freed)];
      if read {
        Silently(t, Go, before, DCheck(b, i + 1, m));
      } else {
        Returning(t, before, m);
      }
    }

    method Release(t: nat, b: nat, i: nat, m: Msg)
      requires Valid() && t < |threads| && threads[t] == DCheck(b, i, m) && i >= 30
      modifies this
      ensures old(run) < run
      ensures Valid() && t < |threads| && threads[t] == Idle && b < |heap| && heap[b].freed
      ensures shown(t) == old(shown(t)) && old(owed(t)) == [m]
    {
      Environment(t);
      NoCrash(t);
      var before := Memory();
      FreeBlock(b);
      Returning(t, before, m);
    }

    /** One turn of `destroy`; the answer is whether slot `i` has been read. */
    method PassSlot(t: nat, b: nat, i: nat, m: Msg) returns (read: bool)
      requires Valid() && t < |threads| && threads[t] == DCheck(b, i, m) && i < 30
      modifies this
      ensures old(run) < run
      ensures Valid() && t < |threads| && shown(t) == old(shown(t))
      ensures read ==> threads[t] == DCheck(b, i + 1, m) && owed(t) == old(owed(t))
      ensures !read ==> threads[t] == Idle && old(owed(t)) == [m]
      ensures !read ==> b < |heap| && heap[b].slots[i].destroy && !heap[b].slots[i].read
    {
      read := CheckRead(t, b, i, m);
      if !read {
        read := SetDestroy(t, b, i, m);
      }
    }

    /** Block `b` is freed, or left to the reader of a slot from `start` on. */
    ghost predicate DestroyedFrom(b: nat, start: nat)
      reads `heap
    {
      && b < |heap|
      && (heap[b].freed || exists i :: start <= i < 30 && heap[b].slots[i].destroy && !heap[b].slots[i].read)
    }

    /**
     `Block::destroy`: pass over the slots that have been read; stop at one that
     has not, whose reader then finds DESTROY set. With none left, free the block.
     */
    method Destroy(t: nat, b: nat, start: nat, m: Msg)
      requires Valid() && t < |threads| && threads[t] == DCheck(b, start, m)
      modifies this
      ensures old(run) < run
      ensures Valid() && t < |threads| && threads[t] == Idle && DestroyedFrom(b, start)
      ensures shown(t) == old(shown(t)) && old(owed(t)) == [m]
    {
      var i := start;
      while i < 30
        invariant Valid() && t < |threads| && threads[t] == DCheck(b, i, m) && start <= i && old(run) <= run
        invariant shown(t) == old(shown(t)) && owed(t) == old(owed(t))
      {
        var read := PassSlot(t, b, i, m);
        if !read {
          return;
        }
        i := i + 1;
      }
      Release(t, b, i, m);
    }

    /** `read`: the message returned is the one this thread dequeued. */
    method Read(t: nat, b: nat, j: nat, retries: nat) returns (r: Option<Msg>, ghost seen: seq<nat>)
      requires Valid() && t < |threads| && threads[t] == RWaitWrite(b, j)
      modifies this
      ensures old(run) <= run
      ensures Valid() && t < |threads| && shown(t) == old(shown(t))
      ensures r.Some? ==> threads[t] == Idle && old(owed(t)) == [r.value]
      ensures r.None? ==> threads[t] == RWaitWrite(b, j) && GaveUp(t, |old(sched)|, retries, seen)
    {
      r := None;
      var written;
      written, seen := WaitWrite(t, b, j, retries);
      if written {
        var m := MoveMsg(t, b, j);
        FinishRead(t, b, j, m);
        r := Some(m);
      }
    }

    /** The last slot starts the destruction of the block, any other takes it over if asked to. */
    method FinishRead(t: nat, b: nat, j: nat, m: Msg)
      requires Valid() && t < |threads| && threads[t] == if j == 30 then DCheck(b, 0, m) else RMark(b, j, m)
      modifies this
      ensures old(run) < run
      ensures Valid() && t < |threads| && threads[t] == Idle
      ensures shown(t) == old(shown(t)) && old(owed(t)) == [m]
    {
      if j + 1 == 31 {
        Destroy(t, b, 0, m);
      } else {
        var destroy := SetRead(t, b, j, m);
        if destroy {
          Destroy(t, b, j + 1, m);
        }
      }
    }

    /**
     `try_recv`: a message returned is the message dequeued; otherwise a true
     verdict. If neither is given, the call has given up: the CAS on the head was
     tried so often; or the next block, or the message claimed, was not there in
     as many states of the call (`seen`). Begun from rest and not disturbed, with
     enough retries, it never gives up, and answers with the front of the queue.
     */
    method TryRecv(t: nat, retries: nat) returns (r: Reserved, m: Option<Msg>, ghost seen: seq<nat>)
      requires Valid() && t < |threads| && threads[t] == Idle
      modifies this
      ensures old(run) < run
      ensures Valid() && t < |threads|
      ensures m.Some? ==> threads[t] == Idle && shown(t) == old(shown(t)) + [Deq(m.value)]
      ensures r.Empty? ==> m.None? && threads[t] == Idle && shown(t) == old(shown(t)) + [SawEmpty]
      ensures r.Disconnected? ==> m.None? && threads[t] == Idle && shown(t) == old(shown(t)) + [SawClosed]
      ensures r.Granted? && m.None? ==> threads[t] == RWaitWrite(r.b, r.j) && GaveUp(t, |old(sched)|, retries, seen)
      ensures r.Busy? ==> m.None? && GaveUp(t, |old(sched)|, retries, seen)
      ensures Quiet(old(threads)) && Undisturbed(t, |old(sched)|) && retries > 77 ==> Answers(r, m, old(Abs(now)))
    {
      Present();
      ghost var n, s := |sched|, now;
      m := None;
      r, seen := StartRecv(t, retries);
      if r.Granted? {
        m, seen := Read(t, r.b, r.j, retries);
      }
      if Quiet(s.threads) && Undisturbed(t, n) && retries > 77 {
        if m.None? && (r.Granted? || r.Busy?) {
          NotForEver(t, n);
        } else {
          Told(t, n);
        }
      }
    }

    /** The answer that the queue calls for. */
    static predicate Answers(r: Reserved, m: Option<Msg>, q: Queue) {
      if q.items != [] then r.Granted? && m == Some(q.items[0])
      else m.None? && if q.closed then r.Disconnected? else r.Empty?
    }

    // ---- len ----

    /** `i` is the number of the state in which the load is made. */
    method LenTail(t: nat) returns (word: nat, ghost i: nat)
      requires Valid() && t < |threads| && threads[t] == LLoadTail
      modifies this
      ensures Valid() && t < |threads| && threads[t] == LLoadHead(word)
      ensures shown(t) == old(shown(t)) && old(run) < run
      ensures |old(run)| <= i + 1 <= |run| && run[i].mem.tail == word
    {
      Environment(t);
      Present();
      i := |run| - 1;
      var before := Memory();
      word := tail;
      Silently(t, Go, before, LLoadHead(word));
    }

    method LenHead(t: nat, saved: nat) returns (word: nat, ghost i: nat)
      requires Valid() && t < |threads| && threads[t] == LLoadHead(saved)
      modifies this
      ensures Valid() && t < |threads| && threads[t] == LCheck(saved, word)
      ensures shown(t) == old(shown(t)) && old(run) < run
      ensures |old(run)| <= i + 1 <= |run| && run[i].mem.head == word
    {
      Environment(t);
      Present();
      i := |run| - 1;
      var before := Memory();
      word := head;
      Silently(t, Go, before, LCheck(saved, word));
    }

    method LenCheck(t: nat, saved: nat, savedHead: nat) returns (same: bool, ghost i: nat)
      requires Valid() && t < |threads| && threads[t] == LCheck(saved, savedHead)
      modifies this
      ensures Valid() && t < |threads| && threads[t] == if same then Idle else LLoadTail
      ensures shown(t) == old(shown(t)) && old(run) < run
      ensures |old(run)| <= i + 1 <= |run| && (same ==> run[i].mem.tail == saved)
    {
      Environment(t);
      Present();
      i := |run| - 1;
      var before := Memory();
      same := tail == saved;
      Silently(t, Go, before, if same then Idle else LLoadTail);
    }

    lemma LenHolds(i: nat, j: nat, k: nat)
      requires Valid() && i <= j <= k < |run| && run[i].mem.tail == run[k].mem.tail
      ensures IsCount(LenOf(run[i].mem.tail, run[j].mem.head), run[j])
    {
      assert Unfold(0);
      LenAtAnInstant(run, sched, i, j, k);
      TailGrows(run, sched, i, j);
      TailGrows(run, sched, j, k);
    }

    /** `c` is the number of messages in state `s`, if `s` does not have both words on one block end. */
    static ghost predicate IsCount(c: Count, s: State) {
      c == if SameBlockEnd(s.mem.tail, s.mem.head) then Underflow else Count(|Abs(s).items|)
    }

    /** One turn of the loop. */
    method Measure(t: nat) returns (r: Option<Count>, ghost j: nat)
      requires Valid() && t < |threads| && threads[t] == LLoadTail
      modifies this
      ensures Valid() && t < |threads| && threads[t] == if r.Some? then Idle else LLoadTail
      ensures shown(t) == old(shown(t)) && old(run) < run
      ensures r.Some? ==> |old(run)| <= j + 1 <= |run| && IsCount(r.value, run[j])
    {
      var word, word', same;
      ghost var i, k;
      word, i := LenTail(t);
      word', j := LenHead(t, word);
      same, k := LenCheck(t, word, word');
      r := None;
      if same {
        LenHolds(i, j, k);
        r := Some(LenOf(word, word'));
      }
    }

    /**
     `len`: the number of messages in a state `j` that the channel was in during the
     call. Begun from rest and not disturbed, with enough retries, it has an answer.
     */
    method Len(t: nat, retries: nat) returns (r: Option<Count>, ghost j: nat)
      requires Valid() && t < |threads| && threads[t] == Idle
      modifies this
      ensures Valid() && t < |threads| && shown(t) == old(shown(t)) && old(run) < run
      ensures r.Some? ==> threads[t] == Idle && |old(run)| <= j + 1 <= |run| && IsCount(r.value, run[j])
      ensures r.None? ==> GaveUp(t, |old(sched)|, retries, [])
      ensures Quiet(old(threads)) && Undisturbed(t, |old(sched)|) && retries > 77 ==> r.Some?
    {
      Present();
      ghost var n, s := |sched|, now;
      Call(t, Choice.Len);
      Present();
      r, j := MeasureOrGiveUp(t, retries);
      if Quiet(s.threads) && Undisturbed(t, n) && retries > 77 && r.None? {
        NotForEver(t, n);
      }
    }

    /** The loop. */
    method MeasureOrGiveUp(t: nat, retries: nat) returns (r: Option<Count>, ghost j: nat)
      requires Valid() && t < |threads| && threads[t] == LLoadTail
      modifies this
      ensures Valid() && t < |threads| && threads[t] == if r.Some? then Idle else LLoadTail
      ensures shown(t) == old(shown(t)) && old(run) <= run
      ensures r.Some? ==> |old(run)| <= j + 1 <= |run| && IsCount(r.value, run[j])
      ensures r.None? ==> |run| >= |old(run)| + retries
    {
      var n := retries;
      r, j := None, 0;
      while n > 0 && r.None?
        invariant Valid() && t < |threads| && threads[t] == if r.Some? then Idle else LLoadTail
        invariant shown(t) == old(shown(t)) && old(run) <= run && n <= retries
        invariant r.None? ==> |run| >= |old(run)| + (retries - n)
        invariant r.Some? ==> |old(run)| <= j + 1 <= |run| && IsCount(r.value, run[j])
      {
        n := n - 1;
        r, j := Measure(t);
      }
    }

    // ---- shutdown ----

    /** `shutdown`: `fetch_or` of MARK_BIT on the tail; the answer is whether this call closed the channel. */
    method Shutdown(t: nat) returns (first: bool)
      requires Valid() && t < |threads| && threads[t] == Idle
      modifies this
      ensures old(run) < run
      ensures Valid() && t < |threads| && threads[t] == Idle
      ensures shown(t) == old(shown(t)) + [Close(first)]
    {
      Environment(t);
      var before := Memory();
      first := !Marked(tail);
      tail := SetMark(tail);
      Follow(t, Choice.Shutdown, before, Idle, Close(first), None);
    }

    // ---- drop ----

    /** What holds of the object when no call is under way. */
    lemma AtRest()
      requires Valid() && Quiet(threads)
      ensures Standing(now, heap, Index(head), Index(head), headBlock, [])
      ensures Index(head) <= Index(tail) && Pos(Index(head)) <= |now.aux.log|
      ensures Abs(now).items == now.aux.log[Pos(Index(head))..]
    {
      assert Unfold(0);
      Always(run, sched, |sched|);
      Start(now);
      QuietTidy(now);
      PosMonotone(Index(head), Index(tail));
    }

    /** Then every message accepted has been received or is still in the channel. */
    lemma Accounts()
      requires Valid() && Quiet(threads)
      ensures |run| == |sched| + 1 && Enqueued(Trace(run, sched)) == Dequeued(Trace(run, sched)) + Abs(now).items
      ensures forall t :: owed(t) == []
    {
      assert Unfold(0);
      ListIsFifo(run, sched);
    }

    /** Takes the message out of a slot. */
    method DropMessage(b: nat, j: nat) returns (m: Msg)
      requires b < |heap| && j < 31 && !heap[b].freed && heap[b].slots[j].msg.Some?
      modifies `heap
      ensures m == old(heap)[b].slots[j].msg.value && heap == WithoutMsg(old(heap), b, j)
    {
      m := heap[b].slots[j].msg.value;
      heap := WithoutMsg(heap, b, j);
    }

    /** Frees a block, which must not have been freed before. */
    method DropOnce(b: nat)
      requires b < |heap| && !heap[b].freed
      modifies `heap
      ensures heap == Without(old(heap), b)
    {
      heap := heap[b := heap[b].(freed := true)];
    }

    /** One turn of the loop, at index `i`. */
    method DropAt(ghost s: State, ghost start: nat, i: nat, block: Ptr, earlier: seq<Msg>)
      returns (block': Ptr, dropped: seq<Msg>)
      requires Standing(s, heap, start, i, block, earlier) && i < Index(s.mem.tail)
      modifies `heap
      ensures Standing(s, heap, start, i + 1, block', dropped)
    {
      block', dropped := block, earlier;
      if i % 32 < 31 {
        assert Unfold(0);
        MsgTurn(s, heap, start, i, block, earlier);
        var m := DropMessage(block.id, i % 32);
        dropped := earlier + [m];
      } else {
        assert Unfold(0);
        BlockTurn(s, heap, start, i, block, earlier);
        block' := heap[block.id].next;
        DropOnce(block.id);
      }
    }

    /** The loop, from `start` up to the tail. */
    method DropAll(ghost s: State, start: nat, end: nat, block: Ptr) returns (block': Ptr, dropped: seq<Msg>)
      requires Standing(s, heap, start, start, block, []) && start <= end == Index(s.mem.tail)
      modifies `heap
      ensures Standing(s, heap, start, end, block', dropped)
    {
      block', dropped := block, [];
      var i := start;
      while i != end
        invariant i <= end && Standing(s, heap, start, i, block', dropped)
        decreases end - i
      {
        block', dropped := DropAt(s, start, i, block', dropped);
        i := i + 1;
      }
    }

    /**
     `Drop`, run when no other call can be under way: drops the messages not
     yet received, each once and in order, and frees every block left, none a
     second time. Nothing is left behind: every block ever allocated is freed,
     and no slot holds a message. Over the whole life of the channel the messages
     accepted are those received and those dropped here.
     */
    method Drop() returns (dropped: seq<Msg>)
      requires Valid() && Quiet(threads)
      modifies `heap
      ensures dropped == Abs(now).items
      ensures |heap| == |old(heap)| && AllGone(heap)
      ensures |run| == |sched| + 1 && Enqueued(Trace(run, sched)) == Dequeued(Trace(run, sched)) + dropped
      ensures forall t :: owed(t) == []
    {
      Accounts();
      dropped := DropRest();
    }

    method DropRest() returns (dropped: seq<Msg>)
      requires Valid() && Quiet(threads)
      modifies `heap
      ensures dropped == Abs(now).items
      ensures |heap| == |old(heap)| && AllGone(heap)
    {
      AtRest();
      var block;
      block, dropped := DropAll(now, Index(head), Index(tail), headBlock);
      LastTurn(now, heap, Index(head), block, dropped);
      if block.At? {
        DropOnce(block.id);
      }
    }
  }
}
