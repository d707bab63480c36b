/**
 The reference counter (src/counter.rs) as a class, `acquire` and `release` in
 the shape of the original, other handles at work between any two accesses. Every
 access is one step of the protocol, so the object stays within its invariant.
 */
module CounterObject {
  import opened Common
  import opened Counter

  class Shared {
    const max: nat
    var senders: nat
    var receivers: nat
    var destroy: bool
    var freed: bool
    /** Every handle there has ever been. The operations only keep it up to date. */
    var handles: seq<Handle>
    ghost var now: State

    function Memory(): Mem
      reads this
    {
      Mem(senders, receivers, destroy, freed)
    }

    ghost predicate Recorded(mem: Mem)
      reads `now, `handles
    {
      Inv(max, now) && now.mem == mem && now.handles == handles
    }

    ghost predicate Valid()
      reads this
    {
      Recorded(Memory())
    }

    constructor (max: nat)
      requires max >= 1
      ensures Valid() && this.max == max && handles == [Handle(Sender, Live), Handle(Receiver, Live)] && !freed
    {
      this.max := max;
      senders, receivers, destroy, freed := 1, 1, false, false;
      handles := [Handle(Sender, Live), Handle(Receiver, Live)];
      now := New();
      new;
      NewInv(max);
    }

    /** An access just made is the step of handle `h` from `before`. */
    method Follow(h: nat, x: Choice, before: Mem)
      requires Recorded(before) && h < |handles| && !Overflows(max, now, h, x)
      requires Memory() == MemStep(max, before, handles[h], x).mem
      modifies `handles, `now
      ensures Valid()
      ensures var out := MemStep(max, before, old(handles)[h], x);
        handles == Moved(old(handles), h, out.pc, out.clones) && !out.fault
      ensures now == Step(max, old(now), h, x)
    {
      StepKeeps(max, now, h, x);
      var out := MemStep(max, before, handles[h], x);
      handles := Moved(handles, h, out.pc, out.clones);
      now := Step(max, now, h, x);
    }

    predicate Overflowing(g: nat, x: Choice)
      requires g < |handles|
      reads this
    {
      handles[g].pc.Live? && x.Clone? && Count(Memory(), handles[g].side) == max
    }

    /** Any steps of any handles other than `h`, none of which wraps a count around. */
    method Environment(h: nat)
      requires Valid() && h < |handles|
      modifies this
      ensures Valid() && |handles| >= old(|handles|) && handles[h] == old(handles[h])
    {
      var n: nat := *;
      while n > 0
        invariant Valid() && |handles| >= old(|handles|) && handles[h] == old(handles[h])
      {
        n := n - 1;
        var g: nat := *;
        var x: Choice := *;
        if g < |handles| && g != h && !Overflowing(g, x) {
          OtherStep(g, x, h);
        }
      }
    }

    method OtherStep(g: nat, x: Choice, ghost h: nat)
      requires Valid() && g < |handles| && h < |handles| && g != h && !Overflowing(g, x)
      modifies this
      ensures Valid() && |handles| >= old(|handles|) && handles[h] == old(handles[h])
    {
      var before := Memory();
      Store(MemStep(max, before, handles[g], x).mem);
      Follow(g, x, before);
    }

    method Store(mem: Mem)
      modifies `senders, `receivers, `destroy, `freed
      ensures Memory() == mem
    {
      senders, receivers, destroy, freed := mem.senders, mem.receivers, mem.destroy, mem.freed;
    }

    /** A live handle finds the channel there. */
    lemma StillThere(h: nat)
      requires Valid() && h < |handles| && !handles[h].pc.Gone?
      ensures !freed
    {
      NotFreed(max, now, h);
    }

    /**
     `acquire`: a new handle of the same side; or None, the process aborts, exactly
     when the count of that side is at its largest value.
     */
    method Acquire(h: nat) returns (r: Option<nat>)
      requires Valid() && h < |handles| && handles[h].pc.Live?
      modifies this
      ensures Valid() && h < |handles| && handles[h] == old(handles)[h] && !freed
      ensures r.Some? ==> old(|handles|) <= r.value < |handles| && handles[r.value] == Handle(old(handles[h].side), Live)
      ensures r.None? ==> Count(Memory(), old(handles)[h].side) == max
      ensures r.Some? ==> 1 < Count(Memory(), old(handles)[h].side) <= max
    {
      Environment(h);
      StillThere(h);
      var side := handles[h].side;
      var n := Count(Memory(), side);
      if n == max {
        return None;
      }
      var before := Memory();
      Store(SetCount(before, side, n + 1));
      r := Some(|handles|);
      Follow(h, Clone, before);
    }

    /** `fetch_sub` */
    method Decrement(h: nat) returns (last: bool)
      requires Valid() && h < |handles| && handles[h].pc.Live?
      modifies this
      ensures Valid() && h < |handles| && handles[h].pc == (if last then Closing else Gone) && !freed
    {
      Environment(h);
      StillThere(h);
      var side := handles[h].side;
      var n := Count(Memory(), side);
      var before := Memory();
      Store(SetCount(before, side, if n == 0 then max else n - 1));
      last := n == 1;
      Follow(h, Drop, before);
    }

    /** `disconnect`, on a channel that is still there; the other side may be in it too. */
    method Disconnect(h: nat)
      requires Valid() && h < |handles| && handles[h].pc.Closing?
      modifies this
      ensures Valid() && h < |handles| && handles[h].pc.Swapping?
    {
      Environment(h);
      StillThere(h);
      var before := Memory();
      Follow(h, Use, before);
    }

    method SwapDestroy(h: nat) returns (was: bool)
      requires Valid() && h < |handles| && handles[h].pc.Swapping?
      modifies this
      ensures Valid() && h < |handles| && handles[h].pc == (if was then Freeing else Gone) && !freed
    {
      Environment(h);
      StillThere(h);
      var before := Memory();
      was := destroy;
      destroy := true;
      Follow(h, Use, before);
    }

    /** `drop(Box::from_raw(..))`: nobody is left to use the channel. */
    method FreeChannel(h: nat)
      requires Valid() && h < |handles| && handles[h].pc.Freeing?
      modifies this
      ensures Valid() && freed && |handles| > h && forall g :: 0 <= g < |handles| ==> handles[g].pc.Gone?
    {
      Environment(h);
      StillThere(h);
      var before := Memory();
      freed := true;
      Follow(h, Use, before);
      AllGone();
    }

    lemma AllGone()
      requires Valid() && freed
      ensures forall g :: 0 <= g < |handles| ==> handles[g].pc.Gone?
    {
      forall g | 0 <= g < |handles| ensures handles[g].pc.Gone? {
        if !handles[g].pc.Gone? {
          NotFreed(max, now, g);
        }
      }
    }

    /** `release`: the last handle of a side disconnects; the second of the two last handles frees. */
    method Release(h: nat) returns (frees: bool)
      requires Valid() && h < |handles| && handles[h].pc.Live?
      modifies this
      ensures Valid() && h < |handles| && handles[h].pc.Gone? && (frees <==> freed)
      ensures freed ==> forall g :: 0 <= g < |handles| ==> handles[g].pc.Gone?
    {
      frees := false;
      var last := Decrement(h);
      if last {
        Disconnect(h);
        frees := SwapDestroy(h);
        if frees {
          FreeChannel(h);
        }
      }
    }
  }
}
