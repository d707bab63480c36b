/**
 A clone at the largest count (src/counter.rs): the count wraps around to 0
 before the process aborts, and until then it is fatal. Safe are exactly the
 clones below the largest count, for every word size.
 */
module CounterOverflow {
  import opened Common
  import opened Counter

  predicate LiveAt(s: State, h: nat, side: Side) { h < |s.handles| && s.handles[h] == Handle(side, Live) }

  /** No clone from step `k` on is made at the largest count. */
  ghost predicate CleanFrom(max: nat, run: seq<State>, sched: Schedule, k: nat)
    requires |run| == |sched| + 1
  {
    forall i {:trigger sched[i]} :: k <= i < |sched| ==> !Overflows(max, run[i], sched[i].0, sched[i].1)
  }

  /** The run goes on from where `run` stopped. */
  ghost predicate GoesOn(max: nat, run: seq<State>, sched: Schedule, run': seq<State>, sched': Schedule) {
    && IsRun(max, run, sched) && IsRun(max, run', sched') && run <= run' && sched <= sched'
    && CleanFrom(max, run', sched', |sched|)
  }

  /** One step further. */
  lemma {:induction false} Further(max: nat, run: seq<State>, sched: Schedule, h: nat, x: Choice)
      returns (run': seq<State>, sched': Schedule)
    requires IsRun(max, run, sched) && h < |run[|sched|].handles|
    ensures IsRun(max, run', sched') && run <= run' && sched' == sched + [(h, x)]
    ensures run'[|sched'|] == Step(max, run[|sched|], h, x)
    ensures !Overflows(max, run[|sched|], h, x) ==> GoesOn(max, run, sched, run', sched')
  {
    run', sched' := run + [Step(max, run[|sched|], h, x)], sched + [(h, x)];
  }

  lemma {:induction false} Onward(
      max: nat, run: seq<State>, sched: Schedule, run': seq<State>, sched': Schedule, run'': seq<State>, sched'': Schedule)
    requires GoesOn(max, run, sched, run', sched') && GoesOn(max, run', sched', run'', sched'')
    ensures GoesOn(max, run, sched, run'', sched'')
  {
    forall i {:trigger sched''[i]} | |sched| <= i < |sched''|
      ensures !Overflows(max, run''[i], sched''[i].0, sched''[i].1)
    {
      if i < |sched'| {
        assert sched'[i] == sched''[i] && run'[i] == run''[i];
      }
    }
  }

  // ---- live handles ----

  lemma {:induction false} SomeLive(hs: seq<Handle>, side: Side) returns (h: nat)
    requires Lives(hs, side) > 0
    ensures h < |hs| && hs[h] == Handle(side, Live)
  {
    h := |hs| - 1;
    if hs[h] != Handle(side, Live) {
      h := SomeLive(hs[..h], side);
    }
  }

  lemma AnotherLive(hs: seq<Handle>, h: nat, side: Side) returns (g: nat)
    requires h < |hs| && Lives(hs, side) >= 2
    ensures g < |hs| && g != h && hs[g] == Handle(side, Live)
  {
    LivesMoved(hs, h, Handle(side, Gone), side);
    g := SomeLive(hs[h := Handle(side, Gone)], side);
  }

  // ---- the end of the channel ----

  predicate Lasting(i: Handle, side: Side) { i.side == side && (i.pc.Closing? || i.pc.Swapping?) }

  /**
   One side has set `destroy` though its handle `g` is live; the other still has
   its handles, or one on its way to find `destroy` set.
   */
  ghost predicate Doomed(max: nat, s: State, side: Side, g: nat) {
    && !s.fault && !s.mem.freed && s.mem.destroy && LiveAt(s, g, Other(side))
    && Count(s.mem, side) == Lives(s.handles, side) <= max
    && (Count(s.mem, side) == 0 ==> exists e :: 0 <= e < |s.handles| && Lasting(s.handles[e], side))
  }

  /** The channel is freed, and the next use of a live handle goes to freed memory. */
  ghost predicate Dead(max: nat, s: State, side: Side, g: nat) {
    !s.fault && s.mem.freed && LiveAt(s, g, side) && Step(max, s, g, Use).fault
  }

  /** The last handle finds `destroy` set, and frees. */
  lemma LastFrees(max: nat, run: seq<State>, sched: Schedule, side: Side, g: nat, e: nat)
      returns (run': seq<State>, sched': Schedule)
    requires IsRun(max, run, sched) && Doomed(max, run[|sched|], side, g)
    requires e < |run[|sched|].handles| && run[|sched|].handles[e] == Handle(side, Swapping)
    ensures GoesOn(max, run, sched, run', sched') && Dead(max, run'[|sched'|], Other(side), g)
  {
    var run1, sched1 := Further(max, run, sched, e, Use);
    assert run1[|sched1|].handles[e] == Handle(side, Freeing);
    run', sched' := Further(max, run1, sched1, e, Use);
    Onward(max, run, sched, run1, sched1, run', sched');
  }

  lemma LastCloses(max: nat, run: seq<State>, sched: Schedule, side: Side, g: nat, e: nat)
      returns (run': seq<State>, sched': Schedule)
    requires IsRun(max, run, sched) && Doomed(max, run[|sched|], side, g)
    requires e < |run[|sched|].handles| && Lasting(run[|sched|].handles[e], side)
    ensures GoesOn(max, run, sched, run', sched') && Dead(max, run'[|sched'|], Other(side), g)
  {
    if run[|sched|].handles[e].pc.Swapping? {
      run', sched' := LastFrees(max, run, sched, side, g, e);
    } else {
      var run1, sched1 := Further(max, run, sched, e, Use);
      StillDoomed(max, run[|sched|], side, g, e);
      run', sched' := LastFrees(max, run1, sched1, side, g, e);
      Onward(max, run, sched, run1, sched1, run', sched');
    }
  }

  lemma StillDoomed(max: nat, s: State, side: Side, g: nat, e: nat)
    requires Doomed(max, s, side, g) && e < |s.handles| && s.handles[e] == Handle(side, Closing)
    ensures Doomed(max, Step(max, s, e, Use), side, g) && Step(max, s, e, Use).handles[e] == Handle(side, Swapping)
  {
    MovedLives(s.handles, e, Swapping, false, side);
    assert Lasting(Step(max, s, e, Use).handles[e], side);
  }

  lemma DropDoomed(max: nat, s: State, side: Side, g: nat, e: nat)
    requires Doomed(max, s, side, g) && LiveAt(s, e, side)
    ensures Doomed(max, Step(max, s, e, Drop), side, g)
    ensures Count(Step(max, s, e, Drop).mem, side) == Count(s.mem, side) - 1
  {
    LivesThere(s.handles, e, side);
    MovedLives(s.handles, e, MemStep(max, s.mem, s.handles[e], Drop).pc, false, side);
    if Count(s.mem, side) == 1 {
      assert Lasting(Step(max, s, e, Drop).handles[e], side);
    }
  }

  /** All handles of the other side are dropped, one after the other. */
  lemma {:induction false} Doom(max: nat, run: seq<State>, sched: Schedule, side: Side, g: nat)
      returns (run': seq<State>, sched': Schedule)
    requires IsRun(max, run, sched) && Doomed(max, run[|sched|], side, g)
    ensures GoesOn(max, run, sched, run', sched') && Dead(max, run'[|sched'|], Other(side), g)
    decreases Count(run[|sched|].mem, side)
  {
    var s := run[|sched|];
    if Count(s.mem, side) == 0 {
      var e :| 0 <= e < |s.handles| && Lasting(s.handles[e], side);
      run', sched' := LastCloses(max, run, sched, side, g, e);
    } else {
      var e := SomeLive(s.handles, side);
      DropDoomed(max, s, side, g, e);
      var run1, sched1 := Further(max, run, sched, e, Drop);
      run', sched' := Doom(max, run1, sched1, side, g);
      Onward(max, run, sched, run1, sched1, run', sched');
    }
  }

  // ---- from the overflow to there ----

  /** The other side has handles, or one that is closing, or is done. */
  ghost predicate Opposite(max: nat, s: State, side: Side) {
    && Count(s.mem, side) == Lives(s.handles, side) <= max
    && (Count(s.mem, side) == 0 && !s.mem.destroy ==> exists e :: 0 <= e < |s.handles| && Lasting(s.handles[e], side))
    && (s.mem.destroy ==> Count(s.mem, side) == 0)
  }

  /** A side counts 0 or 1 with handle `g` live, and handle `k` is at `pc`. */
  ghost predicate Adrift(max: nat, s: State, side: Side, n: nat, g: nat) {
    && !s.fault && !s.mem.freed && LiveAt(s, g, side) && Count(s.mem, side) == n && Opposite(max, s, Other(side))
  }

  lemma AfterWrap(max: nat, s: State, h: nat) returns (g: nat)
    requires max >= 2 && Inv(max, s) && Overflows(max, s, h, Clone)
    ensures Adrift(max, Step(max, s, h, Clone), s.handles[h].side, 0, g)
  {
    var side := s.handles[h].side;
    NotFreed(max, s, h);
    g := AnotherLive(s.handles, h, side);
    MovedLives(s.handles, h, Aborting, false, Other(side));
    var last := Last(s, Other(side));
    if Count(s.mem, Other(side)) == 0 && !s.mem.destroy {
      assert Lasting(s.handles[last.value], Other(side));
      assert Step(max, s, h, Clone).handles[last.value] == s.handles[last.value];
    }
  }

  /** A step of a handle of one side leaves the other side as it is. */
  lemma OppositeStays(max: nat, s: State, side: Side, k: nat, x: Choice)
    requires Opposite(max, s, Other(side)) && k < |s.handles| && s.handles[k].side == side && !s.mem.freed
    requires s.handles[k].pc.Live? || s.handles[k].pc.Closing?
    requires s.handles[k].pc.Live? && x.Clone? ==> Count(s.mem, side) != max
    ensures Opposite(max, Step(max, s, k, x), Other(side))
  {
    var out := MemStep(max, s.mem, s.handles[k], x);
    MovedLives(s.handles, k, out.pc, out.clones, Other(side));
    OtherCount(max, s.mem, s.handles[k], x);
    if e: nat :| e < |s.handles| && Lasting(s.handles[e], Other(side)) {
      assert Step(max, s, k, x).handles[e] == s.handles[e];
    }
  }

  lemma OtherCount(max: nat, mem: Mem, h: Handle, x: Choice)
    requires (h.pc.Live? || h.pc.Closing?) && !mem.freed
    ensures var out := MemStep(max, mem, h, x);
      Count(out.mem, Other(h.side)) == Count(mem, Other(h.side)) && out.mem.destroy == mem.destroy
  {
  }

  /** `g` clones; the clone is dropped, taken for the last, and shuts the channel down. */
  lemma Mistaken(max: nat, run: seq<State>, sched: Schedule, side: Side, g: nat)
      returns (run': seq<State>, sched': Schedule, k: nat)
    requires max >= 2 && IsRun(max, run, sched) && Adrift(max, run[|sched|], side, 0, g)
    ensures GoesOn(max, run, sched, run', sched') && Adrift(max, run'[|sched'|], side, 0, g)
    ensures k < |run'[|sched'|].handles| && k != g && run'[|sched'|].handles[k] == Handle(side, Swapping)
  {
    var s := run[|sched|];
    k := |s.handles|;
    OppositeStays(max, s, side, g, Clone);
    var run1, sched1 := Further(max, run, sched, g, Clone);
    OppositeStays(max, run1[|sched1|], side, k, Drop);
    var run2, sched2 := Further(max, run1, sched1, k, Drop);
    OppositeStays(max, run2[|sched2|], side, k, Use);
    run', sched' := Further(max, run2, sched2, k, Use);
    Onward(max, run, sched, run1, sched1, run2, sched2);
    Onward(max, run, sched, run2, sched2, run', sched');
  }

  /** It sets `destroy`, and frees the channel at once if the other side is done. */
  lemma Destroys(max: nat, run: seq<State>, sched: Schedule, side: Side, g: nat, k: nat)
      returns (run': seq<State>, sched': Schedule)
    requires IsRun(max, run, sched) && Adrift(max, run[|sched|], side, 0, g)
    requires k < |run[|sched|].handles| && k != g && run[|sched|].handles[k] == Handle(side, Swapping)
    ensures GoesOn(max, run, sched, run', sched') && Dead(max, run'[|sched'|], side, g)
  {
    var s := run[|sched|];
    var run1, sched1 := Further(max, run, sched, k, Use);
    if s.mem.destroy {
      run', sched' := Further(max, run1, sched1, k, Use);
    } else {
      SetDooms(max, s, side, g, k);
      run', sched' := Doom(max, run1, sched1, Other(side), g);
    }
    Onward(max, run, sched, run1, sched1, run', sched');
  }

  lemma SetDooms(max: nat, s: State, side: Side, g: nat, k: nat)
    requires Adrift(max, s, side, 0, g) && !s.mem.destroy
    requires k < |s.handles| && k != g && s.handles[k] == Handle(side, Swapping)
    ensures Doomed(max, Step(max, s, k, Use), Other(side), g)
  {
    MovedLives(s.handles, k, Gone, false, Other(side));
    if Count(s.mem, Other(side)) == 0 {
      var e :| 0 <= e < |s.handles| && Lasting(s.handles[e], Other(side));
      assert Step(max, s, k, Use).handles[e] == s.handles[e];
    }
  }

  // ---- the results ----

  /**
   For every word size and every run: after a clone at the largest count there is
   a continuation, without any further such clone, in which the channel is freed
   while another handle of that side is live; its next use goes to freed memory.
   */
  lemma OverflowIsFatal(max: nat, run: seq<State>, sched: Schedule, h: nat)
      returns (run': seq<State>, sched': Schedule, g: nat)
    requires max >= 2 && IsRun(max, run, sched) && NoOverflow(max, run, sched) && Overflows(max, run[|sched|], h, Clone)
    ensures IsRun(max, run', sched') && run <= run' && sched + [(h, Clone)] <= sched'
    ensures CleanFrom(max, run', sched', |sched| + 1)
    ensures Dead(max, run'[|sched'|], run[|sched|].handles[h].side, g)
  {
    var side := run[|sched|].handles[h].side;
    Always(max, run, sched, |sched|);
    g := AfterWrap(max, run[|sched|], h);
    var run1, sched1 := Further(max, run, sched, h, Clone);
    var run2, sched2, k := Mistaken(max, run1, sched1, side, g);
    run', sched' := Destroys(max, run2, sched2, side, g, k);
    Onward(max, run1, sched1, run2, sched2, run', sched');
  }

  /** The step is safe: no continuation, without any further clone at the largest count, touches freed memory. */
  ghost predicate SafeStep(max: nat, run: seq<State>, sched: Schedule, h: nat, x: Choice) {
    forall run': seq<State>, sched': Schedule ::
      IsRun(max, run', sched') && run <= run' && sched + [(h, x)] <= sched' && CleanFrom(max, run', sched', |sched| + 1) ==>
        !run'[|sched'|].fault
  }

  lemma CleanIsSafe(max: nat, run: seq<State>, sched: Schedule, h: nat, x: Choice, run': seq<State>, sched': Schedule)
    requires max >= 1 && IsRun(max, run, sched) && NoOverflow(max, run, sched) && !Overflows(max, run[|sched|], h, x)
    requires IsRun(max, run', sched') && run <= run' && sched + [(h, x)] <= sched' && CleanFrom(max, run', sched', |sched| + 1)
    ensures !run'[|sched'|].fault
  {
    forall i {:trigger sched'[i]} | 0 <= i < |sched'| ensures !Overflows(max, run'[i], sched'[i].0, sched'[i].1) {
      if i < |sched| {
        assert sched'[i] == (sched + [(h, x)])[i] == sched[i] && run'[i] == run[i];
      } else if i == |sched| {
        assert sched'[i] == (sched + [(h, x)])[i] && run'[i] == run[i];
      }
    }
    Always(max, run', sched', |sched'|);
  }

  /**
   Exactly when a step is safe: if it is not a clone at the largest count. The
   condition can be read off the count before the step.
   */
  lemma SafeExactly(max: nat, run: seq<State>, sched: Schedule, h: nat, x: Choice)
    requires max >= 2 && IsRun(max, run, sched) && NoOverflow(max, run, sched) && h < |run[|sched|].handles|
    ensures SafeStep(max, run, sched, h, x) <==> !Overflows(max, run[|sched|], h, x)
  {
    if Overflows(max, run[|sched|], h, x) {
      var run1, sched1, g := OverflowIsFatal(max, run, sched, h);
      var run2, sched2 := Further(max, run1, sched1, g, Use);
      assert CleanFrom(max, run2, sched2, |sched| + 1) by {
        forall i {:trigger sched2[i]} | |sched| + 1 <= i < |sched2|
          ensures !Overflows(max, run2[i], sched2[i].0, sched2[i].1)
        {
          if i < |sched1| {
            assert sched2[i] == sched1[i] && run2[i] == run1[i];
          }
        }
      }
      assert run2[|sched2|].fault;
    } else {
      forall run': seq<State>, sched': Schedule |
        IsRun(max, run', sched') && run <= run' && sched + [(h, x)] <= sched' && CleanFrom(max, run', sched', |sched| + 1)
        ensures !run'[|sched'|].fault
      {
        CleanIsSafe(max, run, sched, h, x, run', sched');
      }
    }
  }

  /** For every word size there is a run that gets there: the first sender is cloned often enough. */
  lemma {:induction false} OverflowReached(max: nat, n: nat) returns (run: seq<State>, sched: Schedule)
    requires 1 <= n <= max
    ensures IsRun(max, run, sched) && NoOverflow(max, run, sched)
    ensures LiveAt(run[|sched|], 0, Sender) && run[|sched|].mem.senders == n && !run[|sched|].mem.freed
    ensures n == max ==> Overflows(max, run[|sched|], 0, Clone)
  {
    if n == 1 {
      run, sched := [New()], [];
    } else {
      var run1, sched1 := OverflowReached(max, n - 1);
      run, sched := Further(max, run1, sched1, 0, Clone);
      forall i {:trigger sched[i]} | 0 <= i < |sched| ensures !Overflows(max, run[i], sched[i].0, sched[i].1) {
        if i < |sched1| {
          assert sched[i] == sched1[i] && run[i] == run1[i];
        }
      }
    }
  }
}
