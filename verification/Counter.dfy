/**
 The two-sided reference counter (src/counter.rs) as a state machine. Every
 handle, sender or receiver, is a process of its own: it is cloned, used and
 dropped. One step per atomic access; `shutdown` is one access to the channel;
 counts wrap around at `max`, the largest machine word.
 */
module Counter {
  import opened Common

  datatype Side = Sender | Receiver

  function Other(s: Side): Side { if s.Sender? then Receiver else Sender }

  datatype Pc =
    | Live
    | Closing    // was the last of its side: calls shutdown
    | Swapping   // sets `destroy`
    | Freeing    // found it set: frees the channel
    | Gone
    | Aborting   // cloned at the largest count: the process is about to abort

  datatype Handle = Handle(side: Side, pc: Pc)

  datatype Mem = Mem(senders: nat, receivers: nat, destroy: bool, freed: bool)

  datatype Choice = Clone | Use | Drop

  function Count(mem: Mem, s: Side): nat { if s.Sender? then mem.senders else mem.receivers }

  function SetCount(mem: Mem, s: Side, n: nat): Mem {
    if s.Sender? then Mem(n, mem.receivers, mem.destroy, mem.freed) else Mem(mem.senders, n, mem.destroy, mem.freed)
  }

  /** `clones` is the handle made by this step, if one is. */
  datatype Out = Out(mem: Mem, pc: Pc, clones: bool, fault: bool)

  function Ok(mem: Mem, pc: Pc): Out { Out(mem, pc, false, false) }

  /** Every access needs the channel to be still there. */
  function MemStep(max: nat, mem: Mem, h: Handle, x: Choice): Out {
    if h.pc.Gone? || h.pc.Aborting? then Ok(mem, h.pc)
    else if mem.freed then Out(mem, Gone, false, true)
    else match h.pc
      case Live =>
        var n := Count(mem, h.side);
        (match x
         case Use => Ok(mem, Live)
         case Clone =>
           if n == max then Ok(SetCount(mem, h.side, 0), Aborting)
           else Out(SetCount(mem, h.side, n + 1), Live, true, false)
         case Drop =>
           if n == 1 then Ok(SetCount(mem, h.side, 0), Closing)
           else Ok(SetCount(mem, h.side, if n == 0 then max else n - 1), Gone))
      case Closing => Ok(mem, Swapping)
      case Swapping => Ok(Mem(mem.senders, mem.receivers, true, mem.freed), if mem.destroy then Freeing else Gone)
      case _ => Ok(Mem(mem.senders, mem.receivers, mem.destroy, true), Gone)
  }

  /**
   `last[s]` is the handle that was the last of side `s`; `shutdowns` counts the
   calls of shutdown, `frees` the times the channel is freed.
   */
  datatype State = State(
    mem: Mem, handles: seq<Handle>, fault: bool,
    lastSender: Option<nat>, lastReceiver: Option<nat>, shutdowns: nat, frees: nat)

  function Last(s: State, side: Side): Option<nat> { if side.Sender? then s.lastSender else s.lastReceiver }

  function Moved(hs: seq<Handle>, h: nat, pc: Pc, clones: bool): seq<Handle>
    requires h < |hs|
  {
    hs[h := Handle(hs[h].side, pc)] + (if clones then [Handle(hs[h].side, Live)] else [])
  }

  function Step(max: nat, s: State, h: nat, x: Choice): State
    requires h < |s.handles|
  {
    var i := s.handles[h];
    var out := MemStep(max, s.mem, i, x);
    State(out.mem, Moved(s.handles, h, out.pc, out.clones), s.fault || out.fault,
          if out.pc.Closing? && i.side.Sender? then Some(h) else s.lastSender,
          if out.pc.Closing? && i.side.Receiver? then Some(h) else s.lastReceiver,
          s.shutdowns + (if i.pc.Closing? then 1 else 0),
          s.frees + (if i.pc.Freeing? then 1 else 0))
  }

  /** One sender, one receiver. */
  function New(): State {
    State(Mem(1, 1, false, false), [Handle(Sender, Live), Handle(Receiver, Live)], false, None, None, 0, 0)
  }

  // ---- live handles ----

  /** The number of live handles of one side. */
  function Lives(hs: seq<Handle>, side: Side): nat {
    if hs == [] then 0 else Lives(hs[..|hs| - 1], side) + (if hs[|hs| - 1] == Handle(side, Live) then 1 else 0)
  }

  lemma {:induction false} LivesMoved(hs: seq<Handle>, h: nat, i: Handle, side: Side)
    requires h < |hs|
    ensures Lives(hs[h := i], side) ==
              Lives(hs, side) - (if hs[h] == Handle(side, Live) then 1 else 0) + (if i == Handle(side, Live) then 1 else 0)
  {
    var n := |hs| - 1;
    if h < n {
      assert hs[h := i][..n] == hs[..n][h := i];
      LivesMoved(hs[..n], h, i, side);
    } else {
      assert hs[h := i][..n] == hs[..n];
    }
  }

  lemma LivesAdded(hs: seq<Handle>, i: Handle, side: Side)
    ensures Lives(hs + [i], side) == Lives(hs, side) + (if i == Handle(side, Live) then 1 else 0)
  {
    assert (hs + [i])[..|hs|] == hs;
  }

  lemma {:induction false} LivesThere(hs: seq<Handle>, h: nat, side: Side)
    requires h < |hs| && hs[h] == Handle(side, Live)
    ensures Lives(hs, side) > 0
  {
    if h < |hs| - 1 {
      LivesThere(hs[..|hs| - 1], h, side);
    }
  }

  // ---- invariant ----

  predicate Ending(pc: Pc) { pc.Closing? || pc.Swapping? || pc.Freeing? }

  /** The counts are the live handles; a side that has none has a last handle. */
  ghost predicate SideOk(max: nat, mem: Mem, hs: seq<Handle>, side: Side, last: Option<nat>) {
    && Count(mem, side) == Lives(hs, side) <= max
    && (last.Some? <==> Count(mem, side) == 0)
    && (last.Some? ==> last.value < |hs| && hs[last.value].side == side
                       && (Ending(hs[last.value].pc) || hs[last.value].pc.Gone?))
    && (forall h :: 0 <= h < |hs| && hs[h].side == side && Ending(hs[h].pc) ==> last == Some(h))
    && (forall h :: 0 <= h < |hs| ==> !hs[h].pc.Aborting?)
  }

  /** How far a side has come: Live, or where its last handle is. */
  function Stage(hs: seq<Handle>, last: Option<nat>): Pc {
    if last.Some? && last.value < |hs| then hs[last.value].pc else Live
  }

  predicate Passed(stage: Pc) { stage.Freeing? || stage.Gone? }

  function Called(stage: Pc): nat { if stage.Live? || stage.Closing? then 0 else 1 }

  /** The last handle that finds `destroy` set comes second, and only then. */
  predicate StagesOk(destroy: bool, freed: bool, a: Pc, b: Pc, shutdowns: nat, frees: nat) {
    && (destroy <==> Passed(a) || Passed(b))
    && (a.Freeing? ==> b.Gone?) && (b.Freeing? ==> a.Gone?)
    && (freed <==> a.Gone? && b.Gone?)
    && shutdowns == Called(a) + Called(b)
    && frees == (if freed then 1 else 0)
  }

  ghost predicate Inv(max: nat, s: State) {
    && !s.fault
    && SideOk(max, s.mem, s.handles, Sender, s.lastSender)
    && SideOk(max, s.mem, s.handles, Receiver, s.lastReceiver)
    && StagesOk(s.mem.destroy, s.mem.freed, Stage(s.handles, s.lastSender), Stage(s.handles, s.lastReceiver), s.shutdowns, s.frees)
  }

  /** A clone of handle `h` would wrap the count around. */
  predicate Overflows(max: nat, s: State, h: nat, x: Choice) {
    h < |s.handles| && s.handles[h].pc.Live? && x.Clone? && Count(s.mem, s.handles[h].side) == max
  }

  lemma MovedLives(hs: seq<Handle>, h: nat, pc: Pc, clones: bool, side: Side)
    requires h < |hs|
    ensures Lives(Moved(hs, h, pc, clones), side) ==
              Lives(hs, side) - (if hs[h] == Handle(side, Live) then 1 else 0)
              + (if hs[h].side == side && pc.Live? then 1 else 0) + (if hs[h].side == side && clones then 1 else 0)
  {
    LivesMoved(hs, h, Handle(hs[h].side, pc), side);
    LivesAdded(hs[h := Handle(hs[h].side, pc)], Handle(hs[h].side, Live), side);
    assert hs[h := Handle(hs[h].side, pc)] + [] == hs[h := Handle(hs[h].side, pc)];
  }

  /** A handle that still has something to do finds the channel. */
  lemma NotFreed(max: nat, s: State, h: nat)
    requires Inv(max, s) && h < |s.handles| && !s.handles[h].pc.Gone?
    ensures !s.mem.freed
  {
    var side := s.handles[h].side;
    if s.handles[h].pc.Live? {
      LivesThere(s.handles, h, side);
    }
  }

  ghost predicate OwnSideKept(max: nat, s: State, h: nat, x: Choice)
    requires h < |s.handles|
  {
    var s', side := Step(max, s, h, x), s.handles[h].side;
    SideOk(max, s'.mem, s'.handles, side, Last(s', side))
  }

  lemma OwnUse(max: nat, s: State, h: nat, x: Choice)
    requires Inv(max, s) && h < |s.handles| && s.handles[h].pc.Live? && x.Use?
    requires !Overflows(max, s, h, x)
    ensures OwnSideKept(max, s, h, x)
  {
    var side := s.handles[h].side;
    var out := MemStep(max, s.mem, s.handles[h], x);
    MovedLives(s.handles, h, out.pc, out.clones, side);
    NotFreed(max, s, h);
    LivesThere(s.handles, h, side);
  }

  lemma OwnClone(max: nat, s: State, h: nat, x: Choice)
    requires Inv(max, s) && h < |s.handles| && s.handles[h].pc.Live? && x.Clone?
    requires !Overflows(max, s, h, x)
    ensures OwnSideKept(max, s, h, x)
  {
    var side := s.handles[h].side;
    var out := MemStep(max, s.mem, s.handles[h], x);
    MovedLives(s.handles, h, out.pc, out.clones, side);
    NotFreed(max, s, h);
    LivesThere(s.handles, h, side);
  }

  lemma OwnDrop(max: nat, s: State, h: nat, x: Choice)
    requires Inv(max, s) && h < |s.handles| && s.handles[h].pc.Live? && x.Drop?
    requires !Overflows(max, s, h, x)
    ensures OwnSideKept(max, s, h, x)
  {
    var side := s.handles[h].side;
    var out := MemStep(max, s.mem, s.handles[h], x);
    MovedLives(s.handles, h, out.pc, out.clones, side);
    NotFreed(max, s, h);
    LivesThere(s.handles, h, side);
  }

  lemma SideEnds(max: nat, mem: Mem, mem': Mem, hs: seq<Handle>, h: nat, pc: Pc, side: Side, last: Option<nat>)
    requires SideOk(max, mem, hs, side, last) && h < |hs| && hs[h].side == side && Ending(hs[h].pc)
    requires Count(mem', side) == Count(mem, side) && (Ending(pc) || pc.Gone?)
    ensures SideOk(max, mem', Moved(hs, h, pc, false), side, last)
  {
    MovedLives(hs, h, pc, false, side);
  }

  lemma OwnEnding(max: nat, s: State, h: nat, x: Choice)
    requires Inv(max, s) && h < |s.handles| && Ending(s.handles[h].pc)
    ensures OwnSideKept(max, s, h, x)
  {
    NotFreed(max, s, h);
    var out := MemStep(max, s.mem, s.handles[h], x);
    SideEnds(max, s.mem, out.mem, s.handles, h, out.pc, s.handles[h].side, Last(s, s.handles[h].side));
  }

  lemma OwnGone(max: nat, s: State, h: nat, x: Choice)
    requires Inv(max, s) && h < |s.handles| && s.handles[h].pc.Gone?
    ensures Step(max, s, h, x) == s
  {
    assert s.handles[h := Handle(s.handles[h].side, Gone)] == s.handles;
  }

  lemma OtherFrame(max: nat, s: State, h: nat, x: Choice)
    requires h < |s.handles| && !Overflows(max, s, h, x) && !s.mem.freed && !s.handles[h].pc.Aborting?
    ensures var s', out, side := Step(max, s, h, x), MemStep(max, s.mem, s.handles[h], x), Other(s.handles[h].side);
      Count(out.mem, side) == Count(s.mem, side) && Last(s', side) == Last(s, side) && !out.pc.Aborting?
  {
  }

  /** A side that the handle is not of: none of its handles moves. */
  lemma OtherSide(max: nat, s: State, h: nat, x: Choice)
    requires h < |s.handles| && !Overflows(max, s, h, x) && !s.mem.freed && !s.handles[h].pc.Aborting?
    requires var side := Other(s.handles[h].side); SideOk(max, s.mem, s.handles, side, Last(s, side))
    ensures var s', side := Step(max, s, h, x), Other(s.handles[h].side);
      SideOk(max, s'.mem, s'.handles, side, Last(s', side))
  {
    var side := Other(s.handles[h].side);
    var out := MemStep(max, s.mem, s.handles[h], x);
    OtherFrame(max, s, h, x);
    MovedLives(s.handles, h, out.pc, out.clones, side);
    SideMoved(max, s.mem, out.mem, s.handles, h, out.pc, out.clones, side, Last(s, side));
  }

  lemma SideMoved(max: nat, mem: Mem, mem': Mem, hs: seq<Handle>, h: nat, pc: Pc, clones: bool, side: Side, last: Option<nat>)
    requires SideOk(max, mem, hs, side, last) && h < |hs| && hs[h].side != side && !pc.Aborting?
    requires Count(mem', side) == Count(mem, side) && Lives(Moved(hs, h, pc, clones), side) == Lives(hs, side)
    ensures SideOk(max, mem', Moved(hs, h, pc, clones), side, last)
  {
  }

  ghost predicate StagesGood(s: State) {
    StagesOk(s.mem.destroy, s.mem.freed, Stage(s.handles, s.lastSender), Stage(s.handles, s.lastReceiver), s.shutdowns, s.frees)
  }

  lemma StagesLive(max: nat, s: State, h: nat, x: Choice)
    requires Inv(max, s) && h < |s.handles| && !Overflows(max, s, h, x) && s.handles[h].pc.Live?
    ensures StagesGood(Step(max, s, h, x)) && !Step(max, s, h, x).fault
  {
    NotFreed(max, s, h);
    LivesThere(s.handles, h, s.handles[h].side);
    assert Last(s, s.handles[h].side).None?;
  }

  lemma StagesEnding(max: nat, s: State, h: nat, x: Choice)
    requires Inv(max, s) && h < |s.handles| && Ending(s.handles[h].pc)
    ensures StagesGood(Step(max, s, h, x)) && !Step(max, s, h, x).fault
  {
    NotFreed(max, s, h);
    assert Last(s, s.handles[h].side) == Some(h);
  }

  lemma StagesKept(max: nat, s: State, h: nat, x: Choice)
    requires Inv(max, s) && h < |s.handles| && !Overflows(max, s, h, x)
    ensures StagesGood(Step(max, s, h, x)) && !Step(max, s, h, x).fault
  {
    if s.handles[h].pc.Live? {
      StagesLive(max, s, h, x);
    } else if Ending(s.handles[h].pc) {
      StagesEnding(max, s, h, x);
    }
  }

  /** Every step keeps the invariant, unless it is a clone at the largest count. */
  lemma StepKeeps(max: nat, s: State, h: nat, x: Choice)
    requires Inv(max, s) && h < |s.handles| && !Overflows(max, s, h, x)
    ensures Inv(max, Step(max, s, h, x))
  {
    if s.handles[h].pc.Gone? {
      OwnGone(max, s, h, x);
      return;
    }
    if s.handles[h].pc.Live? {
      match x {
        case Use => OwnUse(max, s, h, x);
        case Clone => OwnClone(max, s, h, x);
        case Drop => OwnDrop(max, s, h, x);
      }
    } else {
      OwnEnding(max, s, h, x);
    }
    NotFreed(max, s, h);
    OtherSide(max, s, h, x);
    StagesKept(max, s, h, x);
  }

  // ---- runs ----

  type Schedule = seq<(nat, Choice)>

  /** The states of a counter under a schedule; nothing is done by a handle that does not exist yet. */
  ghost predicate IsRun(max: nat, run: seq<State>, sched: Schedule) {
    && |run| == |sched| + 1 && run[0] == New()
    && forall i {:trigger sched[i]} :: 0 <= i < |sched| ==>
         run[i + 1] == if sched[i].0 < |run[i].handles| then Step(max, run[i], sched[i].0, sched[i].1) else run[i]
  }

  /** No clone is made when the count is at its largest. */
  ghost predicate NoOverflow(max: nat, run: seq<State>, sched: Schedule)
    requires |run| == |sched| + 1
  {
    forall i {:trigger sched[i]} :: 0 <= i < |sched| ==> !Overflows(max, run[i], sched[i].0, sched[i].1)
  }

  lemma NewInv(max: nat)
    requires max >= 1
    ensures Inv(max, New())
  {
    var s := New();
    assert s.handles[..1] == [Handle(Sender, Live)];
    assert Lives(s.handles, Sender) == 1 && Lives(s.handles, Receiver) == 1;
  }

  /** In every run without overflow the invariant holds throughout; with it goes `!fault`: nothing touches the channel once it is freed. */
  lemma {:induction false} Always(max: nat, run: seq<State>, sched: Schedule, i: nat)
    requires max >= 1 && IsRun(max, run, sched) && NoOverflow(max, run, sched) && i < |run|
    ensures Inv(max, run[i])
  {
    if i == 0 {
      NewInv(max);
    } else {
      Always(max, run, sched, i - 1);
      var x := sched[i - 1];
      if x.0 < |run[i - 1].handles| {
        StepKeeps(max, run[i - 1], x.0, x.1);
      }
    }
  }

  /** Each count is the number of live handles of its side. */
  lemma CountsAreHandles(max: nat, run: seq<State>, sched: Schedule, i: nat)
    requires max >= 1 && IsRun(max, run, sched) && NoOverflow(max, run, sched) && i < |run|
    ensures run[i].mem.senders == Lives(run[i].handles, Sender) && run[i].mem.receivers == Lives(run[i].handles, Receiver)
  {
    Always(max, run, sched, i);
  }

  /**
   Once the channel is freed no handle is live and none is inside `disconnect`;
   the last handle of each side has called shutdown, which nobody else did; and
   the channel has been freed once.
   */
  lemma FreedAtTheEnd(max: nat, run: seq<State>, sched: Schedule, i: nat, h: nat)
    requires max >= 1 && IsRun(max, run, sched) && NoOverflow(max, run, sched) && i < |run|
    requires run[i].mem.freed
    ensures h < |run[i].handles| ==> run[i].handles[h].pc.Gone?
    ensures run[i].shutdowns == 2 && run[i].frees == 1
  {
    Always(max, run, sched, i);
    if h < |run[i].handles| && !run[i].handles[h].pc.Gone? {
      NotFreed(max, run[i], h);
    }
  }

  lemma {:induction false} NoneLive(hs: seq<Handle>, side: Side)
    requires forall h :: 0 <= h < |hs| ==> !hs[h].pc.Live?
    ensures Lives(hs, side) == 0
  {
    if hs != [] {
      NoneLive(hs[..|hs| - 1], side);
    }
  }

  /** When every handle has been dropped, and is done, the channel has been freed, exactly once. */
  lemma FreedInTheEnd(max: nat, run: seq<State>, sched: Schedule, i: nat)
    requires max >= 1 && IsRun(max, run, sched) && NoOverflow(max, run, sched) && i < |run|
    requires forall h :: 0 <= h < |run[i].handles| ==> run[i].handles[h].pc.Gone?
    ensures run[i].mem.freed && run[i].frees == 1 && run[i].shutdowns == 2
  {
    Always(max, run, sched, i);
    NoneLive(run[i].handles, Sender);
    NoneLive(run[i].handles, Receiver);
  }
}
