/** The results about the unbounded channel: for every number of threads and every schedule. */
module ListTheorems {
  import opened Common
  import opened Fifo
  import opened ListProtocol
  import opened ListInvariant
  import opened ListFrame
  import Send = ListSendSteps
  import Recv = ListRecvSteps
  import Read = ListReadSteps

  // ---- runs ----

  /** Thread and choice of each step; a step of a thread that does not exist does nothing. */
  type Schedule = seq<(nat, Choice)>

  ghost function Turn(s: State, x: (nat, Choice)): State {
    if x.0 < |s.threads| then Step(s, x.0, x.1) else s
  }

  /** The states a new channel goes through under a schedule. */
  ghost predicate IsRun(run: seq<State>, sched: Schedule) {
    && |run| == |sched| + 1
    && Initial(run[0])
    && forall i {:trigger sched[i]} :: 0 <= i < |sched| ==> run[i + 1] == Turn(run[i], sched[i])
  }

  lemma StepKeeps(s: State, t: nat, c: Choice)
    requires Inv(s) && t < |s.threads|
    ensures Inv(Step(s, t, c))
  {
    if Send.Sending(s.threads[t]) {
      Send.SendKeeps(s, t, c);
    } else if Recv.Receiving(s.threads[t]) {
      Recv.RecvKeeps(s, t, c);
    } else if Read.Reading(s.threads[t]) {
      Read.ReadKeeps(s, t, c);
    } else {
      Read.OtherKeeps(s, t, c);
    }
  }

  lemma InitialShape(s: State)
    requires Initial(s)
    ensures Shape(s.mem, s.aux) && ChainOk(s.aux)
  {
  }

  lemma InitialBlocks(s: State)
    requires Initial(s)
    ensures Blocks(s.mem, s.aux)
  {
  }

  lemma InitialThreads(s: State)
    requires Initial(s)
    ensures Threads(s.mem, s.aux, s.threads)
  {
  }

  lemma InitialHeld(s: State)
    requires Initial(s)
    ensures Held(s.aux, s.threads)
  {
  }

  lemma InitialInv(s: State)
    requires Initial(s)
    ensures Inv(s)
  {
    InitialShape(s);
    InitialBlocks(s);
    InitialThreads(s);
    InitialHeld(s);
  }

  lemma TurnKeeps(s: State, x: (nat, Choice))
    requires Inv(s)
    ensures Inv(Turn(s, x))
  {
    if x.0 < |s.threads| {
      StepKeeps(s, x.0, x.1);
    }
  }

  /**
   The invariant holds throughout every run. With it goes `!fault`: in no run is
   a freed block touched, a block freed twice, a message read before it is
   written or after it is moved out, or an absent spare unwrapped.
   */
  lemma {:induction false} Always(run: seq<State>, sched: Schedule, i: nat)
    requires IsRun(run, sched) && i < |run|
    ensures Inv(run[i]) && !run[i].fault
  {
    if i == 0 {
      InitialInv(run[0]);
    } else {
      Always(run, sched, i - 1);
      TurnKeeps(run[i - 1], sched[i - 1]);
    }
  }

  /** `s` is the state that some run has led to. */
  ghost predicate Reachable(s: State) {
    exists run: seq<State>, sched: Schedule :: IsRun(run, sched) && run[|sched|] == s
  }

  lemma ReachableInv(s: State)
    requires Reachable(s)
    ensures Inv(s)
  {
    var run: seq<State>, sched: Schedule :| IsRun(run, sched) && run[|sched|] == s;
    Always(run, sched, |sched|);
  }

  lemma StartReachable(s: State)
    requires Initial(s)
    ensures Reachable(s)
  {
    var run, sched: Schedule := [s], [];
    assert IsRun(run, sched) && run[|sched|] == s;
  }

  lemma StepReaches(s: State, t: nat, c: Choice)
    requires Reachable(s) && t < |s.threads|
    ensures Reachable(Step(s, t, c))
  {
    var run: seq<State>, sched: Schedule :| IsRun(run, sched) && run[|sched|] == s;
    var run', sched' := run + [Turn(s, (t, c))], sched + [(t, c)];
    assert IsRun(run', sched') && run'[|sched'|] == Step(s, t, c);
  }

  /** Every state of every run is reachable. */
  lemma RunReaches(run: seq<State>, sched: Schedule, i: nat)
    requires IsRun(run, sched) && i < |run|
    ensures Reachable(run[i])
  {
    var run', sched' := run[..i + 1], sched[..i];
    assert IsRun(run', sched') && run'[|sched'|] == run[i];
  }

  // ---- refinement of the FIFO queue ----

  /** What the channel holds: the accepted messages not yet claimed by a receiver. */
  ghost function AbsOf(mem: Mem, log: seq<Msg>): Queue {
    var n := Pos(Index(mem.head));
    Queue(if n <= |log| then log[n..] else [], Marked(mem.tail))
  }

  ghost function Abs(s: State): Queue { AbsOf(s.mem, s.aux.log) }

  /** The message at the head of the queue. */
  ghost function Front(mem: Mem, log: seq<Msg>): Event {
    var n := Pos(Index(mem.head));
    if n < |log| then Deq(log[n]) else Tau
  }

  /** Where an operation takes effect: the CAS on the tail or the head, the load
      of a marked tail, the load of the tail that finds the channel empty. */
  ghost function EventIn(mem: Mem, log: seq<Msg>, pc: Pc, c: Choice): Event {
    var pc' := MemStep(mem, pc, c).pc;
    match pc
    case SLoop(m, _, tail, _) =>
      if Marked(tail) then Reject else if pc'.SDropSpare? || pc'.SStoreTailBlock? then Enq(m) else Tau
    case RLoop(head, _) =>
      if pc'.Idle? then (if Marked(mem.tail) then SawClosed else SawEmpty) else Tau
    case RCas(_, _, _) => if pc'.RWaitWrite? || pc'.RWaitNext? then Front(mem, log) else Tau
    case Idle => if c.Shutdown? then Close(!Marked(mem.tail)) else Tau
    case _ => Tau
  }

  ghost function EventOf(s: State, x: (nat, Choice)): Event {
    if x.0 < |s.threads| then EventIn(s.mem, s.aux.log, s.threads[x.0], x.1) else Tau
  }

  /** One step, seen from the queue. */
  ghost predicate Refines(mem: Mem, aux: Aux, t: nat, pc: Pc, c: Choice) {
    var out := MemStep(mem, pc, c);
    QueueStep(None, AbsOf(mem, aux.log), EventIn(mem, aux.log, pc, c),
              AbsOf(out.mem, Annotate(mem, aux, t, pc, out).log))
  }

  lemma LoopKeepsHead(mem: Mem, aux: Aux, t: nat, pc: Pc, c: Choice)
    requires pc.SLoop?
    ensures var out := MemStep(mem, pc, c);
      && out.mem.head == mem.head
      && Annotate(mem, aux, t, pc, out).log ==
           (if out.pc.SDropSpare? || out.pc.SStoreTailBlock? then aux.log + [pc.m] else aux.log)
      && (out.mem.tail == mem.tail || (out.mem.tail == mem.tail + 2 == pc.tail + 2))
      && (out.pc.SDropSpare? || out.pc.SStoreTailBlock? ==> mem.tail == pc.tail && !Marked(pc.tail))
  {
  }

  lemma LoopRefines(mem: Mem, aux: Aux, t: nat, pc: Pc, c: Choice)
    requires Pos(Index(mem.head)) <= |aux.log| && pc.SLoop? && SavedTail(mem, pc.tail)
    ensures Refines(mem, aux, t, pc, c)
  {
    LoopKeepsHead(mem, aux, t, pc, c);
    var n := Pos(Index(mem.head));
    assert (aux.log + [pc.m])[n..] == aux.log[n..] + [pc.m];
  }

  lemma SendRefines(mem: Mem, aux: Aux, t: nat, pc: Pc, c: Choice)
    requires Send.Sending(pc) && !pc.SLoop?
    ensures Refines(mem, aux, t, pc, c)
  {
  }

  /** "Empty" and "disconnected" are true of the queue at the instant the tail is loaded. */
  lemma VerdictRefines(mem: Mem, aux: Aux, t: nat, pc: Pc, c: Choice)
    requires Shape(mem, aux) && RecvOk(mem, aux, t, pc) && pc.RLoop?
    ensures Refines(mem, aux, t, pc, c)
  {
  }

  lemma CasKeepsTail(mem: Mem, aux: Aux, t: nat, pc: Pc, c: Choice)
    requires pc.RCas?
    ensures var out := MemStep(mem, pc, c);
      && out.mem.tail == mem.tail && Annotate(mem, aux, t, pc, out).log == aux.log
      && (if out.pc.RWaitWrite? || out.pc.RWaitNext?
          then out.mem.head == pc.newHead && mem.head == pc.head else out.mem.head == mem.head)
  {
  }

  lemma NextPos(i: nat)
    requires i % 32 != 31
    ensures Pos(i + 1) == Pos(i) + 1
  {
  }

  lemma TakeRefines(mem: Mem, aux: Aux, t: nat, pc: Pc, c: Choice)
    requires Shape(mem, aux) && RecvOk(mem, aux, t, pc) && pc.RCas?
    ensures Refines(mem, aux, t, pc, c)
  {
    CasKeepsTail(mem, aux, t, pc, c);
    var out, n := MemStep(mem, pc, c), Pos(Index(mem.head));
    if out.pc.RWaitWrite? || out.pc.RWaitNext? {
      TakesFront(mem, out.mem, aux.log);
    }
  }

  /** Moving the head over a message takes it off the front of the queue. */
  lemma TakesFront(mem: Mem, mem': Mem, log: seq<Msg>)
    requires Index(mem'.head) == Index(mem.head) + 1 && mem'.tail == mem.tail && Index(mem.head) % 32 != 31
    requires Pos(Index(mem.head)) < |log|
    ensures QueueStep(None, AbsOf(mem, log), Front(mem, log), AbsOf(mem', log))
  {
    NextPos(Index(mem.head));
  }

  lemma AdvanceRefines(mem: Mem, aux: Aux, t: nat, pc: Pc, c: Choice)
    requires Shape(mem, aux) && RecvOk(mem, aux, t, pc) && pc.RStoreIndex?
    ensures Refines(mem, aux, t, pc, c)
  {
  }

  lemma RecvRefines(mem: Mem, aux: Aux, t: nat, pc: Pc, c: Choice)
    requires Recv.Receiving(pc) && !pc.RLoop? && !pc.RCas? && !pc.RStoreIndex?
    ensures Refines(mem, aux, t, pc, c)
  {
  }

  lemma ReadRefines(mem: Mem, aux: Aux, t: nat, pc: Pc, c: Choice)
    requires Read.Reading(pc)
    ensures Refines(mem, aux, t, pc, c)
  {
  }

  lemma OtherRefines(mem: Mem, aux: Aux, t: nat, pc: Pc, c: Choice)
    requires Read.Other(pc)
    ensures Refines(mem, aux, t, pc, c)
  {
  }

  /** Every step is one step of the queue. */
  lemma StepRefines(s: State, x: (nat, Choice))
    requires Inv(s)
    ensures QueueStep(None, Abs(s), EventOf(s, x), Abs(Turn(s, x)))
  {
    if x.0 < |s.threads| {
      ThreadFacts(s, x.0);
      AnyRefines(s.mem, s.aux, x.0, s.threads[x.0], x.1);
    }
  }

  lemma AnyRefines(mem: Mem, aux: Aux, t: nat, pc: Pc, c: Choice)
    requires Shape(mem, aux) && SendOk(mem, aux, t, pc) && RecvOk(mem, aux, t, pc)
    ensures Refines(mem, aux, t, pc, c)
  {
    if pc.SLoop? {
      LoopRefines(mem, aux, t, pc, c);
    } else if Send.Sending(pc) {
      SendRefines(mem, aux, t, pc, c);
    } else if pc.RLoop? {
      VerdictRefines(mem, aux, t, pc, c);
    } else if pc.RCas? {
      TakeRefines(mem, aux, t, pc, c);
    } else if pc.RStoreIndex? {
      AdvanceRefines(mem, aux, t, pc, c);
    } else if Recv.Receiving(pc) {
      RecvRefines(mem, aux, t, pc, c);
    } else if Read.Reading(pc) {
      ReadRefines(mem, aux, t, pc, c);
    } else {
      OtherRefines(mem, aux, t, pc, c);
    }
  }

  /** The queue in each state of the run, and what each step shows. */
  ghost function Queues(run: seq<State>): seq<Queue> { seq(|run|, i requires 0 <= i < |run| => Abs(run[i])) }

  ghost function Trace(run: seq<State>, sched: Schedule): seq<Event>
    requires |run| == |sched| + 1
  {
    seq(|sched|, i requires 0 <= i < |sched| => EventOf(run[i], sched[i]))
  }

  lemma TurnRefines(run: seq<State>, sched: Schedule, i: nat)
    requires IsRun(run, sched) && i < |sched|
    ensures QueueStep(None, Queues(run)[i], Trace(run, sched)[i], Queues(run)[i + 1])
  {
    Always(run, sched, i);
    StepRefines(run[i], sched[i]);
  }

  lemma StartsEmpty(s: State)
    requires Initial(s)
    ensures Abs(s) == EMPTY
  {
  }

  lemma RunRefines(run: seq<State>, sched: Schedule)
    requires IsRun(run, sched)
    ensures Legal(None, Queues(run), Trace(run, sched)) && Queues(run)[0] == EMPTY
  {
    StartsEmpty(run[0]);
    forall i | 0 <= i < |sched|
      ensures QueueStep(None, Queues(run)[i], Trace(run, sched)[i], Queues(run)[i + 1])
    {
      TurnRefines(run, sched, i);
    }
  }

  /**
   Linearizability: every run of the channel, with any number of threads, is a
   run of the unbounded FIFO queue. So the messages dequeued are the messages
   enqueued, in order, less those still inside, and one shutdown answers true.
   */
  lemma ListIsFifo(run: seq<State>, sched: Schedule)
    requires IsRun(run, sched)
    ensures var es, q := Trace(run, sched), Abs(run[|sched|]);
      && Legal(None, Queues(run), es)
      && Enqueued(es) == Dequeued(es) + q.items
      && Closings(es) == (if q.closed then 1 else 0)
  {
    RunRefines(run, sched);
    FifoOrder(None, Queues(run), Trace(run, sched));
    OneShutdown(None, Queues(run), Trace(run, sched));
  }
}
