/** The results about the bounded channel: for every capacity, number of threads and schedule. */
module ArrayTheorems {
  import opened Common
  import opened Fifo
  import opened ArrayWords
  import opened ArrayProtocol
  import opened ArrayInvariant
  import opened ArraySteps

  // ---- runs ----

  type Schedule = seq<(nat, Choice)>

  ghost function Turn(c: Config, s: State, x: (nat, Choice)): State {
    if x.0 < |s.threads| then Step(c, s, x.0, x.1) else s
  }

  /** The states a new channel goes through under a schedule. */
  ghost predicate IsRun(c: Config, run: seq<State>, sched: Schedule) {
    && |run| == |sched| + 1
    && Initial(c, run[0])
    && forall i {:trigger sched[i]} :: 0 <= i < |sched| ==> run[i + 1] == Turn(c, run[i], sched[i])
  }

  lemma InitialInv(c: Config, s: State)
    requires Initial(c, s)
    ensures Inv(c, s)
  {
  }

  /**
   The invariant holds throughout every run. With it goes `!fault`: no thread
   ever leaves the buffer, overwrites a message or reads where there is none.
   */
  lemma {:induction false} Always(c: Config, run: seq<State>, sched: Schedule, i: nat)
    requires IsRun(c, run, sched) && i < |run|
    ensures Inv(c, run[i]) && !run[i].fault
  {
    if i == 0 {
      InitialInv(c, run[0]);
    } else {
      Always(c, run, sched, i - 1);
      var s, x := run[i - 1], sched[i - 1];
      if x.0 < |s.threads| {
        StepKeeps(c, s, x.0, x.1);
      }
    }
  }

  /** `s` is the state that some run has led to. */
  ghost predicate Reachable(c: Config, s: State) {
    exists run: seq<State>, sched: Schedule :: IsRun(c, run, sched) && run[|sched|] == s
  }

  lemma ReachableInv(c: Config, s: State)
    requires Reachable(c, s)
    ensures Inv(c, s)
  {
    var run: seq<State>, sched: Schedule :| IsRun(c, run, sched) && run[|sched|] == s;
    Always(c, run, sched, |sched|);
  }

  /** Every state of every run is reachable. */
  lemma RunReaches(c: Config, run: seq<State>, sched: Schedule, i: nat)
    requires IsRun(c, run, sched) && i < |run|
    ensures Reachable(c, run[i])
  {
    var run', sched' := run[..i + 1], sched[..i];
    assert IsRun(c, run', sched') && run'[|sched'|] == run[i];
  }

  // ---- ownership of slots ----

  /**
   If the CAS on the tail can succeed, the stamp read before it is still in the
   slot, the slot is empty and its last reader is done, and there is room.
   */
  lemma TailCasIsCoherent(c: Config, s: State, t: nat)
    requires Inv(c, s) && t < |s.threads| && s.threads[t].SCas? && s.mem.tail == s.threads[t].tail
    ensures var i := Index(c, s.mem.tail);
      && i < |s.mem.slots| && s.mem.slots[i] == Slot(s.mem.tail, None)
      && |s.aux.log| < s.aux.taken + c.cap
      && (|s.aux.log| >= c.cap ==> s.aux.cells[|s.aux.log| - c.cap].Done?)
  {
    assert ThreadOk(c, s.mem, s.aux, t, s.threads[t]);
    SavedTail(c, s.mem, s.aux, s.mem.tail);
    FreeSlot(c, s.mem, s.aux);
  }

  /** If the CAS on the head can succeed, the slot holds the next message, and its sender is done. */
  lemma HeadCasIsCoherent(c: Config, s: State, t: nat)
    requires Inv(c, s) && t < |s.threads| && s.threads[t].RCas? && s.mem.head == s.threads[t].head
    ensures var i, n := Index(c, s.mem.head), s.aux.taken;
      && i < |s.mem.slots| && n < |s.aux.log|
      && s.mem.slots[i] == Slot(s.mem.head + 1, Some(s.aux.log[n])) && s.aux.cells[n].Full?
  {
    assert ThreadOk(c, s.mem, s.aux, t, s.threads[t]);
    SavedHead(c, s.mem, s.aux, s.mem.head);
    FullSlot(c, s.mem, s.aux);
    assert CellOk(c, s.mem, s.aux, s.aux.taken);
  }

  lemma OwnerFacts(c: Config, s: State, t: nat)
    requires Inv(c, s) && t < |s.threads| && Holding(s.threads[t])
    ensures t in s.aux.claim && s.aux.claim[t] < |s.aux.log| && s.threads[t].i == At(c, s.aux.claim[t])
    ensures var x := s.aux.cells[s.aux.claim[t]]; Pending(x) && x.t == t
    ensures |s.aux.log| <= s.aux.claim[t] + c.cap
  {
    assert ThreadOk(c, s.mem, s.aux, t, s.threads[t]);
    assert CellOk(c, s.mem, s.aux, s.aux.claim[t]);
  }

  /** From its claim to its stamp store a thread is alone on its slot. */
  lemma OneOwner(c: Config, s: State, t: nat, u: nat)
    requires Reachable(c, s) && t < |s.threads| && u < |s.threads|
    requires Holding(s.threads[t]) && Holding(s.threads[u]) && s.threads[t].i == s.threads[u].i
    ensures t == u
  {
    ReachableInv(c, s);
    OwnerFacts(c, s, t);
    OwnerFacts(c, s, u);
    LastOfSlot(c, s.aux.claim[t], s.aux.claim[u], |s.aux.log|);
  }

  // ---- refinement of the bounded FIFO queue ----

  ghost function AbsOf(c: Config, mem: Mem, aux: Aux): Queue {
    Queue(if aux.taken <= |aux.log| then aux.log[aux.taken..] else [], Marked(c, mem.tail))
  }

  ghost function Abs(c: Config, s: State): Queue { AbsOf(c, s.mem, s.aux) }

  /** Where an operation takes effect: the CAS, the load of a marked tail, the
      load of the head that finds the channel full, of the tail that finds it empty. */
  ghost function EventIn(c: Config, mem: Mem, aux: Aux, pc: Pc, x: Choice): Event {
    var pc' := MemStep(c, mem, pc, x).pc;
    match pc
    case SLoop(_, tail) => if Marked(c, tail) then Reject else Tau
    case SCas(m, _) => if pc'.SWrite? then Enq(m) else Tau
    case SFull(_, _) => if pc'.Idle? then SawFull else Tau
    case RCas(_) => if pc'.RRead? && aux.taken < |aux.log| then Deq(aux.log[aux.taken]) else Tau
    case REmpty(_) => if pc'.Idle? then (if Marked(c, mem.tail) then SawClosed else SawEmpty) else Tau
    case Idle => if x.Shutdown? then Close(!Marked(c, mem.tail)) else Tau
    case _ => Tau
  }

  ghost function EventOf(c: Config, s: State, x: (nat, Choice)): Event {
    if x.0 < |s.threads| then EventIn(c, s.mem, s.aux, s.threads[x.0], x.1) else Tau
  }

  ghost predicate Refines(c: Config, mem: Mem, aux: Aux, t: nat, pc: Pc, x: Choice) {
    var out := MemStep(c, mem, pc, x);
    QueueStep(Some(c.cap), AbsOf(c, mem, aux), EventIn(c, mem, aux, pc, x), AbsOf(c, out.mem, Annotate(aux, t, pc, out)))
  }

  lemma OpenTail(c: Config, mem: Mem, aux: Aux)
    requires mem.tail == Stamp(c, |aux.log|)
    ensures !Marked(c, mem.tail) && !Marked(c, Next(c, mem.tail))
  {
    StampParts(c, |aux.log|);
    StampParts(c, |aux.log| + 1);
  }

  lemma EnqAbs(c: Config, mem: Mem, aux: Aux, t: nat, m: Msg)
    requires Words(c, mem, aux) && Cells(c, mem, aux)
    requires mem.tail == Stamp(c, |aux.log|) && mem.slots[At(c, |aux.log|)].stamp == mem.tail
    ensures QueueStep(Some(c.cap), AbsOf(c, mem, aux), Enq(m), AbsOf(c, Claimed(c, mem), Accept(aux, t, m)))
  {
    FreeSlot(c, mem, aux);
    OpenTail(c, mem, aux);
    assert (aux.log + [m])[aux.taken..] == aux.log[aux.taken..] + [m];
  }

  lemma EnqRefines(c: Config, mem: Mem, aux: Aux, t: nat, pc: Pc, x: Choice)
    requires Words(c, mem, aux) && Cells(c, mem, aux) && ThreadOk(c, mem, aux, t, pc) && pc.SCas?
    ensures Refines(c, mem, aux, t, pc, x)
  {
    if MemStep(c, mem, pc, x).pc.SWrite? {
      SavedTail(c, mem, aux, pc.tail);
      EnqAbs(c, mem, aux, t, pc.m);
    }
  }

  lemma DeqRefines(c: Config, mem: Mem, aux: Aux, t: nat, pc: Pc, x: Choice)
    requires Words(c, mem, aux) && Cells(c, mem, aux) && ThreadOk(c, mem, aux, t, pc) && pc.RCas?
    ensures Refines(c, mem, aux, t, pc, x)
  {
    if MemStep(c, mem, pc, x).pc.RRead? {
      SavedHead(c, mem, aux, pc.head);
      FullSlot(c, mem, aux);
      DeqAbs(c, mem, aux, t);
    }
  }

  lemma DeqAbs(c: Config, mem: Mem, aux: Aux, t: nat)
    requires aux.taken < |aux.log| && |aux.cells| == |aux.log|
    ensures QueueStep(Some(c.cap), AbsOf(c, mem, aux), Deq(aux.log[aux.taken]), AbsOf(c, Taken(c, mem), Take(aux, t)))
  {
  }

  /** A head one lap behind a saved tail: the channel is full now, whatever has happened since. */
  lemma FullVerdict(c: Config, mem: Mem, aux: Aux, tail: nat)
    requires Words(c, mem, aux) && SentWord(c, mem, aux, tail)
    requires mem.head + c.lap == tail
    ensures |aux.log| == aux.taken + c.cap
  {
    var p :| 0 <= p <= |aux.log| && tail == Stamp(c, p);
    NextLap(c, aux.taken);
    WordOrder(c, p, aux.taken + c.cap);
  }

  /** A tail equal to a saved head: the channel is empty now. */
  lemma EmptyVerdict(c: Config, mem: Mem, aux: Aux, head: nat)
    requires Words(c, mem, aux) && HeadWord(c, mem, aux, head)
    requires Strip(c, mem.tail) == head
    ensures |aux.log| == aux.taken
  {
    var p :| 0 <= p <= aux.taken && head == Stamp(c, p);
    StampParts(c, |aux.log|);
    WordOrder(c, p, |aux.log|);
  }

  lemma FullRefines(c: Config, mem: Mem, aux: Aux, t: nat, pc: Pc, x: Choice)
    requires Words(c, mem, aux) && ThreadOk(c, mem, aux, t, pc) && pc.SFull?
    ensures Refines(c, mem, aux, t, pc, x)
  {
    if mem.head + c.lap == pc.tail {
      FullVerdict(c, mem, aux, pc.tail);
    }
  }

  lemma EmptyRefines(c: Config, mem: Mem, aux: Aux, t: nat, pc: Pc, x: Choice)
    requires Words(c, mem, aux) && ThreadOk(c, mem, aux, t, pc) && pc.REmpty?
    ensures Refines(c, mem, aux, t, pc, x)
  {
    if Strip(c, mem.tail) == pc.head {
      EmptyVerdict(c, mem, aux, pc.head);
    }
  }

  lemma CloseRefines(c: Config, mem: Mem, aux: Aux, t: nat, x: Choice)
    requires Words(c, mem, aux)
    ensures Refines(c, mem, aux, t, Idle, x)
  {
    StampParts(c, |aux.log|);
  }

  lemma RejectRefines(c: Config, mem: Mem, aux: Aux, t: nat, pc: Pc, x: Choice)
    requires ThreadOk(c, mem, aux, t, pc) && pc.SLoop?
    ensures Refines(c, mem, aux, t, pc, x)
  {
  }

  lemma OtherRefines(c: Config, mem: Mem, aux: Aux, t: nat, pc: Pc, x: Choice)
    requires !pc.Idle? && !pc.SLoop? && !pc.SCas? && !pc.SFull? && !pc.RCas? && !pc.REmpty?
    ensures Refines(c, mem, aux, t, pc, x)
  {
  }

  /** Every step is one step of the queue. */
  lemma StepRefines(c: Config, s: State, x: (nat, Choice))
    requires Inv(c, s)
    ensures QueueStep(Some(c.cap), Abs(c, s), EventOf(c, s, x), Abs(c, Turn(c, s, x)))
  {
    if x.0 < |s.threads| {
      var t, pc := x.0, s.threads[x.0];
      assert ThreadOk(c, s.mem, s.aux, t, pc);
      match pc
      case SCas(_, _) => EnqRefines(c, s.mem, s.aux, t, pc, x.1);
      case RCas(_) => DeqRefines(c, s.mem, s.aux, t, pc, x.1);
      case SFull(_, _) => FullRefines(c, s.mem, s.aux, t, pc, x.1);
      case REmpty(_) => EmptyRefines(c, s.mem, s.aux, t, pc, x.1);
      case SLoop(_, _) => RejectRefines(c, s.mem, s.aux, t, pc, x.1);
      case Idle => CloseRefines(c, s.mem, s.aux, t, x.1);
      case _ => OtherRefines(c, s.mem, s.aux, t, pc, x.1);
    }
  }

  ghost function Queues(c: Config, run: seq<State>): seq<Queue> {
    seq(|run|, i requires 0 <= i < |run| => Abs(c, run[i]))
  }

  ghost function Trace(c: Config, run: seq<State>, sched: Schedule): seq<Event>
    requires |run| == |sched| + 1
  {
    seq(|sched|, i requires 0 <= i < |sched| => EventOf(c, run[i], sched[i]))
  }

  lemma TurnRefines(c: Config, run: seq<State>, sched: Schedule, i: nat)
    requires IsRun(c, run, sched) && i < |sched|
    ensures QueueStep(Some(c.cap), Queues(c, run)[i], Trace(c, run, sched)[i], Queues(c, run)[i + 1])
  {
    Always(c, run, sched, i);
    StepRefines(c, run[i], sched[i]);
  }

  lemma StartsEmpty(c: Config, s: State)
    requires Initial(c, s)
    ensures Abs(c, s) == EMPTY
  {
    StampParts(c, 0);
  }

  lemma RunRefines(c: Config, run: seq<State>, sched: Schedule)
    requires IsRun(c, run, sched)
    ensures Legal(Some(c.cap), Queues(c, run), Trace(c, run, sched)) && Queues(c, run)[0] == EMPTY
  {
    StartsEmpty(c, run[0]);
    forall i | 0 <= i < |sched|
      ensures QueueStep(Some(c.cap), Queues(c, run)[i], Trace(c, run, sched)[i], Queues(c, run)[i + 1])
    {
      TurnRefines(c, run, sched, i);
    }
  }

  /**
   Linearizability: every run of the channel is a run of the FIFO queue of
   capacity `cap`. So it never holds more than `cap` messages, delivers what was
   accepted in order, and one shutdown answers true.
   */
  lemma ArrayIsFifo(c: Config, run: seq<State>, sched: Schedule)
    requires IsRun(c, run, sched)
    ensures var es, q := Trace(c, run, sched), Abs(c, run[|sched|]);
      && Legal(Some(c.cap), Queues(c, run), es)
      && Enqueued(es) == Dequeued(es) + q.items
      && |q.items| <= c.cap
      && Closings(es) == (if q.closed then 1 else 0)
  {
    RunRefines(c, run, sched);
    FifoOrder(Some(c.cap), Queues(c, run), Trace(c, run, sched));
    NeverOverfull(Some(c.cap), Queues(c, run), Trace(c, run, sched));
    OneShutdown(Some(c.cap), Queues(c, run), Trace(c, run, sched));
  }

  /** After the first shutdown of a run no send is accepted; and "disconnected" means drained for good. */
  lemma ArrayCloses(c: Config, run: seq<State>, sched: Schedule, i: nat, j: nat)
    requires IsRun(c, run, sched) && i <= j < |sched|
    ensures Marked(c, run[i].mem.tail) ==> !EventOf(c, run[j], sched[j]).Enq? && Marked(c, run[j].mem.tail)
    ensures EventOf(c, run[i], sched[i]).SawClosed? ==>
              !EventOf(c, run[j], sched[j]).Enq? && !EventOf(c, run[j], sched[j]).Deq?
  {
    RunRefines(c, run, sched);
    var qs, es := Queues(c, run), Trace(c, run, sched);
    if qs[i].closed {
      NothingAfterClose(Some(c.cap), qs, es, i, j);
    }
    if es[i].SawClosed? {
      ClosedMeansDrained(Some(c.cap), qs, es, i);
    }
  }
}
