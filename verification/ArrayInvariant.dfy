/** What every interleaving of the bounded channel keeps. */
module ArrayInvariant {
  import opened Common
  import opened ArrayWords
  import opened ArrayProtocol

  // ---- words ----

  /** The words are those of the two positions; sent and received positions are at most `cap` apart. */
  ghost predicate Words(c: Config, mem: Mem, aux: Aux) {
    && |mem.slots| == c.cap && |aux.cells| == |aux.log|
    && aux.taken <= |aux.log| <= aux.taken + c.cap
    && mem.head == Stamp(c, aux.taken)
    && (mem.tail == Stamp(c, |aux.log|) || mem.tail == Stamp(c, |aux.log|) + c.mark)
  }

  // ---- slots ----

  predicate Sent(x: Cell) { x.Writing? || x.Written? || x.Full? }

  /** The slot of position `p`, while `p` is the last position of that slot to be claimed. */
  ghost predicate SlotOk(c: Config, slot: Slot, x: Cell, p: nat, log: seq<Msg>) {
    && slot.stamp == (if x.Writing? || x.Written? then Stamp(c, p)
                      else if x.Done? then Stamp(c, p + c.cap)
                      else Stamp(c, p) + 1)
    && slot.msg == (if (x.Written? || x.Full? || x.Reading?) && p < |log| then Some(log[p]) else None)
  }

  ghost predicate CellOk(c: Config, mem: Mem, aux: Aux, p: nat)
    requires p < |aux.cells|
  {
    && (Sent(aux.cells[p]) <==> aux.taken <= p)
    && (p + c.cap < |aux.log| ==> aux.cells[p].Done?)
    && (p + c.cap >= |aux.log| && At(c, p) < |mem.slots| ==>
          SlotOk(c, mem.slots[At(c, p)], aux.cells[p], p, aux.log))
  }

  ghost predicate Cells(c: Config, mem: Mem, aux: Aux) {
    && (forall p :: 0 <= p < |aux.cells| ==> CellOk(c, mem, aux, p))
    && (forall i :: |aux.log| <= i < |mem.slots| ==> mem.slots[i] == Slot(i, None))
  }

  // ---- threads ----

  ghost predicate TailWord(c: Config, mem: Mem, aux: Aux, w: nat) {
    && w <= mem.tail && (Marked(c, w) ==> w == mem.tail)
    && exists p :: 0 <= p <= |aux.log| && (w == Stamp(c, p) || w == Stamp(c, p) + c.mark)
  }

  ghost predicate SentWord(c: Config, mem: Mem, aux: Aux, w: nat) {
    w <= mem.tail && exists p :: 0 <= p <= |aux.log| && w == Stamp(c, p)
  }

  ghost predicate HeadWord(c: Config, mem: Mem, aux: Aux, w: nat) {
    w <= mem.head && exists p :: 0 <= p <= aux.taken && w == Stamp(c, p)
  }

  /** Thread `t` owns the slot of the position it claimed, which has come as far as `x`. */
  ghost predicate Owns(c: Config, aux: Aux, t: nat, x: Cell, i: nat) {
    t in aux.claim && aux.claim[t] < |aux.cells| && |aux.cells| == |aux.log|
    && aux.cells[aux.claim[t]] == x && i == At(c, aux.claim[t])
  }

  ghost predicate ThreadOk(c: Config, mem: Mem, aux: Aux, t: nat, pc: Pc) {
    match pc
    case SLoop(_, tail) => TailWord(c, mem, aux, tail)
    case SCas(_, tail) =>
      && SentWord(c, mem, aux, tail) && Index(c, tail) < |mem.slots|
      && (mem.tail == tail ==> mem.slots[Index(c, tail)].stamp == tail)
    case SFull(_, tail) => SentWord(c, mem, aux, tail)
    case SWrite(i, stamp, m) =>
      Owns(c, aux, t, Writing(t), i) && stamp == Stamp(c, aux.claim[t]) + 1 && aux.log[aux.claim[t]] == m
    case SStamp(i, stamp) => Owns(c, aux, t, Written(t), i) && stamp == Stamp(c, aux.claim[t]) + 1
    case RLoop(head) => HeadWord(c, mem, aux, head)
    case RCas(head) =>
      && HeadWord(c, mem, aux, head) && Index(c, head) < |mem.slots|
      && (mem.head == head ==> mem.slots[Index(c, head)].stamp == head + 1)
    case REmpty(head) => HeadWord(c, mem, aux, head)
    case RRead(i, stamp) => Owns(c, aux, t, Reading(t), i) && stamp == Stamp(c, aux.claim[t] + c.cap)
    case RStamp(i, stamp, m) =>
      && Owns(c, aux, t, Moved(t), i) && stamp == Stamp(c, aux.claim[t] + c.cap)
      && aux.log[aux.claim[t]] == m
    case LLoadHead(tail) => tail <= mem.tail
    case LCheck(tail, _) => tail <= mem.tail
    case _ => true
  }

  ghost predicate Threads(c: Config, mem: Mem, aux: Aux, threads: seq<Pc>) {
    forall t :: 0 <= t < |threads| ==> ThreadOk(c, mem, aux, t, threads[t])
  }

  /** A claim under way is in the hands of a thread. */
  ghost predicate HeldBy(pc: Pc, aux: Aux, t: nat, p: nat, x: Cell) {
    && t in aux.claim && aux.claim[t] == p
    && match x
       case Writing(_) => pc.SWrite?
       case Written(_) => pc.SStamp?
       case Reading(_) => pc.RRead?
       case Moved(_) => pc.RStamp?
       case _ => true
  }

  predicate Pending(x: Cell) { !x.Full? && !x.Done? }

  ghost predicate Held(aux: Aux, threads: seq<Pc>) {
    forall p :: 0 <= p < |aux.cells| && Pending(aux.cells[p]) ==>
      aux.cells[p].t < |threads| && HeldBy(threads[aux.cells[p].t], aux, aux.cells[p].t, p, aux.cells[p])
  }

  ghost predicate Inv(c: Config, s: State) {
    && !s.fault
    && Words(c, s.mem, s.aux)
    && Cells(c, s.mem, s.aux)
    && Threads(c, s.mem, s.aux, s.threads)
    && Held(s.aux, s.threads)
  }

  // ---- what a step of thread `t` guarantees to the others ----

  ghost predicate CellsGuar(aux: Aux, t: nat, aux': Aux) {
    forall p :: 0 <= p < |aux.cells| && p < |aux'.cells| && Pending(aux.cells[p]) && aux.cells[p].t != t ==>
      aux'.cells[p] == aux.cells[p]
  }

  /** A stamp that invites a claim stays until the claim. */
  ghost predicate StampGuar(c: Config, mem: Mem, mem': Mem) {
    && StampKept(mem, mem', Index(c, mem.tail), mem.tail, mem'.tail == mem.tail)
    && StampKept(mem, mem', Index(c, mem.head), mem.head + 1, mem'.head == mem.head)
  }

  ghost predicate StampKept(mem: Mem, mem': Mem, i: nat, stamp: nat, same: bool) {
    same && i < |mem.slots| && i < |mem'.slots| && mem.slots[i].stamp == stamp ==> mem'.slots[i].stamp == stamp
  }

  ghost predicate Guar(c: Config, mem: Mem, aux: Aux, t: nat, mem': Mem, aux': Aux) {
    && mem.tail <= mem'.tail && mem.head <= mem'.head && |mem'.slots| == |mem.slots|
    && (Marked(c, mem.tail) ==> mem'.tail == mem.tail)
    && aux.log <= aux'.log && |aux.cells| <= |aux'.cells| == |aux'.log| && aux.taken <= aux'.taken
    && (forall u :: u != t && u in aux.claim ==> u in aux'.claim && aux'.claim[u] == aux.claim[u])
    && CellsGuar(aux, t, aux')
    && StampGuar(c, mem, mem')
  }

  lemma Stable(c: Config, mem: Mem, aux: Aux, t: nat, mem': Mem, aux': Aux, u: nat, pc: Pc)
    requires ThreadOk(c, mem, aux, u, pc) && u != t && Guar(c, mem, aux, t, mem', aux')
    ensures ThreadOk(c, mem', aux', u, pc)
  {
  }

  lemma ThreadsStep(c: Config, mem: Mem, aux: Aux, threads: seq<Pc>, t: nat, mem': Mem, aux': Aux, pc: Pc)
    requires Threads(c, mem, aux, threads) && t < |threads|
    requires Guar(c, mem, aux, t, mem', aux') && ThreadOk(c, mem', aux', t, pc)
    ensures Threads(c, mem', aux', threads[t := pc])
  {
    forall u | 0 <= u < |threads| && u != t ensures ThreadOk(c, mem', aux', u, threads[u]) {
      Stable(c, mem, aux, t, mem', aux', u, threads[u]);
    }
  }
}
