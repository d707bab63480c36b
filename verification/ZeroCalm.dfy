/**
 A thread of the rendezvous channel whose call nobody disturbs: from the state
 after its first step on no other thread moves. If the lock was free the call never
 spins on it, and it is told what the meeting looked like when it began.
 */
module ZeroCalm {
  import opened Common
  import opened Select
  import opened Meeting
  import opened ZeroProtocol
  import opened ZeroInvariant
  import opened ZeroTheorems
  import opened ZeroDelivery
  import opened ZeroHistory
  import ZeroSteps

  ghost predicate Calm(run: seq<State>, sched: Schedule, t: nat, n: nat) {
    && |run| == |sched| + 1 && n <= |sched| && t < |run[n].threads|
    && forall k {:trigger sched[k]} :: n <= k < |sched| ==> sched[k] == (t, Go)
  }

  lemma OneStep(run: seq<State>, sched: Schedule, t: nat, n: nat, k: nat)
    requires IsRun(run, sched) && Calm(run, sched, t, n) && n <= k < |sched| && t < |run[k].threads|
    ensures run[k + 1] == Step(run[k], t, Go)
  {
    var _ := sched[k];
  }

  // ---- the lock ----

  predicate Locking(pc: Pc) { pc.Lock? || pc.CloseLock? }

  /** A thread about to take the lock finds it free. */
  predicate LockThere(s: State, t: nat) {
    t < |s.threads| && (Locking(s.threads[t]) ==> !s.mem.locked)
  }

  lemma LockStep(mem: Mem, t: nat, pc: Pc)
    requires Locking(pc) ==> !mem.locked
    ensures !Locking(MemStep(mem, t, pc, Go).pc)
  {
  }

  lemma {:induction false} LockStaysFree(run: seq<State>, sched: Schedule, t: nat, n: nat, k: nat)
    requires IsRun(run, sched) && Calm(run, sched, t, n) && n <= k <= |sched| && LockThere(run[n], t)
    ensures LockThere(run[k], t)
    decreases k
  {
    if n < k {
      LockStaysFree(run, sched, t, n, k - 1);
      OneStep(run, sched, t, n, k - 1);
      LockStep(run[k - 1].mem, t, run[k - 1].threads[t]);
    }
  }

  // ---- what a call is told ----

  /** The effect that call `c` of thread `t` has on a meeting. */
  function HallAnswer(h: Hall, t: nat, c: Call): Event {
    match c.m
    case Some(m) =>
      if h.closed then SendRefused(t, m)
      else if h.receivers != [] then SendMeets(t, m, h.receivers[0].t)
      else if c.block then SendWaits(t, m) else SendLeaves(t, m)
    case None =>
      if h.closed then RecvRefused(t)
      else if h.senders != [] && h.senders[0].m.Some? then RecvMeets(t, h.senders[0].t, h.senders[0].m.value)
      else if c.block then RecvWaits(t) else RecvLeaves(t)
  }

  /** The call has had no effect yet. */
  predicate Untold(pc: Pc, c: Call) {
    match pc
    case Lock(c') => c' == c
    case Scan(c', _) => c' == c
    case Miss(c') => c' == c
    case Reset(c') => c' == c && c.block
    case ResetPacket(c') => c' == c && c.block
    case Register(c') => c' == c && c.block
    case _ => false
  }

  /** It has had its effect. */
  predicate Told(pc: Pc) {
    || pc.StorePacket? || pc.Remove? || pc.Unlock? || pc.Access? || pc.SetReady? || pc.Leave? || pc.Release?
    || pc.Wait? || pc.WaitReady? || pc.Take? || pc.Relock? || pc.Unregister? || pc.UnlockAgain? || pc.GiveBack? || pc.Idle?
  }

  predicate OwnEvent(e: Event, t: nat, c: Call) {
    match e
    case SendMeets(a, m, _) => a == t && c.m == Some(m)
    case RecvMeets(a, _, _) => a == t && c.m.None?
    case SendWaits(a, m) => a == t && c.m == Some(m) && c.block
    case RecvWaits(a) => a == t && c.m.None? && c.block
    case SendLeaves(a, m) => a == t && c.m == Some(m) && !c.block
    case RecvLeaves(a) => a == t && c.m.None? && !c.block
    case SendRefused(a, m) => a == t && c.m == Some(m)
    case RecvRefused(a) => a == t && c.m.None?
    case _ => false
  }

  predicate Moves(pc: Pc, pc': Pc, t: nat, c: Call, e: Event) {
    if Untold(pc, c) then (Untold(pc', c) && e == Tau) || (Told(pc') && OwnEvent(e, t, c)) else Told(pc') && e == Tau
  }

  lemma UntoldMoves(s: State, t: nat, c: Call)
    requires Inv(s) && t < |s.threads| && Untold(s.threads[t], c) && CallOk(c)
    ensures Moves(s.threads[t], MemStep(s.mem, t, s.threads[t], Go).pc, t, c, EventIn(s.mem, s.aux, t, s.threads[t], Go))
  {
    NeverFaults(s, t);
    if s.threads[t].Scan? && MemStep(s.mem, t, s.threads[t], Go).pc.StorePacket? {
      ScanMoves(s, t, c);
    } else {
      RestMoves(s.mem, s.aux, t, s.threads[t], c);
    }
  }

  lemma NeverFaults(s: State, t: nat)
    requires Inv(s) && t < |s.threads|
    ensures !MemStep(s.mem, t, s.threads[t], Go).fault
  {
    ZeroSteps.StepKeeps(s, t, Go);
  }

  lemma ScanMoves(s: State, t: nat, c: Call)
    requires Inv(s) && t < |s.threads| && s.threads[t].Scan? && Untold(s.threads[t], c) && CallOk(c)
    requires MemStep(s.mem, t, s.threads[t], Go).pc.StorePacket?
    ensures OwnEvent(EventIn(s.mem, s.aux, t, s.threads[t], Go), t, c)
  {
    PickDeals(s, t, Go);
  }

  lemma RestMoves(mem: Mem, aux: Aux, t: nat, pc: Pc, c: Call)
    requires Untold(pc, c) && CallOk(c) && !MemStep(mem, t, pc, Go).fault
    requires !(pc.Scan? && MemStep(mem, t, pc, Go).pc.StorePacket?)
    ensures Moves(pc, MemStep(mem, t, pc, Go).pc, t, c, EventIn(mem, aux, t, pc, Go))
  {
  }

  lemma ToldMoves(mem: Mem, aux: Aux, t: nat, pc: Pc, c: Call)
    requires Told(pc)
    ensures Moves(pc, MemStep(mem, t, pc, Go).pc, t, c, EventIn(mem, aux, t, pc, Go))
  {
  }

  /** A meeting that shows the event is the meeting that calls for it. */
  lemma CalledFor(h: Hall, e: Event, h': Hall, t: nat, c: Call)
    requires HallStep(h, e, h') && OwnEvent(e, t, c)
    ensures e == HallAnswer(h, t, c)
  {
  }

  ghost predicate Answers(run: seq<State>, sched: Schedule, t: nat, c: Call, h: Hall, k: nat)
    requires |run| == |sched| + 1 && k <= |sched|
  {
    && t < |run[k].threads|
    && ((Untold(run[k].threads[t], c) && Abs(run[k]) == h)
        || (Told(run[k].threads[t]) && EndsWith(EventsBy(run, sched, t, k), HallAnswer(h, t, c))))
  }

  predicate EndsWith(es: seq<Event>, e: Event) { es != [] && es[|es| - 1] == e }

  lemma AnswersNext(run: seq<State>, sched: Schedule, t: nat, n: nat, c: Call, h: Hall, k: nat)
    requires IsRun(run, sched) && Calm(run, sched, t, n) && n <= k < |sched| && Answers(run, sched, t, c, h, k) && CallOk(c)
    ensures Answers(run, sched, t, c, h, k + 1)
  {
    Always(run, sched, k);
    OneStep(run, sched, t, n, k);
    StepRefines(run[k], (t, Go));
    var pc := run[k].threads[t];
    if Untold(pc, c) {
      UntoldMoves(run[k], t, c);
    } else {
      ToldMoves(run[k].mem, run[k].aux, t, pc, c);
    }
    MovedOn(run, sched, t, c, h, k, EventOf(run[k], (t, Go)));
  }

  lemma MovedOn(run: seq<State>, sched: Schedule, t: nat, c: Call, h: Hall, k: nat, e: Event)
    requires |run| == |sched| + 1 && k < |sched| && Answers(run, sched, t, c, h, k) && sched[k] == (t, Go)
    requires |run[k + 1].threads| == |run[k].threads| && e == EventOf(run[k], sched[k])
    requires Moves(run[k].threads[t], run[k + 1].threads[t], t, c, e) && HallStep(Abs(run[k]), e, Abs(run[k + 1]))
    ensures Answers(run, sched, t, c, h, k + 1)
  {
    if OwnEvent(e, t, c) {
      CalledFor(Abs(run[k]), e, Abs(run[k + 1]), t, c);
    }
  }

  lemma {:induction false} CallShows(run: seq<State>, sched: Schedule, t: nat, n: nat, c: Call, h: Hall, k: nat)
    requires IsRun(run, sched) && Calm(run, sched, t, n) && n <= k <= |sched| && CallOk(c)
    requires run[n].threads[t] == Lock(c) && Abs(run[n]) == h
    ensures Answers(run, sched, t, c, h, k)
    decreases k
  {
    if n < k {
      CallShows(run, sched, t, n, c, h, k - 1);
      AnswersNext(run, sched, t, n, c, h, k - 1);
    }
  }

  /** The step that begins a call leaves the meeting and the lock as they are. */
  lemma Begins(run: seq<State>, sched: Schedule, t: nat, n: nat)
    requires IsRun(run, sched) && n < |sched|
    requires t < |run[n].threads| == |run[n + 1].threads| && run[n].threads[t].Idle? && Locking(run[n + 1].threads[t])
    ensures Abs(run[n + 1]) == Abs(run[n]) && run[n + 1].mem.locked == run[n].mem.locked
  {
    Always(run, sched, n);
    var _ := sched[n];
    StepRefines(run[n], sched[n]);
  }

  /** A call that has had its effect has been told what the meeting looked like when it began. */
  lemma CallIsTold(run: seq<State>, sched: Schedule, t: nat, n: nat, c: Call)
    requires IsRun(run, sched) && n < |sched| && CallOk(c) && Calm(run, sched, t, n + 1)
    requires t < |run[n].threads| == |run[n + 1].threads| && run[n].threads[t].Idle? && run[n + 1].threads[t] == Lock(c)
    requires t < |run[|sched|].threads| && Told(run[|sched|].threads[t])
    ensures EndsWith(EventsBy(run, sched, t, |sched|), HallAnswer(Abs(run[n]), t, c))
  {
    Begins(run, sched, t, n);
    CallShows(run, sched, t, n + 1, c, Abs(run[n]), |sched|);
  }

  // ---- giving up ----

  /** What the thread spins on is not there: the lock free, a selection made, the packet ready. */
  predicate Stuck(s: State, t: nat) {
    t < |s.threads|
    && match s.threads[t]
       case Lock(_) => s.mem.locked
       case Relock(_, _) => s.mem.locked
       case CloseLock => s.mem.locked
       case Wait(_, _) => t < |s.mem.contexts| && s.mem.contexts[t].select.Waiting?
       case WaitReady(_, p) => p < |s.mem.packets| && !s.mem.packets[p].ready
       case _ => false
  }

  /** From state `from` on the thread, at `pc`, was stuck in each of these states. */
  ghost predicate Spun(run: seq<State>, from: nat, t: nat, pc: Pc, seen: seq<nat>) {
    && (forall i :: 0 <= i < |seen| ==> from <= seen[i] < |run| && Stuck(run[seen[i]], t) && run[seen[i]].threads[t] == pc)
    && (forall i, j :: 0 <= i < j < |seen| ==> seen[i] < seen[j])
  }

  /** The thread has spun `count` times, the last time before the last state. */
  ghost predicate Spinning(run: seq<State>, from: nat, t: nat, pc: Pc, seen: seq<nat>, count: nat) {
    Spun(run, from, t, pc, seen) && |seen| == count && (seen != [] ==> seen[|seen| - 1] + 1 < |run|)
  }

  /** Once more, in state `i`. */
  lemma SpinsOn(run: seq<State>, run': seq<State>, from: nat, t: nat, pc: Pc, seen: seq<nat>, count: nat, i: nat)
    requires Spinning(run, from, t, pc, seen, count) && run < run' && |run| <= i + 1 < |run'| && from <= i
    requires Stuck(run'[i], t) && run'[i].threads[t] == pc
    ensures Spinning(run', from, t, pc, seen + [i], count + 1)
  {
  }
}
