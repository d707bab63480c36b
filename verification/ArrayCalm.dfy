/**
 A thread of the bounded channel whose call nobody disturbs: from the state
 after its first step on no other thread moves and no CAS fails spuriously. Then
 the call does not go on for long, and it is told what the queue held when it began.
 */
module ArrayCalm {
  import opened Common
  import opened Fifo
  import opened ArrayWords
  import opened ArrayProtocol
  import opened ArrayTheorems
  import opened ArrayQueries
  import opened ArrayHistory
  import Solo = ArraySolo

  ghost predicate Calm(c: Config, run: seq<State>, sched: Schedule, t: nat, n: nat) {
    && |run| == |sched| + 1 && n <= |sched| && Solo.Alone(run[n].threads, t)
    && forall k {:trigger sched[k]} :: n <= k < |sched| ==> sched[k] == (t, Go)
  }

  lemma {:induction false} AfterNext(c: Config, s: State, t: nat, n: nat)
    requires t < |s.threads|
    ensures Solo.After(c, s, t, n + 1) == Step(c, Solo.After(c, s, t, n), t, Go)
    decreases n
  {
    if n > 0 {
      AfterNext(c, Step(c, s, t, Go), t, n - 1);
    }
  }

  lemma OneStep(c: Config, run: seq<State>, sched: Schedule, t: nat, n: nat, k: nat)
    requires IsRun(c, run, sched) && Calm(c, run, sched, t, n) && n <= k < |sched| && t < |run[k].threads|
    ensures run[k + 1] == Step(c, run[k], t, Go)
  {
    var _ := sched[k];
  }

  lemma {:induction false} StateAt(c: Config, run: seq<State>, sched: Schedule, t: nat, n: nat, k: nat)
    requires IsRun(c, run, sched) && Calm(c, run, sched, t, n) && n <= k <= |sched|
    ensures run[k] == Solo.After(c, run[n], t, k - n) && t < |run[k].threads|
    decreases k
  {
    if n < k {
      StateAt(c, run, sched, t, n, k - 1);
      OneStep(c, run, sched, t, n, k - 1);
      AfterNext(c, run[n], t, k - 1 - n);
    }
  }

  /** The call is over after 8 steps. */
  lemma Ends(c: Config, run: seq<State>, sched: Schedule, t: nat, n: nat)
    requires IsRun(c, run, sched) && Calm(c, run, sched, t, n) && |sched| - n >= 8
    ensures t < |run[|sched|].threads| && run[|sched|].threads[t].Idle?
  {
    StateAt(c, run, sched, t, n, |sched|);
    RunReaches(c, run, sched, n);
    Solo.EndsWithin(c, run[n], t, |sched| - n);
  }

  // ---- a receive ----

  /** Nothing is shown yet and the queue is as it was, or the answer has been shown. */
  ghost predicate Receives(c: Config, run: seq<State>, sched: Schedule, t: nat, q: Queue, k: nat)
    requires |run| == |sched| + 1 && k <= |sched|
  {
    && t < |run[k].threads|
    && ((Solo.Untaken(run[k].threads[t]) && Abs(c, run[k]) == q)
        || (Solo.Ended(run[k].threads[t]) && EndsWith(EventsBy(c, run, sched, t, k), RecvAnswer(q))))
  }

  lemma RecvNext(c: Config, run: seq<State>, sched: Schedule, t: nat, n: nat, q: Queue, k: nat)
    requires IsRun(c, run, sched) && Calm(c, run, sched, t, n) && n <= k < |sched| && Receives(c, run, sched, t, q, k)
    ensures Receives(c, run, sched, t, q, k + 1)
  {
    Always(c, run, sched, k);
    OneStep(c, run, sched, t, n, k);
    StepRefines(c, run[k], (t, Go));
    Solo.RecvMovesOn(c, run[k], t);
    RecvTold(c, run, sched, t, q, k, EventOf(c, run[k], (t, Go)));
  }

  lemma RecvTold(c: Config, run: seq<State>, sched: Schedule, t: nat, q: Queue, k: nat, e: Event)
    requires |run| == |sched| + 1 && k < |sched| && Receives(c, run, sched, t, q, k) && sched[k] == (t, Go)
    requires |run[k + 1].threads| == |run[k].threads| && e == EventOf(c, run[k], sched[k])
    requires Solo.RecvMoves(run[k].threads[t], run[k + 1].threads[t], e) && QueueStep(Some(c.cap), Abs(c, run[k]), e, Abs(c, run[k + 1]))
    ensures Receives(c, run, sched, t, q, k + 1)
  {
  }

  lemma {:induction false} RecvShows(c: Config, run: seq<State>, sched: Schedule, t: nat, n: nat, q: Queue, k: nat)
    requires IsRun(c, run, sched) && Calm(c, run, sched, t, n) && n <= k <= |sched|
    requires run[n].threads[t] == RLoad && Abs(c, run[n]) == q
    ensures Receives(c, run, sched, t, q, k)
    decreases k
  {
    if n < k {
      RecvShows(c, run, sched, t, n, q, k - 1);
      RecvNext(c, run, sched, t, n, q, k - 1);
    }
  }

  // ---- a send ----

  /** The tail that a sender has saved is the present one; past the look at it, it is not marked. */
  predicate Fresh(c: Config, mem: Mem, pc: Pc) {
    match pc
    case SLoop(_, tail) => tail == mem.tail
    case SCas(_, tail) => tail == mem.tail && !Marked(c, tail)
    case SFull(_, tail) => tail == mem.tail && !Marked(c, tail)
    case _ => true
  }

  lemma StaysFresh(c: Config, mem: Mem, aux: Aux, pc: Pc)
    requires Fresh(c, mem, pc) && (pc.SLoad? || pc.SLoop? || pc.SCas? || pc.SFull?)
    ensures Fresh(c, MemStep(c, mem, pc, Go).mem, MemStep(c, mem, pc, Go).pc)
    ensures EventIn(c, mem, aux, pc, Go) == SawFull ==> !Marked(c, mem.tail)
  {
  }

  ghost predicate Sends(c: Config, run: seq<State>, sched: Schedule, t: nat, m: Msg, q: Queue, k: nat)
    requires |run| == |sched| + 1 && k <= |sched|
  {
    && t < |run[k].threads|
    && ((Solo.Unsent(run[k].threads[t], m) && Fresh(c, run[k].mem, run[k].threads[t]) && Abs(c, run[k]) == q)
        || (Solo.Ended(run[k].threads[t]) && EndsWith(EventsBy(c, run, sched, t, k), SendAnswer(Some(c.cap), q, m))))
  }

  lemma SendNext(c: Config, run: seq<State>, sched: Schedule, t: nat, n: nat, m: Msg, q: Queue, k: nat)
    requires IsRun(c, run, sched) && Calm(c, run, sched, t, n) && n <= k < |sched| && Sends(c, run, sched, t, m, q, k)
    ensures Sends(c, run, sched, t, m, q, k + 1)
  {
    Always(c, run, sched, k);
    OneStep(c, run, sched, t, n, k);
    StepRefines(c, run[k], (t, Go));
    Solo.SendMovesOn(c, run[k], t, m);
    if Solo.Unsent(run[k].threads[t], m) {
      StaysFresh(c, run[k].mem, run[k].aux, run[k].threads[t]);
    }
    SendTold(c, run, sched, t, m, q, k, EventOf(c, run[k], (t, Go)));
  }

  lemma SendTold(c: Config, run: seq<State>, sched: Schedule, t: nat, m: Msg, q: Queue, k: nat, e: Event)
    requires |run| == |sched| + 1 && k < |sched| && Sends(c, run, sched, t, m, q, k) && sched[k] == (t, Go)
    requires |run[k + 1].threads| == |run[k].threads| && e == EventOf(c, run[k], sched[k])
    requires Solo.SendMoves(run[k].threads[t], run[k + 1].threads[t], m, e)
    requires Solo.Unsent(run[k].threads[t], m) ==>
      Fresh(c, run[k + 1].mem, run[k + 1].threads[t]) && (e == SawFull ==> !Abs(c, run[k]).closed)
    requires QueueStep(Some(c.cap), Abs(c, run[k]), e, Abs(c, run[k + 1]))
    ensures Sends(c, run, sched, t, m, q, k + 1)
  {
  }

  lemma {:induction false} SendShows(c: Config, run: seq<State>, sched: Schedule, t: nat, n: nat, m: Msg, q: Queue, k: nat)
    requires IsRun(c, run, sched) && Calm(c, run, sched, t, n) && n <= k <= |sched|
    requires run[n].threads[t] == SLoad(m) && Abs(c, run[n]) == q
    ensures Sends(c, run, sched, t, m, q, k)
    decreases k
  {
    if n < k {
      SendShows(c, run, sched, t, n, m, q, k - 1);
      SendNext(c, run, sched, t, n, m, q, k - 1);
    }
  }

  // ---- the first step ----

  /** The step that begins a call leaves the queue as it is, and the others where they are. */
  lemma Begins(c: Config, run: seq<State>, sched: Schedule, t: nat, n: nat)
    requires IsRun(c, run, sched) && n < |sched| && Quiet(run[n].threads)
    requires t < |run[n].threads| == |run[n + 1].threads| && !run[n + 1].threads[t].Idle?
    ensures Solo.Alone(run[n + 1].threads, t) && Abs(c, run[n + 1]) == Abs(c, run[n])
  {
    Always(c, run, sched, n);
    var _ := sched[n];
    StepRefines(c, run[n], sched[n]);
  }
}
