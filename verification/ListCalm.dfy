/**
 A thread of the unbounded channel whose call nobody disturbs: from the state
 after its first step on no other thread moves and no CAS fails spuriously. Then
 the call does not go on for long, and it is told what the queue held when it began.
 */
module ListCalm {
  import opened Common
  import opened Fifo
  import opened ListProtocol
  import opened ListTheorems
  import opened ListReclaim
  import opened ListHistory
  import Solo = ListSolo

  ghost predicate Calm(run: seq<State>, sched: Schedule, t: nat, n: nat) {
    && |run| == |sched| + 1 && n <= |sched| && Solo.Alone(run[n].threads, t)
    && forall k {:trigger sched[k]} :: n <= k < |sched| ==> sched[k] == (t, Go)
  }

  lemma {:induction false} AfterNext(s: State, t: nat, n: nat)
    requires t < |s.threads|
    ensures Solo.After(s, t, n + 1) == Step(Solo.After(s, t, n), t, Go)
    decreases n
  {
    if n > 0 {
      AfterNext(Step(s, t, Go), t, n - 1);
    }
  }

  lemma OneStep(run: seq<State>, sched: Schedule, t: nat, n: nat, k: nat)
    requires IsRun(run, sched) && Calm(run, sched, t, n) && n <= k < |sched| && t < |run[k].threads|
    ensures run[k + 1] == Step(run[k], t, Go)
  {
    var _ := sched[k];
  }

  lemma {:induction false} StateAt(run: seq<State>, sched: Schedule, t: nat, n: nat, k: nat)
    requires IsRun(run, sched) && Calm(run, sched, t, n) && n <= k <= |sched|
    ensures Gone(run, t, n, k)
    decreases k
  {
    if n == k {
      NotYetGone(run, t, n);
    } else {
      StateAt(run, sched, t, n, k - 1);
      StateNext(run, sched, t, n, k);
    }
  }

  lemma NotYetGone(run: seq<State>, t: nat, n: nat)
    requires n < |run| && t < |run[n].threads|
    ensures Gone(run, t, n, n)
  {
  }

  /** From state `n` to state `k` thread `t` has gone alone, kept folded. */
  ghost predicate Gone(run: seq<State>, t: nat, n: nat, k: nat) {
    && n <= k < |run| && t < |run[n].threads|
    && forall u {:trigger Unfold(u)} :: Unfold(u) ==> run[k] == Solo.After(run[n], t, k - n) && t < |run[k].threads|
  }

  lemma StateNext(run: seq<State>, sched: Schedule, t: nat, n: nat, k: nat)
    requires IsRun(run, sched) && Calm(run, sched, t, n) && n < k <= |sched|
    requires Gone(run, t, n, k - 1)
    ensures Gone(run, t, n, k)
  {
    assert Unfold(0);
    OneStep(run, sched, t, n, k - 1);
    AfterNext(run[n], t, k - 1 - n);
  }

  /** The call is over after 77 steps. */
  lemma Ends(run: seq<State>, sched: Schedule, t: nat, n: nat)
    requires IsRun(run, sched) && Calm(run, sched, t, n) && |sched| - n >= 77
    ensures t < |run[|sched|].threads| && run[|sched|].threads[t].Idle?
  {
    StateAt(run, sched, t, n, |sched|);
    assert Unfold(0);
    RunReaches(run, sched, n);
    Solo.EndsWithin(run[n], t, |sched| - n);
  }

  // ---- a receive ----

  /** Nothing is shown yet and the queue is as it was, or the answer has been shown. */
  ghost predicate Receives(run: seq<State>, sched: Schedule, t: nat, q: Queue, k: nat)
    requires |run| == |sched| + 1 && k <= |sched|
  {
    && t < |run[k].threads|
    && ((Solo.Untaken(run[k].threads[t]) && Abs(run[k]) == q)
        || (Solo.Taken(run[k].threads[t]) && EndsWith(EventsBy(run, sched, t, k), RecvAnswer(q))))
  }

  lemma RecvNext(run: seq<State>, sched: Schedule, t: nat, n: nat, q: Queue, k: nat)
    requires IsRun(run, sched) && Calm(run, sched, t, n) && n <= k < |sched| && Receives(run, sched, t, q, k)
    ensures Receives(run, sched, t, q, k + 1)
  {
    Always(run, sched, k);
    OneStep(run, sched, t, n, k);
    StepRefines(run[k], (t, Go));
    Solo.ReceivingMoves(run[k], t);
    RecvTold(run, sched, t, q, k, EventOf(run[k], (t, Go)));
  }

  lemma RecvTold(run: seq<State>, sched: Schedule, t: nat, q: Queue, k: nat, e: Event)
    requires |run| == |sched| + 1 && k < |sched| && Receives(run, sched, t, q, k) && sched[k] == (t, Go)
    requires |run[k + 1].threads| == |run[k].threads| && e == EventOf(run[k], sched[k])
    requires Solo.Moves(run[k].threads[t], run[k + 1].threads[t], e) && QueueStep(None, Abs(run[k]), e, Abs(run[k + 1]))
    ensures Receives(run, sched, t, q, k + 1)
  {
  }

  lemma {:induction false} RecvShows(run: seq<State>, sched: Schedule, t: nat, n: nat, q: Queue, k: nat)
    requires IsRun(run, sched) && Calm(run, sched, t, n) && n <= k <= |sched|
    requires run[n].threads[t] == RLoadHead && Abs(run[n]) == q
    ensures Receives(run, sched, t, q, k)
    decreases k
  {
    if n < k {
      RecvShows(run, sched, t, n, q, k - 1);
      RecvNext(run, sched, t, n, q, k - 1);
    }
  }

  // ---- a send ----

  ghost predicate Sends(run: seq<State>, sched: Schedule, t: nat, m: Msg, q: Queue, k: nat)
    requires |run| == |sched| + 1 && k <= |sched|
  {
    && t < |run[k].threads|
    && ((Solo.Unsent(run[k].threads[t], m) && Abs(run[k]) == q)
        || (Solo.Sent(run[k].threads[t]) && EndsWith(EventsBy(run, sched, t, k), SendAnswer(None, q, m))))
  }

  lemma SendNext(run: seq<State>, sched: Schedule, t: nat, n: nat, m: Msg, q: Queue, k: nat)
    requires IsRun(run, sched) && Calm(run, sched, t, n) && n <= k < |sched| && Sends(run, sched, t, m, q, k)
    ensures Sends(run, sched, t, m, q, k + 1)
  {
    Always(run, sched, k);
    OneStep(run, sched, t, n, k);
    StepRefines(run[k], (t, Go));
    Solo.SendingMoves(run[k], t, m);
    SendTold(run, sched, t, m, q, k, EventOf(run[k], (t, Go)));
  }

  lemma SendTold(run: seq<State>, sched: Schedule, t: nat, m: Msg, q: Queue, k: nat, e: Event)
    requires |run| == |sched| + 1 && k < |sched| && Sends(run, sched, t, m, q, k) && sched[k] == (t, Go)
    requires |run[k + 1].threads| == |run[k].threads| && e == EventOf(run[k], sched[k])
    requires Solo.SendMoves(run[k].threads[t], run[k + 1].threads[t], m, e)
    requires QueueStep(None, Abs(run[k]), e, Abs(run[k + 1]))
    ensures Sends(run, sched, t, m, q, k + 1)
  {
  }

  lemma {:induction false} SendShows(run: seq<State>, sched: Schedule, t: nat, n: nat, m: Msg, q: Queue, k: nat)
    requires IsRun(run, sched) && Calm(run, sched, t, n) && n <= k <= |sched|
    requires Solo.Unsent(run[n].threads[t], m) && Abs(run[n]) == q
    ensures Sends(run, sched, t, m, q, k)
    decreases k
  {
    if n < k {
      SendShows(run, sched, t, n, m, q, k - 1);
      SendNext(run, sched, t, n, m, q, k - 1);
    }
  }

  // ---- the first step ----

  /** The step that begins a call leaves the queue as it is, and the others where they are. */
  lemma Begins(run: seq<State>, sched: Schedule, t: nat, n: nat)
    requires IsRun(run, sched) && n < |sched| && Quiet(run[n].threads)
    requires t < |run[n].threads| == |run[n + 1].threads| && !run[n + 1].threads[t].Idle?
    ensures Solo.Alone(run[n + 1].threads, t) && Abs(run[n + 1]) == Abs(run[n])
  {
    Always(run, sched, n);
    var _ := sched[n];
    StepRefines(run[n], sched[n]);
  }

  // ---- giving up ----

  /** What the thread spins on is not there: the message written, the next block linked. */
  predicate Stuck(s: State, t: nat) {
    t < |s.threads|
    && match s.threads[t]
       case RWaitWrite(b, j) => b < |s.mem.heap| && j < 31 && !s.mem.heap[b].slots[j].write
       case RWaitNext(b, _) => b < |s.mem.heap| && s.mem.heap[b].next.Null?
       case _ => false
  }

  /** From state `from` on the thread, at `pc`, was stuck in each of these states. */
  ghost predicate Spun(run: seq<State>, from: nat, t: nat, pc: Pc, seen: seq<nat>) {
    && (forall i :: 0 <= i < |seen| ==> from <= seen[i] < |run| && Stuck(run[seen[i]], t) && run[seen[i]].threads[t] == pc)
    && (forall i, j :: 0 <= i < j < |seen| ==> seen[i] < seen[j])
  }

  /** The thread has spun `count` times, the last time before the last state. */
  ghost predicate Spinning(run: seq<State>, from: nat, t: nat, pc: Pc, seen: seq<nat>, count: nat) {
    && Spun(run, from, t, pc, seen) && |seen| == count && |run| >= from + 1 + count
    && (seen != [] ==> seen[|seen| - 1] + 1 < |run|)
  }

  /** Once more, in state `i`. */
  lemma SpinsOn(run: seq<State>, run': seq<State>, from: nat, t: nat, pc: Pc, seen: seq<nat>, count: nat, i: nat)
    requires Spinning(run, from, t, pc, seen, count) && run < run' && |run| <= i + 1 < |run'|
    requires Stuck(run'[i], t) && run'[i].threads[t] == pc
    ensures Spinning(run', from, t, pc, seen + [i], count + 1)
  {
  }
}
