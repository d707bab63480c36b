/** Each receive on the bounded channel returns the message it dequeued, once. */
module ArrayDelivery {
  import opened Common
  import opened Fifo
  import opened ArrayWords
  import opened ArrayProtocol
  import opened ArrayInvariant
  import opened ArraySteps
  import opened ArrayTheorems

  /** The receiver has dequeued a message and not returned it yet. */
  predicate Owes(pc: Pc) { pc.RRead? || pc.RStamp? }

  /** The message a receive returns with this step, if it returns one. */
  function Returns(c: Config, mem: Mem, pc: Pc, x: Choice): Option<Msg> {
    if pc.RStamp? && MemStep(c, mem, pc, x).pc.Idle? then Some(pc.m) else None
  }

  ghost function DebtOf(aux: Aux, t: nat, pc: Pc): seq<Msg> {
    if Owes(pc) && t in aux.claim && aux.claim[t] < |aux.log| then [aux.log[aux.claim[t]]] else []
  }

  /** What thread `t` still has to return. */
  ghost function Debt(s: State, t: nat): seq<Msg> {
    if t < |s.threads| then DebtOf(s.aux, t, s.threads[t]) else []
  }

  // ---- one step ----

  ghost predicate Settles(c: Config, mem: Mem, aux: Aux, t: nat, pc: Pc, x: Choice) {
    var out := MemStep(c, mem, pc, x);
    DebtOf(aux, t, pc) + DeqOf(EventIn(c, mem, aux, pc, x))
      == ListOf(Returns(c, mem, pc, x)) + DebtOf(Annotate(aux, t, pc, out), t, out.pc)
  }

  lemma TakeSettles(c: Config, mem: Mem, aux: Aux, t: nat, pc: Pc, x: Choice)
    requires Words(c, mem, aux) && Cells(c, mem, aux) && ThreadOk(c, mem, aux, t, pc) && pc.RCas?
    ensures Settles(c, mem, aux, t, pc, x)
  {
    if MemStep(c, mem, pc, x).pc.RRead? {
      SavedHead(c, mem, aux, pc.head);
      FullSlot(c, mem, aux);
    }
  }

  lemma OwnerSettles(c: Config, mem: Mem, aux: Aux, t: nat, pc: Pc, x: Choice)
    requires Words(c, mem, aux) && Cells(c, mem, aux) && ThreadOk(c, mem, aux, t, pc) && Holding(pc)
    ensures Settles(c, mem, aux, t, pc, x)
  {
    OwnerOut(c, mem, aux, t, pc, x);
  }

  lemma OtherSettles(c: Config, mem: Mem, aux: Aux, t: nat, pc: Pc, x: Choice)
    requires !pc.RCas? && !Holding(pc)
    ensures Settles(c, mem, aux, t, pc, x)
  {
  }

  lemma StepSettles(c: Config, s: State, t: nat, x: Choice)
    requires Inv(c, s) && t < |s.threads|
    ensures Settles(c, s.mem, s.aux, t, s.threads[t], x)
  {
    var pc := s.threads[t];
    assert ThreadOk(c, s.mem, s.aux, t, pc);
    if pc.RCas? {
      TakeSettles(c, s.mem, s.aux, t, pc, x);
    } else if Holding(pc) {
      OwnerSettles(c, s.mem, s.aux, t, pc, x);
    } else {
      OtherSettles(c, s.mem, s.aux, t, pc, x);
    }
  }

  lemma OthersKeepDebt(aux: Aux, t: nat, pc: Pc, out: Out, u: nat, pc': Pc)
    requires u != t && |aux.cells| == |aux.log|
    requires Owes(pc') ==> u in aux.claim && aux.claim[u] < |aux.log|
    ensures DebtOf(Annotate(aux, t, pc, out), u, pc') == DebtOf(aux, u, pc')
  {
  }

  // ---- runs ----

  ghost function Return(c: Config, s: State, x: (nat, Choice)): Option<Msg> {
    if x.0 < |s.threads| then Returns(c, s.mem, s.threads[x.0], x.1) else None
  }

  ghost function DeqBy(c: Config, s: State, x: (nat, Choice), t: nat): seq<Msg> {
    if x.0 == t then DeqOf(EventOf(c, s, x)) else []
  }

  ghost function ReturnBy(c: Config, s: State, x: (nat, Choice), t: nat): seq<Msg> {
    if x.0 == t then ListOf(Return(c, s, x)) else []
  }

  /** The messages that steps of thread `t` dequeue in the first `n` steps, in order. */
  ghost function TakenBy(c: Config, run: seq<State>, sched: Schedule, t: nat, n: nat): seq<Msg>
    requires |run| == |sched| + 1 && n <= |sched|
  {
    if n == 0 then [] else TakenBy(c, run, sched, t, n - 1) + DeqBy(c, run[n - 1], sched[n - 1], t)
  }

  /** The messages that receives of thread `t` return in the first `n` steps, in order. */
  ghost function Returned(c: Config, run: seq<State>, sched: Schedule, t: nat, n: nat): seq<Msg>
    requires |run| == |sched| + 1 && n <= |sched|
  {
    if n == 0 then [] else Returned(c, run, sched, t, n - 1) + ReturnBy(c, run[n - 1], sched[n - 1], t)
  }

  lemma OtherBalance(c: Config, s: State, x: (nat, Choice), t: nat)
    requires Inv(c, s) && x.0 != t
    ensures Debt(Turn(c, s, x), t) == Debt(s, t)
  {
    if x.0 < |s.threads| && t < |s.threads| {
      assert ThreadOk(c, s.mem, s.aux, t, s.threads[t]);
      OthersKeepDebt(s.aux, x.0, s.threads[x.0], MemStep(c, s.mem, s.threads[x.0], x.1), t, s.threads[t]);
    }
  }

  lemma StepBalance(c: Config, s: State, x: (nat, Choice), t: nat)
    requires Inv(c, s)
    ensures Debt(s, t) + DeqBy(c, s, x, t) == ReturnBy(c, s, x, t) + Debt(Turn(c, s, x), t)
  {
    if x.0 != t {
      OtherBalance(c, s, x, t);
    } else if t < |s.threads| {
      StepSettles(c, s, t, x.1);
    }
  }

  /** The balance of thread `t` over one step of the run. */
  lemma RunBalance(c: Config, run: seq<State>, sched: Schedule, t: nat, n: nat)
    requires IsRun(c, run, sched) && n < |sched|
    ensures Debt(run[n], t) + DeqBy(c, run[n], sched[n], t) == ReturnBy(c, run[n], sched[n], t) + Debt(run[n + 1], t)
  {
    Always(c, run, sched, n);
    StepBalance(c, run[n], sched[n], t);
  }

  lemma StartsFree(c: Config, s: State, t: nat)
    requires Initial(c, s)
    ensures Debt(s, t) == []
  {
  }

  /** The account of thread `t` over step `k`. */
  lemma {:induction false} AccountStep(c: Config, run: seq<State>, sched: Schedule, t: nat, k: nat)
    requires IsRun(c, run, sched) && k < |sched|
    ensures TakenBy(c, run, sched, t, k + 1) == TakenBy(c, run, sched, t, k) + DeqBy(c, run[k], sched[k], t)
    ensures Returned(c, run, sched, t, k + 1) == Returned(c, run, sched, t, k) + ReturnBy(c, run[k], sched[k], t)
    ensures Debt(run[k], t) + DeqBy(c, run[k], sched[k], t) == ReturnBy(c, run[k], sched[k], t) + Debt(run[k + 1], t)
  {
    RunBalance(c, run, sched, t, k);
  }

  /**
   In every run, what the receives of a thread return is what that thread
   dequeued, each message once and in order, up to the one receive that may
   still be under way.
   */
  lemma {:induction false} ReturnsWhatItTook(c: Config, run: seq<State>, sched: Schedule, t: nat, n: nat)
    requires IsRun(c, run, sched) && n <= |sched|
    ensures TakenBy(c, run, sched, t, n) == Returned(c, run, sched, t, n) + Debt(run[n], t)
  {
    StartsFree(c, run[0], t);
    var taken := seq(n + 1, k requires 0 <= k <= n => TakenBy(c, run, sched, t, k));
    var returned := seq(n + 1, k requires 0 <= k <= n => Returned(c, run, sched, t, k));
    var debt := seq(n + 1, k requires 0 <= k <= n => Debt(run[k], t));
    var takes := seq(n, k requires 0 <= k < n => DeqBy(c, run[k], sched[k], t));
    var paid := seq(n, k requires 0 <= k < n => ReturnBy(c, run[k], sched[k], t));
    forall k | 0 <= k < n ensures Settled(taken, returned, debt, takes, paid, k) {
      AccountStep(c, run, sched, t, k);
    }
    AddUp(taken, returned, debt, takes, paid, n);
  }
}
