/** Each receive on the unbounded channel returns the message it dequeued, once. */
module ListDelivery {
  import opened Common
  import opened Fifo
  import opened ListProtocol
  import opened ListInvariant
  import opened ListTheorems

  /** The receiver has dequeued a message and not returned it yet. */
  predicate Owes(pc: Pc) {
    || pc.RWaitNext? || pc.RPeek? || pc.RStoreBlock? || pc.RStoreIndex?
    || pc.RWaitWrite? || pc.RReadMsg? || pc.RMark? || pc.DCheck? || pc.DOr?
  }

  /** The message a receive returns with this step, if it returns one. */
  function Returns(mem: Mem, pc: Pc, c: Choice): Option<Msg> {
    if !MemStep(mem, pc, c).pc.Idle? then None
    else match pc
      case RMark(_, _, m) => Some(m)
      case DCheck(_, _, m) => Some(m)
      case DOr(_, _, m) => Some(m)
      case _ => None
  }

  /** What thread `t` still has to return. */
  ghost function Debt(s: State, t: nat): seq<Msg> {
    if t < |s.threads| && Owes(s.threads[t]) && t in s.aux.want then [s.aux.want[t]] else []
  }

  // ---- one step ----

  /** A step of thread `t` in a receive: it dequeues, it returns, or it owes what it owed. */
  ghost predicate Settles(mem: Mem, aux: Aux, t: nat, pc: Pc, c: Choice) {
    var out := MemStep(mem, pc, c);
    var aux' := Annotate(mem, aux, t, pc, out);
    && (Owes(pc) ==> t in aux.want)
    && (Owes(out.pc) ==> t in aux'.want)
    && (if Owes(pc) then [aux.want[t]] else []) + DeqOf(EventIn(mem, aux.log, pc, c))
         == ListOf(Returns(mem, pc, c)) + (if Owes(out.pc) then [aux'.want[t]] else [])
    && (forall u :: u != t && u in aux.want ==> u in aux'.want && aux'.want[u] == aux.want[u])
  }

  /** A successful CAS on the head finds a message. */
  lemma TakeFinds(mem: Mem, aux: Aux, t: nat, pc: Pc, c: Choice)
    requires Shape(mem, aux) && RecvOk(mem, aux, t, pc) && pc.RCas?
    requires MemStep(mem, pc, c).pc.RWaitWrite? || MemStep(mem, pc, c).pc.RWaitNext?
    ensures Pos(Index(mem.head)) < |aux.log| && mem.head == pc.head
  {
    NextPos(Index(mem.head));
  }

  lemma TakeSettles(mem: Mem, aux: Aux, t: nat, pc: Pc, c: Choice)
    requires pc.RCas?
    requires MemStep(mem, pc, c).pc.RWaitWrite? || MemStep(mem, pc, c).pc.RWaitNext? ==>
      Pos(Index(mem.head)) < |aux.log| && mem.head == pc.head
    ensures Settles(mem, aux, t, pc, c)
  {
  }

  lemma AdvanceSettles(mem: Mem, aux: Aux, t: nat, pc: Pc, c: Choice)
    requires RecvOk(mem, aux, t, pc) && !MemStep(mem, pc, c).fault
    requires pc.RStoreBlock? || pc.RStoreIndex?
    ensures Settles(mem, aux, t, pc, c)
  {
  }

  lemma WaitSettles(mem: Mem, aux: Aux, t: nat, pc: Pc, c: Choice)
    requires RecvOk(mem, aux, t, pc) && !MemStep(mem, pc, c).fault
    requires pc.RWaitNext? || pc.RPeek? || pc.RWaitWrite?
    ensures Settles(mem, aux, t, pc, c)
  {
  }

  lemma ReadSettles(mem: Mem, aux: Aux, t: nat, pc: Pc, c: Choice)
    requires RecvOk(mem, aux, t, pc) && !MemStep(mem, pc, c).fault && pc.RReadMsg?
    ensures Settles(mem, aux, t, pc, c)
  {
  }

  lemma DestroySettles(mem: Mem, aux: Aux, t: nat, pc: Pc, c: Choice)
    requires RecvOk(mem, aux, t, pc) && !MemStep(mem, pc, c).fault
    requires pc.DCheck? || pc.DOr?
    ensures Settles(mem, aux, t, pc, c)
  {
  }

  lemma MarkSettles(mem: Mem, aux: Aux, t: nat, pc: Pc, c: Choice)
    requires RecvOk(mem, aux, t, pc) && !MemStep(mem, pc, c).fault && pc.RMark?
    ensures Settles(mem, aux, t, pc, c)
  {
  }

  lemma LoopKeepsWant(mem: Mem, aux: Aux, t: nat, pc: Pc, out: Out)
    requires pc.SLoop?
    ensures Annotate(mem, aux, t, pc, out).want == aux.want
  {
  }

  lemma SendKeepsWant(mem: Mem, aux: Aux, t: nat, pc: Pc, out: Out)
    requires Send.Sending(pc) && !pc.SLoop?
    ensures Annotate(mem, aux, t, pc, out).want == aux.want
  {
  }

  lemma SendStaysSend(mem: Mem, pc: Pc, c: Choice)
    requires Send.Sending(pc)
    ensures Send.Sending(MemStep(mem, pc, c).pc) || MemStep(mem, pc, c).pc.Idle?
  {
  }

  lemma SendSettles(mem: Mem, aux: Aux, t: nat, pc: Pc, c: Choice)
    requires Send.Sending(pc)
    ensures Settles(mem, aux, t, pc, c)
  {
    if pc.SLoop? {
      LoopKeepsWant(mem, aux, t, pc, MemStep(mem, pc, c));
    } else {
      SendKeepsWant(mem, aux, t, pc, MemStep(mem, pc, c));
    }
    SendStaysSend(mem, pc, c);
  }

  lemma LoadSettles(mem: Mem, aux: Aux, t: nat, pc: Pc, c: Choice)
    requires pc.RLoadHead? || pc.RLoadBlock? || pc.RLoop?
    ensures Settles(mem, aux, t, pc, c)
  {
  }

  lemma OtherSettles(mem: Mem, aux: Aux, t: nat, pc: Pc, c: Choice)
    requires Read.Other(pc)
    ensures Settles(mem, aux, t, pc, c)
  {
  }

  lemma NoFault(s: State, t: nat, c: Choice)
    requires Inv(s) && t < |s.threads|
    ensures !MemStep(s.mem, s.threads[t], c).fault
  {
    StepKeeps(s, t, c);
  }

  lemma StepSettles(s: State, t: nat, c: Choice)
    requires Inv(s) && t < |s.threads|
    ensures Settles(s.mem, s.aux, t, s.threads[t], c)
  {
    var pc := s.threads[t];
    assert ThreadOk(s.mem, s.aux, t, pc);
    NoFault(s, t, c);
    if Send.Sending(pc) {
      SendSettles(s.mem, s.aux, t, pc, c);
    } else if pc.RCas? {
      if MemStep(s.mem, pc, c).pc.RWaitWrite? || MemStep(s.mem, pc, c).pc.RWaitNext? {
        TakeFinds(s.mem, s.aux, t, pc, c);
      }
      TakeSettles(s.mem, s.aux, t, pc, c);
    } else if pc.RReadMsg? {
      ReadSettles(s.mem, s.aux, t, pc, c);
    } else if pc.RMark? {
      MarkSettles(s.mem, s.aux, t, pc, c);
    } else if pc.DCheck? || pc.DOr? {
      DestroySettles(s.mem, s.aux, t, pc, c);
    } else if pc.RWaitNext? || pc.RPeek? || pc.RWaitWrite? {
      WaitSettles(s.mem, s.aux, t, pc, c);
    } else if Owes(pc) {
      AdvanceSettles(s.mem, s.aux, t, pc, c);
    } else if pc.RLoadHead? || pc.RLoadBlock? || pc.RLoop? {
      LoadSettles(s.mem, s.aux, t, pc, c);
    } else {
      OtherSettles(s.mem, s.aux, t, pc, c);
    }
  }

  // ---- runs ----

  /** The messages that steps of thread `t` dequeue in the first `n` steps of the run, in order. */
  ghost function Taken(run: seq<State>, sched: Schedule, t: nat, n: nat): seq<Msg>
    requires |run| == |sched| + 1 && n <= |sched|
  {
    if n == 0 then [] else
      Taken(run, sched, t, n - 1)
      + DeqBy(run[n - 1], sched[n - 1], t)
  }

  ghost function Return(s: State, x: (nat, Choice)): Option<Msg> {
    if x.0 < |s.threads| then Returns(s.mem, s.threads[x.0], x.1) else None
  }

  /** The messages that receives of thread `t` return in the first `n` steps of the run, in order. */
  ghost function Returned(run: seq<State>, sched: Schedule, t: nat, n: nat): seq<Msg>
    requires |run| == |sched| + 1 && n <= |sched|
  {
    if n == 0 then [] else
      Returned(run, sched, t, n - 1)
      + ReturnBy(run[n - 1], sched[n - 1], t)
  }

  lemma OwnBalance(s: State, x: (nat, Choice))
    requires Inv(s)
    ensures Debt(s, x.0) + DeqOf(EventOf(s, x)) == ListOf(Return(s, x)) + Debt(Turn(s, x), x.0)
  {
    if x.0 < |s.threads| {
      StepSettles(s, x.0, x.1);
    }
  }

  lemma OtherBalance(s: State, x: (nat, Choice), t: nat)
    requires Inv(s) && x.0 != t
    ensures Debt(Turn(s, x), t) == Debt(s, t)
  {
    if x.0 < |s.threads| && t < |s.threads| {
      StepSettles(s, x.0, x.1);
      StepSettles(s, t, Go);
    }
  }

  ghost function DeqBy(s: State, x: (nat, Choice), t: nat): seq<Msg> {
    if x.0 == t then DeqOf(EventOf(s, x)) else []
  }

  ghost function ReturnBy(s: State, x: (nat, Choice), t: nat): seq<Msg> {
    if x.0 == t then ListOf(Return(s, x)) else []
  }

  /** The balance of thread `t` over one step of the run. */
  lemma RunBalance(run: seq<State>, sched: Schedule, t: nat, n: nat)
    requires IsRun(run, sched) && n < |sched|
    ensures Debt(run[n], t) + DeqBy(run[n], sched[n], t) == ReturnBy(run[n], sched[n], t) + Debt(run[n + 1], t)
  {
    Always(run, sched, n);
    if sched[n].0 == t {
      OwnBalance(run[n], sched[n]);
    } else {
      OtherBalance(run[n], sched[n], t);
    }
  }

  lemma StartsFree(s: State, t: nat)
    requires Initial(s)
    ensures Debt(s, t) == []
  {
  }

  /** The account of thread `t` over step `k`. */
  lemma {:induction false} AccountStep(run: seq<State>, sched: Schedule, t: nat, k: nat)
    requires IsRun(run, sched) && k < |sched|
    ensures Taken(run, sched, t, k + 1) == Taken(run, sched, t, k) + DeqBy(run[k], sched[k], t)
    ensures Returned(run, sched, t, k + 1) == Returned(run, sched, t, k) + ReturnBy(run[k], sched[k], t)
    ensures Debt(run[k], t) + DeqBy(run[k], sched[k], t) == ReturnBy(run[k], sched[k], t) + Debt(run[k + 1], t)
  {
    RunBalance(run, sched, t, k);
  }

  /**
   In every run, what the receives of a thread return is what that thread
   dequeued, each message once and in order, up to the one receive that may
   still be under way.
   */
  lemma {:induction false} ReturnsWhatItTook(run: seq<State>, sched: Schedule, t: nat, n: nat)
    requires IsRun(run, sched) && n <= |sched|
    ensures Taken(run, sched, t, n) == Returned(run, sched, t, n) + Debt(run[n], t)
  {
    StartsFree(run[0], t);
    var taken := seq(n + 1, k requires 0 <= k <= n => Taken(run, sched, t, k));
    var returned := seq(n + 1, k requires 0 <= k <= n => Returned(run, sched, t, k));
    var debt := seq(n + 1, k requires 0 <= k <= n => Debt(run[k], t));
    var takes := seq(n, k requires 0 <= k < n => DeqBy(run[k], sched[k], t));
    var paid := seq(n, k requires 0 <= k < n => ReturnBy(run[k], sched[k], t));
    forall k | 0 <= k < n ensures Settled(taken, returned, debt, takes, paid, k) {
      AccountStep(run, sched, t, k);
    }
    AddUp(taken, returned, debt, takes, paid, n);
  }
}
