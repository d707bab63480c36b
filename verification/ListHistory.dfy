/** The history a channel object carries: the protocol run it has gone through so far. */
module ListHistory {
  import opened Common
  import opened Fifo
  import opened ListProtocol
  import opened ListInvariant
  import opened ListTheorems
  import opened ListDelivery

  /** The events that a step shows on behalf of thread `t`. */
  ghost function VisibleBy(s: State, x: (nat, Choice), t: nat): seq<Event> {
    if x.0 == t then Seen(EventOf(s, x)) else []
  }

  /** The events that thread `t` shows in the first `n` steps. */
  ghost function EventsBy(run: seq<State>, sched: Schedule, t: nat, n: nat): seq<Event>
    requires |run| == |sched| + 1 && n <= |sched|
  {
    if n == 0 then [] else EventsBy(run, sched, t, n - 1) + VisibleBy(run[n - 1], sched[n - 1], t)
  }

  lemma {:induction false} EventsOfPrefix(run: seq<State>, sched: Schedule, s: State, x: (nat, Choice), t: nat, n: nat)
    requires |run| == |sched| + 1 && n <= |sched|
    ensures EventsBy(run + [s], sched + [x], t, n) == EventsBy(run, sched, t, n)
  {
    if n > 0 {
      EventsOfPrefix(run, sched, s, x, t, n - 1);
    }
  }

  /** The run after one more step. */
  ghost function Longer(run: seq<State>, sched: Schedule, x: (nat, Choice)): seq<State>
    requires |run| == |sched| + 1
  {
    run + [Turn(run[|sched|], x)]
  }

  lemma {:induction false} ExtendRun(run: seq<State>, sched: Schedule, x: (nat, Choice))
    requires IsRun(run, sched)
    ensures IsRun(Longer(run, sched, x), sched + [x])
  {
  }

  lemma {:induction false} ExtendEvents(run: seq<State>, sched: Schedule, x: (nat, Choice), t: nat)
    requires |run| == |sched| + 1
    ensures EventsBy(Longer(run, sched, x), sched + [x], t, |sched| + 1) ==
              EventsBy(run, sched, t, |sched|) + VisibleBy(run[|sched|], x, t)
  {
    EventsOfPrefix(run, sched, Turn(run[|sched|], x), x, t, |sched|);
  }

  lemma {:induction false} ExtendDebt(run: seq<State>, sched: Schedule, x: (nat, Choice), t: nat)
    requires IsRun(run, sched)
    ensures Debt(run[|sched|], t) + DeqBy(run[|sched|], x, t) ==
              ReturnBy(run[|sched|], x, t) + Debt(Turn(run[|sched|], x), t)
  {
    ExtendRun(run, sched, x);
    RunBalance(Longer(run, sched, x), sched + [x], t, |sched|);
  }

  /** What a step changes for the other threads: nothing. */
  lemma {:induction false} OthersAfter(run: seq<State>, sched: Schedule, x: (nat, Choice), u: nat)
    requires IsRun(run, sched) && u != x.0
    ensures EventsBy(Longer(run, sched, x), sched + [x], u, |sched| + 1) == EventsBy(run, sched, u, |sched|)
    ensures Debt(Turn(run[|sched|], x), u) == Debt(run[|sched|], u)
  {
    ExtendEvents(run, sched, x, u);
    ExtendDebt(run, sched, x, u);
    assert Debt(run[|sched|], u) + [] == Debt(run[|sched|], u);
    assert [] + Debt(Turn(run[|sched|], x), u) == Debt(Turn(run[|sched|], x), u);
  }

  /** The step of a thread at `pc`: memory, place, effect on the queue, message returned. */
  ghost predicate Outcome(mem: Mem, log: seq<Msg>, pc: Pc, c: Choice, mem': Mem, pc': Pc, e: Event, paid: Option<Msg>) {
    && MemStep(mem, pc, c).mem == mem' && MemStep(mem, pc, c).pc == pc'
    && EventIn(mem, log, pc, c) == e && Returns(mem, pc, c) == paid
  }

  /** The run that led to `now`, what each thread has shown in it, and what each
      thread has dequeued and not returned. */
  ghost predicate IsPast(run: seq<State>, sched: Schedule, now: State, shown: nat -> seq<Event>, owed: nat -> seq<Msg>) {
    && IsRun(run, sched) && now == run[|sched|]
    && (forall u :: shown(u) == EventsBy(run, sched, u, |sched|))
    && (forall u :: owed(u) == Debt(now, u))
  }

  /** The same, kept folded: `Unfold(0)` brings it into a proof. */
  ghost predicate Past(run: seq<State>, sched: Schedule, now: State, shown: nat -> seq<Event>, owed: nat -> seq<Msg>) {
    |run| == |sched| + 1 && forall k {:trigger Unfold(k)} :: Unfold(k) ==> IsPast(run, sched, now, shown, owed)
  }

  ghost function ShownIn(run: seq<State>, sched: Schedule): nat -> seq<Event>
    requires |run| == |sched| + 1
  {
    (u: nat) => EventsBy(run, sched, u, |sched|)
  }

  ghost function OwedIn(s: State): nat -> seq<Msg> { (u: nat) => Debt(s, u) }

  lemma NewState(n: nat) returns (s: State)
    ensures Initial(s) && s.threads == seq(n, _ => Idle)
  {
    s := State(Mem(0, 0, Null, Null, []), seq(n, _ => Idle), false,
               Aux([], [], [], None, Vacant, Vacant, map[], map[]));
  }

  /** The history of a new channel. */
  lemma FirstPast(run: seq<State>, sched: Schedule, s: State, shown: nat -> seq<Event>, owed: nat -> seq<Msg>)
    requires Initial(s) && |run| == 1 && run[0] == s && |sched| == 0
    requires forall u :: |shown(u)| == |owed(u)| == 0
    ensures Past(run, sched, s, shown, owed)
  {
    assert IsPast(run, sched, s, shown, owed);
  }

  lemma {:induction false} ExtendPast(
      run: seq<State>, sched: Schedule, now: State, shown: nat -> seq<Event>, owed: nat -> seq<Msg>,
      t: nat, c: Choice, mem': Mem, pc': Pc, e: Event, paid: Option<Msg>)
    requires IsPast(run, sched, now, shown, owed)
    requires t < |now.threads| && Outcome(now.mem, now.aux.log, now.threads[t], c, mem', pc', e, paid)
    ensures var run', sched', s' := Longer(run, sched, (t, c)), sched + [(t, c)], Turn(now, (t, c));
      && Past(run', sched', s', ShownIn(run', sched'), OwedIn(s'))
      && s'.mem == mem' && s'.threads == now.threads[t := pc']
      && ShownIn(run', sched')(t) == shown(t) + Seen(e)
      && owed(t) + DeqOf(e) == ListOf(paid) + OwedIn(s')(t)
      && forall u: nat :: u != t ==> ShownIn(run', sched')(u) == shown(u) && OwedIn(s')(u) == owed(u)
  {
    var x := (t, c);
    ExtendRun(run, sched, x);
    ExtendEvents(run, sched, x, t);
    ExtendDebt(run, sched, x, t);
    var run', sched', s' := Longer(run, sched, (t, c)), sched + [(t, c)], Turn(now, (t, c));
    forall u: nat | u != t ensures ShownIn(run', sched')(u) == shown(u) && OwedIn(s')(u) == owed(u) {
      OthersAfter(run, sched, x, u);
    }
    assert IsPast(run', sched', s', ShownIn(run', sched'), OwedIn(s'));
  }

  /** All that one more step of thread `t` does to the history. */
  lemma {:induction false} Extend(
      run: seq<State>, sched: Schedule, now: State, shown: nat -> seq<Event>, owed: nat -> seq<Msg>,
      t: nat, c: Choice, mem': Mem, pc': Pc, e: Event, paid: Option<Msg>)
      returns (run': seq<State>, sched': Schedule, now': State, shown': nat -> seq<Event>, owed': nat -> seq<Msg>)
    requires Past(run, sched, now, shown, owed)
    requires t < |now.threads| && Outcome(now.mem, now.aux.log, now.threads[t], c, mem', pc', e, paid)
    ensures Past(run', sched', now', shown', owed') && run < run' && |run'| == |run| + 1
    ensures now'.mem == mem' && now'.threads == now.threads[t := pc']
    ensures shown'(t) == shown(t) + Seen(e)
    ensures owed(t) + DeqOf(e) == ListOf(paid) + owed'(t)
    ensures forall u: nat :: u != t ==> shown'(u) == shown(u) && owed'(u) == owed(u)
  {
    var x := (t, c);
    assert Unfold(0);
    ExtendPast(run, sched, now, shown, owed, t, c, mem', pc', e, paid);
    run', sched', now' := Longer(run, sched, x), sched + [x], Turn(now, x);
    shown', owed' := ShownIn(run', sched'), OwedIn(now');
  }

  /** The step that returns `m` pays the debt. */
  lemma {:induction false} PaidDebt(run: seq<State>, sched: Schedule, t: nat, c: Choice, mem': Mem, m: Msg)
    requires IsRun(run, sched)
    requires var s := run[|sched|];
      t < |s.threads| && Outcome(s.mem, s.aux.log, s.threads[t], c, mem', Idle, Tau, Some(m))
    ensures Debt(run[|sched|], t) == [m]
  {
    var s := run[|sched|];
    ExtendDebt(run, sched, (t, c), t);
    assert Debt(s, t) + [] == Debt(s, t);
    assert [m] + [] == [m];
  }

  /** The step a thread is about to make does not fault. */
  lemma SafeStep(run: seq<State>, sched: Schedule, t: nat, c: Choice)
    requires IsRun(run, sched) && t < |run[|sched|].threads|
    ensures !MemStep(run[|sched|].mem, run[|sched|].threads[t], c).fault
  {
    Always(run, sched, |sched|);
    NoFault(run[|sched|], t, c);
  }

  /** A successful CAS on the head dequeues a message. */
  lemma TakesMessage(run: seq<State>, sched: Schedule, t: nat, c: Choice)
    requires IsRun(run, sched) && t < |run[|sched|].threads| && run[|sched|].threads[t].RCas?
    requires var pc' := MemStep(run[|sched|].mem, run[|sched|].threads[t], c).pc; pc'.RWaitWrite? || pc'.RWaitNext?
    ensures EventOf(run[|sched|], (t, c)).Deq?
  {
    var s := run[|sched|];
    Always(run, sched, |sched|);
    assert ThreadOk(s.mem, s.aux, t, s.threads[t]);
    TakeFinds(s.mem, s.aux, t, s.threads[t], c);
  }
}
