/** The history a bounded channel object carries: the protocol run it has gone through so far. */
module ArrayHistory {
  import opened Common
  import opened Fifo
  import opened ArrayWords
  import opened ArrayProtocol
  import opened ArrayInvariant
  import opened ArraySteps
  import opened ArrayTheorems
  import opened ArrayDelivery

  /** The events that a step shows on behalf of thread `t`. */
  ghost function VisibleBy(c: Config, s: State, x: (nat, Choice), t: nat): seq<Event> {
    if x.0 == t then Seen(EventOf(c, s, x)) else []
  }

  /** The events that thread `t` shows in the first `n` steps. */
  ghost function EventsBy(c: Config, run: seq<State>, sched: Schedule, t: nat, n: nat): seq<Event>
    requires |run| == |sched| + 1 && n <= |sched|
  {
    if n == 0 then [] else EventsBy(c, run, sched, t, n - 1) + VisibleBy(c, run[n - 1], sched[n - 1], t)
  }

  lemma {:induction false} EventsOfPrefix(c: Config, run: seq<State>, sched: Schedule, s: State, x: (nat, Choice), t: nat, n: nat)
    requires |run| == |sched| + 1 && n <= |sched|
    ensures EventsBy(c, run + [s], sched + [x], t, n) == EventsBy(c, run, sched, t, n)
  {
    if n > 0 {
      EventsOfPrefix(c, run, sched, s, x, t, n - 1);
    }
  }

  /** The run after one more step. */
  ghost function Longer(c: Config, run: seq<State>, sched: Schedule, x: (nat, Choice)): seq<State>
    requires |run| == |sched| + 1
  {
    run + [Turn(c, run[|sched|], x)]
  }

  lemma {:induction false} ExtendRun(c: Config, run: seq<State>, sched: Schedule, x: (nat, Choice))
    requires IsRun(c, run, sched)
    ensures IsRun(c, Longer(c, run, sched, x), sched + [x])
  {
  }

  lemma {:induction false} ExtendEvents(c: Config, run: seq<State>, sched: Schedule, x: (nat, Choice), t: nat)
    requires |run| == |sched| + 1
    ensures EventsBy(c, Longer(c, run, sched, x), sched + [x], t, |sched| + 1) ==
              EventsBy(c, run, sched, t, |sched|) + VisibleBy(c, run[|sched|], x, t)
  {
    EventsOfPrefix(c, run, sched, Turn(c, run[|sched|], x), x, t, |sched|);
  }

  lemma ExtendDebt(c: Config, run: seq<State>, sched: Schedule, x: (nat, Choice), t: nat)
    requires IsRun(c, run, sched)
    ensures var s := run[|sched|];
      Debt(s, t) + DeqBy(c, s, x, t) == ReturnBy(c, s, x, t) + Debt(Turn(c, s, x), t)
  {
    Always(c, run, sched, |sched|);
    StepBalance(c, run[|sched|], x, t);
  }

  /** What a step changes for the other threads: nothing. */
  lemma {:induction false} OthersAfter(c: Config, run: seq<State>, sched: Schedule, x: (nat, Choice), u: nat)
    requires IsRun(c, run, sched) && u != x.0
    ensures EventsBy(c, Longer(c, run, sched, x), sched + [x], u, |sched| + 1) == EventsBy(c, run, sched, u, |sched|)
    ensures Debt(Turn(c, run[|sched|], x), u) == Debt(run[|sched|], u)
  {
    ExtendEvents(c, run, sched, x, u);
    Always(c, run, sched, |sched|);
    OtherBalance(c, run[|sched|], x, u);
  }

  /** The step of a thread at `pc`: memory, place, effect on the queue, message returned. */
  ghost predicate Outcome(
      c: Config, mem: Mem, aux: Aux, pc: Pc, x: Choice, mem': Mem, pc': Pc, e: Event, paid: Option<Msg>) {
    && MemStep(c, mem, pc, x).mem == mem' && MemStep(c, mem, pc, x).pc == pc'
    && EventIn(c, mem, aux, pc, x) == e && Returns(c, mem, pc, x) == paid
  }

  /** The run that led to `now`, what each thread has shown in it, and what each
      thread has dequeued and not returned. */
  ghost predicate IsPast(
      c: Config, run: seq<State>, sched: Schedule, now: State, shown: nat -> seq<Event>, owed: nat -> seq<Msg>) {
    && IsRun(c, run, sched) && now == run[|sched|]
    && (forall u :: shown(u) == EventsBy(c, run, sched, u, |sched|))
    && (forall u :: owed(u) == Debt(now, u))
  }

  /** The same, kept folded: `Unfold(0)` brings it into a proof. */
  ghost predicate Past(
      c: Config, run: seq<State>, sched: Schedule, now: State, shown: nat -> seq<Event>, owed: nat -> seq<Msg>) {
    |run| == |sched| + 1 && forall k {:trigger Unfold(k)} :: Unfold(k) ==> IsPast(c, run, sched, now, shown, owed)
  }

  ghost function ShownIn(c: Config, run: seq<State>, sched: Schedule): nat -> seq<Event>
    requires |run| == |sched| + 1
  {
    (u: nat) => EventsBy(c, run, sched, u, |sched|)
  }

  ghost function OwedIn(s: State): nat -> seq<Msg> { (u: nat) => Debt(s, u) }

  /** The history of a new channel. */
  lemma FirstPast(c: Config, s: State)
    requires Initial(c, s)
    ensures Past(c, [s], [], s, (u: nat) => [], (u: nat) => [])
  {
    assert IsPast(c, [s], [], s, (u: nat) => [], (u: nat) => []);
  }

  lemma {:induction false} ExtendPast(
      c: Config, run: seq<State>, sched: Schedule, now: State, shown: nat -> seq<Event>, owed: nat -> seq<Msg>,
      t: nat, x: Choice, mem': Mem, pc': Pc, e: Event, paid: Option<Msg>)
    requires IsPast(c, run, sched, now, shown, owed)
    requires t < |now.threads| && Outcome(c, now.mem, now.aux, now.threads[t], x, mem', pc', e, paid)
    ensures var run', sched', s' := Longer(c, run, sched, (t, x)), sched + [(t, x)], Turn(c, now, (t, x));
      && Past(c, run', sched', s', ShownIn(c, run', sched'), OwedIn(s'))
      && s'.mem == mem' && s'.threads == now.threads[t := pc']
      && ShownIn(c, run', sched')(t) == shown(t) + Seen(e)
      && owed(t) + DeqOf(e) == ListOf(paid) + OwedIn(s')(t)
      && forall u: nat :: u != t ==> ShownIn(c, run', sched')(u) == shown(u) && OwedIn(s')(u) == owed(u)
  {
    ExtendRun(c, run, sched, (t, x));
    ExtendEvents(c, run, sched, (t, x), t);
    ExtendDebt(c, run, sched, (t, x), t);
    var run', sched', s' := Longer(c, run, sched, (t, x)), sched + [(t, x)], Turn(c, now, (t, x));
    forall u: nat | u != t ensures ShownIn(c, run', sched')(u) == shown(u) && OwedIn(s')(u) == owed(u) {
      OthersAfter(c, run, sched, (t, x), u);
    }
    assert IsPast(c, run', sched', s', ShownIn(c, run', sched'), OwedIn(s'));
  }

  /** All that one more step of thread `t` does to the history. */
  lemma {:induction false} Extend(
      c: Config, run: seq<State>, sched: Schedule, now: State, shown: nat -> seq<Event>, owed: nat -> seq<Msg>,
      t: nat, x: Choice, mem': Mem, pc': Pc, e: Event, paid: Option<Msg>)
      returns (run': seq<State>, sched': Schedule, now': State, shown': nat -> seq<Event>, owed': nat -> seq<Msg>)
    requires Past(c, run, sched, now, shown, owed)
    requires t < |now.threads| && Outcome(c, now.mem, now.aux, now.threads[t], x, mem', pc', e, paid)
    ensures Past(c, run', sched', now', shown', owed') && run < run' && |run'| == |run| + 1
    ensures now'.mem == mem' && now'.threads == now.threads[t := pc']
    ensures shown'(t) == shown(t) + Seen(e)
    ensures owed(t) + DeqOf(e) == ListOf(paid) + owed'(t)
    ensures forall u: nat :: u != t ==> shown'(u) == shown(u) && owed'(u) == owed(u)
  {
    assert Unfold(0);
    ExtendPast(c, run, sched, now, shown, owed, t, x, mem', pc', e, paid);
    run', sched', now' := Longer(c, run, sched, (t, x)), sched + [(t, x)], Turn(c, now, (t, x));
    shown', owed' := ShownIn(c, run', sched'), OwedIn(now');
  }

  /** The step that returns `m` pays the debt. */
  lemma {:induction false} PaidDebt(c: Config, run: seq<State>, sched: Schedule, t: nat, x: Choice, mem': Mem, m: Msg)
    requires IsRun(c, run, sched)
    requires var s := run[|sched|];
      t < |s.threads| && Outcome(c, s.mem, s.aux, s.threads[t], x, mem', Idle, Tau, Some(m))
    ensures Debt(run[|sched|], t) == [m]
  {
    var s := run[|sched|];
    ExtendDebt(c, run, sched, (t, x), t);
    assert Debt(s, t) + [] == Debt(s, t);
    assert [m] + [] == [m];
  }

  /** The step a thread is about to make does not fault. */
  lemma SafeStep(c: Config, run: seq<State>, sched: Schedule, t: nat, x: Choice)
    requires IsRun(c, run, sched) && t < |run[|sched|].threads|
    ensures !MemStep(c, run[|sched|].mem, run[|sched|].threads[t], x).fault
  {
    Always(c, run, sched, |sched|);
    StepKeeps(c, run[|sched|], t, x);
  }

  /** A successful CAS on the head dequeues a message. */
  lemma TakesMessage(c: Config, run: seq<State>, sched: Schedule, t: nat, x: Choice)
    requires IsRun(c, run, sched) && t < |run[|sched|].threads| && run[|sched|].threads[t].RCas?
    requires MemStep(c, run[|sched|].mem, run[|sched|].threads[t], x).pc.RRead?
    ensures EventOf(c, run[|sched|], (t, x)).Deq? && Debt(run[|sched|], t) == []
  {
    Always(c, run, sched, |sched|);
    HeadCasIsCoherent(c, run[|sched|], t);
  }
}
