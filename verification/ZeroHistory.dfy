/** The history a zero-capacity channel object carries: the protocol run it has gone through so far. */
module ZeroHistory {
  import opened Common
  import opened Select
  import opened Meeting
  import opened ZeroProtocol
  import opened ZeroInvariant
  import opened ZeroSteps
  import opened ZeroTheorems
  import opened ZeroDelivery

  function Seen(e: Event): seq<Event> { if e.Tau? then [] else [e] }

  /** The events that a step shows on behalf of thread `t`. */
  ghost function VisibleBy(s: State, x: (nat, Choice), t: nat): seq<Event> {
    if x.0 == t then Seen(EventOf(s, x)) else []
  }

  /** The events that steps of thread `t` show in the first `n` steps. */
  ghost function EventsBy(run: seq<State>, sched: Schedule, t: nat, n: nat): seq<Event>
    requires |run| == |sched| + 1 && n <= |sched|
  {
    if n == 0 then [] else EventsBy(run, sched, t, n - 1) + VisibleBy(run[n - 1], sched[n - 1], t)
  }

  lemma {:induction false} EventsOfPrefix(run: seq<State>, sched: Schedule, s: State, x: (nat, Choice), t: nat, n: nat)
    requires |run| == |sched| + 1 && n <= |sched|
    ensures EventsBy(run + [s], sched + [x], t, n) == EventsBy(run, sched, t, n)
    ensures Returned(run + [s], sched + [x], t, n) == Returned(run, sched, t, n)
  {
    if n > 0 {
      EventsOfPrefix(run, sched, s, x, t, n - 1);
    }
  }

  /** The run after one more step. */
  ghost function Longer(run: seq<State>, sched: Schedule, x: (nat, Choice)): seq<State>
    requires |run| == |sched| + 1
  {
    run + [Turn(run[|sched|], x)]
  }

  lemma {:induction false} ExtendRun(run: seq<State>, sched: Schedule, x: (nat, Choice))
    requires IsRun(run, sched)
    ensures IsRun(Longer(run, sched, x), sched + [x])
  {
  }

  lemma {:induction false} ExtendEvents(run: seq<State>, sched: Schedule, x: (nat, Choice), t: nat)
    requires |run| == |sched| + 1
    ensures EventsBy(Longer(run, sched, x), sched + [x], t, |sched| + 1) ==
              EventsBy(run, sched, t, |sched|) + VisibleBy(run[|sched|], x, t)
    ensures Returned(Longer(run, sched, x), sched + [x], t, |sched| + 1) ==
              Returned(run, sched, t, |sched|) + ReturnBy(run[|sched|], x, t)
  {
    EventsOfPrefix(run, sched, Turn(run[|sched|], x), x, t, |sched|);
  }

  /** The step of a thread at `pc`: memory, place, answer, effect, and what it returns of what was dealt. */
  ghost predicate Outcome(
      mem: Mem, aux: Aux, t: nat, pc: Pc, x: Choice, mem': Mem, pc': Pc, a: Answer, e: Event, paid: seq<Token>) {
    && MemStep(mem, t, pc, x).mem == mem' && MemStep(mem, t, pc, x).pc == pc' && MemStep(mem, t, pc, x).answer == a
    && EventIn(mem, aux, t, pc, x) == e && ReturnsIn(mem, aux, t, pc, x) == paid
  }

  /** The run that led to `now`, and what the steps of each thread have shown and returned in it. */
  ghost predicate IsPast(
      run: seq<State>, sched: Schedule, now: State, shown: nat -> seq<Event>, returned: nat -> seq<Token>) {
    && IsRun(run, sched) && now == run[|sched|]
    && (forall u :: shown(u) == EventsBy(run, sched, u, |sched|))
    && (forall u :: returned(u) == Returned(run, sched, u, |sched|))
  }

  /** The same, kept folded: `Unfold(0)` brings it into a proof. */
  ghost predicate Past(
      run: seq<State>, sched: Schedule, now: State, shown: nat -> seq<Event>, returned: nat -> seq<Token>) {
    |run| == |sched| + 1 && forall k {:trigger Unfold(k)} :: Unfold(k) ==> IsPast(run, sched, now, shown, returned)
  }

  ghost function ShownIn(run: seq<State>, sched: Schedule): nat -> seq<Event>
    requires |run| == |sched| + 1
  {
    (u: nat) => EventsBy(run, sched, u, |sched|)
  }

  ghost function ReturnedIn(run: seq<State>, sched: Schedule): nat -> seq<Token>
    requires |run| == |sched| + 1
  {
    (u: nat) => Returned(run, sched, u, |sched|)
  }

  lemma NewState(n: nat) returns (s: State)
    ensures Initial(s) && s.threads == seq(n, _ => Idle) && s.mem.contexts == seq(n, _ => Context(Waiting, None))
  {
    s := State(Mem(false, [], [], false, seq(n, _ => Context(Waiting, None)), []), seq(n, _ => Idle), false,
               Aux([], None, false, None));
  }

  /** The history of a new channel. */
  lemma FirstPast(run: seq<State>, sched: Schedule, s: State, shown: nat -> seq<Event>, returned: nat -> seq<Token>)
    requires Initial(s) && |run| == 1 && run[0] == s && |sched| == 0
    requires forall u :: |shown(u)| == |returned(u)| == 0
    ensures Past(run, sched, s, shown, returned)
  {
    assert IsPast(run, sched, s, shown, returned);
  }

  lemma {:induction false} ExtendPast(
      run: seq<State>, sched: Schedule, now: State, shown: nat -> seq<Event>, returned: nat -> seq<Token>,
      t: nat, x: Choice, mem': Mem, pc': Pc, a: Answer, e: Event, paid: seq<Token>)
    requires IsPast(run, sched, now, shown, returned)
    requires t < |now.threads| && Outcome(now.mem, now.aux, t, now.threads[t], x, mem', pc', a, e, paid)
    ensures var run', sched', s' := Longer(run, sched, (t, x)), sched + [(t, x)], Turn(now, (t, x));
      && Past(run', sched', s', ShownIn(run', sched'), ReturnedIn(run', sched'))
      && s'.mem == mem' && s'.threads == now.threads[t := pc']
      && ShownIn(run', sched')(t) == shown(t) + Seen(e)
      && ReturnedIn(run', sched')(t) == returned(t) + paid
      && forall u: nat :: u != t ==> ShownIn(run', sched')(u) == shown(u) && ReturnedIn(run', sched')(u) == returned(u)
  {
    assert Unfold(0);
    ExtendRun(run, sched, (t, x));
    ExtendEvents(run, sched, (t, x), t);
    var run', sched', s' := Longer(run, sched, (t, x)), sched + [(t, x)], Turn(now, (t, x));
    forall u: nat | u != t ensures ShownIn(run', sched')(u) == shown(u) && ReturnedIn(run', sched')(u) == returned(u) {
      ExtendEvents(run, sched, (t, x), u);
    }
    assert IsPast(run', sched', s', ShownIn(run', sched'), ReturnedIn(run', sched'));
  }

  /** The message that each packet came with: a sender's has one. */
  ghost function Letters(aux: Aux): seq<Option<Msg>> {
    seq(|aux.info|, p requires 0 <= p < |aux.info| => if aux.info[p].side.Sender? then aux.info[p].deal else None)
  }

  lemma LettersStay(s: State, t: nat, x: Choice)
    requires Inv(s) && t < |s.threads|
    ensures Letters(s.aux) <= Letters(Step(s, t, x).aux)
  {
    if s.threads[t].Scan? && MemStep(s.mem, t, s.threads[t], x).pc.StorePacket? {
      PickDeals(s, t, x);
    } else {
      OtherLetters(s.mem, s.aux, t, s.threads[t], MemStep(s.mem, t, s.threads[t], x));
    }
  }

  lemma OtherLetters(mem: Mem, aux: Aux, t: nat, pc: Pc, out: Out)
    requires !(pc.Scan? && out.pc.StorePacket?)
    ensures Letters(aux) <= Letters(Annotate(mem, aux, t, pc, out))
  {
  }

  /** A registration adds the letter of the caller. */
  lemma RegisterLetter(s: State, t: nat, x: Choice)
    requires Inv(s) && t < |s.threads| && s.threads[t].Register?
    ensures Letters(Step(s, t, x).aux) == Letters(s.aux) + [s.threads[t].c.m]
  {
    assert ThreadOk(s.mem, s.aux, t, s.threads[t]);
  }

  /** What the lock guards, but for `is_disconnected`. */
  predicate SameQueues(mem: Mem, mem': Mem) {
    mem'.senders == mem.senders && mem'.receivers == mem.receivers && mem'.contexts == mem.contexts
  }

  lemma ContextsStay(mem: Mem, t: nat, pc: Pc, x: Choice)
    requires !InSection(pc)
    ensures MemStep(mem, t, pc, x).mem.contexts == mem.contexts
  {
  }

  /** Whoever is in the section is alone there: the steps of others leave queues and contexts as they are. */
  lemma AloneInSection(s: State, t: nat, x: Choice, u: nat)
    requires Inv(s) && t < |s.threads| && u < |s.threads| && u != t && InSection(s.threads[u])
    ensures SameQueues(s.mem, MemStep(s.mem, t, s.threads[t], x).mem)
  {
    QueuesStay(s.mem, t, s.threads[t], x);
    ContextsStay(s.mem, t, s.threads[t], x);
  }

  /** Nothing changes for the threads other than `t`. */
  ghost predicate OthersSame(
      t: nat, shown: nat -> seq<Event>, shown': nat -> seq<Event>, returned: nat -> seq<Token>, returned': nat -> seq<Token>) {
    forall u: nat :: u != t ==> shown'(u) == shown(u) && returned'(u) == returned(u)
  }

  /** All that one more step of thread `t` does to the history. */
  lemma {:induction false} Extend(
      run: seq<State>, sched: Schedule, now: State, shown: nat -> seq<Event>, returned: nat -> seq<Token>,
      t: nat, x: Choice, mem': Mem, pc': Pc, a: Answer, e: Event, paid: seq<Token>)
      returns (run': seq<State>, sched': Schedule, now': State, shown': nat -> seq<Event>, returned': nat -> seq<Token>)
    requires Past(run, sched, now, shown, returned)
    requires t < |now.threads| && Outcome(now.mem, now.aux, t, now.threads[t], x, mem', pc', a, e, paid)
    ensures Past(run', sched', now', shown', returned') && run < run' && |run'| == |run| + 1
    ensures now'.mem == mem' && now'.threads == now.threads[t := pc']
    ensures Letters(now.aux) <= Letters(now'.aux)
    ensures now.threads[t].Register? ==> Letters(now'.aux) == Letters(now.aux) + [now.threads[t].c.m]
    ensures shown'(t) == shown(t) + Seen(e)
    ensures returned'(t) == returned(t) + paid
    ensures OthersSame(t, shown, shown', returned, returned')
  {
    assert Unfold(0);
    ExtendPast(run, sched, now, shown, returned, t, x, mem', pc', a, e, paid);
    run', sched', now' := Longer(run, sched, (t, x)), sched + [(t, x)], Turn(now, (t, x));
    shown', returned' := ShownIn(run', sched'), ReturnedIn(run', sched');
    Always(run, sched, |sched|);
    LettersStay(now, t, x);
    if now.threads[t].Register? {
      RegisterLetter(now, t, x);
    }
  }

  /** What holds in the last state. */
  lemma PastInv(run: seq<State>, sched: Schedule, now: State, shown: nat -> seq<Event>, returned: nat -> seq<Token>)
    requires Past(run, sched, now, shown, returned)
    ensures Inv(now)
  {
    assert Unfold(0);
    Always(run, sched, |sched|);
  }
}
