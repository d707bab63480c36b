/**
 The queue of waiting tasks (src/atomic_serial_waker.rs) as a state machine: any
 number of threads, one step per atomic access; the bounded queue pushes and pops
 atomically. A notified task is one appended to `notified`.
 */
module SerialWaker {
  import opened Common

  type Task(==, !new)

  const CAPACITY: nat := 4

  datatype Mem = Mem(queue: seq<Task>, waiting: nat, fromMe: nat, notified: seq<Task>)

  datatype Pc =
    | Idle
    // register
    | RegPush(task: Task)
    // wk, with positive_update
    | WkPop
    | WkLoad(task: Task)
    | WkTry(task: Task, prev: nat)
    | WkPush(task: Task)
    // wake
    | WakePop
    | WakeMiss
    // wake_all
    | AllPop
    // from_me.fetch_add, then task.notify; `all` goes back to wake_all
    | Bump(task: Task, all: bool)
    | Notify(task: Task, all: bool)

  datatype Choice = Go | Spurious | Register(task: Task) | Wake | WakeAll

  datatype Out = Out(mem: Mem, pc: Pc)

  function SetQueue(mem: Mem, q: seq<Task>): Mem { Mem(q, mem.waiting, mem.fromMe, mem.notified) }

  function SetWaiting(mem: Mem, n: nat): Mem { Mem(mem.queue, n, mem.fromMe, mem.notified) }

  function MemStep(mem: Mem, pc: Pc, x: Choice): Out {
    match pc
    case Idle =>
      (match x
       case Register(task) => Out(mem, RegPush(task))
       case Wake => Out(mem, WakePop)
       case WakeAll => Out(mem, AllPop)
       case _ => Out(mem, Idle))
    case RegPush(task) =>
      if |mem.queue| < CAPACITY then Out(SetQueue(mem, mem.queue + [task]), WkPop) else Out(mem, Bump(task, false))
    case WkPop =>
      if mem.queue == [] then Out(mem, Idle) else Out(SetQueue(mem, mem.queue[1..]), WkLoad(mem.queue[0]))
    case WkLoad(task) => Out(mem, WkTry(task, mem.waiting))
    case WkTry(task, prev) =>
      if prev == 0 then Out(mem, WkPush(task))
      else if mem.waiting != prev || x.Spurious? then Out(mem, WkTry(task, mem.waiting))
      else Out(SetWaiting(mem, prev - 1), Bump(task, false))
    case WkPush(task) =>
      if |mem.queue| < CAPACITY then Out(SetQueue(mem, mem.queue + [task]), Idle) else Out(mem, Bump(task, false))
    case WakePop =>
      if mem.queue == [] then Out(mem, WakeMiss) else Out(SetQueue(mem, mem.queue[1..]), Bump(mem.queue[0], false))
    case WakeMiss => Out(SetWaiting(mem, mem.waiting + 1), Idle)
    case AllPop =>
      if mem.queue == [] then Out(mem, Idle) else Out(SetQueue(mem, mem.queue[1..]), Bump(mem.queue[0], true))
    case Bump(task, all) => Out(Mem(mem.queue, mem.waiting, mem.fromMe + 1, mem.notified), Notify(task, all))
    case Notify(task, all) => Out(Mem(mem.queue, mem.waiting, mem.fromMe, mem.notified + [task]), if all then AllPop else Idle)
  }

  /** `registered` collects the tasks that registrations have brought; `misses`
      counts the wakes that found no task, `used` those a registration made up for. */
  datatype State = State(mem: Mem, threads: seq<Pc>, registered: multiset<Task>, misses: nat, used: nat)

  function Step(s: State, t: nat, x: Choice): State
    requires t < |s.threads|
  {
    var pc := s.threads[t];
    var out := MemStep(s.mem, pc, x);
    State(out.mem, s.threads[t := out.pc],
          if pc.Idle? && x.Register? then s.registered + multiset{x.task} else s.registered,
          s.misses + (if pc.WakeMiss? then 1 else 0),
          s.used + (if pc.WkTry? && out.pc.Bump? then 1 else 0))
  }

  predicate Initial(s: State) {
    && s.mem.queue == [] && s.mem.waiting == 0 && s.mem.fromMe == 0 && s.mem.notified == []
    && (forall t :: 0 <= t < |s.threads| ==> s.threads[t].Idle?)
    && s.registered == multiset{} && s.misses == 0 && s.used == 0
  }

  // ---- where the tasks are ----

  /** The task in the thread's hands. */
  function TaskOf(pc: Pc): Option<Task> {
    match pc
    case RegPush(task) => Some(task)
    case WkLoad(task) => Some(task)
    case WkTry(task, _) => Some(task)
    case WkPush(task) => Some(task)
    case Bump(task, _) => Some(task)
    case Notify(task, _) => Some(task)
    case _ => None
  }

  function Hand(pc: Pc): multiset<Task> {
    match TaskOf(pc)
    case Some(task) => multiset{task}
    case None => multiset{}
  }

  function Hands(threads: seq<Pc>): multiset<Task> {
    if threads == [] then multiset{} else Hands(threads[..|threads| - 1]) + Hand(threads[|threads| - 1])
  }

  /** Threads between `from_me.fetch_add` and `notify`. */
  function Announced(threads: seq<Pc>): nat {
    if threads == [] then 0 else
      Announced(threads[..|threads| - 1]) + (if threads[|threads| - 1].Notify? then 1 else 0)
  }

  lemma AddBoth(a: multiset<Task>, b: multiset<Task>, c: multiset<Task>, d: multiset<Task>, e: multiset<Task>)
    requires a + b == c + d
    ensures a + e + b == c + e + d
  {
    assert a + e + b == a + b + e;
    assert c + e + d == c + d + e;
  }

  lemma {:induction false} HandsChange(threads: seq<Pc>, t: nat, pc: Pc)
    requires t < |threads|
    ensures Hands(threads[t := pc]) + Hand(threads[t]) == Hands(threads) + Hand(pc)
  {
    var n := |threads| - 1;
    if t < n {
      assert threads[t := pc][..n] == threads[..n][t := pc];
      HandsChange(threads[..n], t, pc);
      AddBoth(Hands(threads[..n][t := pc]), Hand(threads[t]), Hands(threads[..n]), Hand(pc), Hand(threads[n]));
    } else {
      assert threads[t := pc][..n] == threads[..n];
      assert Hands(threads[..n]) + Hand(pc) + Hand(threads[t]) == Hands(threads[..n]) + Hand(threads[t]) + Hand(pc);
    }
  }

  lemma {:induction false} AnnouncedChange(threads: seq<Pc>, t: nat, pc: Pc)
    requires t < |threads|
    ensures Announced(threads[t := pc]) + (if threads[t].Notify? then 1 else 0) ==
              Announced(threads) + (if pc.Notify? then 1 else 0)
  {
    var n := |threads| - 1;
    if t < n {
      assert threads[t := pc][..n] == threads[..n][t := pc];
      AnnouncedChange(threads[..n], t, pc);
    } else {
      assert threads[t := pc][..n] == threads[..n];
    }
  }

  /** A task is queued, in some thread's hands, or notified; nowhere twice. */
  ghost predicate Inv(s: State) {
    && s.registered == multiset(s.mem.queue) + Hands(s.threads) + multiset(s.mem.notified)
    && |s.mem.queue| <= CAPACITY
    && s.mem.fromMe == |s.mem.notified| + Announced(s.threads)
    && s.misses == s.used + s.mem.waiting
  }

  lemma PopMultiset(q: seq<Task>)
    requires q != []
    ensures multiset(q) == multiset(q[1..]) + multiset{q[0]}
  {
    assert q == [q[0]] + q[1..];
  }

  ghost function Total(mem: Mem, pc: Pc): multiset<Task> {
    multiset(mem.queue) + Hand(pc) + multiset(mem.notified)
  }

  lemma PushOut(mem: Mem, pc: Pc, x: Choice)
    requires pc.RegPush? || pc.WkPush?
    ensures var out := MemStep(mem, pc, x);
      out.mem.notified == mem.notified
      && if |mem.queue| < CAPACITY then out.mem.queue == mem.queue + [pc.task] && TaskOf(out.pc).None?
         else out.mem.queue == mem.queue && TaskOf(out.pc) == Some(pc.task)
  {
  }

  lemma PushSum(q: seq<Task>, task: Task, n: multiset<Task>)
    ensures multiset(q + [task]) + multiset{} + n == multiset(q) + multiset{task} + n
  {
  }

  lemma PushConserves(mem: Mem, pc: Pc, x: Choice)
    requires pc.RegPush? || pc.WkPush?
    ensures Total(MemStep(mem, pc, x).mem, MemStep(mem, pc, x).pc) == Total(mem, pc)
  {
    PushOut(mem, pc, x);
    PushSum(mem.queue, pc.task, multiset(mem.notified));
  }

  lemma PopConserves(mem: Mem, pc: Pc, x: Choice)
    requires pc.WkPop? || pc.WakePop? || pc.AllPop?
    ensures Total(MemStep(mem, pc, x).mem, MemStep(mem, pc, x).pc) == Total(mem, pc)
  {
    PopOut(mem, pc, x);
    if mem.queue != [] {
      PopSum(mem.queue, multiset(mem.notified));
    }
  }

  lemma PopOut(mem: Mem, pc: Pc, x: Choice)
    requires pc.WkPop? || pc.WakePop? || pc.AllPop?
    ensures var out := MemStep(mem, pc, x);
      out.mem.notified == mem.notified
      && if mem.queue == [] then out.mem.queue == [] && TaskOf(out.pc).None?
         else out.mem.queue == mem.queue[1..] && TaskOf(out.pc) == Some(mem.queue[0])
  {
  }

  lemma PopSum(q: seq<Task>, n: multiset<Task>)
    requires q != []
    ensures multiset(q[1..]) + multiset{q[0]} + n == multiset(q) + multiset{} + n
  {
    PopMultiset(q);
  }

  lemma NotifyConserves(mem: Mem, pc: Pc, x: Choice)
    requires pc.Notify?
    ensures Total(MemStep(mem, pc, x).mem, MemStep(mem, pc, x).pc) == Total(mem, pc)
  {
  }

  lemma RestConserves(mem: Mem, pc: Pc, x: Choice)
    requires pc.WkLoad? || pc.WkTry? || pc.WakeMiss? || pc.Bump? || (pc.Idle? && !x.Register?)
    ensures var out := MemStep(mem, pc, x);
      out.mem.queue == mem.queue && out.mem.notified == mem.notified && TaskOf(out.pc) == TaskOf(pc)
  {
  }

  /** The step moves a task between the queue, the hand and the notified, and loses none. */
  lemma Conserves(mem: Mem, pc: Pc, x: Choice)
    ensures var out := MemStep(mem, pc, x);
      Total(out.mem, out.pc) == Total(mem, pc) + (if pc.Idle? && x.Register? then multiset{x.task} else multiset{})
  {
    var none: multiset<Task> := multiset{};
    assert Total(mem, pc) + none == Total(mem, pc);
    if pc.RegPush? || pc.WkPush? {
      PushConserves(mem, pc, x);
    } else if pc.WkPop? || pc.WakePop? || pc.AllPop? {
      PopConserves(mem, pc, x);
    } else if pc.Notify? {
      NotifyConserves(mem, pc, x);
    } else if pc.Idle? && x.Register? {
    } else {
      RestConserves(mem, pc, x);
    }
  }

  lemma Sums(q: multiset<Task>, h: multiset<Task>, n: multiset<Task>, a: multiset<Task>, a': multiset<Task>,
             q': multiset<Task>, h': multiset<Task>, n': multiset<Task>, r: multiset<Task>)
    requires q' + a' + n' == q + a + n + r && h' + a == h + a'
    ensures q' + h' + n' == q + h + n + r
  {
    forall t: Task ensures (q' + h' + n')[t] == (q + h + n + r)[t] {
      assert (q' + a' + n')[t] == (q + a + n + r)[t];
      assert (h' + a)[t] == (h + a')[t];
    }
  }

  lemma TasksKept(s: State, t: nat, x: Choice)
    requires Inv(s) && t < |s.threads|
    ensures var s' := Step(s, t, x);
      s'.registered == multiset(s'.mem.queue) + Hands(s'.threads) + multiset(s'.mem.notified)
  {
    var pc := s.threads[t];
    var out := MemStep(s.mem, pc, x);
    Conserves(s.mem, pc, x);
    HandsChange(s.threads, t, out.pc);
    Sums(multiset(s.mem.queue), Hands(s.threads), multiset(s.mem.notified), Hand(pc), Hand(out.pc),
         multiset(out.mem.queue), Hands(s.threads[t := out.pc]), multiset(out.mem.notified),
         if pc.Idle? && x.Register? then multiset{x.task} else multiset{});
  }

  lemma CountsKept(s: State, t: nat, x: Choice)
    requires Inv(s) && t < |s.threads|
    ensures var s' := Step(s, t, x);
      |s'.mem.queue| <= CAPACITY && s'.mem.fromMe == |s'.mem.notified| + Announced(s'.threads)
      && s'.misses == s'.used + s'.mem.waiting
  {
    AnnouncedChange(s.threads, t, MemStep(s.mem, s.threads[t], x).pc);
    CountsMove(s.mem, s.threads[t], x);
  }

  /** How one step moves the counters. */
  lemma CountsMove(mem: Mem, pc: Pc, x: Choice)
    requires |mem.queue| <= CAPACITY
    ensures var out := MemStep(mem, pc, x);
      && |out.mem.queue| <= CAPACITY
      && out.mem.fromMe == mem.fromMe + (if pc.Bump? then 1 else 0)
      && |out.mem.notified| == |mem.notified| + (if pc.Notify? then 1 else 0)
      && out.mem.waiting == mem.waiting + (if pc.WakeMiss? then 1 else 0) - (if pc.WkTry? && out.pc.Bump? then 1 else 0)
      && (out.pc.Notify? <==> pc.Bump?)
  {
  }

  // ---- runs ----

  type Schedule = seq<(nat, Choice)>

  ghost predicate IsRun(run: seq<State>, sched: Schedule) {
    && |run| == |sched| + 1 && Initial(run[0])
    && forall i {:trigger sched[i]} :: 0 <= i < |sched| ==>
         run[i + 1] == if sched[i].0 < |run[i].threads| then Step(run[i], sched[i].0, sched[i].1) else run[i]
  }

  lemma {:induction false} NoHands(threads: seq<Pc>)
    requires forall t :: 0 <= t < |threads| ==> threads[t].Idle?
    ensures Hands(threads) == multiset{} && Announced(threads) == 0
  {
    if threads != [] {
      NoHands(threads[..|threads| - 1]);
    }
  }

  /**
   Conservation under every interleaving: the tasks registered are those queued,
   those in some thread's hands and those notified; the queue never holds more
   than 4; `from_me` runs ahead of the notifications by the ones announced; and
   the wakes that missed are those made up for and those still banked.
   */
  lemma {:induction false} Always(run: seq<State>, sched: Schedule, i: nat)
    requires IsRun(run, sched) && i < |run|
    ensures Inv(run[i])
  {
    if i == 0 {
      NoHands(run[0].threads);
    } else {
      Always(run, sched, i - 1);
      var s, x := run[i - 1], sched[i - 1];
      if x.0 < |s.threads| {
        TasksKept(s, x.0, x.1);
        CountsKept(s, x.0, x.1);
      }
    }
  }

  /** When no call is under way, no task is lost: what was registered is queued or notified. */
  lemma QuietTasks(run: seq<State>, sched: Schedule, i: nat)
    requires IsRun(run, sched) && i < |run|
    requires forall t :: 0 <= t < |run[i].threads| ==> run[i].threads[t].Idle?
    ensures run[i].registered == multiset(run[i].mem.queue) + multiset(run[i].mem.notified)
    ensures run[i].mem.fromMe == |run[i].mem.notified|
  {
    Always(run, sched, i);
    NoHands(run[i].threads);
  }

  // ---- positive_update ----

  predicate Updating(pc: Pc) { pc.WkLoad? || pc.WkTry? }

  /** Thread `t` is in one call of `positive_update` from state `i` on, up to state `j`. */
  ghost predicate InUpdate(run: seq<State>, sched: Schedule, t: nat, i: nat, j: nat) {
    && IsRun(run, sched) && i < j < |run| && t < |run[i].threads| && run[i].threads[t].WkLoad?
    && forall k :: i <= k < j ==> t < |run[k].threads| && Updating(run[k].threads[t])
  }

  /** None of the thread's own steps between the two states changes the memory. */
  ghost predicate Untouched(run: seq<State>, sched: Schedule, t: nat, i: nat, j: nat)
    requires j <= |sched| < |run|
  {
    forall k :: i <= k < j && sched[k].0 == t ==> run[k + 1].mem == run[k].mem
  }

  /** One of the thread's own steps between the two states finds `waiting` at `n`. */
  ghost predicate Saw(run: seq<State>, sched: Schedule, t: nat, i: nat, j: nat, n: nat)
    requires j <= |sched| < |run|
  {
    exists k :: i <= k < j && sched[k].0 == t && run[k].mem.waiting == n
  }

  /** One step of the loop, by the thread or by another. */
  lemma UpdateStep(run: seq<State>, sched: Schedule, t: nat, k: nat)
    requires IsRun(run, sched) && k < |sched| && t < |run[k].threads| && Updating(run[k].threads[t])
    ensures |run[k + 1].threads| == |run[k].threads|
    ensures var pc, pc' := run[k].threads[t], run[k + 1].threads[t];
      && (sched[k].0 != t ==> pc' == pc)
      && (sched[k].0 == t && Updating(pc') ==> run[k + 1].mem == run[k].mem && pc'.WkTry? && pc'.prev == run[k].mem.waiting)
      && (sched[k].0 == t && pc'.WkPush? ==> run[k + 1].mem == run[k].mem && pc.WkTry? && pc.prev == 0)
      && (sched[k].0 == t && !Updating(pc') && !pc'.WkPush? ==>
            pc'.Bump? && run[k].mem.waiting > 0 && run[k + 1].mem == SetWaiting(run[k].mem, run[k].mem.waiting - 1))
  {
    assert run[k + 1] == if sched[k].0 < |run[k].threads| then Step(run[k], sched[k].0, sched[k].1) else run[k];
  }

  /** While the call lasts, the value it compares with is one it saw, and it has changed nothing. */
  lemma {:induction false} UpdateSaw(run: seq<State>, sched: Schedule, t: nat, i: nat, j: nat, k: nat)
    requires InUpdate(run, sched, t, i, j) && i <= k < j
    ensures Untouched(run, sched, t, i, k)
    ensures run[k].threads[t].WkTry? ==> Saw(run, sched, t, i, k, run[k].threads[t].prev)
  {
    if i < k {
      UpdateSaw(run, sched, t, i, j, k - 1);
      UpdateStep(run, sched, t, k - 1);
      if sched[k - 1].0 == t {
        assert run[k - 1].mem.waiting == run[k].threads[t].prev;
      } else if run[k].threads[t].WkTry? {
        WidenSaw(run, sched, t, i, k - 1, run[k].threads[t].prev);
      }
    }
  }

  lemma {:induction false} WidenSaw(run: seq<State>, sched: Schedule, t: nat, i: nat, j: nat, n: nat)
    requires j < |sched| < |run| && Saw(run, sched, t, i, j, n)
    ensures Saw(run, sched, t, i, j + 1, n)
  {
    var m :| i <= m < j && sched[m].0 == t && run[m].mem.waiting == n;
    assert sched[m].0 == t;
  }

  lemma UpdateEnds(run: seq<State>, sched: Schedule, t: nat, i: nat, j: nat)
    requires InUpdate(run, sched, t, i, j) && t < |run[j].threads| && !Updating(run[j].threads[t])
    ensures sched[j - 1].0 == t && (run[j].threads[t].Bump? || run[j].threads[t].WkPush?)
    ensures run[j].threads[t].Bump? ==>
      run[j - 1].mem.waiting > 0 && run[j].mem == SetWaiting(run[j - 1].mem, run[j - 1].mem.waiting - 1)
    ensures run[j].threads[t].WkPush? ==>
      run[j].mem == run[j - 1].mem && run[j - 1].threads[t].WkTry? && run[j - 1].threads[t].prev == 0
  {
    UpdateStep(run, sched, t, j - 1);
  }

  /**
   `positive_update` is an atomic decrement-if-positive, for a whole call in any
   run. If it succeeds, exactly one of its own steps changes the memory: the last
   one takes 1 from a positive `waiting`. If it fails, none of them changes the
   memory, and one of them found `waiting` at 0.
   */
  lemma PositiveUpdate(run: seq<State>, sched: Schedule, t: nat, i: nat, j: nat)
    requires InUpdate(run, sched, t, i, j) && t < |run[j].threads| && !Updating(run[j].threads[t])
    ensures run[j].threads[t].Bump? || run[j].threads[t].WkPush?
    ensures run[j].threads[t].Bump? ==>
      && sched[j - 1].0 == t && Untouched(run, sched, t, i, j - 1)
      && run[j - 1].mem.waiting > 0 && run[j].mem == SetWaiting(run[j - 1].mem, run[j - 1].mem.waiting - 1)
    ensures run[j].threads[t].WkPush? ==> Untouched(run, sched, t, i, j) && Saw(run, sched, t, i, j, 0)
  {
    UpdateEnds(run, sched, t, i, j);
    UpdateSaw(run, sched, t, i, j, j - 1);
    if run[j].threads[t].WkPush? {
      WidenSaw(run, sched, t, i, j - 1, 0);
    }
  }
}

/** The same queue with its operations run one at a time, in the shape of the original. */
module SerialObject {
  import opened Common
  import opened SerialWaker

  class Tasks {
    var queue: seq<Task>
    var waiting: nat
    var fromMe: nat
    var notified: seq<Task>
    ghost var registered: multiset<Task>
    /** Calls of wake; tasks notified by wake; tasks notified against a banked wake. */
    ghost var wakes: nat
    ghost var byWake: nat
    ghost var byWaiting: nat

    /** While wakes are banked no task waits, and every wake has its task or is banked. */
    ghost predicate Valid()
      reads this
    {
      && |queue| <= CAPACITY
      && (waiting > 0 ==> queue == [])
      && Accounted(registered, queue, notified)
      && fromMe == |notified|
      && wakes == byWake + byWaiting + waiting
    }

    /** The object as a value, for what is said of sequences of calls. */
    ghost function Now(): Line
      reads this
    {
      Line(queue, waiting, notified)
    }

    constructor ()
      ensures Valid() && queue == [] && notified == [] && waiting == 0 && Now() == After([])
    {
      queue, waiting, fromMe, notified := [], 0, 0, [];
      registered, wakes, byWake, byWaiting := multiset{}, 0, 0, 0;
      new;
      NothingYet(registered, queue, notified);
    }

    method Tell(task: Task)
      modifies `fromMe, `notified
      ensures fromMe == old(fromMe) + 1 && notified == old(notified) + [task]
    {
      fromMe := fromMe + 1;
      notified := notified + [task];
    }

    /** `positive_update` */
    method PositiveUpdate() returns (ok: bool)
      modifies `waiting
      ensures ok <==> old(waiting) > 0
      ensures waiting == if ok then old(waiting) - 1 else old(waiting)
    {
      var prev := waiting;
      var spurious: nat := *;
      while prev > 0
        invariant prev == waiting == old(waiting)
        decreases spurious
      {
        if spurious == 0 {
          waiting := prev - 1;
          return true;
        }
        spurious := spurious - 1;
        prev := waiting;
      }
      return false;
    }

    /**
     `register`: against a banked wake, or when the queue is full, the task is
     notified at once; otherwise it goes to the end of the queue, and then `wk`
     moves the first task behind it.
     */
    method Register(task: Task)
      requires Valid()
      modifies this
      ensures Valid() && registered == old(registered) + multiset{task} && wakes == old(wakes)
      ensures if old(waiting) > 0 then
                notified == old(notified) + [task] && queue == [] && waiting == old(waiting) - 1
              else if |old(queue)| == CAPACITY then
                notified == old(notified) + [task] && queue == old(queue) && waiting == 0
              else
                notified == old(notified) && queue == Rotated(old(queue) + [task]) && waiting == 0
      ensures Now() == Apply(old(Now()), Reg(task))
    {
      Arrives(registered, queue, notified, task);
      registered := registered + multiset{task};
      if |queue| < CAPACITY {
        queue := queue + [task];
        Wk();
      } else {
        Tell(task);
      }
    }

    method Wk()
      requires queue != [] && |queue| <= CAPACITY && (waiting > 0 ==> |queue| == 1)
      requires Accounted(registered, queue, notified)
      modifies this
      ensures Accounted(registered, queue, notified)
      ensures if old(waiting) > 0 then
                notified == old(notified) + [old(queue)[0]] && queue == [] && waiting == old(waiting) - 1
                && byWaiting == old(byWaiting) + 1 && fromMe == old(fromMe) + 1
              else
                notified == old(notified) && queue == Rotated(old(queue)) && waiting == 0
                && byWaiting == old(byWaiting) && fromMe == old(fromMe)
      ensures registered == old(registered) && wakes == old(wakes) && byWake == old(byWake)
    {
      Goes(registered, queue, notified);
      Rotates(registered, queue, notified);
      var task := queue[0];
      queue := queue[1..];
      var ok := PositiveUpdate();
      if ok {
        byWaiting := byWaiting + 1;
        Tell(task);
      } else {
        queue := queue + [task];
      }
    }

    /** `wake`: the first task in the queue is notified, or the wake is banked. */
    method Wake()
      requires Valid()
      modifies this
      ensures Valid() && registered == old(registered) && wakes == old(wakes) + 1
      ensures if old(queue) != [] then
                queue == old(queue)[1..] && notified == old(notified) + [old(queue)[0]] && waiting == old(waiting)
              else
                queue == [] && notified == old(notified) && waiting == old(waiting) + 1
      ensures Now() == Apply(old(Now()), One)
    {
      if queue != [] {
        WakeFirst();
      } else {
        waiting := waiting + 1;
      }
      wakes := wakes + 1;
    }

    /** A popped task is notified. */
    method WakeFirst()
      requires queue != [] && Accounted(registered, queue, notified)
      modifies `queue, `fromMe, `notified, `byWake
      ensures queue == old(queue)[1..] && notified == old(notified) + [old(queue)[0]]
      ensures Accounted(registered, queue, notified)
      ensures fromMe == old(fromMe) + 1 && byWake == old(byWake) + 1
    {
      Goes(registered, queue, notified);
      var task := queue[0];
      queue := queue[1..];
      byWake := byWake + 1;
      Tell(task);
    }

    /** `wake_all`: every task in the queue is notified, in order. */
    method WakeAll()
      requires Valid()
      modifies this
      ensures Valid() && registered == old(registered) && wakes == old(wakes) && waiting == old(waiting)
      ensures queue == [] && notified == old(notified) + old(queue)
      ensures Now() == Apply(old(Now()), All)
    {
      ghost var k := 0;
      while queue != []
        invariant Valid() && registered == old(registered) && wakes == old(wakes) && waiting == old(waiting)
        invariant k <= |old(queue)| && queue == old(queue)[k..] && notified == old(notified) + old(queue)[..k]
        decreases |queue|
      {
        Goes(registered, queue, notified);
        var task := queue[0];
        queue := queue[1..];
        Tell(task);
        k := k + 1;
      }
    }
  }

  function Rotated(q: seq<Task>): seq<Task>
    requires q != []
  {
    q[1..] + [q[0]]
  }

  /** Every task registered is queued or notified; kept folded, `Unfold(0)` brings it into a proof. */
  ghost predicate Accounted(registered: multiset<Task>, q: seq<Task>, n: seq<Task>) {
    forall k {:trigger Unfold(k)} :: Unfold(k) ==> registered == multiset(q) + multiset(n)
  }

  lemma NothingYet(registered: multiset<Task>, q: seq<Task>, n: seq<Task>)
    requires |registered| == |q| == |n| == 0
    ensures Accounted(registered, q, n)
  {
    assert registered == multiset(q) + multiset(n);
  }

  /** A task arrives: at the end of the queue, or to be notified at once. */
  lemma Arrives(registered: multiset<Task>, q: seq<Task>, n: seq<Task>, task: Task)
    requires Accounted(registered, q, n)
    ensures Accounted(registered + multiset{task}, q + [task], n)
    ensures Accounted(registered + multiset{task}, q, n + [task])
  {
    assert Unfold(0);
    assert multiset(q + [task]) == multiset(q) + multiset{task};
    assert multiset(n + [task]) == multiset(n) + multiset{task};
  }

  /** The first task of the queue is notified. */
  lemma Goes(registered: multiset<Task>, q: seq<Task>, n: seq<Task>)
    requires Accounted(registered, q, n) && q != []
    ensures Accounted(registered, q[1..], n + [q[0]])
  {
    assert Unfold(0);
    PopMultiset(q);
    assert multiset(n + [q[0]]) == multiset(n) + multiset{q[0]};
  }

  lemma Rotates(registered: multiset<Task>, q: seq<Task>, n: seq<Task>)
    requires Accounted(registered, q, n) && q != []
    ensures Accounted(registered, Rotated(q), n)
  {
    assert Unfold(0);
    PopMultiset(q);
    assert multiset(Rotated(q)) == multiset(q[1..]) + multiset{q[0]};
  }

  // ---- the order of notifications ----

  datatype Line = Line(queue: seq<Task>, waiting: nat, notified: seq<Task>)

  /** The calls: register, wake, wake_all. */
  datatype Op = Reg(task: Task) | One | All

  function Apply(l: Line, op: Op): Line {
    match op
    case Reg(task) =>
      if l.waiting > 0 then Line([], l.waiting - 1, l.notified + [task])
      else if |l.queue| >= CAPACITY then Line(l.queue, 0, l.notified + [task])
      else Line(Rotated(l.queue + [task]), 0, l.notified)
    case One =>
      if l.queue != [] then Line(l.queue[1..], l.waiting, l.notified + [l.queue[0]])
      else Line([], l.waiting + 1, l.notified)
    case All => Line([], l.waiting, l.notified + l.queue)
  }

  /** A new object after some calls. */
  function After(ops: seq<Op>): Line {
    if ops == [] then Line([], 0, []) else Apply(After(ops[..|ops| - 1]), ops[|ops| - 1])
  }

  /** The tasks registered by some calls, in order. */
  function Registered(ops: seq<Op>): seq<Task> {
    if ops == [] then [] else
      var op := ops[|ops| - 1];
      Registered(ops[..|ops| - 1]) + (if op.Reg? then [op.task] else [])
  }

  /** The notifications so far, and those to come if nothing else is registered, are in the order of registration. */
  predicate InOrder(ops: seq<Op>) { After(ops).notified + After(ops).queue == Registered(ops) }

  /** What a caller of register can check: a banked wake, or no other task in the queue. */
  predicate Keeps(l: Line, op: Op) {
    op.Reg? ==> l.waiting > 0 || Same(l.queue, op.task)
  }

  predicate Same(q: seq<Task>, task: Task) { forall k :: 0 <= k < |q| ==> q[k] == task }

  /** A shift by one that changes nothing means that all are equal to the last. */
  lemma {:induction false} Shifted(q: seq<Task>, k: nat)
    requires k < |q| && forall i :: 0 <= i < |q| - 1 ==> q[i] == q[i + 1]
    ensures q[k] == q[|q| - 1]
    decreases |q| - k
  {
    if k < |q| - 1 {
      Shifted(q, k + 1);
    }
  }

  /** Queueing a task keeps the order exactly if no other task is queued. */
  lemma RotationKeeps(q: seq<Task>, task: Task)
    ensures Rotated(q + [task]) == q + [task] <==> Same(q, task)
  {
    var s := q + [task];
    if Rotated(s) == s {
      assert forall i :: 0 <= i < |s| - 1 ==> Rotated(s)[i] == s[i + 1];
      forall k | 0 <= k < |q| ensures q[k] == task {
        Shifted(s, k);
        assert s[k] == q[k];
      }
    }
  }

  /** Overtaking a full queue keeps the order exactly if all its tasks are equal. */
  lemma OvertakingKeeps(q: seq<Task>, task: Task)
    ensures [task] + q == q + [task] <==> Same(q, task)
  {
    var s := q + [task];
    if [task] + q == s {
      forall i | 0 <= i < |s| - 1 ensures s[i] == s[i + 1] {
        assert s[i + 1] == ([task] + q)[i + 1];
      }
      forall k | 0 <= k < |q| ensures q[k] == task {
        Shifted(s, k);
        assert s[k] == q[k];
      }
    }
  }

  predicate Serial(l: Line) { |l.queue| <= CAPACITY && (l.waiting > 0 ==> l.queue == []) }

  lemma {:induction false} StaysSerial(ops: seq<Op>)
    ensures Serial(After(ops))
  {
    if ops != [] {
      StaysSerial(ops[..|ops| - 1]);
    }
  }

  lemma Cancel(a: seq<Task>, b: seq<Task>, c: seq<Task>)
    ensures a + b == a + c <==> b == c
  {
    if a + b == a + c {
      assert b == (a + b)[|a|..] == (a + c)[|a|..] == c;
    }
  }

  /** One call on an object in order. */
  lemma OneCall(l: Line, op: Op, r: seq<Task>)
    requires Serial(l) && l.notified + l.queue == r
    ensures var l' := Apply(l, op);
      l'.notified + l'.queue == r + (if op.Reg? then [op.task] else []) <==> Keeps(l, op)
  {
    if op.Reg? && l.waiting == 0 {
      assert r + [op.task] == l.notified + (l.queue + [op.task]);
      if |l.queue| >= CAPACITY {
        assert l.notified + [op.task] + l.queue == l.notified + ([op.task] + l.queue);
        Cancel(l.notified, [op.task] + l.queue, l.queue + [op.task]);
        OvertakingKeeps(l.queue, op.task);
      } else {
        Cancel(l.notified, Rotated(l.queue + [op.task]), l.queue + [op.task]);
        RotationKeeps(l.queue, op.task);
      }
    } else if op.One? && l.queue != [] {
      assert l.queue == [l.queue[0]] + l.queue[1..];
    }
  }

  ghost predicate AlwaysInOrder(ops: seq<Op>) { forall k :: 0 <= k <= |ops| ==> InOrder(ops[..k]) }

  ghost predicate AlwaysKeeps(ops: seq<Op>) { forall k :: 0 <= k < |ops| ==> Keeps(After(ops[..k]), ops[k]) }

  lemma OrderSplits(ops: seq<Op>)
    requires ops != []
    ensures AlwaysInOrder(ops) <==> AlwaysInOrder(ops[..|ops| - 1]) && InOrder(ops)
  {
    var n := |ops| - 1;
    var front := ops[..n];
    assert ops[..n + 1] == ops;
    assert forall k :: 0 <= k <= n ==> front[..k] == ops[..k];
  }

  lemma KeepsSplits(ops: seq<Op>)
    requires ops != []
    ensures AlwaysKeeps(ops) <==> AlwaysKeeps(ops[..|ops| - 1]) && Keeps(After(ops[..|ops| - 1]), ops[|ops| - 1])
  {
    var n := |ops| - 1;
    var front := ops[..n];
    assert forall k :: 0 <= k <= n ==> front[..k] == ops[..k];
  }

  /**
   For every sequence of calls on a new object: tasks stay in the order of their
   registration throughout, exactly if every call of register met a banked wake
   or a queue without any other task.
   */
  lemma {:induction false} OrderKeptExactly(ops: seq<Op>)
    ensures AlwaysInOrder(ops) <==> AlwaysKeeps(ops)
  {
    if ops == [] {
      assert forall k :: 0 <= k <= 0 ==> ops[..k] == [];
    } else {
      var front, op := ops[..|ops| - 1], ops[|ops| - 1];
      OrderKeptExactly(front);
      OrderSplits(ops);
      KeepsSplits(ops);
      if AlwaysInOrder(front) {
        assert front[..|front|] == front;
        StaysSerial(front);
        OneCall(After(front), op, Registered(front));
      }
    }
  }

  /** "Throughout" matters: the order can come back by chance, when the same task is registered again. */
  lemma OrderComesBack(a: Task, b: Task)
    requires a != b
    ensures !InOrder([Reg(a), Reg(b)]) && InOrder([Reg(a), Reg(b), Reg(b)])
  {
    var one, two, three := [Reg(a)], [Reg(a), Reg(b)], [Reg(a), Reg(b), Reg(b)];
    assert two[..1] == one && three[..2] == two && one[..0] == [];
    assert After(one) == Line([a], 0, []) && Registered(one) == [a];
    assert After(two) == Line([b, a], 0, []) && Registered(two) == [a, b];
    assert After(three) == Line([a, b, b], 0, []) && Registered(three) == [a, b, b];
  }

  /**
   The queue is not first-in first-out: of two tasks registered one after the
   other, a wake notifies the second.
   */
  method SecondComesFirst(a: Task, b: Task) returns (first: Task)
    ensures first == b
  {
    var tasks := new Tasks();
    tasks.Register(a);
    tasks.Register(b);
    tasks.Wake();
    first := tasks.notified[0];
  }
}
