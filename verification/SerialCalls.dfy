/**
 What a whole call of `register`, `wake` or `wake_all` does, whatever other
 threads do in between; and that a call made alone does what the queue run one
 call at a time does.
 */
module SerialCalls {
  import opened Common
  import opened SerialWaker
  import opened SerialObject

  // ---- what one step does to the shared memory ----

  /** `Empty`, `Full` and `Zero` are findings: queue empty, queue full, no wake banked. */
  datatype Effect =
    | Push(task: Task) | Pop(task: Task) | Empty | Full | Zero
    | Bank | Unbank | Count | Tell(task: Task)

  predicate Can(mem: Mem, e: Effect) {
    match e
    case Push(_) => |mem.queue| < CAPACITY
    case Pop(task) => mem.queue != [] && mem.queue[0] == task
    case Empty => mem.queue == []
    case Full => |mem.queue| >= CAPACITY
    case Zero => mem.waiting == 0
    case Unbank => mem.waiting > 0
    case _ => true
  }

  function Do(mem: Mem, e: Effect): Mem
    requires Can(mem, e)
  {
    match e
    case Push(task) => mem.(queue := mem.queue + [task])
    case Pop(_) => mem.(queue := mem.queue[1..])
    case Bank => mem.(waiting := mem.waiting + 1)
    case Unbank => mem.(waiting := mem.waiting - 1)
    case Count => mem.(fromMe := mem.fromMe + 1)
    case Tell(task) => mem.(notified := mem.notified + [task])
    case _ => mem
  }

  predicate Does(mem: Mem, e: Effect, mem': Mem) { Can(mem, e) && mem' == Do(mem, e) }

  /**
   The own steps of thread `t` from state `i` to state `j` do exactly `es`, in
   this order; every other step of its own leaves the memory as it is.
   */
  ghost predicate Trail(run: seq<State>, sched: Schedule, t: nat, i: nat, j: nat, es: seq<Effect>)
    requires j <= |sched| < |run|
    decreases j
  {
    if j <= i then es == []
    else if sched[j - 1].0 != t then Trail(run, sched, t, i, j - 1, es)
    else
      || (run[j].mem == run[j - 1].mem && Trail(run, sched, t, i, j - 1, es))
      || (es != [] && Does(run[j - 1].mem, es[|es| - 1], run[j].mem) && Trail(run, sched, t, i, j - 1, es[..|es| - 1]))
  }

  // ---- what a call does, from beginning to end ----

  /** Each task is taken off the front, counted and notified. */
  function Each(tasks: seq<Task>): seq<Effect> {
    if tasks == [] then [] else
      var task := tasks[|tasks| - 1];
      Each(tasks[..|tasks| - 1]) + [Pop(task), Count, Tell(task)]
  }

  predicate IsWake(es: seq<Effect>) {
    es == [Empty, Bank] || (|es| == 3 && es[0].Pop? && es == Each([es[0].task]))
  }

  ghost predicate IsWakeAll(es: seq<Effect>) { exists tasks :: es == Each(tasks) + [Empty] }

  /** `wk`: the first task is notified against a banked wake, or goes to the end; if that is full by then, it is notified too. */
  predicate IsWk(es: seq<Effect>) {
    es == [Empty]
    || (|es| > 0 && es[0].Pop? &&
        var task := es[0].task;
        || es == [Pop(task), Unbank, Count, Tell(task)]
        || es == [Pop(task), Zero, Push(task)]
        || es == [Pop(task), Zero, Full, Count, Tell(task)])
  }

  predicate IsRegister(task: Task, es: seq<Effect>) {
    es == [Full, Count, Tell(task)] || (|es| > 0 && es[0] == Push(task) && IsWk(es[1..]))
  }

  ghost predicate IsCall(op: Op, es: seq<Effect>) {
    match op
    case Reg(task) => IsRegister(task, es)
    case One => IsWake(es)
    case All => IsWakeAll(es)
  }

  function ChoiceOf(op: Op): Choice {
    match op
    case Reg(task) => Register(task)
    case One => Wake
    case All => WakeAll
  }

  // ---- how far a call has come ----

  predicate RegisterAt(task: Task, es: seq<Effect>, pc: Pc) {
    match pc
    case RegPush(x) => x == task && es == []
    case WkPop => es == [Push(task)]
    case WkLoad(x) => es == [Push(task), Pop(x)]
    case WkTry(x, prev) => es == [Push(task), Pop(x)] + (if prev == 0 then [Zero] else [])
    case WkPush(x) => es == [Push(task), Pop(x), Zero]
    case Bump(x, all) => !all && ToTell(task, es, x)
    case Notify(x, all) => !all && |es| > 0 && es[|es| - 1] == Count && ToTell(task, es[..|es| - 1], x)
    case Idle => IsRegister(task, es)
    case _ => false
  }

  /** Why a registration notifies task `x`. */
  predicate ToTell(task: Task, es: seq<Effect>, x: Task) {
    || (es == [Full] && x == task)
    || es == [Push(task), Pop(x), Unbank]
    || es == [Push(task), Pop(x), Zero, Full]
  }

  predicate WakeAt(es: seq<Effect>, pc: Pc) {
    match pc
    case WakePop => es == []
    case WakeMiss => es == [Empty]
    case Bump(x, all) => !all && es == [Pop(x)]
    case Notify(x, all) => !all && es == [Pop(x), Count]
    case Idle => IsWake(es)
    case _ => false
  }

  ghost predicate WakeAllAt(es: seq<Effect>, pc: Pc) {
    match pc
    case AllPop => exists tasks :: es == Each(tasks)
    case Bump(x, all) => all && exists tasks :: es == Each(tasks) + [Pop(x)]
    case Notify(x, all) => all && exists tasks :: es == Each(tasks) + [Pop(x), Count]
    case Idle => IsWakeAll(es)
    case _ => false
  }

  ghost predicate At(op: Op, es: seq<Effect>, pc: Pc) {
    match op
    case Reg(task) => RegisterAt(task, es, pc)
    case One => WakeAt(es, pc)
    case All => WakeAllAt(es, pc)
  }

  /** A step from `mem` does nothing, or one effect more. */
  predicate Adds(es: seq<Effect>, mem: Mem, es': seq<Effect>, mem': Mem) {
    || (es' == es && mem' == mem)
    || (es' != [] && es'[..|es'| - 1] == es && Does(mem, es'[|es'| - 1], mem'))
  }

  lemma Told(task: Task, es: seq<Effect>, x: Task)
    requires ToTell(task, es, x)
    ensures IsRegister(task, es + [Count, Tell(x)])
  {
    var all := es + [Count, Tell(x)];
    if es == [Full] {
    } else if |es| == 3 {
      assert all[1..] == [Pop(x), Unbank, Count, Tell(x)];
    } else {
      assert all[1..] == [Pop(x), Zero, Full, Count, Tell(x)];
    }
  }

  lemma RegisterTells(task: Task, es: seq<Effect>, mem: Mem, pc: Pc, x: Choice) returns (es': seq<Effect>)
    requires RegisterAt(task, es, pc) && (pc.Bump? || pc.Notify?)
    ensures var out := MemStep(mem, pc, x); Adds(es, mem, es', out.mem) && RegisterAt(task, es', out.pc)
  {
    if pc.Bump? {
      es' := es + [Count];
    } else {
      es' := es + [Tell(pc.task)];
      Told(task, es[..|es| - 1], pc.task);
      assert es[..|es| - 1] + [Count, Tell(pc.task)] == es';
    }
  }

  /** One effect more, possible in `mem`. */
  lemma OneMore(es: seq<Effect>, mem: Mem, e: Effect)
    requires Can(mem, e)
    ensures Adds(es, mem, es + [e], Do(mem, e))
  {
    assert (es + [e])[..|es|] == es;
  }

  lemma RegisterEnds(task: Task, es: seq<Effect>)
    requires es == [Push(task), Empty] || (|es| == 4 && es == [Push(task), es[1], Zero, es[3]] && es[1].Pop? && es[3] == Push(es[1].task))
    ensures IsRegister(task, es)
  {
    if |es| == 2 {
      assert es[1..] == [Empty];
    } else {
      assert es[1..] == [Pop(es[1].task), Zero, Push(es[1].task)];
    }
  }

  lemma RegisterStarts(task: Task, es: seq<Effect>, mem: Mem, pc: Pc, x: Choice) returns (es': seq<Effect>)
    requires RegisterAt(task, es, pc) && pc.RegPush?
    ensures var out := MemStep(mem, pc, x); Adds(es, mem, es', out.mem) && RegisterAt(task, es', out.pc)
  {
    var e := if |mem.queue| >= CAPACITY then Full else Push(task);
    es' := [e];
    OneMore(es, mem, e);
    assert es + [e] == es';
  }

  lemma RegisterPops(task: Task, es: seq<Effect>, mem: Mem, pc: Pc, x: Choice) returns (es': seq<Effect>)
    requires RegisterAt(task, es, pc) && pc.WkPop?
    ensures var out := MemStep(mem, pc, x); Adds(es, mem, es', out.mem) && RegisterAt(task, es', out.pc)
  {
    var e := if mem.queue == [] then Empty else Pop(mem.queue[0]);
    es' := [Push(task), e];
    OneMore(es, mem, e);
    assert es + [e] == es';
    if e == Empty {
      RegisterEnds(task, es');
    }
  }

  lemma RegisterPushes(task: Task, es: seq<Effect>, mem: Mem, pc: Pc, x: Choice) returns (es': seq<Effect>)
    requires RegisterAt(task, es, pc) && pc.WkPush?
    ensures var out := MemStep(mem, pc, x); Adds(es, mem, es', out.mem) && RegisterAt(task, es', out.pc)
  {
    var e := if |mem.queue| >= CAPACITY then Full else Push(pc.task);
    es' := [Push(task), Pop(pc.task), Zero, e];
    OneMore(es, mem, e);
    assert es + [e] == es';
    if e != Full {
      RegisterEnds(task, es');
    }
  }

  lemma RegisterTries(task: Task, es: seq<Effect>, mem: Mem, pc: Pc, x: Choice) returns (es': seq<Effect>)
    requires RegisterAt(task, es, pc) && (pc.WkLoad? || pc.WkTry?)
    ensures var out := MemStep(mem, pc, x); Adds(es, mem, es', out.mem) && RegisterAt(task, es', out.pc)
  {
    if pc.WkTry? && pc.prev == 0 {
      es' := es;
    } else if pc.WkLoad? || mem.waiting != pc.prev || x.Spurious? {
      es' := if mem.waiting == 0 then es + [Zero] else es;
    } else {
      es' := es + [Unbank];
    }
  }

  lemma RegisterNext(task: Task, es: seq<Effect>, mem: Mem, pc: Pc, x: Choice) returns (es': seq<Effect>)
    requires RegisterAt(task, es, pc) && !pc.Idle?
    ensures var out := MemStep(mem, pc, x); Adds(es, mem, es', out.mem) && RegisterAt(task, es', out.pc)
  {
    if pc.Bump? || pc.Notify? {
      es' := RegisterTells(task, es, mem, pc, x);
    } else if pc.WkLoad? || pc.WkTry? {
      es' := RegisterTries(task, es, mem, pc, x);
    } else if pc.RegPush? {
      es' := RegisterStarts(task, es, mem, pc, x);
    } else if pc.WkPop? {
      es' := RegisterPops(task, es, mem, pc, x);
    } else {
      es' := RegisterPushes(task, es, mem, pc, x);
    }
  }

  lemma WakeNext(es: seq<Effect>, mem: Mem, pc: Pc, x: Choice) returns (es': seq<Effect>)
    requires WakeAt(es, pc) && !pc.Idle?
    ensures var out := MemStep(mem, pc, x); Adds(es, mem, es', out.mem) && WakeAt(es', out.pc)
  {
    match pc {
      case WakePop => es' := es + [if mem.queue == [] then Empty else Pop(mem.queue[0])];
      case WakeMiss => es' := es + [Bank];
      case Bump(_, _) => es' := es + [Count];
      case Notify(y, _) =>
        es' := es + [Tell(y)];
        EachOne(y);
    }
  }

  lemma EachOne(task: Task)
    ensures Each([task]) == [Pop(task), Count, Tell(task)]
  {
    assert [task][..0] == [];
    assert Each([]) == [];
  }

  lemma EachMore(tasks: seq<Task>, task: Task)
    ensures Each(tasks + [task]) == Each(tasks) + [Pop(task), Count, Tell(task)]
  {
    assert (tasks + [task])[..|tasks|] == tasks;
  }

  lemma WakeAllNext(es: seq<Effect>, mem: Mem, pc: Pc, x: Choice) returns (es': seq<Effect>)
    requires WakeAllAt(es, pc) && !pc.Idle?
    ensures var out := MemStep(mem, pc, x); Adds(es, mem, es', out.mem) && WakeAllAt(es', out.pc)
  {
    match pc {
      case AllPop =>
        es' := es + [if mem.queue == [] then Empty else Pop(mem.queue[0])];
      case Bump(y, _) =>
        es' := es + [Count];
        Counted(es, y);
      case Notify(y, _) =>
        es' := es + [Tell(y)];
        Notified(es, y);
    }
  }

  lemma Counted(es: seq<Effect>, task: Task)
    requires exists tasks :: es == Each(tasks) + [Pop(task)]
    ensures exists tasks :: es + [Count] == Each(tasks) + [Pop(task), Count]
  {
    var tasks :| es == Each(tasks) + [Pop(task)];
    assert es + [Count] == Each(tasks) + [Pop(task), Count];
  }

  lemma Notified(es: seq<Effect>, task: Task)
    requires exists tasks :: es == Each(tasks) + [Pop(task), Count]
    ensures exists tasks :: es + [Tell(task)] == Each(tasks)
  {
    var tasks :| es == Each(tasks) + [Pop(task), Count];
    EachMore(tasks, task);
    assert es + [Tell(task)] == Each(tasks + [task]);
  }

  lemma Next(op: Op, es: seq<Effect>, mem: Mem, pc: Pc, x: Choice) returns (es': seq<Effect>)
    requires At(op, es, pc) && !pc.Idle?
    ensures var out := MemStep(mem, pc, x); Adds(es, mem, es', out.mem) && At(op, es', out.pc)
  {
    match op {
      case Reg(task) => es' := RegisterNext(task, es, mem, pc, x);
      case One => es' := WakeNext(es, mem, pc, x);
      case All => es' := WakeAllNext(es, mem, pc, x);
    }
  }

  lemma Begins(op: Op, mem: Mem)
    ensures var out := MemStep(mem, Idle, ChoiceOf(op)); out.mem == mem && At(op, [], out.pc)
  {
    assert Each([]) == [];
  }

  // ---- in any run ----

  /** Thread `t` calls `op` in state `i` and is not done before state `j`. */
  ghost predicate Called(run: seq<State>, sched: Schedule, t: nat, i: nat, j: nat, op: Op) {
    && IsRun(run, sched) && i < j < |run|
    && (forall k :: i <= k <= j ==> t < |run[k].threads|)
    && run[i].threads[t].Idle? && sched[i] == (t, ChoiceOf(op))
    && (forall k :: i < k < j ==> !run[k].threads[t].Idle?)
  }

  lemma OneStep(run: seq<State>, sched: Schedule, t: nat, k: nat)
    requires IsRun(run, sched) && k < |sched| && t < |run[k].threads|
    ensures |run[k + 1].threads| == |run[k].threads|
    ensures sched[k].0 != t ==> run[k + 1].threads[t] == run[k].threads[t]
    ensures sched[k].0 == t ==>
      var out := MemStep(run[k].mem, run[k].threads[t], sched[k].1);
      run[k + 1].mem == out.mem && run[k + 1].threads[t] == out.pc
  {
    assert run[k + 1] == if sched[k].0 < |run[k].threads| then Step(run[k], sched[k].0, sched[k].1) else run[k];
  }

  lemma {:induction false} SoFar(run: seq<State>, sched: Schedule, t: nat, i: nat, j: nat, op: Op) returns (es: seq<Effect>)
    requires Called(run, sched, t, i, j, op)
    ensures Trail(run, sched, t, i, j, es) && At(op, es, run[j].threads[t])
    decreases j
  {
    OneStep(run, sched, t, j - 1);
    if j == i + 1 {
      es := [];
      Begins(op, run[i].mem);
    } else {
      es := SoFar(run, sched, t, i, j - 1, op);
      if sched[j - 1].0 == t {
        es := Next(op, es, run[j - 1].mem, run[j - 1].threads[t], sched[j - 1].1);
      }
    }
  }

  /**
   In any run, with other threads at work in between, a whole call does this and
   nothing else. `wake` takes one task off the front and notifies that task, or it
   finds the queue empty and banks one wake. `wake_all` takes tasks off the front
   and notifies each, until it finds the queue empty. `register` finds the queue
   full and notifies its task; or it puts the task at the end, and then the first
   task is notified against a banked wake, or goes to the end if none is banked.
   */
  lemma CallDoes(run: seq<State>, sched: Schedule, t: nat, i: nat, j: nat, op: Op) returns (es: seq<Effect>)
    requires Called(run, sched, t, i, j, op) && run[j].threads[t].Idle?
    ensures Trail(run, sched, t, i, j, es) && IsCall(op, es)
  {
    es := SoFar(run, sched, t, i, j, op);
  }

  // ---- alone ----

  predicate CanAll(mem: Mem, es: seq<Effect>)
    decreases |es|, 0
  {
    es == [] || (CanAll(mem, es[..|es| - 1]) && Can(DoAll(mem, es[..|es| - 1]), es[|es| - 1]))
  }

  function DoAll(mem: Mem, es: seq<Effect>): Mem
    requires CanAll(mem, es)
    decreases |es|, 1
  {
    if es == [] then mem else Do(DoAll(mem, es[..|es| - 1]), es[|es| - 1])
  }

  function LineOf(mem: Mem): Line { Line(mem.queue, mem.waiting, mem.notified) }

  /** `n` steps of thread `t`. */
  ghost function Going(s: State, t: nat, n: nat): (s': State)
    requires t < |s.threads|
    ensures |s'.threads| == |s.threads|
    decreases n
  {
    if n == 0 then s else Going(Step(s, t, Go), t, n - 1)
  }

  /** How many steps a thread has left if it runs alone. */
  function Rank(mem: Mem, pc: Pc): nat {
    match pc
    case Idle => 0
    case RegPush(_) => 8
    case WkPop => 7
    case WkLoad(_) => 6
    case WkTry(_, prev) => if prev == 0 || prev == mem.waiting then 4 else 5
    case WkPush(_) => 3
    case WakePop => 3
    case WakeMiss => 1
    case AllPop => 3 * |mem.queue| + 1
    case Bump(_, all) => if all then 3 * |mem.queue| + 3 else 2
    case Notify(_, all) => if all then 3 * |mem.queue| + 2 else 1
  }

  lemma Descends(mem: Mem, pc: Pc)
    requires !pc.Idle?
    ensures var out := MemStep(mem, pc, Go); Rank(out.mem, out.pc) < Rank(mem, pc)
  {
  }

  lemma More(mem0: Mem, es: seq<Effect>, mem: Mem, es': seq<Effect>, mem': Mem)
    requires CanAll(mem0, es) && DoAll(mem0, es) == mem && Adds(es, mem, es', mem')
    ensures CanAll(mem0, es') && DoAll(mem0, es') == mem'
  {
  }

  lemma {:induction false} RunsOn(mem0: Mem, op: Op, es: seq<Effect>, s: State, t: nat, n: nat) returns (es': seq<Effect>)
    requires t < |s.threads| && At(op, es, s.threads[t]) && CanAll(mem0, es) && DoAll(mem0, es) == s.mem
    requires Rank(s.mem, s.threads[t]) <= n
    ensures var s' := Going(s, t, n);
      s'.threads[t].Idle? && CanAll(mem0, es') && DoAll(mem0, es') == s'.mem && IsCall(op, es')
    decreases n
  {
    if s.threads[t].Idle? {
      es' := es;
      StaysIdle(s, t, n);
    } else {
      Descends(s.mem, s.threads[t]);
      es' := Next(op, es, s.mem, s.threads[t], Go);
      More(mem0, es, s.mem, es', Step(s, t, Go).mem);
      es' := RunsOn(mem0, op, es', Step(s, t, Go), t, n - 1);
    }
  }

  lemma {:induction false} StaysIdle(s: State, t: nat, n: nat)
    requires t < |s.threads| && s.threads[t].Idle?
    ensures Going(s, t, n).mem == s.mem && Going(s, t, n).threads[t].Idle?
    decreases n
  {
    if n > 0 {
      StaysIdle(Step(s, t, Go), t, n - 1);
    }
  }

  lemma {:induction false} FromFront(mem: Mem, es: seq<Effect>)
    requires es != [] && CanAll(mem, es)
    ensures Can(mem, es[0]) && CanAll(Do(mem, es[0]), es[1..]) && DoAll(mem, es) == DoAll(Do(mem, es[0]), es[1..])
  {
    var front := es[..|es| - 1];
    if front == [] {
      assert CanAll(Do(mem, es[0]), []) && DoAll(Do(mem, es[0]), []) == Do(mem, es[0]);
      assert es[1..] == [] && DoAll(mem, front) == mem;
    } else {
      FromFront(mem, front);
      assert es[1..][..|es[1..]| - 1] == front[1..];
    }
  }

  /** The first three effects. */
  lemma ThreeDone(mem: Mem, es: seq<Effect>)
    requires |es| >= 3 && CanAll(mem, es)
    ensures Can(mem, es[0]) && Can(Do(mem, es[0]), es[1]) && Can(Do(Do(mem, es[0]), es[1]), es[2])
    ensures var mem3 := Do(Do(Do(mem, es[0]), es[1]), es[2]);
      CanAll(mem3, es[3..]) && DoAll(mem, es) == DoAll(mem3, es[3..])
  {
    FromFront(mem, es);
    var mem1 := Do(mem, es[0]);
    FromFront(mem1, es[1..]);
    FromFront(Do(mem1, es[1]), es[1..][1..]);
    assert es[1..][1..] == es[2..] && es[2..][1..] == es[3..];
  }

  lemma TwoDone(mem: Mem, es: seq<Effect>)
    requires |es| >= 2 && CanAll(mem, es)
    ensures Can(mem, es[0]) && Can(Do(mem, es[0]), es[1])
    ensures CanAll(Do(Do(mem, es[0]), es[1]), es[2..]) && DoAll(mem, es) == DoAll(Do(Do(mem, es[0]), es[1]), es[2..])
  {
    FromFront(mem, es);
    FromFront(Do(mem, es[0]), es[1..]);
    assert es[1..][1..] == es[2..];
  }

  /** What a call leaves: the line that `Apply` says, and one more count for each task notified. */
  predicate Applied(mem: Mem, op: Op, mem': Mem) {
    LineOf(mem') == Apply(LineOf(mem), op) && mem'.fromMe + |mem.notified| == mem.fromMe + |mem'.notified|
  }

  lemma WakeApplies(mem: Mem, es: seq<Effect>)
    requires CanAll(mem, es) && IsWake(es)
    ensures Applied(mem, One, DoAll(mem, es))
  {
    TwoDone(mem, es);
    if |es| == 3 {
      EachOne(es[0].task);
      ThreeDone(mem, es);
    }
  }

  lemma RegisterApplies(mem: Mem, task: Task, es: seq<Effect>)
    requires Serial(LineOf(mem)) && CanAll(mem, es) && IsRegister(task, es)
    ensures Applied(mem, Reg(task), DoAll(mem, es))
  {
    TwoDone(mem, es);
    if es[0] == Full {
      ThreeDone(mem, es);
    } else {
      WkApplies(mem, task, es);
    }
  }

  lemma WkApplies(mem: Mem, task: Task, es: seq<Effect>)
    requires Serial(LineOf(mem)) && CanAll(mem, es) && |es| > 1 && es[0] == Push(task) && IsWk(es[1..])
    ensures Applied(mem, Reg(task), DoAll(mem, es))
  {
    TwoDone(mem, es);
    assert es[1] == es[1..][0];
    if es[1] != Empty {
      ThreeDone(mem, es);
      assert es[2] == es[1..][1];
      if es[2] == Zero {
        ZeroApplies(mem, task, es);
      } else {
        assert es[3..] == [Count, Tell(es[1].task)];
        TwoDone(Do(Do(Do(mem, es[0]), es[1]), es[2]), es[3..]);
      }
    }
  }

  lemma ZeroApplies(mem: Mem, task: Task, es: seq<Effect>)
    requires Serial(LineOf(mem)) && CanAll(mem, es) && |es| > 3 && es[0] == Push(task) && IsWk(es[1..]) && es[2] == Zero
    ensures Applied(mem, Reg(task), DoAll(mem, es))
  {
    ThreeDone(mem, es);
    var mem3 := Do(Do(Do(mem, es[0]), es[1]), es[2]);
    assert es[1] == es[1..][0] && es[3] == es[1..][2] && es[3] == es[3..][0];
    FromFront(mem3, es[3..]);
  }

  lemma FromBack(mem: Mem, es: seq<Effect>, e: Effect)
    ensures CanAll(mem, es + [e]) <==> CanAll(mem, es) && Can(DoAll(mem, es), e)
    ensures CanAll(mem, es + [e]) ==> DoAll(mem, es + [e]) == Do(DoAll(mem, es), e)
  {
    assert (es + [e])[..|es|] == es;
  }

  lemma LastThree(mem: Mem, es: seq<Effect>, task: Task)
    requires CanAll(mem, es + [Pop(task), Count, Tell(task)])
    ensures CanAll(mem, es) && Can(DoAll(mem, es), Pop(task))
    ensures DoAll(mem, es + [Pop(task), Count, Tell(task)]) == Do(Do(Do(DoAll(mem, es), Pop(task)), Count), Tell(task))
  {
    assert es + [Pop(task), Count, Tell(task)] == es + [Pop(task)] + [Count] + [Tell(task)];
    FromBack(mem, es + [Pop(task)] + [Count], Tell(task));
    FromBack(mem, es + [Pop(task)], Count);
    FromBack(mem, es, Pop(task));
  }

  /** Each task notified was at the front at its turn. */
  lemma {:induction false} EachApplies(mem: Mem, tasks: seq<Task>)
    requires CanAll(mem, Each(tasks))
    ensures var mem' := DoAll(mem, Each(tasks));
      && mem.queue == tasks + mem'.queue && mem'.notified == mem.notified + tasks && mem'.waiting == mem.waiting
      && mem'.fromMe == mem.fromMe + |tasks|
  {
    if tasks != [] {
      var front, task := tasks[..|tasks| - 1], tasks[|tasks| - 1];
      var es := Each(front);
      assert Each(tasks) == es + [Pop(task), Count, Tell(task)];
      LastThree(mem, es, task);
      EachApplies(mem, front);
    }
  }

  lemma WakeAllApplies(mem: Mem, es: seq<Effect>)
    requires CanAll(mem, es) && IsWakeAll(es)
    ensures Applied(mem, All, DoAll(mem, es))
  {
    var tasks :| es == Each(tasks) + [Empty];
    assert es[..|es| - 1] == Each(tasks);
    EachApplies(mem, tasks);
  }

  /** From a state in which wakes are banked only while no task waits, a whole call does what `Apply` says. */
  lemma CallApplies(mem: Mem, op: Op, es: seq<Effect>)
    requires Serial(LineOf(mem)) && CanAll(mem, es) && IsCall(op, es)
    ensures Applied(mem, op, DoAll(mem, es))
  {
    match op {
      case Reg(task) => RegisterApplies(mem, task, es);
      case One => WakeApplies(mem, es);
      case All => WakeAllApplies(mem, es);
    }
  }

  /**
   A call made alone ends, and leaves the queue as the same call on the queue run
   one call at a time does.
   */
  lemma SoloCall(s: State, t: nat, op: Op)
    requires t < |s.threads| && s.threads[t].Idle? && Serial(LineOf(s.mem))
    ensures var s' := Going(Step(s, t, ChoiceOf(op)), t, 3 * |s.mem.queue| + 8);
      s'.threads[t].Idle? && Applied(s.mem, op, s'.mem)
  {
    Begins(op, s.mem);
    var es := RunsOn(s.mem, op, [], Step(s, t, ChoiceOf(op)), t, 3 * |s.mem.queue| + 8);
    CallApplies(s.mem, op, es);
  }
}
