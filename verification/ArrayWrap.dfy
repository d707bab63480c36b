/**
 The bounded channel on machine words: the same operations with words of
 `modulus` values, additions wrapping around as in the original. As long as no
 thread sleeps while the tail runs nearly a full wrap ahead of a word it saved,
 this machine goes step by step through the wrapped states of the unbounded one,
 so all that is proved of that one holds of this one.
 */
module ArrayWrap {
  import opened Common
  import opened ArrayWords
  import opened ArrayProtocol
  import opened ArrayInvariant
  import opened ArraySteps
  import opened ArrayTheorems
  import opened ArrayQueries

  /** Words are taken modulo `m`, a multiple of one lap, as any larger power of two is. */
  predicate IsModulus(c: Config, m: nat) { m > 0 && Rem(m, c.lap) == 0 }

  /** The words of the machine: 2^64, or any power of two that has room for a lap. */
  lemma PowersAreModuli(c: Config, m: nat)
    requires IsPower(c.mark) && IsPower(m) && c.lap <= m
    ensures IsModulus(c, m)
  {
    assert IsPower(c.lap);
    PowersDivide(c.lap, m);
  }

  lemma {:induction false} PowersDivide(p: nat, q: nat)
    requires IsPower(p) && IsPower(q) && p <= q
    ensures Rem(q, p) == 0
  {
    if p > 1 {
      PowersDivide(p / 2, q / 2);
      RemDoubled(q / 2, p / 2);
    } else {
      RemIs(q, 1);
    }
  }

  lemma {:induction false} RemDoubled(a: nat, d: nat)
    requires d > 0
    ensures Rem(2 * a, 2 * d) == 2 * Rem(a, d)
  {
    if a >= d {
      RemDoubled(a - d, d);
    }
  }

  // ---- the machine ----

  function Add(m: nat, a: nat, b: nat): nat
    requires m > 0
  {
    Rem(a + b, m)
  }

  function WrapNext(c: Config, m: nat, word: nat): nat
    requires m > 0
  {
    if Index(c, word) + 1 < c.cap then word + 1 else Add(m, Lap(c, word), c.lap)
  }

  function WrapSendLoop(c: Config, m: nat, mem: Mem, msg: Msg, tail: nat): Out
    requires m > 0
  {
    if Marked(c, tail) then Ok(mem, Idle)
    else
      var i := Index(c, tail);
      if i >= |mem.slots| then Crash(mem)
      else if mem.slots[i].stamp == tail then Ok(mem, SCas(msg, tail))
      else if Add(m, mem.slots[i].stamp, c.lap) == tail + 1 then Ok(mem, SFull(msg, tail))
      else Ok(mem, SLoad(msg))
  }

  /** Only the steps that compute with words differ from those of `MemStep`. */
  function WrapMemStep(c: Config, m: nat, mem: Mem, pc: Pc, x: Choice): Out
    requires m > 0
  {
    match pc
    case SLoop(msg, tail) => WrapSendLoop(c, m, mem, msg, tail)
    case SCas(msg, tail) =>
      if mem.tail != tail || x.Spurious? then Ok(mem, SLoop(msg, mem.tail))
      else Ok(SetTail(mem, WrapNext(c, m, tail)), SWrite(Index(c, tail), tail + 1, msg))
    case SFull(msg, tail) => Ok(mem, if Add(m, mem.head, c.lap) == tail then Idle else SLoad(msg))
    case RCas(head) =>
      if mem.head != head || x.Spurious? then Ok(mem, RLoop(mem.head))
      else Ok(SetHead(mem, WrapNext(c, m, head)), RRead(Index(c, head), Add(m, head, c.lap)))
    case _ => MemStep(c, mem, pc, x)
  }

  // ---- wrapping a state ----

  function WrapSlot(m: nat, s: Slot): Slot
    requires m > 0
  {
    Slot(Rem(s.stamp, m), s.msg)
  }

  function WrapMem(m: nat, mem: Mem): Mem
    requires m > 0
  {
    Mem(Rem(mem.head, m), Rem(mem.tail, m),
        seq(|mem.slots|, i requires 0 <= i < |mem.slots| => WrapSlot(m, mem.slots[i])))
  }

  function WrapPc(m: nat, pc: Pc): Pc
    requires m > 0
  {
    match pc
    case SLoop(x, tail) => SLoop(x, Rem(tail, m))
    case SCas(x, tail) => SCas(x, Rem(tail, m))
    case SFull(x, tail) => SFull(x, Rem(tail, m))
    case SWrite(i, stamp, x) => SWrite(i, Rem(stamp, m), x)
    case SStamp(i, stamp) => SStamp(i, Rem(stamp, m))
    case RLoop(head) => RLoop(Rem(head, m))
    case RCas(head) => RCas(Rem(head, m))
    case REmpty(head) => REmpty(Rem(head, m))
    case RRead(i, stamp) => RRead(i, Rem(stamp, m))
    case RStamp(i, stamp, x) => RStamp(i, Rem(stamp, m), x)
    case LLoadHead(tail) => LLoadHead(Rem(tail, m))
    case LCheck(tail, head) => LCheck(Rem(tail, m), Rem(head, m))
    case FLoadHead(tail) => FLoadHead(Rem(tail, m))
    case _ => pc
  }

  function WrapOut(m: nat, o: Out): Out
    requires m > 0
  {
    Out(WrapMem(m, o.mem), WrapPc(m, o.pc), o.fault)
  }

  // ---- words ----

  lemma {:induction false} WrapAdd(m: nat, a: nat, d: nat)
    requires m > 0
    ensures Add(m, Rem(a, m), d) == Rem(a + d, m)
  {
    if a >= m {
      WrapAdd(m, a - m, d);
    }
  }

  /** Words less than a wrap apart are equal exactly if they are equal after wrapping. */
  lemma {:induction false} WrapEq(m: nat, a: nat, b: nat)
    requires m > 0 && a < b + m && b < a + m
    ensures Rem(a, m) == Rem(b, m) <==> a == b
  {
    if a >= m && b >= m {
      WrapEq(m, a - m, b - m);
    }
  }

  lemma {:induction false} RemLess(w: nat, m: nat, d: nat)
    requires d > 0 && m <= w && Rem(m, d) == 0
    ensures Rem(w - m, d) == Rem(w, d)
  {
    if m >= d {
      RemLess(w - d, m - d, d);
    }
  }

  /** Wrapping by whole laps keeps the place in the lap. */
  lemma {:induction false} WrapLap(m: nat, d: nat, w: nat)
    requires m > 0 && d > 0 && Rem(m, d) == 0
    ensures Rem(Rem(w, m), d) == Rem(w, d)
  {
    if w >= m {
      WrapLap(m, d, w - m);
      RemLess(w, m, d);
    }
  }

  lemma TwoLess(w: nat, d: nat)
    requires d > 0 && w >= 2 * d
    ensures Rem(w, d) == Rem(w - 2 * d, d)
  {
    assert Rem(w, d) == Rem(w - d, d);
  }

  /** The index and the mark are those of the place in the lap. */
  lemma {:induction false} Place(c: Config, w: nat)
    ensures Index(c, w) == if Marked(c, w) then Rem(w, c.lap) - c.mark else Rem(w, c.lap)
  {
    if w >= c.lap {
      Place(c, w - c.lap);
      TwoLess(w, c.mark);
    } else if w >= c.mark {
      assert Rem(w - c.mark, c.mark) == w - c.mark;
    }
  }

  /** Taking a word apart gives the same before and after wrapping. */
  lemma WrapPlaces(c: Config, m: nat, w: nat)
    requires IsModulus(c, m)
    ensures Rem(Rem(w, m), c.lap) == Rem(w, c.lap)
    ensures Index(c, Rem(w, m)) == Index(c, w) && Marked(c, Rem(w, m)) == Marked(c, w)
  {
    WrapLap(m, c.lap, w);
    Place(c, w);
    Place(c, Rem(w, m));
  }

  /** Within a lap nothing wraps. */
  lemma {:induction false} WrapInLap(m: nat, lap: nat, w: nat, d: nat)
    requires m > 0 && lap > 0 && Rem(m, lap) == 0 && Rem(w, lap) + d < lap
    ensures Rem(w + d, m) == Rem(w, m) + d
  {
    if w >= m {
      RemLess(w, m, lap);
      WrapInLap(m, lap, w - m, d);
    } else {
      LastLap(m, lap, w, d);
    }
  }

  lemma {:induction false} LastLap(m: nat, lap: nat, w: nat, d: nat)
    requires lap > 0 && Rem(m, lap) == 0 && w < m && Rem(w, lap) + d < lap
    ensures w + d < m
  {
    if w >= lap {
      LastLap(m - lap, lap, w - lap, d);
    }
  }

  lemma WrapStrip(c: Config, m: nat, w: nat)
    requires IsModulus(c, m)
    ensures Strip(c, Rem(w, m)) == Rem(Strip(c, w), m)
  {
    WrapPlaces(c, m, w);
    if Marked(c, w) {
      BelowMark(c, w);
      WrapInLap(m, c.lap, w - c.mark, c.mark);
    }
  }

  lemma WrapSetMark(c: Config, m: nat, w: nat)
    requires IsModulus(c, m)
    ensures Rem(SetMark(c, w), m) == SetMark(c, Rem(w, m))
  {
    WrapPlaces(c, m, w);
    if !Marked(c, w) {
      WrapInLap(m, c.lap, w, c.mark);
    }
  }

  lemma WrapParts(c: Config, m: nat, w: nat)
    requires IsModulus(c, m)
    ensures Index(c, Rem(w, m)) == Index(c, w) && Marked(c, Rem(w, m)) == Marked(c, w)
    ensures Strip(c, Rem(w, m)) == Rem(Strip(c, w), m)
    ensures Rem(SetMark(c, w), m) == SetMark(c, Rem(w, m))
  {
    WrapPlaces(c, m, w);
    WrapStrip(c, m, w);
    WrapSetMark(c, m, w);
  }

  /** Clearing the mark stays in the lap. */
  lemma {:induction false} BelowMark(c: Config, w: nat)
    requires Marked(c, w)
    ensures w >= c.mark && Rem(w - c.mark, c.lap) == Rem(w, c.lap) - c.mark
  {
    if w >= c.lap {
      BelowMark(c, w - c.lap);
    }
  }

  lemma {:induction false} LapStart(c: Config, w: nat)
    ensures Rem(Lap(c, w), c.lap) == 0
  {
    if w >= c.lap {
      LapStart(c, w - c.lap);
    }
  }

  lemma WrapPlusOne(c: Config, m: nat, w: nat)
    requires IsModulus(c, m) && Index(c, w) < c.cap
    ensures Rem(w + 1, m) == Rem(w, m) + 1
  {
    Place(c, w);
    WrapInLap(m, c.lap, w, 1);
  }

  /** The start of a word's lap, before and after wrapping. */
  lemma WrapLapStart(c: Config, m: nat, w: nat)
    requires IsModulus(c, m)
    ensures Lap(c, Rem(w, m)) == Rem(Lap(c, w), m)
  {
    LapStart(c, w);
    WrapLap(m, c.lap, w);
    WrapFrom(m, c.lap, Lap(c, w), w);
  }

  lemma WrapFrom(m: nat, lap: nat, start: nat, w: nat)
    requires m > 0 && lap > 0 && Rem(m, lap) == 0 && Rem(start, lap) == 0 && start <= w < start + lap
    ensures Rem(w, m) == Rem(start, m) + (w - start)
  {
    WrapInLap(m, lap, start, w - start);
  }

  lemma WrapNextWord(c: Config, m: nat, w: nat)
    requires IsModulus(c, m) && Index(c, w) < c.cap
    ensures WrapNext(c, m, Rem(w, m)) == Rem(Next(c, w), m)
  {
    WrapPlaces(c, m, w);
    if Index(c, w) + 1 < c.cap {
      WrapPlusOne(c, m, w);
    } else {
      WrapLapStart(c, m, w);
      WrapAdd(m, Lap(c, w), c.lap);
    }
  }

  // ---- the saved words are recent ----

  /** The tail has not run nearly a full wrap ahead of the words that the thread saved. */
  predicate Recent(c: Config, m: nat, mem: Mem, pc: Pc) {
    match pc
    case SLoop(_, w) => mem.tail + 4 * c.lap <= w + m
    case SCas(_, w) => mem.tail + 4 * c.lap <= w + m
    case SFull(_, w) => mem.tail + 4 * c.lap <= w + m
    case RLoop(w) => mem.tail + 4 * c.lap <= w + m
    case RCas(w) => mem.tail + 4 * c.lap <= w + m
    case REmpty(w) => mem.tail + 4 * c.lap <= w + m
    case LCheck(w, _) => mem.tail + 4 * c.lap <= w + m
    case _ => true
  }

  /** All the words in the memory are within two laps of the tail. */
  ghost predicate Near(c: Config, mem: Mem, w: nat) {
    mem.tail <= w + 2 * c.lap && w <= mem.tail + c.lap
  }

  lemma MarkBelow(c: Config, mem: Mem, aux: Aux)
    requires Words(c, mem, aux)
    ensures Stamp(c, |aux.log|) <= mem.tail <= Stamp(c, |aux.log|) + c.mark
    ensures Near(c, mem, mem.head) && mem.head <= mem.tail
  {
    NextLap(c, aux.taken);
    WordOrder(c, |aux.log|, aux.taken + c.cap);
    WordOrder(c, aux.taken, |aux.log|);
  }

  lemma StampNear(c: Config, mem: Mem, aux: Aux, i: nat)
    requires Words(c, mem, aux) && Cells(c, mem, aux) && i < c.cap
    ensures Near(c, mem, mem.slots[i].stamp)
  {
    var n := |aux.log|;
    MarkBelow(c, mem, aux);
    if i < n {
      var p := LastAt(c, n, i);
      assert CellOk(c, mem, aux, p);
      NextLap(c, p);
      WordOrder(c, n, p + c.cap);
      WordOrder(c, p, n);
    } else {
      FreshStamp(c, n, i);
    }
  }

  lemma FreshStamp(c: Config, n: nat, i: nat)
    requires n <= i < c.cap
    ensures Stamp(c, n) == n && i < c.lap
  {
  }

  // ---- one step ----

  ghost predicate Wraps(c: Config, m: nat, mem: Mem, pc: Pc, x: Choice)
    requires m > 0
  {
    WrapMemStep(c, m, WrapMem(m, mem), WrapPc(m, pc), x) == WrapOut(m, MemStep(c, mem, pc, x))
  }

  /** A test for equality of two words gives the same after wrapping. */
  ghost predicate SameTest(m: nat, a: nat, b: nat)
    requires m > 0
  {
    Rem(a, m) == Rem(b, m) <==> a == b
  }

  lemma NearTests(c: Config, m: nat, mem: Mem, stamp: nat, w: nat)
    requires m > 0 && Near(c, mem, stamp) && w <= mem.tail && mem.tail + 4 * c.lap <= w + m
    ensures SameTest(m, stamp, w) && SameTest(m, stamp + c.lap, w + 1) && SameTest(m, stamp, w + 1)
  {
    WrapEq(m, stamp, w);
    WrapEq(m, stamp + c.lap, w + 1);
    WrapEq(m, stamp, w + 1);
  }

  lemma SendTests(c: Config, m: nat, mem: Mem, aux: Aux, w: nat)
    requires IsModulus(c, m) && Words(c, mem, aux) && Cells(c, mem, aux) && TailWord(c, mem, aux, w)
    requires !Marked(c, w) && mem.tail + 4 * c.lap <= w + m
    ensures var i := Index(c, w);
      i < |mem.slots| && SameTest(m, mem.slots[i].stamp, w) && SameTest(m, mem.slots[i].stamp + c.lap, w + 1)
      && Rem(w + 1, m) == Rem(w, m) + 1
  {
    UnmarkedWord(c, mem, aux, w);
    StampNear(c, mem, aux, Index(c, w));
    NearTests(c, m, mem, mem.slots[Index(c, w)].stamp, w);
    WrapPlusOne(c, m, w);
  }

  lemma SendLoopWraps(c: Config, m: nat, mem: Mem, pc: Pc, x: Choice)
    requires IsModulus(c, m) && pc.SLoop?
    requires !Marked(c, pc.tail) ==> var i := Index(c, pc.tail);
      && i < |mem.slots| && SameTest(m, mem.slots[i].stamp, pc.tail)
      && SameTest(m, mem.slots[i].stamp + c.lap, pc.tail + 1)
      && Rem(pc.tail + 1, m) == Rem(pc.tail, m) + 1
    ensures Wraps(c, m, mem, pc, x)
  {
    WrapPlaces(c, m, pc.tail);
    if !Marked(c, pc.tail) {
      WrapAdd(m, mem.slots[Index(c, pc.tail)].stamp, c.lap);
    }
  }

  lemma SendCasWraps(c: Config, m: nat, mem: Mem, pc: Pc, x: Choice)
    requires IsModulus(c, m) && pc.SCas? && Index(c, pc.tail) < c.cap
    requires SameTest(m, mem.tail, pc.tail)
    ensures Wraps(c, m, mem, pc, x)
  {
    WrapPlaces(c, m, pc.tail);
    WrapNextWord(c, m, pc.tail);
    WrapPlusOne(c, m, pc.tail);
  }

  lemma SendFullWraps(c: Config, m: nat, mem: Mem, pc: Pc, x: Choice)
    requires m > 0 && pc.SFull? && SameTest(m, mem.head + c.lap, pc.tail)
    ensures Wraps(c, m, mem, pc, x)
  {
    WrapAdd(m, mem.head, c.lap);
  }

  lemma SendWraps(c: Config, m: nat, mem: Mem, aux: Aux, t: nat, pc: Pc, x: Choice)
    requires IsModulus(c, m) && Words(c, mem, aux) && Cells(c, mem, aux) && ThreadOk(c, mem, aux, t, pc)
    requires (pc.SCas? || pc.SFull?) && Recent(c, m, mem, pc)
    ensures Wraps(c, m, mem, pc, x)
  {
    if pc.SCas? {
      WrapEq(m, mem.tail, pc.tail);
      SentIndex(c, mem, aux, pc.tail);
      SendCasWraps(c, m, mem, pc, x);
    } else {
      MarkBelow(c, mem, aux);
      WrapEq(m, mem.head + c.lap, pc.tail);
      SendFullWraps(c, m, mem, pc, x);
    }
  }

  lemma SendAgainWraps(c: Config, m: nat, mem: Mem, aux: Aux, t: nat, pc: Pc, x: Choice)
    requires IsModulus(c, m) && Words(c, mem, aux) && Cells(c, mem, aux) && ThreadOk(c, mem, aux, t, pc)
    requires pc.SLoop? && Recent(c, m, mem, pc)
    ensures Wraps(c, m, mem, pc, x)
  {
    if !Marked(c, pc.tail) {
      SendTests(c, m, mem, aux, pc.tail);
    }
    SendLoopWraps(c, m, mem, pc, x);
  }

  lemma SentIndex(c: Config, mem: Mem, aux: Aux, w: nat)
    requires SentWord(c, mem, aux, w)
    ensures Index(c, w) < c.cap
  {
    var p :| 0 <= p <= |aux.log| && w == Stamp(c, p);
    StampParts(c, p);
  }

  lemma RecvIndex(c: Config, mem: Mem, aux: Aux, w: nat)
    requires HeadWord(c, mem, aux, w)
    ensures Index(c, w) < c.cap
  {
    var p :| 0 <= p <= aux.taken && w == Stamp(c, p);
    StampParts(c, p);
  }

  lemma RecvTests(c: Config, m: nat, mem: Mem, aux: Aux, w: nat)
    requires IsModulus(c, m) && Words(c, mem, aux) && Cells(c, mem, aux) && HeadWord(c, mem, aux, w)
    requires mem.tail + 4 * c.lap <= w + m
    ensures var i := Index(c, w);
      i < |mem.slots| && SameTest(m, mem.slots[i].stamp, w + 1) && SameTest(m, mem.slots[i].stamp, w)
      && Rem(w + 1, m) == Rem(w, m) + 1
  {
    RecvIndex(c, mem, aux, w);
    MarkBelow(c, mem, aux);
    StampNear(c, mem, aux, Index(c, w));
    NearTests(c, m, mem, mem.slots[Index(c, w)].stamp, w);
    WrapPlusOne(c, m, w);
  }

  lemma RecvLoopWraps(c: Config, m: nat, mem: Mem, pc: Pc, x: Choice)
    requires IsModulus(c, m) && pc.RLoop?
    requires var i := Index(c, pc.head);
      && i < |mem.slots| && SameTest(m, mem.slots[i].stamp, pc.head + 1) && SameTest(m, mem.slots[i].stamp, pc.head)
      && Rem(pc.head + 1, m) == Rem(pc.head, m) + 1
    ensures Wraps(c, m, mem, pc, x)
  {
    WrapPlaces(c, m, pc.head);
  }

  lemma RecvCasWraps(c: Config, m: nat, mem: Mem, pc: Pc, x: Choice)
    requires IsModulus(c, m) && pc.RCas? && Index(c, pc.head) < c.cap
    requires SameTest(m, mem.head, pc.head)
    ensures Wraps(c, m, mem, pc, x)
  {
    WrapPlaces(c, m, pc.head);
    WrapAdd(m, pc.head, c.lap);
    WrapNextWord(c, m, pc.head);
  }

  lemma RecvEmptyWraps(c: Config, m: nat, mem: Mem, pc: Pc, x: Choice)
    requires IsModulus(c, m) && pc.REmpty?
    requires SameTest(m, Strip(c, mem.tail), pc.head)
    ensures Wraps(c, m, mem, pc, x)
  {
    WrapParts(c, m, mem.tail);
  }

  lemma StripNear(c: Config, mem: Mem, aux: Aux)
    requires Words(c, mem, aux)
    ensures mem.head <= Strip(c, mem.tail) <= mem.tail
  {
    TailParts(c, mem.tail, |aux.log|);
    WordOrder(c, aux.taken, |aux.log|);
  }

  lemma RecvWraps(c: Config, m: nat, mem: Mem, aux: Aux, t: nat, pc: Pc, x: Choice)
    requires IsModulus(c, m) && Words(c, mem, aux) && Cells(c, mem, aux) && ThreadOk(c, mem, aux, t, pc)
    requires (pc.RLoop? || pc.RCas? || pc.REmpty?) && Recent(c, m, mem, pc)
    ensures Wraps(c, m, mem, pc, x)
  {
    MarkBelow(c, mem, aux);
    match pc
    case RLoop(w) =>
      RecvTests(c, m, mem, aux, w);
      RecvLoopWraps(c, m, mem, pc, x);
    case RCas(w) =>
      WrapEq(m, mem.head, w);
      RecvIndex(c, mem, aux, w);
      RecvCasWraps(c, m, mem, pc, x);
    case REmpty(w) =>
      StripNear(c, mem, aux);
      WrapEq(m, Strip(c, mem.tail), w);
      RecvEmptyWraps(c, m, mem, pc, x);
  }

  lemma WrapStore(m: nat, mem: Mem, i: nat, s: Slot)
    requires m > 0 && i < |mem.slots|
    ensures WrapMem(m, SetSlot(mem, i, s)) == SetSlot(WrapMem(m, mem), i, WrapSlot(m, s))
  {
  }

  lemma OwnerWraps(c: Config, m: nat, mem: Mem, aux: Aux, t: nat, pc: Pc, x: Choice)
    requires m > 0 && Holding(pc)
    ensures Wraps(c, m, mem, pc, x)
  {
    if pc.i < |mem.slots| {
      var s := mem.slots[pc.i];
      WrapStore(m, mem, pc.i, if pc.SWrite? then Slot(s.stamp, Some(pc.m)) else Slot(s.stamp, None));
      WrapStore(m, mem, pc.i, Slot(pc.stamp, s.msg));
    }
  }

  lemma OtherWraps(c: Config, m: nat, mem: Mem, pc: Pc, x: Choice)
    requires IsModulus(c, m) && m > 0
    requires pc.SLoad? || pc.RLoad? || !(Sending(pc) || Receiving(pc))
    requires pc.LCheck? ==> pc.tail <= mem.tail && Recent(c, m, mem, pc)
    ensures Wraps(c, m, mem, pc, x)
  {
    WrapParts(c, m, mem.tail);
    if pc.LCheck? {
      WrapEq(m, mem.tail, pc.tail);
    }
  }

  /** Every step, taken on wrapped words, gives the wrapped outcome. */
  lemma StepWraps(c: Config, m: nat, s: State, t: nat, x: Choice)
    requires IsModulus(c, m) && Inv(c, s) && t < |s.threads| && Recent(c, m, s.mem, s.threads[t])
    ensures Wraps(c, m, s.mem, s.threads[t], x)
  {
    var pc := s.threads[t];
    assert ThreadOk(c, s.mem, s.aux, t, pc);
    if pc.SLoop? {
      SendAgainWraps(c, m, s.mem, s.aux, t, pc, x);
    } else if pc.SCas? || pc.SFull? {
      SendWraps(c, m, s.mem, s.aux, t, pc, x);
    } else if pc.RLoop? || pc.RCas? || pc.REmpty? {
      RecvWraps(c, m, s.mem, s.aux, t, pc, x);
    } else if Holding(pc) {
      OwnerWraps(c, m, s.mem, s.aux, t, pc, x);
    } else {
      OtherWraps(c, m, s.mem, pc, x);
    }
  }

  // ---- runs ----

  datatype Machine = Machine(mem: Mem, threads: seq<Pc>, fault: bool)

  function WrapPcs(m: nat, threads: seq<Pc>): (r: seq<Pc>)
    requires m > 0
  {
    seq(|threads|, t requires 0 <= t < |threads| => WrapPc(m, threads[t]))
  }

  /** The machine state that state `s` becomes on words of `m` values. */
  function Wrapped(m: nat, s: State): Machine
    requires m > 0
  {
    Machine(WrapMem(m, s.mem), WrapPcs(m, s.threads), s.fault)
  }

  function MachineTurn(c: Config, m: nat, s: Machine, x: (nat, Choice)): Machine
    requires m > 0
  {
    if x.0 < |s.threads| then
      var out := WrapMemStep(c, m, s.mem, s.threads[x.0], x.1);
      Machine(out.mem, s.threads[x.0 := out.pc], s.fault || out.fault)
    else s
  }

  /** No thread takes a step on words it saved nearly a full wrap of the tail ago. */
  ghost predicate NoSleeper(c: Config, m: nat, run: seq<State>, sched: Schedule)
    requires |run| == |sched| + 1
  {
    forall i {:trigger sched[i]} :: 0 <= i < |sched| && sched[i].0 < |run[i].threads| ==>
      Recent(c, m, run[i].mem, run[i].threads[sched[i].0])
  }

  lemma TurnWraps(c: Config, m: nat, s: State, x: (nat, Choice))
    requires IsModulus(c, m) && Inv(c, s)
    requires x.0 < |s.threads| ==> Recent(c, m, s.mem, s.threads[x.0])
    ensures MachineTurn(c, m, Wrapped(m, s), x) == Wrapped(m, Turn(c, s, x))
  {
    if x.0 < |s.threads| {
      StepWraps(c, m, s, x.0, x.1);
      var out := MemStep(c, s.mem, s.threads[x.0], x.1);
      assert WrapPcs(m, s.threads)[x.0 := WrapPc(m, out.pc)] == WrapPcs(m, s.threads[x.0 := out.pc]);
    }
  }

  /** The states the machine goes through under a schedule, from a new channel. */
  ghost predicate IsMachineRun(c: Config, m: nat, states: seq<Machine>, sched: Schedule)
    requires m > 0
  {
    |states| == |sched| + 1
    && forall i {:trigger sched[i]} :: 0 <= i < |sched| ==> states[i + 1] == MachineTurn(c, m, states[i], sched[i])
  }

  /**
   The channel on words that wrap around goes through exactly the wrapped states
   of the run on unbounded words, unless a thread sleeps through nearly a full
   wrap. So it neither faults nor departs from the bounded FIFO queue.
   */
  lemma {:induction false} WrapSimulates(
      c: Config, m: nat, run: seq<State>, sched: Schedule, states: seq<Machine>, i: nat)
    requires IsModulus(c, m) && IsRun(c, run, sched) && NoSleeper(c, m, run, sched)
    requires IsMachineRun(c, m, states, sched) && states[0] == Wrapped(m, run[0]) && i < |run|
    ensures states[i] == Wrapped(m, run[i]) && !states[i].fault
  {
    Always(c, run, sched, i);
    if i > 0 {
      WrapSimulates(c, m, run, sched, states, i - 1);
      Always(c, run, sched, i - 1);
      var x := sched[i - 1];
      TurnWraps(c, m, run[i - 1], x);
    }
  }

  /** `len` and `is_full` give the same answers on wrapped words. */
  lemma LenWraps(c: Config, m: nat, s: State)
    requires IsModulus(c, m) && Inv(c, s) && 4 * c.lap <= m
    ensures LenOf(c, Rem(s.mem.tail, m), Rem(s.mem.head, m)) == |Abs(c, s).items|
  {
    SizeInState(c, s);
    WrapParts(c, m, s.mem.tail);
    WrapPlaces(c, m, s.mem.head);
    EmptyTest(c, m, s);
  }

  lemma EmptyTest(c: Config, m: nat, s: State)
    requires IsModulus(c, m) && Inv(c, s) && 4 * c.lap <= m
    ensures SameTest(m, Strip(c, s.mem.tail), s.mem.head)
    ensures SameTest(m, s.mem.head + c.lap, Strip(c, s.mem.tail))
  {
    StripNear(c, s.mem, s.aux);
    MarkBelow(c, s.mem, s.aux);
    WrapEq(m, Strip(c, s.mem.tail), s.mem.head);
    WrapEq(m, s.mem.head + c.lap, Strip(c, s.mem.tail));
  }

  lemma FullWraps(c: Config, m: nat, s: State)
    requires IsModulus(c, m) && Inv(c, s) && 4 * c.lap <= m
    ensures Add(m, Rem(s.mem.head, m), c.lap) == Strip(c, Rem(s.mem.tail, m)) <==> |Abs(c, s).items| == c.cap
  {
    SizeInState(c, s);
    WrapParts(c, m, s.mem.tail);
    WrapAdd(m, s.mem.head, c.lap);
    EmptyTest(c, m, s);
  }
}
