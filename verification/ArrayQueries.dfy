/** `len` and `is_full` of the bounded channel, and its state at rest. */
module ArrayQueries {
  import opened Common
  import opened Fifo
  import opened ArrayWords
  import opened ArrayProtocol
  import opened ArrayInvariant
  import opened ArraySteps
  import opened ArrayTheorems

  /** What `len` computes from the words it loaded. */
  function LenOf(c: Config, tail: nat, head: nat): int {
    var hix, tix := Index(c, head), Index(c, tail);
    if hix < tix then tix - hix
    else if hix > tix then c.cap - hix + tix
    else if Strip(c, tail) == head then 0
    else c.cap
  }

  /** What `is_full` computes from the words it loaded. */
  function FullOf(c: Config, tail: nat, head: nat): bool { head + c.lap == Strip(c, tail) }

  lemma {:induction false} AtShift(c: Config, p: nat, d: nat)
    requires d <= c.cap
    ensures At(c, p + d) == if At(c, p) + d < c.cap then At(c, p) + d else At(c, p) + d - c.cap
  {
    if p >= c.cap {
      AtShift(c, p - c.cap, d);
    }
  }

  /** The word of position `n`, with or without the mark. */
  ghost predicate IsTail(c: Config, word: nat, n: nat) { word == Stamp(c, n) || word == Stamp(c, n) + c.mark }

  lemma TailParts(c: Config, word: nat, n: nat)
    requires IsTail(c, word, n)
    ensures Index(c, word) == At(c, n) && Strip(c, word) == Stamp(c, n)
  {
    StampParts(c, n);
  }

  lemma SameTail(c: Config, word: nat, n: nat, n': nat)
    requires IsTail(c, word, n) && IsTail(c, word, n')
    ensures n == n'
  {
    TailParts(c, word, n);
    TailParts(c, word, n');
    WordOrder(c, n, n');
  }

  /** `len` is the distance of the two positions, for every lap, wrap and mark. */
  lemma LenIsExact(c: Config, h: nat, n: nat, tail: nat)
    requires h <= n <= h + c.cap && IsTail(c, tail, n)
    ensures LenOf(c, tail, Stamp(c, h)) == n - h
  {
    StampParts(c, h);
    TailParts(c, tail, n);
    AtShift(c, h, n - h);
    WordOrder(c, h, n);
  }

  /** `is_full` decides whether the two positions are `cap` apart. */
  lemma FullIsExact(c: Config, h: nat, n: nat, tail: nat)
    requires IsTail(c, tail, n)
    ensures FullOf(c, tail, Stamp(c, h)) <==> n == h + c.cap
  {
    TailParts(c, tail, n);
    NextLap(c, h);
    WordOrder(c, h + c.cap, n);
  }

  lemma SizeInState(c: Config, s: State)
    requires Inv(c, s)
    ensures |Abs(c, s).items| == |s.aux.log| - s.aux.taken <= c.cap
    ensures LenOf(c, s.mem.tail, s.mem.head) == |Abs(c, s).items|
    ensures FullOf(c, s.mem.tail, s.mem.head) <==> |Abs(c, s).items| == c.cap
  {
    LenIsExact(c, s.aux.taken, |s.aux.log|, s.mem.tail);
    FullIsExact(c, s.aux.taken, |s.aux.log|, s.mem.tail);
  }

  // ---- the positions only grow ----

  /** A step claims at most one position, for a sender or for a receiver. */
  lemma ClaimsOne(c: Config, s: State, t: nat, x: Choice)
    requires Inv(c, s) && t < |s.threads|
    ensures var aux, aux' := s.aux, Step(c, s, t, x).aux;
      || (|aux'.log| == |aux.log| && aux'.taken == aux.taken)
      || (|aux'.log| == |aux.log| + 1 && aux'.taken == aux.taken)
      || (|aux'.log| == |aux.log| && aux'.taken == aux.taken + 1)
  {
  }

  lemma {:induction false} PositionsGrow(c: Config, run: seq<State>, sched: Schedule, i: nat, j: nat)
    requires IsRun(c, run, sched) && i <= j < |run|
    ensures |run[i].aux.log| <= |run[j].aux.log| && run[i].aux.taken <= run[j].aux.taken
  {
    if i < j {
      PositionsGrow(c, run, sched, i, j - 1);
      Always(c, run, sched, j - 1);
      var x, s := sched[j - 1], run[j - 1];
      if x.0 < |s.threads| {
        ClaimsOne(c, s, x.0, x.1);
      }
    }
  }

  /**
   In any run: if the tail is the same when it is loaded (state `i`) and when it
   is checked (state `k`), then with a head loaded in between (state `j`) `len`
   gives the number of messages in state `j`.
   */
  lemma LenAtAnInstant(c: Config, run: seq<State>, sched: Schedule, i: nat, j: nat, k: nat)
    requires IsRun(c, run, sched) && i <= j <= k < |run| && run[i].mem.tail == run[k].mem.tail
    ensures LenOf(c, run[i].mem.tail, run[j].mem.head) == |Abs(c, run[j]).items| <= c.cap
  {
    PositionsGrow(c, run, sched, i, j);
    PositionsGrow(c, run, sched, j, k);
    Always(c, run, sched, i);
    Always(c, run, sched, j);
    Always(c, run, sched, k);
    SameTail(c, run[i].mem.tail, |run[i].aux.log|, |run[k].aux.log|);
    LenIsExact(c, run[j].aux.taken, |run[j].aux.log|, run[i].mem.tail);
    SizeInState(c, run[j]);
  }

  // ---- is_full ----

  ghost predicate IsFullIn(c: Config, s: State) { |Abs(c, s).items| == c.cap }

  /** While the channel stays full nobody claims anything. */
  lemma FullStepStays(c: Config, s: State, x: (nat, Choice))
    requires Inv(c, s) && IsFullIn(c, s) && IsFullIn(c, Turn(c, s, x))
    ensures Turn(c, s, x).aux.taken == s.aux.taken && |Turn(c, s, x).aux.log| == |s.aux.log|
  {
    StepRefines(c, s, x);
    SizeInState(c, s);
    if x.0 < |s.threads| {
      StepKeeps(c, s, x.0, x.1);
      SizeInState(c, Turn(c, s, x));
      ClaimsOne(c, s, x.0, x.1);
    }
  }

  lemma {:induction false} FullRunStays(c: Config, run: seq<State>, sched: Schedule, i: nat, j: nat)
    requires IsRun(c, run, sched) && i <= j < |run|
    requires forall k :: i <= k <= j ==> IsFullIn(c, run[k])
    ensures run[j].aux.taken == run[i].aux.taken && |run[j].aux.log| == |run[i].aux.log|
  {
    if i < j {
      FullRunStays(c, run, sched, i, j - 1);
      Always(c, run, sched, j - 1);
      assert IsFullIn(c, run[j - 1]);
      assert run[j] == Turn(c, run[j - 1], sched[j - 1]);
      FullStepStays(c, run[j - 1], sched[j - 1]);
    }
  }

  /**
   `is_full` loads the tail in state `i` and the head in state `j`. If it answers
   true the channel is full in state `j`; if it answers false there is a state in
   between in which it is not.
   */
  lemma IsFullAtAnInstant(c: Config, run: seq<State>, sched: Schedule, i: nat, j: nat)
    requires IsRun(c, run, sched) && i <= j < |run|
    ensures FullOf(c, run[i].mem.tail, run[j].mem.head) ==> IsFullIn(c, run[j])
    ensures !FullOf(c, run[i].mem.tail, run[j].mem.head) ==> exists k :: i <= k <= j && !IsFullIn(c, run[k])
  {
    Always(c, run, sched, i);
    Always(c, run, sched, j);
    PositionsGrow(c, run, sched, i, j);
    FullIsExact(c, run[j].aux.taken, |run[i].aux.log|, run[i].mem.tail);
    SizeInState(c, run[j]);
    if forall k :: i <= k <= j ==> IsFullIn(c, run[k]) {
      FullRunStays(c, run, sched, i, j);
    }
  }

  // ---- is_empty ----

  /** What `is_empty` computes: it masks the tail with `mark_bit`, not with its complement. */
  function EmptyOf(c: Config, tail: nat, head: nat): bool { (if Marked(c, tail) then c.mark else 0) == head }

  /**
   `is_empty` does not decide whether the channel is empty: on any words of a
   channel it answers true exactly if the channel is open and no message has ever
   been received.
   */
  lemma IsEmptyAnswers(c: Config, h: nat, n: nat, tail: nat)
    requires IsTail(c, tail, n)
    ensures EmptyOf(c, tail, Stamp(c, h)) <==> !Marked(c, tail) && h == 0
  {
    StampParts(c, h);
    StampParts(c, 0);
    WordOrder(c, 0, h);
    Unpack(c, 0, true, 0);
  }

  /**
   When it is wrong, in terms of what has happened: it answers true though there is
   a message exactly if the channel is open, something was sent and nothing
   received; it answers false though there is none exactly if all that was sent
   was received, and the channel is closed or something was received at all.
   */
  lemma IsEmptyWrong(c: Config, s: State)
    requires Reachable(c, s)
    ensures EmptyOf(c, s.mem.tail, s.mem.head) && Abs(c, s).items != []
       <==> !Abs(c, s).closed && s.aux.taken == 0 && |s.aux.log| > 0
    ensures !EmptyOf(c, s.mem.tail, s.mem.head) && Abs(c, s).items == []
       <==> s.aux.taken == |s.aux.log| && (Abs(c, s).closed || s.aux.taken > 0)
  {
    ReachableInv(c, s);
    SizeInState(c, s);
    IsEmptyAnswers(c, s.aux.taken, |s.aux.log|, s.mem.tail);
  }

  // ---- at rest ----

  ghost predicate Quiet(threads: seq<Pc>) { forall t :: 0 <= t < |threads| ==> threads[t].Idle? }

  /** With no call under way, the slot of each position between head and tail holds its message. */
  lemma QuietSlot(c: Config, s: State, p: nat)
    requires Inv(c, s) && Quiet(s.threads) && s.aux.taken <= p < |s.aux.log|
    ensures s.mem.slots[At(c, p)].msg == Some(s.aux.log[p])
  {
    assert CellOk(c, s.mem, s.aux, p);
    assert !Pending(s.aux.cells[p]);
  }

  /** With no call under way, a slot of no such position is empty. */
  lemma QuietEmptySlot(c: Config, s: State, i: nat)
    requires Inv(c, s) && Quiet(s.threads) && i < c.cap
    requires forall p :: s.aux.taken <= p < |s.aux.log| ==> At(c, p) != i
    ensures s.mem.slots[i].msg.None?
  {
    if i < |s.aux.log| {
      var p := LastAt(c, |s.aux.log|, i);
      assert CellOk(c, s.mem, s.aux, p);
      assert !Pending(s.aux.cells[p]);
    }
  }

  /** The last position of a slot before `n`. */
  lemma {:induction false} LastAt(c: Config, n: nat, i: nat) returns (p: nat)
    requires i < n && i < c.cap
    ensures p < n <= p + c.cap && At(c, p) == i
  {
    if n <= c.cap {
      p := i;
    } else if n - c.cap <= i {
      p := i;
    } else {
      p := LastAt(c, n - c.cap, i);
      p := p + c.cap;
    }
  }

  /** What `Drop` has left when it stands at position `n`: the messages from there on, each in its slot. */
  ghost predicate Left(c: Config, s: State, slots: seq<Slot>, n: nat) {
    && |slots| == c.cap && s.aux.taken <= n <= |s.aux.log| <= s.aux.taken + c.cap
    && (forall p :: n <= p < |s.aux.log| ==> slots[At(c, p)].msg == Some(s.aux.log[p]))
    && (forall i :: 0 <= i < c.cap && !InUse(c, n, |s.aux.log|, i) ==> slots[i].msg.None?)
  }

  ghost predicate InUse(c: Config, n: nat, end: nat, i: nat) { exists p :: n <= p < end && At(c, p) == i }

  /** The same, kept folded: `Unfold(0)` brings it into a proof. */
  ghost predicate Standing(c: Config, s: State, slots: seq<Slot>, n: nat) {
    forall k {:trigger Unfold(k)} :: Unfold(k) ==> Left(c, s, slots, n)
  }

  lemma NoneLeft(c: Config, s: State, slots: seq<Slot>)
    requires Standing(c, s, slots, |s.aux.log|)
    ensures |slots| == c.cap && forall i :: 0 <= i < |slots| ==> slots[i].msg.None?
  {
    assert Unfold(0);
    assert forall i :: 0 <= i < c.cap ==> !InUse(c, |s.aux.log|, |s.aux.log|, i);
  }

  lemma DropStart(c: Config, s: State)
    requires Inv(c, s) && Quiet(s.threads)
    ensures Left(c, s, s.mem.slots, s.aux.taken) && Index(c, s.mem.head) == At(c, s.aux.taken)
    ensures LenOf(c, s.mem.tail, s.mem.head) == |s.aux.log| - s.aux.taken
  {
    SizeInState(c, s);
    StampParts(c, s.aux.taken);
    forall p | s.aux.taken <= p < |s.aux.log| ensures s.mem.slots[At(c, p)].msg == Some(s.aux.log[p]) {
      QuietSlot(c, s, p);
    }
    forall i | 0 <= i < c.cap && !InUse(c, s.aux.taken, |s.aux.log|, i) ensures s.mem.slots[i].msg.None? {
      QuietEmptySlot(c, s, i);
    }
  }

  lemma DropNext(c: Config, s: State, slots: seq<Slot>, n: nat, slots': seq<Slot>)
    requires Left(c, s, slots, n) && n < |s.aux.log|
    requires slots' == slots[At(c, n) := Slot(slots[At(c, n)].stamp, None)]
    ensures Left(c, s, slots', n + 1)
  {
    forall p | n + 1 <= p < |s.aux.log| ensures slots'[At(c, p)].msg == Some(s.aux.log[p]) {
      if At(c, p) == At(c, n) {
        SameSlot(c, n, p);
      }
    }
    forall i | 0 <= i < c.cap && !InUse(c, n + 1, |s.aux.log|, i) ensures slots'[i].msg.None? {
      if InUse(c, n, |s.aux.log|, i) {
        var p :| n <= p < |s.aux.log| && At(c, p) == i;
        assert p == n;
      }
    }
  }
}
