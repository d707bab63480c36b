/** `len` of the unbounded channel. */
module ListLen {
  import opened Common
  import opened ListProtocol
  import opened ListInvariant
  import opened ListTheorems
  import opened ListCoherence

  /** The subtraction `tail -= LAP` may go below zero. */
  datatype Count = Count(n: int) | Underflow

  /** What `len` computes from the words it loaded. */
  function LenOf(tailWord: nat, headWord: nat): Count {
    // rotate the indices so that the head falls into the first block
    var lap := Lap(headWord);
    var tail := Index(tailWord) - lap * 32;
    var head := Index(headWord) - lap * 32;
    // fix up indices on a block end
    if head == 31 && tail < 32 then Underflow
    else
      var tail1 := if head == 31 then tail - 32 else tail;
      var head1 := if head == 31 then 0 else head;
      var tail2 := if tail1 == 31 then tail1 + 1 else tail1;
      Count(tail2 - head1 - tail2 / 32)
  }

  /** Both indices rest on the same block end. */
  predicate SameBlockEnd(tailWord: nat, headWord: nat) {
    Offset(headWord) == 31 && Index(headWord) == Index(tailWord)
  }

  /**
   `len` is the number of messages between the two indices, whatever the laps
   and marks, exactly when the two do not rest on the same block end.
   */
  lemma LenIsExact(tailWord: nat, headWord: nat)
    requires Index(headWord) <= Index(tailWord)
    ensures LenOf(tailWord, headWord) == Count(Pos(Index(tailWord)) - Pos(Index(headWord)))
       <==> !SameBlockEnd(tailWord, headWord)
    ensures SameBlockEnd(tailWord, headWord) ==> LenOf(tailWord, headWord) == Underflow
  {
    var k, j := Lap(headWord), Offset(headWord);
    var d := Index(tailWord) - 32 * k;
    assert Index(headWord) == 32 * k + j;
    LapQuotient(d, k);
  }

  lemma LapQuotient(d: nat, k: nat)
    ensures (32 * k + d) / 32 == k + d / 32
  {
  }

  lemma PosMonotone(i: nat, j: nat)
    requires i <= j
    ensures Pos(i) <= Pos(j)
  {
  }

  /** `len` on the words of one state. */
  lemma LenInState(s: State)
    requires Inv(s)
    ensures LenOf(s.mem.tail, s.mem.head) ==
              if SameBlockEnd(s.mem.tail, s.mem.head) then Underflow else Count(|Abs(s).items|)
  {
    LenIsExact(s.mem.tail, s.mem.head);
    PosMonotone(Index(s.mem.head), Index(s.mem.tail));
  }

  /**
   `len` is exact in every reachable state in which no thread is in the section
   that installs a block, and in every one in which none is in the section that
   leaves one; calls may be under way everywhere else.
   */
  lemma LenIsExactOutsideSections(s: State)
    requires Reachable(s)
    requires (forall t :: 0 <= t < |s.threads| ==> !InInstall(s.threads[t]))
          || (forall t :: 0 <= t < |s.threads| ==> !InAdvance(s.threads[t]))
    ensures LenOf(s.mem.tail, s.mem.head) == Count(|Abs(s).items|)
  {
    ReachableInv(s);
    BlockEndMeansSection(s);
    LenInState(s);
  }

  /** Where `len` goes below zero, one thread is in each of the two sections. */
  lemma UnderflowNeedsBoth(s: State)
    requires Reachable(s) && LenOf(s.mem.tail, s.mem.head) == Underflow
    ensures exists t :: 0 <= t < |s.threads| && InInstall(s.threads[t])
    ensures exists t :: 0 <= t < |s.threads| && InAdvance(s.threads[t])
  {
    ReachableInv(s);
    BlockEndMeansSection(s);
    LenInState(s);
  }

  lemma TailStepGrows(mem: Mem, pc: Pc, c: Choice)
    ensures mem.tail <= MemStep(mem, pc, c).mem.tail
  {
  }

  lemma {:induction false} TailGrows(run: seq<State>, sched: Schedule, i: nat, j: nat)
    requires IsRun(run, sched) && i <= j < |run|
    ensures run[i].mem.tail <= run[j].mem.tail
  {
    if i < j {
      TailGrows(run, sched, i, j - 1);
      var x, s := sched[j - 1], run[j - 1];
      if x.0 < |s.threads| {
        TailStepGrows(s.mem, s.threads[x.0], x.1);
      }
    }
  }

  /**
   In any run: if the tail is the same when it is loaded (state `i`) and when it
   is checked (state `k`), then with a head loaded in between (state `j`) `len`
   gives the number of messages in state `j`, unless both words rest on the same
   block end.
   */
  lemma LenAtAnInstant(run: seq<State>, sched: Schedule, i: nat, j: nat, k: nat)
    requires IsRun(run, sched) && i <= j <= k < |run| && run[i].mem.tail == run[k].mem.tail
    ensures var tail, head := run[i].mem.tail, run[j].mem.head;
      LenOf(tail, head) == if SameBlockEnd(tail, head) then Underflow else Count(|Abs(run[j]).items|)
  {
    TailBetween(run, sched, i, j, k);
    LenInRun(run, sched, j);
  }

  lemma TailBetween(run: seq<State>, sched: Schedule, i: nat, j: nat, k: nat)
    requires IsRun(run, sched) && i <= j <= k < |run| && run[i].mem.tail == run[k].mem.tail
    ensures run[j].mem.tail == run[i].mem.tail
  {
    TailGrows(run, sched, i, j);
    TailGrows(run, sched, j, k);
  }

  lemma LenInRun(run: seq<State>, sched: Schedule, j: nat)
    requires IsRun(run, sched) && j < |run|
    ensures LenOf(run[j].mem.tail, run[j].mem.head) ==
              if SameBlockEnd(run[j].mem.tail, run[j].mem.head) then Underflow else Count(|Abs(run[j]).items|)
  {
    Always(run, sched, j);
    LenInState(run[j]);
  }
}
