/** `Drop` of the unbounded channel: what is left when the loop stands at a given index. */
module ListDrop {
  import opened Common
  import opened Fifo
  import opened ListProtocol
  import opened ListInvariant
  import opened ListFrame
  import opened ListTheorems
  import opened ListReclaim
  import opened ListLen

  ghost function Nth(s: State, k: nat): Ptr { if k < |s.aux.chain| then At(s.aux.chain[k]) else Null }

  /** A block of the chain, in lap `k`, when the loop stands at index `i`. */
  ghost predicate BlockLeft(s: State, x: Block, k: nat, i: nat) {
    && (x.freed <==> k < i / 32)
    && (k < i / 32 || x.next == Nth(s, k + 1))
    && forall j :: 0 <= j < 31 ==> x.slots[j].msg == MsgLeft(s, 32 * k + j, 31 * k + j, i)
  }

  ghost function MsgLeft(s: State, at: nat, n: nat, i: nat): Option<Msg> {
    if i <= at < Index(s.mem.tail) && n < |s.aux.log| then Some(s.aux.log[n]) else None
  }

  /** Outside the chain every block is freed and blank. */
  ghost predicate Stands(s: State, x: Block, o: Owner, i: nat) {
    match o
    case Chained(k) => BlockLeft(s, x, k, i)
    case _ => x.freed && forall j :: 0 <= j < 31 ==> x.slots[j].msg.None?
  }

  ghost predicate Left(s: State, heap: seq<Block>, i: nat) {
    && |heap| == |s.mem.heap| == |s.aux.info|
    && forall b :: 0 <= b < |heap| ==> Stands(s, heap[b], s.aux.info[b].owner, i)
  }

  /** The chain and the tail when no section is held. */
  ghost predicate Tidy(s: State) {
    && ChainOk(s.aux) && |s.aux.info| == |s.mem.heap| && |s.aux.log| == Pos(Index(s.mem.tail))
    && (if s.aux.chain == [] then Index(s.mem.tail) == 0 else |s.aux.chain| == Lap(s.mem.tail) + 1)
  }

  lemma QuietTidy(s: State)
    requires Inv(s) && Quiet(s.threads)
    ensures Tidy(s) && Index(s.mem.head) <= Index(s.mem.tail) && s.mem.headBlock == Nth(s, Lap(s.mem.head))
    ensures Offset(s.mem.tail) != 31
  {
    QuietWords(s);
  }

  lemma StartChained(s: State, b: nat)
    requires Inv(s) && Quiet(s.threads) && b < |s.mem.heap| && s.aux.info[b].owner.Chained?
    ensures BlockLeft(s, s.mem.heap[b], s.aux.info[b].owner.k, Index(s.mem.head))
  {
    StartEnds(s, b);
    StartSlots(s, b);
  }

  lemma StartEnds(s: State, b: nat)
    requires Inv(s) && Quiet(s.threads) && b < |s.mem.heap| && s.aux.info[b].owner.Chained?
    ensures var k := s.aux.info[b].owner.k;
      && (s.mem.heap[b].freed <==> k < Index(s.mem.head) / 32)
      && (k < Index(s.mem.head) / 32 || s.mem.heap[b].next == Nth(s, k + 1))
  {
    QuietTidy(s);
    QuietBlock(s, b);
    QuietLink(s, b);
  }

  lemma StartSlots(s: State, b: nat)
    requires Inv(s) && Quiet(s.threads) && b < |s.mem.heap| && s.aux.info[b].owner.Chained?
    ensures var k := s.aux.info[b].owner.k;
      forall j :: 0 <= j < 31 ==> s.mem.heap[b].slots[j].msg == MsgLeft(s, 32 * k + j, 31 * k + j, Index(s.mem.head))
  {
    forall j | 0 <= j < 31
      ensures s.mem.heap[b].slots[j].msg ==
                MsgLeft(s, 32 * s.aux.info[b].owner.k + j, 31 * s.aux.info[b].owner.k + j, Index(s.mem.head))
    {
      QuietSlot(s, b, j);
    }
  }

  lemma StartOther(s: State, b: nat)
    requires Inv(s) && Quiet(s.threads) && b < |s.mem.heap| && !s.aux.info[b].owner.Chained?
    ensures s.mem.heap[b].freed && forall j :: 0 <= j < 31 ==> s.mem.heap[b].slots[j].msg.None?
  {
    QuietSpare(s, b);
    assert BlockOk(s.mem, s.aux, s.mem.heap[b], s.aux.info[b]);
  }

  /** What is left when the loop starts. */
  lemma Start(s: State)
    requires Inv(s) && Quiet(s.threads)
    ensures Tidy(s) && Left(s, s.mem.heap, Index(s.mem.head))
  {
    QuietTidy(s);
    forall b | 0 <= b < |s.mem.heap|
      ensures s.aux.info[b].owner.Chained? ==>
                BlockLeft(s, s.mem.heap[b], s.aux.info[b].owner.k, Index(s.mem.head))
      ensures !s.aux.info[b].owner.Chained? ==>
                s.mem.heap[b].freed && forall j :: 0 <= j < 31 ==> s.mem.heap[b].slots[j].msg.None?
    {
      if s.aux.info[b].owner.Chained? {
        StartChained(s, b);
      } else {
        StartOther(s, b);
      }
    }
  }

  lemma CurrentIsLive(s: State, heap: seq<Block>, i: nat)
    requires Tidy(s) && Left(s, heap, i) && i / 32 < |s.aux.chain|
    ensures var b := s.aux.chain[i / 32];
      b < |heap| && s.aux.info[b].owner == Chained(i / 32) && !heap[b].freed
      && BlockLeft(s, heap[b], i / 32, i)
  {
  }

  /** Before the tail there is a block, with a message in the slot. */
  lemma MessageThere(s: State, heap: seq<Block>, i: nat)
    requires Tidy(s) && Left(s, heap, i) && i < Index(s.mem.tail) && i % 32 < 31
    ensures i / 32 < |s.aux.chain| && s.aux.chain[i / 32] < |heap| && Pos(i) < |s.aux.log|
    ensures !heap[s.aux.chain[i / 32]].freed
    ensures heap[s.aux.chain[i / 32]].slots[i % 32].msg == Some(s.aux.log[Pos(i)])
    ensures Nth(s, (i + 1) / 32) == Nth(s, i / 32)
  {
    LapOf(i);
    PosBelow(i, Index(s.mem.tail));
    CurrentIsLive(s, heap, i);
  }

  /** At a block end before the tail there is a next block. */
  lemma NextThere(s: State, heap: seq<Block>, i: nat)
    requires Tidy(s) && Left(s, heap, i) && i < Index(s.mem.tail) && i % 32 == 31
    ensures i / 32 < |s.aux.chain| && s.aux.chain[i / 32] < |heap|
    ensures heap[s.aux.chain[i / 32]].next == Nth(s, (i + 1) / 32)
    ensures Pos(i + 1) == Pos(i)
  {
    LapOf(i);
    PosBelow(i, Index(s.mem.tail));
    CurrentIsLive(s, heap, i);
  }

  lemma LapOf(i: nat)
    ensures i == 32 * (i / 32) + i % 32 && Pos(i) == 31 * (i / 32) + i % 32
    ensures i % 32 == 31 ==> (i + 1) / 32 == i / 32 + 1
    ensures i % 32 < 31 ==> (i + 1) / 32 == i / 32 && Pos(i + 1) == Pos(i) + 1
    ensures i % 32 == 31 ==> Pos(i + 1) == Pos(i)
  {
  }

  lemma PosBelow(i: nat, j: nat)
    requires i < j
    ensures i / 32 <= j / 32
    ensures i % 32 < 31 ==> Pos(i) < Pos(j)
    ensures i % 32 == 31 ==> i / 32 < j / 32
  {
  }

  /** The heap after the message at index `i` is dropped. */
  function WithoutMsg(heap: seq<Block>, b: nat, j: nat): seq<Block>
    requires b < |heap| && j < 31
  {
    heap[b := Block(heap[b].next, heap[b].slots[j := heap[b].slots[j].(msg := None)], heap[b].freed)]
  }

  function Without(heap: seq<Block>, b: nat): seq<Block>
    requires b < |heap|
  {
    heap[b := heap[b].(freed := true)]
  }

  lemma DropMsgBlock(s: State, x: Block, k: nat, i: nat, y: Block)
    requires BlockLeft(s, x, k, i) && i % 32 < 31
    requires if k == i / 32 then y == Block(x.next, x.slots[i % 32 := x.slots[i % 32].(msg := None)], x.freed) else y == x
    ensures BlockLeft(s, y, k, i + 1)
  {
    LapOf(i);
    forall j | 0 <= j < 31 ensures y.slots[j].msg == MsgLeft(s, 32 * k + j, 31 * k + j, i + 1) {
      assert x.slots[j].msg == MsgLeft(s, 32 * k + j, 31 * k + j, i);
      SameIndex(k, j, i);
    }
  }

  lemma SameIndex(k: nat, j: nat, i: nat)
    requires j < 31
    ensures 32 * k + j == i <==> k == i / 32 && j == i % 32
  {
  }

  lemma DropMsg(s: State, heap: seq<Block>, i: nat)
    requires Tidy(s) && Left(s, heap, i) && i % 32 < 31 && i / 32 < |s.aux.chain|
    ensures s.aux.chain[i / 32] < |heap| && Left(s, WithoutMsg(heap, s.aux.chain[i / 32], i % 32), i + 1)
  {
    CurrentIsLive(s, heap, i);
    var c := s.aux.chain[i / 32];
    var heap' := WithoutMsg(heap, c, i % 32);
    forall b | 0 <= b < |heap| && s.aux.info[b].owner.Chained?
      ensures BlockLeft(s, heap'[b], s.aux.info[b].owner.k, i + 1)
    {
      DropMsgBlock(s, heap[b], s.aux.info[b].owner.k, i, heap'[b]);
    }
  }

  lemma DropBlockBlock(s: State, x: Block, k: nat, i: nat, y: Block)
    requires BlockLeft(s, x, k, i) && i % 32 == 31
    requires y == if k == i / 32 then x.(freed := true) else x
    ensures BlockLeft(s, y, k, i + 1)
  {
    LapOf(i);
    forall j | 0 <= j < 31 ensures y.slots[j].msg == MsgLeft(s, 32 * k + j, 31 * k + j, i + 1) {
      assert x.slots[j].msg == MsgLeft(s, 32 * k + j, 31 * k + j, i);
    }
  }

  lemma DropBlock(s: State, heap: seq<Block>, i: nat)
    requires Tidy(s) && Left(s, heap, i) && i % 32 == 31 && i / 32 < |s.aux.chain|
    ensures s.aux.chain[i / 32] < |heap| && Left(s, Without(heap, s.aux.chain[i / 32]), i + 1)
  {
    CurrentIsLive(s, heap, i);
    var heap' := Without(heap, s.aux.chain[i / 32]);
    forall b | 0 <= b < |heap| && s.aux.info[b].owner.Chained?
      ensures BlockLeft(s, heap'[b], s.aux.info[b].owner.k, i + 1)
    {
      DropBlockBlock(s, heap[b], s.aux.info[b].owner.k, i, heap'[b]);
    }
  }

  /** The messages with index from `start` up to `i`. */
  ghost predicate Covers(log: seq<Msg>, start: nat, i: nat, dropped: seq<Msg>) {
    Pos(start) <= Pos(i) <= |log| && dropped == log[Pos(start)..Pos(i)]
  }

  /** Where the loop is: at index `i`, on `block`, having dropped the messages from `start` on. */
  ghost predicate IsAt(s: State, heap: seq<Block>, start: nat, i: nat, block: Ptr, dropped: seq<Msg>) {
    Tidy(s) && Left(s, heap, i) && block == Nth(s, i / 32) && Covers(s.aux.log, start, i, dropped)
  }

  /** The same, kept folded. */
  ghost predicate Standing(s: State, heap: seq<Block>, start: nat, i: nat, block: Ptr, dropped: seq<Msg>) {
    forall k {:trigger Unfold(k)} :: Unfold(k) ==> IsAt(s, heap, start, i, block, dropped)
  }

  /** Nothing is left: every block is freed and no slot holds a message. */
  predicate AllGone(heap: seq<Block>) {
    forall b :: 0 <= b < |heap| ==> Gone(heap[b])
  }

  predicate Gone(x: Block) { x.freed && forall j :: 0 <= j < 31 ==> x.slots[j].msg.None? }

  /** When the loop has reached the tail only the block of the tail is left, without a message. */
  lemma LastBlock(s: State, heap: seq<Block>)
    requires Tidy(s) && Left(s, heap, Index(s.mem.tail))
    ensures s.aux.chain == [] ==> AllGone(heap)
    ensures s.aux.chain != [] ==>
      s.aux.chain[Lap(s.mem.tail)] < |heap| && !heap[s.aux.chain[Lap(s.mem.tail)]].freed
      && AllGone(Without(heap, s.aux.chain[Lap(s.mem.tail)]))
  {
    if s.aux.chain != [] {
      CurrentIsLive(s, heap, Index(s.mem.tail));
    }
    var heap' := if s.aux.chain == [] then heap else Without(heap, s.aux.chain[Lap(s.mem.tail)]);
    forall b | 0 <= b < |heap| ensures Gone(heap'[b]) {
      if s.aux.info[b].owner.Chained? {
        assert BlockLeft(s, heap[b], s.aux.info[b].owner.k, Index(s.mem.tail));
        GoneAtTail(s, heap[b], s.aux.info[b].owner.k);
      }
    }
  }

  lemma GoneAtTail(s: State, x: Block, k: nat)
    requires BlockLeft(s, x, k, Index(s.mem.tail)) && k <= Lap(s.mem.tail)
    ensures forall j :: 0 <= j < 31 ==> x.slots[j].msg.None?
    ensures x.freed || k == Lap(s.mem.tail)
  {
  }

  // ---- the turns of the loop ----

  lemma CoversMore(log: seq<Msg>, start: nat, i: nat, dropped: seq<Msg>, m: Msg)
    requires Covers(log, start, i, dropped) && i % 32 < 31 && Pos(i) < |log| && m == log[Pos(i)]
    ensures Covers(log, start, i + 1, dropped + [m])
  {
    LapOf(i);
  }

  lemma MsgTurn(s: State, heap: seq<Block>, start: nat, i: nat, block: Ptr, dropped: seq<Msg>)
    requires IsAt(s, heap, start, i, block, dropped) && i < Index(s.mem.tail) && i % 32 < 31
    ensures block.At? && block.id < |heap| && !heap[block.id].freed && heap[block.id].slots[i % 32].msg.Some?
    ensures IsAt(s, WithoutMsg(heap, block.id, i % 32), start, i + 1, block,
                 dropped + [heap[block.id].slots[i % 32].msg.value])
  {
    MessageThere(s, heap, i);
    DropMsg(s, heap, i);
    CoversMore(s.aux.log, start, i, dropped, heap[block.id].slots[i % 32].msg.value);
  }

  lemma BlockTurn(s: State, heap: seq<Block>, start: nat, i: nat, block: Ptr, dropped: seq<Msg>)
    requires IsAt(s, heap, start, i, block, dropped) && i < Index(s.mem.tail) && i % 32 == 31
    ensures block.At? && block.id < |heap| && !heap[block.id].freed
    ensures IsAt(s, Without(heap, block.id), start, i + 1, heap[block.id].next, dropped)
  {
    NextThere(s, heap, i);
    CurrentIsLive(s, heap, i);
    DropBlock(s, heap, i);
  }

  lemma LastTurn(s: State, heap: seq<Block>, start: nat, block: Ptr, dropped: seq<Msg>)
    requires Standing(s, heap, start, Index(s.mem.tail), block, dropped)
    ensures Pos(start) <= |s.aux.log| && dropped == s.aux.log[Pos(start)..]
    ensures |heap| == |s.mem.heap|
    ensures block.Null? ==> AllGone(heap)
    ensures block.At? ==> block.id < |heap| && !heap[block.id].freed && AllGone(Without(heap, block.id))
  {
    assert Unfold(0);
    LastBlock(s, heap);
  }
}
