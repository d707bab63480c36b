/** Every step of `read`, `Block::destroy`, `len` and `shutdown` keeps the invariant. */
module ListReadSteps {
  import opened Common
  import opened ListProtocol
  import opened ListInvariant
  import opened ListFrame

  lemma WaitWriteLocal(mem: Mem, aux: Aux, t: nat, pc: Pc, c: Choice)
    requires Blocks(mem, aux) && RecvOk(mem, aux, t, pc) && pc.RWaitWrite?
    ensures Local(mem, aux, t, pc, c)
  {
    CellFact(mem, aux, pc.b, pc.j);
  }

  lemma WaitWrite(s: State, t: nat, c: Choice)
    requires Inv(s) && t < |s.threads| && s.threads[t].RWaitWrite?
    ensures Inv(Step(s, t, c))
  {
    ThreadFacts(s, t);
    WaitWriteLocal(s.mem, s.aux, t, s.threads[t], c);
    LocalStep(s, t, c);
  }

  // ---- moving the message out ----

  function MovedBlock(x: Block, j: nat): Block
    requires j < 31
  {
    Block(x.next, x.slots[j := x.slots[j].(msg := None)], x.freed)
  }

  ghost function MovedInfo(i: Info, t: nat, j: nat): Info
    requires j < 31
  {
    Info(i.owner, i.link, if j == 30 then Active(t, 0) else i.token,
         i.cells[j := Cell(i.cells[j].writer, if j == 30 then Done else Half(t))])
  }

  ghost function MovedAux(aux: Aux, t: nat, b: nat, j: nat, m: Msg): Aux
    requires b < |aux.info| && j < 31
  {
    SetInfo(aux, b, MovedInfo(aux.info[b], t, j)).(got := aux.got[Number(aux, b, j) := m])
  }

  function MovedPc(b: nat, j: nat, m: Msg): Pc { if j == 30 then DCheck(b, 0, m) else RMark(b, j, m) }

  /** The message in the slot is the one the receiver claimed. */
  lemma ReadFacts(mem: Mem, aux: Aux, t: nat, b: nat, j: nat)
    requires Blocks(mem, aux) && RecvOk(mem, aux, t, RReadMsg(b, j))
    ensures Live(mem, b)
    ensures mem.heap[b].slots[j].msg == Some(aux.want[t])
    ensures Number(aux, b, j) < |aux.log| && aux.log[Number(aux, b, j)] == aux.want[t]
  {
    CellFact(mem, aux, b, j);
    if j < 31 {
      LiveWhileRead(mem, aux, b, j);
    }
  }

  lemma MovedOther(mem: Mem, aux: Aux, mem': Mem, aux': Aux, x: Block, i: Info, k: nat, j: nat)
    requires BlockOk(mem, aux, x, i) && (i.owner.Chained? ==> i.owner.k != k) && j < 31
    requires Index(mem'.head) == Index(mem.head) && Index(mem'.tail) == Index(mem.tail)
    requires aux'.chain == aux.chain && aux.log == aux'.log
    requires forall n :: n != 31 * k + j ==> (n in aux'.got <==> n in aux.got)
    ensures BlockOk(mem', aux', x, i)
  {
  }

  lemma MovedThis(mem: Mem, aux: Aux, mem': Mem, aux': Aux, x: Block, i: Info, j: nat, t: nat)
    requires BlockOk(mem, aux, x, i) && i.owner.Chained? && j < 31
    requires i.cells[j].reader.By? && i.cells[j].writer.Done?
    requires Index(mem'.head) == Index(mem.head) && Index(mem'.tail) == Index(mem.tail)
    requires aux'.chain == aux.chain && aux.log == aux'.log
    requires forall n :: n != 31 * i.owner.k + j ==> (n in aux'.got <==> n in aux.got)
    requires 31 * i.owner.k + j in aux'.got
    ensures BlockOk(mem', aux', MovedBlock(x, j), MovedInfo(i, t, j))
  {
    var k := i.owner.k;
    var x', i' := MovedBlock(x, j), MovedInfo(i, t, j);
    MovedToken(i, x.freed, t, j);
    forall y | 0 <= y < 31
      ensures CellOk(x'.slots[y], i'.cells[y], i'.token, y, 32 * k + y, 31 * k + y, Index(mem'.head), Index(mem'.tail), aux')
    {
      MovedCell(x, i, y, j, t, 32 * k + y, 31 * k + y, Index(mem.head), Index(mem.tail), aux, aux');
    }
  }

  lemma MovedToken(i: Info, freed: bool, t: nat, j: nat)
    requires TokenOk(i, freed) && j < 31 && i.cells[j].reader.By?
    ensures TokenOk(MovedInfo(i, t, j), freed)
  {
  }

  lemma MovedCell(x: Block, i: Info, y: nat, j: nat, t: nat, at: nat, n: nat, head: nat, tail: nat, aux: Aux, aux': Aux)
    requires y < 31 && j < 31 && CellOk(x.slots[y], i.cells[y], i.token, y, at, n, head, tail, aux)
    requires TokenOk(i, x.freed) && i.cells[j].reader.By? && i.cells[j].writer.Done?
    requires aux'.log == aux.log && (if y == j then n in aux'.got else (n in aux'.got <==> n in aux.got))
    ensures CellOk(MovedBlock(x, j).slots[y], MovedInfo(i, t, j).cells[y], MovedInfo(i, t, j).token, y, at, n, head, tail, aux')
  {
  }

  lemma OtherLap(aux: Aux, b: nat, x: nat)
    requires ChainOk(aux) && b < |aux.info| && aux.info[b].owner.Chained?
    requires x < |aux.info| && x != b && aux.info[x].owner.Chained?
    ensures aux.info[x].owner.k != aux.info[b].owner.k
  {
  }

  lemma MovedBlocks(mem: Mem, aux: Aux, t: nat, b: nat, j: nat)
    requires ChainOk(aux) && Blocks(mem, aux) && RecvOk(mem, aux, t, RReadMsg(b, j))
    ensures Blocks(SetBlock(mem, b, MovedBlock(mem.heap[b], j)), MovedAux(aux, t, b, j, aux.want[t]))
  {
    var mem', aux' := SetBlock(mem, b, MovedBlock(mem.heap[b], j)), MovedAux(aux, t, b, j, aux.want[t]);
    forall x | 0 <= x < |mem.heap| && x != b ensures BlockOk(mem', aux', mem'.heap[x], aux'.info[x]) {
      if aux.info[x].owner.Chained? {
        OtherLap(aux, b, x);
      }
      MovedOther(mem, aux, mem', aux', mem.heap[x], aux.info[x], aux.info[b].owner.k, j);
    }
    MovedThis(mem, aux, mem', aux', mem.heap[b], aux.info[b], j, t);
  }

  lemma MovedShape(mem: Mem, aux: Aux, t: nat, b: nat, j: nat)
    requires Shape(mem, aux) && ChainOk(aux) && RecvOk(mem, aux, t, RReadMsg(b, j))
    ensures var mem', aux' := SetBlock(mem, b, MovedBlock(mem.heap[b], j)), MovedAux(aux, t, b, j, aux.want[t]);
      Shape(mem', aux') && ChainOk(aux')
  {
  }

  lemma MovedThread(mem: Mem, aux: Aux, t: nat, b: nat, j: nat)
    requires Blocks(mem, aux) && RecvOk(mem, aux, t, RReadMsg(b, j))
    ensures var mem', aux' := SetBlock(mem, b, MovedBlock(mem.heap[b], j)), MovedAux(aux, t, b, j, aux.want[t]);
      Guar(mem, aux, t, mem', aux') && ThreadOk(mem', aux', t, MovedPc(b, j, aux.want[t]))
  {
    CellFact(mem, aux, b, j);
  }

  lemma MovedHeld(aux: Aux, threads: seq<Pc>, t: nat, b: nat, j: nat, m: Msg)
    requires Held(aux, threads) && t < |threads| && threads[t] == RReadMsg(b, j) && b < |aux.info| && j < 31
    ensures Held(MovedAux(aux, t, b, j, m), threads[t := MovedPc(b, j, m)])
  {
    var aux', pc := MovedAux(aux, t, b, j, m), MovedPc(b, j, m);
    assert HeldBlock(threads, b, aux.info[b]);
    forall x | 0 <= x < 31 ensures CellDuty(t, pc, b, x, aux.info[b].cells[x], aux'.info[b].cells[x]) {
      assert HeldCell(threads, b, x, aux.info[b].cells[x]);
    }
    BlockHeld'(aux, threads, t, aux', pc, b);
  }

  lemma MovedOut(s: State, t: nat, c: Choice, b: nat, j: nat, m: Msg)
    requires t < |s.threads| && s.threads[t] == RReadMsg(b, j) && !s.fault
    requires Live(s.mem, b) && b < |s.aux.info| && j < 31 && s.mem.heap[b].slots[j].msg == Some(m)
    ensures Step(s, t, c) == State(SetBlock(s.mem, b, MovedBlock(s.mem.heap[b], j)),
                                   s.threads[t := MovedPc(b, j, m)], false, MovedAux(s.aux, t, b, j, m))
  {
  }

  lemma ReadKept(s: State, t: nat, b: nat, j: nat, m: Msg)
    requires Inv(s) && t < |s.threads| && s.threads[t] == RReadMsg(b, j) && RecvOk(s.mem, s.aux, t, s.threads[t])
    requires m == s.aux.want[t]
    ensures b < |s.mem.heap| && b < |s.aux.info| && j < 31
    ensures Inv(State(SetBlock(s.mem, b, MovedBlock(s.mem.heap[b], j)), s.threads[t := MovedPc(b, j, m)], false,
                      MovedAux(s.aux, t, b, j, m)))
  {
    MovedShape(s.mem, s.aux, t, b, j);
    MovedBlocks(s.mem, s.aux, t, b, j);
    MovedThread(s.mem, s.aux, t, b, j);
    MovedHeld(s.aux, s.threads, t, b, j, m);
    Assemble(s, t, SetBlock(s.mem, b, MovedBlock(s.mem.heap[b], j)), MovedAux(s.aux, t, b, j, m), MovedPc(b, j, m));
  }

  lemma ReadMsg(s: State, t: nat, c: Choice)
    requires Inv(s) && t < |s.threads| && s.threads[t].RReadMsg?
    ensures Inv(Step(s, t, c))
  {
    var RReadMsg(b, j) := s.threads[t];
    ThreadFacts(s, t);
    ReadFacts(s.mem, s.aux, t, b, j);
    ReadKept(s, t, b, j, s.aux.want[t]);
    MovedOut(s, t, c, b, j, s.aux.want[t]);
  }

  // ---- setting READ ----

  function MarkedBlock(x: Block, j: nat): Block
    requires j < 31
  {
    Block(x.next, x.slots[j := x.slots[j].(read := true)], x.freed)
  }

  /** If DESTROY was set, the duty of destroying the block passes to this reader. */
  ghost function MarkedInfo(i: Info, x: Block, t: nat, j: nat): Info
    requires j < 31
  {
    Info(i.owner, i.link, if x.slots[j].destroy then Active(t, j + 1) else i.token,
         i.cells[j := Cell(i.cells[j].writer, Done)])
  }

  function MarkedPc(x: Block, b: nat, j: nat, m: Msg): Pc
    requires j < 31
  {
    if x.slots[j].destroy then DCheck(b, j + 1, m) else Idle
  }

  lemma MarkedFacts(mem: Mem, aux: Aux, t: nat, b: nat, j: nat, m: Msg)
    requires Blocks(mem, aux) && RecvOk(mem, aux, t, RMark(b, j, m))
    ensures Live(mem, b)
    ensures mem.heap[b].slots[j].destroy <==> aux.info[b].token == Parked(j)
    ensures InfoGuar(aux.info[b], MarkedInfo(aux.info[b], mem.heap[b], t, j), t)
  {
    CellFact(mem, aux, b, j);
  }

  lemma MarkedThis(mem: Mem, aux: Aux, x: Block, i: Info, t: nat, j: nat)
    requires BlockOk(mem, aux, x, i) && i.owner.Chained? && j < 30 && i.cells[j].reader.Half?
    ensures BlockOk(mem, aux, MarkedBlock(x, j), MarkedInfo(i, x, t, j))
  {
    var k := i.owner.k;
    var x', i' := MarkedBlock(x, j), MarkedInfo(i, x, t, j);
    assert CellOk(x.slots[j], i.cells[j], i.token, j, 32 * k + j, 31 * k + j, Index(mem.head), Index(mem.tail), aux);
    forall y | 0 <= y < 31
      ensures CellOk(x'.slots[y], i'.cells[y], i'.token, y, 32 * k + y, 31 * k + y, Index(mem.head), Index(mem.tail), aux)
    {
      assert CellOk(x.slots[y], i.cells[y], i.token, y, 32 * k + y, 31 * k + y, Index(mem.head), Index(mem.tail), aux);
    }
  }

  lemma MarkedDuty(aux: Aux, threads: seq<Pc>, t: nat, x: Block, b: nat, j: nat, m: Msg)
    requires Held(aux, threads) && t < |threads| && threads[t] == RMark(b, j, m) && b < |aux.info| && j < 30
    ensures SameDutiesBut(t, threads[t], MarkedPc(x, b, j, m), b)
    ensures BlockDuty(t, MarkedPc(x, b, j, m), b, aux.info[b], MarkedInfo(aux.info[b], x, t, j))
  {
    var i', pc := MarkedInfo(aux.info[b], x, t, j), MarkedPc(x, b, j, m);
    assert HeldBlock(threads, b, aux.info[b]);
    forall y | 0 <= y < 31 ensures CellDuty(t, pc, b, y, aux.info[b].cells[y], i'.cells[y]) {
      assert HeldCell(threads, b, y, aux.info[b].cells[y]);
    }
  }

  lemma MarkedOut(s: State, t: nat, c: Choice, b: nat, j: nat, m: Msg)
    requires t < |s.threads| && s.threads[t] == RMark(b, j, m) && !s.fault
    requires Live(s.mem, b) && b < |s.aux.info| && j < 31
    ensures Step(s, t, c) == State(SetBlock(s.mem, b, MarkedBlock(s.mem.heap[b], j)),
                                   s.threads[t := MarkedPc(s.mem.heap[b], b, j, m)], false,
                                   SetInfo(s.aux, b, MarkedInfo(s.aux.info[b], s.mem.heap[b], t, j)))
  {
  }

  lemma MarkedThread(mem: Mem, aux: Aux, t: nat, b: nat, j: nat, m: Msg)
    requires Blocks(mem, aux) && RecvOk(mem, aux, t, RMark(b, j, m))
    ensures ThreadOk(SetBlock(mem, b, MarkedBlock(mem.heap[b], j)),
                     SetInfo(aux, b, MarkedInfo(aux.info[b], mem.heap[b], t, j)), t, MarkedPc(mem.heap[b], b, j, m))
  {
  }

  lemma MarkKeeps(s: State, t: nat, b: nat, j: nat, m: Msg)
    requires Inv(s) && t < |s.threads| && s.threads[t] == RMark(b, j, m)
    ensures Live(s.mem, b) && b < |s.aux.info| && j < 31
    ensures Inv(State(SetBlock(s.mem, b, MarkedBlock(s.mem.heap[b], j)),
                      s.threads[t := MarkedPc(s.mem.heap[b], b, j, m)], false,
                      SetInfo(s.aux, b, MarkedInfo(s.aux.info[b], s.mem.heap[b], t, j))))
  {
    ThreadFacts(s, t);
    MarkedFacts(s.mem, s.aux, t, b, j, m);
    var x, i := s.mem.heap[b], s.aux.info[b];
    MarkedThis(s.mem, s.aux, x, i, t, j);
    MarkedDuty(s.aux, s.threads, t, x, b, j, m);
    MarkedThread(s.mem, s.aux, t, b, j, m);
    BlockStep(s, t, MarkedPc(x, b, j, m), b, MarkedBlock(x, j), MarkedInfo(i, x, t, j));
  }

  lemma Mark(s: State, t: nat, c: Choice)
    requires Inv(s) && t < |s.threads| && s.threads[t].RMark?
    ensures Inv(Step(s, t, c))
  {
    var RMark(b, j, m) := s.threads[t];
    MarkKeeps(s, t, b, j, m);
    MarkedOut(s, t, c, b, j, m);
  }

  // ---- Block::destroy ----

  ghost function Passed(i: Info, t: nat, n: nat): Info { i.(token := Active(t, n)) }

  function Same(x: Block): Block { x }

  lemma DestroyFacts(mem: Mem, aux: Aux, t: nat, b: nat, n: nat, m: Msg)
    requires Blocks(mem, aux) && Destroying(aux, t, b, n, m)
    ensures Live(mem, b) && n <= 30
    ensures aux.info[b].cells[30].reader.Done?
    ensures mem.heap[b].slots[n].read <==> aux.info[b].cells[n].reader.Done? && n < 30
  {
    CellFact(mem, aux, b, n);
  }

  /** READ is set on slot `n`: the destroyer moves on. */
  lemma PassedThis(mem: Mem, aux: Aux, x: Block, i: Info, t: nat, n: nat)
    requires BlockOk(mem, aux, x, i) && i.owner.Chained? && n < 30
    requires i.token == Active(t, n) && i.cells[n].reader.Done?
    ensures BlockOk(mem, aux, x, Passed(i, t, n + 1))
  {
    var k := i.owner.k;
    forall y | 0 <= y < 31
      ensures CellOk(x.slots[y], i.cells[y], Active(t, n + 1), y, 32 * k + y, 31 * k + y,
                     Index(mem.head), Index(mem.tail), aux)
    {
      assert CellOk(x.slots[y], i.cells[y], i.token, y, 32 * k + y, 31 * k + y, Index(mem.head), Index(mem.tail), aux);
    }
  }

  lemma TokenDuty(aux: Aux, threads: seq<Pc>, t: nat, b: nat, n: nat, m: Msg, token: Token, pc: Pc)
    requires Held(aux, threads) && t < |threads| && b < |aux.info|
    requires threads[t] == DCheck(b, n, m) || threads[t] == DOr(b, n, m)
    requires pc.Idle? || (pc.DCheck? && pc.b == b)
    requires token.Active? ==> token.t == t && pc.DCheck? && pc.i == token.c
    ensures SameDutiesBut(t, threads[t], pc, b)
    ensures BlockDuty(t, pc, b, aux.info[b], aux.info[b].(token := token))
  {
    assert HeldBlock(threads, b, aux.info[b]);
    forall y | 0 <= y < 31 ensures CellDuty(t, pc, b, y, aux.info[b].cells[y], aux.info[b].cells[y]) {
      assert HeldCell(threads, b, y, aux.info[b].cells[y]);
    }
  }

  lemma PassKeeps(s: State, t: nat, b: nat, n: nat, m: Msg)
    requires Inv(s) && t < |s.threads| && s.threads[t] == DCheck(b, n, m) && n < 30
    requires Live(s.mem, b) && s.mem.heap[b].slots[n].read
    ensures b < |s.aux.info|
    ensures Inv(State(SetBlock(s.mem, b, Same(s.mem.heap[b])), s.threads[t := DCheck(b, n + 1, m)], false,
                      SetInfo(s.aux, b, Passed(s.aux.info[b], t, n + 1))))
  {
    ThreadFacts(s, t);
    DestroyFacts(s.mem, s.aux, t, b, n, m);
    PassedThis(s.mem, s.aux, s.mem.heap[b], s.aux.info[b], t, n);
    TokenDuty(s.aux, s.threads, t, b, n, m, Active(t, n + 1), DCheck(b, n + 1, m));
    BlockStep(s, t, DCheck(b, n + 1, m), b, Same(s.mem.heap[b]), Passed(s.aux.info[b], t, n + 1));
  }

  lemma CheckPasses(s: State, t: nat, c: Choice, b: nat, n: nat, m: Msg)
    requires Inv(s) && t < |s.threads| && s.threads[t] == DCheck(b, n, m) && n < 30
    requires Live(s.mem, b) && s.mem.heap[b].slots[n].read
    ensures Inv(Step(s, t, c))
  {
    PassKeeps(s, t, b, n, m);
    CheckPassesOut(s, t, c, b, n, m);
  }

  lemma CheckPassesOut(s: State, t: nat, c: Choice, b: nat, n: nat, m: Msg)
    requires t < |s.threads| && s.threads[t] == DCheck(b, n, m) && n < 30 && !s.fault
    requires Live(s.mem, b) && s.mem.heap[b].slots[n].read && b < |s.aux.info|
    ensures Step(s, t, c) == State(SetBlock(s.mem, b, Same(s.mem.heap[b])), s.threads[t := DCheck(b, n + 1, m)], false,
                                   SetInfo(s.aux, b, Passed(s.aux.info[b], t, n + 1)))
  {
    assert s.mem.heap[b := s.mem.heap[b]] == s.mem.heap;
  }

  lemma CheckLocal(mem: Mem, aux: Aux, t: nat, pc: Pc, c: Choice)
    requires RecvOk(mem, aux, t, pc) && pc.DCheck? && pc.i < 30 && Live(mem, pc.b) && !mem.heap[pc.b].slots[pc.i].read
    ensures Local(mem, aux, t, pc, c)
  {
    CheckDuties(t, pc.b, pc.i, pc.m);
  }

  lemma CheckDuties(t: nat, b: nat, n: nat, m: Msg)
    ensures SameDuties(t, DCheck(b, n, m), DOr(b, n, m))
  {
  }

  lemma CheckStops(s: State, t: nat, c: Choice, b: nat, n: nat, m: Msg)
    requires Inv(s) && t < |s.threads| && s.threads[t] == DCheck(b, n, m) && n < 30
    requires Live(s.mem, b) && !s.mem.heap[b].slots[n].read
    ensures Inv(Step(s, t, c))
  {
    ThreadFacts(s, t);
    CheckLocal(s.mem, s.aux, t, s.threads[t], c);
    LocalStep(s, t, c);
  }

  function FreedBlock(x: Block): Block { x.(freed := true) }

  function SpentInfo(i: Info): Info { i.(token := Spent) }

  /** Past slot 29 every reader is done, so the block may be freed. */
  lemma FreedThis(mem: Mem, aux: Aux, x: Block, i: Info, t: nat)
    requires BlockOk(mem, aux, x, i) && i.owner.Chained? && i.token == Active(t, 30)
    ensures BlockOk(mem, aux, FreedBlock(x), SpentInfo(i))
  {
    var k := i.owner.k;
    forall y | 0 <= y < 31
      ensures CellOk(x.slots[y], i.cells[y], Spent, y, 32 * k + y, 31 * k + y, Index(mem.head), Index(mem.tail), aux)
    {
      assert CellOk(x.slots[y], i.cells[y], i.token, y, 32 * k + y, 31 * k + y, Index(mem.head), Index(mem.tail), aux);
    }
  }

  lemma FreeOut(s: State, t: nat, c: Choice, b: nat, n: nat, m: Msg)
    requires t < |s.threads| && s.threads[t] == DCheck(b, n, m) && n >= 30 && !s.fault
    requires Live(s.mem, b) && b < |s.aux.info|
    ensures Step(s, t, c) == State(SetBlock(s.mem, b, FreedBlock(s.mem.heap[b])), s.threads[t := Idle], false,
                                   SetInfo(s.aux, b, SpentInfo(s.aux.info[b])))
  {
  }

  lemma FreeKeeps(s: State, t: nat, b: nat, n: nat, m: Msg)
    requires Inv(s) && t < |s.threads| && s.threads[t] == DCheck(b, n, m) && n >= 30
    ensures Live(s.mem, b) && b < |s.aux.info|
    ensures Inv(State(SetBlock(s.mem, b, FreedBlock(s.mem.heap[b])), s.threads[t := Idle], false,
                      SetInfo(s.aux, b, SpentInfo(s.aux.info[b]))))
  {
    ThreadFacts(s, t);
    DestroyFacts(s.mem, s.aux, t, b, n, m);
    FreedThis(s.mem, s.aux, s.mem.heap[b], s.aux.info[b], t);
    TokenDuty(s.aux, s.threads, t, b, n, m, Spent, Idle);
    BlockStep(s, t, Idle, b, FreedBlock(s.mem.heap[b]), SpentInfo(s.aux.info[b]));
  }

  lemma CheckFrees(s: State, t: nat, c: Choice, b: nat, n: nat, m: Msg)
    requires Inv(s) && t < |s.threads| && s.threads[t] == DCheck(b, n, m) && n >= 30
    ensures Inv(Step(s, t, c))
  {
    FreeKeeps(s, t, b, n, m);
    FreeOut(s, t, c, b, n, m);
  }

  lemma Check(s: State, t: nat, c: Choice)
    requires Inv(s) && t < |s.threads| && s.threads[t].DCheck?
    ensures Inv(Step(s, t, c))
  {
    var DCheck(b, n, m) := s.threads[t];
    assert Destroying(s.aux, t, b, n, m) by {
      assert ThreadOk(s.mem, s.aux, t, s.threads[t]);
    }
    DestroyFacts(s.mem, s.aux, t, b, n, m);
    if n >= 30 {
      CheckFrees(s, t, c, b, n, m);
    } else if s.mem.heap[b].slots[n].read {
      CheckPasses(s, t, c, b, n, m);
    } else {
      CheckStops(s, t, c, b, n, m);
    }
  }

  function OrBlock(x: Block, n: nat): Block
    requires n < 31
  {
    Block(x.next, x.slots[n := x.slots[n].(destroy := true)], x.freed)
  }

  /** READ not set: the token stays on slot `n`, for its reader to pick up. */
  ghost function OrToken(x: Block, t: nat, n: nat): Token
    requires n < 31
  {
    if x.slots[n].read then Active(t, n + 1) else Parked(n)
  }

  ghost function OrInfo(i: Info, x: Block, t: nat, n: nat): Info
    requires n < 31
  {
    i.(token := OrToken(x, t, n))
  }

  function OrPc(x: Block, b: nat, n: nat, m: Msg): Pc
    requires n < 31
  {
    if x.slots[n].read then DCheck(b, n + 1, m) else Idle
  }

  lemma OrThis(mem: Mem, aux: Aux, x: Block, i: Info, t: nat, n: nat)
    requires BlockOk(mem, aux, x, i) && i.owner.Chained? && n < 30 && i.token == Active(t, n)
    ensures BlockOk(mem, aux, OrBlock(x, n), OrInfo(i, x, t, n))
  {
    var k := i.owner.k;
    var x', i' := OrBlock(x, n), OrInfo(i, x, t, n);
    assert CellOk(x.slots[n], i.cells[n], i.token, n, 32 * k + n, 31 * k + n, Index(mem.head), Index(mem.tail), aux);
    forall y | 0 <= y < 31
      ensures CellOk(x'.slots[y], i'.cells[y], i'.token, y, 32 * k + y, 31 * k + y, Index(mem.head), Index(mem.tail), aux)
    {
      assert CellOk(x.slots[y], i.cells[y], i.token, y, 32 * k + y, 31 * k + y, Index(mem.head), Index(mem.tail), aux);
    }
  }

  lemma OrOut(s: State, t: nat, c: Choice, b: nat, n: nat, m: Msg)
    requires t < |s.threads| && s.threads[t] == DOr(b, n, m) && n < 31 && !s.fault
    requires Live(s.mem, b) && b < |s.aux.info|
    ensures Step(s, t, c) == State(SetBlock(s.mem, b, OrBlock(s.mem.heap[b], n)),
                                   s.threads[t := OrPc(s.mem.heap[b], b, n, m)], false,
                                   SetInfo(s.aux, b, OrInfo(s.aux.info[b], s.mem.heap[b], t, n)))
  {
  }

  lemma OrThread(mem: Mem, aux: Aux, t: nat, b: nat, n: nat, m: Msg)
    requires Blocks(mem, aux) && RecvOk(mem, aux, t, DOr(b, n, m))
    ensures b < |mem.heap| && ThreadOk(SetBlock(mem, b, OrBlock(mem.heap[b], n)),
                                       SetInfo(aux, b, OrInfo(aux.info[b], mem.heap[b], t, n)), t, OrPc(mem.heap[b], b, n, m))
  {
  }

  lemma OrFacts(x: Block, i: Info, t: nat, b: nat, n: nat, m: Msg)
    requires n < 30 && i.token == Active(t, n)
    ensures InfoGuar(i, OrInfo(i, x, t, n), t) && OrInfo(i, x, t, n) == i.(token := OrToken(x, t, n))
    ensures OrPc(x, b, n, m).Idle? || (OrPc(x, b, n, m).DCheck? && OrPc(x, b, n, m).b == b)
    ensures OrToken(x, t, n).Active? ==>
              OrToken(x, t, n).t == t && OrPc(x, b, n, m).DCheck? && OrPc(x, b, n, m).i == OrToken(x, t, n).c
    ensures SameSections(DOr(b, n, m), OrPc(x, b, n, m))
  {
  }

  lemma OrKeeps(s: State, t: nat, b: nat, n: nat, m: Msg)
    requires Inv(s) && t < |s.threads| && s.threads[t] == DOr(b, n, m)
    ensures Live(s.mem, b) && b < |s.aux.info| && n < 31
    ensures Inv(State(SetBlock(s.mem, b, OrBlock(s.mem.heap[b], n)),
                      s.threads[t := OrPc(s.mem.heap[b], b, n, m)], false,
                      SetInfo(s.aux, b, OrInfo(s.aux.info[b], s.mem.heap[b], t, n))))
  {
    ThreadFacts(s, t);
    DestroyFacts(s.mem, s.aux, t, b, n, m);
    var x, i := s.mem.heap[b], s.aux.info[b];
    OrThis(s.mem, s.aux, x, i, t, n);
    OrThread(s.mem, s.aux, t, b, n, m);
    OrFacts(x, i, t, b, n, m);
    TokenDuty(s.aux, s.threads, t, b, n, m, OrToken(x, t, n), OrPc(x, b, n, m));
    BlockStep(s, t, OrPc(x, b, n, m), b, OrBlock(x, n), OrInfo(i, x, t, n));
  }

  lemma Or(s: State, t: nat, c: Choice)
    requires Inv(s) && t < |s.threads| && s.threads[t].DOr?
    ensures Inv(Step(s, t, c))
  {
    var DOr(b, n, m) := s.threads[t];
    OrKeeps(s, t, b, n, m);
    OrOut(s, t, c, b, n, m);
  }

  // ---- len, shutdown and the start of a call ----

  lemma OtherLocal(mem: Mem, aux: Aux, t: nat, pc: Pc, c: Choice)
    requires pc.LLoadTail? || pc.LLoadHead? || pc.LCheck? || (pc.Idle? && !c.Shutdown?)
    ensures Local(mem, aux, t, pc, c)
  {
    if pc.Idle? {
      CallMoves(mem, aux, t, pc, c);
    } else {
      LenMoves(mem, aux, t, pc, c);
    }
    NoDuties(t, pc, MemStep(mem, pc, c).pc);
  }

  predicate Dutyless(pc: Pc) {
    || pc.Idle? || pc.LLoadTail? || pc.LLoadHead? || pc.LCheck? || pc == RLoadHead || (pc.SLoadTail? && pc.nb.Null?)
  }

  ghost predicate Unmoved(mem: Mem, aux: Aux, t: nat, pc: Pc, out: Out) {
    out.mem == mem && !out.fault && Annotate(mem, aux, t, pc, out) == aux && ThreadOk(mem, aux, t, out.pc) && Dutyless(out.pc)
  }

  lemma CallMoves(mem: Mem, aux: Aux, t: nat, pc: Pc, c: Choice)
    requires pc.Idle? && !c.Shutdown?
    ensures Unmoved(mem, aux, t, pc, MemStep(mem, pc, c))
  {
  }

  lemma LenMoves(mem: Mem, aux: Aux, t: nat, pc: Pc, c: Choice)
    requires pc.LLoadTail? || pc.LLoadHead? || pc.LCheck?
    ensures Unmoved(mem, aux, t, pc, MemStep(mem, pc, c))
  {
  }

  lemma NoDuties(t: nat, p: Pc, p': Pc)
    requires Dutyless(p) && Dutyless(p')
    ensures SameDuties(t, p, p')
  {
  }

  lemma LenLocal(s: State, t: nat, c: Choice)
    requires Inv(s) && t < |s.threads| && (s.threads[t].LLoadTail? || s.threads[t].LLoadHead? || s.threads[t].LCheck?)
    ensures Inv(Step(s, t, c))
  {
    OtherLocal(s.mem, s.aux, t, s.threads[t], c);
    LocalStep(s, t, c);
  }

  function ClosedMem(mem: Mem): Mem { mem.(tail := SetMark(mem.tail)) }

  lemma CloseFacts(mem: Mem, aux: Aux, t: nat)
    requires Shape(mem, aux)
    ensures Shape(ClosedMem(mem), aux) && Guar(mem, aux, t, ClosedMem(mem), aux)
  {
  }

  lemma CloseHeld(aux: Aux, threads: seq<Pc>, t: nat)
    requires Held(aux, threads) && t < |threads| && threads[t].Idle?
    ensures Held(aux, threads[t := Idle])
  {
    assert threads[t := Idle] == threads;
  }

  lemma CloseKeeps(s: State, t: nat)
    requires Inv(s) && t < |s.threads| && s.threads[t].Idle?
    ensures Inv(State(ClosedMem(s.mem), s.threads[t := Idle], false, s.aux))
  {
    CloseFacts(s.mem, s.aux, t);
    SectionBlocks(s.mem, s.aux, ClosedMem(s.mem), s.aux);
    CloseHeld(s.aux, s.threads, t);
    Assemble(s, t, ClosedMem(s.mem), s.aux, Idle);
  }

  lemma CloseOut(s: State, t: nat)
    requires t < |s.threads| && s.threads[t].Idle? && !s.fault
    ensures Step(s, t, Shutdown) == State(ClosedMem(s.mem), s.threads[t := Idle], false, s.aux)
  {
  }

  lemma Close(s: State, t: nat)
    requires Inv(s) && t < |s.threads| && s.threads[t].Idle?
    ensures Inv(Step(s, t, Shutdown))
  {
    CloseKeeps(s, t);
    CloseOut(s, t);
  }

  lemma Call(s: State, t: nat, c: Choice)
    requires Inv(s) && t < |s.threads| && s.threads[t].Idle? && !c.Shutdown?
    ensures Inv(Step(s, t, c))
  {
    OtherLocal(s.mem, s.aux, t, s.threads[t], c);
    LocalStep(s, t, c);
  }

  predicate Reading(pc: Pc) { pc.RWaitWrite? || pc.RReadMsg? || pc.RMark? || pc.DCheck? || pc.DOr? }

  predicate Other(pc: Pc) { pc.Idle? || pc.LLoadTail? || pc.LLoadHead? || pc.LCheck? }

  lemma ReadKeeps(s: State, t: nat, c: Choice)
    requires Inv(s) && t < |s.threads| && Reading(s.threads[t])
    ensures Inv(Step(s, t, c))
  {
    match s.threads[t]
    case RWaitWrite(_, _) => WaitWrite(s, t, c);
    case RReadMsg(_, _) => ReadMsg(s, t, c);
    case RMark(_, _, _) => Mark(s, t, c);
    case DCheck(_, _, _) => Check(s, t, c);
    case DOr(_, _, _) => Or(s, t, c);
  }

  lemma OtherKeeps(s: State, t: nat, c: Choice)
    requires Inv(s) && t < |s.threads| && Other(s.threads[t])
    ensures Inv(Step(s, t, c))
  {
    match s.threads[t]
    case Idle => if c.Shutdown? { Close(s, t); } else { Call(s, t, c); }
    case _ => LenLocal(s, t, c);
  }
}
