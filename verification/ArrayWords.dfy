/**
 The packed words of the bounded channel (src/array.rs): lap, mark bit and index
 in one number. `mark` is a power of two above `cap`, and one lap is `2 * mark`.
 Masking with `mark - 1` is the remainder by `mark`, and the mark bit is set if
 the remainder by one lap reaches `mark`.

 A position is the number of a message among all that are ever sent. The word of
 position `p` is `Stamp(c, p)`. Words are unbounded: a lap never wraps around.
 */
module ArrayWords {

  datatype Layout = Layout(cap: nat, mark: nat)
  {
    /** `one_lap` */
    const lap: nat := 2 * mark
  }

  type Config = c: Layout | 0 < c.cap < c.mark witness Layout(1, 2)

  // ---- with_capacity ----

  predicate IsPower(n: nat) { n == 1 || (n > 1 && n % 2 == 0 && IsPower(n / 2)) }

  /** `next_power_of_two` */
  function NextPower(n: nat): (r: nat)
    ensures IsPower(r) && n <= r && (n > 1 ==> r < 2 * n)
  {
    PowerFrom(n, 1)
  }

  function PowerFrom(n: nat, p: nat): (r: nat)
    requires IsPower(p) && (p == 1 || p < 2 * n)
    ensures IsPower(r) && n <= r && (n > 1 ==> r < 2 * n)
    decreases n - p
  {
    if p >= n then p else PowerFrom(n, 2 * p)
  }

  function WithCapacity(cap: nat): (c: Config)
    requires cap > 0
    ensures c.cap == cap && IsPower(c.mark) && c.mark <= 2 * cap && c.lap == 2 * c.mark
  {
    Layout(cap, NextPower(cap + 1))
  }

  // ---- taking words apart, as the channel does ----

  function Index(c: Config, word: nat): nat { Rem(word, c.mark) }

  function Lap(c: Config, word: nat): nat { word - Rem(word, c.lap) }

  /** `a % d`; see RemIs. */
  function Rem(a: nat, d: nat): (r: nat)
    requires d > 0
    ensures r <= a && r < d
  {
    if a < d then a else Rem(a - d, d)
  }

  predicate Marked(c: Config, word: nat) { Rem(word, c.lap) >= c.mark }

  function SetMark(c: Config, word: nat): nat { if Marked(c, word) then word else word + c.mark }

  /** `word & !mark_bit` */
  function Strip(c: Config, word: nat): nat { if Marked(c, word) then word - c.mark else word }

  /** The word after `word`: same lap, next index, or the next lap, index 0. */
  function Next(c: Config, word: nat): nat {
    if Index(c, word) + 1 < c.cap then word + 1 else Lap(c, word) + c.lap
  }

  // ---- positions ----

  function Stamp(c: Config, p: nat): (r: nat)
    ensures r >= p
  {
    if p < c.cap then p else c.lap + Stamp(c, p - c.cap)
  }

  /** The slot of position `p`. */
  function At(c: Config, p: nat): (i: nat)
    ensures i < c.cap && (p < c.cap ==> i == p)
  {
    if p < c.cap then p else At(c, p - c.cap)
  }

  lemma QuotRem(a: nat, d: nat, q: nat, r: nat)
    requires d > 0 && a == q * d + r && r < d
    ensures a / d == q && a % d == r
  {
    var e := a / d - q;
    assert a == a / d * d + a % d;
    assert e * d == r - a % d;
  }

  lemma {:induction false} RemIs(a: nat, d: nat)
    requires d > 0
    ensures Rem(a, d) == a % d
  {
    if a >= d {
      RemIs(a - d, d);
      OneLess(a, d);
    } else {
      QuotRem(a, d, 0, a);
    }
  }

  /** Laps do not change the remainder. */
  lemma {:induction false} RemOf(q: nat, d: nat, r: nat)
    requires r < d
    ensures Rem(q * d + r, d) == r
  {
    if q > 0 {
      OneMore(q - 1, d);
      RemOf(q - 1, d, r);
    }
  }

  lemma OneMore(q: nat, d: nat)
    ensures (q + 1) * d == q * d + d
  {
  }

  lemma OneLess(p: nat, d: nat)
    requires p >= d > 0
    ensures p / d == (p - d) / d + 1 && p % d == (p - d) % d
  {
    var q, r := (p - d) / d, (p - d) % d;
    assert p - d == q * d + r;
    OneMore(q, d);
    QuotRem(p, d, q + 1, r);
  }

  lemma {:induction false} StampIs(c: Config, p: nat)
    ensures At(c, p) == p % c.cap
    ensures Stamp(c, p) == p / c.cap * c.lap + p % c.cap
  {
    if p < c.cap {
      QuotRem(p, c.cap, 0, p);
    } else {
      StampIs(c, p - c.cap);
      OneLess(p, c.cap);
      OneMore((p - c.cap) / c.cap, c.lap);
    }
  }

  /** The parts of a position: lap and slot. */
  lemma {:induction false} Parts(c: Config, p: nat) returns (q: nat)
    ensures Stamp(c, p) == q * c.lap + At(c, p)
    ensures Stamp(c, p + 1) == if At(c, p) + 1 < c.cap then Stamp(c, p) + 1 else q * c.lap + c.lap
  {
    if p < c.cap {
      q := 0;
    } else {
      q := Parts(c, p - c.cap);
      OneMore(q, c.lap);
      q := q + 1;
    }
  }

  lemma Unpack(c: Config, lap: nat, mark: bool, index: nat)
    requires index < c.mark
    ensures var w := lap * c.lap + (if mark then c.mark else 0) + index;
      Index(c, w) == index && Lap(c, w) == lap * c.lap && Marked(c, w) == mark
  {
    var r := (if mark then c.mark else 0) + index;
    RemOf(lap, c.lap, r);
    assert lap * c.lap == (2 * lap) * c.mark;
    if mark {
      OneMore(2 * lap, c.mark);
      RemOf(2 * lap + 1, c.mark, index);
    } else {
      RemOf(2 * lap, c.mark, index);
    }
  }

  /** The word of a position, with or without the mark, comes apart as it should: no field carries into another. */
  lemma StampParts(c: Config, p: nat)
    ensures Index(c, Stamp(c, p)) == At(c, p) && !Marked(c, Stamp(c, p))
    ensures Marked(c, Stamp(c, p) + c.mark) && Strip(c, Stamp(c, p) + c.mark) == Stamp(c, p)
    ensures Index(c, Stamp(c, p) + c.mark) == At(c, p)
    ensures Next(c, Stamp(c, p)) == Stamp(c, p + 1)
  {
    var q := Parts(c, p);
    Unpack(c, q, false, At(c, p));
    Unpack(c, q, true, At(c, p));
  }

  /** A later position has a larger word, by more than the mark in another lap. */
  lemma {:induction false} StampGrows(c: Config, p: nat, q: nat)
    requires p < q
    ensures Stamp(c, p) < Stamp(c, q)
    decreases q
  {
    if q < c.cap {
    } else if p < c.cap {
    } else {
      StampGrows(c, p - c.cap, q - c.cap);
    }
  }

  /** Two positions of the same slot are whole laps apart. */
  lemma {:induction false} SameSlot(c: Config, p: nat, q: nat)
    requires p < q && At(c, p) == At(c, q)
    ensures p + c.cap <= q && Stamp(c, p) + c.lap <= Stamp(c, q)
    decreases q
  {
    if p < c.cap {
      if q >= 2 * c.cap || (q >= c.cap && q - c.cap > p) {
        SameSlot(c, p, q - c.cap);
      }
    } else {
      SameSlot(c, p - c.cap, q - c.cap);
    }
  }

  lemma NextLap(c: Config, p: nat)
    ensures Stamp(c, p + c.cap) == Stamp(c, p) + c.lap && At(c, p + c.cap) == At(c, p)
  {
  }
}
