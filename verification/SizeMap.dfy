/**
  The size classes of the allocator (SizeMap in common.h and common.cc): how Init chooses them,
  for any page size from 128 bytes on that is a power of two and any limit on transfers, and
  how a size finds its class.
  */
module SizeMap {
  import Arith
  import opened Powers

  const ALIGNMENT: nat := 8
  const MAX_SIZE: nat := 262144
  const MAX_SMALL_SIZE: nat := 1024
  const CLASS_ARRAY_SIZE: nat := 2169

  ghost predicate Divides(n: nat, a: nat) { n >= 1 && a % n == 0 }

  /** The smaller power divides the greater one. */
  lemma Pow2Divides(a: nat, b: nat)
    requires a <= b
    ensures Divides(Pow2(a), Pow2(b))
  {
    Pow2Add(a, b - a);
    Arith.Multiple(Pow2(a), Pow2(b - a));
  }

  lemma SumDivides(a: nat, b: nat, n: nat)
    requires Divides(n, a) && Divides(n, b)
    ensures Divides(n, a + b)
    ensures a < b ==> a + n <= b
  {
    var p, q := a / n, b / n;
    assert a == n * p && b == n * q && n * (p + q) == n * p + n * q && n * (p + 1) == n * p + n;
    Arith.Multiple(n, p + q);
    Arith.Order(n, p, q);
    Arith.Order(n, p + 1, q);
  }

  // ------------------------------------------------------------------ alignment

  /** The position of the highest bit. */
  function HighBit(n: nat): (k: nat)
    requires n >= 1
    ensures Pow2(k) <= n < Pow2(k + 1)
  {
    if n == 1 then 0 else 1 + HighBit(n / 2)
  }

  /** The highest bit is not below that of a smaller power. */
  lemma TopBit(size: nat, log: nat, k: nat)
    requires size < Pow2(log + 1) && Pow2(k) <= size
    ensures k <= log
  {
    if k >= log + 1 {
      Pow2Grows(log + 1, k);
    }
  }

  lemma HighBitIs(n: nat, k: nat)
    requires 1 <= Pow2(k) <= n < Pow2(k + 1)
    ensures HighBit(n) == k
  {
    hide Pow2, HighBit;
    TopBit(n, k, HighBit(n));
    TopBit(n, HighBit(n), k);
  }

  /** Shifting right by `shift` takes as much off the highest bit's position, or leaves nothing. */
  lemma {:induction false} ShiftOut(n: nat, shift: nat)
    requires n >= 1
    ensures if n / Pow2(shift) == 0 then HighBit(n) < shift else HighBit(n) == shift + HighBit(n / Pow2(shift))
  {
    if shift > 0 {
      HalfFirst(n, Pow2(shift - 1));
      if n >= 2 {
        ShiftOut(n / 2, shift - 1);
      } else {
        Arith.QuotientIs(n / 2, Pow2(shift - 1), 0);
      }
    }
  }

  lemma HalfFirst(n: nat, p: nat)
    requires p >= 1
    ensures n / (2 * p) == n / 2 / p
  {
    var q, r := n / (2 * p), n % (2 * p);
    assert n == 2 * p * q + r;
    assert 2 * p * q == 2 * (p * q);
    assert n / 2 == p * q + r / 2;
    assert p * (q + 1) == p * q + p;
    Arith.QuotientIs(n / 2, p, q);
  }

  /** LgFloor: the position of the highest bit, for numbers of up to 32 bits. */
  method LgFloor(number: nat) returns (log: nat)
    requires 1 <= number < Pow2(32)
    ensures log == HighBit(number)
  {
    hide HighBit, Pow2;
    SmallPowers();
    TopBit32(number);
    var n, i: int := number, 4;
    log := 0;
    while i >= 0
      invariant -1 <= i <= 4
      invariant n >= 1 && log + HighBit(n) == HighBit(number) && HighBit(n) < Pow2(i + 1)
      decreases i
    {
      var shift := Pow2(i);
      var x := n / Pow2(shift);
      NextPower(i);
      ShiftOut(n, shift);
      if x != 0 {
        n := x;
        log := log + shift;
      }
      i := i - 1;
    }
  }

  lemma SmallPowers()
    ensures Pow2(0) == 1 && Pow2(5) == 32
  {}

  lemma TopBit32(number: nat)
    requires 1 <= number < Pow2(32)
    ensures HighBit(number) < 32
  {
    TopBit(number, 31, HighBit(number));
  }

  lemma NextPower(n: nat)
    ensures Pow2(n + 1) == Pow2(n) + Pow2(n)
  {}

  /** Machine parameters: the logarithm of the page size, and kMinAlign. */
  datatype Machine = Machine(pageShift: nat, minAlign: nat) {
    predicate Good() {
      pageShift >= 7 && (minAlign == 8 || minAlign == 16)
    }

    function PageSize(): nat { Pow2(pageShift) }
  }

  /** What AlignmentForSize computes: sizes below 128 bytes are aligned to 8 bytes or kMinAlign, a
      greater one to an eighth of its highest power of two, but to a page at most. */
  function AlignmentOf(mc: Machine, size: nat): nat {
    if size > MAX_SIZE then mc.PageSize()
    else if size >= 128 then Pow2(Arith.Min(HighBit(size) - 3, mc.pageShift))
    else if size >= mc.minAlign then mc.minAlign
    else ALIGNMENT
  }

  lemma Bits(size: nat)
    requires size <= MAX_SIZE
    ensures size < Pow2(32)
  {
    assert Pow2(6) == 64 && Pow2(12) == 4096 && Pow2(18) == 262144;
    NextPower(18);
    Pow2Grows(19, 32);
  }

  method AlignmentForSize(mc: Machine, size: nat) returns (alignment: nat)
    requires mc.Good()
    ensures alignment == AlignmentOf(mc, size)
  {
    hide Pow2, HighBit;
    alignment := ALIGNMENT;
    AlignmentPowers(mc);
    if size > MAX_SIZE {
      alignment := mc.PageSize();
    } else if size >= 128 {
      Bits(size);
      var log := LgFloor(size);
      alignment := Pow2(log) / 8;
      EighthPower(size);
      Capped(log - 3, mc.pageShift);
    } else if size >= mc.minAlign {
      alignment := mc.minAlign;
    }
    if alignment > mc.PageSize() {
      alignment := mc.PageSize();
    }
  }

  lemma AlignmentPowers(mc: Machine)
    requires mc.Good()
    ensures Pow2(3) == 8 && Pow2(4) == 16 && Pow2(7) == 128 && mc.PageSize() >= 128
  {
    Pow2Grows(7, mc.pageShift);
  }

  lemma EighthPower(size: nat)
    requires size >= 128
    ensures HighBit(size) >= 7 && Pow2(HighBit(size)) / 8 == Pow2(HighBit(size) - 3)
  {
    hide HighBit;
    var k := HighBit(size);
    assert Pow2(7) == 128;
    TopBit(size, k, 7);
    NextPower(k - 1);
    NextPower(k - 2);
    NextPower(k - 3);
    hide Pow2;
  }

  lemma Capped(a: nat, b: nat)
    ensures Pow2(Arith.Min(a, b)) == Arith.Min(Pow2(a), Pow2(b))
  {
    if a <= b {
      Pow2Grows(a, b);
    } else {
      Pow2Grows(b, a);
    }
  }

  /** The checks at its end hold: it is a power of two, and not below kMinAlign unless the size is. */
  lemma AlignmentChecks(mc: Machine, size: nat)
    requires mc.Good()
    ensures exists a: nat :: AlignmentOf(mc, size) == Pow2(a)
    ensures size < mc.minAlign || AlignmentOf(mc, size) >= mc.minAlign
  {
    AlignmentPowers(mc);
    if size > MAX_SIZE {
      assert AlignmentOf(mc, size) == Pow2(mc.pageShift);
    } else if size >= 128 {
      EighthPower(size);
      var a: nat := Arith.Min(HighBit(size) - 3, mc.pageShift);
      Pow2Grows(4, a);
      assert AlignmentOf(mc, size) == Pow2(a);
    } else {
      assert AlignmentOf(mc, size) == Pow2(3) || AlignmentOf(mc, size) == Pow2(4);
    }
  }

  /** From 128 bytes on the alignment is an eighth of the size, rounded down to a power of two, but a page at
      most; so rounding up to it adds an eighth at most. */
  lemma EighthOfSize(mc: Machine, size: nat)
    requires mc.Good() && 128 <= size <= MAX_SIZE
    ensures var a := AlignmentOf(mc, size); 8 * a <= size && (size < 16 * a || a == mc.PageSize())
  {
    hide HighBit, Pow2;
    EighthPower(size);
    var k := HighBit(size);
    PowerOfEight(k - 3);
    Capped(k - 3, mc.pageShift);
  }

  lemma PowerOfEight(n: nat)
    ensures Pow2(n + 3) == 8 * Pow2(n) && Pow2(n + 4) == 16 * Pow2(n)
  {
    NextPower(n);
    NextPower(n + 1);
    NextPower(n + 2);
    NextPower(n + 3);
    hide Pow2;
  }

  // ------------------------------------------------------------------ the sizes that are tried

  /** A size Init's loop may try: a multiple of its own alignment. */
  ghost predicate Tried(mc: Machine, size: nat) {
    8 <= size <= MAX_SIZE && Divides(AlignmentOf(mc, size), size)
  }

  /** Between a size that is tried and the next one there is none. */
  lemma NoneBetween(mc: Machine, size: nat, s: nat)
    requires mc.Good() && Tried(mc, size) && size < s < size + AlignmentOf(mc, size)
    ensures !Tried(mc, s)
  {
    if s <= MAX_SIZE {
      if size < 128 {
        NextSmall(mc, size);
        SmallBetween(mc, size, s);
      } else {
        LargeBetween(mc, size, s);
      }
    }
  }

  lemma SmallBetween(mc: Machine, size: nat, s: nat)
    requires mc.Good() && 8 <= size < s < 128 && Divides(AlignmentOf(mc, size), size) && s < size + AlignmentOf(mc, size)
    ensures !Divides(AlignmentOf(mc, s), s)
  {
    hide HighBit, Pow2;
  }

  lemma LargeBetween(mc: Machine, size: nat, s: nat)
    requires mc.Good() && 128 <= size < s <= MAX_SIZE && Divides(AlignmentOf(mc, size), size)
    requires s < size + AlignmentOf(mc, size)
    ensures !Divides(AlignmentOf(mc, s), s)
  {
    hide HighBit, Pow2, Divides;
    var k, a := LargeSize(mc, size);
    SumDivides(size, Pow2(k + 1), Pow2(a));
    HighBitIs(s, k);
    if Divides(Pow2(a), s) {
      SumDivides(size, s, Pow2(a));
    }
  }

  /** The loop of Init over the sizes goes through multiples of their own alignment, so that its
      check never fails; and it ends with the greatest size. */
  lemma NextSize(mc: Machine, size: nat)
    requires mc.Good() && 8 <= size && Divides(AlignmentOf(mc, size), size) && size <= MAX_SIZE
    ensures AlignmentOf(mc, size) >= 8
    ensures var next := size + AlignmentOf(mc, size);
            && next > size
            && (size < MAX_SIZE ==> next <= MAX_SIZE && Divides(AlignmentOf(mc, next), next))
  {
    if size < 128 {
      NextSmall(mc, size);
    } else {
      NextLarge(mc, size);
    }
  }

  lemma OwnMultiple(a: nat)
    requires a >= 1
    ensures Divides(a, a)
  {}

  /** Steps of 8 or 16 bytes meet the bounds at which the alignment changes. */
  lemma StepsTo(size: nat, a: nat, bound: nat)
    requires (a == 8 || a == 16) && (bound == 16 || bound == 128) && Divides(a, size)
    ensures size < bound ==> size + a <= bound
    ensures Divides(16, bound) && Divides(8, bound)
  {}

  lemma NextSmall(mc: Machine, size: nat)
    requires mc.Good() && 8 <= size < 128 && Divides(AlignmentOf(mc, size), size)
    ensures AlignmentOf(mc, size) >= 8
    ensures var next := size + AlignmentOf(mc, size); next <= 128 && Divides(AlignmentOf(mc, next), next)
  {
    assert Pow2(4) == 16 && Pow2(7) == 128 && Pow2(8) == 256;
    hide HighBit, Pow2, Divides;
    HighBitIs(128, 7);
    assert AlignmentOf(mc, 128) == 16;
    var a := AlignmentOf(mc, size);
    OwnMultiple(a);
    SumDivides(size, a, a);
    StepsTo(size, a, 16);
    StepsTo(size, a, 128);
  }

  /** What is known of a size with `k + 1` bits, a multiple of its alignment. */
  lemma LargeSize(mc: Machine, size: nat) returns (k: nat, a: nat)
    requires mc.Good() && 128 <= size <= MAX_SIZE
    ensures k == HighBit(size) >= 7 && a == Arith.Min(k - 3, mc.pageShift) && AlignmentOf(mc, size) == Pow2(a) >= 16
    ensures Pow2(k) <= size < Pow2(k + 1) && Divides(Pow2(a), Pow2(k + 1)) && Divides(Pow2(a), Pow2(a))
    ensures size < MAX_SIZE ==> k <= 17 && Pow2(k + 1) <= MAX_SIZE
    ensures Pow2(7) == 128 <= Pow2(k)
  {
    k := HighBit(size);
    EighthPower(size);
    a := Arith.Min(k - 3, mc.pageShift);
    Pow2Grows(4, a);
    Pow2Grows(7, k);
    assert Pow2(4) == 16 && Pow2(7) == 128 && Pow2(18) == 262144;
    Pow2Divides(a, k + 1);
    Pow2Divides(a, a);
    if size < MAX_SIZE {
      TopBit(size, 17, k);
      Pow2Grows(k + 1, 18);
    }
  }

  lemma NextLarge(mc: Machine, size: nat)
    requires mc.Good() && 128 <= size <= MAX_SIZE && Divides(AlignmentOf(mc, size), size)
    ensures AlignmentOf(mc, size) >= 16
    ensures var next := size + AlignmentOf(mc, size);
            size < MAX_SIZE ==> next <= MAX_SIZE && Divides(AlignmentOf(mc, next), next)
  {
    hide Pow2, HighBit, Divides;
    var k, a := LargeSize(mc, size);
    SumDivides(size, Pow2(a), Pow2(a));
    SumDivides(size, Pow2(k + 1), Pow2(a));
    if size < MAX_SIZE {
      AfterTop(mc, size + Pow2(a), k, a);
    }
  }

  /** The size after one of `k + 1` bits has as many bits, or is the next power of two. */
  lemma AfterTop(mc: Machine, next: nat, k: nat, a: nat)
    requires mc.Good() && 7 <= k <= 17 && a == Arith.Min(k - 3, mc.pageShift)
    requires 128 <= Pow2(k) < next <= Pow2(k + 1) && Divides(Pow2(a), next) && next <= MAX_SIZE
    ensures Divides(AlignmentOf(mc, next), next)
  {
    hide Pow2, HighBit, Divides;
    if next < Pow2(k + 1) {
      HighBitIs(next, k);
    } else {
      NextPower(k + 1);
      HighBitIs(next, k + 1);
      Pow2Divides(Arith.Min(k - 2, mc.pageShift), k + 1);
    }
  }

  /** From 1024 bytes on all of these sizes are multiples of 128. */
  lemma LargeSizes(mc: Machine, size: nat)
    requires mc.Good() && MAX_SMALL_SIZE <= size <= MAX_SIZE && Divides(AlignmentOf(mc, size), size)
    ensures Divides(128, size)
  {
    assert Pow2(10) == 1024;
    hide HighBit, Divides;
    var k, a := LargeSize(mc, size);
    hide Pow2;
    TopBit(size, k, 10);
    Pow2Divides(7, a);
    Coarser(size, Pow2(a), 128);
  }

  lemma Coarser(size: nat, n: nat, m: nat)
    requires Divides(n, size) && Divides(m, n)
    ensures Divides(m, size)
  {
    var x, y := size / n, n / m;
    assert size == n * x && n == m * y;
    assert m * y * x == m * (y * x);
    Arith.Multiple(m, y * x);
  }

  // ------------------------------------------------------------------ objects moved at a time

  /** NumMoveSize, for a limit from the environment. */
  function NumMoveSize(limit: int, size: nat): (num: int)
    ensures size > 0 ==> num <= limit
    ensures size > 0 && limit >= 2 ==> num >= 2
    ensures size > 0 && limit < 2 ==> num == limit
  {
    if size == 0 then 0
    else
      var n := 65536 / size;
      var num := if n < 2 then 2 else n;
      if num > limit then limit else num
  }

  /** Between the limits a transfer moves as many objects as make up 64 kB. */
  lemma Transfer(limit: int, size: nat)
    requires size >= 1
    ensures var num := NumMoveSize(limit, size);
            && (2 < num < limit ==> num * size <= 65536 < (num + 1) * size)
            && (num == 2 < limit ==> 65536 < 3 * size)
  {
    var n := 65536 / size;
    Arith.Between(65536, size);
    assert size * n == n * size && size * (n + 1) == (n + 1) * size;
    if n <= 2 {
      Arith.Order(size, n + 1, 3);
    }
  }

  /** Division as C does it, toward zero. */
  function Quarter(n: int): (q: int)
    ensures n >= 0 ==> q == n / 4
    ensures -3 <= n < 0 ==> q == 0
    ensures n <= -4 ==> q <= -1
  {
    if n >= 0 then n / 4 else -(-n / 4)
  }

  /** A negative number compared with a size_t counts as one near 2^64. */
  function AsWord(n: int): int { if n < 0 then n + WORDS else n }

  /** No span of `psize` bytes ends the loop that looks for one large enough. */
  ghost predicate NeverEnough(limit: int, size: nat)
    requires size >= 1
  {
    forall psize: nat :: psize < WORDS ==> psize / size < AsWord(Quarter(NumMoveSize(limit, size)))
  }

  /** The loop goes on for ever exactly with a limit of -4 or less: the number of objects asked for
      is then compared as one near 2^64. */
  lemma SpanLoopEnds(limit: int, size: nat)
    requires -0x8000_0000 <= limit < 0x8000_0000 && 8 <= size <= MAX_SIZE
    ensures NeverEnough(limit, size) <==> limit <= -4
  {
    var blocks := Quarter(NumMoveSize(limit, size));
    if limit <= -4 {
      assert -0x8000_0000 <= blocks <= -1;
      hide NumMoveSize, Quarter;
      forall psize: nat | psize < WORDS
        ensures psize / size < AsWord(blocks)
      {
        Fewer(psize, size);
      }
    } else {
      AskedFor(limit, size);
      Many(size);
      hide NumMoveSize, Quarter;
      var psize: nat := 2048 * size;
      assert psize < WORDS && !(psize / size < AsWord(blocks));
    }
  }

  /** A limit of -3 or more makes for an ordinary number. */
  lemma AskedFor(limit: int, size: nat)
    requires limit >= -3 && size >= 8
    ensures 0 <= Quarter(NumMoveSize(limit, size)) <= 2048
  {
    Arith.QuotientAtMost(65536, size, 8);
  }

  lemma Fewer(psize: nat, size: nat)
    requires psize < WORDS && size >= 8
    ensures psize / size <= WORDS / 8
  {
    Arith.QuotientAtMost(psize, size, 8);
  }

  lemma Many(size: nat)
    requires 8 <= size <= MAX_SIZE
    ensures 2048 * size < WORDS && 2048 * size / size == 2048
  {
    Arith.QuotientIs(2048 * size, size, 2048);
  }
}
