/**
  The bitmap of NightWatch (utl_bitmap.c): an array of 64-bit words, scanned up or down a word
  at a time.  A word is the sequence of its bits, the least significant first.
  */
module Bitmaps {

  const WORD_BITS: nat := 64
  const INT_MAX: nat := 0x7fff_ffff

  type Word = w: seq<bool> | |w| == WORD_BITS witness seq(WORD_BITS, _ => false)

  /** A sum as it is stored into an int. */
  function ToInt(x: int): int {
    (x + INT_MAX + 1) % (2 * (INT_MAX + 1)) - (INT_MAX + 1)
  }

  // ------------------------------------------------------------------ operations on a word

  /** The lowest `n` bits: 0, a mask (1 << n) - 1, or all ones. */
  function Ones(n: nat): Word { seq(WORD_BITS, i => i < n) }

  /** 1 << n */
  function OneBit(n: nat): Word { seq(WORD_BITS, i => i == n) }

  function And(a: Word, b: Word): Word { seq(WORD_BITS, i requires 0 <= i < WORD_BITS => a[i] && b[i]) }

  function Or(a: Word, b: Word): Word { seq(WORD_BITS, i requires 0 <= i < WORD_BITS => a[i] || b[i]) }

  function Not(a: Word): Word { seq(WORD_BITS, i requires 0 <= i < WORD_BITS => !a[i]) }

  function ShiftRight(a: Word, n: nat): Word {
    seq(WORD_BITS, i requires 0 <= i => i + n < WORD_BITS && a[i + n])
  }

  /** The position of the lowest one bit at or above `from`. */
  function LowestFrom(w: Word, from: nat): (r: nat)
    requires from <= WORD_BITS
    ensures from <= r <= WORD_BITS && (r < WORD_BITS ==> w[r])
    ensures forall i :: from <= i < r ==> !w[i]
    decreases WORD_BITS - from
  {
    if from == WORD_BITS || w[from] then from else LowestFrom(w, from + 1)
  }

  /** ffsl: one plus the index of the least significant one bit, 0 if there is none. */
  function Ffsl(w: Word): nat {
    var r := LowestFrom(w, 0);
    if r == WORD_BITS then 0 else r + 1
  }

  /** The position of the highest one bit below `to`. */
  function HighestBelow(w: Word, to: nat): (r: int)
    requires to <= WORD_BITS
    ensures -1 <= r < to && (r >= 0 ==> w[r])
    ensures forall i :: r < i < to ==> !w[i]
  {
    if to == 0 then -1 else if w[to - 1] then to - 1 else HighestBelow(w, to - 1)
  }

  /** bsfl: the index of the most significant one bit of a word that has one. */
  function Bsfl(w: Word): int { HighestBelow(w, WORD_BITS) }

  // ------------------------------------------------------------------ positions in the array

  /** The n-th bit of the array; none is set outside. */
  predicate At(words: seq<Word>, n: int) {
    0 <= n < WORD_BITS * |words| && words[n / WORD_BITS][n % WORD_BITS]
  }

  /** The words that hold `size` bits. */
  function Blocks(size: nat): (n: nat)
    ensures WORD_BITS * (n - 1) < size <= WORD_BITS * n
  {
    (size + WORD_BITS - 1) / WORD_BITS
  }

  lemma BlockBounds(size: nat)
    requires 1 <= size <= INT_MAX
    ensures WORD_BITS * (Blocks(size) - 1) < size <= WORD_BITS * Blocks(size) <= INT_MAX + 1
  {}

  lemma Place(n: int, block: int, offset: int)
    requires 0 <= offset < WORD_BITS && n == WORD_BITS * block + offset
    ensures n / WORD_BITS == block && n % WORD_BITS == offset
  {}

  /** Part of a word is seen as the bits of the array that lie there. */
  lemma Seen(words: seq<Word>, block: nat, from: nat, to: nat)
    requires block < |words| && from <= to <= WORD_BITS
    ensures (forall i :: from <= i < to ==> !words[block][i])
            ==> forall n :: WORD_BITS * block + from <= n < WORD_BITS * block + to ==> !At(words, n)
  {
    forall n | WORD_BITS * block + from <= n < WORD_BITS * block + to
      ensures At(words, n) <==> words[block][n - WORD_BITS * block]
    {
      Place(n, block, n - WORD_BITS * block);
    }
  }

  lemma AllClear(w: Word)
    ensures (forall i :: 0 <= i < WORD_BITS ==> !w[i]) ==> w == Ones(0)
  {}

  lemma Sum(x: int)
    requires -1 <= x <= INT_MAX + 1
    ensures ToInt(x) == if x == INT_MAX + 1 then -x else x
  {}

  /** What the upward scan learns of one word. */
  lemma UpWord(words: seq<Word>, block: nat, offset: nat)
    requires block < |words| && offset < WORD_BITS
    ensures var blk := ShiftRight(words[block], offset);
            var at := WORD_BITS * block + offset;
            if blk == Ones(0) then forall n :: at <= n < WORD_BITS * (block + 1) ==> !At(words, n)
            else 1 <= Ffsl(blk) <= WORD_BITS - offset && At(words, at + Ffsl(blk) - 1)
                 && forall n :: at <= n < at + Ffsl(blk) - 1 ==> !At(words, n)
  {
    var blk := ShiftRight(words[block], offset);
    assert forall i :: offset <= i < WORD_BITS ==> words[block][i] == blk[i - offset];
    if blk == Ones(0) {
      Seen(words, block, offset, WORD_BITS);
    } else {
      var skip := LowestFrom(blk, 0);
      AllClear(blk);
      Seen(words, block, offset, offset + skip);
      Place(WORD_BITS * block + offset + skip, block, offset + skip);
    }
  }

  /** The bits up to `offset` of a word, as the downward scan takes them. */
  function Upto(w: Word, offset: nat): Word
    requires offset < WORD_BITS
  {
    if offset == WORD_BITS - 1 then w else And(w, Ones(offset + 1))
  }

  /** What the downward scan learns of one word. */
  lemma DownWord(words: seq<Word>, block: nat, offset: nat)
    requires block < |words| && offset < WORD_BITS
    ensures var blk := Upto(words[block], offset);
            var at := WORD_BITS * block;
            if blk == Ones(0) then forall n :: at <= n <= at + offset ==> !At(words, n)
            else 0 <= Bsfl(blk) <= offset && At(words, at + Bsfl(blk))
                 && forall n :: at + Bsfl(blk) < n <= at + offset ==> !At(words, n)
  {
    var blk := Upto(words[block], offset);
    assert forall i :: 0 <= i < WORD_BITS ==> blk[i] == (words[block][i] && i <= offset);
    if blk == Ones(0) {
      assert forall i :: 0 <= i < offset + 1 ==> words[block][i] == blk[i];
      Seen(words, block, 0, offset + 1);
    } else {
      var high := HighestBelow(blk, WORD_BITS);
      AllClear(blk);
      assert blk[high];
      assert forall i :: high + 1 <= i < offset + 1 ==> words[block][i] == blk[i];
      Seen(words, block, high + 1, offset + 1);
      Place(WORD_BITS * block + high, block, high);
    }
  }

  lemma SameBit(i: int, n: int)
    requires i / WORD_BITS == n / WORD_BITS && i % WORD_BITS == n % WORD_BITS
    ensures i == n
  {}

  /** The words of a bitmap: none of the bits at or beyond the size is set. */
  ghost predicate Fits(words: seq<Word>, size: nat) {
    |words| == Blocks(size) && forall n :: n >= size ==> !At(words, n)
  }

  // ------------------------------------------------------------------ the upward scan, bit by bit

  /** The least one bit at or above `n`, or -1. */
  function LeastFrom(words: seq<Word>, n: nat): (r: int)
    ensures r == -1 || (n <= r < WORD_BITS * |words| && At(words, r))
    ensures forall i :: i >= n && (r == -1 || i < r) ==> !At(words, i)
    decreases WORD_BITS * |words| - n
  {
    if n >= WORD_BITS * |words| then -1 else if At(words, n) then n else LeastFrom(words, n + 1)
  }

  /** What a scan comes to: an index or -1, or an access behind the last word. */
  datatype Scan = Result(index: int) | RanPast

  function Wanted(words: seq<Word>, size: nat, n: int): Scan {
    Result(if n < 0 || n >= size then -1 else LeastFrom(words, n))
  }

  function Upward(words: seq<Word>, size: nat, n: int): Scan {
    if Wanted(words, size, n) == Result(-1) && 0 <= n < size && WORD_BITS * |words| > INT_MAX then RanPast
    else Wanted(words, size, n)
  }

  /** An empty bitmap of the greatest size there is: the scan leaves the map. */
  lemma RunsPast()
    ensures Blocks(INT_MAX) == 0x200_0000
    ensures Upward(Cleared(0x200_0000), INT_MAX, 0) == RanPast
  {
    AllCleared(0x200_0000, 0);
  }

  function Cleared(blocks: nat): (words: seq<Word>)
    ensures |words| == blocks
  {
    seq(blocks, _ => Ones(0))
  }

  lemma AllCleared(blocks: nat, n: nat)
    ensures LeastFrom(Cleared(blocks), n) == -1
  {}

  /** The upward scan stays in the map and finds what it should, in every bitmap of the size and from
      every index, exactly if the words hold no more bits than an int can count. */
  lemma ScanStays(size: nat)
    requires 1 <= size <= INT_MAX
    ensures (forall words: seq<Word>, n :: Fits(words, size) ==> Upward(words, size, n) == Wanted(words, size, n))
            <==> WORD_BITS * Blocks(size) <= INT_MAX
  {
    if WORD_BITS * Blocks(size) > INT_MAX {
      var words := Cleared(Blocks(size));
      AllCleared(Blocks(size), 0);
      assert Fits(words, size);
      assert Upward(words, size, 0) != Wanted(words, size, 0);
    }
  }

  lemma LeastIs(words: seq<Word>, n: nat, r: int)
    requires n <= r < WORD_BITS * |words| && At(words, r) && forall i :: n <= i < r ==> !At(words, i)
    ensures LeastFrom(words, n) == r
  {}

  lemma NoneIs(words: seq<Word>, n: nat)
    requires forall i :: n <= i < WORD_BITS * |words| ==> !At(words, i)
    ensures LeastFrom(words, n) == -1
  {}

  // ------------------------------------------------------------------ the bitmap

  class Bitmap {
    const words: array<Word>
    const size: nat

    predicate Has(n: int)
      reads words
    {
      At(words[..], n)
    }

    /** No bit is ever set at or beyond the size. */
    ghost predicate Valid()
      reads words
    {
      1 <= size <= INT_MAX && words.Length == Blocks(size) && forall n :: n >= size ==> !Has(n)
    }

    predicate OutOfRange(n: int) { n < 0 || n >= size }

    constructor (size: nat, full: bool)
      requires 1 <= size <= INT_MAX
      ensures Valid() && this.size == size && fresh(words)
      ensures forall n :: Has(n) <==> full && 0 <= n < size
    {
      var blocks := Blocks(size);
      this.size := size;
      this.words := new Word[blocks](_ => if full then Ones(WORD_BITS) else Ones(0));
      new;
      if full {
        assert ToInt(ToInt(WORD_BITS * blocks) - size) == WORD_BITS * blocks - size;
        words[blocks - 1] := ShiftRight(words[blocks - 1], ToInt(ToInt(WORD_BITS * blocks) - size));
      }
      forall n
        ensures Has(n) <==> full && 0 <= n < size
      {
        if 0 <= n < WORD_BITS * blocks {
          Place(n, n / WORD_BITS, n % WORD_BITS);
        }
      }
    }

    /** new_bitmap */
    static method NewBitmap(size: int, initVal: int) returns (m: Bitmap?)
      requires size <= INT_MAX
      ensures m == null <==> size <= 0
      ensures m != null ==> fresh(m) && fresh(m.words) && m.Valid() && m.size == size
      ensures m != null ==> forall n :: m.Has(n) <==> initVal != 0 && 0 <= n < size
    {
      if size <= 0 {
        return null;
      }
      m := new Bitmap(size, initVal != 0);
    }

    /** bit_test */
    method BitTest(n: int) returns (bit: int)
      requires Valid()
      ensures bit == if Has(n) then 1 else 0
    {
      if OutOfRange(n) {
        return 0;
      }
      var block := n / WORD_BITS;
      var offset := n - block * WORD_BITS;
      Place(n, block, offset);
      var masked := And(words[block], OneBit(offset));
      assert masked == Ones(0) <==> !masked[offset];
      return if masked == Ones(0) then 0 else 1;
    }

    /** set_bit */
    method SetBit(n: int)
      requires Valid()
      modifies words
      ensures Valid()
      ensures forall i :: Has(i) <==> old(Has(i)) || (i == n && 0 <= n < size)
    {
      if OutOfRange(n) {
        return;
      }
      var block := n / WORD_BITS;
      var offset := n - block * WORD_BITS;
      Place(n, block, offset);
      ghost var before := words[..];
      assert forall i :: i >= size ==> !At(before, i) by {
        assert forall i :: Has(i) <==> At(before, i);
      }
      assert Or(words[block], OneBit(offset)) == words[block][offset := true];
      words[block] := Or(words[block], OneBit(offset));
      Changed(before, n, true);
    }

    /** clr_bit */
    method ClrBit(n: int)
      requires Valid()
      modifies words
      ensures Valid()
      ensures forall i :: Has(i) <==> old(Has(i)) && i != n
    {
      if OutOfRange(n) {
        return;
      }
      var block := n / WORD_BITS;
      var offset := n - block * WORD_BITS;
      Place(n, block, offset);
      ghost var before := words[..];
      assert forall i :: i >= size ==> !At(before, i) by {
        assert forall i :: Has(i) <==> At(before, i);
      }
      assert And(words[block], Not(OneBit(offset))) == words[block][offset := false];
      words[block] := And(words[block], Not(OneBit(offset)));
      Changed(before, n, false);
    }

    /** One bit of one word got the value `bit`. */
    lemma Changed(before: seq<Word>, n: nat, bit: bool)
      requires n < size && words.Length == Blocks(size) && |before| == words.Length
      requires var w := before[n / WORD_BITS];
               words[..] == before[n / WORD_BITS := w[n % WORD_BITS := bit]]
      ensures forall i :: Has(i) <==> if i == n then bit else At(before, i)
    {
      forall i
        ensures Has(i) <==> if i == n then bit else At(before, i)
      {
        if 0 <= i < WORD_BITS * |before| && i / WORD_BITS == n / WORD_BITS && i % WORD_BITS == n % WORD_BITS {
          SameBit(i, n);
        }
      }
    }

    lemma Within(n: int)
      requires 0 <= n < size <= WORD_BITS * words.Length
      ensures 0 <= n / WORD_BITS < words.Length
      ensures 0 <= n - n / WORD_BITS * WORD_BITS < WORD_BITS
      ensures (n + WORD_BITS) / WORD_BITS * WORD_BITS - 1 == n / WORD_BITS * WORD_BITS + WORD_BITS - 1
    {}

    /** upward_bit_test: the least one bit at or above `n`. */
    method UpwardBitTest(n: int) returns (r: Scan)
      requires Valid()
      ensures r == Upward(words[..], size, n)
      ensures r.Result? && r.index != -1 ==> r.index < size
    {
      if OutOfRange(n) {
        return Result(-1);
      }
      hide At, ShiftRight, Ffsl, ToInt, Blocks, Ones, LeastFrom;
      BlockBounds(size);
      ghost var all := words[..];
      Within(n);
      var block := n / WORD_BITS;
      var offset := n - block * WORD_BITS;
      var p := n;
      while true
        invariant 0 <= block <= words.Length && 0 <= offset < WORD_BITS
        invariant n <= WORD_BITS * block + offset
        invariant if block < words.Length then p == WORD_BITS * block + offset
                  else offset == 0 && WORD_BITS * words.Length > INT_MAX
        invariant forall i :: n <= i < WORD_BITS * block + offset ==> !At(all, i)
        decreases words.Length - block
      {
        if block == words.Length {
          NoneIs(all, n);
          return RanPast;
        }
        UpWord(all, block, offset);
        var blk := ShiftRight(words[block], offset);
        block := block + 1;
        if blk == Ones(0) {
          Sum(p + WORD_BITS - offset);
          p := ToInt(p + WORD_BITS - offset);
          offset := 0;
        } else {
          Sum(p + Ffsl(blk) - 1);
          p := ToInt(p + Ffsl(blk) - 1);
          LeastIs(all, n, p);
          assert Has(p);
          break;
        }
        if p >= size {
          assert forall i :: i >= size ==> Has(i) == At(all, i);
          NoneIs(all, n);
          break;
        }
      }
      return Result(if OutOfRange(p) then -1 else p);
    }

    /** downward_bit_test: the greatest one bit at or below `n`. */
    method DownwardBitTest(n: int) returns (r: int)
      requires Valid()
      ensures OutOfRange(n) ==> r == -1
      ensures !OutOfRange(n) && r == -1 ==> forall i :: i <= n ==> !Has(i)
      ensures r != -1 ==> 0 <= r <= n < size && Has(r) && forall i :: r < i <= n ==> !Has(i)
    {
      if OutOfRange(n) {
        return -1;
      }
      assert size <= WORD_BITS * words.Length;
      hide At, Upto, Bsfl, ToInt, Blocks, Ones;
      ghost var all := words[..];
      Within(n);
      var block := n / WORD_BITS;
      var offset := n - block * WORD_BITS;
      var p := (n + WORD_BITS) / WORD_BITS * WORD_BITS - 1;
      while true
        invariant 0 <= block < words.Length && 0 <= offset < WORD_BITS
        invariant p == WORD_BITS * block + WORD_BITS - 1 && WORD_BITS * block + offset <= n
        invariant forall i :: WORD_BITS * block + offset < i <= n ==> !At(all, i)
        decreases block
      {
        DownWord(all, block, offset);
        var blk := Upto(words[block], offset);
        block := block - 1;
        if blk == Ones(0) {
          Sum(p - WORD_BITS);
          p := ToInt(p - WORD_BITS);
          offset := WORD_BITS - 1;
        } else {
          Sum(p - (WORD_BITS - 1 - Bsfl(blk)));
          p := ToInt(p - (WORD_BITS - 1 - Bsfl(blk)));
          break;
        }
        if p < 0 {
          break;
        }
      }
      return if OutOfRange(p) then -1 else p;
    }
  }
}
