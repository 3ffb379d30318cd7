/**
  SizeMap::Init and the lookup of size classes (common.cc, common.h).  How many classes there
  are is whatever Init finds; that this is the number the arrays were sized for is checked by
  the original only when it runs.
  */
module SizeClasses {
  import Arith
  import opened Powers
  import opened SizeMap

  // ------------------------------------------------------------------ span sizes

  /** A span that wastes at most an eighth and holds enough objects. */
  ghost predicate Enough(psize: nat, size: nat, blocks: nat)
    requires size >= 1
  {
    psize % size <= psize / 8 && psize / size >= blocks
  }

  /** `pages` is the least number of pages, from one on, that makes such a span. */
  ghost predicate LeastSpan(mc: Machine, size: nat, blocks: nat, pages: nat)
    requires size >= 1
  {
    && pages >= 1
    && Enough(pages * mc.PageSize(), size, blocks)
    && forall n: nat :: 1 <= n < pages ==> !Enough(n * mc.PageSize(), size, blocks)
  }

  /** The two nested loops of Init. */
  method FindSpan(mc: Machine, size: nat, blocks: nat) returns (pages: nat)
    requires size >= 1
    ensures LeastSpan(mc, size, blocks, pages)
  {
    hide Pow2;
    var page := mc.PageSize();
    var psize := 0;
    pages := 0;
    while true
      invariant psize == pages * page
      invariant forall n: nat :: 1 <= n <= pages ==> !Enough(n * page, size, blocks)
      decreases (blocks + 8) * size - psize
    {
      ghost var psize0 := psize;
      psize := psize + page;
      pages := pages + 1;
      while psize % size > psize / 8
        invariant psize == pages * page && pages >= 1 && psize >= psize0 + page
        invariant forall n: nat :: 1 <= n < pages ==> !Enough(n * page, size, blocks)
        decreases 8 * size - psize
      {
        assert !Enough(pages * page, size, blocks);
        psize := psize + page;
        pages := pages + 1;
      }
      if psize / size >= blocks {
        return;
      }
      TooFew(psize, size, blocks);
    }
  }

  lemma TooFew(psize: nat, size: nat, blocks: nat)
    requires size >= 1 && psize / size < blocks
    ensures psize < (blocks + 8) * size
  {
    var q := psize / size;
    assert psize == size * q + psize % size;
    Arith.Order(size, q + 1, blocks);
    assert size * (q + 1) == size * q + size;
    assert (blocks + 8) * size == size * blocks + 8 * size;
  }

  /** A span that wastes at most an eighth holds an object. */
  lemma HoldsOne(psize: nat, size: nat, blocks: nat)
    requires size >= 1 && psize >= 1 && Enough(psize, size, blocks)
    ensures psize >= size && psize / size >= 1
  {
    Arith.SmallRemainder(psize, size);
    Arith.QuotientAtMost(psize, psize, size);
    assert psize / psize == 1;
  }

  // ------------------------------------------------------------------ the classes

  function Blocks(limit: int, size: nat): (blocks: nat)
    requires limit >= -3 && size >= 8
  {
    AskedFor(limit, size);
    Quarter(NumMoveSize(limit, size))
  }

  /** One size class: its pages are the least span for its size. */
  ghost predicate ClassOk(mc: Machine, limit: int, size: nat, pages: nat) {
    && limit >= -3 && 8 <= size <= MAX_SIZE
    && Divides(8, size) && (size >= MAX_SMALL_SIZE ==> Divides(128, size))
    && LeastSpan(mc, size, Blocks(limit, size), pages)
  }

  ghost predicate Increasing(sizes: seq<nat>) {
    forall i, j :: 0 <= i < j < |sizes| ==> sizes[i] < sizes[j]
  }

  /** Objects of a size in a span; size 0 stands for no class. */
  function Objects(mc: Machine, pages: nat, size: nat): nat {
    if size == 0 then 0 else pages * mc.PageSize() / size
  }

  /** Neighbouring classes differ in pages or in the number of objects that fit. */
  ghost predicate Differ(mc: Machine, sizes: seq<nat>, pages: seq<nat>, c: nat)
    requires 1 <= c < |sizes| == |pages|
  {
    pages[c] != pages[c - 1] || Objects(mc, pages[c], sizes[c]) != Objects(mc, pages[c - 1], sizes[c - 1])
  }

  /** The tables of Init.  Class 0 is that of size 0. */
  ghost predicate TablesOk(mc: Machine, limit: int, sizes: seq<nat>, pages: seq<nat>) {
    && |sizes| == |pages| >= 1 && sizes[0] == 0 && Increasing(sizes)
    && (forall c :: 1 <= c < |sizes| ==> ClassOk(mc, limit, sizes[c], pages[c]))
    && (forall c :: 2 <= c < |sizes| ==> Differ(mc, sizes, pages, c))
  }

  /** A size that is tried is served, by the smallest class with room for it, with its own least span, and as
      many of its objects fit in there as of the class. */
  ghost predicate ServesOwn(mc: Machine, limit: int, sizes: seq<nat>, pages: seq<nat>, s: nat, c: nat)
    requires limit >= -3 && c < |sizes| == |pages| && s >= 8
  {
    LeastSpan(mc, s, Blocks(limit, s), pages[c]) && Objects(mc, pages[c], s) == Objects(mc, pages[c], sizes[c])
  }

  /** So are all sizes below `upTo`. */
  ghost predicate Covered(mc: Machine, limit: int, sizes: seq<nat>, pages: seq<nat>, upTo: nat) {
    && limit >= -3 && |sizes| == |pages| >= 1
    && (forall s: nat :: Tried(mc, s) && s < upTo ==> s <= sizes[|sizes| - 1])
    && forall s: nat, c: nat :: Tried(mc, s) && s < upTo && IsSmallest(sizes, s, c) ==> ServesOwn(mc, limit, sizes, pages, s, c)
  }

  lemma MergeCovers(mc: Machine, limit: int, sizes: seq<nat>, pages: seq<nat>, size: nat)
    requires limit >= -3 && Covered(mc, limit, sizes, pages, size) && |sizes| >= 2 && 8 <= size && sizes[|sizes| - 1] < size
    requires Increasing(sizes) && LeastSpan(mc, size, Blocks(limit, size), pages[|pages| - 1])
    requires Objects(mc, pages[|pages| - 1], size) == Objects(mc, pages[|pages| - 1], sizes[|sizes| - 1])
    ensures Covered(mc, limit, sizes[|sizes| - 1 := size], pages, size + 1)
  {
    hide LeastSpan, Objects, Blocks, Tried;
    var last := |sizes| - 1;
    var sizes' := sizes[last := size];
    forall s: nat, c: nat | Tried(mc, s) && s < size + 1 && IsSmallest(sizes', s, c)
      ensures s >= 8 && ServesOwn(mc, limit, sizes', pages, s, c)
    {
      TriedIsEight(mc, s);
      if s < size {
        assert s <= sizes[last] && (c > 1 ==> sizes'[c - 1] == sizes[c - 1]);
        assert IsSmallest(sizes, s, c);
        assert ServesOwn(mc, limit, sizes, pages, s, c);
      }
    }
  }

  lemma AppendCovers(mc: Machine, limit: int, sizes: seq<nat>, pages: seq<nat>, size: nat, myPages: nat)
    requires limit >= -3 && Covered(mc, limit, sizes, pages, size) && 8 <= size && sizes[|sizes| - 1] < size
    requires sizes[0] == 0 && Increasing(sizes) && LeastSpan(mc, size, Blocks(limit, size), myPages)
    ensures Covered(mc, limit, sizes + [size], pages + [myPages], size + 1)
  {
    hide LeastSpan, Objects, Blocks, Tried;
    var sizes', pages' := sizes + [size], pages + [myPages];
    forall s: nat, c: nat | Tried(mc, s) && s < size + 1 && IsSmallest(sizes', s, c)
      ensures s >= 8 && ServesOwn(mc, limit, sizes', pages', s, c)
    {
      TriedIsEight(mc, s);
      if s < size {
        assert s <= sizes[|sizes| - 1] && sizes'[c - 1] == sizes[c - 1];
        assert IsSmallest(sizes, s, c);
        assert ServesOwn(mc, limit, sizes, pages, s, c);
      }
    }
  }

  lemma TriedIsEight(mc: Machine, s: nat)
    requires Tried(mc, s)
    ensures 8 <= s <= MAX_SIZE
  {}

  /** The next size that is tried follows. */
  lemma CoveredOn(mc: Machine, limit: int, sizes: seq<nat>, pages: seq<nat>, size: nat, alignment: nat)
    requires mc.Good() && Covered(mc, limit, sizes, pages, size + 1) && Tried(mc, size) && alignment == AlignmentOf(mc, size)
    ensures Covered(mc, limit, sizes, pages, size + alignment)
  {
    hide Tried, ServesOwn, IsSmallest;
    forall s: nat | Tried(mc, s) && s < size + alignment
      ensures s < size + 1
    {
      if s > size {
        NoneBetween(mc, size, s);
      }
    }
  }

  lemma NothingCovered(mc: Machine, limit: int)
    requires mc.Good() && limit >= -3
    ensures Covered(mc, limit, [0], [0], ALIGNMENT)
  {
    hide Divides;
  }

  lemma TablesIncrease(mc: Machine, limit: int, sizes: seq<nat>, pages: seq<nat>)
    requires TablesOk(mc, limit, sizes, pages)
    ensures |sizes| >= 1 && sizes[0] == 0 && Increasing(sizes)
  {}

  /** The loop that chooses the classes: the check of the alignment never fails, and the greatest
      class is for the greatest size. */
  method ChooseClasses(mc: Machine, limit: int) returns (sizes: seq<nat>, pages: seq<nat>)
    requires mc.Good() && limit >= -3
    ensures TablesOk(mc, limit, sizes, pages) && |sizes| >= 2 && sizes[|sizes| - 1] == MAX_SIZE
    ensures Covered(mc, limit, sizes, pages, MAX_SIZE + 1)
  {
    hide Pow2, HighBit, Divides, TablesOk, ClassOk, Covered, Increasing, LeastSpan;
    sizes, pages := [0], [0];
    var size := ALIGNMENT;
    NoClasses(mc, limit);
    NothingCovered(mc, limit);
    while size <= MAX_SIZE
      invariant TablesOk(mc, limit, sizes, pages) && |sizes| == |pages| >= 1
      invariant size >= 8 && sizes[|sizes| - 1] < size
      invariant if size <= MAX_SIZE then Divides(AlignmentOf(mc, size), size) else sizes[|sizes| - 1] == MAX_SIZE
      invariant size > 8 ==> |sizes| >= 2
      invariant Covered(mc, limit, sizes, pages, size)
      decreases MAX_SIZE + 1 - size
    {
      var alignment := AlignmentForSize(mc, size);
      CheckedSize(mc, size, alignment);
      assert size % alignment == 0;
      var blocks := Blocks(limit, size);
      var myPages := FindSpan(mc, size, blocks);
      NewClassOk(mc, limit, size, myPages);
      TablesIncrease(mc, limit, sizes, pages);
      var sc := |sizes|;
      if sc > 1 && myPages == pages[sc - 1] && Objects(mc, myPages, size) == Objects(mc, pages[sc - 1], sizes[sc - 1]) {
        MergeClass(mc, limit, sizes, pages, size);
        MergeCovers(mc, limit, sizes, pages, size);
        sizes := sizes[sc - 1 := size];
      } else {
        AppendClass(mc, limit, sizes, pages, size, myPages);
        AppendCovers(mc, limit, sizes, pages, size, myPages);
        sizes, pages := sizes + [size], pages + [myPages];
      }
      NextSize(mc, size);
      CoveredOn(mc, limit, sizes, pages, size, alignment);
      size := size + alignment;
    }
    CoveredAll(mc, limit, sizes, pages, size);
  }

  lemma CoveredAll(mc: Machine, limit: int, sizes: seq<nat>, pages: seq<nat>, size: nat)
    requires Covered(mc, limit, sizes, pages, size) && size > MAX_SIZE
    ensures Covered(mc, limit, sizes, pages, MAX_SIZE + 1)
  {
    hide Tried, ServesOwn;
  }

  lemma NoClasses(mc: Machine, limit: int)
    requires mc.Good()
    ensures TablesOk(mc, limit, [0], [0])
    ensures Divides(AlignmentOf(mc, ALIGNMENT), ALIGNMENT)
  {}

  lemma CheckedSize(mc: Machine, size: nat, alignment: nat)
    requires mc.Good() && 8 <= size && alignment == AlignmentOf(mc, size) && Divides(alignment, size)
    ensures alignment >= 1 && size % alignment == 0
  {}

  lemma NewClassOk(mc: Machine, limit: int, size: nat, pages: nat)
    requires mc.Good() && limit >= -3 && 8 <= size <= MAX_SIZE && Divides(AlignmentOf(mc, size), size)
    requires LeastSpan(mc, size, Blocks(limit, size), pages)
    ensures ClassOk(mc, limit, size, pages)
  {
    hide LeastSpan;
    EightDivides(mc, size);
    if size >= MAX_SMALL_SIZE {
      LargeSizes(mc, size);
    }
  }

  lemma EightDivides(mc: Machine, size: nat)
    requires mc.Good() && 8 <= size <= MAX_SIZE && Divides(AlignmentOf(mc, size), size)
    ensures Divides(8, size)
  {
    if size >= 128 {
      hide HighBit, Divides;
      var k, a := LargeSize(mc, size);
      assert Pow2(3) == 8 && Pow2(4) == 16;
      hide Pow2;
      if a < 3 {
        Pow2Grows(a, 3);
      }
      Pow2Divides(3, a);
      Coarser(size, Pow2(a), 8);
    }
  }

  lemma MergeClass(mc: Machine, limit: int, sizes: seq<nat>, pages: seq<nat>, size: nat)
    requires TablesOk(mc, limit, sizes, pages) && |sizes| == |pages| >= 2 && sizes[|sizes| - 1] < size
    requires ClassOk(mc, limit, size, pages[|pages| - 1])
    requires Objects(mc, pages[|pages| - 1], size) == Objects(mc, pages[|pages| - 1], sizes[|sizes| - 1])
    ensures TablesOk(mc, limit, sizes[|sizes| - 1 := size], pages)
  {
    var last := |sizes| - 1;
    assert ClassOk(mc, limit, sizes[last], pages[last]);
    var sizes' := sizes[last := size];
    hide ClassOk, Objects;
    forall c | 2 <= c < |sizes'|
      ensures Differ(mc, sizes', pages, c)
    {
      assert Differ(mc, sizes, pages, c);
    }
  }

  lemma AppendClass(mc: Machine, limit: int, sizes: seq<nat>, pages: seq<nat>, size: nat, myPages: nat)
    requires TablesOk(mc, limit, sizes, pages) && |sizes| == |pages| >= 1 && sizes[|sizes| - 1] < size
    requires ClassOk(mc, limit, size, myPages)
    requires |sizes| > 1 ==> myPages != pages[|pages| - 1]
                             || Objects(mc, myPages, size) != Objects(mc, pages[|pages| - 1], sizes[|sizes| - 1])
    ensures TablesOk(mc, limit, sizes + [size], pages + [myPages])
  {
    hide ClassOk, Objects;
    var sizes', pages' := sizes + [size], pages + [myPages];
    forall c | 2 <= c < |sizes'|
      ensures Differ(mc, sizes', pages', c)
    {
      if c < |sizes| {
        assert Differ(mc, sizes, pages, c);
      }
    }
  }

  // ------------------------------------------------------------------ from sizes to classes

  /** ClassIndex: sizes up to 1024 by eights, greater ones by 128s, flattened into one array. */
  function ClassIndex(size: nat): (i: nat)
    ensures size <= MAX_SIZE ==> i < CLASS_ARRAY_SIZE
    ensures size == 0 ==> i == 0
  {
    if size <= MAX_SMALL_SIZE then (size + 7) / 8 else (size + 127 + 15360) / 128
  }

  /** `c` is the smallest class whose objects have room for `size` bytes. */
  ghost predicate IsSmallest(sizes: seq<nat>, size: nat, c: nat) {
    1 <= c < |sizes| && size <= sizes[c] && (c == 1 || sizes[c - 1] < size)
  }

  /** Sizes of the same index have the same class: no class ends between them. */
  lemma SameIndex(mc: Machine, limit: int, sizes: seq<nat>, pages: seq<nat>, a: nat, b: nat, c: nat)
    requires TablesOk(mc, limit, sizes, pages) && a <= MAX_SIZE && b <= MAX_SIZE && ClassIndex(a) == ClassIndex(b)
    requires IsSmallest(sizes, b, c)
    ensures IsSmallest(sizes, a, c)
  {
    assert ClassOk(mc, limit, sizes[c], pages[c]);
    assert c > 1 ==> ClassOk(mc, limit, sizes[c - 1], pages[c - 1]);
    hide LeastSpan, Increasing, Differ, Divides, ClassIndex;
    SameSide(a, b, sizes[c]);
    if c > 1 {
      SameSide(a, b, sizes[c - 1]);
    }
  }

  /** No class ends between sizes of the same index. */
  lemma SameSide(a: nat, b: nat, end: nat)
    requires ClassIndex(a) == ClassIndex(b)
    requires Divides(8, end) && (end >= MAX_SMALL_SIZE ==> Divides(128, end))
    ensures a <= end <==> b <= end
  {
    hide ClassIndex;
    if end < MAX_SMALL_SIZE {
      SmallSide(a, end / 8);
      SmallSide(b, end / 8);
    } else {
      LargeSide(a, end / 128);
      LargeSide(b, end / 128);
    }
  }

  lemma SmallSide(size: nat, n: nat)
    requires 8 * n < MAX_SMALL_SIZE
    ensures size <= 8 * n <==> ClassIndex(size) <= n
  {
    if size <= MAX_SMALL_SIZE {
      var i := (size + 7) / 8;
      assert 8 * i <= size + 7 < 8 * i + 8;
    }
  }

  lemma LargeSide(size: nat, n: nat)
    requires 128 * n >= MAX_SMALL_SIZE
    ensures size <= 128 * n <==> ClassIndex(size) <= n + 120
  {
    if size > MAX_SMALL_SIZE {
      var i := (size + 127 + 15360) / 128;
      assert 128 * i <= size + 127 + 15360 < 128 * i + 128;
    }
  }

  /** A size and the next multiple of eight have the same index. */
  lemma EightIndex(size: nat, up: nat)
    requires Divides(8, up) && size <= up < size + 8
    ensures ClassIndex(size) == ClassIndex(up)
  {
    var n := up / 8;
    assert up == 8 * n;
    if size > MAX_SMALL_SIZE {
      assert (size + 15487) / 128 == (up + 15487) / 128;
    }
  }

  /** All sizes up to `upTo` are looked up rightly. */
  ghost predicate FilledTo(classArray: seq<nat>, sizes: seq<nat>, upTo: int) {
    |classArray| == CLASS_ARRAY_SIZE
    && forall size :: 0 <= size <= upTo && size <= MAX_SIZE ==> IsSmallest(sizes, size, classArray[ClassIndex(size)])
  }

  /** One more entry: it is right for all sizes of its index, and no other's is overwritten. */
  lemma FillOne(mc: Machine, limit: int, sizes: seq<nat>, pages: seq<nat>, before: seq<nat>, s: nat, c: nat, after: seq<nat>)
    requires TablesOk(mc, limit, sizes, pages) && FilledTo(before, sizes, s - 8)
    requires s <= MAX_SIZE && Divides(8, s) && IsSmallest(sizes, s, c)
    requires after == before[ClassIndex(s) := c]
    ensures FilledTo(after, sizes, s)
  {
    hide TablesOk, ClassIndex, IsSmallest;
    forall size: nat | size <= s && size <= MAX_SIZE
      ensures IsSmallest(sizes, size, after[ClassIndex(size)])
    {
      if size > s - 8 {
        EightIndex(size, s);
      }
      if ClassIndex(size) == ClassIndex(s) {
        SameIndex(mc, limit, sizes, pages, size, s, c);
      }
    }
  }

  class SizeTable {
    const mc: Machine
    var classToSize: seq<nat>
    var classToPages: seq<nat>
    const classArray: array<nat>
    var numObjectsToMove: seq<int>

    /** What the tables are there for: every size up to the greatest is served from the smallest
        class that has room for it. */
    ghost predicate Valid(limit: int)
      reads this, classArray
    {
      && mc.Good() && classArray.Length == CLASS_ARRAY_SIZE
      && TablesOk(mc, limit, classToSize, classToPages)
      && |classToSize| >= 2 && classToSize[|classToSize| - 1] == MAX_SIZE
      && Covered(mc, limit, classToSize, classToPages, MAX_SIZE + 1)
      && FilledTo(classArray[..], classToSize, MAX_SIZE)
      && |numObjectsToMove| == |classToSize|
      && forall c :: 1 <= c < |classToSize| ==> numObjectsToMove[c] == NumMoveSize(limit, classToSize[c])
    }

    constructor (mc: Machine)
      requires mc.Good()
      ensures this.mc == mc && classArray.Length == CLASS_ARRAY_SIZE && fresh(classArray)
    {
      this.mc := mc;
      classToSize, classToPages, numObjectsToMove := [], [], [];
      classArray := new nat[CLASS_ARRAY_SIZE];
    }

    method Init(limit: int)
      requires mc.Good() && limit >= -3 && classArray.Length == CLASS_ARRAY_SIZE
      modifies this, classArray
      ensures Valid(limit)
    {
      classToSize, classToPages := ChooseClasses(mc, limit);
      FillClassArray(limit);
      numObjectsToMove := NumObjects(limit, classToSize);
    }

    /** The last loop of Init. */
    method NumObjects(limit: int, sizes: seq<nat>) returns (num: seq<int>)
      requires |sizes| >= 1
      ensures |num| == |sizes| && forall c :: 1 <= c < |sizes| ==> num[c] == NumMoveSize(limit, sizes[c])
    {
      num := [0];
      for c := 1 to |sizes|
        invariant |num| == c && forall d :: 1 <= d < c ==> num[d] == NumMoveSize(limit, sizes[d])
      {
        num := num + [NumMoveSize(limit, sizes[c])];
      }
    }

    /** The loops that fill the array, every eight bytes. */
    method FillClassArray(limit: int)
      requires classArray.Length == CLASS_ARRAY_SIZE
      requires TablesOk(mc, limit, classToSize, classToPages)
      requires |classToSize| >= 2 && classToSize[|classToSize| - 1] == MAX_SIZE
      modifies classArray
      ensures FilledTo(classArray[..], classToSize, MAX_SIZE)
    {
      hide TablesOk, FilledTo, ClassIndex, IsSmallest, Divides;
      var nextSize := 0;
      NothingFilled(classArray[..], classToSize);
      for c := 1 to |classToSize|
        invariant FilledTo(classArray[..], classToSize, nextSize - 8)
        invariant nextSize == if c == 1 then 0 else classToSize[c - 1] + ALIGNMENT
      {
        ClassBounds(mc, limit, classToSize, classToPages, c);
        var maxSizeInClass := classToSize[c];
        var s := nextSize;
        while s <= maxSizeInClass
          invariant nextSize <= s && (s <= maxSizeInClass || s == maxSizeInClass + ALIGNMENT) && Divides(8, s)
          invariant FilledTo(classArray[..], classToSize, s - 8)
        {
          ghost var before := classArray[..];
          InClass(classToSize, c, s);
          IndexFits(s);
          classArray[ClassIndex(s)] := c;
          FillOne(mc, limit, classToSize, classToPages, before, s, c, classArray[..]);
          NextEight(s, maxSizeInClass);
          s := s + ALIGNMENT;
        }
        nextSize := maxSizeInClass + ALIGNMENT;
      }
    }

    /** SizeClass */
    method SizeClass(size: nat, ghost limit: int) returns (c: nat)
      requires Valid(limit) && size <= MAX_SIZE
      ensures IsSmallest(classToSize, size, c)
    {
      c := classArray[ClassIndex(size)];
      assert classArray[..][ClassIndex(size)] == c;
    }
  }

  lemma NothingFilled(classArray: seq<nat>, sizes: seq<nat>)
    requires |classArray| == CLASS_ARRAY_SIZE
    ensures FilledTo(classArray, sizes, -8)
  {}

  lemma ClassBounds(mc: Machine, limit: int, sizes: seq<nat>, pages: seq<nat>, c: nat)
    requires TablesOk(mc, limit, sizes, pages) && 1 <= c < |sizes|
    ensures |pages| == |sizes| && 8 <= sizes[c] <= MAX_SIZE && Divides(8, sizes[c]) && Divides(8, 0)
    ensures c > 1 ==> sizes[c - 1] + 8 <= sizes[c] && Divides(8, sizes[c - 1] + 8)
  {
    assert ClassOk(mc, limit, sizes[c], pages[c]);
    if c > 1 {
      assert ClassOk(mc, limit, sizes[c - 1], pages[c - 1]);
      SumDivides(sizes[c - 1], sizes[c], 8);
      SumDivides(sizes[c - 1], 8, 8);
    }
  }

  lemma InClass(sizes: seq<nat>, c: nat, s: nat)
    requires 1 <= c < |sizes| && s <= sizes[c] && (c > 1 ==> sizes[c - 1] + 8 <= s)
    ensures IsSmallest(sizes, s, c)
  {}

  lemma IndexFits(s: nat)
    requires s <= MAX_SIZE
    ensures ClassIndex(s) < CLASS_ARRAY_SIZE
  {}

  lemma NextEight(s: nat, end: nat)
    requires Divides(8, s) && Divides(8, end) && s <= end
    ensures Divides(8, s + 8) && (s < end ==> s + 8 <= end)
  {
    SumDivides(s, 8, 8);
    SumDivides(s, end, 8);
  }

  /** The class the lookup gives serves with its span at least one object and at most an eighth of waste, and no
      smaller span would, with as many objects.  A size that Init tried gets the span it would get alone, and
      no fewer objects in it. */
  lemma ClassServes(mc: Machine, limit: int, sizes: seq<nat>, pages: seq<nat>, size: nat, c: nat)
    requires mc.Good() && TablesOk(mc, limit, sizes, pages) && IsSmallest(sizes, size, c)
    requires Covered(mc, limit, sizes, pages, MAX_SIZE + 1)
    ensures |pages| == |sizes|
    ensures var bytes := pages[c] * mc.PageSize();
            && sizes[c] >= 8 && bytes / sizes[c] >= 1
            && bytes - bytes / sizes[c] * sizes[c] <= bytes / 8
            && bytes / sizes[c] >= Quarter(NumMoveSize(limit, sizes[c]))
    ensures forall n: nat :: 1 <= n < pages[c] ==>
              var bytes := n * mc.PageSize();
              bytes % sizes[c] > bytes / 8 || bytes / sizes[c] < Quarter(NumMoveSize(limit, sizes[c]))
    ensures Tried(mc, size) ==>
              && LeastSpan(mc, size, Blocks(limit, size), pages[c])
              && pages[c] * mc.PageSize() / size == pages[c] * mc.PageSize() / sizes[c]
    ensures forall d :: 1 <= d < |sizes| ==> (size <= sizes[d] <==> c <= d)
  {
    assert ClassOk(mc, limit, sizes[c], pages[c]);
    assert Increasing(sizes);
    assert Tried(mc, size) ==> ServesOwn(mc, limit, sizes, pages, size, c);
    hide Pow2, NumMoveSize, Quarter, Divides, TablesOk, Covered, Tried;
    SpanServes(mc, sizes[c], Blocks(limit, sizes[c]), pages[c]);
    hide LeastSpan;
  }

  lemma SpanServes(mc: Machine, size: nat, blocks: nat, pages: nat)
    requires size >= 1 && LeastSpan(mc, size, blocks, pages)
    ensures var bytes := pages * mc.PageSize();
            && bytes / size >= 1 && bytes - bytes / size * size <= bytes / 8 && bytes / size >= blocks
    ensures forall n: nat :: 1 <= n < pages ==>
              var bytes := n * mc.PageSize(); bytes % size > bytes / 8 || bytes / size < blocks
  {
    hide Pow2, Enough, Machine.PageSize;
    var bytes := pages * mc.PageSize();
    PagesPositive(mc, pages);
    EnoughServes(bytes, size, blocks);
    forall n: nat | 1 <= n < pages
      ensures var bytes := n * mc.PageSize(); bytes % size > bytes / 8 || bytes / size < blocks
    {
      assert !Enough(n * mc.PageSize(), size, blocks);
      TooLittle(n * mc.PageSize(), size, blocks);
    }
  }

  lemma PagesPositive(mc: Machine, pages: nat)
    requires pages >= 1
    ensures pages * mc.PageSize() >= 1
  {
    hide Pow2;
    Arith.Order(mc.PageSize(), 0, pages);
  }

  lemma TooLittle(bytes: nat, size: nat, blocks: nat)
    requires size >= 1
    ensures Enough(bytes, size, blocks) <==> bytes % size <= bytes / 8 && bytes / size >= blocks
  {}

  lemma EnoughServes(bytes: nat, size: nat, blocks: nat)
    requires size >= 1 && bytes >= 1 && Enough(bytes, size, blocks)
    ensures bytes / size >= 1 && bytes - bytes / size * size <= bytes / 8 && bytes / size >= blocks
  {
    HoldsOne(bytes, size, blocks);
    assert bytes == size * (bytes / size) + bytes % size;
  }
}
