/**
  Where monit_chunk puts the samples of a chunk, and how many cycles it asks for
  (get_nr_sample, get_sample_addr and get_base_sample_cycle of chunk_monitor.c).
  The result of pow(pages, 0.65) is any number from 1 to the number of pages, and what
  rand() yields is any number.  A chunk ends below the top of the address space.
  */
module SamplePlacement {
  import Arith
  import opened Config
  import opened Powers

  /** addr & PAGE_MASK */
  function PageDown(addr: nat): (r: nat)
    ensures r % PAGE_SIZE == 0 && r <= addr < r + PAGE_SIZE
  {
    addr / PAGE_SIZE * PAGE_SIZE
  }

  function PageUp(addr: nat): nat {
    PageDown(addr + PAGE_SIZE - 1)
  }

  /** get_nr_sample, for a `range` whose pow() came out as `density`. */
  function NrSample(range: nat, density: nat): nat {
    if density < range / PAGE_SIZE then density + 1 else density
  }

  /** The bytes a sampled chunk of `size` bytes is taken to have, at least. */
  function Extent(size: nat): nat {
    if size > SMALL_MEMORY_CHUNK then size else SMALL_MEMORY_CHUNK
  }

  /** The part of a chunk that monit_chunk watches. */
  function Start(addr: nat): nat { PageUp(addr) }

  function End(addr: nat, size: nat): nat { PageDown(addr + Extent(size)) }

  /** Every chunk, however small, has at least one whole page to watch, inside its first
      max(size, 8192) bytes. */
  lemma WatchedRange(addr: nat, size: nat)
    ensures addr <= Start(addr) && Start(addr) + PAGE_SIZE <= End(addr, size)
    ensures End(addr, size) <= addr + Extent(size)
    ensures (End(addr, size) - Start(addr)) % PAGE_SIZE == 0
  {}

  /** Chunks whose extents do not overlap. */
  predicate Apart(addr: nat, size: nat, addr': nat, size': nat) {
    addr + Extent(size) <= addr' || addr' + Extent(size') <= addr
  }

  /** Their watched parts do not meet. */
  lemma ApartWatched(addr: nat, size: nat, addr': nat, size': nat)
    requires Apart(addr, size, addr', size')
    ensures End(addr, size) <= Start(addr') || End(addr', size') <= Start(addr)
  {
    WatchedRange(addr, size);
    WatchedRange(addr', size');
  }

  /** NightWatch_size_demand: how much is allocated for `size` bytes, in a context that is going to skip
      `skip` chunks. */
  function SizeDemand(size: nat, skip: int): nat {
    if skip == 0 && size < SMALL_MEMORY_CHUNK then SMALL_MEMORY_CHUNK else size
  }

  /** The test with which NightWatch_sampling passes a chunk over. */
  predicate Skipped(size: nat, skip: int, last: nat) {
    skip > 0 && (size < SMALL_MEMORY_CHUNK || (last == size && size < LARGE_MEMORY_CHUNK))
  }

  /** So every chunk that is monitored has its extent allocated, exactly if the number of chunks to skip
      is not negative (it is doubled as an int, and might overflow in the end). */
  lemma SampledIsWhole(skip: int)
    ensures (forall size: nat, last: nat :: Skipped(size, skip, last) || SizeDemand(size, skip) == Extent(size)) <==> skip >= 0
  {
    if skip < 0 {
      assert !Skipped(0, skip, 0) && SizeDemand(0, skip) != Extent(0);
    }
  }

  /** For monit_chunk alone: the watched part of a chunk reaches into that of a later chunk exactly if
      the first is small and the later one starts before the end of its extent, close enough. */
  lemma NeighboursMeet(addr: nat, size: nat, next: nat)
    requires addr + size <= next
    ensures Start(next) < End(addr, size) <==> size < SMALL_MEMORY_CHUNK && Start(next) < PageDown(addr + SMALL_MEMORY_CHUNK)
  {
    if size >= SMALL_MEMORY_CHUNK {
      PageDownGrows(addr + size, next);
    }
  }

  /** get_sample_addr without its last line: the address it comes to before the clamp. */
  function Unclamped(start: nat, range: nat, i: nat, n: nat, random: nat): int
    requires 1 <= n <= range
  {
    var part := range / n;
    var offset := PageDown(random % part + i * part);
    var bound := PageDown((i + 1) * part);
    start + if offset >= bound then bound - PAGE_SIZE else offset
  }

  function SampleAddr(start: nat, end: nat, range: nat, i: nat, n: nat, random: nat): int
    requires 1 <= n <= range
  {
    var addr := Unclamped(start, range, i, n, random);
    if addr >= end then end - PAGE_SIZE else addr
  }

  lemma PartsArePages(range: nat, n: nat)
    requires 1 <= n <= range / PAGE_SIZE
    ensures n <= range && range / n >= PAGE_SIZE && range / n * n <= range
  {
    var q, r := range / n, range % n;
    assert range == q * n + r;
    assert (q + 1) * n == q * n + n;
    assert PAGE_SIZE * n <= range;
    Arith.Order(n, PAGE_SIZE, q + 1);
  }

  lemma PageDownGrows(a: nat, b: nat)
    requires a <= b
    ensures PageDown(a) <= PageDown(b)
    ensures a + PAGE_SIZE <= b ==> PageDown(a) + PAGE_SIZE <= PageDown(b)
  {}

  lemma Aligned(a: nat, b: nat)
    requires a % PAGE_SIZE == 0 && b % PAGE_SIZE == 0
    ensures (a + b) % PAGE_SIZE == 0
    ensures a < b ==> a + PAGE_SIZE <= b
    ensures a >= PAGE_SIZE ==> (a - PAGE_SIZE) % PAGE_SIZE == 0
  {
    var i, j := a / PAGE_SIZE, b / PAGE_SIZE;
    assert a == 4096 * i && b == 4096 * j;
    Multiple(i + j);
    Multiple(i - 1);
  }

  lemma Multiple(i: int)
    ensures 4096 * i % PAGE_SIZE == 0
  {}

  /** The i-th part of `part` bytes ends inside the range. */
  lemma PartBounds(range: nat, i: nat, n: nat, part: nat, rest: nat)
    requires i < n && part * n <= range && rest < part
    ensures i * part <= rest + i * part
    ensures (i + 1) * part == i * part + part <= range
  {
    Arith.Order(part, i + 1, n);
  }

  /** Sample `i` lies in the i-th part of the range, rounded down to pages. */
  lemma InItsPart(start: nat, range: nat, i: nat, n: nat, random: nat)
    requires 1 <= n <= range / PAGE_SIZE && i < n && start % PAGE_SIZE == 0
    ensures n <= range
    ensures var part, a := range / n, Unclamped(start, range, i, n, random);
            && a % PAGE_SIZE == 0
            && start + PageDown(i * part) <= a
            && a + PAGE_SIZE <= start + PageDown((i + 1) * part)
            && a + PAGE_SIZE <= start + range
  {
    PartsArePages(range, n);
    var part := range / n;
    var rest := random % part;
    PartBounds(range, i, n, part, rest);
    var low, offset, bound := PageDown(i * part), PageDown(rest + i * part), PageDown((i + 1) * part);
    PageDownGrows(i * part, rest + i * part);
    PageDownGrows(i * part, (i + 1) * part);
    hide PageDown;
    var inside := if offset >= bound then bound - PAGE_SIZE else offset;
    Aligned(bound, 0);
    Aligned(offset, bound);
    Aligned(start, inside);
    assert Unclamped(start, range, i, n, random) == start + inside;
  }

  /** Which pages sample `i` may get, depending on rand(): all whole pages of the i-th part, and no others. */
  lemma MayGet(start: nat, range: nat, i: nat, n: nat, page: int)
    requires 1 <= n <= range / PAGE_SIZE && i < n && start % PAGE_SIZE == 0
    ensures n <= range
    ensures var part := range / n;
            (exists random: nat :: Unclamped(start, range, i, n, random) == page)
            <==> page % PAGE_SIZE == 0 && start + PageDown(i * part) <= page
                 && page + PAGE_SIZE <= start + PageDown((i + 1) * part)
  {
    PartsArePages(range, n);
    var part := range / n;
    if random: nat :| Unclamped(start, range, i, n, random) == page {
      InItsPart(start, range, i, n, random);
    }
    hide Unclamped, PageDown;
    if page % PAGE_SIZE == 0 && start + PageDown(i * part) <= page && page + PAGE_SIZE <= start + PageDown((i + 1) * part) {
      Reaches(start, range, i, n, part, page);
    }
  }

  /** The number with which rand() gives sample `i` this page. */
  lemma Reaches(start: nat, range: nat, i: nat, n: nat, part: nat, page: int)
    requires 1 <= n <= range && part == range / n >= 1 && start % PAGE_SIZE == 0 && page % PAGE_SIZE == 0
    requires start + PageDown(i * part) <= page && page + PAGE_SIZE <= start + PageDown((i + 1) * part)
    ensures exists random: nat :: Unclamped(start, range, i, n, random) == page
  {
    var low, high := i * part, (i + 1) * part;
    assert high == low + part;
    var offset: nat := page - start;
    var random: nat := if offset < low then 0 else offset - low;
    hide PageDown;
    Difference(page, start);
    OnItsPage(offset, low);
    Below(high);
    Arith.SmallRemainder(random, part);
    assert Unclamped(start, range, i, n, random) == page;
  }

  lemma Below(a: nat)
    ensures PageDown(a) <= a
  {}

  lemma Difference(a: int, b: int)
    requires a % PAGE_SIZE == 0 && b % PAGE_SIZE == 0
    ensures (a - b) % PAGE_SIZE == 0
  {}

  lemma OnItsPage(offset: nat, from: nat)
    requires offset % PAGE_SIZE == 0 && PageDown(from) <= offset
    ensures PageDown(if offset < from then from else offset) == offset
  {}

  /** So the last page that is watched may get a sample exactly if the range is a multiple of the number of
      samples, and otherwise never does. */
  lemma LastPage(start: nat, range: nat, n: nat)
    requires 1 <= n <= range / PAGE_SIZE && start % PAGE_SIZE == 0 && range % PAGE_SIZE == 0
    ensures n <= range
    ensures (exists i: nat, random: nat :: i < n && Unclamped(start, range, i, n, random) == start + range - PAGE_SIZE)
            <==> range % n == 0
  {
    PartsArePages(range, n);
    var part, page := range / n, start + range - PAGE_SIZE;
    Remainder(range, n, part);
    hide Unclamped, PageDown;
    if i: nat, random: nat :| i < n && Unclamped(start, range, i, n, random) == page {
      NotBeyond(start, range, i, n, random, part);
    }
    if range % n == 0 {
      LastReached(start, range, n, part, page);
    }
  }

  lemma NotBeyond(start: nat, range: nat, i: nat, n: nat, random: nat, part: nat)
    requires 1 <= n <= range / PAGE_SIZE && i < n && start % PAGE_SIZE == 0 && part == range / n >= 1 && n <= range
    ensures Unclamped(start, range, i, n, random) + PAGE_SIZE <= start + n * part
  {
    InItsPart(start, range, i, n, random);
    hide Unclamped, PageDown;
    Below((i + 1) * part);
    PartsInside(i, n, part);
  }

  lemma PartsInside(i: nat, n: nat, part: nat)
    requires i < n
    ensures (i + 1) * part <= n * part
  {
    assert n * part - (i + 1) * part == (n - (i + 1)) * part;
  }

  lemma Remainder(range: nat, n: nat, part: nat)
    requires n >= 1 && part == range / n
    ensures n * part <= range && (n * part == range <==> range % n == 0)
  {
    assert range == n * part + range % n;
  }

  lemma LastReached(start: nat, range: nat, n: nat, part: nat, page: int)
    requires 1 <= n <= range / PAGE_SIZE && part == range / n && n * part == range && page == start + range - PAGE_SIZE
    requires start % PAGE_SIZE == 0 && range % PAGE_SIZE == 0
    ensures exists i: nat, random: nat :: i < n && n <= range && Unclamped(start, range, i, n, random) == page
  {
    hide Unclamped;
    PartsArePages(range, n);
    var low := (n - 1) * part;
    assert (n - 1 + 1) * part == range && low + part == range;
    PageDownGrows(low + PAGE_SIZE, range);
    NextPageDown(low);
    OnItsPage(range, range);
    Aligned(start, range);
    hide PageDown;
    Difference(start + range, PAGE_SIZE);
    Reaches(start, range, n - 1, n, part, page);
  }

  lemma NextPageDown(a: nat)
    ensures PageDown(a + PAGE_SIZE) == PageDown(a) + PAGE_SIZE
  {}

  /** For every chunk and whatever rand() and pow() yield: there is at least one sample; the
      samples are on pages, in increasing order, inside the watched range; and the clamp of
      get_sample_addr never takes effect. */
  lemma Placement(addr: nat, size: nat, density: nat, random: int -> nat)
    requires 1 <= density <= (End(addr, size) - Start(addr)) / PAGE_SIZE
    ensures var (start, end) := (Start(addr), End(addr, size));
            var range: nat := end - start;
            var n := NrSample(range, density);
            && 1 <= n <= range / PAGE_SIZE
            && AllPlaced(start, end, n, random)
  {
    WatchedRange(addr, size);
    var start, end := Start(addr), End(addr, size);
    var range: nat := end - start;
    var n := NrSample(range, density);
    forall i | 0 <= i < n
      ensures Placed(start, end, i, n, random(i))
    {
      InItsPart(start, range, i, n, random(i));
    }
    forall i | 0 <= i < n - 1
      ensures InOrder(start, end, i, n, random(i), random(i + 1))
    {
      InItsPart(start, range, i, n, random(i));
      InItsPart(start, range, i + 1, n, random(i + 1));
    }
  }

  /** Were monit_chunk given chunks of 16 bytes at 4096 and at 4112, whose extents overlap: whatever
      rand() yielded, each would get a sample on the page at 8192. */
  lemma NeighboursClash(random: nat, random': nat)
    ensures NrSample(End(4096, 16) - Start(4096), 1) == 2 && NrSample(End(4112, 16) - Start(4112), 1) == 1
    ensures SampleAddr(Start(4096), End(4096, 16), End(4096, 16) - Start(4096), 1, 2, random) == 8192
    ensures SampleAddr(Start(4112), End(4112, 16), End(4112, 16) - Start(4112), 0, 1, random') == 8192
  {
    var part := (End(4096, 16) - Start(4096)) / 2;
    assert part == 4096 && PageDown(random % part + 1 * part) == 4096;
  }

  ghost predicate Placed(start: nat, end: nat, i: nat, n: nat, random: nat) {
    && start <= end && 1 <= n <= end - start
    && var a := SampleAddr(start, end, end - start, i, n, random);
       && a % PAGE_SIZE == 0 && start <= a && a + PAGE_SIZE <= end
       && a == Unclamped(start, end - start, i, n, random)
  }

  /** All samples are placed well, each behind the one before. */
  ghost predicate AllPlaced(start: nat, end: nat, n: nat, random: int -> nat) {
    && (forall i :: 0 <= i < n ==> Placed(start, end, i, n, random(i)))
    && (forall i :: 0 <= i < n - 1 ==> InOrder(start, end, i, n, random(i), random(i + 1)))
  }

  ghost predicate InOrder(start: nat, end: nat, i: nat, n: nat, random: nat, random': nat) {
    && start <= end && 1 <= n <= end - start
    && SampleAddr(start, end, end - start, i, n, random) + PAGE_SIZE
         <= SampleAddr(start, end, end - start, i + 1, n, random')
  }

  // ------------------------------------------------------------------ cycles of a round

  ghost predicate IsBaseCycle(range: nat, cycle: nat) {
    && MIN_SAMPLE_CYCLE <= cycle <= MAX_SAMPLE_CYCLE
    && (cycle < MAX_SAMPLE_CYCLE ==> range / 16384 < Pow2(cycle - 2))
    && (cycle > MIN_SAMPLE_CYCLE ==> range / 16384 >= Pow2(cycle - 3))
  }

  /** A chunk of 290 pages, whose pow() comes to 39, has 40 samples and needs 8 cycles. */
  lemma FortySamples()
    ensures NrSample(290 * PAGE_SIZE, 39) == 40 && IsBaseCycle(290 * PAGE_SIZE, 8)
  {
    assert Pow2(5) == 32;
  }

  lemma CycleBounds(range: nat, cycle: nat)
    requires IsBaseCycle(range, cycle)
    ensures MIN_SAMPLE_CYCLE <= cycle <= MAX_SAMPLE_CYCLE
  {}

  /** get_base_sample_cycle: two cycles, and one more for every bit in the range's number of
      16 kB units, but eight at most. */
  method BaseSampleCycle(range: nat) returns (cycle: nat)
    ensures IsBaseCycle(range, cycle)
  {
    hide Pow2, Holds;
    var units := range / 16384;
    ghost var all, p := units, 1;
    Doubles(0);
    Whole(all);
    cycle := MIN_SAMPLE_CYCLE;
    while cycle != MAX_SAMPLE_CYCLE
      invariant MIN_SAMPLE_CYCLE <= cycle <= MAX_SAMPLE_CYCLE
      invariant units >= 0 && p == Pow2(cycle - 2) && Holds(all, units, p)
      invariant cycle > MIN_SAMPLE_CYCLE ==> all >= Pow2(cycle - 3)
      decreases MAX_SAMPLE_CYCLE - cycle
    {
      if units == 0 {
        NoneLeft(all, p);
        break;
      }
      Halve(all, units, p);
      Doubles(cycle - 2);
      cycle := cycle + 1;
      units := units / 2;
      p := 2 * p;
    }
  }

  lemma Doubles(n: nat)
    ensures Pow2(0) == 1 && Pow2(n + 1) == 2 * Pow2(n)
  {}

  /** `units` parts of size `p` fit into `all`, and no more. */
  ghost predicate Holds(all: nat, units: nat, p: nat) {
    p >= 1 && units * p <= all < (units + 1) * p
  }

  lemma Whole(all: nat)
    ensures Holds(all, all, 1)
  {}

  lemma NoneLeft(all: nat, p: nat)
    requires Holds(all, 0, p)
    ensures all < p
  {}

  lemma Halve(all: nat, units: nat, p: nat)
    requires units >= 1 && Holds(all, units, p)
    ensures all >= p && Holds(all, units / 2, 2 * p)
  {
    var half := units / 2;
    Arith.Order(p, 1, units);
    Arith.Order(p, 2 * half, units);
    Arith.Order(p, units + 1, 2 * (half + 1));
    assert half * (2 * p) == 2 * half * p && (half + 1) * (2 * p) == 2 * (half + 1) * p;
  }
}
