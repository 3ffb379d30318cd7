/**
  The heap leak checker's flood over live objects and the snapshot of what remains
  (heap-checker.cc, heap-profile-table.cc).  The recorded allocations are kept in an address
  map; readings of memory are a function.
  */
module HeapChecker {
  import opened Options
  import opened Seqs
  import AddressMap
  import Arith
  import opened ProfileTable
  import opened Reachability

  ghost function SizesOf(allocs: map<Addr, Alloc>): map<Addr, nat> {
    map k | k in allocs :: allocs[k].bytes
  }

  ghost function LiveOf(allocs: map<Addr, Alloc>): set<Addr> {
    set k | k in allocs && allocs[k].live
  }

  ghost function IgnoredOf(allocs: map<Addr, Alloc>): set<Addr> {
    set k | k in allocs && allocs[k].ignored
  }

  /** Only live flags differ. */
  ghost predicate SameButLive(a: map<Addr, Alloc>, b: map<Addr, Alloc>) {
    a.Keys == b.Keys && forall k :: k in a ==> b[k] == a[k].(live := b[k].live)
  }

  lemma SameSizes(a: map<Addr, Alloc>, b: map<Addr, Alloc>)
    requires SameButLive(a, b)
    ensures SizesOf(a) == SizesOf(b) && IgnoredOf(a) == IgnoredOf(b)
    ensures AddressMap.RangesApart(a, AllocSize) ==> AddressMap.RangesApart(b, AllocSize)
    ensures forall low, high :: Bounded(a, low, high) ==> Bounded(b, low, high)
  {}

  /** All objects lie between the bounds. */
  ghost predicate Bounded(allocs: map<Addr, Alloc>, low: Addr, high: Addr) {
    forall k :: k in allocs ==> low <= k && k + allocs[k].bytes <= high
  }

  lemma SameForth(a: map<Addr, Alloc>, b: map<Addr, Alloc>, c: map<Addr, Alloc>)
    requires SameButLive(a, b) && SameButLive(b, c)
    ensures SameButLive(a, c)
  {}

  lemma FoundBySize(allocs: map<Addr, Alloc>, maxSize: nat, w: nat, k: Addr)
    ensures AddressMap.Found(allocs, AllocSize, maxSize, w, k) <==> AddressMap.Found(SizesOf(allocs), Bytes, maxSize, w, k)
  {}

  lemma Marked(allocs: map<Addr, Alloc>, k: Addr, live: bool)
    requires k in allocs
    ensures var b := allocs[k := allocs[k].(live := live)];
            && SameButLive(allocs, b)
            && LiveOf(b) == if live then LiveOf(allocs) + {k} else LiveOf(allocs) - {k}
  {}

  /** The first aligned address at or after `a`. */
  lemma AlignedUp(a: nat, n: nat)
    requires n >= 1
    ensures var r := a % n;
            && (r == 0 ==> a % n == 0)
            && (r != 0 ==> (a + (n - r)) % n == 0)
            && (forall b :: a <= b && b % n == 0 ==> b >= if r == 0 then a else a + (n - r))
  {
    var q, r := a / n, a % n;
    assert a == n * q + r;
    if r != 0 {
      assert a + (n - r) == n * (q + 1) by { assert n * (q + 1) == n * q + n; }
      Arith.Multiple(n, q + 1);
    }
    forall b | a <= b && b % n == 0
      ensures b >= if r == 0 then a else a + (n - r)
    {
      if r != 0 {
        NextMultiple(n, q, r, b);
      }
    }
  }

  lemma NextMultiple(n: nat, q: nat, r: nat, b: nat)
    requires n >= 1 && 0 < r < n && n * q + r <= b && b % n == 0
    ensures b >= n * q + n
  {
    var d := b / n;
    assert b == n * d;
    assert n * (q + 1) == n * q + n;
    Arith.Order(n, q, d);
    Arith.Order(n, q + 1, d);
  }

  /** The words from `next` on, up to the last that fits, are the aligned ones. */
  lemma NextWord(n: nat, next: nat, a: nat)
    requires n >= 1 && next % n == 0
    ensures (next + n) % n == 0
    ensures next < a && a % n == 0 ==> a >= next + n
  {
    AlignedUp(next + 1, n);
    var q := next / n;
    assert next == n * q;
    assert n * (q + 1) == n * q + n;
    Arith.Multiple(n, q + 1);
    if next < a && a % n == 0 && n > 1 {
      NextMultiple(n, q, 1, a);
    }
  }

  class Checker {
    const table: AddressMap.Map<Alloc>      // address_map_
    const load: Addr -> nat                 // what memory holds
    const alignment: nat                    // pointer_source_alignment
    const maxSize: nat                      // max_heap_object_size during the check
    const minAddress: Addr
    const maxAddress: Addr
    var stack: seq<Area>                    // live_objects
    var liveTotal: int                      // live_objects_total

    ghost function TheMemory(): Memory
      reads this, table
    {
      Memory(SizesOf(table.contents), load, alignment, maxSize)
    }

    ghost function Live(): set<Addr>
      reads this, table
    {
      LiveOf(table.contents)
    }

    /** The allocations do not overlap, and lie between the least and the greatest heap address. */
    ghost predicate Ready()
      reads this, table
    {
      && table.Valid()
      && alignment >= 1
      && AddressMap.RangesApart(table.contents, AllocSize)
      && Bounded(table.contents, minAddress, maxAddress)
    }

    constructor (table: AddressMap.Map<Alloc>, load: Addr -> nat, alignment: nat, maxSize: nat, minAddress: Addr, maxAddress: Addr)
      ensures this.table == table && this.load == load && this.alignment == alignment && this.maxSize == maxSize
      ensures this.minAddress == minAddress && this.maxAddress == maxAddress && stack == [] && liveTotal == 0
    {
      this.table, this.load, this.alignment, this.maxSize := table, load, alignment, maxSize;
      this.minAddress, this.maxAddress := minAddress, maxAddress;
      stack, liveTotal := [], 0;
    }

    /** HeapProfileTable::MarkAsLive */
    method MarkAsLive(k: Addr) returns (marked: bool)
      requires Ready()
      modifies table
      ensures Ready() && SameButLive(old(table.contents), table.contents)
      ensures table.contents.Keys == old(table.contents.Keys) && SizesOf(table.contents) == SizesOf(old(table.contents))
      ensures marked <==> k in table.contents && k !in old(Live())
      ensures Live() == if marked then old(Live()) + {k} else old(Live())
    {
      var a := table.Find(k);
      if a.Some? && !a.value.live {
        Marked(table.contents, k, true);
        table.Insert(k, a.value.(live := true));
        SameSizes(old(table.contents), table.contents);
        return true;
      }
      return false;
    }

    /** HaveOnHeapLocked */
    method HaveOnHeap(w: nat, ghost m: Memory) returns (r: Option<(Addr, nat)>)
      requires Ready() && m == TheMemory()
      ensures r.Some? ==> Resolves(m, w, r.value.0) && r.value.0 in m.sizes && r.value.1 == m.sizes[r.value.0]
      ensures forall k: Addr :: Resolves(m, w, k) ==> r.Some? && k == r.value.0
    {
      var f := table.FindInside(AllocSize, maxSize, w);
      forall k: Addr
        ensures AddressMap.Found(table.contents, AllocSize, maxSize, w, k) <==> Resolves(m, w, k)
      {
        FoundBySize(table.contents, maxSize, w, k);
      }
      if f.None? {
        return None;
      }
      return Some((f.value.0, f.value.1.bytes));
    }

    /** One word: if it points to an object not yet live, mark that and put it on the stack.  The
        quick test against the bounds of the heap rejects no pointer. */
    method LookAt(w: nat, ghost m: Memory)
      requires Ready() && m == TheMemory()
      modifies this`stack, table
      ensures Ready() && SameButLive(old(table.contents), table.contents)
      ensures LookedAt(m, w, old(Live()), Live(), old(stack), stack)
    {
      hide LookedAt, Resolves, AddressMap.RangesApart, AddressMap.Ok, Bounded, SameButLive, LiveOf, SizesOf;
      ghost var live0, stack0 := Live(), stack;
      if minAddress <= w <= maxAddress {
        var r := HaveOnHeap(w, m);
        if r.None? {
          SameSelf(table.contents);
          LookedUp(m, w, false, 0, live0, live0, stack0, stack0);
          return;
        }
        var k := r.value.0;
        var marked := MarkAsLive(k);
        if marked {
          stack := stack + [Area(k, r.value.1, IgnoredOnHeap)];
        }
        KeysAre(table.contents, k);
        LookedUp(m, w, true, k, live0, Live(), stack0, stack);
      } else {
        OffHeap(m, table.contents, w, minAddress, maxAddress);
        SameSelf(table.contents);
        LookedUp(m, w, false, 0, live0, live0, stack0, stack0);
      }
    }

    /** The sweep over one area: everything its words point to is live afterwards, and what was
        not before waits on the stack. */
    method ScanArea(start: Addr, size: nat, ghost m: Memory) returns (ghost pushed: seq<Area>, count: int)
      requires Ready() && m == TheMemory()
      modifies this`stack, table
      ensures Ready() && m == TheMemory() && SameButLive(old(table.contents), table.contents)
      ensures stack == old(stack) + pushed && Pushed(m, start, size, old(Live()), Live(), pushed)
      ensures Scanned(m, start, size, Live()) && count == |pushed|
    {
      hide LookedAt, Resolves, AddressMap.RangesApart, AddressMap.Ok, Bounded, SameButLive, LiveOf, SizesOf, Pushed, PointsInto, WordAt;
      ghost var live0, stack0 := Live(), stack;
      pushed, count := [], 0;
      SameSelf(table.contents);
      NothingPushed(m, start, size, live0);
      AlignedUp(start, alignment);
      var next, rest := start, size;
      var remainder := start % alignment;
      if remainder != 0 {
        next := next + (alignment - remainder);
        rest := if rest >= alignment - remainder then rest - (alignment - remainder) else 0;
      }
      NoWordBefore(m, start, size, next);
      if rest < WORD {
        NoWordAtAll(m, start, size, next, Live());
        return;
      }
      var last := next + rest - WORD;
      while next <= last
        invariant Ready() && m == TheMemory() && SameButLive(old(table.contents), table.contents)
        invariant next % alignment == 0 && start <= next
        invariant stack == stack0 + pushed && Pushed(m, start, size, live0, Live(), pushed) && count == |pushed|
        invariant SweptTo(m, start, size, next, Live())
        decreases last + 1 - next
      {
        ghost var contents1, live1, stack1 := table.contents, Live(), stack;
        var depth := |stack|;
        IsWord(m, start, size, next);
        LookAt(load(next), m);
        SameForth(old(table.contents), contents1, table.contents);
        SameSizes(contents1, table.contents);
        count := count + (|stack| - depth);
        pushed := LookedNext(m, start, size, next, live0, live1, Live(), stack0, stack1, stack, pushed);
        NextWord(alignment, next, next);
        SweptOn(m, start, size, next, live1, Live());
        next := next + alignment;
      }
      SweptAll(m, start, size, next, Live());
    }

    /** IgnoreLiveObjectsLocked: from the roots on the stack, marks exactly what can be reached,
        besides what was live before, and ends. */
    method Flood()
      requires Ready() && Closed(TheMemory(), Live()) && RootsExact(TheMemory(), stack)
      modifies this, table
      ensures Ready() && TheMemory() == old(TheMemory()) && SameButLive(old(table.contents), table.contents) && stack == []
      ensures Closed(TheMemory(), Live())
      ensures ReachedFrom(TheMemory(), old(stack), old(Live()), Live())
      ensures liveTotal - old(liveTotal) == |Live()| - |old(Live())|
    {
      hide AddressMap.RangesApart, AddressMap.Ok, Bounded, SameButLive, LiveOf, SizesOf, Flooding, RootsExact, Closed, ReachedFrom;
      ghost var m, roots, live0 := TheMemory(), stack, Live();
      FloodStarts(m, roots, live0);
      FloodBound(m, roots, live0, live0, stack);
      SameSelf(table.contents);
      var count := 0;
      while stack != []
        invariant Ready() && m == TheMemory() && SameButLive(old(table.contents), table.contents)
        invariant Flooding(m, roots, live0, Live(), stack) && |Live()| <= |m.sizes.Keys|
        invariant count == |Live()| - |live0| && liveTotal == old(liveTotal)
        decreases |m.sizes.Keys| - |Live()|, |stack|
      {
        ghost var contents1 := table.contents;
        var n := FloodOnce(m, roots, live0);
        SameForth(old(table.contents), contents1, table.contents);
        count := count + n;
      }
      FloodEnds(m, roots, live0, Live());
      liveTotal := liveTotal + count;
    }

    /** One round: an area is taken off the stack and swept. */
    method FloodOnce(ghost m: Memory, ghost roots: seq<Area>, ghost live0: set<Addr>) returns (count: int)
      requires Ready() && m == TheMemory() && RootsExact(m, roots) && stack != []
      requires Flooding(m, roots, live0, Live(), stack)
      modifies this`stack, table
      ensures Ready() && m == TheMemory() && SameButLive(old(table.contents), table.contents)
      ensures Flooding(m, roots, live0, Live(), stack)
      ensures count == |Live()| - |old(Live())| >= 0 && |Live()| <= |m.sizes.Keys|
      ensures count == 0 ==> |stack| < |old(stack)|
    {
      hide AddressMap.RangesApart, AddressMap.Ok, Bounded, SameButLive, LiveOf, SizesOf, Pushed, Flooding, RootsExact, Scanned;
      var x := stack[|stack| - 1];
      ghost var live1, stack1, contents1 := Live(), stack, table.contents;
      stack := stack[..|stack| - 1];
      var marked := false;
      SameSelf(contents1);
      if x.place == MustBeOnHeap {
        marked := MarkAsLive(x.start);
      }
      KeysAre(contents1, x.start);
      ghost var live2, contents2 := Live(), table.contents;
      SameSizes(contents1, contents2);
      var pushed, n := ScanArea(x.start, x.size, m);
      SameForth(contents1, contents2, table.contents);
      count := (if marked then 1 else 0) + n;
      FloodStep(m, roots, live0, live1, live2, Live(), stack1, stack, pushed, x, marked);
    }

    // ---------------------------------------------------------------- the check as a whole

    /** IterateAllocs with MakeIgnoredObjectsLiveCallbackLocked: ignored objects become roots. */
    method MakeIgnoredLive()
      requires Ready() && stack == []
      modifies this`stack
      ensures IgnoredRoots(table.contents, stack) && RootsExact(TheMemory(), stack)
    {
      hide AddressMap.Ok, AddressMap.RangesApart, Bounded, AddressMap.FlatTable, IgnoredRoots, RootsExact, PutIgnored, NoDup;
      var visited := table.Iterate();
      AddressMap.VisitedOnce(table);
      NonePut(visited);
      for i := 0 to |visited|
        invariant PutIgnored(visited, i, stack)
      {
        ghost var stack1 := stack;
        if visited[i].1.ignored {
          stack := stack + [Area(visited[i].0, visited[i].1.bytes, MustBeOnHeap)];
        }
        PutNext(visited, i, stack1, stack);
      }
      AllIgnored(table.contents, visited, stack);
    }

    /** NonLiveSnapshot: what is not live and not in `base`; all live flags are cleared. */
    method NonLiveSnapshot(base: Option<map<Addr, Alloc>>) returns (s: Snapshot)
      requires Ready()
      modifies table
      ensures Ready() && Cleared(old(table.contents), table.contents, old(table.contents).Keys)
      ensures Taken(old(table.contents), base, old(table.contents).Keys, s.objects)
      ensures s.allocs == |s.objects| && s.allocSize == TotalBytes(s.objects) && (s.Empty() <==> s.objects == map[])
    {
      hide AddressMap.Ok, AddressMap.RangesApart, Bounded, AddressMap.FlatTable, Cleared, Taken, SeenUpTo, NoDup;
      AddressMap.VisitedOnce(table);
      ghost var before := table.contents;
      var visited := table.Iterate();
      s := Snapshot(map[], 0, 0);
      ghost var seen: set<Addr> := {};
      NoneSeen(before, base, visited);
      for i := 0 to |visited|
        invariant Ready() && Cleared(before, table.contents, seen) && Taken(before, base, seen, s.objects)
        invariant s.allocs == |s.objects| && s.allocSize == TotalBytes(s.objects)
        invariant SeenUpTo(visited, i, seen)
      {
        ghost var contents1, objects1 := table.contents, s.objects;
        VisitedNew(before, visited, i, seen);
        ClearedValue(before, contents1, seen, visited[i].0);
        s := AddIfNonLive(visited[i].0, visited[i].1, base, s);
        SeenOne(before, base, seen, contents1, objects1, table.contents, s.objects, visited, i);
        seen := seen + {visited[i].0};
      }
      AllSeen(before, visited, seen);
    }

    /** AddIfNonLive, the callback for one object. */
    method AddIfNonLive(k: Addr, v: Alloc, base: Option<map<Addr, Alloc>>, s: Snapshot) returns (s': Snapshot)
      requires Ready() && k in table.contents && table.contents[k] == v
      modifies table
      ensures Ready() && table.contents == if v.live then old(table.contents)[k := v.(live := false)] else old(table.contents)
      ensures s' == if v.live || (base.Some? && k in base.value) then s
                    else Snapshot(s.objects[k := v], s.allocs + 1, s.allocSize + v.bytes)
    {
      hide AddressMap.Ok, AddressMap.RangesApart, Bounded;
      if v.live {
        Marked(table.contents, k, false);
        table.Insert(k, v.(live := false));
        SameSizes(old(table.contents), table.contents);
        return s;
      } else if base.Some? && k in base.value {
        return s;
      }
      return Snapshot(s.objects[k := v], s.allocs + 1, s.allocSize + v.bytes);
    }

    /** The leak check: floods from the given roots, then from the ignored objects; what remains
        is reported. */
    method LeakCheck(batches: seq<seq<Area>>, base: Option<map<Addr, Alloc>>) returns (s: Snapshot)
      requires Ready() && Live() == {} && stack == []
      requires forall i :: 0 <= i < |batches| ==> RootsExact(TheMemory(), batches[i])
      modifies this, table
      ensures Ready() && TheMemory() == old(TheMemory()) && Live() == {}
      ensures forall k :: k in s.objects <==>
                && k in old(table.contents)
                && !FromBatches(TheMemory(), batches, |batches|, k)
                && !FromIgnored(TheMemory(), old(table.contents), k)
                && !(base.Some? && k in base.value)
      ensures forall k :: k in s.objects ==> s.objects[k] == old(table.contents)[k] && !s.objects[k].ignored
    {
      hide AddressMap.Ok, AddressMap.RangesApart, Bounded, SameButLive, LiveOf, SizesOf, Closed, ReachedFrom, RootsExact,
           FromBatches, IgnoredRoots;
      ghost var m, contents0 := TheMemory(), table.contents;
      NothingLive(m);
      NoBatches(m, batches, Live());
      SameSelf(contents0);
      for i := 0 to |batches|
        invariant Ready() && m == TheMemory() && SameButLive(contents0, table.contents) && stack == []
        invariant Closed(m, Live()) && forall k :: k in Live() <==> FromBatches(m, batches, i, k)
      {
        ghost var contents1, live1 := table.contents, Live();
        stack := batches[i];
        Flood();
        SameForth(contents0, contents1, table.contents);
        NextBatch(m, batches, i, live1, Live());
      }
      ghost var contents1, live1 := table.contents, Live();
      MakeIgnoredLive();
      ghost var roots := stack;
      Flood();
      SameForth(contents0, contents1, table.contents);
      ghost var contents2 := table.contents;
      s := NonLiveSnapshot(base);
      Reported(m, contents0, contents1, contents2, table.contents, batches, roots, live1, base, s.objects);
    }
  }

  /** Snapshot: objects and totals. */
  datatype Snapshot = Snapshot(objects: map<Addr, Alloc>, allocs: int, allocSize: int) {
    predicate Empty() { allocs == 0 && allocSize == 0 }
  }

  // ------------------------------------------------------------------ what the snapshot holds

  /** The stack holds the ignored objects, all of them. */
  ghost predicate IgnoredRoots(allocs: map<Addr, Alloc>, roots: seq<Area>) {
    forall x :: x in roots <==>
      x.start in allocs && allocs[x.start].ignored && x == Area(x.start, allocs[x.start].bytes, MustBeOnHeap)
  }

  ghost predicate FromIgnored(m: Memory, allocs: map<Addr, Alloc>, k: Addr)
    requires m.alignment >= 1
  {
    exists roots :: IgnoredRoots(allocs, roots) && Reachable(m, roots, k)
  }

  ghost predicate FromBatches(m: Memory, batches: seq<seq<Area>>, n: nat, k: Addr)
    requires m.alignment >= 1 && n <= |batches|
  {
    exists i :: 0 <= i < n && Reachable(m, batches[i], k)
  }

  /** The stack holds the ignored ones among the first `n` visited. */
  ghost predicate PutIgnored(visited: seq<(Addr, Alloc)>, n: nat, stack: seq<Area>)
    requires n <= |visited|
  {
    forall x :: x in stack <==>
      exists j :: 0 <= j < n && visited[j].1.ignored && x == Area(visited[j].0, visited[j].1.bytes, MustBeOnHeap)
  }

  lemma NonePut(visited: seq<(Addr, Alloc)>)
    ensures PutIgnored(visited, 0, [])
  {}

  lemma PutNext(visited: seq<(Addr, Alloc)>, i: nat, stack: seq<Area>, stack': seq<Area>)
    requires i < |visited| && PutIgnored(visited, i, stack)
    requires stack' == if visited[i].1.ignored then stack + [Area(visited[i].0, visited[i].1.bytes, MustBeOnHeap)] else stack
    ensures PutIgnored(visited, i + 1, stack')
  {
    var y := Area(visited[i].0, visited[i].1.bytes, MustBeOnHeap);
    assert forall x :: x in stack' <==> x in stack || (visited[i].1.ignored && x == y);
  }

  lemma AllIgnored(allocs: map<Addr, Alloc>, visited: seq<(Addr, Alloc)>, roots: seq<Area>)
    requires forall k, v :: (k, v) in visited <==> k in allocs && allocs[k] == v
    requires PutIgnored(visited, |visited|, roots)
    ensures IgnoredRoots(allocs, roots)
    ensures forall m: Memory :: m.sizes == SizesOf(allocs) ==> RootsExact(m, roots)
  {
    forall x
      ensures x in roots <==>
        x.start in allocs && allocs[x.start].ignored && x == Area(x.start, allocs[x.start].bytes, MustBeOnHeap)
    {
      if x.start in allocs && allocs[x.start].ignored && x == Area(x.start, allocs[x.start].bytes, MustBeOnHeap) {
        var p := (x.start, allocs[x.start]);
        assert p in visited;
        var j :| 0 <= j < |visited| && visited[j] == p;
        assert visited[j].1.ignored && x == Area(visited[j].0, visited[j].1.bytes, MustBeOnHeap);
      }
      if x in roots {
        var j :| 0 <= j < |visited| && visited[j].1.ignored && x == Area(visited[j].0, visited[j].1.bytes, MustBeOnHeap);
        assert (visited[j].0, visited[j].1) in visited;
      }
    }
  }

  /** The live flags of the objects `seen` have been cleared. */
  ghost predicate Cleared(a: map<Addr, Alloc>, b: map<Addr, Alloc>, seen: set<Addr>) {
    b.Keys == a.Keys && forall k :: k in a ==> b[k] == if k in seen then a[k].(live := false) else a[k]
  }

  /** Of the objects `seen`, the snapshot has those that were neither live nor in the base. */
  ghost predicate Taken(a: map<Addr, Alloc>, base: Option<map<Addr, Alloc>>, seen: set<Addr>, objects: map<Addr, Alloc>) {
    && (forall k :: k in objects <==> k in seen && k in a && !a[k].live && !(base.Some? && k in base.value))
    && (forall k :: k in objects ==> objects[k] == a[k])
  }

  ghost predicate SeenUpTo(visited: seq<(Addr, Alloc)>, n: nat, seen: set<Addr>)
    requires n <= |visited|
  {
    forall k :: k in seen <==> exists j :: 0 <= j < n && visited[j].0 == k
  }

  lemma NoneSeen(a: map<Addr, Alloc>, base: Option<map<Addr, Alloc>>, visited: seq<(Addr, Alloc)>)
    ensures Cleared(a, a, {}) && Taken(a, base, {}, map[]) && SeenUpTo(visited, 0, {})
  {}

  lemma VisitedNew(a: map<Addr, Alloc>, visited: seq<(Addr, Alloc)>, i: nat, seen: set<Addr>)
    requires i < |visited| && NoDup(visited)
    requires forall k, v :: (k, v) in visited <==> k in a && a[k] == v
    requires SeenUpTo(visited, i, seen)
    ensures visited[i].0 in a && a[visited[i].0] == visited[i].1 && visited[i].0 !in seen
  {
    assert (visited[i].0, visited[i].1) in visited;
    forall j | 0 <= j < i
      ensures visited[j].0 != visited[i].0
    {
      assert (visited[j].0, visited[j].1) in visited;
      assert visited[j] != visited[i];
    }
  }

  lemma ClearedValue(a: map<Addr, Alloc>, b: map<Addr, Alloc>, seen: set<Addr>, k: Addr)
    requires Cleared(a, b, seen) && k in a && k !in seen
    ensures k in b && b[k] == a[k]
  {}

  lemma SeenOne(a: map<Addr, Alloc>, base: Option<map<Addr, Alloc>>, seen: set<Addr>, b: map<Addr, Alloc>,
                objects: map<Addr, Alloc>, b': map<Addr, Alloc>, objects': map<Addr, Alloc>, visited: seq<(Addr, Alloc)>, i: nat)
    requires i < |visited| && SeenUpTo(visited, i, seen)
    requires var (k, v) := visited[i]; k in a && a[k] == v && k !in seen
    requires Cleared(a, b, seen) && Taken(a, base, seen, objects)
    requires var (k, v) := visited[i]; b' == if v.live then b[k := v.(live := false)] else b
    requires var (k, v) := visited[i]; objects' == if v.live || (base.Some? && k in base.value) then objects else objects[k := v]
    ensures var k := visited[i].0; Cleared(a, b', seen + {k}) && Taken(a, base, seen + {k}, objects') && SeenUpTo(visited, i + 1, seen + {k})
    ensures var (k, v) := visited[i];
            var taken := !(v.live || (base.Some? && k in base.value));
            && |objects'| == |objects| + (if taken then 1 else 0)
            && TotalBytes(objects') == TotalBytes(objects) + if taken then v.bytes else 0
  {
    var (k, v) := visited[i];
    SeenNext(visited, i, seen);
    ClearedOne(a, b, b', seen, k, v);
    TakenOne(a, base, seen, objects, objects', k, v);
    hide SeenUpTo, Cleared, Taken;
  }

  lemma ClearedOne(a: map<Addr, Alloc>, b: map<Addr, Alloc>, b': map<Addr, Alloc>, seen: set<Addr>, k: Addr, v: Alloc)
    requires Cleared(a, b, seen) && k in a && a[k] == v && b' == if v.live then b[k := v.(live := false)] else b
    ensures Cleared(a, b', seen + {k})
  {}

  lemma TakenOne(a: map<Addr, Alloc>, base: Option<map<Addr, Alloc>>, seen: set<Addr>, objects: map<Addr, Alloc>,
                 objects': map<Addr, Alloc>, k: Addr, v: Alloc)
    requires Taken(a, base, seen, objects) && k in a && a[k] == v && k !in seen
    requires objects' == if v.live || (base.Some? && k in base.value) then objects else objects[k := v]
    ensures Taken(a, base, seen + {k}, objects')
    ensures var taken := !(v.live || (base.Some? && k in base.value));
            && |objects'| == |objects| + (if taken then 1 else 0)
            && TotalBytes(objects') == TotalBytes(objects) + if taken then v.bytes else 0
  {
    hide TotalBytes;
    assert k !in objects;
    if v.live || (base.Some? && k in base.value) {
      TakenSame(a, base, seen, objects, k);
    } else {
      TakenMore(a, base, seen, objects, k, v);
      TotalAdd(objects, k, v);
    }
  }

  lemma TakenSame(a: map<Addr, Alloc>, base: Option<map<Addr, Alloc>>, seen: set<Addr>, objects: map<Addr, Alloc>, k: Addr)
    requires Taken(a, base, seen, objects) && k in a && (a[k].live || (base.Some? && k in base.value))
    ensures Taken(a, base, seen + {k}, objects)
  {}

  lemma TakenMore(a: map<Addr, Alloc>, base: Option<map<Addr, Alloc>>, seen: set<Addr>, objects: map<Addr, Alloc>,
                  k: Addr, v: Alloc)
    requires Taken(a, base, seen, objects) && k in a && a[k] == v && !v.live && !(base.Some? && k in base.value) && k !in objects
    ensures Taken(a, base, seen + {k}, objects[k := v])
    ensures |objects[k := v]| == |objects| + 1
  {
    assert objects[k := v].Keys == objects.Keys + {k};
  }

  lemma SeenNext(visited: seq<(Addr, Alloc)>, i: nat, seen: set<Addr>)
    requires i < |visited| && SeenUpTo(visited, i, seen)
    ensures SeenUpTo(visited, i + 1, seen + {visited[i].0})
  {}

  lemma AllSeen(a: map<Addr, Alloc>, visited: seq<(Addr, Alloc)>, seen: set<Addr>)
    requires forall k, v :: (k, v) in visited <==> k in a && a[k] == v
    requires SeenUpTo(visited, |visited|, seen)
    ensures seen == a.Keys
  {
    forall k | k in a
      ensures k in seen
    {
      assert (k, a[k]) in visited;
      var j :| 0 <= j < |visited| && visited[j] == (k, a[k]);
      assert visited[j].0 == k;
    }
    forall k | k in seen
      ensures k in a
    {
      var j :| 0 <= j < |visited| && visited[j].0 == k;
      assert (visited[j].0, visited[j].1) in visited;
    }
  }

  lemma NothingLive(m: Memory)
    requires m.alignment >= 1
    ensures Closed(m, {})
  {}

  lemma NoBatches(m: Memory, batches: seq<seq<Area>>, live: set<Addr>)
    requires m.alignment >= 1 && live == {}
    ensures forall k :: k in live <==> FromBatches(m, batches, 0, k)
  {}

  lemma NextBatch(m: Memory, batches: seq<seq<Area>>, i: nat, live1: set<Addr>, live: set<Addr>)
    requires m.alignment >= 1 && i < |batches| && ReachedFrom(m, batches[i], live1, live)
    requires forall k :: k in live1 <==> FromBatches(m, batches, i, k)
    ensures forall k :: k in live <==> FromBatches(m, batches, i + 1, k)
  {
    hide Reachable;
    forall k
      ensures k in live <==> FromBatches(m, batches, i + 1, k)
    {
      if FromBatches(m, batches, i + 1, k) {
        var j :| 0 <= j < i + 1 && Reachable(m, batches[j], k);
        if j < i {
          assert FromBatches(m, batches, i, k);
        }
      }
      if FromBatches(m, batches, i, k) {
        var j :| 0 <= j < i && Reachable(m, batches[j], k);
        assert 0 <= j < i + 1;
      }
    }
  }

  /** All sequences of the same ignored objects lead to the same. */
  lemma {:induction false} SameRoots(m: Memory, a: seq<Area>, b: seq<Area>, n: nat, k: Addr)
    requires m.alignment >= 1 && (forall x :: x in a <==> x in b) && ReachedIn(m, a, n, k)
    ensures ReachedIn(m, b, n, k)
  {
    if n > 0 {
      var j :| ReachedIn(m, a, n - 1, j) && Edge(m, j, k);
      SameRoots(m, a, b, n - 1, j);
    } else {
      var r :| r in a && (PointsInto(m, r.start, r.size, k) || (r.place == MustBeOnHeap && r.start == k && k in m.sizes));
      assert r in b;
    }
  }

  lemma IgnoredOnce(m: Memory, allocs: map<Addr, Alloc>, roots: seq<Area>, k: Addr)
    requires m.alignment >= 1 && IgnoredRoots(allocs, roots)
    ensures FromIgnored(m, allocs, k) <==> Reachable(m, roots, k)
  {
    if FromIgnored(m, allocs, k) {
      var other :| IgnoredRoots(allocs, other) && Reachable(m, other, k);
      var n: nat :| ReachedIn(m, other, n, k);
      SameRoots(m, other, roots, n, k);
    }
  }

  lemma Reported(m: Memory, contents0: map<Addr, Alloc>, contents1: map<Addr, Alloc>, contents2: map<Addr, Alloc>,
                 contents3: map<Addr, Alloc>, batches: seq<seq<Area>>, roots: seq<Area>, live1: set<Addr>,
                 base: Option<map<Addr, Alloc>>, objects: map<Addr, Alloc>)
    requires m.alignment >= 1 && m.sizes == SizesOf(contents0)
    requires SameButLive(contents0, contents1) && SameButLive(contents0, contents2) && IgnoredRoots(contents1, roots)
    requires forall k :: k in live1 <==> FromBatches(m, batches, |batches|, k)
    requires ReachedFrom(m, roots, live1, LiveOf(contents2))
    requires Cleared(contents2, contents3, contents2.Keys) && Taken(contents2, base, contents2.Keys, objects)
    requires LiveOf(contents0) == {}
    ensures LiveOf(contents3) == {} && SizesOf(contents3) == m.sizes
    ensures forall k :: k in objects <==>
              && k in contents0
              && !FromBatches(m, batches, |batches|, k)
              && !FromIgnored(m, contents0, k)
              && !(base.Some? && k in base.value)
    ensures forall k :: k in objects ==> objects[k] == contents0[k] && !objects[k].ignored
  {
    assert IgnoredRoots(contents0, roots) by {
      hide Reachable;
    }
    assert SizesOf(contents3) == SizesOf(contents0);
    hide Reachable, FromBatches, SizesOf;
    forall k
      ensures FromIgnored(m, contents0, k) <==> Reachable(m, roots, k)
    {
      IgnoredOnce(m, contents0, roots, k);
    }
    hide FromIgnored;
    forall k | k in objects
      ensures objects[k] == contents0[k] && !objects[k].ignored
    {
      assert k !in LiveOf(contents0);
      assert objects[k] == contents2[k];
      if objects[k].ignored {
        IgnoredReached(m, contents0, roots, k);
      }
    }
  }

  lemma IgnoredReached(m: Memory, allocs: map<Addr, Alloc>, roots: seq<Area>, k: Addr)
    requires m.alignment >= 1 && m.sizes == SizesOf(allocs) && IgnoredRoots(allocs, roots) && k in allocs && allocs[k].ignored
    ensures Reachable(m, roots, k)
  {
    var x := Area(k, allocs[k].bytes, MustBeOnHeap);
    assert x in roots;
    assert FromRoot(m, roots, k);
    RootReached(m, roots, k);
  }

  // ------------------------------------------------------------------ the sweep over one area

  /** What a sweep has marked it has put on the stack, once, and the area points to it. */
  ghost predicate Pushed(m: Memory, start: Addr, size: nat, live0: set<Addr>, live: set<Addr>, pushed: seq<Area>)
    requires m.alignment >= 1
  {
    && live0 <= live && |live| - |live0| == |pushed|
    && (forall y :: y in pushed ==> y.start in live && y.start in m.sizes && y == Waiting(m, y.start) && PointsInto(m, start, size, y.start))
    && (forall k :: k in live && k !in live0 ==> k in m.sizes && Waiting(m, k) in pushed)
  }

  lemma NothingPushed(m: Memory, start: Addr, size: nat, live: set<Addr>)
    requires m.alignment >= 1
    ensures Pushed(m, start, size, live, live, [])
  {}

  /** All words before `next` have been looked at. */
  ghost predicate SweptTo(m: Memory, start: Addr, size: nat, next: Addr, live: set<Addr>)
    requires m.alignment >= 1
  {
    forall a: Addr, k :: WordAt(m, start, size, a) && a < next && Resolves(m, m.load(a), k) ==> k in live
  }

  lemma NoWordBefore(m: Memory, start: Addr, size: nat, next: Addr)
    requires m.alignment >= 1 && forall b :: start <= b && b % m.alignment == 0 ==> b >= next
    ensures forall live :: SweptTo(m, start, size, next, live)
    ensures forall a: Addr :: WordAt(m, start, size, a) ==> a >= next
  {}

  lemma NoWordAtAll(m: Memory, start: Addr, size: nat, next: Addr, live: set<Addr>)
    requires m.alignment >= 1 && next + WORD > start + size
    requires forall a: Addr :: WordAt(m, start, size, a) ==> a >= next
    ensures Scanned(m, start, size, live)
  {}

  lemma IsWord(m: Memory, start: Addr, size: nat, a: Addr)
    requires m.alignment >= 1 && a % m.alignment == 0 && start <= a && a + WORD <= start + size
    ensures WordAt(m, start, size, a)
  {}

  lemma LookedNext(m: Memory, start: Addr, size: nat, a: Addr, live0: set<Addr>, live1: set<Addr>, live: set<Addr>,
                   stack0: seq<Area>, stack1: seq<Area>, stack: seq<Area>, pushed: seq<Area>) returns (pushed': seq<Area>)
    requires m.alignment >= 1 && WordAt(m, start, size, a) && LookedAt(m, m.load(a), live1, live, stack1, stack)
    requires Pushed(m, start, size, live0, live1, pushed) && stack1 == stack0 + pushed
    ensures stack == stack0 + pushed' && Pushed(m, start, size, live0, live, pushed') && |pushed'| - |pushed| == |stack| - |stack1|
    ensures live1 <= live && forall k :: Resolves(m, m.load(a), k) ==> k in live
  {
    if live == live1 && stack == stack1 {
      pushed' := pushed;
    } else {
      var k :| Resolves(m, m.load(a), k) && k !in live1 && live == live1 + {k} && k in m.sizes && stack == stack1 + [Waiting(m, k)];
      pushed' := pushed + [Waiting(m, k)];
      assert PointsInto(m, start, size, k);
      hide PointsInto;
      assert forall y :: y in pushed' <==> y in pushed || y == Waiting(m, k);
    }
  }

  lemma SweptOn(m: Memory, start: Addr, size: nat, next: Addr, live1: set<Addr>, live: set<Addr>)
    requires m.alignment >= 1 && next % m.alignment == 0 && live1 <= live
    requires SweptTo(m, start, size, next, live1)
    requires forall k :: Resolves(m, m.load(next), k) ==> k in live
    ensures SweptTo(m, start, size, next + m.alignment, live)
  {
    hide Resolves;
    forall a: Addr, k | WordAt(m, start, size, a) && a < next + m.alignment && Resolves(m, m.load(a), k)
      ensures k in live
    {
      NextWord(m.alignment, next, a);
    }
  }

  lemma SweptAll(m: Memory, start: Addr, size: nat, next: Addr, live: set<Addr>)
    requires m.alignment >= 1 && SweptTo(m, start, size, next, live) && next + WORD > start + size
    ensures Scanned(m, start, size, live)
  {
    hide Resolves;
  }

  lemma FloodLive(m: Memory, roots: seq<Area>, live0: set<Addr>, live: set<Addr>, stack: seq<Area>)
    requires m.alignment >= 1 && Flooding(m, roots, live0, live, stack)
    ensures forall k :: k in live ==> k in m.sizes
  {}

  /** One round of the flood. */
  lemma FloodStep(m: Memory, roots: seq<Area>, live0: set<Addr>, live1: set<Addr>, live2: set<Addr>, live: set<Addr>,
                  stack1: seq<Area>, stack: seq<Area>, pushed: seq<Area>, x: Area, marked: bool)
    requires m.alignment >= 1 && RootsExact(m, roots) && stack1 != [] && x == stack1[|stack1| - 1]
    requires Flooding(m, roots, live0, live1, stack1)
    requires marked ==> x.place == MustBeOnHeap && x.start !in live1 && x.start in m.sizes
    requires live2 == if marked then live1 + {x.start} else live1
    requires x.place == MustBeOnHeap && x.start in m.sizes ==> x.start in live2
    requires stack == stack1[..|stack1| - 1] + pushed && Pushed(m, x.start, x.size, live2, live, pushed)
    requires Scanned(m, x.start, x.size, live)
    ensures Flooding(m, roots, live0, live, stack)
    ensures |live| - |live1| == |pushed| + if marked then 1 else 0
    ensures |live1| <= |live| <= |m.sizes.Keys|
    ensures |live| == |live1| ==> |stack| < |stack1|
  {
    FloodLive(m, roots, live0, live1, stack1);
    hide Flooding, Scanned, PointsInto, RootsExact;
    forall k | k in live
      ensures k in m.sizes
    {}
    FloodGoesOn(m, roots, live0, live1, stack1, live, stack, pushed);
    SubsetCard(live1, live);
    SubsetCard(live, m.sizes.Keys);
  }

  lemma FloodBound(m: Memory, roots: seq<Area>, live0: set<Addr>, live: set<Addr>, stack: seq<Area>)
    requires m.alignment >= 1 && Flooding(m, roots, live0, live, stack)
    ensures |live| <= |m.sizes.Keys|
  {
    FloodLive(m, roots, live0, live, stack);
    SubsetCard(live, m.sizes.Keys);
  }

  lemma SameSelf(a: map<Addr, Alloc>)
    ensures SameButLive(a, a)
  {}

  lemma KeysAre(allocs: map<Addr, Alloc>, k: Addr)
    ensures k in SizesOf(allocs) <==> k in allocs
  {}

  /** What looking at a word does: the object it points to is live then, and if it was not before
      it waits on the stack. */
  ghost predicate LookedAt(m: Memory, w: nat, live0: set<Addr>, live: set<Addr>, stack0: seq<Area>, stack: seq<Area>) {
    && (forall k :: Resolves(m, w, k) ==> k in live)
    && ((live == live0 && stack == stack0)
        || (exists k :: Resolves(m, w, k) && k !in live0 && live == live0 + {k} && k in m.sizes && stack == stack0 + [Waiting(m, k)]))
  }

  lemma LookedUp(m: Memory, w: nat, found: bool, k: Addr, live0: set<Addr>, live: set<Addr>, stack0: seq<Area>, stack: seq<Area>)
    requires found ==> Resolves(m, w, k)
    requires forall j: Addr :: Resolves(m, w, j) ==> found && j == k
    requires if found && k !in live0 then k in m.sizes && live == live0 + {k} && stack == stack0 + [Waiting(m, k)]
             else live == live0 && stack == stack0
    ensures LookedAt(m, w, live0, live, stack0, stack)
  {}

  /** No object is found for a word outside the heap. */
  lemma OffHeap(m: Memory, allocs: map<Addr, Alloc>, w: nat, low: Addr, high: Addr)
    requires m.sizes == SizesOf(allocs)
    requires Bounded(allocs, low, high)
    requires !(low <= w <= high)
    ensures forall k :: !Resolves(m, w, k)
  {}
}
