/**
  Which heap objects a set of memory areas leads to, as the heap leak checker understands it:
  every aligned word that AddressMap's FindInside resolves to an object is a pointer to it.
  */
module Reachability {
  import AddressMap

  type Addr = nat

  const WORD: nat := 8    // sizeof(void*)

  /** What the checker looks at: the allocations with their sizes, the contents of memory, the
      alignment of the words it reads, and max_heap_object_size. */
  datatype Memory = Memory(sizes: map<Addr, nat>, load: Addr -> nat, alignment: nat, maxSize: nat)

  datatype Place = MustBeOnHeap | IgnoredOnHeap | InGlobalData | ThreadData

  datatype Area = Area(start: Addr, size: nat, place: Place)

  function Bytes(n: nat): nat { n }

  /** The word `w` is a pointer to object `k`. */
  ghost predicate Resolves(m: Memory, w: nat, k: Addr) {
    AddressMap.Found(m.sizes, Bytes, m.maxSize, w, k)
  }

  /** `a` is the address of a word inside the area that is read. */
  predicate WordAt(m: Memory, start: Addr, size: nat, a: Addr)
    requires m.alignment >= 1
  {
    a % m.alignment == 0 && start <= a && a + WORD <= start + size
  }

  ghost predicate PointsInto(m: Memory, start: Addr, size: nat, k: Addr)
    requires m.alignment >= 1
  {
    exists a :: WordAt(m, start, size, a) && Resolves(m, m.load(a), k)
  }

  // ------------------------------------------------------------------ reachability

  /** An object that a root area names or points to. */
  ghost predicate FromRoot(m: Memory, roots: seq<Area>, k: Addr)
    requires m.alignment >= 1
  {
    exists r :: r in roots && (PointsInto(m, r.start, r.size, k) || (r.place == MustBeOnHeap && r.start == k && k in m.sizes))
  }

  ghost predicate Edge(m: Memory, j: Addr, k: Addr)
    requires m.alignment >= 1
  {
    j in m.sizes && PointsInto(m, j, m.sizes[j], k)
  }

  /** Reached from the roots along `n` pointers between objects. */
  ghost predicate ReachedIn(m: Memory, roots: seq<Area>, n: nat, k: Addr)
    requires m.alignment >= 1
  {
    if n == 0 then FromRoot(m, roots, k) else exists j :: ReachedIn(m, roots, n - 1, j) && Edge(m, j, k)
  }

  ghost predicate Reachable(m: Memory, roots: seq<Area>, k: Addr)
    requires m.alignment >= 1
  {
    exists n: nat :: ReachedIn(m, roots, n, k)
  }

  lemma RootReached(m: Memory, roots: seq<Area>, k: Addr)
    requires m.alignment >= 1 && FromRoot(m, roots, k)
    ensures Reachable(m, roots, k)
  {
    assert ReachedIn(m, roots, 0, k);
  }

  lemma NextReached(m: Memory, roots: seq<Area>, j: Addr, k: Addr)
    requires m.alignment >= 1 && Reachable(m, roots, j) && Edge(m, j, k)
    ensures Reachable(m, roots, k)
  {
    var n: nat :| ReachedIn(m, roots, n, j);
    assert ReachedIn(m, roots, n + 1, k);
  }

  // ------------------------------------------------------------------ closed sets of objects

  /** Whatever the area points to is in `live`. */
  ghost predicate Scanned(m: Memory, start: Addr, size: nat, live: set<Addr>)
    requires m.alignment >= 1
  {
    forall k :: PointsInto(m, start, size, k) ==> k in live
  }

  lemma ScannedMore(m: Memory, start: Addr, size: nat, live: set<Addr>, live': set<Addr>)
    requires m.alignment >= 1 && Scanned(m, start, size, live) && live <= live'
    ensures Scanned(m, start, size, live')
  {}

  ghost predicate Closed(m: Memory, live: set<Addr>)
    requires m.alignment >= 1
  {
    forall k :: k in live ==> k in m.sizes && Scanned(m, k, m.sizes[k], live)
  }

  /** What the root names or points to is in `live`. */
  ghost predicate RootDone(m: Memory, r: Area, live: set<Addr>)
    requires m.alignment >= 1
  {
    Scanned(m, r.start, r.size, live) && (r.place == MustBeOnHeap && r.start in m.sizes ==> r.start in live)
  }

  /** A closed set that takes up the roots takes up all that is reachable from them. */
  lemma {:induction false} ClosedReached(m: Memory, roots: seq<Area>, live: set<Addr>, n: nat, k: Addr)
    requires m.alignment >= 1 && Closed(m, live)
    requires forall r :: r in roots ==> RootDone(m, r, live)
    requires ReachedIn(m, roots, n, k)
    ensures k in live
  {
    if n == 0 {
      var r :| r in roots && (PointsInto(m, r.start, r.size, k) || (r.place == MustBeOnHeap && r.start == k && k in m.sizes));
      assert RootDone(m, r, live);
    } else {
      var j :| ReachedIn(m, roots, n - 1, j) && Edge(m, j, k);
      ClosedReached(m, roots, live, n - 1, j);
      assert Scanned(m, j, m.sizes[j], live);
    }
  }

  // ------------------------------------------------------------------ the state of a flood

  /** A marked object waits on the stack to be scanned. */
  function Waiting(m: Memory, k: Addr): Area
    requires k in m.sizes
  {
    Area(k, m.sizes[k], IgnoredOnHeap)
  }

  /** Marked objects are justified: they were live before, or are reachable. */
  ghost predicate Justified(m: Memory, roots: seq<Area>, live0: set<Addr>, live: set<Addr>)
    requires m.alignment >= 1
  {
    live0 <= live && forall k :: k in live ==> k in m.sizes && (k in live0 || Reachable(m, roots, k))
  }

  /** What is on the stack is a root or a marked object. */
  ghost predicate StackOk(m: Memory, roots: seq<Area>, live: set<Addr>, stack: seq<Area>)
    requires m.alignment >= 1
  {
    forall x :: x in stack ==> x in roots || (x.start in live && x.start in m.sizes && x == Waiting(m, x.start) && Reachable(m, roots, x.start))
  }

  /** Nothing is forgotten: each marked object and each root has been scanned, or waits. */
  ghost predicate Remembered(m: Memory, roots: seq<Area>, live: set<Addr>, stack: seq<Area>)
    requires m.alignment >= 1 && forall k :: k in live ==> k in m.sizes
  {
    && (forall k :: k in live ==> Waiting(m, k) in stack || Scanned(m, k, m.sizes[k], live))
    && (forall r :: r in roots ==> r in stack || RootDone(m, r, live))
  }

  ghost predicate Flooding(m: Memory, roots: seq<Area>, live0: set<Addr>, live: set<Addr>, stack: seq<Area>)
    requires m.alignment >= 1
  {
    Justified(m, roots, live0, live) && StackOk(m, roots, live, stack) && Remembered(m, roots, live, stack)
  }

  /** Roots that must be heap objects are given with their sizes. */
  ghost predicate RootsExact(m: Memory, roots: seq<Area>) {
    forall r :: r in roots && r.place == MustBeOnHeap && r.start in m.sizes ==> r.size == m.sizes[r.start]
  }

  lemma FloodStarts(m: Memory, roots: seq<Area>, live: set<Addr>)
    requires m.alignment >= 1 && Closed(m, live)
    ensures Flooding(m, roots, live, live, roots)
  {}

  /** One area has been taken off the stack, its object marked if it must be on the heap, and
      its words looked up; `live'` has grown by what is now on the stack in addition. */
  lemma FloodGoesOn(m: Memory, roots: seq<Area>, live0: set<Addr>, live: set<Addr>, stack: seq<Area>,
                    live': set<Addr>, stack': seq<Area>, pushed: seq<Area>)
    requires m.alignment >= 1 && RootsExact(m, roots) && stack != []
    requires Flooding(m, roots, live0, live, stack)
    requires var x := stack[|stack| - 1];
             && stack' == stack[..|stack| - 1] + pushed
             && live <= live'
             && (forall k :: k in live' ==> k in m.sizes)
             && (forall k :: k in live' && k !in live ==>
                   (k == x.start && x.place == MustBeOnHeap) || (Waiting(m, k) in pushed && PointsInto(m, x.start, x.size, k)))
             && (forall y :: y in pushed ==>
                   y.start in live' && y.start in m.sizes && y == Waiting(m, y.start) && PointsInto(m, x.start, x.size, y.start))
             && RootDone(m, x, live')
    ensures Flooding(m, roots, live0, live', stack')
  {
    var x, rest := stack[|stack| - 1], stack[..|stack| - 1];
    assert stack == rest + [x];
    assert x in stack;
    forall y
      ensures y in stack' <==> y in rest || y in pushed
      ensures y in stack <==> y in rest || y == x
    {}
    forall k | PointsInto(m, x.start, x.size, k)
      ensures Reachable(m, roots, k)
    {
      if x in roots {
        assert FromRoot(m, roots, k);
        RootReached(m, roots, k);
      } else {
        assert Edge(m, x.start, k);
        NextReached(m, roots, x.start, k);
      }
    }
    Justify(m, roots, live0, live, live', x);
    StackGrows(m, roots, live, live', stack, stack', rest, pushed, x);
    RememberMore(m, roots, live, live', stack, stack', rest, pushed, x);
  }

  lemma Justify(m: Memory, roots: seq<Area>, live0: set<Addr>, live: set<Addr>, live': set<Addr>, x: Area)
    requires m.alignment >= 1 && Justified(m, roots, live0, live) && live <= live'
    requires forall k :: k in live' ==> k in m.sizes
    requires x in roots || (x.start in live && x.place == IgnoredOnHeap)
    requires forall k :: k in live' && k !in live ==> (k == x.start && x.place == MustBeOnHeap) || Reachable(m, roots, k)
    ensures Justified(m, roots, live0, live')
  {
    forall k | k in live' && k !in live
      ensures Reachable(m, roots, k)
    {
      if k == x.start && x.place == MustBeOnHeap {
        assert FromRoot(m, roots, k);
        RootReached(m, roots, k);
      }
    }
  }

  lemma StackGrows(m: Memory, roots: seq<Area>, live: set<Addr>, live': set<Addr>, stack: seq<Area>, stack': seq<Area>,
                   rest: seq<Area>, pushed: seq<Area>, x: Area)
    requires m.alignment >= 1 && StackOk(m, roots, live, stack) && live <= live'
    requires forall y :: y in stack' <==> y in rest || y in pushed
    requires forall y :: y in stack <==> y in rest || y == x
    requires forall y :: y in pushed ==>
               y.start in live' && y.start in m.sizes && y == Waiting(m, y.start) && Reachable(m, roots, y.start)
    ensures StackOk(m, roots, live', stack')
  {
    hide Reachable;
  }

  lemma RememberMore(m: Memory, roots: seq<Area>, live: set<Addr>, live': set<Addr>, stack: seq<Area>, stack': seq<Area>,
                     rest: seq<Area>, pushed: seq<Area>, x: Area)
    requires m.alignment >= 1 && live <= live' && forall k :: k in live' ==> k in m.sizes
    requires Remembered(m, roots, live, stack) && RootsExact(m, roots)
    requires forall y :: y in stack' <==> y in rest || y in pushed
    requires forall y :: y in stack <==> y in rest || y == x
    requires x in roots || (x.start in m.sizes && x == Waiting(m, x.start))
    requires forall k :: k in live' && k !in live ==> (k == x.start && x.place == MustBeOnHeap) || Waiting(m, k) in pushed
    requires RootDone(m, x, live')
    ensures Remembered(m, roots, live', stack')
  {
    forall k | k in live'
      ensures Waiting(m, k) in stack' || Scanned(m, k, m.sizes[k], live')
    {
      if k in live {
        if Waiting(m, k) !in stack {
          ScannedMore(m, k, m.sizes[k], live, live');
        }
      }
    }
    forall r | r in roots
      ensures r in stack' || RootDone(m, r, live')
    {
      if r !in stack {
        ScannedMore(m, r.start, r.size, live, live');
      }
    }
  }

  /** `live` is what was live before and what the roots lead to. */
  ghost predicate ReachedFrom(m: Memory, roots: seq<Area>, live0: set<Addr>, live: set<Addr>)
    requires m.alignment >= 1
  {
    forall k :: k in live <==> k in live0 || Reachable(m, roots, k)
  }

  /** With nothing left on the stack the flood has reached exactly what is reachable. */
  lemma FloodEnds(m: Memory, roots: seq<Area>, live0: set<Addr>, live: set<Addr>)
    requires m.alignment >= 1 && Flooding(m, roots, live0, live, [])
    ensures Closed(m, live)
    ensures ReachedFrom(m, roots, live0, live)
  {
    forall k | k in live
      ensures Scanned(m, k, m.sizes[k], live)
    {
      assert Waiting(m, k) !in [];
    }
    forall r | r in roots
      ensures RootDone(m, r, live)
    {
      assert r !in [];
    }
    forall k | Reachable(m, roots, k)
      ensures k in live
    {
      var n: nat :| ReachedIn(m, roots, n, k);
      ClosedReached(m, roots, live, n, k);
    }
  }
}
