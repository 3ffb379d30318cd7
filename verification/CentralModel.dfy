/**
  The central free lists of all size classes, the page heap behind them and the
  threads that use them, as a transition system.  One transition is what a thread
  does between two lock operations (or one call of ReleaseToSpans or
  FetchFromOneSpans under the lock); any thread may take the next transition.
  */
module CentralModel {
  import Arith
  import opened Options
  import opened Seqs

  type Obj = nat      // address of an object
  type SpanId = nat   // address of the first byte of a span

  /** What SizeMap says of every class; class 0 holds no objects. */
  datatype Config = Config(threads: nat, size: seq<nat>, bytes: seq<nat>, batch: seq<nat>) {
    ghost predicate Good() {
      && |size| == |bytes| == |batch| >= 1
      && forall cl :: 1 <= cl < |size| ==> 1 <= size[cl] <= bytes[cl] && 1 <= batch[cl]
    }

    function Capacity(cl: nat): nat
      requires |size| == |bytes| && 1 <= cl < |size| && 1 <= size[cl]
    {
      bytes[cl] / size[cl]
    }
  }

  const MAX_TRANSFER_ENTRIES: nat := 64

  /** max_cache_size_ and the initial cache_size_, as Init computes them. */
  function MaxCacheSize(c: Config, cl: nat): (r: nat)
    requires c.Good() && cl < |c.size|
    ensures r <= MAX_TRANSFER_ENTRIES
  {
    if cl == 0 then MAX_TRANSFER_ENTRIES
    else
      assert c.size[cl] * c.batch[cl] >= 1;
      Arith.Min(MAX_TRANSFER_ENTRIES, Arith.Max(1, 1024 * 1024 / (c.size[cl] * c.batch[cl])))
  }

  function InitialCacheSize(c: Config, cl: nat): nat
    requires c.Good() && cl < |c.size|
  {
    Arith.Min(16, MaxCacheSize(c, cl))
  }

  /** The maximum is the greatest number of entries, up to 64, whose objects make up 1 MB at most, but one entry
      is always allowed. */
  lemma MaxCacheIs(c: Config, cl: nat)
    requires c.Good() && 1 <= cl < |c.size|
    ensures var r, entry := MaxCacheSize(c, cl), c.size[cl] * c.batch[cl];
            && 1 <= r <= 64
            && (r == 1 || r * entry <= 0x10_0000)
            && (r == 64 || (r + 1) * entry > 0x10_0000)
    ensures InitialCacheSize(c, cl) == Arith.Min(16, MaxCacheSize(c, cl)) >= 1
  {
    var entry := c.size[cl] * c.batch[cl];
    assert entry >= 1;
    var q := 1024 * 1024 / entry;
    Arith.Between(1024 * 1024, entry);
    EntriesFit(q, entry, MaxCacheSize(c, cl));
  }

  lemma EntriesFit(q: nat, entry: nat, r: nat)
    requires entry >= 1 && entry * q <= 0x10_0000 < entry * (q + 1)
    requires r == Arith.Min(64, Arith.Max(1, q))
    ensures r == 1 || r * entry <= 0x10_0000
    ensures r == 64 || (r + 1) * entry > 0x10_0000
  {
    Arith.Order(entry, r, q);
    Arith.Order(entry, q + 1, r + 1);
    assert entry * r == r * entry && entry * (r + 1) == (r + 1) * entry;
  }

  /** A span: all objects cut from it, the chain of its free ones, and its refcount. */
  datatype Span = Span(cls: nat, all: seq<Obj>, free: seq<Obj>, refcount: int)

  /** One CentralFreeList. `slots` are the used transfer-cache entries, each a chain. */
  datatype FreeList = FreeList(nonempty: seq<SpanId>, empty: seq<SpanId>, numSpans: int,
                               counter: int, slots: seq<seq<Obj>>, cacheSize: int)

  /** The pieces a span is cut into: every `size` bytes while a whole piece fits. */
  function Carve(start: nat, size: nat, n: nat): (r: seq<Obj>)
    ensures |r| == n
  {
    seq(n, k requires 0 <= k < n => start + k * size)
  }

  lemma CarveNoDup(start: nat, size: nat, n: nat)
    requires size >= 1
    ensures NoDup(Carve(start, size, n))
    ensures n >= 1 ==> start in Carve(start, size, n)
  {
    var r := Carve(start, size, n);
    forall i, j | 0 <= i < j < n
      ensures r[i] != r[j]
    {
      assert j * size >= (i + 1) * size == i * size + size;
    }
    if n >= 1 {
      assert r[0] == start;
    }
  }

  /** The pieces of a span lie inside its bytes and do not overlap, and no further piece would fit. */
  lemma PiecesFill(start: nat, bytes: nat, size: nat)
    requires size >= 1
    ensures var r := Carve(start, size, bytes / size);
            && (forall i, j :: 0 <= i < j < |r| ==> r[i] + size <= r[j])
            && (forall k :: 0 <= k < |r| ==> start <= r[k] && r[k] + size <= start + bytes)
            && bytes < (|r| + 1) * size
  {
    var r := Carve(start, size, bytes / size);
    PieceInside(bytes, size, 0);
    forall i, j | 0 <= i < j < |r|
      ensures r[i] + size <= r[j]
    {
      PieceBefore(i, j, size);
    }
    forall k | 0 <= k < |r|
      ensures start <= r[k] && r[k] + size <= start + bytes
    {
      PieceInside(bytes, size, k);
    }
  }

  lemma PieceInside(bytes: nat, size: nat, k: nat)
    requires size >= 1
    ensures k < bytes / size ==> k * size + size <= bytes
    ensures bytes < (bytes / size + 1) * size
  {
    var n := bytes / size;
    Arith.Between(bytes, size);
    assert size * n == n * size && size * (n + 1) == (n + 1) * size;
    if k < n {
      PieceBefore(k, n, size);
    }
  }

  lemma PieceBefore(i: nat, j: nat, size: nat)
    requires i < j
    ensures i * size + size <= j * size
  {
    assert j * size >= (i + 1) * size == i * size + size;
  }

  lemma CapacityPositive(c: Config, cl: nat)
    requires c.Good() && 1 <= cl < |c.size|
    ensures c.Capacity(cl) == c.bytes[cl] / c.size[cl] >= 1
  {
    Arith.Between(c.bytes[cl], c.size[cl]);
    Arith.Order(c.size[cl], 1, c.Capacity(cl) + 1);
  }

  // ------------------------------------------------------------------
  // Effects of the critical sections on one list and the spans it owns
  // ------------------------------------------------------------------

  datatype Fetched = Fetched(list: FreeList, spans: map<SpanId, Span>, chain: seq<Obj>)
  datatype Released = Released(list: FreeList, spans: map<SpanId, Span>, gone: bool)

  ghost predicate ListedSpans(l: FreeList, spans: map<SpanId, Span>) {
    forall id :: id in l.nonempty ==> id in spans && spans[id].free != []
  }

  /** FetchFromOneSpans: up to `n` objects off the first span that has any. */
  function Fetch(l: FreeList, spans: map<SpanId, Span>, n: nat): Fetched
    requires ListedSpans(l, spans)
  {
    if l.nonempty == [] then Fetched(l, spans, [])
    else
      var id := l.nonempty[0];
      var sp := spans[id];
      var k := if n < |sp.free| then (if n == 0 then 1 else n) else |sp.free|;
      var rest := sp.free[k..];
      Fetched(
        l.(nonempty := if rest == [] then l.nonempty[1..] else l.nonempty,
           empty := if rest == [] then [id] + l.empty else l.empty,
           counter := l.counter - k),
        spans[id := sp.(free := rest, refcount := sp.refcount + k)],
        sp.free[..k])
  }

  /** Nothing is fetched exactly if no span has a free object. */
  lemma FetchEmptyIff(l: FreeList, spans: map<SpanId, Span>, n: nat)
    requires n > 0 && ListedSpans(l, spans)
    ensures Fetch(l, spans, n).chain == [] <==> l.nonempty == []
    ensures l.nonempty == [] ==> Fetch(l, spans, n) == Fetched(l, spans, [])
  {
    if l.nonempty != [] {
      assert l.nonempty[0] in l.nonempty;
    }
  }

  /** ReleaseToSpans up to the point where it drops the lock: give one object back to
      span `id`; `gone` when that was the last object in use and the span leaves. */
  function Release(c: Config, l: FreeList, spans: map<SpanId, Span>, id: SpanId, o: Obj): Released
    requires c.Good() && id in spans && 1 <= spans[id].cls < |c.size|
  {
    var sp := spans[id];
    var l1 := if sp.free == [] then l.(empty := Without(l.empty, id), nonempty := [id] + l.nonempty) else l;
    var l2 := l1.(counter := l1.counter + 1);
    if sp.refcount - 1 == 0 then
      Released(
        l2.(counter := l2.counter - c.Capacity(sp.cls),
            nonempty := Without(l2.nonempty, id),
            numSpans := l2.numSpans - 1),
        spans - {id}, true)
    else
      Released(l2, spans[id := sp.(free := [o] + sp.free, refcount := sp.refcount - 1)], false)
  }

  /** The end of Populate: hang a freshly carved span on the list. */
  function Link(l: FreeList, spans: map<SpanId, Span>, id: SpanId, sp: Span): (FreeList, map<SpanId, Span>) {
    (l.(nonempty := [id] + l.nonempty, numSpans := l.numSpans + 1, counter := l.counter + |sp.all|),
     spans[id := sp])
  }

  /** The span hung on last is the first to be fetched from, from its first piece on. */
  lemma LinkedFirst(l: FreeList, spans: map<SpanId, Span>, id: SpanId, sp: Span, n: nat)
    requires ListedSpans(l, spans) && id !in l.nonempty && sp.free == sp.all != [] && n > 0
    ensures var (l', spans') := Link(l, spans, id, sp);
            && ListedSpans(l', spans')
            && var f := Fetch(l', spans', n);
               && f.chain == sp.all[..Arith.Min(n, |sp.all|)] && f.chain + f.spans[id].free == sp.all
               && (n < |sp.all| ==> f.list.nonempty == l'.nonempty && f.list.empty == l.empty)
               && (n >= |sp.all| ==> f.list.nonempty == l.nonempty && f.list.empty == [id] + l.empty)
               && f.list.counter == l.counter + |f.spans[id].free| && f.list.numSpans == l.numSpans + 1
  {
    var (l', spans') := Link(l, spans, id, sp);
    var f := Fetch(l', spans', n);
    if n < |sp.all| {
      assert f.chain == sp.all[..n] && f.spans[id].free == sp.all[n..];
    } else {
      assert f.chain == sp.all && f.spans[id].free == [];
      assert l'.nonempty[1..] == l.nonempty;
    }
  }

  /** An object given back to a span that had none free is the next to be fetched, and that undoes it. */
  lemma ReleasedFirst(c: Config, l: FreeList, spans: map<SpanId, Span>, id: SpanId, o: Obj)
    requires c.Good() && id in spans && 1 <= spans[id].cls < |c.size| && ListedSpans(l, spans)
    requires spans[id].free == [] && id !in l.nonempty && spans[id].refcount > 1
    ensures var r := Release(c, l, spans, id, o);
            && !r.gone && ListedSpans(r.list, r.spans)
            && var f := Fetch(r.list, r.spans, 1);
               && f.chain == [o] && f.spans == spans
               && f.list == l.(empty := [id] + Without(l.empty, id))
  {
    var r := Release(c, l, spans, id, o);
    assert r.list.nonempty[1..] == l.nonempty;
    assert Fetch(r.list, r.spans, 1).spans == spans;
  }

  // ------------------------------------------------------------------
  // Threads
  // ------------------------------------------------------------------

  /** What follows when a ReleaseListToSpans comes to its end: InsertRange returns, or
      ShrinkCache returns true to the InsertRange of class `cl` that forced the eviction. */
  datatype After = Return | BackTo(cl: nat, chain: seq<Obj>)

  /** What the page heap has done for the RemoveRange call at hand. */
  datatype HeapAnswer = NotAsked | Gave | Refused

  /** Where a thread stands. `force` is the argument of the EvictRandomSizeClass call at
      hand, `won` its result. */
  datatype Pc =
    | Idle
    | InsertWait(cl: nat, chain: seq<Obj>)
    | InsertHeld(cl: nat, chain: seq<Obj>)
    | EvictHeld(cl: nat, chain: seq<Obj>, force: bool)
    | ShrinkWait(cl: nat, chain: seq<Obj>, force: bool, victim: nat)
    | ShrinkHeld(cl: nat, chain: seq<Obj>, force: bool, victim: nat)
    | ReturnWait(cl: nat, chain: seq<Obj>, force: bool, won: bool)
    | ReturnHeld(cl: nat, chain: seq<Obj>, force: bool, won: bool)
    | ReleaseHeld(at: nat, rest: seq<Obj>, next: After)
    | DeleteWait(at: nat, rest: seq<Obj>, next: After, id: SpanId, span: Span)
    | DeleteHeld(at: nat, rest: seq<Obj>, next: After, id: SpanId, span: Span)
    | ReleaseWait(at: nat, rest: seq<Obj>, next: After)
    | RemoveWait(cl: nat, n: nat)
    | RemoveHeld(cl: nat, n: nat)
    | FetchHeld(cl: nat, n: nat, got: seq<Obj>, heap: HeapAnswer)
    | PopulateWait(cl: nat, n: nat)
    | PopulateHeld(cl: nat, n: nat)
    | LinkWait(cl: nat, n: nat, id: SpanId, carved: Option<Span>)
    | LinkHeld(cl: nat, n: nat, id: SpanId, carved: Option<Span>)

  /** What the schedule decides: the calls made, which class EvictRandomSizeClass picks and
      what ShrinkCache's unlocked test sees, and what the page heap gives. */
  datatype Choice =
    | CallInsert(cl: nat, chain: seq<Obj>)
    | CallRemove(cl: nat, n: nat)
    | Victim(victim: nat, worthTrying: bool)
    | NewSpan(start: SpanId)
    | NoMemory
    | Go

  datatype Sys = Sys(
    lists: seq<FreeList>,
    locks: seq<Option<nat>>,        // holder of each list's lock
    heapLock: Option<nat>,          // holder of pageheap_lock
    spans: map<SpanId, Span>,       // spans some list owns
    pagemap: map<Obj, SpanId>,      // MapObjectToSpan, for every span the page heap has out
    out: set<Obj>,                  // objects handed to the thread caches
    pcs: seq<Pc>)

  ghost predicate Shape(c: Config, s: Sys) {
    && c.Good()
    && |s.lists| == |s.locks| == |c.size|
    && |s.pcs| == c.threads
  }

  function SetPc(s: Sys, t: nat, pc: Pc): Sys
    requires t < |s.pcs|
  {
    s.(pcs := s.pcs[t := pc])
  }

  /** lock_.Lock() of class `cl`, if it is free. */
  function Lock(s: Sys, t: nat, cl: nat, pc: Pc): Option<Sys>
    requires t < |s.pcs|
  {
    if cl < |s.locks| && s.locks[cl] == None
    then Some(SetPc(s, t, pc).(locks := s.locks[cl := Some(t)]))
    else None
  }

  function Unlock(s: Sys, t: nat, cl: nat, pc: Pc): Sys
    requires t < |s.pcs| && cl < |s.locks|
  {
    SetPc(s, t, pc).(locks := s.locks[cl := None])
  }

  function LockHeap(s: Sys, t: nat, pc: Pc): Option<Sys>
    requires t < |s.pcs|
  {
    if s.heapLock == None then Some(SetPc(s, t, pc).(heapLock := Some(t))) else None
  }

  /** A caller of InsertRange passes a chain of objects of the class that it holds;
      a caller of RemoveRange asks for at least one object. */
  ghost predicate MayCall(c: Config, s: Sys, ch: Choice) {
    match ch
    case CallInsert(cl, chain) =>
      && 1 <= cl < |c.size|
      && chain != []
      && NoDup(chain)
      && forall o :: o in chain ==>
           o in s.out && o in s.pagemap && s.pagemap[o] in s.spans && s.spans[s.pagemap[o]].cls == cl
    case CallRemove(cl, n) => 1 <= cl < |c.size| && n > 0
    case _ => false
  }

  ghost function Call(c: Config, s: Sys, t: nat, ch: Choice): Option<Sys>
    requires t < |s.pcs|
  {
    if !MayCall(c, s, ch) then None
    else match ch
      case CallInsert(cl, chain) =>
        Some(SetPc(s, t, InsertWait(cl, chain)).(out := s.out - Elems(chain)))
      case CallRemove(cl, n) => Some(SetPc(s, t, RemoveWait(cl, n)))
      case _ => None
  }

  /** InsertRange and the first tests of MakeCacheSpace. */
  function Insert(c: Config, s: Sys, t: nat, cl: nat, chain: seq<Obj>): Sys
    requires c.Good() && t < |s.pcs| && cl < |s.lists| && cl < |s.locks| && cl < |c.size|
  {
    var l := s.lists[cl];
    if |chain| != c.batch[cl] then SetPc(s, t, ReleaseHeld(cl, chain, Return))
    else if |l.slots| < l.cacheSize then Store(s, t, cl, chain)
    else if l.cacheSize == MaxCacheSize(c, cl) then SetPc(s, t, ReleaseHeld(cl, chain, Return))
    else SetPc(s, t, EvictHeld(cl, chain, false))
  }

  /** Put the chain into the next transfer-cache slot and return. */
  function Store(s: Sys, t: nat, cl: nat, chain: seq<Obj>): Sys
    requires t < |s.pcs| && cl < |s.lists| && cl < |s.locks|
  {
    var l := s.lists[cl];
    Unlock(s, t, cl, Idle).(lists := s.lists[cl := l.(slots := l.slots + [chain])])
  }

  /** EvictRandomSizeClass returned false. */
  function NotEvicted(s: Sys, t: nat, cl: nat, chain: seq<Obj>, force: bool): Sys
    requires t < |s.pcs|
  {
    SetPc(s, t, if force then ReleaseHeld(cl, chain, Return) else EvictHeld(cl, chain, true))
  }

  function Evict(s: Sys, t: nat, cl: nat, chain: seq<Obj>, force: bool, ch: Choice): Option<Sys>
    requires t < |s.pcs| && cl < |s.locks|
  {
    match ch
    case Victim(v, worthTrying) =>
      if v >= |s.lists| then None
      else if v == cl || !worthTrying then Some(NotEvicted(s, t, cl, chain, force))
      else Some(Unlock(s, t, cl, ShrinkWait(cl, chain, force, v)))
    case _ => None
  }

  /** ShrinkCache after the LockInverter has taken the victim's lock. */
  function Shrink(s: Sys, t: nat, cl: nat, chain: seq<Obj>, force: bool, v: nat): Sys
    requires t < |s.pcs| && v < |s.lists| && v < |s.locks|
  {
    var l := s.lists[v];
    if l.cacheSize == 0 then Unlock(s, t, v, ReturnWait(cl, chain, force, false))
    else if |l.slots| == l.cacheSize then
      if !force then Unlock(s, t, v, ReturnWait(cl, chain, force, false))
      else
        var last := |l.slots| - 1;
        if last < 0 then s
        else SetPc(s, t, ReleaseHeld(v, l.slots[last], BackTo(cl, chain)))
             .(lists := s.lists[v := l.(slots := l.slots[..last], cacheSize := l.cacheSize - 1)])
    else Unlock(s, t, v, ReturnWait(cl, chain, force, true))
         .(lists := s.lists[v := l.(cacheSize := l.cacheSize - 1)])
  }

  /** MakeCacheSpace once it has its own lock back. */
  function Returned(c: Config, s: Sys, t: nat, cl: nat, chain: seq<Obj>, force: bool, won: bool): Sys
    requires c.Good() && t < |s.pcs| && cl < |s.lists| && cl < |s.locks| && cl < |c.size|
  {
    var l := s.lists[cl];
    if !won then NotEvicted(s, t, cl, chain, force)
    else if l.cacheSize < MaxCacheSize(c, cl) then
      Store(s.(lists := s.lists[cl := l.(cacheSize := l.cacheSize + 1)]), t, cl, chain)
    else SetPc(s, t, ReleaseHeld(cl, chain, Return))
  }

  /** One turn of the loop of ReleaseListToSpans, or its end. */
  function ReleaseStep(c: Config, s: Sys, t: nat, at: nat, rest: seq<Obj>, next: After): Option<Sys>
    requires c.Good() && t < |s.pcs| && at < |s.lists| && at < |s.locks|
  {
    if rest == [] then
      Some(Unlock(s, t, at, if next.Return? then Idle else ReturnWait(next.cl, next.chain, true, true)))
    else if rest[0] !in s.pagemap then None
    else
      var id := s.pagemap[rest[0]];
      if id !in s.spans || !(1 <= s.spans[id].cls < |c.size|) then None
      else
        var r := Release(c, s.lists[at], s.spans, id, rest[0]);
        var s1 := s.(lists := s.lists[at := r.list], spans := r.spans);
        if r.gone then Some(Unlock(s1, t, at, DeleteWait(at, rest[1..], next, id, s.spans[id])))
        else Some(SetPc(s1, t, ReleaseHeld(at, rest[1..], next)))
  }

  /** pageheap()->Delete(span): its pages no longer lead to it. */
  function Delete(s: Sys, t: nat, at: nat, rest: seq<Obj>, next: After, id: SpanId): Sys
    requires t < |s.pcs|
  {
    SetPc(s, t, ReleaseWait(at, rest, next))
    .(heapLock := None, pagemap := map o | o in s.pagemap && s.pagemap[o] != id :: s.pagemap[o])
  }

  function Remove(c: Config, s: Sys, t: nat, cl: nat, n: nat): Sys
    requires t < |s.pcs| && cl < |s.lists| && cl < |s.locks| && cl < |c.batch|
  {
    var l := s.lists[cl];
    if n == c.batch[cl] && l.slots != [] then
      var last := |l.slots| - 1;
      Unlock(s, t, cl, Idle)
      .(lists := s.lists[cl := l.(slots := l.slots[..last])], out := s.out + Elems(l.slots[last]))
    else SetPc(s, t, FetchHeld(cl, n, [], NotAsked))
  }

  /** RemoveRange returns the chain it has collected. */
  ghost function Deliver(s: Sys, t: nat, cl: nat, got: seq<Obj>): Sys
    requires t < |s.pcs| && cl < |s.locks|
  {
    Unlock(s, t, cl, Idle).(out := s.out + Elems(got))
  }

  /** One FetchFromOneSpans call of FetchFromOneSpansSafe or of RemoveRange's loop. */
  ghost function FetchStep(s: Sys, t: nat, cl: nat, n: nat, got: seq<Obj>, heap: HeapAnswer): Option<Sys>
    requires t < |s.pcs| && cl < |s.lists| && cl < |s.locks|
  {
    if |got| >= n then Some(Deliver(s, t, cl, got))
    else if !ListedSpans(s.lists[cl], s.spans) then None
    else
      var f := Fetch(s.lists[cl], s.spans, n - |got|);
      if f.chain == [] then
        if got == [] && heap.NotAsked? then Some(Unlock(s, t, cl, PopulateWait(cl, n)))
        else Some(Deliver(s, t, cl, got))
      else
        Some(SetPc(s, t, FetchHeld(cl, n, f.chain + got, heap))
             .(lists := s.lists[cl := f.list], spans := f.spans))
  }

  /** pageheap()->New and the carving loop. The page heap gives a span whose bytes, so whose
      objects, no other span has. */
  ghost function Populate(c: Config, s: Sys, t: nat, cl: nat, n: nat, ch: Choice): Option<Sys>
    requires c.Good() && t < |s.pcs| && 1 <= cl < |c.size|
  {
    match ch
    case NewSpan(start) =>
      var all := Carve(start, c.size[cl], c.Capacity(cl));
      if exists o :: o in all && o in s.pagemap then None
      else Some(SetPc(s, t, LinkWait(cl, n, start, Some(Span(cl, all, all, 0))))
                .(heapLock := None, pagemap := s.pagemap + map o | o in all :: start))
    case NoMemory => Some(SetPc(s, t, LinkWait(cl, n, 0, None)).(heapLock := None))
    case _ => None
  }

  function LinkStep(s: Sys, t: nat, cl: nat, n: nat, id: SpanId, span: Option<Span>): Sys
    requires t < |s.pcs| && cl < |s.lists|
  {
    match span
    case None => SetPc(s, t, FetchHeld(cl, n, [], Refused))
    case Some(sp) =>
      var (l, spans) := Link(s.lists[cl], s.spans, id, sp);
      SetPc(s, t, FetchHeld(cl, n, [], Gave)).(lists := s.lists[cl := l], spans := spans)
  }

  ghost predicate ClassesInRange(c: Config, pc: Pc) {
    match pc
    case Idle => true
    case InsertWait(cl, _) => 1 <= cl < |c.size|
    case InsertHeld(cl, _) => 1 <= cl < |c.size|
    case EvictHeld(cl, _, _) => 1 <= cl < |c.size|
    case ShrinkWait(cl, _, _, v) => 1 <= cl < |c.size| && v < |c.size|
    case ShrinkHeld(cl, _, _, v) => 1 <= cl < |c.size| && v < |c.size|
    case ReturnWait(cl, _, _, _) => 1 <= cl < |c.size|
    case ReturnHeld(cl, _, _, _) => 1 <= cl < |c.size|
    case ReleaseHeld(at, _, _) => at < |c.size|
    case DeleteWait(at, _, _, _, _) => at < |c.size|
    case DeleteHeld(at, _, _, _, _) => at < |c.size|
    case ReleaseWait(at, _, _) => at < |c.size|
    case RemoveWait(cl, _) => 1 <= cl < |c.size|
    case RemoveHeld(cl, _) => 1 <= cl < |c.size|
    case FetchHeld(cl, _, _, _) => 1 <= cl < |c.size|
    case PopulateWait(cl, _) => 1 <= cl < |c.size|
    case PopulateHeld(cl, _) => 1 <= cl < |c.size|
    case LinkWait(cl, _, _, _) => 1 <= cl < |c.size|
    case LinkHeld(cl, _, _, _) => 1 <= cl < |c.size|
  }

  /** Thread `t` takes its next transition; None when it has to wait (or the choice does
      not fit). */
  ghost function Step(c: Config, s: Sys, t: nat, ch: Choice): Option<Sys>
    requires Shape(c, s) && t < c.threads && ClassesInRange(c, s.pcs[t])
  {
    match s.pcs[t]
    case Idle => Call(c, s, t, ch)
    case InsertWait(cl, chain) => Lock(s, t, cl, InsertHeld(cl, chain))
    case InsertHeld(cl, chain) => Some(Insert(c, s, t, cl, chain))
    case EvictHeld(cl, chain, force) => Evict(s, t, cl, chain, force, ch)
    case ShrinkWait(cl, chain, force, v) => Lock(s, t, v, ShrinkHeld(cl, chain, force, v))
    case ShrinkHeld(cl, chain, force, v) => Some(Shrink(s, t, cl, chain, force, v))
    case ReturnWait(cl, chain, force, won) => Lock(s, t, cl, ReturnHeld(cl, chain, force, won))
    case ReturnHeld(cl, chain, force, won) => Some(Returned(c, s, t, cl, chain, force, won))
    case ReleaseHeld(at, rest, next) => ReleaseStep(c, s, t, at, rest, next)
    case DeleteWait(at, rest, next, id, span) => LockHeap(s, t, DeleteHeld(at, rest, next, id, span))
    case DeleteHeld(at, rest, next, id, span) => Some(Delete(s, t, at, rest, next, id))
    case ReleaseWait(at, rest, next) => Lock(s, t, at, ReleaseHeld(at, rest, next))
    case RemoveWait(cl, n) => Lock(s, t, cl, RemoveHeld(cl, n))
    case RemoveHeld(cl, n) => Some(Remove(c, s, t, cl, n))
    case FetchHeld(cl, n, got, heap) => FetchStep(s, t, cl, n, got, heap)
    case PopulateWait(cl, n) => LockHeap(s, t, PopulateHeld(cl, n))
    case PopulateHeld(cl, n) => Populate(c, s, t, cl, n, ch)
    case LinkWait(cl, n, id, span) => Lock(s, t, cl, LinkHeld(cl, n, id, span))
    case LinkHeld(cl, n, id, span) => Some(LinkStep(s, t, cl, n, id, span))
  }
}
