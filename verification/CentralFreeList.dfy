/**
  One CentralFreeList as the code keeps it: free objects are chained through their own
  first words, and a transfer-cache entry has the two ends of a chain.  Each method is proved
  to have on chains and lists the effect that CentralModel gives the transition.  Where the code
  drops its lock, the list continues in any state that other threads may have left.
  */
module CentralFreeList {
  import Arith
  import opened CentralChains
  import opened CentralModel
  import opened Options
  import opened Seqs

  /** What a list and its spans are at one time. */
  datatype Moment = Moment(list: FreeList, view: map<SpanId, Span>, pagemap: map<Obj, SpanId>)

  /** What giving back `o` makes of the list; `other` is how it is found after the lock has been dropped. */
  ghost function Given(c: Config, m: Moment, o: Obj, other: Moment): Moment {
    if c.Good() && Home(m.view, m.pagemap, o) && 1 <= m.view[m.pagemap[o]].cls < |c.size| then
      var r := Release(c, m.list, m.view, m.pagemap[o], o);
      if r.gone then other else Moment(r.list, r.spans, m.pagemap)
    else m
  }

  /** All of `chain` is given back, from the first to the last. */
  ghost function GivenAll(c: Config, m: Moment, chain: seq<Obj>, others: seq<Moment>): Moment
    requires |others| == |chain|
  {
    if chain == [] then m
    else
      var k := |chain| - 1;
      Given(c, GivenAll(c, m, chain[..k], others[..k]), chain[k], others[k])
  }

  lemma GivenNext(c: Config, m: Moment, chain: seq<Obj>, others: seq<Moment>, k: nat)
    requires |others| == |chain| && k < |chain|
    ensures GivenAll(c, m, chain[..k + 1], others[..k + 1])
         == Given(c, GivenAll(c, m, chain[..k], others[..k]), chain[k], others[k])
  {
    assert chain[..k + 1][..k] == chain[..k] && others[..k + 1][..k] == others[..k];
  }

  lemma GivenIs(c: Config, l: FreeList, view: map<SpanId, Span>, pagemap: map<Obj, SpanId>, o: Obj, r: Released,
                other: Moment)
    requires IsReleased(c, l, view, pagemap, o, r)
    ensures Given(c, Moment(l, view, pagemap), o, other) == if r.gone then other else Moment(r.list, r.spans, pagemap)
  {}

  /** As long as no span can go (each has more objects in use than are given back), all objects of the chain
      are free afterwards, each counted once, and no span is lost. */
  lemma {:induction false} AllBack(c: Config, m: Moment, chain: seq<Obj>, others: seq<Moment>)
    requires c.Good() && |others| == |chain|
    requires forall o :: o in chain ==> Home(m.view, m.pagemap, o)
    requires forall id :: id in m.view ==> 1 <= m.view[id].cls < |c.size| && m.view[id].refcount > |chain|
    ensures var r := GivenAll(c, m, chain, others);
            && r.list.counter == m.list.counter + |chain| && r.list.numSpans == m.list.numSpans
            && r.pagemap == m.pagemap && r.view.Keys == m.view.Keys
            && (forall o :: o in chain ==> Home(r.view, m.pagemap, o) && o in r.view[m.pagemap[o]].free)
            && (forall id :: id in m.view ==> r.view[id].cls == m.view[id].cls
                                              && r.view[id].refcount >= m.view[id].refcount - |chain|
                                              && forall o :: o in m.view[id].free ==> o in r.view[id].free)
  {
    if chain != [] {
      var k := |chain| - 1;
      AllBack(c, m, chain[..k], others[..k]);
      var m1 := GivenAll(c, m, chain[..k], others[..k]);
      assert chain == chain[..k] + [chain[k]] && chain[k] in chain;
      assert Home(m.view, m.pagemap, chain[k]);
      GivenOne(c, m1, chain[k], others[k]);
      hide Given;
    }
  }

  lemma GivenOne(c: Config, m: Moment, o: Obj, other: Moment)
    requires c.Good() && Home(m.view, m.pagemap, o)
    requires var id := m.pagemap[o]; 1 <= m.view[id].cls < |c.size| && m.view[id].refcount > 1
    ensures var r, id := Given(c, m, o, other), m.pagemap[o];
            && r.list.counter == m.list.counter + 1 && r.list.numSpans == m.list.numSpans && r.pagemap == m.pagemap
            && r.view == m.view[id := m.view[id].(free := [o] + m.view[id].free, refcount := m.view[id].refcount - 1)]
  {
    hide Without;
  }

  ghost function Grown(m: Moment): Moment {
    m.(list := m.list.(cacheSize := m.list.cacheSize + 1))
  }

  ghost function Stored(m: Moment, chain: seq<Obj>): Moment {
    m.(list := m.list.(slots := m.list.slots + [chain]))
  }

  /** Populate's carving loop: thread a fresh block of `bytes` bytes into a chain of pieces. */
  method CarveSpan(mem: Memory, start: Obj, bytes: nat, size: nat) returns (mem': Memory, head: Obj, num: nat)
    requires start != NULL && 1 <= size <= bytes
    ensures num == bytes / size
    ensures Chain(mem', head, Carve(start, size, num))
    ensures OnlyPieces(mem, mem', Carve(start, size, num))
  {
    hide Carve, Chain, Threaded;
    mem' := mem;
    var ptr, limit := start, start + bytes;
    var tail := NULL;   // NULL stands for span->objects itself
    head := NULL;
    num := 0;
    ghost var pieces := [];
    CarveNext(start, size, 0);
    CarveNone(mem, start, size);
    while ptr + size <= limit
      invariant ptr == start + num * size <= limit
      invariant pieces == Carve(start, size, num) && |pieces| == num && NoDup(pieces) && NULL !in pieces
      invariant if num == 0 then tail == NULL else tail == pieces[num - 1] && head == pieces[0]
      invariant Threaded(mem', pieces)
      invariant OnlyPieces(mem, mem', pieces)
      decreases limit - ptr
    {
      CarveNext(start, size, num);
      CarveNext(start, size, num + 1);
      ghost var before := mem';
      if tail == NULL {
        head := ptr;
      } else {
        mem' := mem'[tail := ptr];
      }
      ThreadNext(before, pieces, ptr, mem');
      pieces := pieces + [ptr];
      tail := ptr;
      ptr := ptr + size;
      num := num + 1;
    }
    assert num * size == size * num && size * (num + 1) == size * num + size;
    Arith.QuotientIs(bytes, size, num);
    ThreadEnd(mem', pieces, mem'[tail := NULL]);
    mem' := mem'[tail := NULL];
  }

  class List {
    const c: Config
    const cl: nat                           // the size class
    var mem: Memory
    var pagemap: map<Obj, SpanId>           // MapObjectToSpan
    var spans: map<SpanId, SpanRecord>
    var nonempty: seq<SpanId>
    var empty: seq<SpanId>
    var numSpans: int
    var counter: int
    var slots: seq<Entry>                   // the used transfer-cache entries
    var cacheSize: nat
    ghost var view: map<SpanId, Span>       // the spans as CentralModel sees them
    ghost var cached: seq<seq<Obj>>         // the chains of the entries

    ghost predicate Valid()
      reads this
    {
      InOrder(mem, pagemap, spans, view, nonempty) && AllOf(view, cl)
    }

    /** The entries are the ends of whole chains, which are apart from each other and from all
        spans' free chains. */
    ghost predicate CacheOk()
      reads this
    {
      && c.Good() && 1 <= cl < |c.size|
      && |slots| <= cacheSize <= MaxCacheSize(c, cl)
      && Cached(mem, pagemap, view, slots, cached, c.batch[cl])
    }

    /** The list as CentralModel sees it. */
    ghost function AsList(): FreeList
      reads this
    {
      FreeList(nonempty, empty, numSpans, counter, cached, cacheSize)
    }

    /** Init */
    constructor (c: Config, cl: nat, mem: Memory)
      requires c.Good() && 1 <= cl < |c.size|
      ensures Valid() && CacheOk() && this.c == c && this.cl == cl && this.mem == mem
      ensures AsList() == FreeList([], [], 0, 0, [], InitialCacheSize(c, cl)) && view == map[]
    {
      this.c, this.cl, this.mem := c, cl, mem;
      pagemap, spans, view := map[], map[], map[];
      nonempty, empty, numSpans, counter := [], [], 0, 0;
      slots, cached, cacheSize := [], [], InitialCacheSize(c, cl);
    }

    /** The do-while loop of FetchFromOneSpans: follow the links to the last object to take. */
    method Walk(n: nat, id: SpanId) returns (count: nat, last: Obj)
      requires n > 0 && id in spans && id in view && view[id].free != []
      requires Chain(mem, spans[id].objects, view[id].free)
      ensures count == Arith.Min(n, |view[id].free|) > 0 && last == view[id].free[count - 1] && last in mem
    {
      ghost var chain := view[id].free;
      assert Links(mem, chain[0], Following(chain, 0));
      last := spans[id].objects;
      var curr := mem[last];
      count := 1;
      while count < n && curr != NULL
        invariant 1 <= count <= |chain| && count <= n
        invariant last == chain[count - 1]
        invariant curr == Following(chain, count - 1)
        decreases |chain| - count
      {
        assert Links(mem, chain[count], Following(chain, count));
        last := curr;
        curr := mem[curr];
        count := count + 1;
      }
      assert count < |chain| ==> Links(mem, chain[count], Following(chain, count));
    }

    /** FetchFromOneSpans: the first up to `n` objects of the first nonempty span. */
    method FetchFromOneSpans(n: nat) returns (result: nat, start: Obj, end: Obj)
      requires Valid() && n > 0
      modifies this`mem, this`spans, this`nonempty, this`empty, this`counter, this`view
      ensures Valid()
      ensures Ready(old(AsList()), old(view))
      ensures Untouched(old(mem), old(view), mem, view)
      ensures result == 0 ==> start == NULL && end == NULL
      ensures var f := Fetch(old(AsList()), old(view), n);
              && f == Fetched(AsList(), view, f.chain) && result == |f.chain|
              && (if result == 0 then mem == old(mem)
                  else mem == old(mem)[end := NULL] && Taken(mem, view, start, end, f.chain))
              && FromFree(old(view), view, f.chain)
    {
      hide Untouched, InOrder, AllOf, Fetch, Chain, ApartFrom, ListedSpans, Ready, Taken, FromFree;
      ghost var list0, view0, spans0, mem0 := AsList(), view, spans, mem;
      OrderListed(mem, pagemap, spans, view, list0);
      FetchEmptyIff(list0, view, n);
      FetchClasses(list0, view, n, cl);
      if nonempty == [] {
        FromNothing(view);
        UntouchedSame(mem, view);
        return 0, NULL, NULL;
      }
      var id := nonempty[0];
      FirstReady(list0, view, id);
      OrderOf(mem, pagemap, spans, view, nonempty, id);
      result, end := Walk(n, id);
      start := spans[id].objects;
      var rest := mem[end];
      if rest == NULL {
        nonempty, empty := nonempty[1..], [id] + empty;
      }
      spans := spans[id := spans[id].(objects := rest, refcount := spans[id].refcount + result)];
      mem := mem[end := NULL];
      counter := counter - result;
      view := Fetch(list0, view, n).spans;
      FetchInOrder(mem0, pagemap, spans0, view0, list0, n, id, result, end, mem, spans, AsList());
      FetchSpares(mem0, view0, mem, view, start, end, Fetch(list0, view0, n).chain);
    }

    /** SLL_PushRange: put the chain start..end in front of the chain at `head`. */
    method PushRange(head: Obj, start: Obj, end: Obj, ghost last: Obj, ghost rest: seq<Obj>, ghost range: seq<Obj>)
      returns (newHead: Obj)
      requires Valid()
      requires Taken(mem, view, head, last, rest)
      requires range != [] ==> Taken(mem, view, start, end, range)
      requires range == [] ==> start == NULL
      requires forall o :: o in range ==> o !in rest
      modifies this`mem
      ensures Valid()
      ensures Taken(mem, view, newHead, last, range + rest)
      ensures mem == if range == [] then old(mem) else old(mem)[end := head]
    {
      if start == NULL {
        EmptyChain(mem, start, range);
        assert range + rest == rest;
        return head;
      }
      mem := mem[end := head];
      newHead := start;
      TakenJoin(old(mem), view, start, end, range, head, last, rest);
      hide InOrder, Taken, ApartFrom;
      OrderKept(old(mem), end, head, pagemap, spans, view, nonempty);
    }

    /** The loop with which RemoveRange tops up what FetchFromOneSpansSafe gave it: it ends at
        `n` objects or when no span has a free one, and `end` stays the last of the chain. */
    method TopUp(n: nat, fetched: nat, first: Obj, end: Obj, ghost got: seq<Obj>)
      returns (result: nat, start: Obj, ghost chain: seq<Obj>)
      requires Valid() && |got| == fetched <= n && Taken(mem, view, first, end, got)
      modifies this`mem, this`spans, this`nonempty, this`empty, this`counter, this`view
      ensures Valid() && Ready(old(AsList()), old(view))
      ensures Untouched(old(mem), old(view), mem, view)
      ensures |got| <= |chain| && FromFree(old(view), view, chain[..|chain| - |got|]) && chain[|chain| - |got|..] == got
      ensures Collect(old(AsList()), old(view), n, got) == Fetched(AsList(), view, chain)
      ensures Taken(mem, view, start, end, chain) && result == |chain| <= n
      ensures result < n ==> nonempty == []
    {
      hide Collect, InOrder, Ready, Taken, FromFree, Untouched;
      result, start, chain := fetched, first, got;
      ghost var mem0, view0 := mem, view;
      ghost var more := [];
      FromNothing(view);
      UntouchedSame(mem, view);
      assert [] + got == got;
      OrderListed(mem, pagemap, spans, view, AsList());
      ghost var want := Collect(AsList(), view, n, got);
      while result < n
        invariant Valid() && |chain| == result <= n
        invariant Taken(mem, view, start, end, chain)
        invariant Ready(AsList(), view)
        invariant Collect(AsList(), view, n, chain) == want
        invariant Untouched(mem0, view0, mem, view)
        invariant chain == more + got && FromFree(view0, view, more)
        decreases n - result
      {
        var done;
        ghost var mem1, view1, chain1 := mem, view, chain;
        ghost var next;
        done, result, start, next := TopUpOnce(n, result, start, end, chain);
        chain := next + chain;
        UntouchedForth(mem0, view0, mem1, view1, mem, view);
        FromFreeForth(view0, view1, view, more, next);
        assert next + chain1 == next + more + got;
        more := next + more;
        if done {
          break;
        }
      }
      CollectEnd(AsList(), view, n, chain);
      assert chain[..|chain| - |got|] == more && chain[|chain| - |got|..] == got;
    }

    /** One turn of that loop. */
    method TopUpOnce(n: nat, count: nat, first: Obj, end: Obj, ghost got: seq<Obj>)
      returns (done: bool, result: nat, start: Obj, ghost more: seq<Obj>)
      requires Valid() && |got| == count < n && Taken(mem, view, first, end, got)
      requires Ready(AsList(), view)
      modifies this`mem, this`spans, this`nonempty, this`empty, this`counter, this`view
      ensures Valid() && Ready(AsList(), view)
      ensures Untouched(old(mem), old(view), mem, view) && FromFree(old(view), view, more)
      ensures Taken(mem, view, start, end, more + got) && |more + got| == result <= n
      ensures Collect(AsList(), view, n, more + got) == Collect(old(AsList()), old(view), n, got)
      ensures if done then nonempty == [] else count < result
    {
      hide Collect, Fetch, InOrder, ListedSpans, Taken, FromFree, Untouched;
      ghost var list0, view0, mem0 := AsList(), view, mem;
      var k, head, tail := FetchFromOneSpans(n - count);
      more := Fetch(list0, view0, n - count).chain;
      CollectStep(list0, view0, n, got);
      if k == 0 {
        assert more + got == got;
        return true, count, first, more;
      }
      TakenTwice(mem0, mem, view0, view, first, end, got, head, tail, more);
      ghost var mem1 := mem;
      start := PushRange(first, head, tail, end, got, more);
      PushSpares(mem0, view0, mem1, mem, view, head, tail, more, first);
      return false, count + k, start, more;
    }

    /** ReleaseToSpans up to the point where it drops the lock. */
    method ReleaseToSpans(obj: Obj) returns (gone: bool)
      requires Valid() && c.Good() && 1 <= cl < |c.size|
      requires obj != NULL && Home(view, pagemap, obj) && ApartFrom(view, obj)
      modifies this`mem, this`spans, this`nonempty, this`empty, this`numSpans, this`counter, this`view
      ensures Valid()
      ensures IsReleased(c, old(AsList()), old(view), pagemap, obj, Released(AsList(), view, gone))
      ensures if gone then mem == old(mem) else obj in mem && mem == old(mem)[obj := mem[obj]]
    {
      hide InOrder, Chain, Release, IsReleased, Without;
      var id := pagemap[obj];
      OrderOf(mem, pagemap, spans, view, nonempty, id);
      var rec := spans[id];
      ghost var list0, view0, spans0, mem0 := AsList(), view, spans, mem;
      if rec.objects == NULL {
        empty, nonempty := Without(empty, id), [id] + nonempty;
      }
      ghost var listed := nonempty;
      counter := counter + 1;
      gone := rec.refcount - 1 == 0;
      if gone {
        counter, nonempty, numSpans := counter - c.Capacity(rec.cls), Without(nonempty, id), numSpans - 1;
        spans, view := spans - {id}, view - {id};
        DropInOrder(mem, pagemap, spans0, view0, list0.nonempty, id, spans, view, nonempty);
        ReleaseLast(c, list0, view0, pagemap, obj, id, listed, Released(AsList(), view, gone));
      } else {
        mem := mem[obj := rec.objects];
        spans := spans[id := rec.(objects := obj, refcount := rec.refcount - 1)];
        view := view[id := view[id].(free := [obj] + view[id].free, refcount := view[id].refcount - 1)];
        PushInOrder(mem0, pagemap, spans0, view0, list0.nonempty, obj, id, mem, spans, view, nonempty);
        ReleaseOther(c, list0, view0, pagemap, obj, id, listed, Released(AsList(), view, gone));
      }
    }

    // ---------------------------------------------------------------- where the lock is dropped

    /** Another state in which this list may be. */
    ghost predicate Serves(other: List)
      reads this, other
    {
      other != this && other.c == c && other.cl == cl && other.Valid() && other.CacheOk()
    }

    /** A thread has the chain `chain` from `start`: its objects are in use. */
    ghost predicate Holding(start: Obj, chain: seq<Obj>)
      reads this
    {
      Held(mem, pagemap, view, cached, start, chain)
    }

    /** The lock has been dropped and taken again: other threads have left the list as `other`. */
    method Yield(other: List)
      requires Serves(other)
      modifies this
      ensures Valid() && CacheOk() && Now() == other.Now() && mem == other.mem && cached == other.cached
    {
      hide InOrder, Cached, ApartFrom;
      mem, pagemap, spans, view := other.mem, other.pagemap, other.spans, other.view;
      nonempty, empty, numSpans, counter := other.nonempty, other.empty, other.numSpans, other.counter;
      slots, cached, cacheSize := other.slots, other.cached, other.cacheSize;
    }

    ghost function Now(): Moment
      reads this
    {
      Moment(AsList(), view, pagemap)
    }

    /** A span as Populate carves it at `id`. */
    ghost function FreshSpan(id: SpanId): Span
      requires c.Good() && 1 <= cl < |c.size|
    {
      var pieces := Carve(id, c.size[cl], c.Capacity(cl));
      Span(cl, pieces, pieces, 0)
    }

    /** The page heap gives bytes that no span has. */
    ghost predicate Fresh(given: Option<SpanId>)
      requires c.Good() && 1 <= cl < |c.size|
      reads this
    {
      given.Some? ==> given.value != NULL && given.value !in view
                      && forall o :: o in FreshSpan(given.value).all ==> o !in pagemap
    }

    /** What CentralModel makes of the list when the page heap has given this. */
    ghost function Populated(given: Option<SpanId>): (FreeList, map<SpanId, Span>)
      requires c.Good() && 1 <= cl < |c.size|
      reads this
    {
      if given == None then (AsList(), view) else Link(AsList(), view, given.value, FreshSpan(given.value))
    }

    // ---------------------------------------------------------------- InsertRange

    /** One turn of the next method's loop: the link is read before ReleaseToSpans writes it, and when
        the span goes, the lock is dropped while the page heap takes it. */
    method ReleaseFirst(start: Obj, other: List, ghost chain: seq<Obj>) returns (next: Obj)
      requires Valid() && CacheOk() && chain != [] && Holding(start, chain)
      requires Serves(other) && other.Holding(Following(chain, 0), chain[1..])
      modifies this
      ensures Valid() && CacheOk() && next == Following(chain, 0) && Holding(next, chain[1..])
      ensures Now() == old(Given(c, Now(), start, other.Now()))
    {
      hide InOrder, AllOf, Cached, Held, Home, ApartFrom, Chain, IsReleased, Given;
      ghost var list0, view0, mem0 := AsList(), view, mem;
      HeldFirst(mem, pagemap, view, cached, start, chain);
      next := mem[start];
      var gone := ReleaseToSpans(start);
      GivenIs(c, list0, view0, pagemap, start, Released(AsList(), view, gone), other.Now());
      if gone {
        Yield(other);
      } else {
        ReleaseSpares(c, list0, view0, pagemap, start, Released(AsList(), view, gone));
        CachedGiven(mem0, pagemap, view0, slots, cached, c.batch[cl], start, mem, view);
        HeldGiven(mem0, pagemap, view0, cached, start, chain, mem, view);
      }
    }

    /** ReleaseListToSpans: each object of the chain is given back to its span, in order; `others[k]` is
        the list after the lock has been dropped at the k-th, if it is. */
    method ReleaseListToSpans(start: Obj, others: seq<List>, ghost chain: seq<Obj>)
      requires Valid() && CacheOk() && Holding(start, chain)
      requires |others| == |chain|
      requires forall k :: 0 <= k < |chain| ==> Leaves(others[k], chain, k)
      modifies this
      ensures Valid() && CacheOk()
      ensures Now() == old(GivenAll(c, Now(), chain, Moments(others)))
    {
      hide InOrder, AllOf, Cached, Held, Given;
      var curr, k := start, 0;
      ghost var before, moments := Now(), Moments(others);
      HeldHead(mem, pagemap, view, cached, start, chain);
      assert chain[0..] == chain;
      while curr != NULL
        invariant 0 <= k <= |chain| && Valid() && CacheOk() && Holding(curr, chain[k..])
        invariant curr == NULL <==> k == |chain|
        invariant moments == Moments(others) && forall j :: k <= j < |chain| ==> Leaves(others[j], chain, j)
        invariant Now() == GivenAll(c, before, chain[..k], moments[..k])
        decreases |chain| - k
      {
        GivenNext(c, before, chain, moments, k);
        assert Leaves(others[k], chain, k);
        assert chain[k..][1..] == chain[k + 1..] && Following(chain[k..], 0) == Following(chain, k);
        HeldHead(mem, pagemap, view, cached, curr, chain[k..]);
        curr := ReleaseFirst(curr, others[k], chain[k..]);
        k := k + 1;
        HeldHead(mem, pagemap, view, cached, curr, chain[k..]);
      }
      assert chain[..k] == chain && moments[..k] == moments;
    }

    /** Another state in which a thread that has given back `k + 1` objects of `chain` finds the list: what
        it still has is as it was. */
    ghost predicate Leaves(other: List, chain: seq<Obj>, k: nat)
      requires k < |chain|
      reads this, other
    {
      Serves(other) && other.Holding(Following(chain, k), chain[k + 1..])
    }

    /** MakeCacheSpace: `won` if one of the evictions succeeds. The lock may be dropped while it is tried. */
    method MakeCacheSpace(won: bool, other: List, ghost start: Obj, ghost chain: seq<Obj>) returns (ok: bool)
      requires Valid() && CacheOk() && Holding(start, chain)
      requires Serves(other) && other.Holding(start, chain)
      modifies this
      ensures Valid() && CacheOk() && Holding(start, chain)
      ensures (ok, Now()) == old(Space(won, other))
      ensures ok ==> |slots| < cacheSize
    {
      hide InOrder, AllOf, Cached, Held, MaxCacheSize;
      if |slots| < cacheSize {
        return true;
      }
      if cacheSize == MaxCacheSize(c, cl) {
        return false;
      }
      Yield(other);
      if won && cacheSize < MaxCacheSize(c, cl) {
        cacheSize := cacheSize + 1;
        return true;
      }
      return false;
    }

    /** A slot is free already, or the cache grows after an eviction, unless others have let it grow to
        its maximum in the meantime. */
    ghost function Space(won: bool, other: List): (bool, Moment)
      requires c.Good() && cl < |c.size|
      reads this, other
    {
      if |slots| < cacheSize then (true, Now())
      else if cacheSize == MaxCacheSize(c, cl) then (false, Now())
      else if won && other.cacheSize < MaxCacheSize(c, cl) then (true, Grown(other.Now()))
      else (false, other.Now())
    }

    /** InsertRange: the chain becomes the next transfer-cache entry, or goes back to the spans. */
    method InsertRange(start: Obj, end: Obj, n: nat, won: bool, other: List, others: seq<List>, ghost chain: seq<Obj>)
      requires Valid() && CacheOk() && Holding(start, chain) && chain != []
      requires n == |chain| && end == chain[n - 1]
      requires Serves(other) && other.Holding(start, chain)
      requires |others| == |chain|
      requires forall k :: 0 <= k < |chain| ==> Leaves(others[k], chain, k)
      modifies this
      ensures Valid() && CacheOk()
      ensures var (room, m) := old(if n == c.batch[cl] then Space(won, other) else (false, Now()));
              Now() == if room then Stored(m, chain) else GivenAll(c, m, chain, old(Moments(others)))
      ensures n == c.batch[cl] && old(Space(won, other)).0 ==> slots != [] && slots[|slots| - 1] == Entry(start, end)
    {
      hide InOrder, AllOf, Cached, Held, MaxCacheSize, GivenAll;
      if n == c.batch[cl] {
        var room := MakeCacheSpace(won, other, start, chain);
        if room {
          HeldTaken(mem, pagemap, view, cached, start, end, chain);
          NextCached(mem, pagemap, view, slots, cached, c.batch[cl], start, end, chain);
          slots, cached := slots + [Entry(start, end)], cached + [chain];
          return;
        }
      }
      ReleaseListToSpans(start, others, chain);
    }

    /** ShrinkCache once it has the lock of this list: a slot is given up, with the last entry's chain if the cache is
        full and `force` allows it. */
    method ShrinkCache(force: bool, others: seq<List>) returns (ok: bool)
      requires Valid() && CacheOk()
      requires |others| == c.batch[cl]
      requires force && |slots| == cacheSize > 0 ==>
                 forall k :: 0 <= k < |others| ==> Leaves(others[k], cached[|slots| - 1], k)
      modifies this
      ensures Valid() && CacheOk()
      ensures ok == old(Evicts(force)).0
      ensures old(|slots| < cacheSize || !ok) ==>
                cacheSize == old(cacheSize) - (if ok then 1 else 0) && cached == old(cached) && view == old(view)
      ensures Now() == old(if ok && |slots| == cacheSize
                           then GivenAll(c, Evicts(force).1, cached[|slots| - 1], Moments(others)) else Evicts(force).1)
    {
      hide InOrder, AllOf, Cached, Held, GivenAll;
      if cacheSize == 0 {
        return false;
      }
      if |slots| == cacheSize {
        if !force {
          return false;
        }
        var slot := |slots| - 1;
        LastCached(mem, pagemap, view, slots, cached, c.batch[cl]);
        ghost var chain := cached[slot];
        LastHeld(mem, pagemap, view, slots, cached, c.batch[cl]);
        var entry := slots[slot];
        cacheSize, slots, cached := cacheSize - 1, slots[..slot], cached[..slot];
        ReleaseListToSpans(entry.head, others, chain);
        return true;
      }
      cacheSize := cacheSize - 1;
      return true;
    }

    /** Whether a slot is given up, and the list then, before the chain of a full cache's last entry goes back. */
    ghost function Evicts(force: bool): (bool, Moment)
      reads this
    {
      if cacheSize == 0 || (|slots| == cacheSize && !force) then (false, Now())
      else
        var kept := if |slots| == cacheSize && |cached| == |slots| then cached[..|slots| - 1] else cached;
        (true, Now().(list := AsList().(slots := kept, cacheSize := cacheSize - 1)))
    }

    // ---------------------------------------------------------------- RemoveRange

    /** Populate: the page heap refuses, or gives a span, which is carved and hung on the list.  (The
        span is this thread's alone before it is hung; so it does not matter whether it is carved
        before or after the others have left the list as `other`.) */
    method Populate(given: Option<SpanId>, other: List)
      requires Serves(other) && other.Fresh(given)
      modifies this
      ensures Valid() && CacheOk() && (AsList(), view) == other.Populated(given)
    {
      hide InOrder, Cached, Carve, Chain;
      Yield(other);
      if given.Some? {
        Hang(given.value);
      }
    }

    /** Carve the pages at `id`, and put the span on the list. */
    method Hang(id: SpanId)
      requires Valid() && CacheOk() && Fresh(Some(id))
      modifies this
      ensures Valid() && CacheOk() && (AsList(), view) == old(Populated(Some(id)))
    {
      hide InOrder, Cached, Carve, Chain, NoDup, OnlyPieces, Config.Capacity, MaxCacheSize, Homes;
      ghost var mem0, pagemap0, spans0, view0, nonempty0 := mem, pagemap, spans, view, nonempty;
      ghost var pieces := FreshSpan(id).all;
      CarveNoDup(id, c.size[cl], c.Capacity(cl));
      CapacityPositive(c, cl);
      var head, num;
      mem, head, num := CarveSpan(mem, id, c.bytes[cl], c.size[cl]);
      var all := Carve(id, c.size[cl], num);
      pagemap := pagemap + Homes(all, id);
      spans := spans[id := SpanRecord(cl, all, head, 0)];
      view := view[id := FreshSpan(id)];
      nonempty := [id] + nonempty;
      numSpans, counter := numSpans + 1, counter + num;
      LinkInOrder(mem0, pagemap0, spans0, view0, nonempty0, id, head, pieces, cl, mem, pagemap, spans, view, nonempty);
      LinkCached(mem0, pagemap0, view0, slots, cached, c.batch[cl], id, pieces, mem, pagemap, view);
    }

    /** FetchFromOneSpansSafe: if there was nothing to fetch, once more after Populate. */
    method FetchFromOneSpansSafe(n: nat, given: Option<SpanId>, other: List) returns (result: nat, start: Obj, end: Obj)
      requires Valid() && CacheOk() && n > 0
      requires Serves(other) && other.Fresh(given)
      modifies this
      ensures Valid() && CacheOk() && Ready(old(Supply(given, other)).0, old(Supply(given, other)).1)
      ensures var (l, v) := old(Supply(given, other));
              && Fetch(l, v, n) == Fetched(AsList(), view, Fetch(l, v, n).chain)
              && result == |Fetch(l, v, n).chain|
              && (result != 0 ==> Taken(mem, view, start, end, Fetch(l, v, n).chain))
              && (result == 0 ==> start == NULL && end == NULL && given == None)
              && FromFree(v, view, Fetch(l, v, n).chain) && Spared(v, cached) && FreeHome(v, pagemap, view)
    {
      hide InOrder, FreeHome, Cached, Taken, FromFree, Fetch, Ready, Untouched, Populated, Spared;
      ghost var list0, view0, mem0, spans0, nonempty0 := AsList(), view, mem, spans, nonempty;
      SupplyIs(given, other);
      result, start, end := FetchFromOneSpans(n);
      CachedKept(mem0, view0, mem, view, pagemap, slots, cached, c.batch[cl]);
      CachedSpared(mem0, pagemap, view0, slots, cached, c.batch[cl]);
      SameSpans(mem0, view0, mem, view);
      FreeAtHome(mem0, pagemap, spans0, view0, nonempty0, view);
      FetchNothing(list0, view0, n);
      if result == 0 {
        Populate(given, other);
        CachedSpared(mem, pagemap, view, slots, cached, c.batch[cl]);
        ghost var view1, mem1, spans1, nonempty1 := view, mem, spans, nonempty;
        OrderListed(mem, pagemap, spans, view, AsList());
        FetchNothing(AsList(), view, n);
        result, start, end := FetchFromOneSpans(n);
        CachedKept(mem1, view1, mem, view, pagemap, slots, cached, c.batch[cl]);
        SameSpans(mem1, view1, mem, view);
        FreeAtHome(mem1, pagemap, spans1, view1, nonempty1, view);
      }
    }

    /** The list from which a RemoveRange that misses the cache is served. */
    ghost function Supply(given: Option<SpanId>, other: List): (FreeList, map<SpanId, Span>)
      requires other.c.Good() && 1 <= other.cl < |other.c.size|
      reads this, other
    {
      if nonempty != [] then (AsList(), view) else other.Populated(given)
    }

    lemma SupplyIs(given: Option<SpanId>, other: List)
      requires Serves(other)
      ensures Supply(given, other) == if AsList().nonempty != [] then (AsList(), view) else other.Populated(given)
      ensures given.Some? ==> other.Populated(given).0.nonempty != []
    {}

    /** RemoveRange: the objects come from the last transfer-cache entry, or from the spans, after Populate
        if these have none.  They are a NULL-terminated chain from `start` to `end`, `result` of them, all
        different, in no free chain and no other entry; those from spans were on free chains before. */
    method RemoveRange(n: nat, given: Option<SpanId>, other: List)
      returns (result: nat, start: Obj, end: Obj, ghost chain: seq<Obj>)
      requires Valid() && CacheOk() && n > 0
      requires Serves(other) && other.Fresh(given)
      modifies this
      ensures Valid() && CacheOk()
      ensures result == |chain| <= n
      ensures if chain == [] then start == NULL && end == NULL else Taken(mem, view, start, end, chain)
      ensures Holding(start, chain)
      ensures result == 0 ==> given == None
      ensures if n == c.batch[cl] && old(slots) != []
              then var l := old(AsList());
                   && chain == l.slots[|l.slots| - 1] && result == n
                   && AsList() == l.(slots := l.slots[..|l.slots| - 1])
                   && view == old(view) && mem == old(mem)
              else var (l, v) := old(Supply(given, other));
                   && Ready(l, v) && Collect(l, v, n, []) == Fetched(AsList(), view, chain)
                   && FromFree(v, view, chain)
                   && (result < n ==> nonempty == [])
    {
      hide InOrder, Held, FreeHome, Cached, Taken, FromFree, Fetch, ListedSpans, Untouched, Collect, Supply, Spared;
      if n == c.batch[cl] && |slots| > 0 {
        var slot := |slots| - 1;
        LastCached(mem, pagemap, view, slots, cached, c.batch[cl]);
        chain := cached[slot];
        LastHeld(mem, pagemap, view, slots, cached, c.batch[cl]);
        result, start, end := n, slots[slot].head, slots[slot].tail;
        slots, cached := slots[..slot], cached[..slot];
        return;
      }
      ghost var l, v := Supply(given, other).0, Supply(given, other).1;
      result, start, end := FetchFromOneSpansSafe(n, given, other);
      ghost var first, mem1, view1 := Fetch(l, v, n).chain, mem, view;
      chain := first;
      CollectStep(l, v, n, []);
      assert first + [] == first;
      if result != 0 {
        result, start, chain := TopUp(n, result, start, end, first);
        SameSpans(mem1, view1, mem, view);
        CachedKept(mem1, view1, mem, view, pagemap, slots, cached, c.batch[cl]);
        FromFreeForth(v, view1, view, first, chain[..|chain| - |first|]);
        assert chain == chain[..|chain| - |first|] + first;
      } else {
        CollectEnd(AsList(), view, n, []);
      }
      FreeHeld(mem, pagemap, v, view1, view, cached, start, end, chain);
    }
  }

  ghost function Moments(others: seq<List>): seq<Moment>
    reads others
  {
    seq(|others|, k requires 0 <= k < |others| reads others => others[k].Now())
  }
}
