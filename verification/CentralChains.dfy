/**
  The chains of a central free list in memory: free objects are linked through their own first words,
  a transfer-cache entry has the two ends of a chain, and what the model's transitions do to sequences
  is done by writing a few link words.
  */
module CentralChains {
  import Arith
  import opened CentralModel
  import opened Seqs

  // ---------------------------------------------------------------- chains

  const NULL: Obj := 0

  /** The link words, as far as they are set: the first word of each free object. */
  type Memory = map<Obj, Obj>

  /** What follows position `i` in a chain. */
  function Following(s: seq<Obj>, i: nat): Obj {
    if i + 1 < |s| then s[i + 1] else NULL
  }

  ghost predicate Links(mem: Memory, o: Obj, next: Obj) {
    o != NULL && o in mem && mem[o] == next
  }

  /** `head` starts the NULL-terminated chain `s`. */
  ghost predicate Chain(mem: Memory, head: Obj, s: seq<Obj>) {
    && head == (if s == [] then NULL else s[0])
    && forall i {:trigger Following(s, i)} :: 0 <= i < |s| ==> Links(mem, s[i], Following(s, i))
  }

  lemma EmptyChain(mem: Memory, head: Obj, s: seq<Obj>)
    requires Chain(mem, head, s)
    ensures head == NULL <==> s == []
  {
    if s != [] {
      assert Links(mem, s[0], Following(s, 0));
    }
  }

  lemma ChainKept(mem: Memory, mem': Memory, head: Obj, s: seq<Obj>)
    requires Chain(mem, head, s)
    requires forall o :: o in s ==> o in mem' && o in mem && mem'[o] == mem[o]
    ensures Chain(mem', head, s)
  {
    forall i | 0 <= i < |s|
      ensures Links(mem', s[i], Following(s, i))
    {
      assert s[i] in s;
    }
  }

  lemma ChainInMemory(mem: Memory, head: Obj, s: seq<Obj>)
    requires Chain(mem, head, s)
    ensures forall o :: o in s ==> o in mem
  {
    forall o | o in s
      ensures o in mem
    {
      var i :| 0 <= i < |s| && s[i] == o;
      assert Links(mem, s[i], Following(s, i));
    }
  }

  lemma ChainTail(mem: Memory, head: Obj, s: seq<Obj>)
    requires Chain(mem, head, s) && s != []
    ensures head in mem && Chain(mem, mem[head], s[1..])
  {
    assert Links(mem, s[0], Following(s, 0));
    forall i | 0 <= i < |s[1..]|
      ensures Links(mem, s[1..][i], Following(s[1..], i))
    {
      assert s[1..][i] == s[i + 1] && Following(s[1..], i) == Following(s, i + 1);
    }
  }

  /** The objects of a chain are determined by the memory and its head. */
  lemma {:induction false} ChainUnique(mem: Memory, head: Obj, a: seq<Obj>, b: seq<Obj>)
    requires Chain(mem, head, a) && Chain(mem, head, b)
    ensures a == b
    decreases |a|
  {
    if a == [] {
      EmptyChain(mem, head, b);
    } else {
      assert Links(mem, a[0], Following(a, 0));
      ChainTail(mem, head, a);
      ChainTail(mem, head, b);
      ChainUnique(mem, mem[head], a[1..], b[1..]);
      assert a == [head] + a[1..] && b == [head] + b[1..];
    }
  }

  /** Cutting after `k` objects gives two chains. */
  lemma ChainCut(mem: Memory, head: Obj, s: seq<Obj>, k: nat)
    requires Chain(mem, head, s) && NoDup(s) && 0 < k <= |s|
    ensures Chain(mem[s[k - 1] := NULL], head, s[..k])
    ensures Chain(mem[s[k - 1] := NULL], Following(s, k - 1), s[k..])
  {
    var mem' := mem[s[k - 1] := NULL];
    forall i | 0 <= i < k
      ensures Links(mem', s[..k][i], Following(s[..k], i))
    {
      assert s[..k][i] == s[i] && Links(mem, s[i], Following(s, i));
    }
    forall i | 0 <= i < |s[k..]|
      ensures Links(mem', s[k..][i], Following(s[k..], i))
    {
      assert s[k..][i] == s[k + i] && Following(s[k..], i) == Following(s, k + i);
      assert Links(mem, s[k + i], Following(s, k + i));
    }
  }

  /** Linking the end of one chain to the head of another joins them. */
  lemma ChainJoin(mem: Memory, start: Obj, range: seq<Obj>, head: Obj, rest: seq<Obj>)
    requires Chain(mem, start, range) && Chain(mem, head, rest) && range != [] && NoDup(range)
    requires forall o :: o in range ==> o !in rest
    ensures Chain(mem[range[|range| - 1] := head], start, range + rest)
  {
    var mem' := mem[range[|range| - 1] := head];
    var s := range + rest;
    forall i | 0 <= i < |s|
      ensures Links(mem', s[i], Following(s, i))
    {
      if i < |range| {
        assert s[i] == range[i] && Links(mem, range[i], Following(range, i));
      } else {
        assert s[i] == rest[i - |range|] && s[i] in rest && Following(s, i) == Following(rest, i - |range|);
        assert Links(mem, s[i], Following(rest, i - |range|));
      }
    }
  }

  lemma ChainPush(mem: Memory, obj: Obj, s: seq<Obj>)
    requires obj != NULL && obj in mem && Chain(mem, mem[obj], s)
    ensures Chain(mem, obj, [obj] + s)
  {
    var t := [obj] + s;
    forall i | 0 <= i < |t|
      ensures Links(mem, t[i], Following(t, i))
    {
      if i > 0 {
        assert t[i] == s[i - 1] && Following(t, i) == Following(s, i - 1);
        assert Links(mem, s[i - 1], Following(s, i - 1));
      }
    }
  }

  lemma KeptThrough(mem0: Memory, mem: Memory, x: Obj, head: Obj, s: seq<Obj>)
    requires Chain(mem0, head, s) && mem == mem0[x := NULL] && x !in s
    ensures Chain(mem, head, s)
  {
    ChainInMemory(mem0, head, s);
    ChainKept(mem0, mem, head, s);
  }

  lemma FirstOf<T>(s: seq<T>, k: nat)
    requires 0 < k <= |s|
    ensures s[..k] != [] && s[..k][k - 1] == s[k - 1] && s[k - 1] in s[..k]
    ensures forall x :: x in s[..k] ==> x in s
    ensures forall x :: x in s[k..] ==> x in s
  {
    assert s[..k][k - 1] == s[k - 1];
  }

  // ---------------------------------------------------------------- spans' chains

  datatype SpanRecord = SpanRecord(cls: nat, all: seq<Obj>, objects: Obj, refcount: int)

  /** The record of span `id` stands for `sp`: its chain is well linked, without repetition,
      and of objects of this span. */
  ghost predicate Stands(mem: Memory, rec: SpanRecord, sp: Span, pagemap: map<Obj, SpanId>, id: SpanId) {
    && rec.cls == sp.cls && rec.all == sp.all && rec.refcount == sp.refcount
    && Chain(mem, rec.objects, sp.free)
    && NoDup(sp.free)
    && forall o :: o in sp.free ==> o in pagemap && pagemap[o] == id
  }

  lemma StandsKept(mem: Memory, x: Obj, v: Obj, rec: SpanRecord, sp: Span, pagemap: map<Obj, SpanId>, id: SpanId)
    requires Stands(mem, rec, sp, pagemap, id) && x !in sp.free
    ensures Stands(mem[x := v], rec, sp, pagemap, id)
  {
    ChainInMemory(mem, rec.objects, sp.free);
    ChainKept(mem, mem[x := v], rec.objects, sp.free);
  }

  /** Taking the first `k` objects off a span's chain. */
  lemma StandsCut(mem: Memory, rec: SpanRecord, sp: Span, k: nat, pagemap: map<Obj, SpanId>, id: SpanId)
    requires Stands(mem, rec, sp, pagemap, id) && 0 < k <= |sp.free|
    ensures var end, rest := sp.free[k - 1], Following(sp.free, k - 1);
            && end in mem && mem[end] == rest && (rest == NULL <==> sp.free[k..] == [])
            && Chain(mem[end := NULL], rec.objects, sp.free[..k]) && NoDup(sp.free[..k])
            && Stands(mem[end := NULL], rec.(objects := rest, refcount := rec.refcount + k),
                      sp.(free := sp.free[k..], refcount := sp.refcount + k), pagemap, id)
    ensures forall o :: o in sp.free[..k] ==> o !in sp.free[k..]
  {
    var s := sp.free;
    ChainCut(mem, rec.objects, s, k);
    assert Links(mem, s[k - 1], Following(s, k - 1));
    assert s == s[..k] + s[k..];
    NoDupConcat(s[..k], s[k..]);
    if k < |s| {
      assert Links(mem, s[k], Following(s, k));
    }
  }

  /** Giving one object back to its span's chain. */
  lemma StandsPush(mem: Memory, obj: Obj, rec: SpanRecord, sp: Span, pagemap: map<Obj, SpanId>, id: SpanId)
    requires Stands(mem, rec, sp, pagemap, id) && obj !in sp.free && obj != NULL && obj in pagemap && pagemap[obj] == id
    ensures Stands(mem[obj := rec.objects], rec.(objects := obj, refcount := rec.refcount - 1),
                   sp.(free := [obj] + sp.free, refcount := sp.refcount - 1), pagemap, id)
    ensures rec.objects == NULL <==> sp.free == []
  {
    EmptyChain(mem, rec.objects, sp.free);
    StandsKept(mem, obj, rec.objects, rec, sp, pagemap, id);
    ChainPush(mem[obj := rec.objects], obj, sp.free);
    NoDupConcat([obj], sp.free);
  }

  /** Objects of one span are on no other span's chain. */
  lemma OtherChain(mem: Memory, rec: SpanRecord, sp: Span, pagemap: map<Obj, SpanId>, i: SpanId, obj: Obj)
    requires Stands(mem, rec, sp, pagemap, i) && obj in pagemap && pagemap[obj] != i
    ensures obj !in sp.free
  {}

  lemma OwnChain(mem: Memory, rec: SpanRecord, sp: Span, pagemap: map<Obj, SpanId>, i: SpanId)
    requires Stands(mem, rec, sp, pagemap, i)
    ensures forall o :: o in sp.free ==> o in pagemap && pagemap[o] == i
    ensures Chain(mem, rec.objects, sp.free) && NoDup(sp.free) && rec.refcount == sp.refcount && rec.cls == sp.cls
  {}

  /** All spans' chains and the list of nonempty spans are in order. */
  ghost predicate InOrder(mem: Memory, pagemap: map<Obj, SpanId>, spans: map<SpanId, SpanRecord>,
                          view: map<SpanId, Span>, nonempty: seq<SpanId>) {
    && view.Keys == spans.Keys
    && (forall id :: id in spans ==> Stands(mem, spans[id], view[id], pagemap, id))
    && NoDup(nonempty)
    && (forall id :: id in nonempty ==> id in spans && view[id].free != [])
  }

  /** The chain of no span runs through `o`. */
  ghost predicate ApartFrom(view: map<SpanId, Span>, o: Obj) {
    forall id :: id in view ==> o !in view[id].free
  }

  /** All spans are of class `cl`. */
  ghost predicate AllOf(view: map<SpanId, Span>, cl: nat) {
    forall id :: id in view ==> view[id].cls == cl
  }

  /** The page map leads from the object to a span of the list. */
  ghost predicate Home(view: map<SpanId, Span>, pagemap: map<Obj, SpanId>, o: Obj) {
    o in pagemap && pagemap[o] in view
  }

  lemma OrderOf(mem: Memory, pagemap: map<Obj, SpanId>, spans: map<SpanId, SpanRecord>, view: map<SpanId, Span>,
                nonempty: seq<SpanId>, id: SpanId)
    requires InOrder(mem, pagemap, spans, view, nonempty) && id in view
    ensures id in spans && Chain(mem, spans[id].objects, view[id].free)
    ensures spans[id].refcount == view[id].refcount && spans[id].cls == view[id].cls
    ensures spans[id].objects == NULL <==> view[id].free == []
    ensures view[id].free == [] ==> id !in nonempty
  {
    assert Stands(mem, spans[id], view[id], pagemap, id);
    EmptyChain(mem, spans[id].objects, view[id].free);
  }

  lemma OrderListed(mem: Memory, pagemap: map<Obj, SpanId>, spans: map<SpanId, SpanRecord>, view: map<SpanId, Span>,
                    l: FreeList)
    requires InOrder(mem, pagemap, spans, view, l.nonempty)
    ensures Ready(l, view) && view.Keys == spans.Keys
    ensures forall id :: id in view ==> NoDup(view[id].free)
  {
    forall id | id in view
      ensures NoDup(view[id].free)
    {
      assert Stands(mem, spans[id], view[id], pagemap, id);
    }
  }

  /** Link words outside all chains may change. */
  lemma OrderKept(mem: Memory, x: Obj, v: Obj, pagemap: map<Obj, SpanId>, spans: map<SpanId, SpanRecord>,
                  view: map<SpanId, Span>, nonempty: seq<SpanId>)
    requires InOrder(mem, pagemap, spans, view, nonempty) && ApartFrom(view, x)
    ensures InOrder(mem[x := v], pagemap, spans, view, nonempty)
  {
    forall i | i in spans
      ensures Stands(mem[x := v], spans[i], view[i], pagemap, i)
    {
      assert Stands(mem, spans[i], view[i], pagemap, i);
      hide Stands;
      StandsKept(mem, x, v, spans[i], view[i], pagemap, i);
    }
  }

  // ---------------------------------------------------------------- chains of no span

  /** `chain` is linked from `first` to `last`, and belongs to no span's free chain. */
  ghost predicate Taken(mem: Memory, view: map<SpanId, Span>, first: Obj, last: Obj, chain: seq<Obj>) {
    && chain != [] && last == chain[|chain| - 1]
    && Chain(mem, first, chain) && NoDup(chain)
    && forall o :: o in chain ==> ApartFrom(view, o)
  }

  /** A chain that is nobody's stays, as long as its objects are nobody's and their words are kept. */
  lemma TakenKept(mem: Memory, view: map<SpanId, Span>, mem': Memory, view': map<SpanId, Span>,
                  first: Obj, last: Obj, chain: seq<Obj>)
    requires Taken(mem, view, first, last, chain)
    requires forall o :: o in chain ==> ApartFrom(view', o) && (o in mem ==> o in mem' && mem'[o] == mem[o])
    ensures Taken(mem', view', first, last, chain)
  {
    hide ApartFrom;
    ChainInMemory(mem, first, chain);
    ChainKept(mem, mem', first, chain);
  }

  /** Two chains that belong to no span are joined into one. */
  lemma TakenJoin(mem: Memory, view: map<SpanId, Span>, start: Obj, end: Obj, range: seq<Obj>,
                  head: Obj, last: Obj, rest: seq<Obj>)
    requires Taken(mem, view, start, end, range) && Taken(mem, view, head, last, rest)
    requires forall o :: o in range ==> o !in rest
    ensures Taken(mem[end := head], view, start, last, range + rest)
    ensures ApartFrom(view, end)
  {
    ChainJoin(mem, start, range, head, rest);
    NoDupConcat(range, rest);
    assert end in range;
    assert (range + rest)[|range + rest| - 1] == rest[|rest| - 1];
    hide Chain, NoDup, ApartFrom;
  }

  /** The objects of `chain` were on free chains before, and the free chains only lost objects. */
  ghost predicate FromFree(before: map<SpanId, Span>, after: map<SpanId, Span>, chain: seq<Obj>) {
    && (forall o :: o in chain ==> !ApartFrom(before, o))
    && (forall o :: ApartFrom(before, o) ==> ApartFrom(after, o))
  }

  lemma FromNothing(view: map<SpanId, Span>)
    ensures FromFree(view, view, [])
  {}

  lemma FromFreeForth(view0: map<SpanId, Span>, view1: map<SpanId, Span>, view: map<SpanId, Span>, a: seq<Obj>, b: seq<Obj>)
    requires FromFree(view0, view1, a) && FromFree(view1, view, b)
    ensures FromFree(view0, view, b + a)
  {
    hide ApartFrom;
  }

  /** What is on no span's free chain stays so, and keeps its link word. */
  ghost predicate Untouched(mem0: Memory, view0: map<SpanId, Span>, mem: Memory, view: map<SpanId, Span>) {
    && view.Keys == view0.Keys
    && forall o :: ApartFrom(view0, o) ==> ApartFrom(view, o) && (o in mem0 ==> o in mem && mem[o] == mem0[o])
  }

  lemma SameSpans(mem0: Memory, view0: map<SpanId, Span>, mem: Memory, view: map<SpanId, Span>)
    requires Untouched(mem0, view0, mem, view)
    ensures view.Keys == view0.Keys
  {}

  lemma UntouchedSame(mem: Memory, view: map<SpanId, Span>)
    ensures Untouched(mem, view, mem, view)
  {}

  lemma UntouchedForth(mem0: Memory, view0: map<SpanId, Span>, mem1: Memory, view1: map<SpanId, Span>,
                       mem: Memory, view: map<SpanId, Span>)
    requires Untouched(mem0, view0, mem1, view1) && Untouched(mem1, view1, mem, view)
    ensures Untouched(mem0, view0, mem, view)
  {
    hide ApartFrom;
  }

  /** A chain taken earlier outlasts the taking of the next one, and shares nothing with it. */
  lemma TakenTwice(mem0: Memory, mem: Memory, view0: map<SpanId, Span>, view: map<SpanId, Span>,
                   first: Obj, end: Obj, got: seq<Obj>, head: Obj, tail: Obj, more: seq<Obj>)
    requires Taken(mem0, view0, first, end, got) && mem == mem0[tail := NULL]
    requires Taken(mem, view, head, tail, more) && FromFree(view0, view, more)
    ensures Taken(mem, view, first, end, got)
    ensures forall o :: o in more ==> o !in got
  {
    hide ApartFrom;
    assert tail in more;
    KeptThrough(mem0, mem, tail, first, got);
  }

  lemma FetchSpares(mem0: Memory, view0: map<SpanId, Span>, mem: Memory, view: map<SpanId, Span>, start: Obj, end: Obj,
                    chain: seq<Obj>)
    requires mem == mem0[end := NULL] && Taken(mem, view, start, end, chain) && FromFree(view0, view, chain)
    requires view.Keys == view0.Keys
    ensures Untouched(mem0, view0, mem, view)
  {
    hide ApartFrom;
    assert end in chain;
  }

  lemma PushSpares(mem0: Memory, view0: map<SpanId, Span>, mem1: Memory, mem: Memory, view: map<SpanId, Span>,
                   head: Obj, tail: Obj, more: seq<Obj>, first: Obj)
    requires Untouched(mem0, view0, mem1, view) && mem == mem1[tail := first]
    requires Taken(mem1, view, head, tail, more) && FromFree(view0, view, more)
    ensures Untouched(mem0, view0, mem, view)
  {
    hide ApartFrom;
    assert tail in more;
  }

  // ---------------------------------------------------------------- transfer-cache entries

  /** A transfer-cache entry. */
  datatype Entry = Entry(head: Obj, tail: Obj)

  /** No entry has the object. */
  ghost predicate NotCached(cached: seq<seq<Obj>>, o: Obj) {
    forall i :: 0 <= i < |cached| ==> o !in cached[i]
  }

  /** The entries are the ends of the chains `cached`, each of `batch` objects. */
  ghost predicate Cached(mem: Memory, pagemap: map<Obj, SpanId>, view: map<SpanId, Span>, slots: seq<Entry>,
                         cached: seq<seq<Obj>>, batch: nat) {
    && |slots| == |cached|
    && (forall i :: 0 <= i < |cached| ==> |cached[i]| == batch && Taken(mem, view, slots[i].head, slots[i].tail, cached[i]))
    && (forall i, j, o :: 0 <= i < j < |cached| && o in cached[i] ==> o !in cached[j])
    && (forall i, o :: 0 <= i < |cached| && o in cached[i] ==> Home(view, pagemap, o))
  }

  /** So do the transfer-cache entries. */
  lemma CachedOn(mem: Memory, pagemap: map<Obj, SpanId>, view: map<SpanId, Span>, slots: seq<Entry>,
                 cached: seq<seq<Obj>>, batch: nat, mem': Memory, pagemap': map<Obj, SpanId>, view': map<SpanId, Span>)
    requires Cached(mem, pagemap, view, slots, cached, batch)
    requires forall o :: Home(view, pagemap, o) ==> Home(view', pagemap', o)
    requires forall o :: !NotCached(cached, o) ==> ApartFrom(view', o) && (o in mem ==> o in mem' && mem'[o] == mem[o])
    ensures Cached(mem', pagemap', view', slots, cached, batch)
  {
    hide ApartFrom, Taken;
    forall i | 0 <= i < |cached|
      ensures |cached[i]| == batch && Taken(mem', view', slots[i].head, slots[i].tail, cached[i])
    {
      assert forall o :: o in cached[i] ==> !NotCached(cached, o);
      TakenKept(mem, view, mem', view', slots[i].head, slots[i].tail, cached[i]);
    }
  }

  /** An object of an entry is on no free chain. */
  lemma CachedApart(mem: Memory, pagemap: map<Obj, SpanId>, view: map<SpanId, Span>, slots: seq<Entry>,
                    cached: seq<seq<Obj>>, batch: nat, o: Obj)
    requires Cached(mem, pagemap, view, slots, cached, batch) && !NotCached(cached, o)
    ensures ApartFrom(view, o) && Home(view, pagemap, o)
  {
    hide ApartFrom, Home;
    var i :| 0 <= i < |cached| && o in cached[i];
    assert Taken(mem, view, slots[i].head, slots[i].tail, cached[i]);
  }

  lemma CachedKept(mem: Memory, view: map<SpanId, Span>, mem': Memory, view': map<SpanId, Span>,
                   pagemap: map<Obj, SpanId>, slots: seq<Entry>, cached: seq<seq<Obj>>, batch: nat)
    requires Cached(mem, pagemap, view, slots, cached, batch) && Untouched(mem, view, mem', view')
    ensures Cached(mem', pagemap, view', slots, cached, batch)
  {
    hide ApartFrom, Cached;
    forall o | !NotCached(cached, o)
      ensures ApartFrom(view', o) && (o in mem ==> o in mem' && mem'[o] == mem[o])
    {
      CachedApart(mem, pagemap, view, slots, cached, batch, o);
    }
    CachedOn(mem, pagemap, view, slots, cached, batch, mem', pagemap, view');
  }

  /** The last entry is taken out. */
  lemma LastCached(mem: Memory, pagemap: map<Obj, SpanId>, view: map<SpanId, Span>, slots: seq<Entry>,
                   cached: seq<seq<Obj>>, batch: nat)
    requires Cached(mem, pagemap, view, slots, cached, batch) && slots != []
    ensures |cached| == |slots|
    ensures var k := |slots| - 1;
            && |cached[k]| == batch && Taken(mem, view, slots[k].head, slots[k].tail, cached[k])
            && (forall o :: o in cached[k] ==> NotCached(cached[..k], o))
            && Cached(mem, pagemap, view, slots[..k], cached[..k], batch)
  {
    hide Taken;
  }

  /** A chain is put into the next entry. */
  lemma NextCached(mem: Memory, pagemap: map<Obj, SpanId>, view: map<SpanId, Span>, slots: seq<Entry>,
                   cached: seq<seq<Obj>>, batch: nat, start: Obj, end: Obj, chain: seq<Obj>)
    requires Cached(mem, pagemap, view, slots, cached, batch)
    requires |chain| == batch && Taken(mem, view, start, end, chain)
    requires forall o :: o in chain ==> NotCached(cached, o) && Home(view, pagemap, o)
    ensures Cached(mem, pagemap, view, slots + [Entry(start, end)], cached + [chain], batch)
  {
    hide Taken;
  }

  /** No entry's object is on a free chain. */
  ghost predicate Spared(view: map<SpanId, Span>, cached: seq<seq<Obj>>) {
    forall o :: !NotCached(cached, o) ==> ApartFrom(view, o)
  }

  lemma CachedSpared(mem: Memory, pagemap: map<Obj, SpanId>, view: map<SpanId, Span>, slots: seq<Entry>,
                     cached: seq<seq<Obj>>, batch: nat)
    requires Cached(mem, pagemap, view, slots, cached, batch)
    ensures Spared(view, cached)
  {
    hide ApartFrom, Cached;
    forall o | !NotCached(cached, o)
      ensures ApartFrom(view, o)
    {
      CachedApart(mem, pagemap, view, slots, cached, batch, o);
    }
  }

  // ---------------------------------------------------------------- chains that threads hold

  /** A chain that nobody but the thread that has it can reach: it is linked from `start`, and its
      objects belong to spans of the list, but are on no free chain and in no transfer-cache entry. */
  ghost predicate Held(mem: Memory, pagemap: map<Obj, SpanId>, view: map<SpanId, Span>, cached: seq<seq<Obj>>,
                       start: Obj, chain: seq<Obj>) {
    && Chain(mem, start, chain) && NoDup(chain)
    && forall o :: o in chain ==> Home(view, pagemap, o) && ApartFrom(view, o) && NotCached(cached, o)
  }

  lemma HeldFirst(mem: Memory, pagemap: map<Obj, SpanId>, view: map<SpanId, Span>, cached: seq<seq<Obj>>,
                  start: Obj, chain: seq<Obj>)
    requires Held(mem, pagemap, view, cached, start, chain) && chain != []
    ensures start == chain[0] != NULL && start in mem && mem[start] == Following(chain, 0)
    ensures Home(view, pagemap, start) && ApartFrom(view, start) && NotCached(cached, start)
  {
    assert Links(mem, chain[0], Following(chain, 0));
    assert chain[0] in chain;
  }

  lemma HeldHead(mem: Memory, pagemap: map<Obj, SpanId>, view: map<SpanId, Span>, cached: seq<seq<Obj>>,
                 start: Obj, chain: seq<Obj>)
    requires Held(mem, pagemap, view, cached, start, chain)
    ensures start == NULL <==> chain == []
    ensures chain != [] ==> start == chain[0]
  {
    EmptyChain(mem, start, chain);
  }

  lemma HeldTaken(mem: Memory, pagemap: map<Obj, SpanId>, view: map<SpanId, Span>, cached: seq<seq<Obj>>,
                  start: Obj, end: Obj, chain: seq<Obj>)
    requires chain != [] && end == chain[|chain| - 1]
    ensures Held(mem, pagemap, view, cached, start, chain)
       <==> Taken(mem, view, start, end, chain) && forall o :: o in chain ==> Home(view, pagemap, o) && NotCached(cached, o)
  {}

  /** The last entry's chain, once it is out of the cache. */
  lemma LastHeld(mem: Memory, pagemap: map<Obj, SpanId>, view: map<SpanId, Span>, slots: seq<Entry>,
                 cached: seq<seq<Obj>>, batch: nat)
    requires Cached(mem, pagemap, view, slots, cached, batch) && slots != []
    ensures |cached| == |slots|
    ensures var k := |slots| - 1; Held(mem, pagemap, view, cached[..k], slots[k].head, cached[k])
  {
    hide ApartFrom, Home, Chain;
    LastCached(mem, pagemap, view, slots, cached, batch);
  }

  /** What was free belongs to a span of the list. */
  ghost predicate FreeHome(before: map<SpanId, Span>, pagemap: map<Obj, SpanId>, view: map<SpanId, Span>) {
    forall o :: !ApartFrom(before, o) ==> Home(view, pagemap, o)
  }

  lemma FreeAtHome(mem: Memory, pagemap: map<Obj, SpanId>, spans: map<SpanId, SpanRecord>, before: map<SpanId, Span>,
                   nonempty: seq<SpanId>, view: map<SpanId, Span>)
    requires InOrder(mem, pagemap, spans, before, nonempty) && view.Keys == before.Keys
    ensures FreeHome(before, pagemap, view)
  {
    forall o | !ApartFrom(before, o)
      ensures Home(view, pagemap, o)
    {
      var id :| id in before && o in before[id].free;
      OwnChain(mem, spans[id], before[id], pagemap, id);
    }
  }

  lemma FreeHeld(mem: Memory, pagemap: map<Obj, SpanId>, before: map<SpanId, Span>, between: map<SpanId, Span>,
                 view: map<SpanId, Span>, cached: seq<seq<Obj>>, start: Obj, end: Obj, chain: seq<Obj>)
    requires FromFree(before, view, chain) && Spared(before, cached)
    requires FreeHome(before, pagemap, between) && view.Keys == between.Keys
    requires if chain == [] then start == NULL else Taken(mem, view, start, end, chain)
    ensures Held(mem, pagemap, view, cached, start, chain)
  {
    hide ApartFrom, NotCached;
  }

  // ---------------------------------------------------------------- fetching

  ghost predicate Ready(l: FreeList, spans: map<SpanId, Span>) {
    ListedSpans(l, spans) && NoDup(l.nonempty)
  }

  lemma FirstReady(l: FreeList, view: map<SpanId, Span>, id: SpanId)
    requires Ready(l, view) && l.nonempty != [] && l.nonempty[0] == id
    ensures id in view && view[id].free != []
  {
    assert id in l.nonempty;
  }

  lemma FetchListed(l: FreeList, spans: map<SpanId, Span>, n: nat)
    requires Ready(l, spans) && l.nonempty != [] && n > 0
    ensures var f := Fetch(l, spans, n);
            Ready(f.list, f.spans) && 0 < |f.chain| <= n
  {
    var id := l.nonempty[0];
    assert id in l.nonempty;
    assert forall i :: i in l.nonempty[1..] ==> i in l.nonempty && i != id;
  }

  lemma FetchNothing(l: FreeList, spans: map<SpanId, Span>, n: nat)
    requires n > 0 && Ready(l, spans)
    ensures Fetch(l, spans, n).chain == [] <==> l.nonempty == []
  {
    FetchEmptyIff(l, spans, n);
  }

  lemma FetchClasses(l: FreeList, view: map<SpanId, Span>, n: nat, cl: nat)
    requires ListedSpans(l, view) && AllOf(view, cl)
    ensures AllOf(Fetch(l, view, n).spans, cl) && Fetch(l, view, n).spans.Keys == view.Keys
  {
    if l.nonempty != [] {
      assert l.nonempty[0] in l.nonempty;
    }
  }

  /** What Fetch takes from the first span, spelled out. */
  lemma FetchIs(l: FreeList, spans: map<SpanId, Span>, n: nat, k: nat, id: SpanId)
    requires ListedSpans(l, spans) && l.nonempty != [] && n > 0 && l.nonempty[0] == id
    requires id in spans && k == Arith.Min(n, |spans[id].free|)
    ensures 0 < k <= |spans[id].free|
    ensures var f, sp := Fetch(l, spans, n), spans[id];
            && f.chain == sp.free[..k]
            && f.spans.Keys == spans.Keys
            && (forall i :: i in spans && i != id ==> f.spans[i] == spans[i])
            && f.spans[id] == sp.(free := sp.free[k..], refcount := sp.refcount + k)
            && f.list.numSpans == l.numSpans && f.list.counter == l.counter - k
            && f.list.slots == l.slots && f.list.cacheSize == l.cacheSize
            && (if sp.free[k..] == []
                then f.list.nonempty == l.nonempty[1..] && f.list.empty == [id] + l.empty
                else f.list.nonempty == l.nonempty && f.list.empty == l.empty)
  {
    assert id in l.nonempty;
  }

  /** What FetchFromOneSpans leaves behind is in order, and its chain is nobody's. */
  lemma FetchInOrder(mem: Memory, pagemap: map<Obj, SpanId>, spans: map<SpanId, SpanRecord>, view: map<SpanId, Span>,
                     l: FreeList, n: nat, id: SpanId, k: nat, end: Obj,
                     mem': Memory, spans': map<SpanId, SpanRecord>, l': FreeList)
    requires InOrder(mem, pagemap, spans, view, l.nonempty) && Ready(l, view)
    requires n > 0 && l.nonempty != [] && l.nonempty[0] == id && id in spans
    requires id in view && k == Arith.Min(n, |view[id].free|) > 0 && end == view[id].free[k - 1] && end in mem
    requires mem' == mem[end := NULL]
    requires spans' == spans[id := spans[id].(objects := mem[end], refcount := spans[id].refcount + k)]
    requires l' == (if mem[end] == NULL then l.(nonempty := l.nonempty[1..], empty := [id] + l.empty, counter := l.counter - k)
                    else l.(counter := l.counter - k))
    ensures var f := Fetch(l, view, n);
            && f.list == l' && |f.chain| == k
            && InOrder(mem', pagemap, spans', f.spans, l'.nonempty)
            && Taken(mem', f.spans, spans[id].objects, end, f.chain)
            && FromFree(view, f.spans, f.chain)
  {
    var sp := view[id];
    assert Stands(mem, spans[id], sp, pagemap, id);
    FetchIs(l, view, n, k, id);
    var f := Fetch(l, view, n);
    StandsCut(mem, spans[id], sp, k, pagemap, id);
    FirstOf(sp.free, k);
    OwnChain(mem, spans[id], sp, pagemap, id);
    hide Fetch;
    assert l.nonempty == [id] + l.nonempty[1..];
    NoDupConcat([id], l.nonempty[1..]);
    forall i | i in spans && i != id
      ensures Stands(mem', spans[i], f.spans[i], pagemap, i)
      ensures forall o :: o in f.chain ==> o !in f.spans[i].free
    {
      assert Stands(mem, spans[i], view[i], pagemap, i);
      hide Stands;
      forall o | o in f.chain
        ensures o !in view[i].free
      {
        OtherChain(mem, spans[i], view[i], pagemap, i, o);
      }
      StandsKept(mem, end, NULL, spans[i], view[i], pagemap, i);
    }
  }

  /** RemoveRange's loop over FetchFromOneSpans, on lists and chains. */
  ghost function Collect(l: FreeList, spans: map<SpanId, Span>, n: nat, got: seq<Obj>): Fetched
    requires Ready(l, spans) && |got| <= n
    decreases n - |got|
  {
    if |got| == n || l.nonempty == [] then Fetched(l, spans, got)
    else
      FetchListed(l, spans, n - |got|);
      var f := Fetch(l, spans, n - |got|);
      Collect(f.list, f.spans, n, f.chain + got)
  }

  lemma CollectEnd(l: FreeList, spans: map<SpanId, Span>, n: nat, got: seq<Obj>)
    requires Ready(l, spans) && |got| <= n
    requires |got| == n || l.nonempty == []
    ensures Collect(l, spans, n, got) == Fetched(l, spans, got)
  {}

  lemma CollectStep(l: FreeList, spans: map<SpanId, Span>, n: nat, got: seq<Obj>)
    requires Ready(l, spans) && |got| < n
    ensures var f := Fetch(l, spans, n - |got|);
            && Ready(f.list, f.spans) && |f.chain| <= n - |got|
            && Collect(l, spans, n, got) == Collect(f.list, f.spans, n, f.chain + got)
            && (f.chain == [] ==> f.list.nonempty == [] && f.list == l && f.spans == spans)
  {
    if l.nonempty == [] {
      assert [] + got == got;
    } else {
      FetchListed(l, spans, n - |got|);
    }
  }

  // ---------------------------------------------------------------- giving back

  /** `r` is what Release makes of giving `obj` back to its span. */
  ghost predicate IsReleased(c: Config, l: FreeList, view: map<SpanId, Span>, pagemap: map<Obj, SpanId>, obj: Obj,
                             r: Released) {
    && c.Good() && obj in pagemap && pagemap[obj] in view && 1 <= view[pagemap[obj]].cls < |c.size|
    && r == Release(c, l, view, pagemap[obj], obj)
  }

  lemma ReleaseLast(c: Config, l: FreeList, view: map<SpanId, Span>, pagemap: map<Obj, SpanId>, obj: Obj, id: SpanId,
                    nonempty: seq<SpanId>, r: Released)
    requires c.Good() && obj in pagemap && pagemap[obj] == id && id in view && 1 <= view[id].cls < |c.size|
    requires view[id].refcount == 1
    requires nonempty == (if view[id].free == [] then [id] + l.nonempty else l.nonempty)
    requires r == Released(FreeList(Without(nonempty, id), if view[id].free == [] then Without(l.empty, id) else l.empty,
                                    l.numSpans - 1, l.counter + 1 - c.Capacity(view[id].cls), l.slots, l.cacheSize),
                           view - {id}, true)
    ensures IsReleased(c, l, view, pagemap, obj, r)
  {}

  lemma ReleaseOther(c: Config, l: FreeList, view: map<SpanId, Span>, pagemap: map<Obj, SpanId>, obj: Obj, id: SpanId,
                     nonempty: seq<SpanId>, r: Released)
    requires c.Good() && obj in pagemap && pagemap[obj] == id && id in view && 1 <= view[id].cls < |c.size|
    requires view[id].refcount != 1
    requires nonempty == (if view[id].free == [] then [id] + l.nonempty else l.nonempty)
    requires r == Released(FreeList(nonempty, if view[id].free == [] then Without(l.empty, id) else l.empty,
                                    l.numSpans, l.counter + 1, l.slots, l.cacheSize),
                           view[id := view[id].(free := [obj] + view[id].free, refcount := view[id].refcount - 1)], false)
    ensures IsReleased(c, l, view, pagemap, obj, r)
  {}

  /** Nothing but `id`'s own chain is touched by pushing `obj`. */
  lemma PushInOrder(mem: Memory, pagemap: map<Obj, SpanId>, spans: map<SpanId, SpanRecord>, view: map<SpanId, Span>,
                    nonempty: seq<SpanId>, obj: Obj, id: SpanId, mem': Memory, spans': map<SpanId, SpanRecord>,
                    view': map<SpanId, Span>, nonempty': seq<SpanId>)
    requires InOrder(mem, pagemap, spans, view, nonempty)
    requires id in spans && id in view && obj != NULL && obj in pagemap && pagemap[obj] == id && obj !in view[id].free
    requires view[id].free == [] ==> id !in nonempty
    requires mem' == mem[obj := spans[id].objects]
    requires spans' == spans[id := spans[id].(objects := obj, refcount := spans[id].refcount - 1)]
    requires view' == view[id := view[id].(free := [obj] + view[id].free, refcount := view[id].refcount - 1)]
    requires nonempty' == if view[id].free == [] then [id] + nonempty else nonempty
    ensures InOrder(mem', pagemap, spans', view', nonempty')
  {
    NoDupConcat([id], nonempty);
    assert Stands(mem, spans[id], view[id], pagemap, id);
    StandsPush(mem, obj, spans[id], view[id], pagemap, id);
    forall i | i in spans && i != id
      ensures Stands(mem', spans[i], view[i], pagemap, i)
    {
      assert Stands(mem, spans[i], view[i], pagemap, i);
      OtherChain(mem, spans[i], view[i], pagemap, i, obj);
      StandsKept(mem, obj, spans[id].objects, spans[i], view[i], pagemap, i);
    }
  }

  lemma DropInOrder(mem: Memory, pagemap: map<Obj, SpanId>, spans: map<SpanId, SpanRecord>,
                    view: map<SpanId, Span>, nonempty: seq<SpanId>, id: SpanId, spans': map<SpanId, SpanRecord>,
                    view': map<SpanId, Span>, nonempty': seq<SpanId>)
    requires InOrder(mem, pagemap, spans, view, nonempty) && id in spans
    requires view[id].free == [] ==> id !in nonempty
    requires spans' == spans - {id} && view' == view - {id}
    requires nonempty' == Without(if view[id].free == [] then [id] + nonempty else nonempty, id)
    ensures InOrder(mem, pagemap, spans', view', nonempty')
  {
    NoDupConcat([id], nonempty);
    WithoutElems(if view[id].free == [] then [id] + nonempty else nonempty, id);
    hide Stands;
  }

  /** Giving back one object leaves the others of the spans where they were. */
  ghost predicate OnlyGiven(view: map<SpanId, Span>, view': map<SpanId, Span>, x: Obj) {
    view'.Keys == view.Keys && forall o :: o != x && ApartFrom(view, o) ==> ApartFrom(view', o)
  }

  lemma ReleaseSpares(c: Config, l: FreeList, view: map<SpanId, Span>, pagemap: map<Obj, SpanId>, x: Obj, r: Released)
    requires IsReleased(c, l, view, pagemap, x, r) && !r.gone
    ensures OnlyGiven(view, r.spans, x)
  {}

  lemma CachedGiven(mem: Memory, pagemap: map<Obj, SpanId>, view: map<SpanId, Span>, slots: seq<Entry>,
                    cached: seq<seq<Obj>>, batch: nat, x: Obj, mem': Memory, view': map<SpanId, Span>)
    requires Cached(mem, pagemap, view, slots, cached, batch) && NotCached(cached, x)
    requires OnlyGiven(view, view', x) && x in mem' && mem' == mem[x := mem'[x]]
    ensures Cached(mem', pagemap, view', slots, cached, batch)
  {
    hide ApartFrom, Cached;
    forall o | !NotCached(cached, o)
      ensures ApartFrom(view', o) && (o in mem ==> o in mem' && mem'[o] == mem[o])
    {
      CachedApart(mem, pagemap, view, slots, cached, batch, o);
    }
    CachedOn(mem, pagemap, view, slots, cached, batch, mem', pagemap, view');
  }

  lemma HeldGiven(mem: Memory, pagemap: map<Obj, SpanId>, view: map<SpanId, Span>, cached: seq<seq<Obj>>,
                  x: Obj, chain: seq<Obj>, mem': Memory, view': map<SpanId, Span>)
    requires Held(mem, pagemap, view, cached, x, chain) && chain != []
    requires OnlyGiven(view, view', x) && x in mem' && mem' == mem[x := mem'[x]]
    ensures Held(mem', pagemap, view', cached, Following(chain, 0), chain[1..])
  {
    hide ApartFrom, NotCached, Chain, NoDup, Following;
    HeldFirst(mem, pagemap, view, cached, x, chain);
    ChainTail(mem, x, chain);
    var rest := chain[1..];
    assert chain == [x] + rest;
    NoDupPush(x, rest);
    ChainInMemory(mem, mem[x], rest);
    ChainKept(mem, mem', mem[x], rest);
    assert forall o :: o in rest ==> o in chain && o != x;
  }

  // ---------------------------------------------------------------- new spans

  /** Each of `pieces` is linked to the next one. */
  ghost predicate Threaded(mem: Memory, pieces: seq<Obj>) {
    forall i {:trigger Following(pieces, i)} :: 0 <= i < |pieces| - 1 ==> Links(mem, pieces[i], Following(pieces, i))
  }

  lemma ThreadNext(mem: Memory, pieces: seq<Obj>, ptr: Obj, mem': Memory)
    requires Threaded(mem, pieces) && NoDup(pieces + [ptr]) && NULL !in pieces
    requires mem' == if pieces == [] then mem else mem[pieces[|pieces| - 1] := ptr]
    ensures Threaded(mem', pieces + [ptr])
  {
    var longer := pieces + [ptr];
    forall i | 0 <= i < |longer| - 1
      ensures Links(mem', longer[i], Following(longer, i))
    {
      assert longer[i] == pieces[i] && pieces[i] in pieces;
      if i < |pieces| - 1 {
        assert Links(mem, pieces[i], Following(pieces, i));
        assert longer[i] != longer[|pieces| - 1];
      }
    }
  }

  lemma ThreadEnd(mem: Memory, pieces: seq<Obj>, mem': Memory)
    requires Threaded(mem, pieces) && NoDup(pieces) && NULL !in pieces && pieces != []
    requires mem' == mem[pieces[|pieces| - 1] := NULL]
    ensures Chain(mem', pieces[0], pieces)
  {
    forall i | 0 <= i < |pieces|
      ensures Links(mem', pieces[i], Following(pieces, i))
    {
      assert pieces[i] in pieces;
      if i < |pieces| - 1 {
        assert Links(mem, pieces[i], Following(pieces, i));
      }
    }
  }

  lemma CarveNext(start: Obj, size: nat, n: nat)
    requires size >= 1 && start != NULL
    ensures Carve(start, size, n + 1) == Carve(start, size, n) + [start + n * size]
    ensures NoDup(Carve(start, size, n + 1)) && NULL !in Carve(start, size, n)
    ensures (n + 1) * size == n * size + size
    ensures Carve(start, size, n + 1)[0] == start
  {
    CarveNoDup(start, size, n + 1);
    assert Carve(start, size, n + 1)[0] == start + 0 * size;
  }

  lemma CarveNone(mem: Memory, start: Obj, size: nat)
    ensures Carve(start, size, 0) == [] && Threaded(mem, [])
  {}

  /** Nothing but the link words of `pieces` differs. */
  ghost predicate OnlyPieces(mem: Memory, mem': Memory, pieces: seq<Obj>) {
    forall o :: o in mem && o !in pieces ==> o in mem' && mem'[o] == mem[o]
  }

  /** The page map's entries for a span's objects. */
  function Homes(all: seq<Obj>, id: SpanId): map<Obj, SpanId> {
    map o | o in all :: id
  }

  lemma FreshStands(mem: Memory, pagemap: map<Obj, SpanId>, pagemap': map<Obj, SpanId>, pieces: seq<Obj>, head: Obj,
                    cl: nat, id: SpanId)
    requires Chain(mem, head, pieces) && NoDup(pieces)
    requires pagemap' == pagemap + Homes(pieces, id)
    ensures Stands(mem, SpanRecord(cl, pieces, head, 0), Span(cl, pieces, pieces, 0), pagemap', id)
  {}

  lemma SpanStays(mem: Memory, pagemap: map<Obj, SpanId>, rec: SpanRecord, sp: Span, i: SpanId, id: SpanId,
                  pieces: seq<Obj>, mem': Memory, pagemap': map<Obj, SpanId>)
    requires Stands(mem, rec, sp, pagemap, i) && OnlyPieces(mem, mem', pieces)
    requires forall o :: o in pieces ==> o !in pagemap
    requires pagemap' == pagemap + Homes(pieces, id)
    ensures Stands(mem', rec, sp, pagemap', i)
  {
    ChainInMemory(mem, rec.objects, sp.free);
    ChainKept(mem, mem', rec.objects, sp.free);
  }

  /** A carved span is hung on the list: all else stays in order. */
  lemma LinkInOrder(mem: Memory, pagemap: map<Obj, SpanId>, spans: map<SpanId, SpanRecord>, view: map<SpanId, Span>,
                    nonempty: seq<SpanId>, id: SpanId, head: Obj, pieces: seq<Obj>, cl: nat,
                    mem': Memory, pagemap': map<Obj, SpanId>, spans': map<SpanId, SpanRecord>,
                    view': map<SpanId, Span>, nonempty': seq<SpanId>)
    requires InOrder(mem, pagemap, spans, view, nonempty) && id !in view
    requires pieces != [] && NoDup(pieces) && forall o :: o in pieces ==> o !in pagemap
    requires Chain(mem', head, pieces) && OnlyPieces(mem, mem', pieces)
    requires pagemap' == pagemap + Homes(pieces, id)
    requires spans' == spans[id := SpanRecord(cl, pieces, head, 0)] && view' == view[id := Span(cl, pieces, pieces, 0)]
    requires nonempty' == [id] + nonempty
    ensures InOrder(mem', pagemap', spans', view', nonempty')
  {
    hide Chain, NoDup, Stands;
    NoDupPush(id, nonempty);
    forall i | i in spans'
      ensures Stands(mem', spans'[i], view'[i], pagemap', i)
    {
      if i == id {
        FreshStands(mem', pagemap, pagemap', pieces, head, cl, id);
      } else {
        SpanStays(mem, pagemap, spans[i], view[i], i, id, pieces, mem', pagemap');
      }
    }
  }

  lemma LinkCached(mem: Memory, pagemap: map<Obj, SpanId>, view: map<SpanId, Span>, slots: seq<Entry>,
                   cached: seq<seq<Obj>>, batch: nat, id: SpanId, pieces: seq<Obj>,
                   mem': Memory, pagemap': map<Obj, SpanId>, view': map<SpanId, Span>)
    requires Cached(mem, pagemap, view, slots, cached, batch) && id !in view
    requires (forall o :: o in pieces ==> o !in pagemap) && OnlyPieces(mem, mem', pieces)
    requires pagemap' == pagemap + Homes(pieces, id)
    requires id in view' && view'[id].free == pieces && view' == view[id := view'[id]]
    ensures Cached(mem', pagemap', view', slots, cached, batch)
  {
    hide Cached;
    forall o | !NotCached(cached, o)
      ensures ApartFrom(view', o) && (o in mem ==> o in mem' && mem'[o] == mem[o])
    {
      CachedApart(mem, pagemap, view, slots, cached, batch, o);
    }
    CachedOn(mem, pagemap, view, slots, cached, batch, mem', pagemap', view');
  }
}
