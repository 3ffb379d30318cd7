/** The transitions that touch spans keep the invariant. */
module CentralSpans {
  import opened Options
  import opened Seqs
  import opened CentralModel
  import opened CentralInvariant
  import opened CentralSteps

  // ---------------------------------------------------------------- facts about one list

  /** What a Fetch that finds a span does to that span. */
  lemma FetchTakes(l: FreeList, spans: map<SpanId, Span>, n: nat)
    requires n > 0 && l.nonempty != [] && ListedSpans(l, spans)
    ensures var f, id := Fetch(l, spans, n), l.nonempty[0];
            && id in spans
            && f.chain != [] && |f.chain| <= n
            && spans[id].free == f.chain + f.spans[id].free
            && f.chain == spans[id].free[..|f.chain|] && |f.chain| <= |spans[id].free|
            && f.spans == spans[id := spans[id].(free := spans[id].free[|f.chain|..],
                                                 refcount := spans[id].refcount + |f.chain|)]
            && f.list == l.(nonempty := f.list.nonempty, empty := f.list.empty, counter := l.counter - |f.chain|)
            && (if f.spans[id].free == []
                then f.list.nonempty == l.nonempty[1..] && f.list.empty == [id] + l.empty
                else f.list.nonempty == l.nonempty && f.list.empty == l.empty)
  {
    assert l.nonempty[0] in l.nonempty;
  }

  /** The list is in order again, and counts right. */
  lemma FetchListOk(c: Config, cl: nat, l: FreeList, spans: map<SpanId, Span>, n: nat)
    requires c.Good() && cl < |c.size| && ListOk(c, cl, l, spans) && n > 0 && l.nonempty != []
    requires ListedSpans(l, spans)
    ensures ListOk(c, cl, Fetch(l, spans, n).list, Fetch(l, spans, n).spans)
  {
    FetchTakes(l, spans, n);
    var f, id := Fetch(l, spans, n), l.nonempty[0];
    assert id in l.nonempty;
    var tail := l.nonempty[1..];
    assert l.nonempty == [id] + tail;
    NoDupConcat([id], tail);
    FreeTotalFrame(tail, spans, f.spans);
    if f.spans[id].free == [] {
      NoDupConcat([id], l.empty);
    } else {
      assert FreeTotal(l.nonempty, f.spans) == |f.spans[id].free| + FreeTotal(tail, f.spans);
    }
  }

  /** Giving an object back that leaves others of its span in use. */
  lemma ReleaseKeptListOk(c: Config, cl: nat, l: FreeList, spans: map<SpanId, Span>, id: SpanId, o: Obj)
    requires c.Good() && 1 <= cl < |c.size| && ListOk(c, cl, l, spans)
    requires id in spans && spans[id].cls == cl && spans[id].refcount != 1
    ensures var r := Release(c, l, spans, id, o);
            && !r.gone
            && r.spans == spans[id := spans[id].(free := [o] + spans[id].free, refcount := spans[id].refcount - 1)]
            && r.list.slots == l.slots && r.list.cacheSize == l.cacheSize
            && ListOk(c, cl, r.list, r.spans)
  {
    var r := Release(c, l, spans, id, o);
    if spans[id].free == [] {
      assert r.list.nonempty == [id] + l.nonempty;
      assert id in l.empty && id !in l.nonempty;
      WithoutElems(l.empty, id);
      NoDupConcat([id], l.nonempty);
      FreeTotalFrame(l.nonempty, spans, r.spans);
    } else {
      WithoutElems(l.nonempty, id);
      FreeTotalWithout(l.nonempty, id, spans);
      FreeTotalWithout(l.nonempty, id, r.spans);
      FreeTotalFrame(Without(l.nonempty, id), spans, r.spans);
    }
  }

  /** Giving the last object in use back: the span leaves its list. */
  lemma ReleaseGoneListOk(c: Config, cl: nat, l: FreeList, spans: map<SpanId, Span>, id: SpanId, o: Obj)
    requires c.Good() && 1 <= cl < |c.size| && ListOk(c, cl, l, spans)
    requires id in spans && spans[id].cls == cl && spans[id].refcount == 1
    requires |spans[id].free| + 1 == c.Capacity(cl)
    ensures var r := Release(c, l, spans, id, o);
            && r.gone
            && r.spans == spans - {id}
            && r.list.slots == l.slots && r.list.cacheSize == l.cacheSize
            && ListOk(c, cl, r.list, r.spans)
  {
    var r := Release(c, l, spans, id, o);
    if spans[id].free == [] {
      assert id in l.empty && id !in l.nonempty;
      assert Without([id] + l.nonempty, id) == l.nonempty;
      WithoutElems(l.empty, id);
      FreeTotalFrame(l.nonempty, spans, r.spans);
    } else {
      assert id in l.nonempty && id !in l.empty;
      WithoutElems(l.nonempty, id);
      FreeTotalWithout(l.nonempty, id, spans);
      FreeTotalFrame(Without(l.nonempty, id), spans, r.spans);
    }
  }

  lemma LinkListOk(c: Config, cl: nat, l: FreeList, spans: map<SpanId, Span>, id: SpanId, sp: Span)
    requires c.Good() && cl < |c.size| && ListOk(c, cl, l, spans)
    requires id !in spans && sp.cls == cl && sp.free == sp.all && sp.all != []
    ensures var (l', spans') := Link(l, spans, id, sp);
            && l'.slots == l.slots && l'.cacheSize == l.cacheSize
            && ListOk(c, cl, l', spans')
  {
    var (l', spans') := Link(l, spans, id, sp);
    assert id !in l.nonempty && id !in l.empty;
    NoDupConcat([id], l.nonempty);
    FreeTotalFrame(l.nonempty, spans, spans');
    assert l'.nonempty[1..] == l.nonempty;
  }

  // ---------------------------------------------------------------- one list and one of its spans change

  ghost predicate OneSpan(s: Sys, s': Sys, cl: nat, id: SpanId) {
    && cl < |s.lists| == |s'.lists| && s'.lists == s.lists[cl := s'.lists[cl]]
    && s'.lists[cl].slots == s.lists[cl].slots && s'.lists[cl].cacheSize == s.lists[cl].cacheSize
    && s'.pagemap == s.pagemap
    && (forall i :: i != id ==> (i in s.spans <==> i in s'.spans) && (i in s.spans ==> s.spans[i] == s'.spans[i]))
    && (id in s.spans ==> s.spans[id].cls == cl)
    && (id in s'.spans ==> s'.spans[id].cls == cl)
  }

  lemma OneSpanLists(c: Config, s: Sys, s': Sys, cl: nat, id: SpanId)
    requires Shape(c, s) && Shape(c, s') && ListsOk(c, s) && OneSpan(s, s', cl, id)
    requires ListOk(c, cl, s'.lists[cl], s'.spans)
    ensures ListsOk(c, s')
  {
    forall k | 0 <= k < |s'.lists|
      ensures ListOk(c, k, s'.lists[k], s'.spans)
    {
      if k != cl {
        assert ListOk(c, k, s.lists[k], s.spans);
        hide ListOk;
        ListFrame(c, k, s.lists[k], s.spans, s'.spans, id);
      }
    }
  }

  lemma OneSpanSpans(c: Config, s: Sys, s': Sys, cl: nat, id: SpanId)
    requires c.Good() && SpansOk(c, s) && OneSpan(s, s', cl, id)
    requires id in s'.spans ==> SpanOk(c, s'.pagemap, id, s'.spans[id])
    ensures SpansOk(c, s')
  {
    forall i | i in s'.spans
      ensures SpanOk(c, s'.pagemap, i, s'.spans[i])
    {
      if i != id {
        assert SpanOk(c, s.pagemap, i, s.spans[i]);
      }
    }
  }

  /** Objects of other spans keep their class; so do the changed span's if it stays. */
  lemma OneSpanClass(s: Sys, s': Sys, cl: nat, id: SpanId, o: Obj)
    requires OneSpan(s, s', cl, id)
    requires id in s'.spans || (o in s.pagemap && s.pagemap[o] != id)
    ensures ClassKept(s, s', o)
  {}

  lemma OneSpanSlots(s: Sys, s': Sys, cl: nat, id: SpanId)
    requires SlotsInClass(s) && OneSpan(s, s', cl, id)
    requires id in s'.spans ||
             forall k, i, o :: 0 <= k < |s.lists| && 0 <= i < |s.lists[k].slots| && o in s.lists[k].slots[i] ==>
               o in s.pagemap && s.pagemap[o] != id
    ensures SlotsInClass(s')
  {
    forall k, i | 0 <= k < |s'.lists| && 0 <= i < |s'.lists[k].slots|
      ensures AllInClass(s', s'.lists[k].slots[i], k)
    {
      assert s'.lists[k].slots == s.lists[k].slots;
      forall o | o in s.lists[k].slots[i]
        ensures ClassKept(s, s', o)
      {
        OneSpanClass(s, s', cl, id, o);
      }
      ChainFrame(s, s', s.lists[k].slots[i], k);
    }
  }

  lemma OneSpanBudget(c: Config, s: Sys, s': Sys, t: nat, cl: nat, id: SpanId)
    requires Shape(c, s) && Shape(c, s') && BudgetOk(c, s) && OneSpan(s, s', cl, id) && t < |s.pcs|
    requires s'.pcs == s.pcs[t := s'.pcs[t]] && InFlight(s'.pcs[t]) <= InFlight(s.pcs[t])
    ensures BudgetOk(c, s')
  {
    SlotsOfUpdate(s.lists, cl, s'.lists[cl]);
    InFlightUpdate(s.pcs, t, s'.pcs[t]);
  }

  /** The span stays: all threads' points stay good. */
  lemma OneSpanPcs(c: Config, s: Sys, s': Sys, t: nat, cl: nat, id: SpanId)
    requires c.Good() && PcsOk(c, s) && OneSpan(s, s', cl, id) && id in s.spans && id in s'.spans
    requires t < |s.pcs| == |s'.pcs| && s'.pcs == s.pcs[t := s'.pcs[t]]
    requires PcOk(c, s', s'.pcs[t]) && Private(s'.pcs[t]).None?
    ensures PcsOk(c, s')
  {
    forall u | 0 <= u < |s.pcs| && u != t
      ensures PrivateOk(c, s', s.pcs[u])
    {
      assert PcOk(c, s, s.pcs[u]);
      hide Main, Beyond, Kept, Private;
    }
    forall o
      ensures ClassKept(s, s', o)
    {
      OneSpanClass(s, s', cl, id, o);
    }
    PcsKeep(c, s, s', t);
  }

  /** Everything but the places, when one list and one of its spans, which stays, change. */
  lemma OneSpanCore(c: Config, s: Sys, s': Sys, t: nat, cl: nat, id: SpanId)
    requires Core(c, s) && Shape(c, s') && LocksOk(s') && ChainsNoDup(s')
    requires OneSpan(s, s', cl, id) && id in s.spans && id in s'.spans
    requires ListOk(c, cl, s'.lists[cl], s'.spans) && SpanOk(c, s'.pagemap, id, s'.spans[id])
    requires t < |s.pcs| && s'.pcs == s.pcs[t := s'.pcs[t]]
    requires PcOk(c, s', s'.pcs[t]) && Private(s'.pcs[t]).None? && InFlight(s'.pcs[t]) <= InFlight(s.pcs[t])
    ensures Core(c, s')
  {
    hide PcOk, InFlight, Private, LocksOk, ChainsNoDup, SpansOk, ListsOk,
         SlotsInClass, BudgetOk, ListOk, SpanOk, PagemapOk, PcsOk;
    OneSpanLists(c, s, s', cl, id);
    OneSpanSpans(c, s, s', cl, id);
    OneSpanSlots(s, s', cl, id);
    OneSpanBudget(c, s, s', t, cl, id);
    OneSpanPcs(c, s, s', t, cl, id);
    PagemapSame(s, s');
  }

  // ---------------------------------------------------------------- fetching

  lemma FetchPlaces(s: Sys, s': Sys, t: nat, id: SpanId, chain: seq<Obj>, w: map<Obj, Place>)
    returns (w': map<Obj, Place>)
    requires Located(s, w) && ChainsNoDup(s)
    requires t < |s.pcs| == |s'.pcs| && s'.pcs == s.pcs[t := s'.pcs[t]]
    requires |s'.lists| == |s.lists| && forall k :: 0 <= k < |s.lists| ==> s'.lists[k].slots == s.lists[k].slots
    requires id in s.spans && id in s'.spans && s'.spans == s.spans[id := s'.spans[id]]
    requires s.spans[id].free == chain + s'.spans[id].free
    requires Carried(s'.pcs[t]) == chain + Carried(s.pcs[t])
    requires s'.pagemap == s.pagemap && s'.out == s.out
    ensures Located(s', w') && ChainsNoDup(s')
  {
    var from, to := FreeOf(id), HeldBy(t);
    assert At(s, from) == chain + At(s', from);
    assert At(s', to) == chain + At(s, to);
    forall p | p != from && p != to
      ensures At(s', p) == At(s, p)
    {
      hide Carried;
    }
    assert forall o :: Owned(s', o) <==> Owned(s, o);
    assert NoDup(At(s, from)) && NoDup(At(s, to));
    hide At, Carried, Owned;
    NoDupConcat(chain, At(s', from));
    forall o | o in chain
      ensures o !in At(s, to)
    {
      assert Has(s, from, o);
      assert !Has(s, to, o);
    }
    NoDupConcat(chain, At(s, to));
    w' := Move(s, s', w, from, to, chain);
  }

  lemma FetchSpanOk(c: Config, pagemap: map<Obj, SpanId>, id: SpanId, sp: Span, k: nat)
    requires c.Good() && SpanOk(c, pagemap, id, sp) && k <= |sp.free|
    ensures SpanOk(c, pagemap, id, sp.(free := sp.free[k..], refcount := sp.refcount + k))
    ensures forall o :: o in sp.free[..k] ==> o in pagemap && pagemap[o] == id
  {
    assert sp.free == sp.free[..k] + sp.free[k..];
    NoDupConcat(sp.free[..k], sp.free[k..]);
  }

  lemma FetchHeldFacts(cl: nat, n: nat, got: seq<Obj>, heap: HeapAnswer)
    ensures var pc := FetchHeld(cl, n, got, heap);
            && Carried(pc) == got && Main(pc) == got && MainClass(pc) == cl && Beyond(pc) == Return
            && Private(pc) == None && InFlight(pc) == 0 && HeldLock(pc) == ClassLock(cl)
  {
    assert Carried(FetchHeld(cl, n, got, heap)) == got + [];
  }

  lemma FirstListed(c: Config, s: Sys, cl: nat)
    requires Shape(c, s) && SpansOk(c, s) && ListsOk(c, s) && cl < |c.size| && s.lists[cl].nonempty != []
    ensures var l, id := s.lists[cl], s.lists[cl].nonempty[0];
            && ListOk(c, cl, l, s.spans) && id in l.nonempty && id in s.spans && s.spans[id].cls == cl
            && SpanOk(c, s.pagemap, id, s.spans[id])
  {
    hide SpanOk;
    var l, id := s.lists[cl], s.lists[cl].nonempty[0];
    assert ListOk(c, cl, l, s.spans);
    assert id in l.nonempty && s.spans[id].cls == cl;
  }

  lemma FetchFacts(c: Config, s: Sys, s1: Sys, cl: nat, n: nat)
    requires Shape(c, s) && SpansOk(c, s) && ListsOk(c, s) && cl < |c.size| && n > 0
    requires s.lists[cl].nonempty != [] && ListedSpans(s.lists[cl], s.spans)
    requires var f := Fetch(s.lists[cl], s.spans, n);
             s1 == s.(lists := s.lists[cl := f.list], spans := f.spans)
    ensures var id, chain := s.lists[cl].nonempty[0], Fetch(s.lists[cl], s.spans, n).chain;
            && OneSpan(s, s1, cl, id) && id in s.spans && id in s1.spans
            && s1.spans == s.spans[id := s1.spans[id]]
            && s.spans[id].free == chain + s1.spans[id].free
            && |chain| <= n
            && ListOk(c, cl, s1.lists[cl], s1.spans)
            && SpanOk(c, s.pagemap, id, s1.spans[id])
            && AllInClass(s1, chain, cl)
  {
    hide SpanOk, Fetch, ListsOk, SpansOk, ListOk, ListedSpans;
    var l, id := s.lists[cl], s.lists[cl].nonempty[0];
    var f := Fetch(l, s.spans, n);
    FirstListed(c, s, cl);
    FetchTakes(l, s.spans, n);
    FetchListOk(c, cl, l, s.spans, n);
    FetchSpanOk(c, s.pagemap, id, s.spans[id], |f.chain|);
  }

  /** A chain has gone from span `id` to thread `t`. */
  lemma FetchGlue(c: Config, s: Sys, s1: Sys, s': Sys, t: nat, cl: nat, n: nat, got: seq<Obj>, heap: HeapAnswer,
                  id: SpanId, chain: seq<Obj>, w: map<Obj, Place>)
    requires Core(c, s) && Located(s, w) && t < |s.pcs| && cl < |c.size|
    requires s.pcs[t] == FetchHeld(cl, n, got, heap) && |chain + got| <= n
    requires s1 == s.(lists := s1.lists, spans := s1.spans)
    requires OneSpan(s, s1, cl, id) && id in s.spans && id in s1.spans && s1.spans == s.spans[id := s1.spans[id]]
    requires s.spans[id].free == chain + s1.spans[id].free
    requires ListOk(c, cl, s1.lists[cl], s1.spans) && SpanOk(c, s.pagemap, id, s1.spans[id])
    requires AllInClass(s1, chain, cl)
    requires s' == SetPc(s1, t, FetchHeld(cl, n, chain + got, heap))
    ensures Inv(c, s')
  {
    FetchHeldFacts(cl, n, got, heap);
    FetchHeldFacts(cl, n, chain + got, heap);
    hide PcOk, HeldLock, InFlight, Private, LocksOk, Carried, Located, ChainsNoDup, SpansOk, ListsOk,
         SlotsInClass, AllInClass, BudgetOk, ListOk, SpanOk, PagemapOk, Has, Main, Beyond;
    assert PcOk(c, s, s.pcs[t]);
    FetchPcOk(c, s, s1, cl, n, chain, got, heap, id);
    PcOkSame(c, s1, s', s'.pcs[t]);
    LocksKeep(s, s', t);
    var w' := FetchPlaces(s, s', t, id, chain, w);
    OneSpanCore(c, s, s', t, cl, id);
  }

  lemma FetchKeeps(c: Config, s: Sys, s': Sys, t: nat, cl: nat, n: nat, got: seq<Obj>, heap: HeapAnswer, w: map<Obj, Place>)
    requires Core(c, s) && Located(s, w) && t < |s.pcs| && s.pcs[t] == FetchHeld(cl, n, got, heap) && cl < |c.size|
    requires |got| < n && s.lists[cl].nonempty != [] && ListedSpans(s.lists[cl], s.spans)
    requires var f := Fetch(s.lists[cl], s.spans, n - |got|);
             s' == SetPc(s, t, FetchHeld(cl, n, f.chain + got, heap))
                   .(lists := s.lists[cl := f.list], spans := f.spans)
    ensures Inv(c, s')
  {
    var f := Fetch(s.lists[cl], s.spans, n - |got|);
    var s1 := s.(lists := s.lists[cl := f.list], spans := f.spans);
    hide PcOk, HeldLock, InFlight, Private, LocksOk, Carried, Located, ChainsNoDup, SpansOk, ListsOk,
         SlotsInClass, AllInClass, BudgetOk, ListOk, SpanOk, PagemapOk, Has, Main, Beyond, Fetch, At, MaxCacheSize;
    FetchFacts(c, s, s1, cl, n - |got|);
    FetchGlue(c, s, s1, s', t, cl, n, got, heap, s.lists[cl].nonempty[0], f.chain, w);
  }

  lemma FetchPcOk(c: Config, s: Sys, s1: Sys, cl: nat, n: nat, chain: seq<Obj>, got: seq<Obj>, heap: HeapAnswer, id: SpanId)
    requires c.Good() && PcOk(c, s, FetchHeld(cl, n, got, heap))
    requires |chain + got| <= n && AllInClass(s1, chain, cl)
    requires OneSpan(s, s1, cl, id) && id in s1.spans
    ensures PcOk(c, s1, FetchHeld(cl, n, chain + got, heap))
  {
    FetchHeldFacts(cl, n, got, heap);
    FetchHeldFacts(cl, n, chain + got, heap);
    forall o | o in chain + got
      ensures InClass(s1, o, cl)
    {
      if o in got {
        assert InClass(s, o, cl);
      }
    }
  }
}
