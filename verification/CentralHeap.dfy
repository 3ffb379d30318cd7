/** The transitions that deal with the page heap keep the invariant. */
module CentralHeap {
  import opened Options
  import opened Seqs
  import opened CentralModel
  import opened CentralInvariant
  import opened CentralSteps
  import opened CentralSpans

  // ---------------------------------------------------------------- the page map changes

  /** Spans and places stay; only which addresses the page map knows changes, and not for
      spans in a list. */
  ghost predicate OnlyPagemap(s: Sys, s': Sys, id: SpanId) {
    && s'.lists == s.lists && s'.spans == s.spans && s'.out == s.out
    && id !in s.spans
    && (forall o :: o in s.pagemap && s.pagemap[o] != id ==> o in s'.pagemap && s'.pagemap[o] == s.pagemap[o])
    && (forall o :: o in s'.pagemap && s'.pagemap[o] != id ==> o in s.pagemap && s'.pagemap[o] == s.pagemap[o])
  }

  lemma OtherSpanOk(c: Config, s: Sys, s': Sys, id: SpanId, i: SpanId, sp: Span)
    requires c.Good() && OnlyPagemap(s, s', id) && i != id && SpanOk(c, s.pagemap, i, sp)
    ensures SpanOk(c, s'.pagemap, i, sp)
  {}

  lemma PagemapSpans(c: Config, s: Sys, s': Sys, id: SpanId)
    requires c.Good() && SpansOk(c, s) && OnlyPagemap(s, s', id)
    ensures SpansOk(c, s')
  {
    forall i | i in s'.spans
      ensures SpanOk(c, s'.pagemap, i, s'.spans[i])
    {
      OtherSpanOk(c, s, s', id, i, s.spans[i]);
    }
  }

  lemma PagemapClass(s: Sys, s': Sys, id: SpanId, o: Obj)
    requires OnlyPagemap(s, s', id)
    ensures ClassKept(s, s', o)
  {}

  lemma PagemapSlots(s: Sys, s': Sys, id: SpanId)
    requires SlotsInClass(s) && OnlyPagemap(s, s', id)
    ensures SlotsInClass(s')
  {
    forall k, i | 0 <= k < |s.lists| && 0 <= i < |s.lists[k].slots|
      ensures AllInClass(s', s.lists[k].slots[i], k)
    {
      forall o ensures ClassKept(s, s', o) { PagemapClass(s, s', id, o); }
      ChainFrame(s, s', s.lists[k].slots[i], k);
    }
  }

  lemma PagemapPcs(c: Config, s: Sys, s': Sys, t: nat, id: SpanId)
    requires c.Good() && PcsOk(c, s) && OnlyPagemap(s, s', id)
    requires t < |s.pcs| == |s'.pcs| && s'.pcs == s.pcs[t := s'.pcs[t]]
    requires PcOk(c, s', s'.pcs[t]) && PrivateApart(s, s', t)
    requires forall u :: 0 <= u < |s.pcs| && u != t && Private(s.pcs[u]).Some? ==> Private(s.pcs[u]).value.0 != id
    ensures PcsOk(c, s')
  {
    hide Private;
    forall u | 0 <= u < |s.pcs| && u != t
      ensures PrivateOk(c, s', s.pcs[u])
    {
      assert PcOk(c, s, s.pcs[u]);
      if Private(s.pcs[u]).Some? {
        var (i, sp) := Private(s.pcs[u]).value;
        OtherSpanOk(c, s, s', id, i, sp);
      }
    }
    forall o ensures ClassKept(s, s', o) { PagemapClass(s, s', id, o); }
    PcsKeep(c, s, s', t);
  }

  lemma PagemapPlaces(s: Sys, s': Sys, t: nat, id: SpanId, w: map<Obj, Place>)
    requires Located(s, w) && ChainsNoDup(s) && OnlyPagemap(s, s', id)
    requires t < |s.pcs| == |s'.pcs| && s'.pcs == s.pcs[t := s'.pcs[t]]
    requires Carried(s'.pcs[t]) == Carried(s.pcs[t])
    ensures Located(s', w) && ChainsNoDup(s')
  {
    forall p
      ensures At(s', p) == At(s, p)
    {
      hide Carried;
    }
    assert forall o :: Owned(s', o) <==> Owned(s, o);
    hide At, Owned;
    forall p, o
      ensures Has(s', p, o) <==> Has(s, p, o)
    {}
    hide Has;
  }

  lemma OnlyPagemapKeeps(c: Config, s: Sys, s': Sys, t: nat, id: SpanId, w: map<Obj, Place>)
    requires Core(c, s) && Located(s, w) && Shape(c, s') && LocksOk(s') && PagemapOk(s')
    requires OnlyPagemap(s, s', id)
    requires t < |s.pcs| == |s'.pcs| && s'.pcs == s.pcs[t := s'.pcs[t]]
    requires Carried(s'.pcs[t]) == Carried(s.pcs[t]) && InFlight(s'.pcs[t]) == InFlight(s.pcs[t])
    requires PcOk(c, s', s'.pcs[t]) && PrivateApart(s, s', t)
    requires forall u :: 0 <= u < |s.pcs| && u != t && Private(s.pcs[u]).Some? ==> Private(s.pcs[u]).value.0 != id
    ensures Inv(c, s')
  {
    InFlightUpdate(s.pcs, t, s'.pcs[t]);
    hide PcOk, InFlight, Private, LocksOk, ChainsNoDup, SpansOk, ListsOk, Located, Carried,
         SlotsInClass, PagemapOk, PcsOk, OnlyPagemap, PrivateApart;
    PagemapSpans(c, s, s', id);
    PagemapSlots(s, s', id);
    PagemapPcs(c, s, s', t, id);
    PagemapPlaces(s, s', t, id, w);
    assert s'.lists == s.lists && s'.spans == s.spans by { SameParts(s, s', id); }
    ListsOkSame(c, s, s');
  }

  lemma SameParts(s: Sys, s': Sys, id: SpanId)
    requires OnlyPagemap(s, s', id)
    ensures s'.lists == s.lists && s'.spans == s.spans
  {}

  // ---------------------------------------------------------------- Delete

  lemma DeleteHeldFacts(at: nat, rest: seq<Obj>, next: After, id: SpanId, sp: Span)
    ensures var pc := DeleteHeld(at, rest, next, id, sp);
            && Carried(pc) == rest + Kept(next) && Main(pc) == rest && MainClass(pc) == at && Beyond(pc) == next
            && Private(pc) == Some((id, sp)) && InFlight(pc) == (if next.BackTo? then 1 else 0)
            && HeldLock(pc) == HeapLock
  {}

  lemma ReleaseWaitFacts(at: nat, rest: seq<Obj>, next: After)
    ensures var pc := ReleaseWait(at, rest, next);
            && Carried(pc) == rest + Kept(next) && Main(pc) == rest && MainClass(pc) == at && Beyond(pc) == next
            && Private(pc) == None && InFlight(pc) == (if next.BackTo? then 1 else 0)
            && HeldLock(pc) == NoLock
  {}

  lemma ForgetPagemap(s: Sys, s': Sys, id: SpanId)
    requires PagemapOk(s) && s'.pagemap == map o | o in s.pagemap && s.pagemap[o] != id :: s.pagemap[o]
    ensures PagemapOk(s')
  {
    forall i | i in s'.pagemap.Values
      ensures i in s'.pagemap && s'.pagemap[i] == i
    {
      var o :| o in s'.pagemap && s'.pagemap[o] == i;
      assert o in s.pagemap && s.pagemap[o] == i;
      assert i in s.pagemap.Values;
    }
  }

  lemma DeletePcOk(c: Config, s: Sys, s': Sys, at: nat, rest: seq<Obj>, next: After, id: SpanId, sp: Span)
    requires c.Good() && PcOk(c, s, DeleteHeld(at, rest, next, id, sp)) && OnlyPagemap(s, s', id)
    ensures PcOk(c, s', ReleaseWait(at, rest, next))
  {
    forall o ensures ClassKept(s, s', o) { PagemapClass(s, s', id, o); }
    ChainFrame(s, s', rest, at);
    ChainFrame(s, s', Kept(next), KeptClass(next));
  }

  lemma PrivateDistinct(c: Config, s: Sys, t: nat)
    requires c.Good() && PcsOk(c, s) && t < |s.pcs| && Private(s.pcs[t]).Some?
    ensures forall u :: 0 <= u < |s.pcs| && u != t && Private(s.pcs[u]).Some? ==>
              Private(s.pcs[u]).value.0 != Private(s.pcs[t]).value.0
  {
    hide Private;
    forall u | 0 <= u < |s.pcs| && u != t && Private(s.pcs[u]).Some?
      ensures Private(s.pcs[u]).value.0 != Private(s.pcs[t]).value.0
    {
      if u < t {
        assert Private(s.pcs[u]).value.0 != Private(s.pcs[t]).value.0;
      }
    }
  }

  lemma DeleteKeeps(c: Config, s: Sys, s': Sys, t: nat, at: nat, rest: seq<Obj>, next: After, id: SpanId, sp: Span,
                    w: map<Obj, Place>)
    requires Core(c, s) && Located(s, w) && t < |s.pcs| && s.pcs[t] == DeleteHeld(at, rest, next, id, sp)
    requires s' == Delete(s, t, at, rest, next, id)
    ensures Inv(c, s')
  {
    DeleteHeldFacts(at, rest, next, id, sp);
    ReleaseWaitFacts(at, rest, next);
    assert PcOk(c, s, s.pcs[t]);
    assert OnlyPagemap(s, s', id);
    hide PcOk, InFlight, Private, LocksOk, ChainsNoDup, SpansOk, ListsOk, Located, Carried, HeldLock, Main, Beyond,
         SlotsInClass, PagemapOk, PcsOk, OnlyPagemap, BudgetOk;
    LocksKeep(s, s', t);
    ForgetPagemap(s, s', id);
    DeletePcOk(c, s, s', at, rest, next, id, sp);
    PrivateDistinct(c, s, t);
    assert PrivateApart(s, s', t);
    hide PrivateApart;
    OnlyPagemapKeeps(c, s, s', t, id, w);
  }

  // ---------------------------------------------------------------- New

  lemma PopulateHeldFacts(cl: nat, n: nat)
    ensures var pc := PopulateHeld(cl, n);
            && Carried(pc) == [] && Main(pc) == [] && Beyond(pc) == Return
            && Private(pc) == None && InFlight(pc) == 0 && HeldLock(pc) == HeapLock
  {}

  lemma LinkWaitFacts(cl: nat, n: nat, id: SpanId, sp: Option<Span>)
    ensures var pc := LinkWait(cl, n, id, sp);
            && Carried(pc) == [] && Main(pc) == [] && Beyond(pc) == Return
            && Private(pc) == (if sp.Some? then Some((id, sp.value)) else None)
            && InFlight(pc) == 0 && HeldLock(pc) == NoLock
  {}

  /** A fresh span's objects belong to nothing the page map knows. */
  lemma FreshSpan(c: Config, s: Sys, s': Sys, start: SpanId, all: seq<Obj>)
    requires c.Good() && PagemapOk(s) && SpansOk(c, s) && PcsOk(c, s)
    requires start in all && forall o :: o in all ==> o !in s.pagemap
    requires s'.lists == s.lists && s'.spans == s.spans && s'.out == s.out
    requires s'.pagemap == s.pagemap + map o | o in all :: start
    ensures OnlyPagemap(s, s', start) && PagemapOk(s')
    ensures forall o :: o in all <==> o in s'.pagemap && s'.pagemap[o] == start
    ensures forall u :: 0 <= u < |s.pcs| && Private(s.pcs[u]).Some? ==> Private(s.pcs[u]).value.0 != start
  {
    hide Private;
    assert start !in s.pagemap;
    assert forall o :: o in s.pagemap ==> s.pagemap[o] in s.pagemap.Values;
    if start in s.spans {
      SpanHasItself(c, s, start, s.spans[start]);
      assert false;
    }
    forall u | 0 <= u < |s.pcs| && Private(s.pcs[u]).Some?
      ensures Private(s.pcs[u]).value.0 != start
    {
      assert PcOk(c, s, s.pcs[u]);
      var (id, sp) := Private(s.pcs[u]).value;
      SpanHasItself(c, s, id, sp);
    }
    forall i | i in s'.pagemap.Values
      ensures i in s'.pagemap && s'.pagemap[i] == i
    {
      var o :| o in s'.pagemap && s'.pagemap[o] == i;
      if o !in all {
        assert i in s.pagemap.Values;
      }
    }
  }

  lemma SpanHasItself(c: Config, s: Sys, id: SpanId, sp: Span)
    requires c.Good() && SpanOk(c, s.pagemap, id, sp)
    ensures id in s.pagemap
  {
    CapacityPositive(c, sp.cls);
    CarveNoDup(id, c.size[sp.cls], c.Capacity(sp.cls));
  }

  lemma NewPcOk(c: Config, s': Sys, cl: nat, n: nat, start: SpanId, all: seq<Obj>)
    requires c.Good() && 1 <= cl < |c.size| && n > 0 && start !in s'.spans
    requires all == Carve(start, c.size[cl], c.Capacity(cl)) && NoDup(all)
    requires forall o :: o in all <==> o in s'.pagemap && s'.pagemap[o] == start
    ensures PcOk(c, s', LinkWait(cl, n, start, Some(Span(cl, all, all, 0))))
  {}

  lemma NewKeeps(c: Config, s: Sys, s': Sys, t: nat, cl: nat, n: nat, start: SpanId, w: map<Obj, Place>)
    requires Core(c, s) && Located(s, w) && t < |s.pcs| && 1 <= cl < |c.size|
    requires s.pcs[t] == PopulateHeld(cl, n)
    requires Populate(c, s, t, cl, n, NewSpan(start)) == Some(s')
    ensures Inv(c, s')
  {
    var all := Carve(start, c.size[cl], c.Capacity(cl));
    PopulateHeldFacts(cl, n);
    LinkWaitFacts(cl, n, start, Some(Span(cl, all, all, 0)));
    assert PcOk(c, s, s.pcs[t]) && n > 0;
    hide PcOk, InFlight, Private, LocksOk, ChainsNoDup, SpansOk, ListsOk, Located, Carried, HeldLock, Main, Beyond,
         SlotsInClass, PagemapOk, PcsOk, OnlyPagemap, BudgetOk;
    CapacityPositive(c, cl);
    CarveNoDup(start, c.size[cl], c.Capacity(cl));
    LocksKeep(s, s', t);
    FreshSpan(c, s, s', start, all);
    assert start !in s'.spans by { NotListed(s, s', start); }
    NewPcOk(c, s', cl, n, start, all);
    assert PrivateApart(s, s', t);
    hide PrivateApart;
    OnlyPagemapKeeps(c, s, s', t, start, w);
  }

  lemma NotListed(s: Sys, s': Sys, id: SpanId)
    requires OnlyPagemap(s, s', id)
    ensures id !in s'.spans
  {}

  // ---------------------------------------------------------------- the end of Populate

  lemma LinkHeldFacts(cl: nat, n: nat, id: SpanId, sp: Option<Span>)
    ensures var pc := LinkHeld(cl, n, id, sp);
            && Carried(pc) == [] && Main(pc) == [] && Beyond(pc) == Return
            && Private(pc) == (if sp.Some? then Some((id, sp.value)) else None)
            && InFlight(pc) == 0 && HeldLock(pc) == ClassLock(cl)
  {}

  lemma LinkPlaces(s: Sys, s': Sys, t: nat, id: SpanId, sp: Span, w: map<Obj, Place>)
    returns (w': map<Obj, Place>)
    requires Located(s, w) && ChainsNoDup(s)
    requires t < |s.pcs| == |s'.pcs| && s'.pcs == s.pcs[t := s'.pcs[t]]
    requires Carried(s.pcs[t]) == Carried(s'.pcs[t])
    requires |s'.lists| == |s.lists| && forall k :: 0 <= k < |s.lists| ==> s'.lists[k].slots == s.lists[k].slots
    requires id !in s.spans && s'.spans == s.spans[id := sp] && NoDup(sp.free) && sp.free == sp.all
    requires forall o :: o in sp.all <==> o in s.pagemap && s.pagemap[o] == id
    requires s'.pagemap == s.pagemap && s'.out == s.out
    ensures Located(s', w') && ChainsNoDup(s')
  {
    w' := w + map o | o in sp.all :: FreeOf(id);
    assert At(s', FreeOf(id)) == sp.all && At(s, FreeOf(id)) == [];
    forall p | p != FreeOf(id)
      ensures At(s', p) == At(s, p)
    {
      hide Carried;
    }
    assert forall x :: Owned(s', x) <==> Owned(s, x) || x in sp.all;
    assert forall x :: x in sp.all ==> !Owned(s, x);
    hide At, Owned;
    forall p ensures NoDup(At(s', p)) {}
    forall p, x
      ensures Has(s', p, x) <==> if p == FreeOf(id) then x in sp.all else Has(s, p, x)
    {}
    hide Has;
  }

  lemma LinkFacts(c: Config, s: Sys, s1: Sys, cl: nat, n: nat, id: SpanId, sp: Span)
    requires Shape(c, s) && ListsOk(c, s) && 1 <= cl < |c.size|
    requires PcOk(c, s, LinkHeld(cl, n, id, Some(sp)))
    requires var (l, spans) := Link(s.lists[cl], s.spans, id, sp);
             s1 == s.(lists := s.lists[cl := l], spans := spans)
    ensures n > 0 && id !in s.spans && SpanOk(c, s.pagemap, id, sp) && sp.free == sp.all
    ensures s1.spans == s.spans[id := sp] && OneSpan(s, s1, cl, id) && ListOk(c, cl, s1.lists[cl], s1.spans)
  {
    LinkHeldFacts(cl, n, id, Some(sp));
    assert SpanOk(c, s.pagemap, id, sp) && sp.cls == cl;
    CapacityPositive(c, cl);
    assert ListOk(c, cl, s.lists[cl], s.spans);
    hide PcOk, ListsOk, ListOk, SpanOk;
    assert sp.all != [] by { AllNotEmpty(c, s, id, sp); }
    LinkListOk(c, cl, s.lists[cl], s.spans, id, sp);
  }

  lemma AllNotEmpty(c: Config, s: Sys, id: SpanId, sp: Span)
    requires c.Good() && SpanOk(c, s.pagemap, id, sp)
    ensures sp.all != []
  {
    CapacityPositive(c, sp.cls);
  }

  lemma LinkKeeps(c: Config, s: Sys, s': Sys, t: nat, cl: nat, n: nat, id: SpanId, sp: Span, w: map<Obj, Place>)
    requires Core(c, s) && Located(s, w) && t < |s.pcs| && 1 <= cl < |c.size|
    requires s.pcs[t] == LinkHeld(cl, n, id, Some(sp))
    requires s' == LinkStep(s, t, cl, n, id, Some(sp))
    ensures Inv(c, s')
  {
    hide InFlight, Private, LocksOk, ChainsNoDup, SpansOk, ListsOk, Located, Carried, HeldLock, Main, Beyond,
         SlotsInClass, PagemapOk, BudgetOk, ListOk, PcOk, SpanOk, At, Has, MaxCacheSize;
    var pc' := FetchHeld(cl, n, [], Gave);
    var (l, spans) := Link(s.lists[cl], s.spans, id, sp);
    var s1 := s.(lists := s.lists[cl := l], spans := spans);
    LinkHeldFacts(cl, n, id, Some(sp));
    FetchHeldFacts(cl, n, [], Gave);
    assert PcOk(c, s, s.pcs[t]);
    hide PcsOk;
    LinkFacts(c, s, s1, cl, n, id, sp);
    FetchHeldOk(c, s', cl, n);
    LocksKeep(s, s', t);
    SpanAll(c, s, id, sp);
    var w' := LinkPlaces(s, s', t, id, sp, w);
    LinkCore(c, s, s', t, cl, id);
  }

  lemma SpanAll(c: Config, s: Sys, id: SpanId, sp: Span)
    requires c.Good() && SpanOk(c, s.pagemap, id, sp)
    ensures NoDup(sp.free) && forall o :: o in sp.all <==> o in s.pagemap && s.pagemap[o] == id
  {}

  lemma FetchHeldOk(c: Config, s: Sys, cl: nat, n: nat)
    requires c.Good() && 1 <= cl < |c.size| && n > 0
    ensures forall heap :: PcOk(c, s, FetchHeld(cl, n, [], heap))
  {}

  lemma LinkCore(c: Config, s: Sys, s': Sys, t: nat, cl: nat, id: SpanId)
    requires Core(c, s) && Shape(c, s') && LocksOk(s') && ChainsNoDup(s')
    requires OneSpan(s, s', cl, id) && id in s'.spans && id !in s.spans
    requires ListOk(c, cl, s'.lists[cl], s'.spans) && SpanOk(c, s'.pagemap, id, s'.spans[id])
    requires t < |s.pcs| && s'.pcs == s.pcs[t := s'.pcs[t]]
    requires Private(s.pcs[t]).Some? && Private(s.pcs[t]).value.0 == id
    requires PcOk(c, s', s'.pcs[t]) && Private(s'.pcs[t]).None? && InFlight(s'.pcs[t]) <= InFlight(s.pcs[t])
    ensures Core(c, s')
  {
    hide PcOk, InFlight, Private, LocksOk, ChainsNoDup, SpansOk, ListsOk,
         SlotsInClass, BudgetOk, ListOk, SpanOk, PagemapOk, PcsOk;
    OneSpanLists(c, s, s', cl, id);
    OneSpanSpans(c, s, s', cl, id);
    OneSpanSlots(s, s', cl, id);
    OneSpanBudget(c, s, s', t, cl, id);
    LinkPcs(c, s, s', t, cl, id);
    PagemapSame(s, s');
  }

  lemma LinkPcs(c: Config, s: Sys, s': Sys, t: nat, cl: nat, id: SpanId)
    requires c.Good() && PcsOk(c, s) && OneSpan(s, s', cl, id) && id in s'.spans && id !in s.spans
    requires t < |s.pcs| == |s'.pcs| && s'.pcs == s.pcs[t := s'.pcs[t]]
    requires Private(s.pcs[t]).Some? && Private(s.pcs[t]).value.0 == id
    requires PcOk(c, s', s'.pcs[t]) && Private(s'.pcs[t]).None?
    ensures PcsOk(c, s')
  {
    hide Private;
    PrivateDistinct(c, s, t);
    forall u | 0 <= u < |s.pcs| && u != t
      ensures PrivateOk(c, s', s.pcs[u])
    {
      assert PcOk(c, s, s.pcs[u]);
      hide Main, Beyond, Kept;
    }
    forall o
      ensures ClassKept(s, s', o)
    {
      OneSpanClass(s, s', cl, id, o);
    }
    PcsKeep(c, s, s', t);
  }
}
