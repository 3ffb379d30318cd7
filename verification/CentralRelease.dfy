/** Handing objects over to and from the caller, and giving them back to their spans. */
module CentralRelease {
  import opened Options
  import opened Seqs
  import opened CentralModel
  import opened CentralInvariant
  import opened CentralSteps
  import opened CentralSpans

  // ---------------------------------------------------------------- one object goes home

  lemma ReleaseHeldFacts(at: nat, rest: seq<Obj>, next: After)
    ensures var pc := ReleaseHeld(at, rest, next);
            && Carried(pc) == rest + Kept(next) && Main(pc) == rest && MainClass(pc) == at && Beyond(pc) == next
            && Private(pc) == None && InFlight(pc) == (if next.BackTo? then 1 else 0)
            && HeldLock(pc) == ClassLock(at)
  {}

  lemma DeleteWaitFacts(at: nat, rest: seq<Obj>, next: After, id: SpanId, sp: Span)
    ensures var pc := DeleteWait(at, rest, next, id, sp);
            && Carried(pc) == rest + Kept(next) && Main(pc) == rest && MainClass(pc) == at && Beyond(pc) == next
            && Private(pc) == Some((id, sp)) && InFlight(pc) == (if next.BackTo? then 1 else 0)
            && HeldLock(pc) == NoLock
  {}

  /** The object at the head of what a thread carries is nowhere else. */
  lemma HeadCarried(s: Sys, t: nat, o: Obj, tail: seq<Obj>, w: map<Obj, Place>)
    requires Located(s, w) && ChainsNoDup(s) && t < |s.pcs| && Carried(s.pcs[t]) == [o] + tail
    ensures o !in tail && o in w && w[o] == HeldBy(t)
    ensures forall x :: x in tail ==> x in w && w[x] == HeldBy(t)
    ensures forall id :: id in s.spans ==> o !in s.spans[id].free
    ensures forall id, x :: id in s.spans && x in s.spans[id].free ==> x in w && w[x] == FreeOf(id)
  {
    assert At(s, HeldBy(t)) == [o] + tail;
    assert Has(s, HeldBy(t), o);
    NoDupConcat([o], tail);
    forall x | x in tail
      ensures x in w && w[x] == HeldBy(t)
    {
      assert x in [o] + tail;
      assert Has(s, HeldBy(t), x);
    }
    forall id, x | id in s.spans && x in s.spans[id].free
      ensures x in w && w[x] == FreeOf(id)
    {
      assert Has(s, FreeOf(id), x);
    }
  }

  lemma ReleasedHead(c: Config, s: Sys, at: nat, rest: seq<Obj>, next: After)
    requires c.Good() && SpansOk(c, s) && PcOk(c, s, ReleaseHeld(at, rest, next)) && rest != []
    ensures var o := rest[0];
            && o in s.pagemap && s.pagemap[o] in s.spans && s.spans[s.pagemap[o]].cls == at && 1 <= at < |c.size|
            && SpanOk(c, s.pagemap, s.pagemap[o], s.spans[s.pagemap[o]]) && o in s.spans[s.pagemap[o]].all
            && Carried(ReleaseHeld(at, rest, next)) == [o] + (rest[1..] + Kept(next))
  {
    hide PcOk, Carried, SpansOk, SpanOk, InClass;
    var o := rest[0];
    ReleaseHeldFacts(at, rest, next);
    assert rest == [o] + rest[1..];
    RestInClass(c, s, at, rest, next);
    OwnedSpan(c, s, o, at);
  }

  lemma RestInClass(c: Config, s: Sys, at: nat, rest: seq<Obj>, next: After)
    requires c.Good() && PcOk(c, s, ReleaseHeld(at, rest, next)) && rest != []
    ensures InClass(s, rest[0], at)
  {
    hide InClass;
    assert rest[0] in rest;
  }

  lemma OwnedSpan(c: Config, s: Sys, o: Obj, at: nat)
    requires c.Good() && SpansOk(c, s) && InClass(s, o, at)
    ensures o in s.pagemap && s.pagemap[o] in s.spans && s.spans[s.pagemap[o]].cls == at && 1 <= at < |c.size|
    ensures SpanOk(c, s.pagemap, s.pagemap[o], s.spans[s.pagemap[o]]) && o in s.spans[s.pagemap[o]].all
  {
    assert SpanOk(c, s.pagemap, s.pagemap[o], s.spans[s.pagemap[o]]);
  }

  /** The released object is in its span but not on its free chain, so the refcount is positive. */
  lemma ReleasedObject(c: Config, s: Sys, t: nat, at: nat, rest: seq<Obj>, next: After, w: map<Obj, Place>)
    requires c.Good() && SpansOk(c, s) && Located(s, w) && ChainsNoDup(s)
    requires t < |s.pcs| && s.pcs[t] == ReleaseHeld(at, rest, next) && PcOk(c, s, s.pcs[t]) && rest != []
    ensures var o := rest[0];
            && o in s.pagemap && s.pagemap[o] in s.spans && s.spans[s.pagemap[o]].cls == at
            && 1 <= at < |c.size|
            && SpanOk(c, s.pagemap, s.pagemap[o], s.spans[s.pagemap[o]])
            && o in s.spans[s.pagemap[o]].all && o !in s.spans[s.pagemap[o]].free
            && s.spans[s.pagemap[o]].refcount > 0
            && Carried(s.pcs[t]) == [o] + (rest[1..] + Kept(next))
  {
    hide PcOk, Carried, Located, ChainsNoDup, SpansOk;
    var o := rest[0];
    ReleasedHead(c, s, at, rest, next);
    var id := s.pagemap[o];
    var sp := s.spans[id];
    HeadCarried(s, t, o, rest[1..] + Kept(next), w);
    MissingOne(sp.free, sp.all, o);
  }

  lemma ReleasedSpanOk(c: Config, pagemap: map<Obj, SpanId>, id: SpanId, sp: Span, o: Obj)
    requires c.Good() && SpanOk(c, pagemap, id, sp) && o in sp.all && o !in sp.free
    ensures SpanOk(c, pagemap, id, sp.(free := [o] + sp.free, refcount := sp.refcount - 1))
  {
    NoDupConcat([o], sp.free);
  }

  lemma ReleasePlaces(s: Sys, s': Sys, t: nat, id: SpanId, o: Obj, w: map<Obj, Place>)
    returns (w': map<Obj, Place>)
    requires Located(s, w) && ChainsNoDup(s)
    requires t < |s.pcs| == |s'.pcs| && s'.pcs == s.pcs[t := s'.pcs[t]]
    requires |s'.lists| == |s.lists| && forall k :: 0 <= k < |s.lists| ==> s'.lists[k].slots == s.lists[k].slots
    requires id in s.spans && id in s'.spans && s'.spans == s.spans[id := s'.spans[id]]
    requires s'.spans[id].free == [o] + s.spans[id].free
    requires Carried(s.pcs[t]) == [o] + Carried(s'.pcs[t])
    requires s'.pagemap == s.pagemap && s'.out == s.out
    ensures Located(s', w') && ChainsNoDup(s')
  {
    var from, to := HeldBy(t), FreeOf(id);
    assert At(s, from) == [o] + At(s', from);
    assert At(s', to) == [o] + At(s, to);
    forall p | p != from && p != to
      ensures At(s', p) == At(s, p)
    {
      hide Carried;
    }
    assert forall x :: Owned(s', x) <==> Owned(s, x);
    assert NoDup(At(s, from)) && NoDup(At(s, to));
    hide At, Carried, Owned;
    NoDupConcat([o], At(s', from));
    assert Has(s, from, o);
    assert !Has(s, to, o);
    NoDupConcat([o], At(s, to));
    w' := Move(s, s', w, from, to, [o]);
  }

  lemma ReleasePcOk(c: Config, s: Sys, s1: Sys, at: nat, rest: seq<Obj>, next: After, id: SpanId)
    requires c.Good() && PcOk(c, s, ReleaseHeld(at, rest, next)) && rest != []
    requires OneSpan(s, s1, at, id)
    requires forall o :: o in rest[1..] + Kept(next) ==> id in s1.spans || (o in s.pagemap && s.pagemap[o] != id)
    ensures PcOk(c, s1, ReleaseHeld(at, rest[1..], next))
  {
    ReleaseHeldFacts(at, rest, next);
    ReleaseHeldFacts(at, rest[1..], next);
    forall o | o in rest[1..] || o in Kept(next)
      ensures ClassKept(s, s1, o)
    {
      assert o in rest[1..] + Kept(next);
      OneSpanClass(s, s1, at, id, o);
    }
    assert forall o :: o in rest[1..] ==> o in rest;
    ChainFrame(s, s1, rest[1..], at);
    ChainFrame(s, s1, Kept(next), KeptClass(next));
  }

  /** What the list and the span look like after ReleaseToSpans kept the span. */
  lemma ReleaseKeptFacts(c: Config, s: Sys, s1: Sys, at: nat, o: Obj, id: SpanId)
    requires Shape(c, s) && ListsOk(c, s) && 1 <= at < |c.size|
    requires id in s.spans && s.spans[id].cls == at && SpanOk(c, s.pagemap, id, s.spans[id])
    requires o in s.spans[id].all && o !in s.spans[id].free && s.spans[id].refcount != 1
    requires var r := Release(c, s.lists[at], s.spans, id, o);
             s1 == s.(lists := s.lists[at := r.list], spans := r.spans)
    ensures OneSpan(s, s1, at, id) && id in s1.spans && s1.spans == s.spans[id := s1.spans[id]]
    ensures s1.spans[id].free == [o] + s.spans[id].free
    ensures ListOk(c, at, s1.lists[at], s1.spans) && SpanOk(c, s.pagemap, id, s1.spans[id])
  {
    assert ListOk(c, at, s.lists[at], s.spans);
    ReleaseKeptListOk(c, at, s.lists[at], s.spans, id, o);
    ReleasedSpanOk(c, s.pagemap, id, s.spans[id], o);
    hide ListOk, ListsOk, SpanOk, Release;
  }

  /** ReleaseToSpans, when other objects of the span are still in use. */
  lemma ReleaseKeptKeeps(c: Config, s: Sys, s': Sys, t: nat, at: nat, rest: seq<Obj>, next: After, w: map<Obj, Place>)
    requires Core(c, s) && Located(s, w) && t < |s.pcs| && at < |c.size|
    requires s.pcs[t] == ReleaseHeld(at, rest, next) && rest != []
    requires rest[0] in s.pagemap && s.pagemap[rest[0]] in s.spans && 1 <= s.spans[s.pagemap[rest[0]]].cls < |c.size|
    requires s.spans[s.pagemap[rest[0]]].refcount != 1
    requires var r := Release(c, s.lists[at], s.spans, s.pagemap[rest[0]], rest[0]);
             s' == SetPc(s, t, ReleaseHeld(at, rest[1..], next)).(lists := s.lists[at := r.list], spans := r.spans)
    ensures Inv(c, s')
  {
    hide PcOk, HeldLock, InFlight, Private, LocksOk, Carried, Located, ChainsNoDup, SpansOk, ListsOk,
         SlotsInClass, AllInClass, BudgetOk, Release, ListOk, SpanOk, PagemapOk, Has, Main, Beyond, At, MaxCacheSize;
    var o := rest[0];
    var id := s.pagemap[o];
    var r := Release(c, s.lists[at], s.spans, id, o);
    var s1 := s.(lists := s.lists[at := r.list], spans := r.spans);
    ReleaseHeldFacts(at, rest, next);
    ReleaseHeldFacts(at, rest[1..], next);
    assert PcOk(c, s, s.pcs[t]);
    ReleasedObject(c, s, t, at, rest, next, w);
    ReleaseKeptFacts(c, s, s1, at, o, id);
    ReleasePcOk(c, s, s1, at, rest, next, id);
    PcOkSame(c, s1, s', s'.pcs[t]);
    LocksKeep(s, s', t);
    var w' := ReleasePlaces(s, s', t, id, o, w);
    OneSpanCore(c, s, s', t, at, id);
  }

  // ---------------------------------------------------------------- the last object: the span leaves

  /** Of span `id` the object `o` is in use and all others are on its free chain. */
  ghost predicate OnlyInUse(s: Sys, w: map<Obj, Place>, id: SpanId, o: Obj) {
    forall x :: x in w ==> x in s.pagemap && (s.pagemap[x] == id <==> x == o || w[x] == FreeOf(id))
  }

  /** With one object of the span in use, all its objects are that one and the free ones. */
  lemma LastInUse(c: Config, s: Sys, t: nat, o: Obj, tail: seq<Obj>, id: SpanId, w: map<Obj, Place>)
    requires c.Good() && Located(s, w) && ChainsNoDup(s) && t < |s.pcs| && Carried(s.pcs[t]) == [o] + tail
    requires id in s.spans && SpanOk(c, s.pagemap, id, s.spans[id]) && s.spans[id].refcount == 1
    requires o in s.spans[id].all
    ensures OnlyInUse(s, w, id, o)
  {
    var sp := s.spans[id];
    HeadCarried(s, t, o, tail, w);
    MissingOne(sp.free, sp.all, o);
    forall x | x in w
      ensures x in s.pagemap && (s.pagemap[x] == id <==> x == o || w[x] == FreeOf(id))
    {
      assert Owned(s, x);
      if w[x] == FreeOf(id) {
        assert Has(s, FreeOf(id), x);
      }
    }
  }

  lemma GoneAt(s: Sys, s': Sys, t: nat, id: SpanId, o: Obj)
    requires ChainsNoDup(s)
    requires t < |s.pcs| == |s'.pcs| && s'.pcs == s.pcs[t := s'.pcs[t]]
    requires |s'.lists| == |s.lists| && forall k :: 0 <= k < |s.lists| ==> s'.lists[k].slots == s.lists[k].slots
    requires id in s.spans && s'.spans == s.spans - {id}
    requires Carried(s.pcs[t]) == [o] + Carried(s'.pcs[t])
    ensures At(s, HeldBy(t)) == [o] + At(s', HeldBy(t)) && At(s', FreeOf(id)) == []
    ensures forall p :: p != HeldBy(t) && p != FreeOf(id) ==> At(s', p) == At(s, p)
    ensures ChainsNoDup(s') && o !in At(s', HeldBy(t))
  {
    var from := HeldBy(t);
    assert At(s, from) == [o] + At(s', from);
    assert At(s', FreeOf(id)) == [];
    forall p | p != from && p != FreeOf(id)
      ensures At(s', p) == At(s, p)
    {
      hide Carried;
    }
    assert NoDup(At(s, from));
    hide At;
    NoDupConcat([o], At(s', from));
    forall p
      ensures NoDup(At(s', p))
    {
      assert NoDup(At(s, p));
    }
  }

  lemma GonePlaces(s: Sys, s': Sys, t: nat, id: SpanId, o: Obj, w: map<Obj, Place>)
    returns (w': map<Obj, Place>)
    requires Located(s, w) && ChainsNoDup(s)
    requires t < |s.pcs| == |s'.pcs| && s'.pcs == s.pcs[t := s'.pcs[t]]
    requires |s'.lists| == |s.lists| && forall k :: 0 <= k < |s.lists| ==> s'.lists[k].slots == s.lists[k].slots
    requires id in s.spans && s'.spans == s.spans - {id}
    requires Carried(s.pcs[t]) == [o] + Carried(s'.pcs[t])
    requires s'.pagemap == s.pagemap && s'.out == s.out
    requires OnlyInUse(s, w, id, o)
    ensures Located(s', w') && ChainsNoDup(s')
  {
    w' := map x | x in w && s.pagemap[x] != id :: w[x];
    GoneAt(s, s', t, id, o);
    assert forall x :: Owned(s', x) <==> Owned(s, x) && s.pagemap[x] != id;
    HeadCarried(s, t, o, Carried(s'.pcs[t]), w);
    hide ChainsNoDup, At, Carried, Owned;
    forall p, x
      ensures Has(s', p, x) <==> Has(s, p, x) && x != o && p != FreeOf(id)
    {
      if p == HeldBy(t) {
        assert x in At(s, p) <==> x == o || x in At(s', p);
      } else if p != FreeOf(id) {
        assert At(s', p) == At(s, p);
        assert !Has(s, p, o);
      }
    }
    hide Has;
  }

  lemma GonePcOk(c: Config, s: Sys, s': Sys, at: nat, rest: seq<Obj>, next: After, id: SpanId)
    requires c.Good() && PcOk(c, s, ReleaseHeld(at, rest, next)) && rest != []
    requires OneSpan(s, s', at, id) && id in s.spans && id !in s'.spans
    requires SpanOk(c, s.pagemap, id, s.spans[id])
    requires forall x :: x in rest[1..] + Kept(next) ==> x in s.pagemap && s.pagemap[x] != id
    ensures PcOk(c, s', DeleteWait(at, rest[1..], next, id, s.spans[id]))
  {
    ReleasePcOk(c, s, s', at, rest, next, id);
    ReleaseHeldFacts(at, rest[1..], next);
    DeleteWaitFacts(at, rest[1..], next, id, s.spans[id]);
  }

  lemma GonePcs(c: Config, s: Sys, s': Sys, t: nat, at: nat, id: SpanId, o: Obj, w: map<Obj, Place>)
    requires c.Good() && PcsOk(c, s) && OneSpan(s, s', at, id) && id in s.spans && id !in s'.spans
    requires Located(s, w) && t < |s.pcs| == |s'.pcs| && s'.pcs == s.pcs[t := s'.pcs[t]]
    requires o in w && w[o] == HeldBy(t)
    requires OnlyInUse(s, w, id, o)
    requires PcOk(c, s', s'.pcs[t])
    requires Private(s'.pcs[t]).Some? && Private(s'.pcs[t]).value.0 == id
    ensures PcsOk(c, s')
  {
    forall u | 0 <= u < |s.pcs| && u != t
      ensures PrivateOk(c, s', s.pcs[u])
    {
      assert PcOk(c, s, s.pcs[u]);
      hide Main, Beyond, Kept, Private;
    }
    forall u, x | 0 <= u < |s.pcs| && u != t && x in Carried(s.pcs[u])
      ensures ClassKept(s, s', x)
    {
      hide Carried;
      assert Has(s, HeldBy(u), x);
      OneSpanClass(s, s', at, id, x);
    }
    forall u | 0 <= u < |s.pcs| && u != t && Private(s.pcs[u]).Some?
      ensures Private(s.pcs[u]).value.0 != id
    {
      hide Private;
      assert PcOk(c, s, s.pcs[u]);
    }
    PcsKeep(c, s, s', t);
  }

  lemma GoneSlots(s: Sys, s': Sys, t: nat, at: nat, id: SpanId, o: Obj, w: map<Obj, Place>)
    requires SlotsInClass(s) && OneSpan(s, s', at, id) && Located(s, w)
    requires o in w && w[o] == HeldBy(t)
    requires OnlyInUse(s, w, id, o)
    ensures SlotsInClass(s')
  {
    forall k, i, x | 0 <= k < |s.lists| && 0 <= i < |s.lists[k].slots| && x in s.lists[k].slots[i]
      ensures x in s.pagemap && s.pagemap[x] != id
    {
      assert Has(s, Cached(k, i), x);
    }
    OneSpanSlots(s, s', at, id);
  }

  /** What the list looks like after ReleaseToSpans let the span go. */
  lemma ReleaseGoneFacts(c: Config, s: Sys, s1: Sys, at: nat, o: Obj, id: SpanId)
    requires Shape(c, s) && ListsOk(c, s) && 1 <= at < |c.size|
    requires id in s.spans && s.spans[id].cls == at && SpanOk(c, s.pagemap, id, s.spans[id])
    requires s.spans[id].refcount == 1
    requires var r := Release(c, s.lists[at], s.spans, id, o);
             s1 == s.(lists := s.lists[at := r.list], spans := r.spans)
    ensures OneSpan(s, s1, at, id) && s1.spans == s.spans - {id}
    ensures ListOk(c, at, s1.lists[at], s1.spans)
  {
    assert ListOk(c, at, s.lists[at], s.spans);
    ReleaseGoneListOk(c, at, s.lists[at], s.spans, id, o);
    hide ListOk, ListsOk, SpanOk, Release;
  }

  lemma GoneThread(c: Config, s: Sys, s1: Sys, s': Sys, t: nat, at: nat, rest: seq<Obj>, next: After, id: SpanId)
    requires Shape(c, s) && LocksOk(s) && t < |s.pcs| && 1 <= at < |c.size|
    requires s.pcs[t] == ReleaseHeld(at, rest, next) && rest != [] && PcOk(c, s, s.pcs[t])
    requires OneSpan(s, s1, at, id) && id in s.spans && id !in s1.spans
    requires SpanOk(c, s.pagemap, id, s.spans[id])
    requires forall x :: x in rest[1..] + Kept(next) ==> x in s.pagemap && s.pagemap[x] != id
    requires s1 == s.(lists := s1.lists, spans := s1.spans)
    requires s' == Unlock(s1, t, at, DeleteWait(at, rest[1..], next, id, s.spans[id]))
    ensures Shape(c, s') && s'.pcs == s.pcs[t := s'.pcs[t]] && s'.out == s.out
    ensures OneSpan(s, s', at, id) && s'.spans == s1.spans && s'.lists == s1.lists
    ensures PcOk(c, s', s'.pcs[t]) && LocksOk(s')
    ensures InFlight(s'.pcs[t]) == InFlight(s.pcs[t])
    ensures Private(s'.pcs[t]) == Some((id, s.spans[id]))
    ensures Carried(s.pcs[t]) == [rest[0]] + Carried(s'.pcs[t])
  {
    ReleaseHeldFacts(at, rest, next);
    DeleteWaitFacts(at, rest[1..], next, id, s.spans[id]);
    assert rest == [rest[0]] + rest[1..];
    assert Carried(s.pcs[t]) == [rest[0]] + Carried(s'.pcs[t]);
    hide PcOk, HeldLock, InFlight, Private, LocksOk, Carried, SpanOk, Main, Beyond;
    GonePcOk(c, s, s1, at, rest, next, id);
    PcOkSame(c, s1, s', s'.pcs[t]);
    LocksKeep(s, s', t);
  }

  lemma GoneCore(c: Config, s: Sys, s': Sys, t: nat, at: nat, id: SpanId, o: Obj, w: map<Obj, Place>)
    requires Core(c, s) && Located(s, w) && Shape(c, s') && LocksOk(s') && ChainsNoDup(s')
    requires OneSpan(s, s', at, id) && id in s.spans && id !in s'.spans
    requires ListOk(c, at, s'.lists[at], s'.spans)
    requires t < |s.pcs| && s'.pcs == s.pcs[t := s'.pcs[t]] && o in w && w[o] == HeldBy(t)
    requires OnlyInUse(s, w, id, o)
    requires PcOk(c, s', s'.pcs[t]) && InFlight(s'.pcs[t]) <= InFlight(s.pcs[t])
    requires Private(s'.pcs[t]).Some? && Private(s'.pcs[t]).value.0 == id
    ensures Core(c, s')
  {
    hide PcOk, InFlight, Private, LocksOk, ChainsNoDup, SpansOk, ListsOk, Located,
         SlotsInClass, BudgetOk, ListOk, SpanOk, PagemapOk, PcsOk, OnlyInUse;
    OneSpanLists(c, s, s', at, id);
    OneSpanSpans(c, s, s', at, id);
    GoneSlots(s, s', t, at, id, o, w);
    OneSpanBudget(c, s, s', t, at, id);
    GonePcs(c, s, s', t, at, id, o, w);
    PagemapSame(s, s');
  }

  lemma LastReleased(c: Config, s: Sys, t: nat, at: nat, rest: seq<Obj>, next: After, w: map<Obj, Place>)
    requires c.Good() && SpansOk(c, s) && Located(s, w) && ChainsNoDup(s)
    requires t < |s.pcs| && s.pcs[t] == ReleaseHeld(at, rest, next) && PcOk(c, s, s.pcs[t]) && rest != []
    requires rest[0] in s.pagemap && s.pagemap[rest[0]] in s.spans
    requires s.spans[s.pagemap[rest[0]]].refcount == 1
    ensures var o, id := rest[0], s.pagemap[rest[0]];
            && OnlyInUse(s, w, id, o) && o in w && w[o] == HeldBy(t)
            && forall x :: x in rest[1..] + Kept(next) ==> x in s.pagemap && s.pagemap[x] != id
  {
    var o, id := rest[0], s.pagemap[rest[0]];
    hide Carried, PcOk, Located, ChainsNoDup, SpansOk;
    ReleasedObject(c, s, t, at, rest, next, w);
    LastInUse(c, s, t, o, rest[1..] + Kept(next), id, w);
    HeadCarried(s, t, o, rest[1..] + Kept(next), w);
  }

  /** ReleaseToSpans, when the object was the last of its span in use. */
  lemma ReleaseGoneKeeps(c: Config, s: Sys, s': Sys, t: nat, at: nat, rest: seq<Obj>, next: After, w: map<Obj, Place>)
    requires Core(c, s) && Located(s, w) && t < |s.pcs| && at < |c.size|
    requires s.pcs[t] == ReleaseHeld(at, rest, next) && rest != []
    requires rest[0] in s.pagemap && s.pagemap[rest[0]] in s.spans && 1 <= s.spans[s.pagemap[rest[0]]].cls < |c.size|
    requires s.spans[s.pagemap[rest[0]]].refcount == 1
    requires var id := s.pagemap[rest[0]];
             var r := Release(c, s.lists[at], s.spans, id, rest[0]);
             s' == Unlock(s.(lists := s.lists[at := r.list], spans := r.spans), t, at,
                          DeleteWait(at, rest[1..], next, id, s.spans[id]))
    ensures Inv(c, s')
  {
    var o := rest[0];
    var id := s.pagemap[o];
    var r := Release(c, s.lists[at], s.spans, id, o);
    var s1 := s.(lists := s.lists[at := r.list], spans := r.spans);
    hide HeldLock, InFlight, Private, LocksOk, Carried, Located, ChainsNoDup, SpansOk, ListsOk, PcOk,
         SlotsInClass, AllInClass, BudgetOk, ListOk, SpanOk, PagemapOk, Has, Main, Beyond, Release, OnlyInUse, Unlock, SetPc;
    assert PcOk(c, s, s.pcs[t]);
    ReleasedObject(c, s, t, at, rest, next, w);
    LastReleased(c, s, t, at, rest, next, w);
    hide PcsOk, InClass;
    ReleaseGoneFacts(c, s, s1, at, o, id);
    GoneThread(c, s, s1, s', t, at, rest, next, id);
    GoneGlue(c, s, s', t, at, id, o, w);
  }

  lemma GoneGlue(c: Config, s: Sys, s': Sys, t: nat, at: nat, id: SpanId, o: Obj, w: map<Obj, Place>)
    requires Core(c, s) && Located(s, w) && Shape(c, s') && LocksOk(s')
    requires OneSpan(s, s', at, id) && id in s.spans && s'.spans == s.spans - {id}
    requires ListOk(c, at, s'.lists[at], s'.spans)
    requires t < |s.pcs| && s'.pcs == s.pcs[t := s'.pcs[t]] && o in w && w[o] == HeldBy(t) && s'.out == s.out
    requires OnlyInUse(s, w, id, o)
    requires PcOk(c, s', s'.pcs[t]) && InFlight(s'.pcs[t]) == InFlight(s.pcs[t])
    requires Private(s'.pcs[t]).Some? && Private(s'.pcs[t]).value.0 == id
    requires Carried(s.pcs[t]) == [o] + Carried(s'.pcs[t])
    ensures Inv(c, s')
  {
    hide PcOk, InFlight, Private, LocksOk, Carried, Located, ChainsNoDup, SpansOk, ListsOk,
         SlotsInClass, BudgetOk, ListOk, PagemapOk, PcsOk, OnlyInUse;
    var w' := GonePlaces(s, s', t, id, o, w);
    GoneCore(c, s, s', t, at, id, o, w);
  }

  // ---------------------------------------------------------------- the caller's side

  ghost predicate SameLists(s: Sys, s': Sys) {
    s'.lists == s.lists && s'.spans == s.spans && s'.pagemap == s.pagemap
  }

  lemma HandOverPlaces(s: Sys, s': Sys, t: nat, chain: seq<Obj>, taking: bool, w: map<Obj, Place>)
    returns (w': map<Obj, Place>)
    requires Located(s, w) && ChainsNoDup(s) && SameLists(s, s')
    requires t < |s.pcs| == |s'.pcs| && s'.pcs == s.pcs[t := s'.pcs[t]]
    requires NoDup(chain)
    requires if taking
             then Carried(s.pcs[t]) == [] && Carried(s'.pcs[t]) == chain
                  && s'.out == s.out - Elems(chain) && Elems(chain) <= s.out
             else Carried(s.pcs[t]) == chain && Carried(s'.pcs[t]) == [] && s'.out == s.out + Elems(chain)
    ensures Located(s', w') && ChainsNoDup(s')
  {
    var from, to := if taking then Out else HeldBy(t), if taking then HeldBy(t) else Out;
    assert At(s, HeldBy(t)) == Carried(s.pcs[t]) && At(s', HeldBy(t)) == Carried(s'.pcs[t]);
    assert At(s, Out) == [] && At(s', Out) == [];
    forall p | p != from && p != to
      ensures At(s', p) == At(s, p)
    {
      hide Carried;
    }
    assert forall x :: Owned(s', x) <==> Owned(s, x);
    hide At, Carried, Owned;
    assert taking ==> forall o :: o in chain ==> o in Elems(chain);
    w' := Move(s, s', w, from, to, chain);
  }

  /** Everything but the places, when lists and spans are the same. */
  lemma SameListsCore(c: Config, s: Sys, s': Sys, t: nat)
    requires Core(c, s) && Shape(c, s') && LocksOk(s') && ChainsNoDup(s') && SameLists(s, s')
    requires t < |s.pcs| && s'.pcs == s.pcs[t := s'.pcs[t]]
    requires PcOk(c, s', s'.pcs[t]) && InFlight(s'.pcs[t]) <= InFlight(s.pcs[t])
    requires Private(s'.pcs[t]).None? || Private(s'.pcs[t]) == Private(s.pcs[t])
    ensures Core(c, s')
  {
    InFlightUpdate(s.pcs, t, s'.pcs[t]);
    hide PcOk, InFlight, Private, LocksOk, ChainsNoDup, SpansOk, ListsOk,
         SlotsInClass, PagemapOk, PcsOk;
    PcsKeepSameSpans(c, s, s', t);
    SpansOkSame(c, s, s');
    ListsOkSame(c, s, s');
    SlotsInClassSame(s, s');
    PagemapSame(s, s');
  }

  lemma InsertWaitFacts(cl: nat, chain: seq<Obj>)
    ensures var pc := InsertWait(cl, chain);
            && Carried(pc) == chain && Main(pc) == chain && MainClass(pc) == cl && Beyond(pc) == Return
            && Private(pc) == None && InFlight(pc) == 0 && HeldLock(pc) == NoLock
  {
    assert Carried(InsertWait(cl, chain)) == chain + [];
  }

  /** A call of InsertRange: the chain leaves the caller's hands. */
  lemma CallInsertKeeps(c: Config, s: Sys, s': Sys, t: nat, cl: nat, chain: seq<Obj>, w: map<Obj, Place>)
    requires Core(c, s) && Located(s, w) && t < |s.pcs| && s.pcs[t] == Idle
    requires MayCall(c, s, CallInsert(cl, chain))
    requires s' == SetPc(s, t, InsertWait(cl, chain)).(out := s.out - Elems(chain))
    ensures Inv(c, s')
  {
    InsertWaitFacts(cl, chain);
    IdleFacts(c, s);
    assert PcOk(c, s', InsertWait(cl, chain));
    hide PcOk, Carried, InFlight, HeldLock, Private, LocksOk, ChainsNoDup, SpansOk, ListsOk, BudgetOk,
         SlotsInClass, PagemapOk, PcsOk, Located, Main, Beyond;
    LocksKeep(s, s', t);
    var w' := HandOverPlaces(s, s', t, chain, true, w);
    SameListsCore(c, s, s', t);
  }

  /** RemoveRange returns: the chain it collected is handed out. */
  lemma DeliverKeeps(c: Config, s: Sys, s': Sys, t: nat, cl: nat, n: nat, got: seq<Obj>, heap: HeapAnswer, w: map<Obj, Place>)
    requires Core(c, s) && Located(s, w) && t < |s.pcs| && s.pcs[t] == FetchHeld(cl, n, got, heap)
    requires cl < |s.locks| && s' == Deliver(s, t, cl, got)
    ensures Inv(c, s')
  {
    FetchHeldFacts(cl, n, got, heap);
    IdleFacts(c, s');
    hide PcOk, Carried, InFlight, HeldLock, Private, LocksOk, SpansOk, ListsOk, BudgetOk,
         SlotsInClass, PagemapOk, PcsOk, Located, Main, Beyond;
    assert NoDup(got) by {
      assert At(s, HeldBy(t)) == got;
    }
    hide ChainsNoDup, At;
    LocksKeep(s, s', t);
    var w' := HandOverPlaces(s, s', t, got, false, w);
    SameListsCore(c, s, s', t);
  }
}
