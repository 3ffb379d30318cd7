/** The transitions that use the transfer cache keep the invariant. */
module CentralCache {
  import opened Options
  import opened Seqs
  import opened CentralModel
  import opened CentralInvariant
  import opened CentralSteps

  // ---------------------------------------------------------------- one list changes, spans do not

  /** Slots of one class may change when every chain left there is of the class. */
  lemma ChangedSlots(s: Sys, s': Sys, cl: nat)
    requires SlotsInClass(s) && s'.spans == s.spans && s'.pagemap == s.pagemap
    requires cl < |s.lists| == |s'.lists| && s'.lists == s.lists[cl := s'.lists[cl]]
    requires forall i :: 0 <= i < |s'.lists[cl].slots| ==> AllInClass(s, s'.lists[cl].slots[i], cl)
    ensures SlotsInClass(s')
  {
    forall o ensures ClassKept(s, s', o) {}
    forall k, i | 0 <= k < |s'.lists| && 0 <= i < |s'.lists[k].slots|
      ensures AllInClass(s', s'.lists[k].slots[i], k)
    {
      ChainFrame(s, s', s'.lists[k].slots[i], k);
    }
  }

  lemma ChangedList(c: Config, s: Sys, s': Sys, cl: nat)
    requires Shape(c, s) && ListsOk(c, s) && |s'.locks| == |s.locks| && |s'.pcs| == |s.pcs|
    requires cl < |s.lists| == |s'.lists| && s'.lists == s.lists[cl := s'.lists[cl]] && s'.spans == s.spans
    requires s'.lists[cl] == s.lists[cl].(slots := s'.lists[cl].slots, cacheSize := s'.lists[cl].cacheSize)
    requires |s'.lists[cl].slots| <= s'.lists[cl].cacheSize <= MaxCacheSize(c, cl)
    requires forall i :: 0 <= i < |s'.lists[cl].slots| ==> |s'.lists[cl].slots[i]| == c.batch[cl]
    ensures ListsOk(c, s')
  {
    assert ListOk(c, cl, s.lists[cl], s.spans);
    forall k | 0 <= k < |s'.lists|
      ensures ListOk(c, k, s'.lists[k], s'.spans)
    {
      if k != cl {
        assert ListOk(c, k, s.lists[k], s.spans);
        hide ListOk;
      }
    }
  }

  lemma ChangedBudget(c: Config, s: Sys, s': Sys, t: nat, cl: nat)
    requires Shape(c, s) && Shape(c, s') && BudgetOk(c, s) && t < |s.pcs| && cl < |s.lists|
    requires s'.pcs == s.pcs[t := s'.pcs[t]] && s'.lists == s.lists[cl := s'.lists[cl]]
    requires s'.lists[cl].cacheSize + InFlight(s'.pcs[t]) <= s.lists[cl].cacheSize + InFlight(s.pcs[t])
    ensures BudgetOk(c, s')
  {
    SlotsOfUpdate(s.lists, cl, s'.lists[cl]);
    InFlightUpdate(s.pcs, t, s'.pcs[t]);
  }

  /** Everything but the places, when the slots of one list change. */
  lemma ChangedCore(c: Config, s: Sys, s': Sys, t: nat, cl: nat)
    requires Core(c, s) && Shape(c, s') && LocksOk(s') && ChainsNoDup(s')
    requires cl < |s.lists| == |s'.lists| && s'.lists == s.lists[cl := s'.lists[cl]]
    requires s'.spans == s.spans && s'.pagemap == s.pagemap
    requires s'.lists[cl] == s.lists[cl].(slots := s'.lists[cl].slots, cacheSize := s'.lists[cl].cacheSize)
    requires |s'.lists[cl].slots| <= s'.lists[cl].cacheSize <= MaxCacheSize(c, cl)
    requires forall i :: 0 <= i < |s'.lists[cl].slots| ==>
               |s'.lists[cl].slots[i]| == c.batch[cl] && AllInClass(s, s'.lists[cl].slots[i], cl)
    requires t < |s.pcs| && s'.pcs == s.pcs[t := s'.pcs[t]]
    requires PcOk(c, s', s'.pcs[t]) && Private(s'.pcs[t]).None?
    requires s'.lists[cl].cacheSize + InFlight(s'.pcs[t]) <= s.lists[cl].cacheSize + InFlight(s.pcs[t])
    ensures Core(c, s')
  {
    hide PcOk, InFlight, Private, LocksOk, ChainsNoDup, SpansOk, ListsOk, AllInClass,
         SlotsInClass, BudgetOk, PagemapOk, PcsOk;
    ChangedBudget(c, s, s', t, cl);
    ChangedSlots(s, s', cl);
    ChangedList(c, s, s', cl);
    PcsKeepSameSpans(c, s, s', t);
    SpansOkSame(c, s, s');
    assert PagemapOk(s') by { PagemapSame(s, s'); }
  }

  lemma PoppedList(c: Config, s: Sys, cl: nat)
    requires Shape(c, s) && ListsOk(c, s) && SlotsInClass(s) && cl < |s.lists|
    ensures var slots := s.lists[cl].slots;
            && |slots| <= s.lists[cl].cacheSize <= MaxCacheSize(c, cl)
            && (forall i :: 0 <= i < |slots| ==> |slots[i]| == c.batch[cl])
            && (forall i :: 0 <= i < |slots| ==> AllInClass(s, slots[i], cl))
  {
    assert ListOk(c, cl, s.lists[cl], s.spans);
  }

  // ---------------------------------------------------------------- storing a chain

  lemma StorePlaces(s: Sys, s': Sys, t: nat, cl: nat, chain: seq<Obj>, w: map<Obj, Place>)
    returns (w': map<Obj, Place>)
    requires Located(s, w) && ChainsNoDup(s)
    requires t < |s.pcs| == |s'.pcs| && cl < |s.lists| == |s'.lists|
    requires s'.pcs == s.pcs[t := Idle] && Carried(s.pcs[t]) == chain
    requires s'.lists == s.lists[cl := s'.lists[cl]] && s'.lists[cl].slots == s.lists[cl].slots + [chain]
    requires s'.spans == s.spans && s'.pagemap == s.pagemap && s'.out == s.out
    ensures Located(s', w') && ChainsNoDup(s')
  {
    var n := |s.lists[cl].slots|;
    var from, to := HeldBy(t), Cached(cl, n);
    assert At(s, from) == chain && At(s', from) == [];
    assert At(s, to) == [] && At(s', to) == chain;
    forall p | p != from && p != to
      ensures At(s', p) == At(s, p)
    {
      hide Carried;
    }
    assert NoDup(chain);
    assert forall o :: Owned(s', o) <==> Owned(s, o);
    hide At, Carried, Owned;
    w' := Move(s, s', w, from, to, chain);
  }

  /** A chain goes into the next slot; the cache may have grown by the slot in flight. */
  lemma StoreKeeps(c: Config, s: Sys, s': Sys, t: nat, cl: nat, grown: int, w: map<Obj, Place>)
    requires Core(c, s) && Located(s, w) && t < |s.pcs| && 1 <= cl < |c.size|
    requires HeldLock(s.pcs[t]) == ClassLock(cl) && Private(s.pcs[t]).None?
    requires Beyond(s.pcs[t]).Return? && MainClass(s.pcs[t]) == cl
    requires |Main(s.pcs[t])| == c.batch[cl]
    requires |s.lists[cl].slots| < grown <= MaxCacheSize(c, cl)
    requires grown <= s.lists[cl].cacheSize + InFlight(s.pcs[t])
    requires s' == Unlock(s, t, cl, Idle).(lists :=
                     s.lists[cl := s.lists[cl].(slots := s.lists[cl].slots + [Main(s.pcs[t])], cacheSize := grown)])
    ensures Inv(c, s')
  {
    var pc, chain := s.pcs[t], Main(s.pcs[t]);
    assert PcOk(c, s, pc);
    assert AllInClass(s, chain, cl) && Carried(pc) == chain;
    IdleFacts(c, s');
    hide PcOk, HeldLock, LocksOk, PcsOk, Carried, InFlight, Private, SpansOk, ListsOk, SlotsInClass, Located,
         ChainsNoDup, AllInClass, BudgetOk, PagemapOk, Main, Beyond, MainClass, MaxCacheSize, At, Has;
    LocksKeep(s, s', t);
    PoppedList(c, s, cl);
    var w' := StorePlaces(s, s', t, cl, chain, w);
    ChangedCore(c, s, s', t, cl);
  }

  // ---------------------------------------------------------------- shrinking and taking out

  /** The last used slot is emptied, into the hands of thread `t` or out to the thread caches. */
  lemma PopPlaces(s: Sys, s': Sys, t: nat, cl: nat, out: bool, w: map<Obj, Place>)
    returns (w': map<Obj, Place>)
    requires Located(s, w) && ChainsNoDup(s)
    requires t < |s.pcs| == |s'.pcs| && cl < |s.lists| == |s'.lists| && s.lists[cl].slots != []
    requires s'.pcs == s.pcs[t := s'.pcs[t]]
    requires s'.lists == s.lists[cl := s'.lists[cl]]
    requires var last := |s.lists[cl].slots| - 1;
             && s'.lists[cl].slots == s.lists[cl].slots[..last]
             && Carried(s'.pcs[t]) == (if out then [] else s.lists[cl].slots[last]) + Carried(s.pcs[t])
             && s'.out == s.out + if out then Elems(s.lists[cl].slots[last]) else {}
    requires s'.spans == s.spans && s'.pagemap == s.pagemap
    ensures Located(s', w') && ChainsNoDup(s')
  {
    var last := |s.lists[cl].slots| - 1;
    var chain := s.lists[cl].slots[last];
    var from, to := Cached(cl, last), if out then Out else HeldBy(t);
    assert At(s, from) == chain && At(s', from) == [];
    assert !out ==> At(s', to) == chain + At(s, to);
    forall p | p != from && p != to
      ensures At(s', p) == At(s, p)
    {
      hide Carried;
    }
    assert forall o :: Owned(s', o) <==> Owned(s, o);
    assert NoDup(chain) && NoDup(At(s, to)) && (out ==> At(s', to) == []);
    hide At, Carried, Owned;
    if !out {
      forall o | o in chain
        ensures o !in At(s, to)
      {
        assert Has(s, from, o);
        assert !Has(s, to, o);
      }
      NoDupConcat(chain, At(s, to));
    }
    w' := Move(s, s', w, from, to, chain);
  }

  lemma TakeSlotPlaces(s: Sys, s': Sys, t: nat, v: nat, w: map<Obj, Place>)
    requires Located(s, w) && ChainsNoDup(s)
    requires t < |s.pcs| == |s'.pcs| && v < |s.lists| == |s'.lists|
    requires s'.pcs == s.pcs[t := s'.pcs[t]] && Carried(s'.pcs[t]) == Carried(s.pcs[t])
    requires s'.lists == s.lists[v := s'.lists[v]] && s'.lists[v].slots == s.lists[v].slots
    requires s'.spans == s.spans && s'.pagemap == s.pagemap && s'.out == s.out
    ensures Located(s', w) && ChainsNoDup(s')
  {
    forall p
      ensures At(s', p) == At(s, p)
    {
      hide Carried;
    }
    hide At;
    forall p, o
      ensures Has(s', p, o) <==> Has(s, p, o)
    {}
    hide Has;
  }

  lemma ReturnWaitOk(c: Config, s: Sys, cl: nat, chain: seq<Obj>, force: bool, v: nat)
    requires c.Good() && PcOk(c, s, ShrinkHeld(cl, chain, force, v))
    ensures var was, pc := ShrinkHeld(cl, chain, force, v), ReturnWait(cl, chain, force, true);
            && PcOk(c, s, pc) && Private(pc) == None && InFlight(pc) == 1 && InFlight(was) == 0
            && HeldLock(pc) == NoLock && HeldLock(was) == ClassLock(v) && Carried(pc) == Carried(was)
  {}

  /** ShrinkCache takes an unused slot away. */
  lemma TakeSlotKeeps(c: Config, s: Sys, s': Sys, t: nat, cl: nat, chain: seq<Obj>, force: bool, v: nat,
                      w: map<Obj, Place>)
    requires Core(c, s) && Located(s, w) && t < |s.pcs| && s.pcs[t] == ShrinkHeld(cl, chain, force, v) && v < |c.size|
    requires |s.lists[v].slots| < s.lists[v].cacheSize
    requires s' == Unlock(s, t, v, ReturnWait(cl, chain, force, true))
                   .(lists := s.lists[v := s.lists[v].(cacheSize := s.lists[v].cacheSize - 1)])
    ensures Inv(c, s')
  {
    hide PcOk, HeldLock, LocksOk, Carried, InFlight, Private, SpansOk, ListsOk, SlotsInClass, Located,
         ChainsNoDup, AllInClass, BudgetOk, PagemapOk, Main, Beyond, MainClass, MaxCacheSize, At, Has;
    assert PcOk(c, s, s.pcs[t]);
    hide PcsOk;
    ReturnWaitOk(c, s, cl, chain, force, v);
    PcOkSame(c, s, s', s'.pcs[t]);
    LocksKeep(s, s', t);
    PoppedList(c, s, v);
    TakeSlotPlaces(s, s', t, v, w);
    ChangedCore(c, s, s', t, v);
  }

  lemma ForcedOk(c: Config, s: Sys, cl: nat, chain: seq<Obj>, v: nat, popped: seq<Obj>)
    requires c.Good() && PcOk(c, s, ShrinkHeld(cl, chain, true, v)) && AllInClass(s, popped, v)
    ensures var was, pc := ShrinkHeld(cl, chain, true, v), ReleaseHeld(v, popped, BackTo(cl, chain));
            && PcOk(c, s, pc) && Private(pc) == None && InFlight(pc) == 1 && InFlight(was) == 0
            && HeldLock(pc) == ClassLock(v) && HeldLock(was) == ClassLock(v)
            && Carried(pc) == popped + Carried(was)
  {
    assert Carried(ShrinkHeld(cl, chain, true, v)) == chain + [] == chain;
  }

  /** A forced ShrinkCache takes a used slot away and is left with its chain to release. */
  lemma ForcedShrinkKeeps(c: Config, s: Sys, s': Sys, t: nat, cl: nat, chain: seq<Obj>, v: nat, w: map<Obj, Place>)
    requires Core(c, s) && Located(s, w) && t < |s.pcs| && s.pcs[t] == ShrinkHeld(cl, chain, true, v) && v < |c.size|
    requires 0 < |s.lists[v].slots| == s.lists[v].cacheSize
    requires var l, last := s.lists[v], |s.lists[v].slots| - 1;
             s' == SetPc(s, t, ReleaseHeld(v, l.slots[last], BackTo(cl, chain)))
                   .(lists := s.lists[v := l.(slots := l.slots[..last], cacheSize := l.cacheSize - 1)])
    ensures Inv(c, s')
  {
    hide PcOk, HeldLock, LocksOk, Carried, InFlight, Private, SpansOk, ListsOk, SlotsInClass, Located,
         ChainsNoDup, AllInClass, BudgetOk, PagemapOk, Main, Beyond, MainClass, MaxCacheSize, At, Has;
    assert PcOk(c, s, s.pcs[t]);
    hide PcsOk;
    PoppedList(c, s, v);
    ForcedOk(c, s, cl, chain, v, s.lists[v].slots[|s.lists[v].slots| - 1]);
    PcOkSame(c, s, s', s'.pcs[t]);
    LocksKeep(s, s', t);
    var w' := PopPlaces(s, s', t, v, false, w);
    ChangedCore(c, s, s', t, v);
  }

  lemma RemoveHeldFacts(cl: nat, n: nat)
    ensures Carried(RemoveHeld(cl, n)) == [] && InFlight(RemoveHeld(cl, n)) == 0
    ensures Private(RemoveHeld(cl, n)) == None && HeldLock(RemoveHeld(cl, n)) == ClassLock(cl)
  {}

  lemma RemoveCachedCore(c: Config, s: Sys, s': Sys, t: nat, cl: nat, n: nat)
    requires Core(c, s) && t < |s.pcs| && s.pcs[t] == RemoveHeld(cl, n) && cl < |c.size| && ChainsNoDup(s')
    requires var l := s.lists[cl];
             && l.slots != []
             && s' == Unlock(s, t, cl, Idle)
                      .(lists := s.lists[cl := l.(slots := l.slots[..|l.slots| - 1])], out := s'.out)
    ensures Core(c, s')
  {
    IdleFacts(c, s');
    RemoveHeldFacts(cl, n);
    hide PcOk, HeldLock, InFlight, Private, LocksOk, PcsOk, ChainsNoDup, SpansOk, ListsOk,
         SlotsInClass, AllInClass, BudgetOk, PagemapOk;
    LocksKeep(s, s', t);
    PoppedList(c, s, cl);
    ChangedCore(c, s, s', t, cl);
  }

  /** RemoveRange takes a whole transfer-cache entry. */
  lemma RemoveCachedKeeps(c: Config, s: Sys, s': Sys, t: nat, cl: nat, n: nat, w: map<Obj, Place>)
    requires Core(c, s) && Located(s, w) && t < |s.pcs| && s.pcs[t] == RemoveHeld(cl, n) && cl < |c.size|
    requires var l := s.lists[cl];
             && l.slots != []
             && s' == Unlock(s, t, cl, Idle)
                      .(lists := s.lists[cl := l.(slots := l.slots[..|l.slots| - 1])],
                        out := s.out + Elems(l.slots[|l.slots| - 1]))
    ensures Inv(c, s')
  {
    assert Carried(Idle) == [];
    RemoveHeldFacts(cl, n);
    hide Carried, Located, ChainsNoDup, PcsOk, LocksOk, SpansOk, ListsOk, SlotsInClass, BudgetOk, PagemapOk;
    var w' := PopPlaces(s, s', t, cl, true, w);
    RemoveCachedCore(c, s, s', t, cl, n);
  }
}
