/** The central free lists over whole runs: every interleaving of every set of threads. */
module CentralSystem {
  import opened Options
  import opened CentralModel
  import opened CentralInvariant
  import opened CentralSteps
  import opened CentralCache
  import opened CentralSpans
  import R = CentralRelease
  import H = CentralHeap

  // ---------------------------------------------------------------- every transition keeps the invariant

  /** Transitions that only change locks and the point of the program. */
  lemma WaitKeeps(c: Config, s: Sys, s': Sys, t: nat)
    requires Inv(c, s) && t < |s.pcs| && Shape(c, s')
    requires s' == s.(pcs := s'.pcs, locks := s'.locks, heapLock := s'.heapLock)
    requires s'.pcs == s.pcs[t := s'.pcs[t]]
    requires LocksOk(s')
    requires Main(s'.pcs[t]) == Main(s.pcs[t])
    requires MainClass(s'.pcs[t]) == MainClass(s.pcs[t]) || Main(s.pcs[t]) == []
    requires Beyond(s'.pcs[t]) == Beyond(s.pcs[t])
    requires InFlight(s'.pcs[t]) <= InFlight(s.pcs[t]) && Private(s'.pcs[t]) == Private(s.pcs[t])
    requires ClassesInRange(c, s'.pcs[t]) && LengthsOk(c, s'.pcs[t])
    requires s'.pcs[t].LinkHeld? ==> s.pcs[t].LinkWait? && s.pcs[t].cl == s'.pcs[t].cl
    requires s'.pcs[t].LinkWait? ==> s'.pcs[t].carved == None
    ensures Inv(c, s')
  {
    assert PcOk(c, s, s.pcs[t]);
    assert PcOk(c, s', s'.pcs[t]) by {
      hide LocksOk;
      assert AllInClass(s', Main(s'.pcs[t]), MainClass(s'.pcs[t]));
      assert AllInClass(s', Kept(Beyond(s'.pcs[t])), KeptClass(Beyond(s'.pcs[t])));
      assert PrivateOk(c, s', s'.pcs[t]);
    }
    hide PcOk, LocksOk;
    RelabelKeeps(c, s, s', t);
  }

  lemma LocksOkAfter(c: Config, s: Sys, s': Sys, t: nat)
    requires Shape(c, s) && LocksOk(s) && t < |s.pcs|
    requires
      || (exists cl, pc :: Lock(s, t, cl, pc) == Some(s') && HeldLock(s.pcs[t]) == NoLock && HeldLock(pc) == ClassLock(cl))
      || (exists cl: nat, pc :: cl < |s.locks| && s' == Unlock(s, t, cl, pc)
            && HeldLock(s.pcs[t]) == ClassLock(cl) && HeldLock(pc) == NoLock)
      || (exists pc :: LockHeap(s, t, pc) == Some(s') && HeldLock(s.pcs[t]) == NoLock && HeldLock(pc) == HeapLock)
      || (exists pc :: s' == SetPc(s, t, pc) && HeldLock(pc) == HeldLock(s.pcs[t]))
    ensures LocksOk(s') && Shape(c, s')
  {
    hide HeldLock;
    LocksKeep(s, s', t);
  }

  lemma LockStepKeeps(c: Config, s: Sys, s': Sys, t: nat, cl: nat, pc: Pc)
    requires Inv(c, s) && t < |s.pcs| && Lock(s, t, cl, pc) == Some(s')
    requires match s.pcs[t]
             case InsertWait(k, chain) => pc == InsertHeld(k, chain) && cl == k
             case ShrinkWait(k, chain, force, v) => pc == ShrinkHeld(k, chain, force, v) && cl == v
             case ReturnWait(k, chain, force, won) => pc == ReturnHeld(k, chain, force, won) && cl == k
             case ReleaseWait(at, rest, next) => pc == ReleaseHeld(at, rest, next) && cl == at
             case RemoveWait(k, n) => pc == RemoveHeld(k, n) && cl == k
             case LinkWait(k, n, id, carved) => pc == LinkHeld(k, n, id, carved) && cl == k
             case _ => false
    ensures Inv(c, s')
  {
    assert PcOk(c, s, s.pcs[t]);
    assert HeldLock(s.pcs[t]) == NoLock && HeldLock(pc) == ClassLock(cl);
    LocksOkAfter(c, s, s', t);
    hide LocksOk;
    WaitKeeps(c, s, s', t);
  }

  lemma HeapStepKeeps(c: Config, s: Sys, s': Sys, t: nat, pc: Pc)
    requires Inv(c, s) && t < |s.pcs| && LockHeap(s, t, pc) == Some(s')
    requires match s.pcs[t]
             case DeleteWait(at, rest, next, id, sp) => pc == DeleteHeld(at, rest, next, id, sp)
             case PopulateWait(k, n) => pc == PopulateHeld(k, n)
             case _ => false
    ensures Inv(c, s')
  {
    assert PcOk(c, s, s.pcs[t]);
    assert HeldLock(s.pcs[t]) == NoLock && HeldLock(pc) == HeapLock;
    LocksOkAfter(c, s, s', t);
    hide LocksOk;
    WaitKeeps(c, s, s', t);
  }

  lemma RelabelStepKeeps(c: Config, s: Sys, s': Sys, t: nat, pc: Pc)
    requires Inv(c, s) && t < |s.pcs| && s' == SetPc(s, t, pc)
    requires match s.pcs[t]
             case Idle => pc.RemoveWait? && 1 <= pc.cl < |c.size| && pc.n > 0
             case InsertHeld(k, chain) =>
               pc == ReleaseHeld(k, chain, Return) ||
               (k < |c.batch| && |chain| == c.batch[k] && pc == EvictHeld(k, chain, false))
             case EvictHeld(k, chain, force) =>
               pc == ReleaseHeld(k, chain, Return) || pc == EvictHeld(k, chain, true)
             case ReturnHeld(k, chain, force, won) =>
               pc == ReleaseHeld(k, chain, Return) || pc == EvictHeld(k, chain, true)
             case RemoveHeld(k, n) => pc == FetchHeld(k, n, [], NotAsked)
             case LinkHeld(k, n, id, carved) => carved == None && pc == FetchHeld(k, n, [], Refused)
             case _ => false
    ensures Inv(c, s')
  {
    assert PcOk(c, s, s.pcs[t]);
    assert HeldLock(s.pcs[t]) == HeldLock(pc);
    LocksOkAfter(c, s, s', t);
    hide LocksOk;
    WaitKeeps(c, s, s', t);
  }

  lemma UnlockStepKeeps(c: Config, s: Sys, s': Sys, t: nat, cl: nat, pc: Pc)
    requires Inv(c, s) && t < |s.pcs| && cl < |s.locks| && s' == Unlock(s, t, cl, pc)
    requires match s.pcs[t]
             case EvictHeld(k, chain, force) => pc.ShrinkWait? && pc == ShrinkWait(k, chain, force, pc.victim) && cl == k
                                                && pc.victim < |c.size|
             case ShrinkHeld(k, chain, force, v) => pc == ReturnWait(k, chain, force, false) && cl == v
             case ReleaseHeld(at, rest, next) =>
               cl == at && rest == [] &&
               pc == if next.Return? then Idle else ReturnWait(next.cl, next.chain, true, true)
             case FetchHeld(k, n, got, heap) => got == [] && pc == PopulateWait(k, n) && cl == k
             case _ => false
    ensures Inv(c, s')
  {
    assert PcOk(c, s, s.pcs[t]);
    assert HeldLock(s.pcs[t]) == ClassLock(cl) && HeldLock(pc) == NoLock;
    LocksOkAfter(c, s, s', t);
    if s.pcs[t].ReleaseHeld? {
      ReleaseEndKeeps(c, s, s', t, cl, s.pcs[t].next, pc);
    } else {
      hide LocksOk;
      WaitKeeps(c, s, s', t);
    }
  }

  /** The end of ReleaseListToSpans: back to the insertion that forced the eviction, if any. */
  lemma ReleaseEndKeeps(c: Config, s: Sys, s': Sys, t: nat, at: nat, next: After, pc: Pc)
    requires Inv(c, s) && t < |s.pcs| && s.pcs[t] == ReleaseHeld(at, [], next) && at < |s.locks|
    requires pc == if next.Return? then Idle else ReturnWait(next.cl, next.chain, true, true)
    requires s' == Unlock(s, t, at, pc) && LocksOk(s') && Shape(c, s')
    ensures Inv(c, s')
  {
    assert PcOk(c, s, s.pcs[t]);
    hide LocksOk, Inv;
    ReleaseEndPc(c, s, at, next, pc);
    hide PcOk, Private, InFlight, Carried, Main, Beyond;
    PcOkSame(c, s, s', pc);
    RelabelKeeps(c, s, s', t);
  }

  lemma ReleaseEndPc(c: Config, s: Sys, at: nat, next: After, pc: Pc)
    requires c.Good() && PcOk(c, s, ReleaseHeld(at, [], next))
    requires pc == if next.Return? then Idle else ReturnWait(next.cl, next.chain, true, true)
    ensures var was := ReleaseHeld(at, [], next);
            && PcOk(c, s, pc) && Carried(pc) == Carried(was) && InFlight(pc) == InFlight(was)
            && Private(pc) == None && Private(was) == None
  {
    assert Carried(ReleaseHeld(at, [], next)) == [] + Kept(next) == Kept(next);
    assert Carried(pc) == Kept(next);
    assert AllInClass(s, Kept(next), KeptClass(next));
  }

  lemma NoMemoryKeeps(c: Config, s: Sys, s': Sys, t: nat, cl: nat, n: nat)
    requires Inv(c, s) && t < |s.pcs| && s.pcs[t] == PopulateHeld(cl, n)
    requires s' == SetPc(s, t, LinkWait(cl, n, 0, None)).(heapLock := None)
    ensures Inv(c, s')
  {
    assert PcOk(c, s, s.pcs[t]);
    LocksKeep(s, s', t);
    hide LocksOk;
    WaitKeeps(c, s, s', t);
  }

  lemma InsertKeeps(c: Config, s: Sys, s': Sys, t: nat, cl: nat, chain: seq<Obj>, w: map<Obj, Place>)
    requires Core(c, s) && Located(s, w) && t < |s.pcs| && s.pcs[t] == InsertHeld(cl, chain) && 1 <= cl < |c.size|
    requires s' == Insert(c, s, t, cl, chain)
    ensures Inv(c, s')
  {
    assert Inv(c, s);
    hide Inv, Core, Located, MaxCacheSize;
    if |chain| != c.batch[cl] || (|s.lists[cl].slots| >= s.lists[cl].cacheSize) {
      RelabelStepKeeps(c, s, s', t, s'.pcs[t]);
    } else {
      InsertStores(c, s, s', t, cl, chain, w);
    }
  }

  lemma InsertStores(c: Config, s: Sys, s': Sys, t: nat, cl: nat, chain: seq<Obj>, w: map<Obj, Place>)
    requires Core(c, s) && Located(s, w) && t < |s.pcs| && s.pcs[t] == InsertHeld(cl, chain) && 1 <= cl < |c.size|
    requires |chain| == c.batch[cl] && |s.lists[cl].slots| < s.lists[cl].cacheSize
    requires s' == Store(s, t, cl, chain)
    ensures Inv(c, s')
  {
    assert ListOk(c, cl, s.lists[cl], s.spans);
    StoreKeeps(c, s, s', t, cl, s.lists[cl].cacheSize, w);
  }

  lemma ShrinkKeeps(c: Config, s: Sys, s': Sys, t: nat, cl: nat, chain: seq<Obj>, force: bool, v: nat, w: map<Obj, Place>)
    requires Core(c, s) && Located(s, w) && t < |s.pcs| && s.pcs[t] == ShrinkHeld(cl, chain, force, v) && v < |c.size|
    requires s' == Shrink(s, t, cl, chain, force, v)
    ensures Inv(c, s')
  {
    assert Inv(c, s);
    assert ListOk(c, v, s.lists[v], s.spans);
    var l := s.lists[v];
    hide Inv, Core, Located, ListOk, MaxCacheSize;
    if l.cacheSize == 0 || (|l.slots| == l.cacheSize && !force) {
      UnlockStepKeeps(c, s, s', t, v, s'.pcs[t]);
    } else if |l.slots| == l.cacheSize {
      ForcedShrinkKeeps(c, s, s', t, cl, chain, v, w);
    } else {
      TakeSlotKeeps(c, s, s', t, cl, chain, force, v, w);
    }
  }

  lemma ReturnedKeeps(c: Config, s: Sys, s': Sys, t: nat, cl: nat, chain: seq<Obj>, force: bool, won: bool, w: map<Obj, Place>)
    requires Core(c, s) && Located(s, w) && t < |s.pcs| && s.pcs[t] == ReturnHeld(cl, chain, force, won)
    requires 1 <= cl < |c.size| && s' == Returned(c, s, t, cl, chain, force, won)
    ensures Inv(c, s')
  {
    assert Inv(c, s);
    hide Inv, Core, Located, MaxCacheSize;
    if won && s.lists[cl].cacheSize < MaxCacheSize(c, cl) {
      ReturnedStores(c, s, s', t, cl, chain, force, w);
    } else {
      RelabelStepKeeps(c, s, s', t, s'.pcs[t]);
    }
  }

  lemma ReturnedStores(c: Config, s: Sys, s': Sys, t: nat, cl: nat, chain: seq<Obj>, force: bool, w: map<Obj, Place>)
    requires Core(c, s) && Located(s, w) && t < |s.pcs| && s.pcs[t] == ReturnHeld(cl, chain, force, true)
    requires 1 <= cl < |c.size| && s.lists[cl].cacheSize < MaxCacheSize(c, cl)
    requires var l := s.lists[cl];
             s' == Store(s.(lists := s.lists[cl := l.(cacheSize := l.cacheSize + 1)]), t, cl, chain)
    ensures Inv(c, s')
  {
    assert ListOk(c, cl, s.lists[cl], s.spans);
    assert PcOk(c, s, s.pcs[t]) && |chain| == c.batch[cl];
    hide ListOk, Located, PcOk, LocksOk, SpansOk, ListsOk, SlotsInClass, PcsOk, BudgetOk, ChainsNoDup, PagemapOk;
    StoreKeeps(c, s, s', t, cl, s.lists[cl].cacheSize + 1, w);
  }

  lemma ReleaseStepKeeps(c: Config, s: Sys, s': Sys, t: nat, at: nat, rest: seq<Obj>, next: After, w: map<Obj, Place>)
    requires Core(c, s) && Located(s, w) && t < |s.pcs| && s.pcs[t] == ReleaseHeld(at, rest, next) && at < |c.size|
    requires ReleaseStep(c, s, t, at, rest, next) == Some(s')
    ensures Inv(c, s')
  {
    assert Inv(c, s);
    hide Inv, Core, Located;
    if rest == [] {
      UnlockStepKeeps(c, s, s', t, at, s'.pcs[t]);
    } else if s.spans[s.pagemap[rest[0]]].refcount == 1 {
      R.ReleaseGoneKeeps(c, s, s', t, at, rest, next, w);
    } else {
      R.ReleaseKeptKeeps(c, s, s', t, at, rest, next, w);
    }
  }

  lemma FetchStepKeeps(c: Config, s: Sys, s': Sys, t: nat, cl: nat, n: nat, got: seq<Obj>, heap: HeapAnswer, w: map<Obj, Place>)
    requires Core(c, s) && Located(s, w) && t < |s.pcs| && s.pcs[t] == FetchHeld(cl, n, got, heap) && cl < |c.size|
    requires FetchStep(s, t, cl, n, got, heap) == Some(s')
    ensures Inv(c, s')
  {
    assert Inv(c, s);
    hide Inv, Core, Located;
    if |got| >= n {
      R.DeliverKeeps(c, s, s', t, cl, n, got, heap, w);
    } else if s.lists[cl].nonempty == [] {
      if got == [] && heap.NotAsked? {
        UnlockStepKeeps(c, s, s', t, cl, s'.pcs[t]);
      } else {
        R.DeliverKeeps(c, s, s', t, cl, n, got, heap, w);
      }
    } else {
      FetchTakes(s.lists[cl], s.spans, n - |got|);
      FetchKeeps(c, s, s', t, cl, n, got, heap, w);
    }
  }

  predicate Inserting(pc: Pc) {
    pc.InsertWait? || pc.InsertHeld? || pc.EvictHeld? || pc.ShrinkWait? || pc.ShrinkHeld? || pc.ReturnWait? || pc.ReturnHeld?
  }

  predicate Releasing(pc: Pc) {
    pc.ReleaseHeld? || pc.DeleteWait? || pc.DeleteHeld? || pc.ReleaseWait?
  }

  lemma InsertingStepKeeps(c: Config, s: Sys, s': Sys, t: nat, ch: Choice, w: map<Obj, Place>)
    requires Shape(c, s) && Inv(c, s) && Core(c, s) && Located(s, w) && t < c.threads && Inserting(s.pcs[t])
    requires ClassesInRange(c, s.pcs[t]) && Step(c, s, t, ch) == Some(s')
    ensures Inv(c, s')
  {
    hide Inv, Core, Located;
    match s.pcs[t] {
      case InsertWait(cl, chain) => LockStepKeeps(c, s, s', t, cl, s'.pcs[t]);
      case InsertHeld(cl, chain) => InsertKeeps(c, s, s', t, cl, chain, w);
      case EvictHeld(cl, chain, force) =>
        if ch.victim == cl || !ch.worthTrying {
          RelabelStepKeeps(c, s, s', t, s'.pcs[t]);
        } else {
          assert s' == Unlock(s, t, cl, ShrinkWait(cl, chain, force, ch.victim));
          UnlockStepKeeps(c, s, s', t, cl, s'.pcs[t]);
        }
      case ShrinkWait(cl, chain, force, v) => LockStepKeeps(c, s, s', t, v, s'.pcs[t]);
      case ShrinkHeld(cl, chain, force, v) => ShrinkKeeps(c, s, s', t, cl, chain, force, v, w);
      case ReturnWait(cl, chain, force, won) => LockStepKeeps(c, s, s', t, cl, s'.pcs[t]);
      case ReturnHeld(cl, chain, force, won) => ReturnedKeeps(c, s, s', t, cl, chain, force, won, w);
    }
  }

  lemma ReleasingStepKeeps(c: Config, s: Sys, s': Sys, t: nat, ch: Choice, w: map<Obj, Place>)
    requires Shape(c, s) && Inv(c, s) && Core(c, s) && Located(s, w) && t < c.threads && Releasing(s.pcs[t])
    requires ClassesInRange(c, s.pcs[t]) && Step(c, s, t, ch) == Some(s')
    ensures Inv(c, s')
  {
    hide Inv, Core, Located;
    match s.pcs[t] {
      case ReleaseHeld(at, rest, next) => ReleaseStepKeeps(c, s, s', t, at, rest, next, w);
      case DeleteWait(at, rest, next, id, span) => HeapStepKeeps(c, s, s', t, s'.pcs[t]);
      case DeleteHeld(at, rest, next, id, span) => H.DeleteKeeps(c, s, s', t, at, rest, next, id, span, w);
      case ReleaseWait(at, rest, next) => LockStepKeeps(c, s, s', t, at, s'.pcs[t]);
    }
  }

  lemma RemovingStepKeeps(c: Config, s: Sys, s': Sys, t: nat, ch: Choice, w: map<Obj, Place>)
    requires Shape(c, s) && Inv(c, s) && Core(c, s) && Located(s, w) && t < c.threads
    requires !Inserting(s.pcs[t]) && !Releasing(s.pcs[t])
    requires ClassesInRange(c, s.pcs[t]) && Step(c, s, t, ch) == Some(s')
    ensures Inv(c, s')
  {
    hide Inv, Core, Located;
    match s.pcs[t] {
      case Idle =>
        if ch.CallInsert? {
          R.CallInsertKeeps(c, s, s', t, ch.cl, ch.chain, w);
        } else {
          RelabelStepKeeps(c, s, s', t, s'.pcs[t]);
        }
      case RemoveWait(cl, n) => LockStepKeeps(c, s, s', t, cl, s'.pcs[t]);
      case RemoveHeld(cl, n) =>
        if n == c.batch[cl] && s.lists[cl].slots != [] {
          RemoveCachedKeeps(c, s, s', t, cl, n, w);
        } else {
          RelabelStepKeeps(c, s, s', t, s'.pcs[t]);
        }
      case FetchHeld(cl, n, got, heap) => FetchStepKeeps(c, s, s', t, cl, n, got, heap, w);
      case PopulateWait(cl, n) => HeapStepKeeps(c, s, s', t, s'.pcs[t]);
      case PopulateHeld(cl, n) =>
        if ch.NewSpan? {
          H.NewKeeps(c, s, s', t, cl, n, ch.start, w);
        } else {
          NoMemoryKeeps(c, s, s', t, cl, n);
        }
      case LinkWait(cl, n, id, carved) => LockStepKeeps(c, s, s', t, cl, s'.pcs[t]);
      case LinkHeld(cl, n, id, carved) =>
        if carved.Some? {
          H.LinkKeeps(c, s, s', t, cl, n, id, carved.value, w);
        } else {
          RelabelStepKeeps(c, s, s', t, s'.pcs[t]);
        }
    }
  }

  /** Whatever thread moves, and whatever the schedule decides, the invariant is kept. */
  lemma StepKeeps(c: Config, s: Sys, t: nat, ch: Choice)
    requires Shape(c, s) && Inv(c, s) && t < c.threads
    requires ClassesInRange(c, s.pcs[t]) && Step(c, s, t, ch).Some?
    ensures Inv(c, Step(c, s, t, ch).value)
  {
    var s' := Step(c, s, t, ch).value;
    var w :| Located(s, w);
    assert Core(c, s);
    hide Inv, Core, Located, Step;
    if Inserting(s.pcs[t]) {
      InsertingStepKeeps(c, s, s', t, ch, w);
    } else if Releasing(s.pcs[t]) {
      ReleasingStepKeeps(c, s, s', t, ch, w);
    } else {
      RemovingStepKeeps(c, s, s', t, ch, w);
    }
  }
}
