/** What holds in every state that any interleaving of any set of threads can reach. */
module CentralTheorems {
  import opened Options
  import opened Seqs
  import opened CentralModel
  import opened CentralInvariant
  import opened CentralSpans
  import opened CentralSystem

  // ---------------------------------------------------------------- runs

  /** All lists as Init leaves them, no thread inside a call. */
  function Start(c: Config): Sys
    requires c.Good()
  {
    Sys(seq(|c.size|, cl requires 0 <= cl < |c.size| => FreeList([], [], 0, 0, [], InitialCacheSize(c, cl))),
        seq(|c.size|, _ => None), None, map[], map[], {}, seq(c.threads, _ => Idle))
  }

  /** One entry of a schedule; a thread that cannot move stays where it is. */
  ghost function Next(c: Config, s: Sys, move: (nat, Choice)): Sys {
    if Shape(c, s) && move.0 < c.threads && ClassesInRange(c, s.pcs[move.0])
    then match Step(c, s, move.0, move.1) case Some(s') => s' case None => s
    else s
  }

  ghost function Run(c: Config, schedule: seq<(nat, Choice)>): Sys
    requires c.Good()
  {
    if schedule == [] then Start(c)
    else Next(c, Run(c, schedule[..|schedule| - 1]), schedule[|schedule| - 1])
  }

  ghost predicate Reachable(c: Config, s: Sys)
    requires c.Good()
  {
    exists schedule :: s == Run(c, schedule)
  }

  lemma {:induction false} SlotsOfStart(c: Config, n: nat)
    requires c.Good() && n <= |c.size|
    ensures SlotsOf(Start(c).lists[..n]) == InitialSlots(c, n)
  {
    if n > 0 {
      SlotsOfStart(c, n - 1);
      SlotsOfAppend(Start(c).lists[..n - 1], Start(c).lists[n - 1]);
      assert Start(c).lists[..n] == Start(c).lists[..n - 1] + [Start(c).lists[n - 1]];
    }
  }

  lemma {:induction false} SlotsOfAppend(lists: seq<FreeList>, l: FreeList)
    ensures SlotsOf(lists + [l]) == SlotsOf(lists) + l.cacheSize
  {
    if lists == [] {
      assert lists + [l] == [l];
      assert [l][1..] == [];
    } else {
      SlotsOfAppend(lists[1..], l);
      assert (lists + [l])[1..] == lists[1..] + [l];
    }
  }

  lemma {:induction false} NoneInFlight(pcs: seq<Pc>)
    requires forall t :: 0 <= t < |pcs| ==> pcs[t] == Idle
    ensures SlotsInFlight(pcs) == 0
  {
    if pcs != [] {
      NoneInFlight(pcs[1..]);
    }
  }

  lemma StartBudget(c: Config)
    requires c.Good()
    ensures BudgetOk(c, Start(c))
  {
    var s := Start(c);
    SlotsOfStart(c, |c.size|);
    assert s.lists[..|c.size|] == s.lists;
    NoneInFlight(s.pcs);
  }

  lemma StartLists(c: Config)
    requires c.Good()
    ensures ListsOk(c, Start(c)) && SpansOk(c, Start(c)) && SlotsInClass(Start(c)) && PagemapOk(Start(c))
  {
    var s := Start(c);
    assert forall cl :: 0 <= cl < |s.lists| ==> s.lists[cl].cacheSize == InitialCacheSize(c, cl);
  }

  lemma StartInv(c: Config)
    requires c.Good()
    ensures Inv(c, Start(c))
  {
    var s := Start(c);
    StartBudget(c);
    StartLists(c);
    hide BudgetOk, ListsOk, SpansOk, SlotsInClass, PagemapOk;
    assert LocksOk(s) && PcsOk(c, s);
    hide LocksOk, PcsOk, InitialCacheSize;
    assert forall p :: At(s, p) == [];
    assert Located(s, map[]);
  }

  lemma NextInv(c: Config, s: Sys, move: (nat, Choice))
    requires Inv(c, s)
    ensures Inv(c, Next(c, s, move))
  {
    if Shape(c, s) && move.0 < c.threads && ClassesInRange(c, s.pcs[move.0]) {
      hide Inv, Step;
      if Step(c, s, move.0, move.1).Some? {
        StepKeeps(c, s, move.0, move.1);
      }
    }
  }

  /** Every run, whatever its schedule, stays inside the invariant. */
  lemma {:induction false} RunInv(c: Config, schedule: seq<(nat, Choice)>)
    requires c.Good()
    ensures Inv(c, Run(c, schedule))
  {
    if schedule == [] {
      StartInv(c);
    } else {
      RunInv(c, schedule[..|schedule| - 1]);
      hide Inv;
      NextInv(c, Run(c, schedule[..|schedule| - 1]), schedule[|schedule| - 1]);
    }
  }

  lemma ReachableInv(c: Config, s: Sys)
    requires c.Good() && Reachable(c, s)
    ensures Inv(c, s)
  {
    var schedule :| s == Run(c, schedule);
    hide Inv, Run;
    RunInv(c, schedule);
  }

  // ---------------------------------------------------------------- conservation of objects

  /** `o` is at `p` and at no other place. */
  ghost predicate OnlyAt(s: Sys, o: Obj, p: Place) {
    && (o in s.out <==> p == Out)
    && (forall q :: Has(s, q, o) <==> q == p && q != Out)
  }

  /** Every object of every span a list owns is in exactly one place, and no chain holds an
      object twice. */
  lemma ObjectInOnePlace(c: Config, s: Sys, o: Obj)
    requires c.Good() && Reachable(c, s) && Owned(s, o)
    ensures exists p :: OnlyAt(s, o, p)
    ensures forall q :: NoDup(At(s, q))
  {
    hide At, Owned, Reachable, Has;
    ReachableInv(c, s);
    var w :| Located(s, w);
    assert OnlyAt(s, o, w[o]);
  }

  /** The objects of a span that some list owns, and what the refcount counts. */
  lemma RefcountIsInUse(c: Config, s: Sys, id: SpanId)
    requires c.Good() && Reachable(c, s) && id in s.spans
    ensures var sp := s.spans[id];
            && 1 <= sp.cls < |c.size| == |s.lists|
            && |sp.all| == c.bytes[sp.cls] / c.size[sp.cls]
            && |sp.free| + sp.refcount == |sp.all|
            && sp.refcount == |Elems(sp.all) - Elems(sp.free)|
            && (forall o :: o in sp.all ==> Owned(s, o) && s.pagemap[o] == id)
            && (sp.free != [] <==> id in s.lists[sp.cls].nonempty)
            && (sp.free == [] <==> id in s.lists[sp.cls].empty)
  {
    ReachableInv(c, s);
    var sp := s.spans[id];
    assert SpanOk(c, s.pagemap, id, sp);
    assert ListOk(c, sp.cls, s.lists[sp.cls], s.spans);
    NoDupCard(sp.all);
    NoDupCard(sp.free);
    assert Elems(sp.free) <= Elems(sp.all);
    DifferenceCard(Elems(sp.all), Elems(sp.free));
  }

  lemma DifferenceCard<T>(a: set<T>, b: set<T>)
    requires b <= a
    ensures |a - b| == |a| - |b|
  {
    assert a == (a - b) + b;
  }

  /** The free objects of a class: those on the chains of its spans. */
  ghost function FreeObjects(s: Sys, cl: nat): set<Obj> {
    set id, o | id in s.spans && s.spans[id].cls == cl && o in s.spans[id].free :: o
  }

  ghost function FreeUnion(ids: seq<SpanId>, spans: map<SpanId, Span>): set<Obj>
    requires forall id :: id in ids ==> id in spans
  {
    if ids == [] then {} else Elems(spans[ids[0]].free) + FreeUnion(ids[1..], spans)
  }

  lemma {:induction false} FreeUnionElems(ids: seq<SpanId>, spans: map<SpanId, Span>, o: Obj)
    requires forall id :: id in ids ==> id in spans
    ensures o in FreeUnion(ids, spans) <==> exists id :: id in ids && o in spans[id].free
  {
    if ids != [] {
      FreeUnionElems(ids[1..], spans, o);
    }
  }

  lemma {:induction false} FreeTotalCounts(ids: seq<SpanId>, spans: map<SpanId, Span>, owner: map<Obj, SpanId>)
    requires NoDup(ids)
    requires forall id :: id in ids ==> id in spans && NoDup(spans[id].free)
    requires forall id, o :: id in ids && o in spans[id].free ==> o in owner && owner[o] == id
    ensures FreeTotal(ids, spans) == |FreeUnion(ids, spans)|
  {
    if ids != [] {
      var tail := ids[1..];
      FreeTotalCounts(tail, spans, owner);
      NoDupCard(spans[ids[0]].free);
      forall o | o in Elems(spans[ids[0]].free)
        ensures o !in FreeUnion(tail, spans)
      {
        FreeUnionElems(tail, spans, o);
        assert ids[0] in ids && ids[0] !in tail && owner[o] == ids[0];
        assert forall id :: id in tail ==> id in ids;
      }
      assert Elems(spans[ids[0]].free) * FreeUnion(tail, spans) == {};
    }
  }

  lemma FreeUnionIsFreeObjects(c: Config, s: Sys, cl: nat)
    requires Shape(c, s) && cl < |c.size| && ListOk(c, cl, s.lists[cl], s.spans)
    ensures FreeUnion(s.lists[cl].nonempty, s.spans) == FreeObjects(s, cl)
  {
    var ids := s.lists[cl].nonempty;
    forall o
      ensures o in FreeUnion(ids, s.spans) <==> o in FreeObjects(s, cl)
    {
      FreeUnionElems(ids, s.spans, o);
    }
  }

  lemma OwnersOfFree(c: Config, s: Sys, ids: seq<SpanId>)
    requires Shape(c, s) && SpansOk(c, s) && forall id :: id in ids ==> id in s.spans
    ensures forall id :: id in ids ==> NoDup(s.spans[id].free)
    ensures forall id, o :: id in ids && o in s.spans[id].free ==> o in s.pagemap && s.pagemap[o] == id
  {
    forall id | id in ids
      ensures NoDup(s.spans[id].free)
      ensures forall o :: o in s.spans[id].free ==> o in s.pagemap && s.pagemap[o] == id
    {
      assert SpanOk(c, s.pagemap, id, s.spans[id]);
    }
  }

  lemma ListCounts(c: Config, s: Sys, cl: nat)
    requires Shape(c, s) && SpansOk(c, s) && cl < |c.size| && ListOk(c, cl, s.lists[cl], s.spans)
    ensures s.lists[cl].counter == |FreeObjects(s, cl)|
  {
    var ids := s.lists[cl].nonempty;
    FreeUnionIsFreeObjects(c, s, cl);
    OwnersOfFree(c, s, ids);
    hide SpansOk, FreeObjects;
    FreeTotalCounts(ids, s.spans, s.pagemap);
  }

  lemma ListSpanCount(c: Config, s: Sys, cl: nat)
    requires Shape(c, s) && cl < |c.size| && ListOk(c, cl, s.lists[cl], s.spans)
    ensures s.lists[cl].numSpans == |set id | id in s.spans && s.spans[id].cls == cl|
  {
    var l := s.lists[cl];
    NoDupCard(l.nonempty);
    NoDupCard(l.empty);
    assert (set id | id in s.spans && s.spans[id].cls == cl) == Elems(l.nonempty) + Elems(l.empty);
    assert Elems(l.nonempty) * Elems(l.empty) == {};
  }

  /** counter_ is the number of free objects of the class, num_spans_ that of its spans. */
  lemma CountersAreRight(c: Config, s: Sys, cl: nat)
    requires c.Good() && Reachable(c, s) && cl < |c.size|
    ensures cl < |s.lists|
    ensures s.lists[cl].counter == |FreeObjects(s, cl)|
    ensures s.lists[cl].numSpans == |set id | id in s.spans && s.spans[id].cls == cl|
  {
    ReachableInv(c, s);
    assert ListOk(c, cl, s.lists[cl], s.spans);
    hide Reachable, FreeObjects, ListOk;
    ListCounts(c, s, cl);
    ListSpanCount(c, s, cl);
  }

  // ---------------------------------------------------------------- transfer-cache slots

  /** At every moment used <= size <= maximum, chains are full transfers of the class, and
      stealing slots never makes new ones. */
  lemma SlotBudget(c: Config, s: Sys)
    requires c.Good() && Reachable(c, s)
    ensures |s.lists| == |c.size|
    ensures forall cl :: 0 <= cl < |s.lists| ==>
              |s.lists[cl].slots| <= s.lists[cl].cacheSize <= MaxCacheSize(c, cl)
    ensures forall cl, i :: 0 <= cl < |s.lists| && 0 <= i < |s.lists[cl].slots| ==>
              |s.lists[cl].slots[i]| == c.batch[cl] && AllInClass(s, s.lists[cl].slots[i], cl)
    ensures SlotsOf(s.lists) + SlotsInFlight(s.pcs) <= InitialSlots(c, |c.size|)
  {
    ReachableInv(c, s);
    hide AllInClass;
    forall cl | 0 <= cl < |s.lists|
      ensures |s.lists[cl].slots| <= s.lists[cl].cacheSize <= MaxCacheSize(c, cl)
      ensures forall i :: 0 <= i < |s.lists[cl].slots| ==> |s.lists[cl].slots[i]| == c.batch[cl]
    {
      assert ListOk(c, cl, s.lists[cl], s.spans);
    }
  }

  // ---------------------------------------------------------------- locks

  /** The locks thread `t` holds. */
  function LocksOf(s: Sys, t: nat): set<Held> {
    (set cl: nat | cl < |s.locks| && s.locks[cl] == Some(t) :: ClassLock(cl))
    + if s.heapLock == Some(t) then {HeapLock} else {}
  }

  /** No thread ever holds two of the central and page-heap locks. */
  lemma OneLockAtATime(c: Config, s: Sys, t: nat)
    requires c.Good() && Reachable(c, s) && t < c.threads
    ensures |LocksOf(s, t)| <= 1
  {
    ReachableInv(c, s);
    var h := HeldLock(s.pcs[t]);
    hide HeldLock;
    assert LocksOf(s, t) <= {h};
    SubsetCard(LocksOf(s, t), {h});
  }

  lemma ReleaserCanMove(c: Config, s: Sys, t: nat, at: nat, rest: seq<Obj>, next: After)
    requires Inv(c, s) && t < c.threads && s.pcs[t] == ReleaseHeld(at, rest, next) && at < |c.size|
    ensures ReleaseStep(c, s, t, at, rest, next).Some?
  {
    assert PcOk(c, s, s.pcs[t]);
    assert Main(s.pcs[t]) == rest && MainClass(s.pcs[t]) == at;
    if rest != [] {
      assert InClass(s, rest[0], at);
      assert SpanOk(c, s.pagemap, s.pagemap[rest[0]], s.spans[s.pagemap[rest[0]]]);
    }
    hide PcOk, Release, SpanOk;
  }

  lemma FetcherCanMove(c: Config, s: Sys, t: nat, cl: nat, n: nat, got: seq<Obj>, heap: HeapAnswer)
    requires Inv(c, s) && t < c.threads && cl < |c.size|
    ensures FetchStep(s, t, cl, n, got, heap).Some?
  {
    assert ListOk(c, cl, s.lists[cl], s.spans);
    hide Fetch;
  }

  /** A thread inside a critical section can always go on. */
  lemma HolderCanMove(c: Config, s: Sys, t: nat)
    requires Inv(c, s) && t < c.threads && HeldLock(s.pcs[t]) != NoLock
    ensures ClassesInRange(c, s.pcs[t]) && exists ch :: Step(c, s, t, ch).Some?
  {
    assert PcOk(c, s, s.pcs[t]);
    hide Inv, PcOk, Release, Fetch, FetchStep, ReleaseStep;
    var pc := s.pcs[t];
    if pc.EvictHeld? {
      assert Step(c, s, t, Victim(0, false)).Some?;
    } else if pc.PopulateHeld? {
      assert Step(c, s, t, NoMemory).Some?;
    } else {
      if pc.ReleaseHeld? {
        ReleaserCanMove(c, s, t, pc.at, pc.rest, pc.next);
      } else if pc.FetchHeld? {
        FetcherCanMove(c, s, t, pc.cl, pc.n, pc.got, pc.heap);
      }
      assert Step(c, s, t, Go).Some?;
    }
  }

  /** The lock a thread outside the critical sections asks for next. */
  function Wanted(pc: Pc): Held {
    match pc
    case InsertWait(cl, _) => ClassLock(cl)
    case ShrinkWait(_, _, _, v) => ClassLock(v)
    case ReturnWait(cl, _, _, _) => ClassLock(cl)
    case ReleaseWait(at, _, _) => ClassLock(at)
    case RemoveWait(cl, _) => ClassLock(cl)
    case LinkWait(cl, _, _, _) => ClassLock(cl)
    case DeleteWait(_, _, _, _, _) => HeapLock
    case PopulateWait(_, _) => HeapLock
    case _ => NoLock
  }

  /** A thread that waits for a free lock can take it. */
  lemma WaiterCanMove(c: Config, s: Sys, t: nat)
    requires Shape(c, s) && t < c.threads && ClassesInRange(c, s.pcs[t])
    requires s.pcs[t] != Idle && HeldLock(s.pcs[t]) == NoLock
    ensures Wanted(s.pcs[t]).HeapLock? || (Wanted(s.pcs[t]).ClassLock? && Wanted(s.pcs[t]).cl < |s.locks|)
    ensures Wanted(s.pcs[t]).HeapLock? && s.heapLock == None ==> Step(c, s, t, Go).Some?
    ensures Wanted(s.pcs[t]).ClassLock? && s.locks[Wanted(s.pcs[t]).cl] == None ==> Step(c, s, t, Go).Some?
  {}

  /** No deadlock: as long as some call is under way, some thread inside a call can move. */
  lemma NoDeadlock(c: Config, s: Sys, t: nat)
    requires c.Good() && Reachable(c, s) && t < c.threads && Shape(c, s) && s.pcs[t] != Idle
    ensures exists u, ch :: 0 <= u < c.threads && s.pcs[u] != Idle && ClassesInRange(c, s.pcs[u])
                            && Step(c, s, u, ch).Some?
  {
    ReachableInv(c, s);
    assert PcOk(c, s, s.pcs[t]);
    assert LocksOk(s);
    hide Inv, Reachable, Step, PcOk;
    var u := t;
    if HeldLock(s.pcs[t]) == NoLock {
      WaiterCanMove(c, s, t);
      var wanted := Wanted(s.pcs[t]);
      var holder := if wanted.HeapLock? then s.heapLock else s.locks[wanted.cl];
      if holder == None {
        assert Step(c, s, t, Go).Some?;
        return;
      }
      u := holder.value;
      assert HeldLock(s.pcs[u]) == wanted;
    }
    hide LocksOk;
    assert s.pcs[u] != Idle;
    HolderCanMove(c, s, u);
  }

  /** A list, and the spans of its class, are only ever changed by the holder of its lock,
      and the page map only by the holder of pageheap_lock. */
  ghost predicate ChangedUnderLock(s: Sys, s': Sys, t: nat) {
    && |s'.lists| == |s.lists| <= |s.locks|
    && (forall cl :: 0 <= cl < |s.lists| && s'.lists[cl] != s.lists[cl] ==> s.locks[cl] == Some(t))
    && (forall id :: id in s.spans && (id !in s'.spans || s'.spans[id] != s.spans[id]) ==>
          s.spans[id].cls < |s.locks| && s.locks[s.spans[id].cls] == Some(t))
    && (forall id :: id in s'.spans && id !in s.spans ==>
          s'.spans[id].cls < |s.locks| && s.locks[s'.spans[id].cls] == Some(t))
    && (s'.pagemap != s.pagemap ==> s.heapLock == Some(t))
  }

  lemma ReleaseChanges(c: Config, l: FreeList, spans: map<SpanId, Span>, id: SpanId, o: Obj)
    requires c.Good() && id in spans && 1 <= spans[id].cls < |c.size|
    ensures var r := Release(c, l, spans, id, o);
            && (forall i :: i in r.spans ==> i in spans)
            && (forall i :: i in spans && i != id ==> i in r.spans && r.spans[i] == spans[i])
  {}

  /** The lists other than `cl`, and all spans and pages, are as they were. */
  ghost predicate OnlyList(s: Sys, s': Sys, cl: nat) {
    && |s'.lists| == |s.lists| && s'.spans == s.spans && s'.pagemap == s.pagemap
    && forall k :: 0 <= k < |s.lists| && k != cl ==> s'.lists[k] == s.lists[k]
  }

  lemma OnlyListUnderLock(s: Sys, s': Sys, t: nat, cl: nat)
    requires OnlyList(s, s', cl) && |s.lists| <= |s.locks|
    requires cl < |s.lists| ==> s.locks[cl] == Some(t)
    ensures ChangedUnderLock(s, s', t)
  {}

  lemma ReleaseUnderLock(c: Config, s: Sys, s': Sys, t: nat, at: nat, rest: seq<Obj>, next: After)
    requires Shape(c, s) && t < c.threads && at < |c.size| && s.locks[at] == Some(t) && rest != []
    requires rest[0] in s.pagemap && s.pagemap[rest[0]] in s.spans && s.spans[s.pagemap[rest[0]]].cls == at
    requires ReleaseStep(c, s, t, at, rest, next) == Some(s')
    ensures ChangedUnderLock(s, s', t)
  {
    var id := s.pagemap[rest[0]];
    var r := Release(c, s.lists[at], s.spans, id, rest[0]);
    ReleaseChanges(c, s.lists[at], s.spans, id, rest[0]);
    assert s'.spans == r.spans && s'.pagemap == s.pagemap && s'.lists == s.lists[at := r.list];
    hide Release, ReleaseStep;
  }

  lemma ReleasedIsInClass(c: Config, s: Sys, t: nat, at: nat, rest: seq<Obj>, next: After)
    requires Inv(c, s) && t < |s.pcs| && s.pcs[t] == ReleaseHeld(at, rest, next) && rest != []
    ensures rest[0] in s.pagemap && s.pagemap[rest[0]] in s.spans && s.spans[s.pagemap[rest[0]]].cls == at
  {
    assert PcOk(c, s, s.pcs[t]) && Main(s.pcs[t]) == rest && MainClass(s.pcs[t]) == at;
    hide Inv, PcOk;
    assert InClass(s, rest[0], at);
  }

  lemma FetchUnderLock(s: Sys, s': Sys, t: nat, cl: nat, n: nat, got: seq<Obj>, heap: HeapAnswer)
    requires t < |s.pcs| && cl < |s.lists| <= |s.locks| && s.locks[cl] == Some(t)
    requires ListedSpans(s.lists[cl], s.spans)
    requires forall id :: id in s.lists[cl].nonempty ==> s.spans[id].cls == cl
    requires FetchStep(s, t, cl, n, got, heap) == Some(s')
    ensures ChangedUnderLock(s, s', t)
  {
    var l := s.lists[cl];
    if |got| < n && l.nonempty != [] {
      assert l.nonempty[0] in l.nonempty;
      FetchTakes(l, s.spans, n - |got|);
    }
    hide Fetch, ListedSpans;
  }

  lemma ListMembers(c: Config, s: Sys, cl: nat)
    requires Inv(c, s) && cl < |c.size|
    ensures ListedSpans(s.lists[cl], s.spans)
    ensures forall id :: id in s.lists[cl].nonempty ==> s.spans[id].cls == cl
  {
    assert ListOk(c, cl, s.lists[cl], s.spans);
  }

  lemma LinkUnderLock(c: Config, s: Sys, s': Sys, t: nat, cl: nat, n: nat, id: SpanId, sp: Span)
    requires Inv(c, s) && t < c.threads && s.pcs[t] == LinkHeld(cl, n, id, Some(sp)) && cl < |c.size|
    requires s' == LinkStep(s, t, cl, n, id, Some(sp))
    ensures ChangedUnderLock(s, s', t)
  {
    assert HeldLock(s.pcs[t]) == ClassLock(cl);
    assert s.locks[cl] == Some(t);
    assert PcOk(c, s, s.pcs[t]) && sp.cls == cl && id !in s.spans;
  }

  lemma HeldIsHolder(c: Config, s: Sys, t: nat)
    requires Inv(c, s) && t < c.threads
    ensures Shape(c, s)
    ensures HeldLock(s.pcs[t]).ClassLock? && HeldLock(s.pcs[t]).cl < |s.locks| ==>
              s.locks[HeldLock(s.pcs[t]).cl] == Some(t)
    ensures HeldLock(s.pcs[t]) == HeapLock ==> s.heapLock == Some(t)
  {
    hide HeldLock;
  }

  /** All other transitions touch at most the list whose lock the thread holds. */
  lemma InsertingTouches(c: Config, s: Sys, s': Sys, t: nat, ch: Choice)
    requires Shape(c, s) && t < c.threads && ClassesInRange(c, s.pcs[t])
    requires Inserting(s.pcs[t]) && Step(c, s, t, ch) == Some(s')
    ensures var h := HeldLock(s.pcs[t]);
            OnlyList(s, s', if h.ClassLock? then h.cl else |s.lists|)
  {
    hide MaxCacheSize, OnlyList, Remove, FetchStep, Populate, LinkStep, Deliver, Delete, ReleaseStep, Call, Evict, Shrink;
    match s.pcs[t] {
      case InsertWait(cl, chain) => LabelsTouch(s, s');
      case InsertHeld(cl, chain) => ListTouched(s, s', cl);
      case EvictHeld(cl, chain, force) => EvictingTouches(c, s, s', t, ch);
      case ShrinkWait(cl, chain, force, v) => EvictingTouches(c, s, s', t, ch);
      case ShrinkHeld(cl, chain, force, v) => EvictingTouches(c, s, s', t, ch);
      case ReturnWait(cl, chain, force, won) => LabelsTouch(s, s');
      case ReturnHeld(cl, chain, force, won) => ListTouched(s, s', cl);
    }
  }

  lemma EvictingTouches(c: Config, s: Sys, s': Sys, t: nat, ch: Choice)
    requires Shape(c, s) && t < c.threads && ClassesInRange(c, s.pcs[t])
    requires s.pcs[t].EvictHeld? || s.pcs[t].ShrinkWait? || s.pcs[t].ShrinkHeld?
    requires Step(c, s, t, ch) == Some(s')
    ensures var h := HeldLock(s.pcs[t]);
            OnlyList(s, s', if h.ClassLock? then h.cl else |s.lists|)
  {
    hide MaxCacheSize, OnlyList, Remove, FetchStep, Populate, LinkStep, Deliver, Delete, ReleaseStep, Call, Insert, Returned;
    match s.pcs[t] {
      case EvictHeld(cl, chain, force) => ListTouched(s, s', cl);
      case ShrinkWait(cl, chain, force, v) => LabelsTouch(s, s');
      case ShrinkHeld(cl, chain, force, v) => ListTouched(s, s', v);
    }
  }

  lemma InsertingPc(c: Config, s: Sys, s': Sys, t: nat, ch: Choice)
    requires Shape(c, s) && t < c.threads && ClassesInRange(c, s.pcs[t])
    requires Inserting(s.pcs[t]) && Step(c, s, t, ch) == Some(s')
    ensures |s'.pcs| == |s.pcs| && s'.pcs == s.pcs[t := s'.pcs[t]] && !s'.pcs[t].FetchHeld?
  {
    hide MaxCacheSize, Remove, FetchStep, Populate, LinkStep, Deliver, Delete, ReleaseStep, Call;
  }

  lemma LabelsTouch(s: Sys, s': Sys)
    requires s'.lists == s.lists && s'.spans == s.spans && s'.pagemap == s.pagemap
    ensures OnlyList(s, s', |s.lists|)
  {}

  lemma ListTouched(s: Sys, s': Sys, cl: nat)
    requires cl < |s.lists| == |s'.lists| && s'.lists == s.lists[cl := s'.lists[cl]]
    requires s'.spans == s.spans && s'.pagemap == s.pagemap
    ensures OnlyList(s, s', cl)
  {}

  predicate Quiet(pc: Pc) {
    pc.Idle? || pc.DeleteWait? || pc.ReleaseWait? || pc.RemoveWait? || pc.RemoveHeld? || pc.PopulateWait? || pc.LinkWait?
  }

  lemma QuietTouches(c: Config, s: Sys, s': Sys, t: nat, ch: Choice)
    requires Shape(c, s) && t < c.threads && ClassesInRange(c, s.pcs[t])
    requires Quiet(s.pcs[t]) && Step(c, s, t, ch) == Some(s')
    ensures var h := HeldLock(s.pcs[t]);
            OnlyList(s, s', if h.ClassLock? then h.cl else |s.lists|)
    ensures |s'.pcs| == |s.pcs| && s'.pcs == s.pcs[t := s'.pcs[t]]
    ensures s'.pcs[t].FetchHeld? ==> s'.pcs[t].heap == NotAsked
  {}

  lemma HeapUnderLock(c: Config, s: Sys, s': Sys, t: nat, ch: Choice)
    requires Shape(c, s) && t < c.threads && ClassesInRange(c, s.pcs[t]) && s.heapLock == Some(t)
    requires (s.pcs[t].DeleteHeld? || s.pcs[t].PopulateHeld?) && Step(c, s, t, ch) == Some(s')
    ensures ChangedUnderLock(s, s', t)
    ensures |s'.pcs| == |s.pcs| && s'.pcs == s.pcs[t := s'.pcs[t]] && !s'.pcs[t].FetchHeld?
  {
    assert s'.lists == s.lists && s'.spans == s.spans;
  }

  /** Each lock protects what it is there for. */
  lemma DataUnderLock(c: Config, s: Sys, t: nat, ch: Choice)
    requires Inv(c, s) && t < c.threads && ClassesInRange(c, s.pcs[t]) && Step(c, s, t, ch).Some?
    ensures ChangedUnderLock(s, Step(c, s, t, ch).value, t)
  {
    var s' := Step(c, s, t, ch).value;
    var pc := s.pcs[t];
    HeldIsHolder(c, s, t);
    hide Inv, ChangedUnderLock, OnlyList;
    if Inserting(pc) || Quiet(pc) {
      UnderOwnLock(c, s, s', t, ch);
    } else {
      hide FetchStep, Release;
      if pc.ReleaseHeld? {
        if pc.rest == [] {
          hide ClassesInRange;
          assert OnlyList(s, s', |s.lists|) by { ReleaseEndTouches(c, s, s', t, pc.at, pc.next); }
          OnlyListUnderLock(s, s', t, |s.lists|);
        } else {
          ReleasedIsInClass(c, s, t, pc.at, pc.rest, pc.next);
          ReleaseUnderLock(c, s, s', t, pc.at, pc.rest, pc.next);
        }
      } else if pc.FetchHeld? {
        ListMembers(c, s, pc.cl);
        FetchUnderLock(s, s', t, pc.cl, pc.n, pc.got, pc.heap);
      } else if pc.LinkHeld? {
        if pc.carved.Some? {
          LinkUnderLock(c, s, s', t, pc.cl, pc.n, pc.id, pc.carved.value);
        } else {
          assert OnlyList(s, s', |s.lists|) by { RefusedTouches(s, s', t, pc.cl, pc.n, pc.id); }
          OnlyListUnderLock(s, s', t, |s.lists|);
        }
      } else {
        HeapUnderLock(c, s, s', t, ch);
      }
    }
  }

  lemma UnderOwnLock(c: Config, s: Sys, s': Sys, t: nat, ch: Choice)
    requires Inv(c, s) && t < c.threads && ClassesInRange(c, s.pcs[t]) && Step(c, s, t, ch) == Some(s')
    requires Inserting(s.pcs[t]) || Quiet(s.pcs[t])
    ensures ChangedUnderLock(s, s', t)
  {
    HeldIsHolder(c, s, t);
    hide Inv, Step, ChangedUnderLock, OnlyList;
    var h := HeldLock(s.pcs[t]);
    if Inserting(s.pcs[t]) {
      InsertingTouches(c, s, s', t, ch);
    } else {
      QuietTouches(c, s, s', t, ch);
    }
    OnlyListUnderLock(s, s', t, if h.ClassLock? then h.cl else |s.lists|);
  }

  lemma ReleaseEndTouches(c: Config, s: Sys, s': Sys, t: nat, at: nat, next: After)
    requires Shape(c, s) && t < c.threads && at < |c.size| && ReleaseStep(c, s, t, at, [], next) == Some(s')
    ensures OnlyList(s, s', |s.lists|)
  {}

  lemma RefusedTouches(s: Sys, s': Sys, t: nat, cl: nat, n: nat, id: SpanId)
    requires t < |s.pcs| && cl < |s.lists| && s' == LinkStep(s, t, cl, n, id, None)
    ensures OnlyList(s, s', |s.lists|)
  {}

  // ---------------------------------------------------------------- what RemoveRange returns

  /** When the page heap gave a span, the list has objects until they are fetched. */
  ghost predicate Served(s: Sys) {
    forall t :: 0 <= t < |s.pcs| ==> ServedPc(s, s.pcs[t])
  }

  ghost predicate ServedPc(s: Sys, pc: Pc) {
    pc.FetchHeld? && pc.got == [] && pc.heap == Gave ==> pc.cl < |s.lists| && s.lists[pc.cl].nonempty != []
  }

  lemma OwnPcServed(c: Config, s: Sys, t: nat, ch: Choice)
    requires Shape(c, s) && t < c.threads && ClassesInRange(c, s.pcs[t]) && Step(c, s, t, ch).Some?
    ensures var s' := Step(c, s, t, ch).value;
            && |s'.pcs| == |s.pcs| && s'.pcs == s.pcs[t := s'.pcs[t]]
            && ServedPc(s', s'.pcs[t])
  {
    var pc := s.pcs[t];
    var s' := Step(c, s, t, ch).value;
    if Inserting(pc) {
      hide Step;
      InsertingPc(c, s, s', t, ch);
    } else if Quiet(pc) {
      hide Step;
      QuietTouches(c, s, s', t, ch);
    } else if pc.FetchHeld? {
      hide Fetch;
    } else if pc.ReleaseHeld? {
      hide Release;
    } else {
      hide Populate;
    }
  }

  lemma ServedKeeps(c: Config, s: Sys, t: nat, ch: Choice)
    requires Inv(c, s) && Served(s) && t < c.threads && ClassesInRange(c, s.pcs[t]) && Step(c, s, t, ch).Some?
    ensures Served(Step(c, s, t, ch).value)
  {
    var s' := Step(c, s, t, ch).value;
    assert Shape(c, s);
    hide Inv, Step, ServedPc, ClassesInRange;
    DataUnderLock(c, s, t, ch);
    OwnPcServed(c, s, t, ch);
    forall u | 0 <= u < |s'.pcs| && u != t
      ensures ServedPc(s', s'.pcs[u])
    {
      OtherPcServed(c, s, s', t, u);
    }
  }

  lemma OtherPcServed(c: Config, s: Sys, s': Sys, t: nat, u: nat)
    requires Inv(c, s) && ChangedUnderLock(s, s', t) && u < c.threads && u != t && ServedPc(s, s.pcs[u])
    ensures ServedPc(s', s.pcs[u])
  {
    HeldIsHolder(c, s, u);
    hide Inv;
    if s.pcs[u].FetchHeld? {
      assert HeldLock(s.pcs[u]) == ClassLock(s.pcs[u].cl);
    }
  }

  lemma {:induction false} RunServed(c: Config, schedule: seq<(nat, Choice)>)
    requires c.Good()
    ensures Served(Run(c, schedule))
  {
    if schedule != [] {
      var s, move := Run(c, schedule[..|schedule| - 1]), schedule[|schedule| - 1];
      RunServed(c, schedule[..|schedule| - 1]);
      RunInv(c, schedule[..|schedule| - 1]);
      hide Inv, Step, Served;
      if Shape(c, s) && move.0 < c.threads && ClassesInRange(c, s.pcs[move.0]) && Step(c, s, move.0, move.1).Some? {
        ServedKeeps(c, s, move.0, move.1);
      }
    }
  }

  /** The chain a RemoveRange(n) of class `cl` hands out when thread `t` returns from it. */
  ghost predicate Delivered(c: Config, s: Sys, s': Sys, cl: nat, n: nat, chain: seq<Obj>) {
    && NoDup(chain) && |chain| <= n
    && AllInClass(s, chain, cl)
    && (forall o :: o in chain ==> o !in s.out)
    && s'.out == s.out + Elems(chain)
    && (|chain| < n ==> cl < |s.lists| && s.lists[cl].nonempty == [])
  }

  /** RemoveRange returns distinct objects of the class that were free before; it returns fewer
      than asked only when no span of the class has a free object left, and none only when the
      page heap refused. */
  lemma RemoveReturns(c: Config, s: Sys, t: nat, ch: Choice, cl: nat, n: nat)
    requires c.Good() && Reachable(c, s) && t < c.threads && Shape(c, s)
    requires (s.pcs[t].RemoveHeld? || s.pcs[t].FetchHeld?) && s.pcs[t].cl == cl && s.pcs[t].n == n
    requires ClassesInRange(c, s.pcs[t]) && Step(c, s, t, ch).Some?
    requires Step(c, s, t, ch).value.pcs[t] == Idle
    ensures exists chain :: Delivered(c, s, Step(c, s, t, ch).value, cl, n, chain)
              && (chain == [] ==> s.pcs[t].FetchHeld? && s.pcs[t].heap == Refused)
  {
    var s' := Step(c, s, t, ch).value;
    ReachableInv(c, s);
    ReachableServed(c, s);
    if s.pcs[t].RemoveHeld? {
      CachedDelivery(c, s, s', t, cl, n);
    } else {
      CollectedDelivery(c, s, s', t, cl, n, s.pcs[t].got, s.pcs[t].heap);
    }
  }

  lemma ReachableServed(c: Config, s: Sys)
    requires c.Good() && Reachable(c, s)
    ensures Served(s)
  {
    var schedule :| s == Run(c, schedule);
    RunServed(c, schedule);
  }

  lemma CachedDelivery(c: Config, s: Sys, s': Sys, t: nat, cl: nat, n: nat)
    requires Inv(c, s) && t < |s.pcs| && s.pcs[t] == RemoveHeld(cl, n) && 1 <= cl < |c.size|
    requires s' == Remove(c, s, t, cl, n) && s'.pcs[t] == Idle
    ensures s.lists[cl].slots != []
    ensures var chain := s.lists[cl].slots[|s.lists[cl].slots| - 1];
            chain != [] && Delivered(c, s, s', cl, n, chain)
  {
    var last := |s.lists[cl].slots| - 1;
    var chain := s.lists[cl].slots[last];
    assert ListOk(c, cl, s.lists[cl], s.spans);
    assert AllInClass(s, chain, cl);
    var w :| Located(s, w);
    assert At(s, Cached(cl, last)) == chain;
    assert NoDup(chain);
    forall o | o in chain
      ensures o !in s.out
    {
      assert Has(s, Cached(cl, last), o);
    }
    hide Inv, At, AllInClass, Located, ListOk;
    assert Delivered(c, s, s', cl, n, chain);
  }

  lemma ServedIs(s: Sys, cl: nat, n: nat, got: seq<Obj>, heap: HeapAnswer)
    requires ServedPc(s, FetchHeld(cl, n, got, heap))
    ensures got == [] && heap == Gave ==> cl < |s.lists| && s.lists[cl].nonempty != []
  {}

  lemma CollectedChain(c: Config, s: Sys, t: nat, cl: nat, n: nat, got: seq<Obj>, heap: HeapAnswer)
    requires Inv(c, s) && t < |s.pcs| && s.pcs[t] == FetchHeld(cl, n, got, heap) && 1 <= cl < |c.size|
    ensures Shape(c, s) && ListedSpans(s.lists[cl], s.spans)
    ensures NoDup(got) && |got| <= n && n > 0 && AllInClass(s, got, cl)
    ensures forall o :: o in got ==> o !in s.out
  {
    ListMembers(c, s, cl);
    FetchHeldFacts(cl, n, got, heap);
    assert PcOk(c, s, s.pcs[t]);
    assert AllInClass(s, got, cl);
    var w :| Located(s, w);
    assert At(s, HeldBy(t)) == got;
    assert NoDup(got);
    hide Inv, At, AllInClass, Located, PcOk, Carried, Main;
    forall o | o in got
      ensures o !in s.out
    {
      OutIsNowhere(s, w, HeldBy(t), o);
    }
  }

  lemma OutIsNowhere(s: Sys, w: map<Obj, Place>, p: Place, o: Obj)
    requires Located(s, w) && p != Out && o in At(s, p)
    ensures o !in s.out
  {
    hide At;
    assert Has(s, p, o);
  }

  lemma CollectedDelivery(c: Config, s: Sys, s': Sys, t: nat, cl: nat, n: nat, got: seq<Obj>, heap: HeapAnswer)
    requires Inv(c, s) && Served(s) && t < |s.pcs| && s.pcs[t] == FetchHeld(cl, n, got, heap) && 1 <= cl < |c.size|
    requires FetchStep(s, t, cl, n, got, heap) == Some(s') && s'.pcs[t] == Idle
    ensures Delivered(c, s, s', cl, n, got) && (got == [] ==> heap == Refused)
  {
    hide Inv, AllInClass, ServedPc;
    CollectedChain(c, s, t, cl, n, got, heap);
    assert ServedPc(s, s.pcs[t]);
    ServedIs(s, cl, n, got, heap);
    if |got| < n {
      FetchEmptyIff(s.lists[cl], s.spans, n - |got|);
    }
  }
}
