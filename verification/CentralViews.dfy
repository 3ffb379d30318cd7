/**
  Each central list of a run is a linked list as CentralFreeList keeps it: its `Valid` and `CacheOk` hold
  in every run, also where another thread has dropped the lock, and what a thread carries is apart from
  it.  What FetchFromOneSpans, ReleaseToSpans and Populate do to one list is the transition of all.
  */
module CentralViews {
  import opened Seqs
  import opened CentralModel
  import opened CentralInvariant
  import opened CentralTheorems
  import opened CentralMemory
  import L = CentralChains
  import F = CentralFreeList

  // ---------------------------------------------------------------- one list of a run

  /** The spans of class `cl`. */
  function ViewOf(spans: map<SpanId, Span>, cl: nat): map<SpanId, Span> {
    map id | id in spans && spans[id].cls == cl :: spans[id]
  }

  function RecordsOf(spans: map<SpanId, Span>, cl: nat): map<SpanId, L.SpanRecord> {
    map id | id in spans && spans[id].cls == cl ::
      L.SpanRecord(cl, spans[id].all, First(spans[id].free), spans[id].refcount)
  }

  function Last(chain: seq<Obj>): Obj {
    if chain == [] then L.NULL else chain[|chain| - 1]
  }

  function EntriesOf(slots: seq<seq<Obj>>): (r: seq<L.Entry>)
    ensures |r| == |slots|
  {
    seq(|slots|, i requires 0 <= i < |slots| => L.Entry(First(slots[i]), Last(slots[i])))
  }

  /** `list` has the fields that list `cl` of the run has at this moment. */
  ghost predicate Shows(list: F.List, c: Config, w: World, cl: nat)
    requires cl < |w.sys.lists|
    reads list
  {
    var l := w.sys.lists[cl];
    && list.c == c && list.cl == cl
    && list.mem == w.mem && list.pagemap == w.sys.pagemap
    && list.view == ViewOf(w.sys.spans, cl) && list.spans == RecordsOf(w.sys.spans, cl)
    && list.nonempty == l.nonempty && list.empty == l.empty
    && list.numSpans == l.numSpans && list.counter == l.counter
    && list.slots == EntriesOf(l.slots) && list.cached == l.slots && list.cacheSize == l.cacheSize
  }

  lemma ShownOrder(c: Config, s: Sys, mem: L.Memory, cl: nat)
    requires Core(c, s) && AllLinked(s, mem) && cl < |c.size|
    ensures L.InOrder(mem, s.pagemap, RecordsOf(s.spans, cl), ViewOf(s.spans, cl), s.lists[cl].nonempty)
    ensures L.AllOf(ViewOf(s.spans, cl), cl)
  {
    assert ListOk(c, cl, s.lists[cl], s.spans);
    hide ListOk, FreeTotal;
    forall id | id in s.spans && s.spans[id].cls == cl
      ensures L.Stands(mem, RecordsOf(s.spans, cl)[id], s.spans[id], s.pagemap, id)
    {
      assert SpanOk(c, s.pagemap, id, s.spans[id]);
      assert Linked(mem, s.spans[id].free);
    }
  }

  lemma EntryApart(c: Config, s: Sys, w: map<Obj, Place>, cl: nat, i: nat)
    requires Core(c, s) && Located(s, w) && cl < |s.lists| && i < |s.lists[cl].slots|
    ensures NoDup(s.lists[cl].slots[i])
    ensures forall o :: o in s.lists[cl].slots[i] ==> L.ApartFrom(ViewOf(s.spans, cl), o)
    ensures forall j, o :: 0 <= j < |s.lists[cl].slots| && j != i && o in s.lists[cl].slots[i] ==> o !in s.lists[cl].slots[j]
    ensures forall o :: o in s.lists[cl].slots[i] ==> L.Home(ViewOf(s.spans, cl), s.pagemap, o)
  {
    var p := Cached(cl, i);
    assert NoDup(At(s, p));
    assert AllInClass(s, s.lists[cl].slots[i], cl);
    hide Core, Located;
    forall o | o in s.lists[cl].slots[i]
      ensures L.ApartFrom(ViewOf(s.spans, cl), o)
      ensures L.Home(ViewOf(s.spans, cl), s.pagemap, o)
    {
      ApartAt(s, w, p, o, cl);
      assert InClass(s, o, cl);
    }
    forall j, o | 0 <= j < |s.lists[cl].slots| && j != i && o in s.lists[cl].slots[i]
      ensures o !in s.lists[cl].slots[j]
    {
      NotThere(s, w, p, o, Cached(cl, j));
    }
  }

  /** What is cached or carried is on no free chain. */
  lemma ApartAt(s: Sys, w: map<Obj, Place>, p: Place, o: Obj, cl: nat)
    requires Located(s, w) && Has(s, p, o) && !p.FreeOf?
    ensures L.ApartFrom(ViewOf(s.spans, cl), o)
  {
    hide Located, Has;
    forall id | id in ViewOf(s.spans, cl)
      ensures o !in ViewOf(s.spans, cl)[id].free
    {
      NotThere(s, w, p, o, FreeOf(id));
    }
  }

  lemma ShownCache(c: Config, s: Sys, mem: L.Memory, cl: nat)
    requires Inv(c, s) && AllLinked(s, mem) && 1 <= cl < |c.size|
    ensures Shape(c, s) && |s.lists[cl].slots| <= s.lists[cl].cacheSize <= MaxCacheSize(c, cl)
    ensures var slots := s.lists[cl].slots;
            L.Cached(mem, s.pagemap, ViewOf(s.spans, cl), EntriesOf(slots), slots, c.batch[cl])
  {
    var w := CoreOf(c, s);
    assert ListOk(c, cl, s.lists[cl], s.spans);
    var slots, view := s.lists[cl].slots, ViewOf(s.spans, cl);
    hide Inv, Core, Located, ListOk, Linked, AllLinked, L.ApartFrom, L.Home, ViewOf;
    forall i | 0 <= i < |slots|
      ensures |slots[i]| == c.batch[cl] && L.Taken(mem, view, First(slots[i]), Last(slots[i]), slots[i])
      ensures forall o :: o in slots[i] ==> L.Home(view, s.pagemap, o)
    {
      EntryApart(c, s, w, cl, i);
      SlotLinked(s, mem, cl, i);
      EntryTaken(mem, view, slots[i]);
    }
    forall i, j, o | 0 <= i < j < |slots| && o in slots[i]
      ensures o !in slots[j]
    {
      EntryApart(c, s, w, cl, i);
    }
  }

  lemma EntryTaken(mem: L.Memory, view: map<SpanId, Span>, chain: seq<Obj>)
    requires Linked(mem, chain) && NoDup(chain) && chain != [] && forall o :: o in chain ==> L.ApartFrom(view, o)
    ensures L.Taken(mem, view, First(chain), Last(chain), chain)
  {}

  /** A chain of the class that a thread carries is apart from the list. */
  lemma ShownHeld(c: Config, s: Sys, mem: L.Memory, cl: nat, t: nat, chain: seq<Obj>)
    requires Inv(c, s) && AllLinked(s, mem) && cl < |s.lists| && t < |s.pcs|
    requires (chain, cl) == (Main(s.pcs[t]), MainClass(s.pcs[t])) ||
             (chain, cl) == (Kept(Beyond(s.pcs[t])), KeptClass(Beyond(s.pcs[t])))
    ensures L.Held(mem, s.pagemap, ViewOf(s.spans, cl), s.lists[cl].slots, First(chain), chain)
  {
    hide Inv, Core, Located, AllLinked, Main, Kept, Beyond, L.ApartFrom, L.Home, L.NotCached, Linked, ViewOf;
    var w := CoreOf(c, s);
    PcOfLinked(s, mem, t);
    CarriedInClass(c, s, cl, t, chain);
    assert Linked(mem, chain);
    HeldFrom(mem, chain);
    forall o | o in chain
      ensures L.ApartFrom(ViewOf(s.spans, cl), o) && L.NotCached(s.lists[cl].slots, o)
    {
      CarriedApart(s, w, cl, t, o);
    }
  }

  lemma CarriedApart(s: Sys, w: map<Obj, Place>, cl: nat, t: nat, o: Obj)
    requires Located(s, w) && cl < |s.lists| && t < |s.pcs| && o in Carried(s.pcs[t])
    ensures L.ApartFrom(ViewOf(s.spans, cl), o) && L.NotCached(s.lists[cl].slots, o)
  {
    hide Located, ViewOf, L.ApartFrom, Carried;
    assert Has(s, HeldBy(t), o);
    ApartAt(s, w, HeldBy(t), o, cl);
    forall i | 0 <= i < |s.lists[cl].slots|
      ensures o !in s.lists[cl].slots[i]
    {
      NotThere(s, w, HeldBy(t), o, Cached(cl, i));
    }
  }

  lemma HeldFrom(mem: L.Memory, chain: seq<Obj>)
    requires Linked(mem, chain)
    ensures L.Chain(mem, First(chain), chain)
  {}

  lemma CarriedInClass(c: Config, s: Sys, cl: nat, t: nat, chain: seq<Obj>)
    requires Inv(c, s) && t < |s.pcs|
    requires (chain, cl) == (Main(s.pcs[t]), MainClass(s.pcs[t])) ||
             (chain, cl) == (Kept(Beyond(s.pcs[t])), KeptClass(Beyond(s.pcs[t])))
    ensures NoDup(chain) && forall o :: o in chain ==> L.Home(ViewOf(s.spans, cl), s.pagemap, o)
  {
    assert PcOk(c, s, s.pcs[t]);
    assert NoDup(At(s, HeldBy(t)));
    hide Inv, PcOk, Main, Kept, Beyond;
    NoDupConcat(Main(s.pcs[t]), Kept(Beyond(s.pcs[t])));
    assert AllInClass(s, chain, cl);
    assert forall o :: o in chain ==> InClass(s, o, cl);
  }

  /** `list` is in order, and apart from the chains the threads pass to its methods. */
  ghost predicate InService(list: F.List, s: Sys, cl: nat)
    reads list
  {
    && list.Valid() && list.CacheOk()
    && forall t :: 0 <= t < |s.pcs| ==>
         var pc := s.pcs[t];
         && (MainClass(pc) == cl ==> list.Holding(First(Main(pc)), Main(pc)))
         && (KeptClass(Beyond(pc)) == cl ==> list.Holding(First(Kept(Beyond(pc))), Kept(Beyond(pc))))
  }

  lemma ListAt(c: Config, w: World, cl: nat, list: F.List)
    requires Inv(c, w.sys) && AllLinked(w.sys, w.mem) && 1 <= cl < |c.size|
    requires cl < |w.sys.lists| && Shows(list, c, w, cl)
    ensures InService(list, w.sys, cl)
  {
    hide Inv, Core, AllLinked, L.InOrder, L.Cached, L.Held, L.AllOf, MaxCacheSize, ViewOf, RecordsOf, EntriesOf;
    hide MainClass, Main, KeptClass, Kept, Beyond;
    var s, mem := w.sys, w.mem;
    var at := CoreOf(c, s);
    ShownOrder(c, s, mem, cl);
    ShownCache(c, s, mem, cl);
    forall t | 0 <= t < |s.pcs|
      ensures var pc := s.pcs[t];
              && (MainClass(pc) == cl ==> list.Holding(First(Main(pc)), Main(pc)))
              && (KeptClass(Beyond(pc)) == cl ==> list.Holding(First(Kept(Beyond(pc))), Kept(Beyond(pc))))
    {
      var pc := s.pcs[t];
      if MainClass(pc) == cl {
        ShownHeld(c, s, mem, cl, t, Main(pc));
      }
      if KeptClass(Beyond(pc)) == cl {
        ShownHeld(c, s, mem, cl, t, Kept(Beyond(pc)));
      }
    }
  }

  /** In every run the lists are what the methods of CentralFreeList need to find, whatever the other
      threads have done, and so are the chains the threads pass to them. */
  lemma ListInRun(c: Config, worlds: seq<World>, events: seq<Event>, k: nat, cl: nat, list: F.List)
    requires c.Good() && IsRun(c, worlds, events) && k <= |events| && 1 <= cl < |c.size|
    requires cl < |worlds[k].sys.lists| && Shows(list, c, worlds[k], cl)
    ensures InService(list, worlds[k].sys, cl)
  {
    RunLinked(c, worlds, events, k);
    hide Inv, AllLinked, Reachable, IsRun, InService;
    ReachableInv(c, worlds[k].sys);
    ListAt(c, worlds[k], cl, list);
  }

  // ---------------------------------------------------------------- one list's transitions

  /** FetchFromOneSpans sees only the class's own spans. */
  lemma FetchOfView(l: FreeList, spans: map<SpanId, Span>, cl: nat, n: nat)
    requires ListedSpans(l, spans) && forall id :: id in l.nonempty ==> spans[id].cls == cl
    ensures ListedSpans(l, ViewOf(spans, cl))
    ensures var all, own := Fetch(l, spans, n), Fetch(l, ViewOf(spans, cl), n);
            own == Fetched(all.list, ViewOf(all.spans, cl), all.chain)
  {
    if l.nonempty != [] {
      assert l.nonempty[0] in l.nonempty;
    }
  }

  /** So does ReleaseToSpans ... */
  lemma ReleaseOfView(c: Config, l: FreeList, spans: map<SpanId, Span>, cl: nat, id: SpanId, o: Obj)
    requires c.Good() && 1 <= cl < |c.size| && id in spans && spans[id].cls == cl
    ensures var all, own := Release(c, l, spans, id, o), Release(c, l, ViewOf(spans, cl), id, o);
            own == Released(all.list, ViewOf(all.spans, cl), all.gone)
  {
    hide Without;
  }

  /** ... and the end of Populate. */
  lemma LinkOfView(l: FreeList, spans: map<SpanId, Span>, cl: nat, id: SpanId, sp: Span)
    requires sp.cls == cl
    ensures Link(l, ViewOf(spans, cl), id, sp) == (Link(l, spans, id, sp).0, ViewOf(Link(l, spans, id, sp).1, cl))
  {
    assert ViewOf(spans, cl)[id := sp] == ViewOf(spans[id := sp], cl);
  }

  /** ShrinkCache on one list: what it makes of it, and how the thread goes on, are those of the system; the victim's
      size and the slot in flight make up the size before, and no chain is lost. */
  lemma ShrinkOfView(c: Config, w: World, t: nat, cl: nat, chain: seq<Obj>, force: bool, v: nat, list: F.List)
    requires Inv(c, w.sys) && t < |w.sys.pcs| && w.sys.pcs[t] == ShrinkHeld(cl, chain, force, v) && 1 <= v < |c.size|
    requires v < |w.sys.lists| && v < |w.sys.locks| && Shows(list, c, w, v)
    ensures var s', pc := Shrink(w.sys, t, cl, chain, force, v), Shrink(w.sys, t, cl, chain, force, v).pcs[t];
            var (ok, m) := list.Evicts(force);
            && s'.lists == w.sys.lists[v := m.list]
            && s'.lists[v].cacheSize + InFlight(pc) == w.sys.lists[v].cacheSize
            && match pc
               case ReleaseHeld(at, rest, next) =>
                 ok && at == v && next == BackTo(cl, chain) && list.cached == m.list.slots + [rest]
                 && |list.slots| == list.cacheSize
               case _ => pc == ReturnWait(cl, chain, force, ok) && m.list.slots == list.cached
                         && (ok ==> |list.slots| < list.cacheSize)
  {
    hide Inv, MaxCacheSize, ViewOf, RecordsOf;
    ShownSlots(c, w.sys, v);
    var l := w.sys.lists[v];
    assert w.sys.lists[v := l] == w.sys.lists;
    if l.slots != [] {
      assert l.slots == l.slots[..|l.slots| - 1] + [l.slots[|l.slots| - 1]];
    }
  }

  lemma ShownSlots(c: Config, s: Sys, v: nat)
    requires Inv(c, s) && v < |c.size|
    ensures Shape(c, s) && |s.lists[v].slots| <= s.lists[v].cacheSize
  {
    assert ListOk(c, v, s.lists[v], s.spans);
  }

  /** InsertRange and MakeCacheSpace up to the first lock drop. */
  lemma InsertOfView(c: Config, w: World, t: nat, cl: nat, chain: seq<Obj>, list: F.List, won: bool, other: F.List)
    requires Inv(c, w.sys) && t < |w.sys.pcs| && w.sys.pcs[t] == InsertHeld(cl, chain) && 1 <= cl < |c.size|
    requires cl < |w.sys.lists| && cl < |w.sys.locks| && Shows(list, c, w, cl)
    ensures var s', pc := Insert(c, w.sys, t, cl, chain), Insert(c, w.sys, t, cl, chain).pcs[t];
            var (room, m) := list.Space(won, other);
            if |chain| != c.batch[cl] then s'.lists == w.sys.lists && pc == ReleaseHeld(cl, chain, Return)
            else if |list.slots| < list.cacheSize then
              room && pc == Idle && s'.lists == w.sys.lists[cl := F.Stored(m, chain).list]
              && s'.lists[cl].slots == list.cached + [chain]
            else if list.cacheSize == MaxCacheSize(c, cl) then
              !room && m == list.Now() && s'.lists == w.sys.lists && pc == ReleaseHeld(cl, chain, Return)
            else s'.lists == w.sys.lists && pc == EvictHeld(cl, chain, false)
  {
    assert w.sys.lists[cl := w.sys.lists[cl]] == w.sys.lists;
    hide Inv, MaxCacheSize;
  }

  /** MakeCacheSpace once it has its lock back, and finds the list as `other`. */
  lemma ReturnedOfView(c: Config, w: World, t: nat, cl: nat, chain: seq<Obj>, force: bool, won: bool, list: F.List,
                       other: F.List)
    requires Inv(c, w.sys) && t < |w.sys.pcs| && w.sys.pcs[t] == ReturnHeld(cl, chain, force, won) && 1 <= cl < |c.size|
    requires cl < |w.sys.lists| && cl < |w.sys.locks| && Shows(other, c, w, cl)
    requires list.c == c && list.cl == cl && |list.slots| >= list.cacheSize && list.cacheSize != MaxCacheSize(c, cl)
    ensures var s', pc := Returned(c, w.sys, t, cl, chain, force, won), Returned(c, w.sys, t, cl, chain, force, won).pcs[t];
            var (room, m) := list.Space(won, other);
            && (room ==> pc == Idle && s'.lists == w.sys.lists[cl := F.Stored(m, chain).list]
                         && s'.lists[cl].slots == other.cached + [chain] && s'.lists[cl].cacheSize == other.cacheSize + 1)
            && (!room ==> m == other.Now() && s'.lists == w.sys.lists
                          && pc == if won || force then ReleaseHeld(cl, chain, Return) else EvictHeld(cl, chain, true))
  {
    assert w.sys.lists[cl := w.sys.lists[cl]] == w.sys.lists;
    hide Inv, MaxCacheSize;
  }

  /** RemoveRange under its lock: the last entry, or the spans. */
  lemma RemoveOfView(c: Config, w: World, t: nat, cl: nat, n: nat, list: F.List)
    requires Inv(c, w.sys) && t < |w.sys.pcs| && w.sys.pcs[t] == RemoveHeld(cl, n) && 1 <= cl < |c.size|
    requires cl < |w.sys.lists| && cl < |w.sys.locks| && Shows(list, c, w, cl)
    ensures Shape(c, w.sys)
    ensures var s', pc := Remove(c, w.sys, t, cl, n), Remove(c, w.sys, t, cl, n).pcs[t];
            if n == c.batch[cl] && list.slots != [] then
              && |list.cached| == |list.slots|
              && pc == Idle && s'.lists[cl].slots + [list.cached[|list.slots| - 1]] == list.cached
              && s'.lists == w.sys.lists[cl := list.AsList().(slots := s'.lists[cl].slots)]
              && s'.out == w.sys.out + Elems(list.cached[|list.slots| - 1])
            else s'.lists == w.sys.lists && s'.out == w.sys.out && pc == FetchHeld(cl, n, [], NotAsked)
  {
    hide Inv, ViewOf, RecordsOf;
    ShownSlots(c, w.sys, cl);
  }

  /** A turn of ReleaseListToSpans takes the first object off the chain, and `m` is what the class then has:
      `s'`, or, where the lock is let go because the object's span is gone, whatever the others make of it. */
  ghost predicate TurnShown(s: Sys, s': Sys, t: nat, at: nat, rest: seq<Obj>, next: After, m: F.Moment, other: F.Moment) {
    && rest != [] && t < |s'.pcs| && at < |s'.lists|
    && Main(s'.pcs[t]) == rest[1..] && Kept(Beyond(s'.pcs[t])) == Kept(next)
    && (s'.pcs[t].ReleaseHeld? ==> m == F.Moment(s'.lists[at], ViewOf(s'.spans, at), s'.pagemap))
    && (!s'.pcs[t].ReleaseHeld? ==> m == other && rest[0] in s.pagemap && s.pagemap[rest[0]] !in s'.spans)
  }

  lemma GivenOfView(c: Config, w: World, t: nat, at: nat, rest: seq<Obj>, next: After, list: F.List, other: F.Moment)
    requires Inv(c, w.sys) && Shape(c, w.sys) && t < |w.sys.pcs| && w.sys.pcs[t] == ReleaseHeld(at, rest, next) && rest != []
    requires 1 <= at < |c.size| && Shows(list, c, w, at)
    ensures ReleaseStep(c, w.sys, t, at, rest, next).Some?
    ensures TurnShown(w.sys, ReleaseStep(c, w.sys, t, at, rest, next).value, t, at, rest, next,
                      F.Given(c, list.Now(), rest[0], other), other)
  {
    hide Inv, Release, RecordsOf, EntriesOf;
    ReleasedIsInClass(c, w.sys, t, at, rest, next);
    var id := w.sys.pagemap[rest[0]];
    ReleaseOfView(c, w.sys.lists[at], w.sys.spans, at, id, rest[0]);
    ReleaseGone(c, w.sys.lists[at], w.sys.spans, id, rest[0]);
  }

  lemma ReleaseGone(c: Config, l: FreeList, spans: map<SpanId, Span>, id: SpanId, o: Obj)
    requires c.Good() && id in spans && 1 <= spans[id].cls < |c.size|
    ensures var r := Release(c, l, spans, id, o); if r.gone then id !in r.spans else id in r.spans && o in r.spans[id].free
  {
    hide Without;
  }
}
