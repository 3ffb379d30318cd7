/**
  The runs of CentralModel with the memory the chains are kept in.  The link words are written by the
  transitions, as the code writes them, and at any time by the program that has the objects; in
  every run each free, cached and carried chain is linked from its first object to NULL.
  */
module CentralMemory {
  import opened Options
  import opened Seqs
  import opened CentralModel
  import opened CentralInvariant
  import opened CentralSystem
  import opened CentralTheorems
  import L = CentralChains
  import R = CentralRelease
  import S = CentralSpans

  /** The lists and threads, and the link words. */
  datatype World = World(sys: Sys, mem: L.Memory)

  datatype Event = Moves(t: nat, ch: Choice) | ProgramWrites

  function First(chain: seq<Obj>): Obj {
    if chain == [] then L.NULL else chain[0]
  }

  ghost predicate Linked(mem: L.Memory, chain: seq<Obj>) {
    L.Chain(mem, First(chain), chain)
  }

  /** The objects of a span that is carved but not yet on its list. */
  function Carved(pc: Pc): seq<Obj> {
    match pc
    case LinkWait(_, _, _, Some(sp)) => sp.free
    case LinkHeld(_, _, _, Some(sp)) => sp.free
    case _ => []
  }

  ghost predicate PcLinked(mem: L.Memory, pc: Pc) {
    Linked(mem, Main(pc)) && Linked(mem, Kept(Beyond(pc))) && Linked(mem, Carved(pc))
  }

  ghost predicate SpansLinked(mem: L.Memory, spans: map<SpanId, Span>) {
    forall id :: id in spans ==> Linked(mem, spans[id].free)
  }

  ghost predicate SlotsLinked(mem: L.Memory, lists: seq<FreeList>) {
    forall cl, i :: 0 <= cl < |lists| && 0 <= i < |lists[cl].slots| ==> Linked(mem, lists[cl].slots[i])
  }

  ghost predicate PcsLinked(mem: L.Memory, pcs: seq<Pc>) {
    forall t :: 0 <= t < |pcs| ==> PcLinked(mem, pcs[t])
  }

  ghost predicate AllLinked(s: Sys, mem: L.Memory) {
    SpansLinked(mem, s.spans) && SlotsLinked(mem, s.lists) && PcsLinked(mem, s.pcs)
  }

  // ---------------------------------------------------------------- what is written

  /** FetchFromOneSpans ends the chain with NULL; if there is one already, SLL_PushRange links it there. */
  ghost predicate Fetches(mem: L.Memory, l: FreeList, spans: map<SpanId, Span>, n: nat, got: seq<Obj>, mem': L.Memory) {
    if |got| < n && l.nonempty != [] && ListedSpans(l, spans) then
      var chain := Fetch(l, spans, n - |got|).chain;
      chain != [] && mem' == mem[chain[|chain| - 1] := L.NULL][chain[|chain| - 1] := First(got)]
    else mem' == mem
  }

  /** ReleaseToSpans pushes the object on the chain of its span, unless the span goes. */
  ghost predicate Releases(s: Sys, mem: L.Memory, rest: seq<Obj>, mem': L.Memory) {
    if rest != [] && Owned(s, rest[0]) && s.spans[s.pagemap[rest[0]]].refcount != 1
    then mem' == mem[rest[0] := First(s.spans[s.pagemap[rest[0]]].free)]
    else mem' == mem
  }

  /** What the transition of thread `t` writes.  Who calls InsertRange passes a linked chain; the page
      heap never gives page 0, and Populate threads the pieces of the span. */
  ghost predicate Effect(c: Config, s: Sys, mem: L.Memory, t: nat, ch: Choice, mem': L.Memory)
    requires Shape(c, s) && t < c.threads && ClassesInRange(c, s.pcs[t])
  {
    match s.pcs[t]
    case Idle => mem' == mem && (ch.CallInsert? ==> Linked(mem, ch.chain))
    case FetchHeld(cl, n, got, _) => Fetches(mem, s.lists[cl], s.spans, n, got, mem')
    case ReleaseHeld(_, rest, _) => Releases(s, mem, rest, mem')
    case PopulateHeld(cl, _) =>
      if ch.NewSpan? then
        var pieces := Carve(ch.start, c.size[cl], c.Capacity(cl));
        Linked(mem', pieces) && L.OnlyPieces(mem, mem', pieces)
      else mem' == mem
    case _ => mem' == mem
  }

  /** Words outside all spans and of objects that are handed out may change at any time. */
  ghost predicate OnlyForeign(s: Sys, mem: L.Memory, mem': L.Memory) {
    forall o :: o in s.pagemap && o !in s.out && o in mem ==> o in mem' && mem'[o] == mem[o]
  }

  ghost predicate Happens(c: Config, a: World, e: Event, b: World) {
    match e
    case Moves(t, ch) =>
      && Shape(c, a.sys) && t < c.threads && ClassesInRange(c, a.sys.pcs[t])
      && Step(c, a.sys, t, ch) == Some(b.sys)
      && Effect(c, a.sys, a.mem, t, ch, b.mem)
    case ProgramWrites => b.sys == a.sys && OnlyForeign(a.sys, a.mem, b.mem)
  }

  ghost predicate IsRun(c: Config, worlds: seq<World>, events: seq<Event>)
    requires c.Good()
  {
    && |worlds| == |events| + 1
    && worlds[0].sys == Start(c)
    && forall k :: 0 <= k < |events| ==> Happens(c, worlds[k], events[k], worlds[k + 1])
  }

  // ---------------------------------------------------------------- words that stay

  ghost predicate Keeps(mem: L.Memory, mem': L.Memory, o: Obj) {
    o in mem ==> o in mem' && mem'[o] == mem[o]
  }

  lemma LinkedKept(mem: L.Memory, mem': L.Memory, chain: seq<Obj>)
    requires Linked(mem, chain) && forall o :: o in chain ==> Keeps(mem, mem', o)
    ensures Linked(mem', chain)
  {
    L.ChainInMemory(mem, First(chain), chain);
    L.ChainKept(mem, mem', First(chain), chain);
  }

  /** An object of a span of the page heap that is not handed out. */
  ghost predicate Ours(s: Sys, o: Obj) {
    o in s.pagemap && o !in s.out
  }

  /** The objects of every chain are the list's, not the program's. */
  lemma AtOurs(s: Sys, w: map<Obj, Place>, p: Place)
    requires Located(s, w) && p != Out
    ensures forall o :: o in At(s, p) ==> Ours(s, o)
  {
    hide At;
    forall o | o in At(s, p)
      ensures Ours(s, o)
    {
      assert Has(s, p, o);
    }
  }

  lemma CarvedOurs(c: Config, s: Sys, w: map<Obj, Place>, pc: Pc)
    requires c.Good() && Located(s, w) && PcOk(c, s, pc)
    ensures forall o :: o in Carved(pc) ==> Ours(s, o) && !Owned(s, o)
  {
    if pc.LinkWait? && pc.carved.Some? {
      assert SpanOk(c, s.pagemap, pc.id, pc.carved.value);
    } else if pc.LinkHeld? && pc.carved.Some? {
      assert SpanOk(c, s.pagemap, pc.id, pc.carved.value);
    }
  }

  /** As long as only foreign words are written, all chains stay linked. */
  lemma ForeignKeeps(c: Config, s: Sys, mem: L.Memory, mem': L.Memory)
    requires Inv(c, s) && AllLinked(s, mem)
    requires forall o :: Ours(s, o) ==> Keeps(mem, mem', o)
    ensures AllLinked(s, mem')
  {
    hide Linked, Located, Core, Ours, Keeps, Carved, Main, Kept;
    var w :| Located(s, w);
    forall id | id in s.spans
      ensures Linked(mem', s.spans[id].free)
    {
      AtOurs(s, w, FreeOf(id));
      LinkedKept(mem, mem', s.spans[id].free);
    }
    forall cl, i | 0 <= cl < |s.lists| && 0 <= i < |s.lists[cl].slots|
      ensures Linked(mem', s.lists[cl].slots[i])
    {
      AtOurs(s, w, Cached(cl, i));
      LinkedKept(mem, mem', s.lists[cl].slots[i]);
    }
    forall t | 0 <= t < |s.pcs|
      ensures PcLinked(mem', s.pcs[t])
    {
      assert PcLinked(mem, s.pcs[t]);
      AtOurs(s, w, HeldBy(t));
      PcOfCore(c, s, t);
      CarvedOurs(c, s, w, s.pcs[t]);
      LinkedKept(mem, mem', Main(s.pcs[t]));
      LinkedKept(mem, mem', Kept(Beyond(s.pcs[t])));
      LinkedKept(mem, mem', Carved(s.pcs[t]));
    }
  }

  lemma PcOfCore(c: Config, s: Sys, t: nat)
    requires Core(c, s) && t < |s.pcs|
    ensures c.Good() && PcOk(c, s, s.pcs[t])
  {}

  lemma NotThere(s: Sys, w: map<Obj, Place>, p: Place, x: Obj, q: Place)
    requires Located(s, w) && Has(s, p, x) && q != p
    ensures x !in At(s, q) || q == Out
  {
    hide At;
    assert !Has(s, q, x);
  }

  lemma ElsewhereLinked(mem: L.Memory, chain: seq<Obj>, x: Obj, v: Obj)
    requires Linked(mem, chain) && x !in chain
    ensures Linked(mem[x := v], chain)
  {
    LinkedKept(mem, mem[x := v], chain);
  }

  /** Writing the link word of an object at `p` leaves all chains at other places linked. */
  lemma OthersKept(c: Config, s: Sys, mem: L.Memory, w: map<Obj, Place>, p: Place, x: Obj, v: Obj)
    requires Core(c, s) && Located(s, w) && AllLinked(s, mem) && Has(s, p, x) && !p.Cached?
    ensures forall id :: id in s.spans && FreeOf(id) != p ==> Linked(mem[x := v], s.spans[id].free)
    ensures SlotsLinked(mem[x := v], s.lists)
    ensures forall t :: 0 <= t < |s.pcs| && HeldBy(t) != p ==> PcLinked(mem[x := v], s.pcs[t])
    ensures forall t :: 0 <= t < |s.pcs| ==> Linked(mem[x := v], Carved(s.pcs[t]))
  {
    hide Linked, Located, Core, Has, Carved, Main, Kept;
    forall id | id in s.spans && FreeOf(id) != p
      ensures Linked(mem[x := v], s.spans[id].free)
    {
      NotThere(s, w, p, x, FreeOf(id));
      ElsewhereLinked(mem, s.spans[id].free, x, v);
    }
    forall cl, i | 0 <= cl < |s.lists| && 0 <= i < |s.lists[cl].slots|
      ensures Linked(mem[x := v], s.lists[cl].slots[i])
    {
      NotThere(s, w, p, x, Cached(cl, i));
      ElsewhereLinked(mem, s.lists[cl].slots[i], x, v);
    }
    forall t | 0 <= t < |s.pcs|
      ensures Linked(mem[x := v], Carved(s.pcs[t]))
      ensures HeldBy(t) != p ==> PcLinked(mem[x := v], s.pcs[t])
    {
      assert PcLinked(mem, s.pcs[t]);
      CarvedApart(c, s, w, p, x, t);
      ElsewhereLinked(mem, Carved(s.pcs[t]), x, v);
      if HeldBy(t) != p {
        NotThere(s, w, p, x, HeldBy(t));
        ElsewhereLinked(mem, Main(s.pcs[t]), x, v);
        ElsewhereLinked(mem, Kept(Beyond(s.pcs[t])), x, v);
      }
    }
  }

  lemma CarvedApart(c: Config, s: Sys, w: map<Obj, Place>, p: Place, x: Obj, t: nat)
    requires Core(c, s) && Located(s, w) && Has(s, p, x) && t < |s.pcs|
    ensures x !in Carved(s.pcs[t])
  {
    hide Has, Carved;
    assert PcOk(c, s, s.pcs[t]);
    hide PcOk;
    CarvedOurs(c, s, w, s.pcs[t]);
  }

  // ---------------------------------------------------------------- transitions that write nothing

  lemma SlotsAfter(mem: L.Memory, lists: seq<FreeList>, cl: nat, l: FreeList)
    requires SlotsLinked(mem, lists) && cl < |lists|
    requires forall i :: 0 <= i < |l.slots| ==> Linked(mem, l.slots[i])
    ensures SlotsLinked(mem, lists[cl := l])
  {
    hide Linked;
  }

  lemma AfterMove(s: Sys, mem: L.Memory, t: nat, s': Sys)
    requires PcsLinked(mem, s.pcs) && t < |s.pcs| == |s'.pcs| && s'.pcs == s.pcs[t := s'.pcs[t]]
    requires PcLinked(mem, s'.pcs[t])
    requires SpansLinked(mem, s'.spans) && SlotsLinked(mem, s'.lists)
    ensures AllLinked(s', mem)
  {
    hide PcLinked;
  }

  lemma NothingLinked(mem: L.Memory)
    ensures Linked(mem, [])
  {}

  lemma InsertLinked(c: Config, s: Sys, mem: L.Memory, t: nat, cl: nat, chain: seq<Obj>)
    requires Shape(c, s) && AllLinked(s, mem) && t < |s.pcs| && s.pcs[t] == InsertHeld(cl, chain) && cl < |c.size|
    ensures AllLinked(Insert(c, s, t, cl, chain), mem)
  {
    hide Linked, MaxCacheSize;
    assert PcLinked(mem, s.pcs[t]);
    var s' := Insert(c, s, t, cl, chain);
    SlotsAfter(mem, s.lists, cl, s'.lists[cl]);
    AfterMove(s, mem, t, s');
  }

  lemma ShrinkLinked(c: Config, s: Sys, mem: L.Memory, t: nat, cl: nat, chain: seq<Obj>, force: bool, v: nat)
    requires Shape(c, s) && AllLinked(s, mem) && t < |s.pcs| && s.pcs[t] == ShrinkHeld(cl, chain, force, v)
    requires v < |c.size|
    ensures AllLinked(Shrink(s, t, cl, chain, force, v), mem)
  {
    hide Linked;
    assert PcLinked(mem, s.pcs[t]);
    var s' := Shrink(s, t, cl, chain, force, v);
    SlotsAfter(mem, s.lists, v, s'.lists[v]);
    AfterMove(s, mem, t, s');
  }

  lemma ReturnedLinked(c: Config, s: Sys, mem: L.Memory, t: nat, cl: nat, chain: seq<Obj>, force: bool, won: bool)
    requires Shape(c, s) && AllLinked(s, mem) && t < |s.pcs| && s.pcs[t] == ReturnHeld(cl, chain, force, won)
    requires cl < |c.size|
    ensures AllLinked(Returned(c, s, t, cl, chain, force, won), mem)
  {
    hide Linked, MaxCacheSize;
    assert PcLinked(mem, s.pcs[t]);
    var s' := Returned(c, s, t, cl, chain, force, won);
    SlotsAfter(mem, s.lists, cl, s'.lists[cl]);
    AfterMove(s, mem, t, s');
  }

  /** InsertRange, MakeCacheSpace and ShrinkCache only pass whole chains on. */
  lemma InsertingLinked(c: Config, s: Sys, mem: L.Memory, t: nat, ch: Choice, s': Sys)
    requires Shape(c, s) && AllLinked(s, mem) && t < c.threads && Inserting(s.pcs[t])
    requires ClassesInRange(c, s.pcs[t]) && Step(c, s, t, ch) == Some(s')
    ensures AllLinked(s', mem)
  {
    hide Linked, Insert, Shrink, Returned, SlotsLinked, SpansLinked;
    NothingLinked(mem);
    assert PcLinked(mem, s.pcs[t]);
    match s.pcs[t] {
      case InsertHeld(cl, chain) => InsertLinked(c, s, mem, t, cl, chain);
      case ShrinkHeld(cl, chain, force, v) => ShrinkLinked(c, s, mem, t, cl, chain, force, v);
      case ReturnHeld(cl, chain, force, won) => ReturnedLinked(c, s, mem, t, cl, chain, force, won);
      case _ => AfterMove(s, mem, t, s');
    }
  }

  predicate Writing(pc: Pc) {
    pc.FetchHeld? || pc.ReleaseHeld? || pc.PopulateHeld?
  }

  lemma RemoveLinked(c: Config, s: Sys, mem: L.Memory, t: nat, cl: nat, n: nat)
    requires Shape(c, s) && AllLinked(s, mem) && t < |s.pcs| && cl < |c.size|
    ensures AllLinked(Remove(c, s, t, cl, n), mem)
  {
    hide Linked;
    NothingLinked(mem);
    var s' := Remove(c, s, t, cl, n);
    SlotsAfter(mem, s.lists, cl, s'.lists[cl]);
    AfterMove(s, mem, t, s');
  }

  lemma LinkLinked(s: Sys, mem: L.Memory, t: nat, cl: nat, n: nat, id: SpanId, carved: Option<Span>)
    requires AllLinked(s, mem) && t < |s.pcs| && s.pcs[t] == LinkHeld(cl, n, id, carved) && cl < |s.lists|
    ensures AllLinked(LinkStep(s, t, cl, n, id, carved), mem)
  {
    hide Linked;
    NothingLinked(mem);
    assert PcLinked(mem, s.pcs[t]);
    var s' := LinkStep(s, t, cl, n, id, carved);
    SlotsAfter(mem, s.lists, cl, s'.lists[cl]);
    AfterMove(s, mem, t, s');
  }

  /** So do the transitions of RemoveRange and ReleaseListToSpans that write nothing. */
  lemma OtherLinked(c: Config, s: Sys, mem: L.Memory, t: nat, ch: Choice, s': Sys)
    requires Shape(c, s) && AllLinked(s, mem) && t < c.threads && !Inserting(s.pcs[t]) && !Writing(s.pcs[t])
    requires ClassesInRange(c, s.pcs[t]) && Step(c, s, t, ch) == Some(s')
    requires s.pcs[t].Idle? && ch.CallInsert? ==> Linked(mem, ch.chain)
    ensures AllLinked(s', mem)
  {
    hide Linked, SlotsLinked, SpansLinked, Remove, LinkStep, AllInClass, MayCall;
    NothingLinked(mem);
    assert PcLinked(mem, s.pcs[t]);
    match s.pcs[t] {
      case RemoveHeld(cl, n) => RemoveLinked(c, s, mem, t, cl, n);
      case LinkHeld(cl, n, id, carved) => LinkLinked(s, mem, t, cl, n, id, carved);
      case _ => AfterMove(s, mem, t, s');
    }
  }

  // ---------------------------------------------------------------- transitions that write

  lemma CoreOf(c: Config, s: Sys) returns (w: map<Obj, Place>)
    requires Inv(c, s)
    ensures Core(c, s) && Located(s, w)
  {
    w :| Located(s, w);
  }

  /** The objects taken off a span's chain, linked to those collected before. */
  lemma Spliced(mem: L.Memory, free: seq<Obj>, k: nat, got: seq<Obj>, x: Obj, mem': L.Memory)
    requires Linked(mem, free) && NoDup(free) && 0 < k <= |free| && Linked(mem, got)
    requires forall o :: o in free ==> o !in got
    requires x == free[k - 1] && mem' == mem[x := L.NULL][x := First(got)]
    ensures mem' == mem[x := First(got)]
    ensures Linked(mem', free[..k] + got) && Linked(mem', free[k..])
  {
    var mem1 := mem[x := L.NULL];
    L.ChainCut(mem, First(free), free, k);
    L.FirstOf(free, k);
    assert free == free[..k] + free[k..];
    NoDupConcat(free[..k], free[k..]);
    assert First(free[k..]) == L.Following(free, k - 1);
    ElsewhereLinked(mem, got, x, L.NULL);
    L.ChainJoin(mem1, First(free), free[..k], First(got), got);
    assert First(free[..k] + got) == First(free);
    ElsewhereLinked(mem1, free[k..], x, First(got));
  }

  /** An object put in front of a chain. */
  lemma Pushed(mem: L.Memory, x: Obj, chain: seq<Obj>)
    requires x != L.NULL && x !in chain && Linked(mem, chain)
    ensures Linked(mem[x := First(chain)], [x] + chain)
  {
    ElsewhereLinked(mem, chain, x, First(chain));
    L.ChainPush(mem[x := First(chain)], x, chain);
  }

  lemma TailLinked(mem: L.Memory, chain: seq<Obj>)
    requires Linked(mem, chain) && chain != []
    ensures Linked(mem, chain[1..]) && chain[0] != L.NULL
  {
    L.ChainTail(mem, chain[0], chain);
    assert L.Links(mem, chain[0], L.Following(chain, 0));
    assert First(chain[1..]) == L.Following(chain, 0);
  }

  /** What FetchFromOneSpans takes is linked in front of what there is; the rest of the span's chain stays linked. */
  lemma FetchLinked(c: Config, s: Sys, mem: L.Memory, t: nat, cl: nat, n: nat, got: seq<Obj>, heap: HeapAnswer,
                    s': Sys, mem': L.Memory)
    requires Shape(c, s) && Inv(c, s) && AllLinked(s, mem) && t < |s.pcs|
    requires s.pcs[t] == FetchHeld(cl, n, got, heap) && cl < |c.size|
    requires FetchStep(s, t, cl, n, got, heap) == Some(s') && Fetches(mem, s.lists[cl], s.spans, n, got, mem')
    ensures AllLinked(s', mem')
  {
    hide Linked, Inv, SlotsLinked, PcsLinked, SpansLinked, Fetch, ListedSpans;
    PcOfLinked(s, mem, t);
    NothingLinked(mem);
    ListMembers(c, s, cl);
    if |got| >= n || s.lists[cl].nonempty == [] {
      NothingFetched(s.lists[cl], s.spans, n - |got|);
      AfterMove(s, mem, t, s');
    } else {
      SomeFetched(c, s, mem, t, cl, n, got, heap, s', mem');
    }
  }

  lemma PcOfLinked(s: Sys, mem: L.Memory, t: nat)
    requires AllLinked(s, mem) && t < |s.pcs|
    ensures PcLinked(mem, s.pcs[t])
  {
    hide PcLinked;
  }

  lemma NothingFetched(l: FreeList, spans: map<SpanId, Span>, n: int)
    requires ListedSpans(l, spans) && (n > 0 ==> l.nonempty == [])
    ensures n > 0 ==> Fetch(l, spans, n).chain == []
  {}

  lemma SomeFetched(c: Config, s: Sys, mem: L.Memory, t: nat, cl: nat, n: nat, got: seq<Obj>, heap: HeapAnswer,
                    s': Sys, mem': L.Memory)
    requires Shape(c, s) && Inv(c, s) && AllLinked(s, mem) && t < |s.pcs|
    requires s.pcs[t] == FetchHeld(cl, n, got, heap) && cl < |c.size|
    requires |got| < n && s.lists[cl].nonempty != [] && ListedSpans(s.lists[cl], s.spans)
    requires FetchStep(s, t, cl, n, got, heap) == Some(s') && Fetches(mem, s.lists[cl], s.spans, n, got, mem')
    ensures AllLinked(s', mem')
  {
    hide Linked, PcLinked, Inv, SlotsLinked, PcsLinked, Fetch, Core, Located, Has, Fetches, FetchStep, Main, Beyond, Carved;
    PcOfLinked(s, mem, t);
    S.FetchTakes(s.lists[cl], s.spans, n - |got|);
    FetchedIs(s, mem, t, cl, n, got, heap, s', mem');
    var id, f := s.lists[cl].nonempty[0], Fetch(s.lists[cl], s.spans, n - |got|);
    var free, k := s.spans[id].free, |f.chain|;
    var x := free[k - 1];
    var w := CoreOf(c, s);
    FreeAndGot(c, s, w, t, cl, n, got, heap, id);
    FetchPcLinked(mem, cl, n, got, heap);
    Spliced(mem, free, k, got, x, mem');
    OthersKept(c, s, mem, w, FreeOf(id), x, First(got));
    NothingLinked(mem');
    FetchPcLinked(mem', cl, n, f.chain + got, heap);
    AfterWrite(s, mem', t, s', id);
  }

  lemma FetchPcLinked(mem: L.Memory, cl: nat, n: nat, got: seq<Obj>, heap: HeapAnswer)
    ensures PcLinked(mem, FetchHeld(cl, n, got, heap)) <==> Linked(mem, got)
  {}

  lemma FetchedIs(s: Sys, mem: L.Memory, t: nat, cl: nat, n: nat, got: seq<Obj>, heap: HeapAnswer, s': Sys, mem': L.Memory)
    requires t < |s.pcs| && cl < |s.lists| && cl < |s.locks|
    requires |got| < n && s.lists[cl].nonempty != [] && ListedSpans(s.lists[cl], s.spans)
    requires FetchStep(s, t, cl, n, got, heap) == Some(s') && Fetches(mem, s.lists[cl], s.spans, n, got, mem')
    ensures var f := Fetch(s.lists[cl], s.spans, n - |got|);
            && f.chain != []
            && s' == SetPc(s, t, FetchHeld(cl, n, f.chain + got, heap)).(lists := s.lists[cl := f.list], spans := f.spans)
            && mem' == mem[f.chain[|f.chain| - 1] := L.NULL][f.chain[|f.chain| - 1] := First(got)]
  {}

  lemma FreeAndGot(c: Config, s: Sys, w: map<Obj, Place>, t: nat, cl: nat, n: nat, got: seq<Obj>, heap: HeapAnswer,
                   id: SpanId)
    requires Core(c, s) && Located(s, w) && t < |s.pcs| && s.pcs[t] == FetchHeld(cl, n, got, heap) && id in s.spans
    ensures NoDup(s.spans[id].free)
    ensures forall o :: o in s.spans[id].free ==> o !in got && Has(s, FreeOf(id), o)
  {
    assert NoDup(At(s, FreeOf(id)));
    assert At(s, HeldBy(t)) == got;
    hide Core, Located, Carried;
    forall o | o in s.spans[id].free
      ensures o !in got
    {
      NotThere(s, w, FreeOf(id), o, HeldBy(t));
    }
  }

  /** One span's chain and the point of one thread are new; the others are linked as they were. */
  lemma AfterWrite(s: Sys, mem: L.Memory, t: nat, s': Sys, id: SpanId)
    requires t < |s.pcs| == |s'.pcs| && s'.pcs == s.pcs[t := s'.pcs[t]] && PcLinked(mem, s'.pcs[t])
    requires forall u :: 0 <= u < |s.pcs| && u != t ==> PcLinked(mem, s.pcs[u])
    requires forall i :: i in s'.spans ==>
               if i == id then Linked(mem, s'.spans[i].free) else i in s.spans && s'.spans[i] == s.spans[i]
    requires forall i :: i in s.spans && i != id ==> Linked(mem, s.spans[i].free)
    requires SlotsLinked(mem, s.lists) && |s'.lists| == |s.lists|
    requires forall k :: 0 <= k < |s.lists| ==> s'.lists[k].slots == s.lists[k].slots
    ensures AllLinked(s', mem)
  {
    hide PcLinked, Linked;
  }

  /** ReleaseToSpans: the object is linked in front of its span's chain, and the rest of the thread's stays linked. */
  lemma ReleaseLinked(c: Config, s: Sys, mem: L.Memory, t: nat, at: nat, rest: seq<Obj>, next: After,
                      s': Sys, mem': L.Memory)
    requires Shape(c, s) && Inv(c, s) && AllLinked(s, mem) && t < |s.pcs| && s.pcs[t] == ReleaseHeld(at, rest, next)
    requires at < |c.size| && ReleaseStep(c, s, t, at, rest, next) == Some(s') && Releases(s, mem, rest, mem')
    ensures AllLinked(s', mem')
  {
    hide Linked, Inv, SlotsLinked, SpansLinked;
    PcOfLinked(s, mem, t);
    NothingLinked(mem);
    if rest == [] {
      AfterMove(s, mem, t, s');
    } else {
      ReleasedIsInClass(c, s, t, at, rest, next);
      if s.spans[s.pagemap[rest[0]]].refcount == 1 {
        GoneLinked(c, s, mem, t, at, rest, next, s');
      } else {
        GivenLinked(c, s, mem, t, at, rest, next, s', mem');
      }
    }
  }

  lemma GoneLinked(c: Config, s: Sys, mem: L.Memory, t: nat, at: nat, rest: seq<Obj>, next: After, s': Sys)
    requires Shape(c, s) && AllLinked(s, mem) && t < |s.pcs| && s.pcs[t] == ReleaseHeld(at, rest, next)
    requires at < |c.size| && rest != [] && Owned(s, rest[0]) && s.spans[s.pagemap[rest[0]]].refcount == 1
    requires ReleaseStep(c, s, t, at, rest, next) == Some(s')
    ensures AllLinked(s', mem)
  {
    hide Linked, Without;
    PcOfLinked(s, mem, t);
    NothingLinked(mem);
    TailLinked(mem, rest);
    SlotsAfter(mem, s.lists, at, s'.lists[at]);
    AfterMove(s, mem, t, s');
  }

  lemma GivenLinked(c: Config, s: Sys, mem: L.Memory, t: nat, at: nat, rest: seq<Obj>, next: After,
                      s': Sys, mem': L.Memory)
    requires Shape(c, s) && Inv(c, s) && AllLinked(s, mem) && t < |s.pcs| && s.pcs[t] == ReleaseHeld(at, rest, next)
    requires at < |c.size| && rest != [] && Owned(s, rest[0]) && s.spans[s.pagemap[rest[0]]].refcount != 1
    requires ReleaseStep(c, s, t, at, rest, next) == Some(s') && Releases(s, mem, rest, mem')
    ensures AllLinked(s', mem')
  {
    hide Linked, Inv, Core, Located, Without, SlotsLinked;
    var x, id := rest[0], s.pagemap[rest[0]];
    var free := s.spans[id].free;
    var w := CoreOf(c, s);
    PcOfLinked(s, mem, t);
    assert Linked(mem, free);
    TailLinked(mem, rest);
    FirstApart(c, s, w, t, at, rest, next, id);
    Pushed(mem, x, free);
    ElsewhereLinked(mem, rest[1..], x, First(free));
    ElsewhereLinked(mem, Kept(next), x, First(free));
    OthersKept(c, s, mem, w, HeldBy(t), x, First(free));
    NothingLinked(mem');
    AfterWrite(s, mem', t, s', id);
  }

  lemma FirstApart(c: Config, s: Sys, w: map<Obj, Place>, t: nat, at: nat, rest: seq<Obj>, next: After, id: SpanId)
    requires Core(c, s) && Located(s, w) && t < |s.pcs| && s.pcs[t] == ReleaseHeld(at, rest, next) && rest != []
    requires id in s.spans
    ensures Has(s, HeldBy(t), rest[0])
    ensures rest[0] !in rest[1..] && rest[0] !in Kept(next) && rest[0] !in s.spans[id].free
  {
    var tail := rest[1..] + Kept(next);
    R.ReleaseHeldFacts(at, rest, next);
    assert Carried(s.pcs[t]) == [rest[0]] + tail;
    R.HeadCarried(s, t, rest[0], tail, w);
    assert forall o :: o in rest[1..] || o in Kept(next) ==> o in tail;
    hide Core, At, Carried, Main, Beyond;
  }

  /** Populate writes only in bytes no span has. */
  lemma PopulateLinked(c: Config, s: Sys, mem: L.Memory, t: nat, ch: Choice, s': Sys, mem': L.Memory)
    requires Shape(c, s) && Inv(c, s) && AllLinked(s, mem) && t < c.threads && s.pcs[t].PopulateHeld?
    requires ClassesInRange(c, s.pcs[t]) && Step(c, s, t, ch) == Some(s') && Effect(c, s, mem, t, ch, mem')
    ensures AllLinked(s', mem')
  {
    hide Linked, Inv, AllLinked, SlotsLinked, SpansLinked, PcsLinked;
    forall o | Ours(s, o)
      ensures Keeps(mem, mem', o)
    {}
    ForeignKeeps(c, s, mem, mem');
    NothingLinked(mem');
    PartsLinked(s, mem');
    AfterMove(s, mem', t, s');
  }

  lemma PartsLinked(s: Sys, mem: L.Memory)
    requires AllLinked(s, mem)
    ensures SpansLinked(mem, s.spans) && SlotsLinked(mem, s.lists) && PcsLinked(mem, s.pcs)
  {}

  // ---------------------------------------------------------------- runs

  /** Every transition, and every write of the program to its own objects, leaves all chains linked. */
  lemma EventLinked(c: Config, a: World, e: Event, b: World)
    requires Inv(c, a.sys) && AllLinked(a.sys, a.mem) && Happens(c, a, e, b)
    ensures AllLinked(b.sys, b.mem)
  {
    hide Inv, AllLinked, Step, Fetches, Releases;
    match e {
      case ProgramWrites => ForeignKeeps(c, a.sys, a.mem, b.mem);
      case Moves(t, ch) =>
        var pc := a.sys.pcs[t];
        if Inserting(pc) {
          InsertingLinked(c, a.sys, a.mem, t, ch, b.sys);
        } else if !Writing(pc) {
          OtherLinked(c, a.sys, a.mem, t, ch, b.sys);
        } else if pc.FetchHeld? {
          StepFetches(c, a.sys, t, ch);
          FetchLinked(c, a.sys, a.mem, t, pc.cl, pc.n, pc.got, pc.heap, b.sys, b.mem);
        } else if pc.ReleaseHeld? {
          StepReleases(c, a.sys, t, ch);
          ReleaseLinked(c, a.sys, a.mem, t, pc.at, pc.rest, pc.next, b.sys, b.mem);
        } else {
          PopulateLinked(c, a.sys, a.mem, t, ch, b.sys, b.mem);
        }
    }
  }

  lemma StepFetches(c: Config, s: Sys, t: nat, ch: Choice)
    requires Shape(c, s) && t < c.threads && ClassesInRange(c, s.pcs[t]) && s.pcs[t].FetchHeld?
    ensures Step(c, s, t, ch) == FetchStep(s, t, s.pcs[t].cl, s.pcs[t].n, s.pcs[t].got, s.pcs[t].heap)
  {
    hide FetchStep;
  }

  lemma StepReleases(c: Config, s: Sys, t: nat, ch: Choice)
    requires Shape(c, s) && t < c.threads && ClassesInRange(c, s.pcs[t]) && s.pcs[t].ReleaseHeld?
    ensures Step(c, s, t, ch) == ReleaseStep(c, s, t, s.pcs[t].at, s.pcs[t].rest, s.pcs[t].next)
  {
    hide ReleaseStep;
  }

  lemma StepReaches(c: Config, s: Sys, t: nat, ch: Choice)
    requires c.Good() && Reachable(c, s) && Shape(c, s) && t < c.threads && ClassesInRange(c, s.pcs[t])
    requires Step(c, s, t, ch).Some?
    ensures Reachable(c, Step(c, s, t, ch).value)
  {
    hide Step;
    var schedule :| s == Run(c, schedule);
    var longer := schedule + [(t, ch)];
    assert longer[..|longer| - 1] == schedule;
    assert Step(c, s, t, ch).value == Run(c, longer);
  }

  lemma StartLinked(c: Config, mem: L.Memory)
    requires c.Good()
    ensures AllLinked(Start(c), mem)
  {
    NothingLinked(mem);
    hide Linked, InitialCacheSize;
    assert forall cl :: 0 <= cl < |Start(c).lists| ==> Start(c).lists[cl].slots == [];
  }

  /** In every run, at every moment, each span's free chain, each transfer-cache entry and each chain a thread
      carries through the lists is linked from its first object to its last, which is linked to NULL. */
  lemma {:induction false} RunLinked(c: Config, worlds: seq<World>, events: seq<Event>, k: nat)
    requires c.Good() && IsRun(c, worlds, events) && k <= |events|
    ensures Reachable(c, worlds[k].sys) && AllLinked(worlds[k].sys, worlds[k].mem)
  {
    hide AllLinked, Run, Inv;
    if k == 0 {
      StartLinked(c, worlds[0].mem);
      assert worlds[0].sys == Run(c, []) by { RunOfNothing(c); }
    } else {
      RunLinked(c, worlds, events, k - 1);
      var a, e, b := worlds[k - 1], events[k - 1], worlds[k];
      assert Happens(c, a, e, b);
      ReachableInv(c, a.sys);
      EventLinked(c, a, e, b);
      hide Step, Reachable, Effect;
      if e.Moves? {
        StepReaches(c, a.sys, e.t, e.ch);
      }
    }
  }

  lemma RunOfNothing(c: Config)
    requires c.Good()
    ensures Run(c, []) == Start(c)
  {}

  /** What RemoveRange hands out: distinct objects, linked from the first to NULL behind the last. */
  ghost predicate HandsOut(c: Config, a: World, b: World, cl: nat, n: nat, chain: seq<Obj>) {
    Delivered(c, a.sys, b.sys, cl, n, chain) && Linked(b.mem, chain)
  }

  ghost predicate Returns(c: Config, a: World, b: World, t: nat, cl: nat, n: nat)
    requires t < |a.sys.pcs|
  {
    exists chain :: HandsOut(c, a, b, cl, n, chain)
              && (chain == [] ==> a.sys.pcs[t].FetchHeld? && a.sys.pcs[t].heap == Refused)
  }

  /** In every run RemoveRange returns a NULL-terminated chain of distinct objects of the class that no thread had;
      it is shorter than asked only if no span has a free object left, and empty only if the page heap refused. */
  lemma ReturnsChain(c: Config, worlds: seq<World>, events: seq<Event>, k: nat, t: nat, ch: Choice, cl: nat, n: nat)
    requires c.Good() && IsRun(c, worlds, events) && k < |events| && events[k] == Moves(t, ch)
    requires var pcs := worlds[k].sys.pcs;
             t < |pcs| && (pcs[t].RemoveHeld? || pcs[t].FetchHeld?) && pcs[t].cl == cl && pcs[t].n == n
    requires t < |worlds[k + 1].sys.pcs| && worlds[k + 1].sys.pcs[t] == Idle
    ensures Returns(c, worlds[k], worlds[k + 1], t, cl, n)
  {
    hide Reachable, AllLinked, Inv, HandsOut;
    var a, b := worlds[k], worlds[k + 1];
    assert Happens(c, a, events[k], b);
    RunLinked(c, worlds, events, k);
    ReachableInv(c, a.sys);
    ReachableServed(c, a.sys);
    hide IsRun, Step, Effect, Served;
    EventReturns(c, a, t, ch, b, cl, n);
  }

  lemma EventReturns(c: Config, a: World, t: nat, ch: Choice, b: World, cl: nat, n: nat)
    requires Inv(c, a.sys) && Served(a.sys) && AllLinked(a.sys, a.mem) && Happens(c, a, Moves(t, ch), b)
    requires var pc := a.sys.pcs[t]; (pc.RemoveHeld? || pc.FetchHeld?) && pc.cl == cl && pc.n == n
    requires t < |b.sys.pcs| && b.sys.pcs[t] == Idle
    ensures Returns(c, a, b, t, cl, n)
  {
    hide AllLinked, Inv, Delivered, Linked, Served, Fetches, FetchStep, Remove;
    var pc := a.sys.pcs[t];
    PcOfLinked(a.sys, a.mem, t);
    if pc.RemoveHeld? {
      CachedDelivery(c, a.sys, b.sys, t, cl, n);
      var chain := a.sys.lists[cl].slots[|a.sys.lists[cl].slots| - 1];
      SlotLinked(a.sys, a.mem, cl, |a.sys.lists[cl].slots| - 1);
      assert HandsOut(c, a, b, cl, n, chain);
    } else {
      CollectedDelivery(c, a.sys, b.sys, t, cl, n, pc.got, pc.heap);
      ListMembers(c, a.sys, cl);
      DeliveryWritesNothing(a.sys, a.mem, t, cl, n, pc.got, pc.heap, b.sys, b.mem);
      assert HandsOut(c, a, b, cl, n, pc.got);
    }
  }

  lemma SlotLinked(s: Sys, mem: L.Memory, cl: nat, i: nat)
    requires AllLinked(s, mem) && cl < |s.lists| && i < |s.lists[cl].slots|
    ensures Linked(mem, s.lists[cl].slots[i])
  {
    hide Linked;
  }

  lemma DeliveryWritesNothing(s: Sys, mem: L.Memory, t: nat, cl: nat, n: nat, got: seq<Obj>, heap: HeapAnswer,
                              s': Sys, mem': L.Memory)
    requires t < |s.pcs| && cl < |s.lists| && cl < |s.locks| && ListedSpans(s.lists[cl], s.spans)
    requires FetchStep(s, t, cl, n, got, heap) == Some(s') && t < |s'.pcs| && s'.pcs[t] == Idle
    requires Fetches(mem, s.lists[cl], s.spans, n, got, mem')
    ensures mem' == mem
  {
    if |got| < n {
      FetchEmptyIff(s.lists[cl], s.spans, n - |got|);
    }
  }

  /** The memory blocks no transition: there are always words it can write as required. */
  lemma MemoryFollows(c: Config, s: Sys, mem: L.Memory, t: nat, ch: Choice) returns (mem': L.Memory)
    requires Inv(c, s) && t < c.threads && Shape(c, s) && ClassesInRange(c, s.pcs[t]) && Step(c, s, t, ch).Some?
    requires s.pcs[t].Idle? && ch.CallInsert? ==> Linked(mem, ch.chain)
    requires s.pcs[t].PopulateHeld? && ch.NewSpan? ==> ch.start != L.NULL
    ensures Effect(c, s, mem, t, ch, mem')
  {
    hide Step, Linked, Inv, Fetches, Carve;
    var pc := s.pcs[t];
    mem' := mem;
    if pc.FetchHeld? {
      mem' := FetchesSome(c, s, mem, pc.cl, pc.n, pc.got);
    } else if pc.ReleaseHeld? {
      var rest := pc.rest;
      if rest != [] && Owned(s, rest[0]) && s.spans[s.pagemap[rest[0]]].refcount != 1 {
        mem' := mem[rest[0] := First(s.spans[s.pagemap[rest[0]]].free)];
      }
    } else if pc.PopulateHeld? && ch.NewSpan? {
      CarveNoNull(ch.start, c.size[pc.cl], c.Capacity(pc.cl));
      mem' := Threading(mem, Carve(ch.start, c.size[pc.cl], c.Capacity(pc.cl)));
    }
  }

  lemma CarveNoNull(start: Obj, size: nat, n: nat)
    requires start != L.NULL && size >= 1
    ensures NoDup(Carve(start, size, n)) && L.NULL !in Carve(start, size, n)
  {
    CarveNoDup(start, size, n);
  }

  lemma FetchesSome(c: Config, s: Sys, mem: L.Memory, cl: nat, n: nat, got: seq<Obj>) returns (mem': L.Memory)
    requires Inv(c, s) && cl < |c.size| && cl < |s.lists|
    ensures Fetches(mem, s.lists[cl], s.spans, n, got, mem')
  {
    hide Inv, Fetch;
    ListMembers(c, s, cl);
    var l := s.lists[cl];
    mem' := mem;
    if |got| < n && l.nonempty != [] {
      FetchEmptyIff(l, s.spans, n - |got|);
      var chain := Fetch(l, s.spans, n - |got|).chain;
      mem' := mem[chain[|chain| - 1] := L.NULL][chain[|chain| - 1] := First(got)];
    }
  }

  lemma {:induction false} Threading(mem: L.Memory, pieces: seq<Obj>) returns (mem': L.Memory)
    requires NoDup(pieces) && L.NULL !in pieces
    ensures Linked(mem', pieces) && L.OnlyPieces(mem, mem', pieces)
  {
    if pieces == [] {
      mem' := mem;
    } else {
      var x, rest := pieces[0], pieces[1..];
      assert pieces == [x] + rest;
      NoDupPush(x, rest);
      var mem1 := Threading(mem, rest);
      Pushed(mem1, x, rest);
      mem' := mem1[x := First(rest)];
      assert forall o :: o !in pieces ==> o !in rest && o != x;
    }
  }
}
