/** What every interleaving of the transitions of CentralModel keeps. */
module CentralInvariant {
  import opened Options
  import opened Seqs
  import opened CentralModel

  // ---------------------------------------------------------------- locks

  datatype Held = NoLock | ClassLock(cl: nat) | HeapLock

  /** The lock a thread holds at a point of its program. */
  function HeldLock(pc: Pc): Held {
    match pc
    case InsertHeld(cl, _) => ClassLock(cl)
    case EvictHeld(cl, _, _) => ClassLock(cl)
    case ShrinkHeld(_, _, _, v) => ClassLock(v)
    case ReturnHeld(cl, _, _, _) => ClassLock(cl)
    case ReleaseHeld(at, _, _) => ClassLock(at)
    case DeleteHeld(_, _, _, _, _) => HeapLock
    case RemoveHeld(cl, _) => ClassLock(cl)
    case FetchHeld(cl, _, _, _) => ClassLock(cl)
    case PopulateHeld(_, _) => HeapLock
    case LinkHeld(cl, _, _, _) => ClassLock(cl)
    case _ => NoLock
  }

  ghost predicate LocksOk(s: Sys) {
    && (forall cl, t :: 0 <= cl < |s.locks| && 0 <= t < |s.pcs| ==>
          (s.locks[cl] == Some(t) <==> HeldLock(s.pcs[t]) == ClassLock(cl)))
    && (forall t :: 0 <= t < |s.pcs| ==> (s.heapLock == Some(t) <==> HeldLock(s.pcs[t]) == HeapLock))
    && (forall cl :: 0 <= cl < |s.locks| && s.locks[cl].Some? ==> s.locks[cl].value < |s.pcs|)
    && (s.heapLock.Some? ==> s.heapLock.value < |s.pcs|)
  }

  // ---------------------------------------------------------------- lists and spans

  ghost predicate SpanOk(c: Config, pagemap: map<Obj, SpanId>, id: SpanId, sp: Span)
    requires c.Good()
  {
    && 1 <= sp.cls < |c.size|
    && sp.all == Carve(id, c.size[sp.cls], c.Capacity(sp.cls))
    && NoDup(sp.all)
    && NoDup(sp.free)
    && (forall o :: o in sp.free ==> o in sp.all)
    && |sp.free| + sp.refcount == |sp.all|
    && (forall o :: o in sp.all <==> o in pagemap && pagemap[o] == id)
  }

  /** Every span the page heap has out is found from its own first address. */
  ghost predicate PagemapOk(s: Sys) {
    forall id :: id in s.pagemap.Values ==> id in s.pagemap && s.pagemap[id] == id
  }

  ghost predicate SpansOk(c: Config, s: Sys)
    requires c.Good()
  {
    forall id :: id in s.spans ==> SpanOk(c, s.pagemap, id, s.spans[id])
  }

  /** Number of objects on the free chains of the spans `ids`. */
  ghost function FreeTotal(ids: seq<SpanId>, spans: map<SpanId, Span>): nat
    requires forall id :: id in ids ==> id in spans
  {
    if ids == [] then 0 else |spans[ids[0]].free| + FreeTotal(ids[1..], spans)
  }

  ghost predicate ListOk(c: Config, cl: nat, l: FreeList, spans: map<SpanId, Span>)
    requires c.Good() && cl < |c.size|
  {
    && NoDup(l.nonempty) && NoDup(l.empty)
    && (forall id :: id in l.nonempty <==> id in spans && spans[id].cls == cl && spans[id].free != [])
    && (forall id :: id in l.empty <==> id in spans && spans[id].cls == cl && spans[id].free == [])
    && l.numSpans == |l.nonempty| + |l.empty|
    && l.counter == FreeTotal(l.nonempty, spans)
    && |l.slots| <= l.cacheSize <= MaxCacheSize(c, cl)
    && (forall i :: 0 <= i < |l.slots| ==> |l.slots[i]| == c.batch[cl])
  }

  ghost predicate ListsOk(c: Config, s: Sys)
    requires Shape(c, s)
  {
    forall cl :: 0 <= cl < |s.lists| ==> ListOk(c, cl, s.lists[cl], s.spans)
  }

  // ---------------------------------------------------------------- where objects are

  datatype Place = FreeOf(id: SpanId) | Cached(cl: nat, slot: nat) | HeldBy(t: nat) | Out

  /** The chain a thread is working on between transitions ... */
  function Main(pc: Pc): seq<Obj> {
    match pc
    case InsertWait(_, chain) => chain
    case InsertHeld(_, chain) => chain
    case EvictHeld(_, chain, _) => chain
    case ShrinkWait(_, chain, _, _) => chain
    case ShrinkHeld(_, chain, _, _) => chain
    case ReturnWait(_, chain, _, _) => chain
    case ReturnHeld(_, chain, _, _) => chain
    case ReleaseHeld(_, rest, _) => rest
    case DeleteWait(_, rest, _, _, _) => rest
    case DeleteHeld(_, rest, _, _, _) => rest
    case ReleaseWait(_, rest, _) => rest
    case FetchHeld(_, _, got, _) => got
    case _ => []
  }

  /** ... the class its objects belong to ... */
  function MainClass(pc: Pc): nat {
    match pc
    case InsertWait(cl, _) => cl
    case InsertHeld(cl, _) => cl
    case EvictHeld(cl, _, _) => cl
    case ShrinkWait(cl, _, _, _) => cl
    case ShrinkHeld(cl, _, _, _) => cl
    case ReturnWait(cl, _, _, _) => cl
    case ReturnHeld(cl, _, _, _) => cl
    case ReleaseHeld(at, _, _) => at
    case DeleteWait(at, _, _, _, _) => at
    case DeleteHeld(at, _, _, _, _) => at
    case ReleaseWait(at, _, _) => at
    case FetchHeld(cl, _, _, _) => cl
    case _ => 0
  }

  /** ... and what it comes back to after releasing another class's chain. */
  function Beyond(pc: Pc): After {
    match pc
    case ReleaseHeld(_, _, next) => next
    case DeleteWait(_, _, next, _, _) => next
    case DeleteHeld(_, _, next, _, _) => next
    case ReleaseWait(_, _, next) => next
    case _ => Return
  }

  function Kept(next: After): seq<Obj> {
    if next.Return? then [] else next.chain
  }

  function KeptClass(next: After): nat {
    if next.Return? then 0 else next.cl
  }

  /** All objects a thread carries. */
  function Carried(pc: Pc): seq<Obj> {
    Main(pc) + Kept(Beyond(pc))
  }

  /** The chain kept at a place; the handed-out objects are no chain but the set `out`. */
  function At(s: Sys, p: Place): seq<Obj> {
    match p
    case FreeOf(id) => if id in s.spans then s.spans[id].free else []
    case Cached(cl, i) => if cl < |s.lists| && i < |s.lists[cl].slots| then s.lists[cl].slots[i] else []
    case HeldBy(t) => if t < |s.pcs| then Carried(s.pcs[t]) else []
    case Out => []
  }

  ghost predicate Owned(s: Sys, o: Obj) {
    o in s.pagemap && s.pagemap[o] in s.spans
  }

  ghost predicate Has(s: Sys, p: Place, o: Obj)
    ensures Has(s, p, o) ==> p != Out
  {
    p != Out && o in At(s, p)
  }

  /** `w` tells of each object of each owned span the one place where it is. */
  ghost predicate Located(s: Sys, w: map<Obj, Place>) {
    && (forall o :: o in w <==> Owned(s, o))
    && (forall p, o :: Has(s, p, o) ==> o in w && w[o] == p)
    && (forall o :: o in w && w[o] != Out ==> Has(s, w[o], o))
    && (forall o :: o in s.out <==> o in w && w[o] == Out)
  }

  ghost predicate ChainsNoDup(s: Sys) {
    forall p :: NoDup(At(s, p))
  }

  ghost predicate InClass(s: Sys, o: Obj, cl: nat) {
    Owned(s, o) && s.spans[s.pagemap[o]].cls == cl
  }

  ghost predicate AllInClass(s: Sys, chain: seq<Obj>, cl: nat) {
    forall o :: o in chain ==> InClass(s, o, cl)
  }

  ghost predicate SlotsInClass(s: Sys) {
    forall cl, i :: 0 <= cl < |s.lists| && 0 <= i < |s.lists[cl].slots| ==> AllInClass(s, s.lists[cl].slots[i], cl)
  }

  // ---------------------------------------------------------------- threads

  /** The span a thread has taken off its list, or not yet put on it. */
  function Private(pc: Pc): Option<(SpanId, Span)> {
    match pc
    case DeleteWait(_, _, _, id, sp) => Some((id, sp))
    case DeleteHeld(_, _, _, id, sp) => Some((id, sp))
    case LinkWait(_, _, id, Some(sp)) => Some((id, sp))
    case LinkHeld(_, _, id, Some(sp)) => Some((id, sp))
    case _ => None
  }

  ghost predicate PrivateOk(c: Config, s: Sys, pc: Pc)
    requires c.Good()
  {
    Private(pc).Some? ==>
      var (id, sp) := Private(pc).value;
      && id !in s.spans
      && SpanOk(c, s.pagemap, id, sp)
      && ((pc.LinkWait? || pc.LinkHeld?) ==> sp.free == sp.all && sp.refcount == 0 && sp.cls == pc.cl)
  }

  /** A chain that is offered to a transfer cache has the length of a full transfer. */
  ghost predicate LengthsOk(c: Config, pc: Pc)
    requires c.Good() && ClassesInRange(c, pc)
  {
    && (Beyond(pc).BackTo? ==>
          1 <= Beyond(pc).cl < |c.size| && |Beyond(pc).chain| == c.batch[Beyond(pc).cl])
    && match pc
       case EvictHeld(cl, chain, _) => |chain| == c.batch[cl]
       case ShrinkWait(cl, chain, _, _) => |chain| == c.batch[cl]
       case ShrinkHeld(cl, chain, _, _) => |chain| == c.batch[cl]
       case ReturnWait(cl, chain, _, _) => |chain| == c.batch[cl]
       case ReturnHeld(cl, chain, _, _) => |chain| == c.batch[cl]
       case RemoveWait(_, n) => n > 0
       case RemoveHeld(_, n) => n > 0
       case FetchHeld(_, n, got, _) => |got| <= n && n > 0
       case PopulateWait(_, n) => n > 0
       case PopulateHeld(_, n) => n > 0
       case LinkWait(_, n, _, _) => n > 0
       case LinkHeld(_, n, _, _) => n > 0
       case _ => true
  }

  ghost predicate PcOk(c: Config, s: Sys, pc: Pc)
    requires c.Good()
  {
    && ClassesInRange(c, pc)
    && LengthsOk(c, pc)
    && AllInClass(s, Main(pc), MainClass(pc))
    && AllInClass(s, Kept(Beyond(pc)), KeptClass(Beyond(pc)))
    && PrivateOk(c, s, pc)
  }

  ghost predicate PcsOk(c: Config, s: Sys)
    requires c.Good()
  {
    && (forall t :: 0 <= t < |s.pcs| ==> PcOk(c, s, s.pcs[t]))
    && (forall t, u :: 0 <= t < u < |s.pcs| && Private(s.pcs[t]).Some? && Private(s.pcs[u]).Some? ==>
          Private(s.pcs[t]).value.0 != Private(s.pcs[u]).value.0)
  }

  // ---------------------------------------------------------------- the slot budget

  /** Slots a thread has taken from one class and not yet given to another. */
  function InFlight(pc: Pc): nat {
    match pc
    case ReturnWait(_, _, _, won) => if won then 1 else 0
    case ReturnHeld(_, _, _, won) => if won then 1 else 0
    case _ => if Beyond(pc).BackTo? then 1 else 0
  }

  function SlotsOf(lists: seq<FreeList>): int {
    if lists == [] then 0 else lists[0].cacheSize + SlotsOf(lists[1..])
  }

  function SlotsInFlight(pcs: seq<Pc>): nat {
    if pcs == [] then 0 else InFlight(pcs[0]) + SlotsInFlight(pcs[1..])
  }

  function InitialSlots(c: Config, n: nat): int
    requires c.Good() && n <= |c.size|
  {
    if n == 0 then 0 else InitialSlots(c, n - 1) + InitialCacheSize(c, n - 1)
  }

  ghost predicate BudgetOk(c: Config, s: Sys)
    requires Shape(c, s)
  {
    SlotsOf(s.lists) + SlotsInFlight(s.pcs) <= InitialSlots(c, |c.size|)
  }

  // ---------------------------------------------------------------- the whole

  ghost predicate Core(c: Config, s: Sys) {
    && Shape(c, s)
    && LocksOk(s)
    && PagemapOk(s)
    && SpansOk(c, s)
    && ListsOk(c, s)
    && ChainsNoDup(s)
    && SlotsInClass(s)
    && PcsOk(c, s)
    && BudgetOk(c, s)
  }

  ghost predicate Inv(c: Config, s: Sys) {
    Core(c, s) && exists w :: Located(s, w)
  }

  // ---------------------------------------------------------------- helper lemmas

  lemma {:induction false} SlotsOfUpdate(lists: seq<FreeList>, i: nat, l: FreeList)
    requires i < |lists|
    ensures SlotsOf(lists[i := l]) == SlotsOf(lists) - lists[i].cacheSize + l.cacheSize
  {
    if i > 0 {
      SlotsOfUpdate(lists[1..], i - 1, l);
      assert lists[i := l][1..] == lists[1..][i - 1 := l];
    } else {
      assert lists[0 := l][1..] == lists[1..];
    }
  }

  lemma {:induction false} InFlightUpdate(pcs: seq<Pc>, t: nat, pc: Pc)
    requires t < |pcs|
    ensures SlotsInFlight(pcs[t := pc]) == SlotsInFlight(pcs) - InFlight(pcs[t]) + InFlight(pc)
  {
    if t > 0 {
      InFlightUpdate(pcs[1..], t - 1, pc);
      assert pcs[t := pc][1..] == pcs[1..][t - 1 := pc];
    } else {
      assert pcs[0 := pc][1..] == pcs[1..];
    }
  }

  lemma {:induction false} FreeTotalFrame(ids: seq<SpanId>, a: map<SpanId, Span>, b: map<SpanId, Span>)
    requires forall id :: id in ids ==> id in a && id in b && |a[id].free| == |b[id].free|
    ensures FreeTotal(ids, a) == FreeTotal(ids, b)
  {
    if ids != [] {
      FreeTotalFrame(ids[1..], a, b);
    }
  }

  lemma {:induction false} FreeTotalWithout(ids: seq<SpanId>, id: SpanId, spans: map<SpanId, Span>)
    requires NoDup(ids) && id in ids
    requires forall i :: i in ids ==> i in spans
    ensures forall i :: i in Without(ids, id) ==> i in spans
    ensures FreeTotal(ids, spans) == |spans[id].free| + FreeTotal(Without(ids, id), spans)
  {
    WithoutElems(ids, id);
    if ids[0] != id {
      FreeTotalWithout(ids[1..], id, spans);
      assert Without(ids, id) == [ids[0]] + Without(ids[1..], id);
      assert Without(ids, id)[1..] == Without(ids[1..], id);
    } else {
      assert Without(ids, id) == ids[1..];
    }
  }

  /** Other spans of the class keep the total when one span, not among `ids`, changes. */
  lemma ListFrame(c: Config, cl: nat, l: FreeList, a: map<SpanId, Span>, b: map<SpanId, Span>, id: SpanId)
    requires c.Good() && cl < |c.size| && ListOk(c, cl, l, a)
    requires forall i :: i != id ==> (i in a <==> i in b) && (i in a ==> a[i] == b[i])
    requires id in a ==> a[id].cls != cl
    requires id in b ==> b[id].cls != cl
    ensures ListOk(c, cl, l, b)
  {
    forall i | i in l.nonempty
      ensures i in b && a[i] == b[i]
    {
      assert i != id;
    }
    FreeTotalFrame(l.nonempty, a, b);
  }

  /** Moving the chain `moved` to the place `q` gives a located state again. */
  lemma Relocate(s: Sys, s': Sys, w: map<Obj, Place>, moved: seq<Obj>, q: Place) returns (w': map<Obj, Place>)
    requires Located(s, w)
    requires forall o :: Owned(s', o) <==> Owned(s, o)
    requires forall o :: o in moved ==> o in w
    requires forall p, o :: p != Out ==> (Has(s', p, o) <==> if o in moved then p == q else Has(s, p, o))
    requires forall o :: o in s'.out <==> if o in moved then q == Out else o in s.out
    ensures Located(s', w')
    ensures w' == map o | o in w :: if o in moved then q else w[o]
  {
    hide Has, Owned;
    w' := map o | o in w :: if o in moved then q else w[o];
  }
}
