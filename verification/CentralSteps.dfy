/** Each transition of CentralModel keeps the invariant. */
module CentralSteps {
  import opened Options
  import opened Seqs
  import opened CentralModel
  import opened CentralInvariant

  // ---------------------------------------------------------------- frames

  ghost predicate ClassKept(s: Sys, s': Sys, o: Obj) {
    forall cl :: InClass(s, o, cl) ==> InClass(s', o, cl)
  }

  lemma ChainFrame(s: Sys, s': Sys, chain: seq<Obj>, cl: nat)
    requires AllInClass(s, chain, cl)
    requires forall o :: o in chain ==> ClassKept(s, s', o)
    ensures AllInClass(s', chain, cl)
  {
    forall o | o in chain
      ensures InClass(s', o, cl)
    {
      assert ClassKept(s, s', o);
    }
  }

  lemma PcFrame(c: Config, s: Sys, s': Sys, pc: Pc)
    requires c.Good() && PcOk(c, s, pc)
    requires forall o :: o in Main(pc) ==> ClassKept(s, s', o)
    requires forall o :: o in Kept(Beyond(pc)) ==> ClassKept(s, s', o)
    requires PrivateOk(c, s', pc)
    ensures PcOk(c, s', pc)
  {
    ChainFrame(s, s', Main(pc), MainClass(pc));
    ChainFrame(s, s', Kept(Beyond(pc)), KeptClass(Beyond(pc)));
  }

  /** The locks after thread `t` acted: it kept what it held, took a free lock, or let one go. */
  lemma LocksKeep(s: Sys, s': Sys, t: nat)
    requires LocksOk(s) && t < |s.pcs| == |s'.pcs| && |s.locks| == |s'.locks|
    requires s'.pcs == s.pcs[t := s'.pcs[t]]
    requires
      var a, b := HeldLock(s.pcs[t]), HeldLock(s'.pcs[t]);
      || (a == b && s'.locks == s.locks && s'.heapLock == s.heapLock)
      || (a.ClassLock? && a.cl < |s.locks| && b == NoLock
          && s'.locks == s.locks[a.cl := None] && s'.heapLock == s.heapLock)
      || (a == NoLock && b.ClassLock? && b.cl < |s.locks| && s.locks[b.cl] == None
          && s'.locks == s.locks[b.cl := Some(t)] && s'.heapLock == s.heapLock)
      || (a == HeapLock && b == NoLock && s'.locks == s.locks && s'.heapLock == None)
      || (a == NoLock && b == HeapLock && s.heapLock == None && s'.locks == s.locks && s'.heapLock == Some(t))
    ensures LocksOk(s')
  {
    forall u | 0 <= u < |s.pcs| && u != t
      ensures s'.pcs[u] == s.pcs[u]
    {}
  }

  /** The private spans stay apart when thread `t` keeps its own, drops it, or has a new one. */
  ghost predicate PrivateApart(s: Sys, s': Sys, t: nat)
    requires t < |s.pcs| == |s'.pcs|
  {
    Private(s'.pcs[t]).Some? && Private(s'.pcs[t]) != Private(s.pcs[t]) ==>
      forall u :: 0 <= u < |s.pcs| && u != t && Private(s.pcs[u]).Some? ==>
        Private(s.pcs[u]).value.0 != Private(s'.pcs[t]).value.0
  }

  /** The other threads' points stay good when what they carry keeps its class. */
  lemma PcsKeep(c: Config, s: Sys, s': Sys, t: nat)
    requires c.Good() && PcsOk(c, s)
    requires t < |s.pcs| == |s'.pcs| && s'.pcs == s.pcs[t := s'.pcs[t]]
    requires PcOk(c, s', s'.pcs[t])
    requires PrivateApart(s, s', t)
    requires forall u, o :: 0 <= u < |s.pcs| && u != t && o in Carried(s.pcs[u]) ==> ClassKept(s, s', o)
    requires forall u :: 0 <= u < |s.pcs| && u != t ==> PrivateOk(c, s', s.pcs[u])
    ensures PcsOk(c, s')
  {
    hide PcOk, PrivateOk, ClassKept, Main, Beyond, Kept, Private;
    forall u | 0 <= u < |s.pcs|
      ensures PcOk(c, s', s'.pcs[u])
    {
      if u != t {
        var pc := s.pcs[u];
        forall o | o in Main(pc) || o in Kept(Beyond(pc))
          ensures ClassKept(s, s', o)
        {
          assert o in Carried(pc);
        }
        PcFrame(c, s, s', pc);
      }
    }
  }

  /** As long as spans and page map are the same, so are the classes and private spans. */
  lemma PcsKeepSameSpans(c: Config, s: Sys, s': Sys, t: nat)
    requires c.Good() && PcsOk(c, s)
    requires t < |s.pcs| == |s'.pcs| && s'.pcs == s.pcs[t := s'.pcs[t]]
    requires s'.spans == s.spans && s'.pagemap == s.pagemap
    requires PcOk(c, s', s'.pcs[t])
    requires Private(s'.pcs[t]).None? || Private(s'.pcs[t]) == Private(s.pcs[t])
    ensures PcsOk(c, s')
  {
    forall u | 0 <= u < |s.pcs| && u != t
      ensures PrivateOk(c, s', s.pcs[u])
    {
      assert PcOk(c, s, s.pcs[u]);
      hide Main, Beyond, Kept, Private;
    }
    forall o
      ensures ClassKept(s, s', o)
    {}
    PcsKeep(c, s, s', t);
  }

  lemma PagemapSame(s: Sys, s': Sys)
    requires PagemapOk(s) && s'.pagemap == s.pagemap
    ensures PagemapOk(s')
  {}

  lemma IdleFacts(c: Config, s: Sys)
    requires c.Good()
    ensures PcOk(c, s, Idle) && Private(Idle) == None && InFlight(Idle) == 0 && HeldLock(Idle) == NoLock
    ensures Main(Idle) == [] && Beyond(Idle) == Return && Carried(Idle) == []
  {}

  lemma PcOkSame(c: Config, s: Sys, s': Sys, pc: Pc)
    requires c.Good() && PcOk(c, s, pc) && s'.spans == s.spans && s'.pagemap == s.pagemap
    ensures PcOk(c, s', pc)
  {
    PcFrame(c, s, s', pc);
  }

  lemma SpansOkSame(c: Config, s: Sys, s': Sys)
    requires c.Good() && SpansOk(c, s) && s'.spans == s.spans && s'.pagemap == s.pagemap
    ensures SpansOk(c, s')
  {}

  lemma ListsOkSame(c: Config, s: Sys, s': Sys)
    requires Shape(c, s) && Shape(c, s') && ListsOk(c, s) && s'.lists == s.lists && s'.spans == s.spans
    ensures ListsOk(c, s')
  {}

  lemma SlotsInClassSame(s: Sys, s': Sys)
    requires SlotsInClass(s) && s'.lists == s.lists && s'.spans == s.spans && s'.pagemap == s.pagemap
    ensures SlotsInClass(s')
  {
    forall o ensures ClassKept(s, s', o) {}
    forall cl, i | 0 <= cl < |s.lists| && 0 <= i < |s.lists[cl].slots|
      ensures AllInClass(s', s.lists[cl].slots[i], cl)
    {
      ChainFrame(s, s', s.lists[cl].slots[i], cl);
    }
  }

  lemma PlacesSame(s: Sys, s': Sys, t: nat, w: map<Obj, Place>)
    requires Located(s, w) && ChainsNoDup(s)
    requires t < |s.pcs| == |s'.pcs| && s'.pcs == s.pcs[t := s'.pcs[t]]
    requires s'.lists == s.lists && s'.spans == s.spans && s'.pagemap == s.pagemap && s'.out == s.out
    requires Carried(s'.pcs[t]) == Carried(s.pcs[t])
    ensures Located(s', w) && ChainsNoDup(s')
  {
    forall p
      ensures At(s', p) == At(s, p)
    {
      hide Carried;
    }
    hide At;
    forall p, o
      ensures Has(s', p, o) <==> Has(s, p, o)
    {}
    hide Has;
  }

  /** Nothing moves between places: only locks and program points change. */
  lemma RelabelKeeps(c: Config, s: Sys, s': Sys, t: nat)
    requires Inv(c, s) && t < |s.pcs| == |s'.pcs| && |s'.locks| == |s.locks|
    requires s'.pcs == s.pcs[t := s'.pcs[t]]
    requires s' == s.(pcs := s'.pcs, locks := s'.locks, heapLock := s'.heapLock)
    requires LocksOk(s')
    requires Carried(s'.pcs[t]) == Carried(s.pcs[t])
    requires InFlight(s'.pcs[t]) <= InFlight(s.pcs[t])
    requires Private(s'.pcs[t]) == Private(s.pcs[t])
    requires PcOk(c, s', s'.pcs[t])
    ensures Inv(c, s')
  {
    hide PcOk, LocksOk, PcsOk, Carried, InFlight, Private, SpansOk, ListsOk, SlotsInClass, Located, ChainsNoDup;
    PcsKeepSameSpans(c, s, s', t);
    InFlightUpdate(s.pcs, t, s'.pcs[t]);
    SpansOkSame(c, s, s');
    ListsOkSame(c, s, s');
    SlotsInClassSame(s, s');
    var w :| Located(s, w);
    PlacesSame(s, s', t, w);
  }

  /** Objects `moved` go from the place `from` to the place `to`; all else stays. */
  lemma Move(s: Sys, s': Sys, w: map<Obj, Place>, from: Place, to: Place, moved: seq<Obj>)
    returns (w': map<Obj, Place>)
    requires Located(s, w) && ChainsNoDup(s) && from != to
    requires forall o :: Owned(s', o) <==> Owned(s, o)
    requires forall p :: p != from && p != to ==> At(s', p) == At(s, p)
    requires forall o :: o in moved ==> if from == Out then o in s.out else o in At(s, from)
    requires from != Out ==> forall o :: o in At(s', from) <==> o in At(s, from) && o !in moved
    requires to != Out ==> forall o :: o in At(s', to) <==> o in At(s, to) || o in moved
    requires s'.out == if from == Out then s.out - Elems(moved) else if to == Out then s.out + Elems(moved) else s.out
    requires NoDup(At(s', from)) && NoDup(At(s', to))
    ensures Located(s', w') && ChainsNoDup(s')
  {
    hide At, Owned;
    forall o | o in moved
      ensures o in w && w[o] == from
    {
      assert from != Out ==> Has(s, from, o);
    }
    assert forall o :: o in s'.out <==> if o in moved then to == Out else o in s.out;
    forall p, o | p != Out
      ensures Has(s', p, o) <==> if o in moved then p == to else Has(s, p, o)
    {
      if o in moved && p != from && p != to {
        assert !Has(s, p, o);
        assert At(s', p) == At(s, p);
      }
    }
    w' := Relocate(s, s', w, moved, to);
    forall p ensures NoDup(At(s', p)) {}
  }
}
