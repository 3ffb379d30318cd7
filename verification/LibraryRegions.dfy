/**
  Which part of the libraries' memory the leak checker takes as global data
  (IgnoreNonThreadLiveObjectsLocked of heap-checker.cc): all of it but the regions that were
  mapped by others.  Ranges end below the top of the address space.
  */
module LibraryRegions {
  import opened Options

  type Addr = nat

  datatype Range = Range(start: Addr, size: nat)

  /** A region that was mapped, from `start` up to `end`. */
  datatype Region = Region(start: Addr, end: Addr, isStack: bool, caller: Addr)

  predicate Within(r: Range, a: Addr) { r.start <= a < r.start + r.size }

  predicate Mapped(g: Region, a: Addr) { g.start <= a < g.end }

  ghost predicate Covered(s: seq<Range>, a: Addr) {
    exists r :: r in s && Within(r, a)
  }

  ghost predicate Disjoint(s: seq<Range>) {
    forall i, j, a :: 0 <= i < j < |s| && Within(s[i], a) ==> !Within(s[j], a)
  }

  /** Every piece lies inside one of the ranges. */
  ghost predicate Parts(pieces: seq<Range>, r: Range) {
    forall x :: x in pieces ==> r.start <= x.start && x.start + x.size <= r.start + r.size
  }

  // ------------------------------------------------------------------ one region, one range

  /** What is left of a range when a region is taken out: none, one or two pieces. */
  function Cut(r: Range, g: Region): (pieces: seq<Range>)
    requires g.start <= g.end
    ensures |pieces| <= 2
  {
    var start, end := r.start, r.start + r.size;
    if g.start <= start && end <= g.end then []
    else if start < g.start && g.end < end then [Range(start, g.start - start), Range(g.end, end - g.end)]
    else if g.end > start && g.start <= start then [Range(g.end, end - g.end)]
    else if g.start > start && g.start < end then [Range(start, g.start - start)]
    else [r]
  }

  /** The pieces are the range without the region, address by address, and do not overlap. */
  lemma CutIs(r: Range, g: Region, a: Addr)
    requires g.start <= g.end
    ensures Covered(Cut(r, g), a) <==> Within(r, a) && !Mapped(g, a)
    ensures Disjoint(Cut(r, g)) && Parts(Cut(r, g), r)
  {
    var pieces := Cut(r, g);
    if |pieces| >= 1 {
      assert pieces[0] in pieces;
    }
    if |pieces| == 2 {
      assert pieces[1] in pieces;
    }
    if Within(r, a) && !Mapped(g, a) {
      assert exists i :: 0 <= i < |pieces| && Within(pieces[i], a) by {
        assert pieces != [];
        if !Within(pieces[0], a) {
          assert |pieces| == 2 && Within(pieces[1], a);
        }
      }
    }
  }

  // ------------------------------------------------------------------ the loops

  lemma CoveredConcat(s: seq<Range>, t: seq<Range>, a: Addr)
    ensures Covered(s + t, a) <==> Covered(s, a) || Covered(t, a)
  {
    if Covered(s, a) {
      var r :| r in s && Within(r, a);
      assert r in s + t;
    }
    if Covered(t, a) {
      var r :| r in t && Within(r, a);
      assert r in s + t;
    }
  }

  lemma DisjointConcat(s: seq<Range>, t: seq<Range>)
    requires Disjoint(s) && Disjoint(t) && forall a :: Covered(s, a) ==> !Covered(t, a)
    ensures Disjoint(s + t)
  {
    var u := s + t;
    forall i, j, a | 0 <= i < j < |u| && Within(u[i], a)
      ensures !Within(u[j], a)
    {
      if i < |s| <= j {
        assert u[i] in s && u[j] == t[j - |s|] && u[j] in t;
        assert Covered(s, a);
      }
    }
  }

  lemma DisjointHead(s: seq<Range>, i: nat, a: Addr)
    requires Disjoint(s) && i < |s| && Within(s[i], a)
    ensures !Covered(s[..i], a)
  {
    forall r | r in s[..i]
      ensures !Within(r, a)
    {
      var j :| 0 <= j < i && s[..i][j] == r;
      assert s[j] == r;
    }
  }

  /** One region is taken out of all ranges (the inner loop and the swap after it). */
  method SubtractRegion(ranges: seq<Range>, g: Region) returns (left: seq<Range>)
    requires g.start <= g.end
    ensures forall a :: Covered(left, a) <==> Covered(ranges, a) && !Mapped(g, a)
    ensures Disjoint(ranges) ==> Disjoint(left)
  {
    left := [];
    for i := 0 to |ranges|
      invariant forall a :: Covered(left, a) <==> Covered(ranges[..i], a) && !Mapped(g, a)
      invariant Disjoint(ranges) ==> Disjoint(left)
    {
      ghost var before := left;
      var start, end := ranges[i].start, ranges[i].start + ranges[i].size;
      if g.start <= start && end <= g.end {
        // nothing is left of it
      } else if start < g.start && g.end < end {
        left := left + [Range(start, g.start - start)];
        left := left + [Range(g.end, end - g.end)];
      } else if g.end > start && g.start <= start {
        left := left + [Range(g.end, end - g.end)];
      } else if g.start > start && g.start < end {
        left := left + [Range(start, g.start - start)];
      } else {
        left := left + [ranges[i]];
      }
      assert left == before + Cut(ranges[i], g);
      CutOne(ranges, i, g, before);
    }
    assert ranges[..|ranges|] == ranges;
  }

  /** One range more has been cut. */
  lemma CutOne(ranges: seq<Range>, i: nat, g: Region, before: seq<Range>)
    requires g.start <= g.end && i < |ranges|
    requires forall a :: Covered(before, a) <==> Covered(ranges[..i], a) && !Mapped(g, a)
    requires Disjoint(ranges) ==> Disjoint(before)
    ensures forall a :: Covered(before + Cut(ranges[i], g), a) <==> Covered(ranges[..i + 1], a) && !Mapped(g, a)
    ensures Disjoint(ranges) ==> Disjoint(before + Cut(ranges[i], g))
  {
    var r := ranges[i];
    assert ranges[..i + 1] == ranges[..i] + [r];
    CutIs(r, g, 0);
    forall a: Addr
      ensures Covered(before + Cut(r, g), a) <==> Covered(ranges[..i + 1], a) && !Mapped(g, a)
    {
      CoveredConcat(before, Cut(r, g), a);
      CoveredConcat(ranges[..i], [r], a);
      CutIs(r, g, a);
      Single(r, a);
    }
    if Disjoint(ranges) {
      forall a: Addr | Covered(before, a)
        ensures !Covered(Cut(r, g), a)
      {
        CutIs(r, g, a);
        if Within(r, a) {
          DisjointHead(ranges, i, a);
        }
      }
      hide Cut, Within, Mapped, Covered;
      DisjointConcat(before, Cut(r, g));
    }
  }

  lemma Single(r: Range, a: Addr)
    ensures Covered([r], a) <==> Within(r, a)
  {
    assert r in [r];
  }

  // ------------------------------------------------------------------ which regions are taken out

  /** global_region_caller_ranges: from the end of each range of special callers to its start. */
  type CallerRanges = map<Addr, Addr>

  /** upper_bound: the least end after the caller. */
  predicate UpperBound(ranges: CallerRanges, caller: Addr, e: Addr) {
    e in ranges && caller < e && forall x | x in ranges :: caller < x ==> e <= x
  }

  /** The test in the loop over the regions. */
  predicate Subtracted(g: Region, ranges: Option<CallerRanges>) {
    if g.isStack || ranges.None? then true
    else if g.caller == 0 then true
    else !(exists e | e in ranges.value :: UpperBound(ranges.value, g.caller, e) && ranges.value[e] < g.caller)
  }

  ghost predicate RangesDisjoint(ranges: CallerRanges) {
    forall e, f :: e in ranges && f in ranges && e < f ==> e <= ranges[f]
  }

  lemma ApartAt(ranges: CallerRanges, x: Addr, e: Addr)
    requires RangesDisjoint(ranges) && x in ranges && e in ranges
    ensures x < e ==> x <= ranges[e]
  {}

  /** A region is kept only if it is no stack and was mapped from inside one of the ranges: looking
      at the first range that ends after the caller is enough. */
  lemma KeptIff(g: Region, ranges: CallerRanges)
    requires RangesDisjoint(ranges)
    ensures !Subtracted(g, Some(ranges)) <==>
              !g.isStack && g.caller != 0 && exists e :: e in ranges && ranges[e] < g.caller < e
  {
    if e :| e in ranges && ranges[e] < g.caller < e {
      forall x | x in ranges && g.caller < x
        ensures e <= x
      {
        ApartAt(ranges, x, e);
      }
      assert UpperBound(ranges, g.caller, e);
    }
  }

  /** The loop over all regions. */
  method Subtract(ranges: seq<Range>, regions: seq<Region>, special: Option<CallerRanges>) returns (left: seq<Range>)
    requires forall i :: 0 <= i < |regions| ==> regions[i].start <= regions[i].end
    ensures forall a :: Covered(left, a) <==>
              Covered(ranges, a) && forall i :: 0 <= i < |regions| && Subtracted(regions[i], special) ==> !Mapped(regions[i], a)
    ensures Disjoint(ranges) ==> Disjoint(left)
  {
    hide Subtracted, Covered, Mapped, Disjoint;
    left := ranges;
    for i := 0 to |regions|
      invariant forall a :: Covered(left, a) <==>
                  Covered(ranges, a) && forall j :: 0 <= j < i && Subtracted(regions[j], special) ==> !Mapped(regions[j], a)
      invariant Disjoint(ranges) ==> Disjoint(left)
    {
      if Subtracted(regions[i], special) {
        left := SubtractRegion(left, regions[i]);
      }
    }
  }
}
