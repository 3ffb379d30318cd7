/**
  The accounting of the heap profile (heap-profile-table.cc): which allocations are recorded,
  and the counts of allocations and frees, in all and per bucket, that go with them.
  */
module ProfileTable {
  import opened Options
  import AddressMap

  type Addr = nat
  type BucketId = int     // a call stack, as GetBucket identifies it

  /** AllocValue: bytes, and the bucket pointer with its two flags. */
  datatype Alloc = Alloc(bytes: nat, bucket: BucketId, live: bool, ignored: bool)

  /** AllocValueSize */
  function AllocSize(a: Alloc): nat { a.bytes }

  // ------------------------------------------------------------------ flags in the bucket pointer

  /** bucket_rep: a bucket address, a multiple of four, with the live flag as its lowest bit and
      the ignore flag as the next.  (The masks are written as arithmetic on the number.) */
  type Rep = nat

  function BucketOf(rep: Rep): Rep { rep / 4 * 4 }
  function IsLive(rep: Rep): bool { rep % 2 == 1 }
  function IsIgnored(rep: Rep): bool { rep / 2 % 2 == 1 }

  /** set_bucket also clears both flags ... */
  function SetBucket(bucket: Rep): (rep: Rep)
    requires bucket % 4 == 0
    ensures BucketOf(rep) == bucket && !IsLive(rep) && !IsIgnored(rep)
  {
    bucket
  }

  /** ... and either flag can be set without touching the rest. */
  function SetLive(rep: Rep, live: bool): (r: Rep)
    ensures BucketOf(r) == BucketOf(rep) && IsLive(r) == live && IsIgnored(r) == IsIgnored(rep)
  {
    var r := rep / 2 * 2 + if live then 1 else 0;
    assert r / 2 == rep / 2 && r / 4 == r / 2 / 2;
    r
  }

  function SetIgnore(rep: Rep, ignored: bool): (r: Rep)
    ensures BucketOf(r) == BucketOf(rep) && IsLive(r) == IsLive(rep) && IsIgnored(r) == ignored
  {
    var r := rep / 4 * 4 + (if ignored then 2 else 0) + rep % 2;
    assert r / 4 == rep / 4 && r / 2 == rep / 4 * 2 + if ignored then 1 else 0;
    r
  }

  // ------------------------------------------------------------------ sums over allocations

  /** All bytes of the objects. */
  ghost function TotalBytes(objects: map<Addr, Alloc>): nat
    decreases |objects|
  {
    if objects == map[] then 0
    else
      var k :| k in objects;
      objects[k].bytes + TotalBytes(objects - {k})
  }

  /** The sum does not depend on the order. */
  lemma {:induction false} TotalWithout(objects: map<Addr, Alloc>, k: Addr)
    requires k in objects
    ensures TotalBytes(objects) == objects[k].bytes + TotalBytes(objects - {k})
    decreases |objects|
  {
    var j :| j in objects && TotalBytes(objects) == objects[j].bytes + TotalBytes(objects - {j});
    if j != k {
      TotalWithout(objects - {j}, k);
      TotalWithout(objects - {k}, j);
      assert objects - {j} - {k} == objects - {k} - {j};
    }
  }

  lemma TotalAdd(objects: map<Addr, Alloc>, k: Addr, v: Alloc)
    requires k !in objects
    ensures TotalBytes(objects[k := v]) == TotalBytes(objects) + v.bytes
  {
    TotalWithout(objects[k := v], k);
    assert objects[k := v] - {k} == objects;
  }

  /** The allocations of one bucket. */
  ghost function InBucket(objects: map<Addr, Alloc>, b: BucketId): map<Addr, Alloc> {
    map k | k in objects && objects[k].bucket == b :: objects[k]
  }

  // ------------------------------------------------------------------ the table

  datatype Stats = Stats(allocs: int, frees: int, allocSize: int, freeSize: int)

  const NO_STATS := Stats(0, 0, 0, 0)

  /** The counts are those of the objects. */
  ghost predicate Balanced(st: Stats, objects: map<Addr, Alloc>) {
    st.allocs - st.frees == |objects| && st.allocSize - st.freeSize == TotalBytes(objects)
  }

  function Allocated(st: Stats, bytes: nat): Stats { st.(allocs := st.allocs + 1, allocSize := st.allocSize + bytes) }

  function Freed(st: Stats, bytes: nat): Stats { st.(frees := st.frees + 1, freeSize := st.freeSize + bytes) }

  lemma BalancedAdd(st: Stats, objects: map<Addr, Alloc>, k: Addr, v: Alloc)
    requires k !in objects && Balanced(st, objects)
    ensures Balanced(Allocated(st, v.bytes), objects[k := v])
  {
    TotalAdd(objects, k, v);
    assert objects[k := v].Keys == objects.Keys + {k};
  }

  lemma BalancedRemove(st: Stats, objects: map<Addr, Alloc>, k: Addr)
    requires k in objects && Balanced(st, objects)
    ensures Balanced(Freed(st, objects[k].bytes), objects - {k})
  {
    TotalWithout(objects, k);
    assert (objects - {k}).Keys == objects.Keys - {k};
  }

  /** Recording an allocation where one is recorded already puts the counts out: the old one is
      overwritten, but not counted as freed. */
  lemma OverwriteUnbalances(st: Stats, objects: map<Addr, Alloc>, k: Addr, v: Alloc)
    requires Balanced(st, objects)
    ensures Balanced(Allocated(st, v.bytes), objects[k := v]) <==> k !in objects
  {
    if k in objects {
      assert objects[k := v].Keys == objects.Keys;
    } else {
      BalancedAdd(st, objects, k, v);
    }
  }

  // ------------------------------------------------------------------ what has happened

  /** An allocation that was recorded, or one that was freed: its bucket and its bytes. */
  datatype Record = Record(bucket: BucketId, bytes: nat)

  function SumBytes(records: seq<Record>): nat {
    if records == [] then 0 else SumBytes(records[..|records| - 1]) + records[|records| - 1].bytes
  }

  /** The records of one bucket, in order. */
  function OfBucket(records: seq<Record>, b: BucketId): seq<Record> {
    if records == [] then []
    else
      var last := |records| - 1;
      OfBucket(records[..last], b) + if records[last].bucket == b then [records[last]] else []
  }

  /** All that was ever recorded and ever freed is counted, by number and by bytes. */
  ghost predicate Counts(st: Stats, recorded: seq<Record>, freed: seq<Record>) {
    && st.allocs == |recorded| && st.allocSize == SumBytes(recorded)
    && st.frees == |freed| && st.freeSize == SumBytes(freed)
  }

  ghost predicate BooksOk(total: Stats, buckets: map<BucketId, Stats>, recorded: seq<Record>, freed: seq<Record>) {
    && Counts(total, recorded, freed)
    && (forall b :: b in buckets ==> Counts(buckets[b], OfBucket(recorded, b), OfBucket(freed, b)))
    && forall b :: b !in buckets ==> OfBucket(recorded, b) == OfBucket(freed, b) == []
  }

  lemma OneMore(records: seq<Record>, r: Record, b: BucketId)
    ensures SumBytes(records + [r]) == SumBytes(records) + r.bytes
    ensures OfBucket(records + [r], b) == if b == r.bucket then OfBucket(records, b) + [r] else OfBucket(records, b)
  {
    assert (records + [r])[..|records|] == records;
  }

  lemma BooksRecord(total: Stats, buckets: map<BucketId, Stats>, recorded: seq<Record>, freed: seq<Record>, r: Record)
    requires BooksOk(total, buckets, recorded, freed)
    ensures var st := if r.bucket in buckets then buckets[r.bucket] else NO_STATS;
            BooksOk(Allocated(total, r.bytes), buckets[r.bucket := Allocated(st, r.bytes)], recorded + [r], freed)
  {
    hide SumBytes, OfBucket;
    NoRecords();
    forall b
      ensures SumBytes(recorded + [r]) == SumBytes(recorded) + r.bytes
      ensures OfBucket(recorded + [r], b) == if b == r.bucket then OfBucket(recorded, b) + [r] else OfBucket(recorded, b)
    {
      OneMore(recorded, r, b);
    }
    OneMore(OfBucket(recorded, r.bucket), r, r.bucket);
  }

  lemma BooksFree(total: Stats, buckets: map<BucketId, Stats>, recorded: seq<Record>, freed: seq<Record>, r: Record)
    requires BooksOk(total, buckets, recorded, freed) && r.bucket in buckets
    ensures BooksOk(Freed(total, r.bytes), buckets[r.bucket := Freed(buckets[r.bucket], r.bytes)], recorded, freed + [r])
  {
    hide SumBytes, OfBucket;
    forall b
      ensures SumBytes(freed + [r]) == SumBytes(freed) + r.bytes
      ensures OfBucket(freed + [r], b) == if b == r.bucket then OfBucket(freed, b) + [r] else OfBucket(freed, b)
    {
      OneMore(freed, r, b);
    }
    OneMore(OfBucket(freed, r.bucket), r, r.bucket);
  }

  lemma NoRecords()
    ensures SumBytes([]) == 0 && forall b :: OfBucket([], b) == []
  {}

  class Table {
    const allocations: AddressMap.Map<Alloc>
    var total: Stats
    var buckets: map<BucketId, Stats>
    ghost var recorded: seq<Record>     // all that RecordAlloc was ever given
    ghost var freed: seq<Record>        // all that RecordFree ever found

    ghost predicate Valid()
      reads this, allocations
    {
      && allocations.Valid() && (forall k :: k in allocations.contents ==> allocations.contents[k].bucket in buckets)
      && BooksOk(total, buckets, recorded, freed)
    }

    /** In all and in each bucket, what is counted is what is recorded. */
    ghost predicate Accounts()
      reads this, allocations
    {
      && Balanced(total, allocations.contents)
      && forall b :: b in buckets ==> Balanced(buckets[b], InBucket(allocations.contents, b))
    }

    constructor (allocations: AddressMap.Map<Alloc>)
      requires allocations.Valid() && allocations.contents == map[]
      ensures Valid() && Accounts() && this.allocations == allocations && recorded == freed == []
    {
      hide AddressMap.Ok, TotalBytes, InBucket, Balanced;
      this.allocations := allocations;
      total, buckets := NO_STATS, map[];
      recorded, freed := [], [];
      NothingBalanced();
    }

    /** RecordAlloc: the books stay right unless something is recorded at the address already. */
    method RecordAlloc(ptr: Addr, bytes: nat, b: BucketId)
      requires Valid()
      modifies this, allocations
      ensures Valid() && allocations.contents == old(allocations.contents)[ptr := Alloc(bytes, b, false, false)]
      ensures recorded == old(recorded) + [Record(b, bytes)] && freed == old(freed)
      ensures total == Allocated(old(total), bytes)
      ensures buckets == old(buckets)[b := Allocated(if b in old(buckets) then old(buckets)[b] else NO_STATS, bytes)]
      ensures old(Accounts()) ==> (Accounts() <==> ptr !in old(allocations.contents))
    {
      hide AddressMap.Ok, TotalBytes, BooksOk;
      BooksRecord(total, buckets, recorded, freed, Record(b, bytes));
      recorded := recorded + [Record(b, bytes)];
      var st := if b in buckets then buckets[b] else NO_STATS;
      buckets := buckets[b := Allocated(st, bytes)];
      total := Allocated(total, bytes);
      var v := Alloc(bytes, b, false, false);
      allocations.Insert(ptr, v);
      if old(Accounts()) {
        OverwriteUnbalances(old(total), old(allocations.contents), ptr, v);
        if ptr !in old(allocations.contents) {
          BooksAdd(old(buckets), old(allocations.contents), ptr, v, buckets);
        }
      }
    }

    method RecordFree(ptr: Addr)
      requires Valid()
      modifies this, allocations
      ensures Valid() && allocations.contents == old(allocations.contents) - {ptr}
      ensures recorded == old(recorded)
      ensures ptr !in old(allocations.contents) ==> total == old(total) && buckets == old(buckets) && freed == old(freed)
      ensures ptr in old(allocations.contents) ==>
                var v := old(allocations.contents)[ptr];
                && freed == old(freed) + [Record(v.bucket, v.bytes)]
                && total == Freed(old(total), v.bytes)
                && v.bucket in old(buckets) && buckets == old(buckets)[v.bucket := Freed(old(buckets)[v.bucket], v.bytes)]
      ensures old(Accounts()) ==> Accounts()
    {
      hide AddressMap.Ok, TotalBytes, BooksOk;
      var v := allocations.FindAndRemove(ptr);
      if v.None? {
        assert old(allocations.contents) - {ptr} == old(allocations.contents);
      } else {
        var b := v.value.bucket;
        BooksFree(total, buckets, recorded, freed, Record(b, v.value.bytes));
        freed := freed + [Record(b, v.value.bytes)];
        buckets := buckets[b := Freed(buckets[b], v.value.bytes)];
        total := Freed(total, v.value.bytes);
        if old(Accounts()) {
          BalancedRemove(old(total), old(allocations.contents), ptr);
          BooksRemove(old(buckets), old(allocations.contents), ptr, buckets);
        }
      }
    }
  }

  lemma BooksAdd(buckets: map<BucketId, Stats>, objects: map<Addr, Alloc>, ptr: Addr, v: Alloc, buckets': map<BucketId, Stats>)
    requires ptr !in objects && forall k :: k in objects ==> objects[k].bucket in buckets
    requires forall b :: b in buckets ==> Balanced(buckets[b], InBucket(objects, b))
    requires buckets' == buckets[v.bucket := Allocated(if v.bucket in buckets then buckets[v.bucket] else NO_STATS, v.bytes)]
    ensures forall b :: b in buckets' ==> Balanced(buckets'[b], InBucket(objects[ptr := v], b))
  {
    forall b | b in buckets'
      ensures Balanced(buckets'[b], InBucket(objects[ptr := v], b))
    {
      if b == v.bucket {
        BookAdd(buckets, objects, ptr, v);
      } else {
        assert InBucket(objects[ptr := v], b) == InBucket(objects, b);
        hide InBucket;
      }
    }
  }

  /** The book of the bucket in which the allocation falls. */
  lemma BookAdd(buckets: map<BucketId, Stats>, objects: map<Addr, Alloc>, ptr: Addr, v: Alloc)
    requires ptr !in objects && forall k :: k in objects ==> objects[k].bucket in buckets
    requires v.bucket in buckets ==> Balanced(buckets[v.bucket], InBucket(objects, v.bucket))
    ensures Balanced(Allocated(if v.bucket in buckets then buckets[v.bucket] else NO_STATS, v.bytes), InBucket(objects[ptr := v], v.bucket))
  {
    hide TotalBytes;
    var mine := InBucket(objects, v.bucket);
    assert InBucket(objects[ptr := v], v.bucket) == mine[ptr := v];
    assert v.bucket !in buckets ==> mine == map[];
    assert ptr !in mine;
    hide InBucket;
    NothingBalanced();
    BalancedAdd(if v.bucket in buckets then buckets[v.bucket] else NO_STATS, mine, ptr, v);
  }

  lemma NothingBalanced()
    ensures Balanced(NO_STATS, map[])
  {}

  lemma BooksRemove(buckets: map<BucketId, Stats>, objects: map<Addr, Alloc>, ptr: Addr, buckets': map<BucketId, Stats>)
    requires ptr in objects && forall k :: k in objects ==> objects[k].bucket in buckets
    requires forall b :: b in buckets ==> Balanced(buckets[b], InBucket(objects, b))
    requires buckets' == buckets[objects[ptr].bucket := Freed(buckets[objects[ptr].bucket], objects[ptr].bytes)]
    ensures forall b :: b in buckets' ==> Balanced(buckets'[b], InBucket(objects - {ptr}, b))
  {
    hide TotalBytes;
    forall b | b in buckets'
      ensures Balanced(buckets'[b], InBucket(objects - {ptr}, b))
    {
      if b == objects[ptr].bucket {
        BalancedRemove(buckets[b], InBucket(objects, b), ptr);
        assert InBucket(objects - {ptr}, b) == InBucket(objects, b) - {ptr};
      } else {
        assert InBucket(objects - {ptr}, b) == InBucket(objects, b);
      }
    }
  }
}
