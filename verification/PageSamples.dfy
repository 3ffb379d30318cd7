/**
  The map from pages to samples (page_sample_map.c): blocks of 4096 pages in a hash map, with the
  block of the last access kept at hand, and samples on a free and an active list.
  */
module PageSamples {
  import opened Config
  import opened Options
  import opened Seqs

  const PAGE_BLOCK_SIZE: nat := 4096
  const BLOCK_BYTES: nat := 0x100_0000

  type SampleId = nat

  // ------------------------------------------------------------------ addresses

  /** addr & PAGE_BLOCK_MASK */
  function BlockOf(addr: nat): nat { addr / BLOCK_BYTES * BLOCK_BYTES }

  /** (addr & ~PAGE_BLOCK_MASK) >> PAGE_SHIFT */
  function IndexOf(addr: nat): (i: nat)
    ensures i < PAGE_BLOCK_SIZE
  {
    addr % BLOCK_BYTES / PAGE_SIZE
  }

  function Page(addr: nat): nat { addr / PAGE_SIZE }

  /** Two addresses meet in the same place of the same block exactly if they are of one page. */
  lemma OnePlaceOnePage(a: nat, b: nat)
    ensures BlockOf(a) == BlockOf(b) && IndexOf(a) == IndexOf(b) <==> Page(a) == Page(b)
  {
    Place(a);
    Place(b);
  }

  lemma Place(a: nat)
    ensures BlockOf(a) == Page(a) / PAGE_BLOCK_SIZE * BLOCK_BYTES && IndexOf(a) == Page(a) % PAGE_BLOCK_SIZE
  {
    var q, r := a / BLOCK_BYTES, a % BLOCK_BYTES;
    assert a == BLOCK_BYTES * q + r;
    assert Page(a) == PAGE_BLOCK_SIZE * q + r / PAGE_SIZE;
  }

  // ------------------------------------------------------------------ what the blocks hold

  /** What all blocks hold, by block address. */
  type Store = map<nat, seq<Option<SampleId>>>

  function Lookup(store: Store, addr: nat): Option<SampleId>
  {
    if BlockOf(addr) in store && |store[BlockOf(addr)]| == PAGE_BLOCK_SIZE
    then store[BlockOf(addr)][IndexOf(addr)] else None
  }

  /** The blocks hold the flat map. */
  ghost predicate Holds(store: Store, flat: map<nat, SampleId>) {
    && (forall a :: a in store ==> |store[a]| == PAGE_BLOCK_SIZE)
    && (forall addr :: Lookup(store, addr) == if Page(addr) in flat then Some(flat[Page(addr)]) else None)
  }

  /** What a new block holds. */
  function NoSamples(): seq<Option<SampleId>> { seq(PAGE_BLOCK_SIZE, _ => None) }

  /** A new block is empty: it changes no lookup. */
  lemma NewBlock(store: Store, flat: map<nat, SampleId>, a: nat)
    requires Holds(store, flat) && a !in store
    ensures Holds(store[a := NoSamples()], flat)
  {
    var store' := store[a := NoSamples()];
    forall addr
      ensures Lookup(store', addr) == Lookup(store, addr)
    {}
  }

  /** One entry of a block is set: one page of the flat map changes, and no other. */
  lemma SetEntry(store: Store, flat: map<nat, SampleId>, addr: nat, s: Option<SampleId>, flat': map<nat, SampleId>)
    requires Holds(store, flat) && BlockOf(addr) in store
    requires flat' == if s == None then flat - {Page(addr)} else flat[Page(addr) := s.value]
    ensures Holds(store[BlockOf(addr) := store[BlockOf(addr)][IndexOf(addr) := s]], flat')
  {
    hide BlockOf, IndexOf, Page;
    var store' := store[BlockOf(addr) := store[BlockOf(addr)][IndexOf(addr) := s]];
    forall other
      ensures Lookup(store', other) == if Page(other) in flat' then Some(flat'[Page(other)]) else None
    {
      OnePlaceOnePage(addr, other);
      assert Lookup(store, other) == if Page(other) in flat then Some(flat[Page(other)]) else None;
    }
  }

  // ------------------------------------------------------------------ the sample lists

  /** Every sample is on exactly one of the lists, and the active ones are those of `used`. */
  ghost predicate ListsOk(free: seq<SampleId>, active: seq<SampleId>, used: set<SampleId>, count: nat) {
    && NoDup(free) && NoDup(active)
    && (forall s :: s in active <==> s in used)
    && (forall s :: s in free ==> s !in active)
    && (forall s: SampleId :: s < count <==> s in free || s in active)
  }

  lemma FreeOne(free: seq<SampleId>, active: seq<SampleId>, used: set<SampleId>, count: nat, s: SampleId)
    requires ListsOk(free, active, used, count) && s in active
    ensures ListsOk([s] + free, Without(active, s), used - {s}, count)
  {
    WithoutElems(active, s);
    NoDupConcat([s], free);
  }

  lemma TakeOne(free: seq<SampleId>, active: seq<SampleId>, used: set<SampleId>, count: nat)
    requires ListsOk(free, active, used, count) && free != []
    ensures ListsOk(free[1..], [free[0]] + active, used + {free[0]}, count)
  {
    assert free == [free[0]] + free[1..];
    NoDupConcat([free[0]], free[1..]);
    NoDupConcat([free[0]], active);
  }

  lemma NewOne(active: seq<SampleId>, used: set<SampleId>, count: nat)
    requires ListsOk([], active, used, count)
    ensures ListsOk([], [count] + active, used + {count}, count + 1)
  {
    NoDupConcat([count], active);
  }

  ghost predicate Injective(m: map<nat, SampleId>) {
    forall p, q :: p in m && q in m && m[p] == m[q] ==> p == q
  }

  lemma ValuesWithout(m: map<nat, SampleId>, p: nat)
    requires Injective(m) && p in m
    ensures Injective(m - {p}) && (m - {p}).Values == m.Values - {m[p]}
  {
    var m' := m - {p};
    forall v | v in m.Values && v != m[p]
      ensures v in m'.Values
    {
      var q :| q in m && m[q] == v;
      assert q in m' && m'[q] == v;
    }
  }

  lemma ValuesWith(m: map<nat, SampleId>, p: nat, s: SampleId)
    requires Injective(m) && p !in m && s !in m.Values
    ensures Injective(m[p := s]) && m[p := s].Values == m.Values + {s}
  {
    var m' := m[p := s];
    assert m'[p] == s;
    forall v | v in m.Values
      ensures v in m'.Values
    {
      var q :| q in m && m[q] == v;
      assert q in m' && m'[q] == v;
    }
  }

  /** An injective map has as many values as keys. */
  lemma {:induction false} ValuesCard(m: map<nat, SampleId>)
    requires Injective(m)
    ensures |m.Values| == |m|
  {
    if m == map[] {
      assert m.Values == {};
    } else {
      var p :| p in m;
      ValuesWithout(m, p);
      ValuesCard(m - {p});
      assert |(m - {p}).Keys| == |m.Keys - {p}|;
      assert m[p] in m.Values;
    }
  }

  // ------------------------------------------------------------------ the map

  class Block {
    const addr: nat
    const pageSample: array<Option<SampleId>>

    constructor (addr: nat)
      ensures this.addr == addr && fresh(pageSample)
      ensures pageSample[..] == NoSamples()
    {
      this.addr := addr;
      this.pageSample := new Option<SampleId>[PAGE_BLOCK_SIZE](_ => None);
    }
  }

  lemma NewValue(table: map<nat, Block>, a: nat, block: Block)
    requires a !in table
    ensures table[a := block].Values == table.Values + {block}
  {
    assert table[a := block][a] == block;
    forall b | b in table.Values
      ensures b in table[a := block].Values
    {
      var k :| k in table && table[k] == b;
      assert table[a := block][k] == b;
    }
  }

  class PageMap {
    var hot: Block?
    var table: map<nat, Block>            // what the hash map finds
    var blocks: seq<Block>
    var free: seq<SampleId>
    var active: seq<SampleId>
    var count: nat                        // samples ever allocated
    ghost var flat: map<nat, SampleId>    // from page numbers

    ghost function Arrays(): set<array<Option<SampleId>>>
      reads this`table
    {
      set b | b in table.Values :: b.pageSample
    }

    ghost function Stored(): Store
      reads this`table, Arrays()
    {
      map a | a in table :: table[a].pageSample[..]
    }

    /** The hot block, when set, is the block that the hash map holds for its address. */
    ghost predicate HotOk()
      reads this`hot, this`table
    {
      hot != null ==> hot.addr in table && table[hot.addr] == hot
    }

    ghost predicate TableOk()
      reads this`table, this`blocks
    {
      && (forall a :: a in table ==> table[a].addr == a)
      && (forall a, b :: a in table && b in table && a != b ==> table[a].pageSample != table[b].pageSample)
      && NoDup(blocks) && (set b | b in blocks) == table.Values
    }

    ghost predicate Valid()
      reads this, Arrays()
    {
      HotOk() && TableOk() && Holds(Stored(), flat) && Injective(flat) && ListsOk(free, active, flat.Values, count)
    }

    /** page_sample_map_init */
    constructor ()
      ensures Valid() && flat == map[] && hot == null && fresh(Arrays())
    {
      hot, table, blocks, free, active, count, flat := null, map[], [], [], [], 0, map[];
    }

    /** get_page_block: the hot block if it is the one, else what the hash map finds, which
        becomes the hot block (none after a miss). */
    method GetPageBlock(a: nat) returns (block: Block?)
      requires Valid()
      modifies this`hot
      ensures Valid() && hot == block
      ensures block == if a in table then table[a] else null
    {
      if hot != null && hot.addr == a {
        block := hot;
        return;
      }
      block := if a in table then table[a] else null;
      hot := block;
    }

    /** init_page_block */
    method InitPageBlock(addr: nat) returns (block: Block)
      requires Valid() && BlockOf(addr) !in table
      modifies this`hot, this`table, this`blocks
      ensures Valid() && hot == block && fresh(block) && fresh(block.pageSample)
      ensures table == old(table)[BlockOf(addr) := block]
      ensures Arrays() == old(Arrays()) + {block.pageSample}
    {
      hide Holds, Injective, ListsOk, BlockOf;
      ghost var stored, table0, blocks0 := Stored(), table, blocks;
      var a := BlockOf(addr);
      block := new Block(a);
      assert block !in table0.Values && forall b :: b in table0 ==> table0[b].pageSample != block.pageSample;
      NewBlock(stored, flat, a);
      NoDupConcat([block], blocks0);
      NewValue(table0, a, block);
      table := table[a := block];
      blocks := [block] + blocks;
      hot := block;
      assert (set b | b in blocks) == (set b | b in blocks0) + {block};
      assert Stored() == stored[a := block.pageSample[..]];
    }

    /** page_sample_free */
    method PageSampleFree(s: SampleId, ghost used: set<SampleId>)
      requires ListsOk(free, active, used, count) && s in active
      modifies this`free, this`active
      ensures ListsOk(free, active, used - {s}, count) && free == [s] + old(free)
    {
      FreeOne(free, active, used, count, s);
      active := Without(active, s);
      free := [s] + free;
    }

    /** page_sample_alloc */
    method PageSampleAlloc(ghost used: set<SampleId>) returns (s: SampleId)
      requires ListsOk(free, active, used, count)
      modifies this`free, this`active, this`count
      ensures s !in used && ListsOk(free, active, used + {s}, count)
      ensures old(free) != [] ==> s == old(free)[0]
    {
      if free == [] {
        NewOne(active, used, count);
        s := count;
        count := count + 1;
      } else {
        TakeOne(free, active, used, count);
        s := free[0];
        free := free[1..];
      }
      active := [s] + active;
    }

    /** attach_page_sample: afterwards the page has a sample of its own; a sample that it had is
        freed and at once taken again. */
    method AttachPageSample(addr: nat) returns (s: SampleId)
      requires Valid()
      modifies this, Arrays()
      ensures Valid() && fresh(Arrays() - old(Arrays()))
      ensures flat == old(flat)[Page(addr) := s]
      ensures if Page(addr) in old(flat) then s == old(flat)[Page(addr)] else s !in old(flat).Values
    {
      hide Holds, Injective, ListsOk, BlockOf, IndexOf, Page, TableOk;
      var index, page := IndexOf(addr), Page(addr);
      var block := GetPageBlock(BlockOf(addr));
      if block == null {
        block := InitPageBlock(addr);
      }
      Found(addr);
      ghost var stored := Stored();
      s := Exchange(block.pageSample[index], page);
      assert Stored() == stored;
      SetSample(addr, block, Some(s), flat[page := s]);
    }

    /** Give back the sample that the page has, if any, and take one. */
    method Exchange(was: Option<SampleId>, ghost page: nat) returns (s: SampleId)
      requires ListsOk(free, active, flat.Values, count) && Injective(flat)
      requires was == if page in flat then Some(flat[page]) else None
      requires page in flat ==> flat[page] in active
      modifies this`free, this`active, this`count
      ensures ListsOk(free, active, flat[page := s].Values, count) && Injective(flat[page := s])
      ensures if page in flat then s == flat[page] else s !in flat.Values
    {
      hide Injective, ListsOk;
      ghost var rest := flat - {page};
      if was.Some? {
        ValuesWithout(flat, page);
        PageSampleFree(was.value, flat.Values);
      } else {
        assert rest == flat;
      }
      s := PageSampleAlloc(rest.Values);
      ValuesWith(rest, page, s);
      assert rest[page := s] == flat[page := s];
    }

    /** Write one entry of a block. */
    method SetSample(addr: nat, block: Block, s: Option<SampleId>, ghost after: map<nat, SampleId>)
      requires HotOk() && TableOk() && Holds(Stored(), flat)
      requires BlockOf(addr) in table && block == table[BlockOf(addr)]
      requires after == if s == None then flat - {Page(addr)} else flat[Page(addr) := s.value]
      modifies this`flat, block.pageSample
      ensures HotOk() && TableOk() && Holds(Stored(), flat) && flat == after
    {
      Entry(addr);
      hide Holds, BlockOf, IndexOf, Page;
      ghost var stored := Stored();
      SetEntry(stored, flat, addr, s, after);
      block.pageSample[IndexOf(addr)] := s;
      flat := after;
      assert Stored() == stored[BlockOf(addr) := stored[BlockOf(addr)][IndexOf(addr) := s]];
    }

    /** detach_page_sample, given the address of the sample. */
    method DetachPageSample(addr: nat)
      requires Valid()
      modifies this, Arrays()
      ensures Valid() && Arrays() == old(Arrays())
      ensures flat == old(flat) - {Page(addr)}
    {
      hide Holds, Injective, ListsOk, BlockOf, IndexOf, Page, TableOk;
      var index, page := IndexOf(addr), Page(addr);
      Found(addr);
      ghost var stored := Stored();
      var block := GetPageBlock(BlockOf(addr));
      if block == null {
        assert flat - {page} == flat;
        return;
      }
      if block.pageSample[index].Some? {
        ValuesWithout(flat, page);
        PageSampleFree(block.pageSample[index].value, flat.Values);
      } else {
        assert flat - {page} == flat;
      }
      assert Stored() == stored;
      SetSample(addr, block, None, flat - {page});
    }

    /** get_page_sample */
    method GetPageSample(addr: nat) returns (s: Option<SampleId>)
      requires Valid()
      modifies this`hot
      ensures Valid()
      ensures s == if Page(addr) in flat then Some(flat[Page(addr)]) else None
    {
      Found(addr);
      var block := GetPageBlock(BlockOf(addr));
      if block == null {
        return None;
      }
      return block.pageSample[IndexOf(addr)];
    }

    /** The entry for an address is the flat map's. */
    lemma Entry(addr: nat)
      requires Holds(Stored(), flat)
      ensures BlockOf(addr) in table ==>
                && table[BlockOf(addr)].pageSample.Length == PAGE_BLOCK_SIZE
                && table[BlockOf(addr)].pageSample[IndexOf(addr)]
                   == if Page(addr) in flat then Some(flat[Page(addr)]) else None
      ensures BlockOf(addr) !in table ==> Page(addr) !in flat
    {
      assert Lookup(Stored(), addr) == if Page(addr) in flat then Some(flat[Page(addr)]) else None;
      if BlockOf(addr) in table {
        assert |Stored()[BlockOf(addr)]| == PAGE_BLOCK_SIZE;
      }
    }

    lemma Found(addr: nat)
      requires Valid()
      ensures BlockOf(addr) in table ==>
                && table[BlockOf(addr)].pageSample in Arrays()
                && table[BlockOf(addr)].pageSample.Length == PAGE_BLOCK_SIZE
                && table[BlockOf(addr)].pageSample[IndexOf(addr)]
                   == if Page(addr) in flat then Some(flat[Page(addr)]) else None
      ensures BlockOf(addr) !in table ==> Page(addr) !in flat
      ensures Page(addr) in flat ==> flat[Page(addr)] in active
    {
      Entry(addr);
    }

    /** get_active_page_number: the length of the active list, as many as there are pages. */
    method ActivePages() returns (n: nat)
      requires Valid()
      ensures n == |flat|
    {
      n := 0;
      for i := 0 to |active|
        invariant n == i
      {
        n := n + 1;
      }
      NoDupCard(active);
      assert Elems(active) == flat.Values;
      ValuesCard(flat);
    }
  }
}
