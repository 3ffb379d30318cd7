/**
  The address map of the heap profiler and checker (addressmap-inl.h): a hash table of
  clusters, each an array of blocks, each a list of entries.  It is proved to be a finite map
  from addresses to values, and its search for the range around an address is characterised
  exactly.
  */
module AddressMap {
  import opened Options
  import opened Seqs

  type Key = nat      // an address
  type Id = int       // which Entry object holds a binding

  const BLOCK_SIZE: nat := 128
  const CLUSTER_BLOCKS: nat := 8192
  const CLUSTER_SIZE: nat := 1048576
  const HASH_SIZE: nat := 4096
  const ALLOC_COUNT: nat := 64

  datatype Entry<+V> = Entry(id: Id, key: Key, value: V)

  // ------------------------------------------------------------------ where a key belongs

  function ClusterOf(a: Key): nat { a / CLUSTER_SIZE }

  /** BlockID */
  function BlockOf(a: Key): (b: nat)
    ensures b < CLUSTER_BLOCKS
  {
    a / BLOCK_SIZE % CLUSTER_BLOCKS
  }

  /** Number of the block in the whole address space. */
  function Block(a: Key): nat { a / BLOCK_SIZE }

  /** The last address of the block of `a`. */
  function LastOf(a: Key): Key { a / BLOCK_SIZE * BLOCK_SIZE + (BLOCK_SIZE - 1) }

  lemma BlockNumber(a: Key)
    ensures Block(a) == ClusterOf(a) * CLUSTER_BLOCKS + BlockOf(a)
  {
    var c, r := a / 1048576, a % 1048576;
    assert a == c * 1048576 + r;
    assert a / 128 == c * 8192 + r / 128;
    assert r / 128 < 8192;
    assert (c * 8192 + r / 128) % 8192 == r / 128;
  }

  /** HashInt: the top 12 bits of the low 32 bits of a product. */
  function HashInt(x: nat): (h: nat)
    ensures h < HASH_SIZE
  {
    x % 0x1_0000_0000 * 2654435769 % 0x1_0000_0000 / 0x10_0000
  }

  /** Neighbouring clusters never share a slot of the table. */
  lemma NeighboursApart(x: nat)
    ensures HashInt(x) != HashInt(x + 1)
  {
    var y := x % 0x1_0000_0000;
    var y' := if y + 1 == 0x1_0000_0000 then 0 else y + 1;
    assert (x + 1) % 0x1_0000_0000 == y';
    var n := y * 2654435769;
    var a, q := n % 0x1_0000_0000, n / 0x1_0000_0000;
    var b := if a + 2654435769 < 0x1_0000_0000 then a + 2654435769 else a + 2654435769 - 0x1_0000_0000;
    assert n == 0x1_0000_0000 * q + a;
    var n' := y' * 2654435769;
    assert n' == if y' == 0 then 0 else n + 2654435769;
    Low32(n', if y' == 0 then 0 else if b > a then q else q + 1, b);
    SlotsApart(a, b);
  }

  lemma Low32(n: nat, q: int, r: nat)
    requires n == 0x1_0000_0000 * q + r && r < 0x1_0000_0000
    ensures n % 0x1_0000_0000 == r
  {}

  lemma SlotsApart(a: nat, b: nat)
    requires b == a + 2654435769 || b == a + 2654435769 - 0x1_0000_0000
    ensures a / 0x10_0000 != b / 0x10_0000
  {}

  // ------------------------------------------------------------------ one list of entries

  ghost function Keys<V>(l: seq<Entry<V>>): set<Key> { set e | e in l :: e.key }

  ghost predicate KeysDiffer<V>(l: seq<Entry<V>>) {
    forall i, j :: 0 <= i < j < |l| ==> l[i].key != l[j].key
  }

  /** Position of the entry with the key, or the length of the list. */
  function Position<V>(l: seq<Entry<V>>, key: Key): (i: nat)
    ensures i <= |l|
    ensures i < |l| ==> l[i].key == key
    ensures forall j :: 0 <= j < i ==> l[j].key != key
  {
    if l == [] || l[0].key == key then 0 else 1 + Position(l[1..], key)
  }

  // ------------------------------------------------------------------ the structure

  /** For each cluster its blocks' lists. */
  type Clusters<V> = map<nat, seq<seq<Entry<V>>>>

  /** The list in which the key would be. */
  function ListOf<V>(clusters: Clusters<V>, key: Key): seq<Entry<V>> {
    var c := ClusterOf(key);
    if c in clusters && BlockOf(key) < |clusters[c]| then clusters[c][BlockOf(key)] else []
  }

  /** Every cluster is in the chain its number hashes to, once. */
  ghost predicate TableOk<V>(table: seq<seq<nat>>, clusters: Clusters<V>) {
    && |table| == HASH_SIZE
    && (forall h :: 0 <= h < |table| ==> NoDup(table[h]))
    && (forall h, c :: 0 <= h < |table| && c in table[h] ==> c in clusters && HashInt(c) == h)
    && (forall c :: c in clusters ==> c in table[HashInt(c)])
    && (forall c :: c in clusters ==> |clusters[c]| == CLUSTER_BLOCKS)
  }

  /** Entries sit where their keys belong, and say what the map says; no key occurs twice. */
  ghost predicate ListOk<V>(c: nat, b: nat, l: seq<Entry<V>>, contents: map<Key, V>, owner: map<Id, Option<Key>>) {
    && KeysDiffer(l)
    && forall e :: e in l ==>
         && ClusterOf(e.key) == c && BlockOf(e.key) == b
         && e.key in contents && contents[e.key] == e.value
         && e.id in owner && owner[e.id] == Some(e.key)
  }

  ghost predicate ListsOk<V>(clusters: Clusters<V>, contents: map<Key, V>, owner: map<Id, Option<Key>>) {
    forall c, b :: c in clusters && 0 <= b < |clusters[c]| ==> ListOk(c, b, clusters[c][b], contents, owner)
  }

  /** Every binding has its entry. */
  ghost predicate Complete<V>(clusters: Clusters<V>, contents: map<Key, V>) {
    forall k :: k in contents ==> k in Keys(ListOf(clusters, k))
  }

  /** Every entry object holds one binding or is on the free list, once. */
  ghost predicate FreeOk(free: seq<Id>, owner: map<Id, Option<Key>>) {
    NoDup(free) && forall id :: id in free <==> id in owner && owner[id] == None
  }

  ghost predicate OwnersOk<V>(clusters: Clusters<V>, owner: map<Id, Option<Key>>) {
    forall id :: id in owner && owner[id].Some? ==> Holds(ListOf(clusters, owner[id].value), id, owner[id].value)
  }

  ghost predicate Holds<V>(l: seq<Entry<V>>, id: Id, key: Key) {
    exists e :: e in l && e.id == id && e.key == key
  }

  ghost predicate Ok<V>(table: seq<seq<nat>>, clusters: Clusters<V>, free: seq<Id>, contents: map<Key, V>,
                        owner: map<Id, Option<Key>>) {
    && TableOk(table, clusters)
    && ListsOk(clusters, contents, owner)
    && Complete(clusters, contents)
    && FreeOk(free, owner)
    && OwnersOk(clusters, owner)
  }

  // ------------------------------------------------------------------ effects on the structure

  /** One list is replaced. */
  function Replace<V>(clusters: Clusters<V>, key: Key, l: seq<Entry<V>>): Clusters<V>
    requires ClusterOf(key) in clusters && BlockOf(key) < |clusters[ClusterOf(key)]|
  {
    clusters[ClusterOf(key) := clusters[ClusterOf(key)][BlockOf(key) := l]]
  }

  lemma ListReplaced<V>(clusters: Clusters<V>, key: Key, l: seq<Entry<V>>, k: Key)
    requires ClusterOf(key) in clusters && BlockOf(key) < |clusters[ClusterOf(key)]|
    ensures ListOf(Replace(clusters, key, l), k) ==
              if ClusterOf(k) == ClusterOf(key) && BlockOf(k) == BlockOf(key) then l else ListOf(clusters, k)
  {}

  /** Changing the list of one key, its binding, and the owner of one entry. */
  lemma ReplaceOk<V(!new)>(table: seq<seq<nat>>, clusters: Clusters<V>, free: seq<Id>, contents: map<Key, V>,
                           owner: map<Id, Option<Key>>, key: Key, l: seq<Entry<V>>, contents': map<Key, V>,
                           id: Id, owner': map<Id, Option<Key>>)
    requires Ok(table, clusters, free, contents, owner) && ClusterOf(key) in clusters
    requires forall k :: k != key ==> (k in contents' <==> k in contents) && (k in contents ==> contents'[k] == contents[k])
    requires forall i :: i != id ==> (i in owner' <==> i in owner) && (i in owner ==> owner'[i] == owner[i])
    requires id in owner ==> owner[id] == None || owner[id] == Some(key)
    requires id in owner' ==> owner'[id] == None || owner'[id] == Some(key)
    requires ListOk(ClusterOf(key), BlockOf(key), l, contents', owner')
    requires forall k :: k != key ==> (k in Keys(l) <==> k in Keys(ListOf(clusters, k)) && SamePlace(k, key))
    requires key in contents' ==> key in Keys(l)
    requires forall i, k :: Holds(ListOf(clusters, key), i, k) && i != id ==> Holds(l, i, k)
    requires id in owner' && owner'[id].Some? ==> Holds(l, id, key)
    ensures BlockOf(key) < |clusters[ClusterOf(key)]|
    ensures var clusters' := Replace(clusters, key, l);
            && TableOk(table, clusters') && ListsOk(clusters', contents', owner')
            && Complete(clusters', contents') && OwnersOk(clusters', owner')
  {
    var c0, b0 := ClusterOf(key), BlockOf(key);
    var clusters' := Replace(clusters, key, l);
    forall c, b | c in clusters' && 0 <= b < |clusters'[c]|
      ensures ListOk(c, b, clusters'[c][b], contents', owner')
    {
      if c != c0 || b != b0 {
        assert ListOk(c, b, clusters[c][b], contents, owner);
        assert clusters'[c][b] == clusters[c][b];
      }
    }
    forall k | k in contents'
      ensures k in Keys(ListOf(clusters', k))
    {
      ListReplaced(clusters, key, l, k);
      if k != key {
        assert k in contents;
      }
    }
    forall i | i in owner' && owner'[i].Some?
      ensures Holds(ListOf(clusters', owner'[i].value), i, owner'[i].value)
    {
      var k := owner'[i].value;
      ListReplaced(clusters, key, l, k);
      if i != id {
        assert Holds(ListOf(clusters, k), i, k);
        if SamePlace(k, key) {
          assert ListOf(clusters, k) == ListOf(clusters, key);
        }
      }
    }
  }

  ghost predicate SamePlace(k: Key, key: Key) {
    ClusterOf(k) == ClusterOf(key) && BlockOf(k) == BlockOf(key)
  }

  /** The value of an entry is overwritten. */
  lemma UpdateOk<V(!new)>(l: seq<Entry<V>>, i: nat, key: Key, v: V, contents: map<Key, V>, owner: map<Id, Option<Key>>)
    requires ListOk(ClusterOf(key), BlockOf(key), l, contents, owner) && i < |l| && l[i].key == key
    ensures var l' := l[i := Entry(l[i].id, key, v)];
            && ListOk(ClusterOf(key), BlockOf(key), l', contents[key := v], owner)
            && Keys(l') == Keys(l)
            && forall id, k :: Holds(l, id, k) ==> Holds(l', id, k)
  {
    var l' := l[i := Entry(l[i].id, key, v)];
    assert l[i] in l && l'[i] in l';
    forall e | e in l'
      ensures e == l'[i] || (e in l && e.key != key)
    {
      var j :| 0 <= j < |l'| && l'[j] == e;
      if j != i {
        assert l[j] == e && l[j] in l;
      }
    }
    forall e | e in l
      ensures (e.key == key && e == l[i]) || e in l'
    {
      var j :| 0 <= j < |l| && l[j] == e;
      if j != i {
        assert l'[j] == e;
      }
    }
    assert KeysDiffer(l');
    KeysFrom(l, l');
    KeysFrom(l', l);
  }

  lemma KeysFrom<V(!new)>(a: seq<Entry<V>>, b: seq<Entry<V>>)
    requires forall e :: e in a ==> exists x :: x in b && x.key == e.key
    ensures Keys(a) <= Keys(b)
  {}

  /** A new entry is put in front. */
  lemma PrependOk<V(!new)>(l: seq<Entry<V>>, e: Entry<V>, contents: map<Key, V>, owner: map<Id, Option<Key>>)
    requires ListOk(ClusterOf(e.key), BlockOf(e.key), l, contents, owner) && e.key !in Keys(l)
    requires e.id in owner ==> owner[e.id] == None
    ensures var l' := [e] + l;
            && ListOk(ClusterOf(e.key), BlockOf(e.key), l', contents[e.key := e.value], owner[e.id := Some(e.key)])
            && Keys(l') == Keys(l) + {e.key}
            && (forall id, k :: Holds(l, id, k) ==> Holds(l', id, k)) && Holds(l', e.id, e.key)
  {
    var l' := [e] + l;
    assert forall x :: x in l' <==> x == e || x in l;
    forall x | x in l
      ensures x.key != e.key && x.id != e.id
    {
      assert x.key in Keys(l);
    }
    assert KeysDiffer(l');
    assert l'[0] == e;
  }

  /** An entry is unlinked. */
  lemma UnlinkOk<V(!new)>(l: seq<Entry<V>>, i: nat, contents: map<Key, V>, owner: map<Id, Option<Key>>)
    requires i < |l| && ListOk(ClusterOf(l[i].key), BlockOf(l[i].key), l, contents, owner)
    ensures var l', e := l[..i] + l[i + 1..], l[i];
            && ListOk(ClusterOf(e.key), BlockOf(e.key), l', contents - {e.key}, owner[e.id := None])
            && Keys(l') == Keys(l) - {e.key}
            && (forall id, k :: Holds(l, id, k) && id != e.id ==> Holds(l', id, k))
            && e.id in owner && owner[e.id] == Some(e.key)
  {
    var l', e := l[..i] + l[i + 1..], l[i];
    assert e in l;
    Unlinked(l, i);
    forall x | x in l'
      ensures x in l && x.key != e.key && x.id != e.id
    {
      assert x.id in owner && owner[x.id] == Some(x.key);
    }
    KeysUnlinked(l, i);
  }

  lemma Unlinked<V(!new)>(l: seq<Entry<V>>, i: nat)
    requires i < |l| && KeysDiffer(l)
    ensures var l' := l[..i] + l[i + 1..];
            KeysDiffer(l') && forall x :: x in l' <==> x in l && x.key != l[i].key
  {
    var l' := l[..i] + l[i + 1..];
    forall x | x in l'
      ensures x in l && x.key != l[i].key
    {
      var j :| 0 <= j < |l'| && l'[j] == x;
      assert x == l[if j < i then j else j + 1];
    }
    forall x | x in l && x.key != l[i].key
      ensures x in l'
    {
      var j :| 0 <= j < |l| && l[j] == x;
      assert l'[if j < i then j else j - 1] == x;
    }
    forall a, b | 0 <= a < b < |l'|
      ensures l'[a].key != l'[b].key
    {
      assert l'[a] == l[if a < i then a else a + 1] && l'[b] == l[if b < i then b else b + 1];
    }
  }

  lemma KeysUnlinked<V(!new)>(l: seq<Entry<V>>, i: nat)
    requires i < |l| && KeysDiffer(l)
    ensures Keys(l[..i] + l[i + 1..]) == Keys(l) - {l[i].key}
  {
    Unlinked(l, i);
    hide KeysDiffer;
    var l' := l[..i] + l[i + 1..];
    forall k | k in Keys(l) - {l[i].key}
      ensures k in Keys(l')
    {
      var x :| x in l && x.key == k;
      assert x in l';
    }
  }

  lemma PositionOf<V(!new)>(l: seq<Entry<V>>, key: Key)
    ensures Position(l, key) < |l| <==> key in Keys(l)
  {
    if Position(l, key) < |l| {
      assert l[Position(l, key)] in l;
    }
  }

  /** The list of a key tells whether it is bound, and to what. */
  lemma Lookup<V(!new)>(table: seq<seq<nat>>, clusters: Clusters<V>, free: seq<Id>, contents: map<Key, V>,
                        owner: map<Id, Option<Key>>, key: Key)
    requires Ok(table, clusters, free, contents, owner)
    ensures key in contents <==> key in Keys(ListOf(clusters, key))
    ensures var l := ListOf(clusters, key);
            Position(l, key) < |l| <==> key in contents
    ensures var l := ListOf(clusters, key);
            key in contents ==> l[Position(l, key)].value == contents[key]
    ensures ListOk(ClusterOf(key), BlockOf(key), ListOf(clusters, key), contents, owner)
  {
    var l := ListOf(clusters, key);
    PositionOf(l, key);
    if Position(l, key) < |l| {
      assert l[Position(l, key)] in l;
    }
  }

  /** A cluster without entries is added to its chain. */
  function NoBlocks<V>(): (r: seq<seq<Entry<V>>>)
    ensures |r| == CLUSTER_BLOCKS && forall b :: 0 <= b < |r| ==> r[b] == []
  {
    seq(CLUSTER_BLOCKS, _ => [])
  }

  lemma ClusterAdded<V(!new)>(table: seq<seq<nat>>, clusters: Clusters<V>, free: seq<Id>, contents: map<Key, V>,
                              owner: map<Id, Option<Key>>, c: nat)
    requires Ok(table, clusters, free, contents, owner) && c !in clusters
    ensures Ok(table[HashInt(c) := [c] + table[HashInt(c)]], clusters[c := NoBlocks()], free, contents, owner)
    ensures forall k :: ListOf(clusters[c := NoBlocks()], k) == ListOf(clusters, k)
  {
    var clusters' := clusters[c := NoBlocks()];
    TableGrows(table, clusters, c);
    hide HashInt, TableOk, ListOk;
    SameLists(clusters, c);
    forall d, b | d in clusters' && 0 <= b < |clusters'[d]|
      ensures ListOk(d, b, clusters'[d][b], contents, owner)
    {
      if d == c {
        NoEntries(d, b, clusters'[d][b], contents, owner);
      } else {
        assert ListOk(d, b, clusters[d][b], contents, owner);
      }
    }
    hide ListOf;
  }

  lemma NoEntries<V(!new)>(c: nat, b: nat, l: seq<Entry<V>>, contents: map<Key, V>, owner: map<Id, Option<Key>>)
    requires l == []
    ensures ListOk(c, b, l, contents, owner)
  {}

  lemma SameLists<V(!new)>(clusters: Clusters<V>, c: nat)
    requires c !in clusters
    ensures forall k :: ListOf(clusters[c := NoBlocks()], k) == ListOf(clusters, k)
  {}

  lemma TableGrows<V(!new)>(table: seq<seq<nat>>, clusters: Clusters<V>, c: nat)
    requires TableOk(table, clusters) && c !in clusters
    ensures TableOk(table[HashInt(c) := [c] + table[HashInt(c)]], clusters[c := NoBlocks()])
  {
    var h := HashInt(c);
    hide HashInt;
    NoDupConcat([c], table[h]);
    hide NoDup;
    var table' := table[h := [c] + table[h]];
    forall d | d in clusters[c := NoBlocks()]
      ensures d in table'[HashInt(d)]
    {
      if d != c {
        assert d in table[HashInt(d)];
      }
    }
  }

  lemma ClusterKnown<V(!new)>(table: seq<seq<nat>>, clusters: Clusters<V>, c: nat)
    requires TableOk(table, clusters)
    ensures |table| == HASH_SIZE && (c in clusters <==> c in table[HashInt(c)])
    ensures c in clusters ==> |clusters[c]| == CLUSTER_BLOCKS
  {
    hide HashInt;
  }

  /** More entry objects, none of them in use. */
  lemma Stocked<V(!new)>(table: seq<seq<nat>>, clusters: Clusters<V>, free: seq<Id>, contents: map<Key, V>,
                         owner: map<Id, Option<Key>>, ids: seq<Id>, owner': map<Id, Option<Key>>)
    requires Ok(table, clusters, free, contents, owner)
    requires NoDup(ids) && forall i :: i in ids ==> i !in owner
    requires forall i :: i in owner' <==> i in owner || i in ids
    requires forall i :: i in owner ==> owner'[i] == owner[i]
    requires forall i :: i in ids ==> owner'[i] == None
    ensures Ok(table, clusters, ids + free, contents, owner')
  {
    hide TableOk;
    forall i | i in ids
      ensures i !in free
    {
      assert i !in owner;
    }
    NoDupConcat(ids, free);
    assert FreeOk(ids + free, owner') by {
      hide NoDup;
      forall i
        ensures i in ids + free <==> i in owner' && owner'[i] == None
      {
        assert i in ids + free <==> i in ids || i in free;
      }
    }
    hide FreeOk;
    forall i | i in owner' && owner'[i].Some?
      ensures Holds(ListOf(clusters, owner'[i].value), i, owner'[i].value)
    {
      assert i in owner && owner[i].Some?;
    }
    hide Holds;
    forall c, b | c in clusters && 0 <= b < |clusters[c]|
      ensures ListOk(c, b, clusters[c][b], contents, owner')
    {
      assert ListOk(c, b, clusters[c][b], contents, owner);
    }
  }

  // ------------------------------------------------------------------ the map

  class Map<V(!new)> {
    var hashtable: seq<seq<nat>>        // chains of clusters, by their numbers
    var clusters: Clusters<V>
    var free: seq<Id>
    var next: Id                        // the next entry object to allocate
    ghost var contents: map<Key, V>
    ghost var owner: map<Id, Option<Key>>

    ghost predicate Valid()
      reads this
    {
      Ok(hashtable, clusters, free, contents, owner) && forall id :: id in owner ==> id < next
    }

    constructor ()
      ensures Valid() && contents == map[]
    {
      hashtable, clusters, free, next := seq(HASH_SIZE, _ => []), map[], [], 0;
      contents, owner := map[], map[];
    }

    /** The search of FindCluster. */
    method LookupCluster(address: Key) returns (found: bool)
      requires Valid()
      ensures found <==> ClusterOf(address) in clusters
    {
      ClusterKnown(hashtable, clusters, ClusterOf(address));
      hide Ok, HashInt;
      var chain := hashtable[HashInt(ClusterOf(address))];
      var i := 0;
      while i < |chain|
        invariant i <= |chain|
        invariant forall j :: 0 <= j < i ==> chain[j] != ClusterOf(address)
      {
        if chain[i] == ClusterOf(address) {
          return true;
        }
        i := i + 1;
      }
      return false;
    }

    /** FindCluster with create set. */
    method CreateCluster(address: Key)
      requires Valid()
      modifies this`hashtable, this`clusters
      ensures Valid() && ClusterOf(address) in clusters && |clusters[ClusterOf(address)]| == CLUSTER_BLOCKS
      ensures forall k :: ListOf(clusters, k) == ListOf(old(clusters), k)
    {
      ClusterKnown(hashtable, clusters, ClusterOf(address));
      var found := LookupCluster(address);
      if !found {
        var c := ClusterOf(address);
        ClusterAdded(hashtable, clusters, free, contents, owner, c);
        hide Ok, HashInt;
        clusters := clusters[c := NoBlocks()];
        hashtable := hashtable[HashInt(c) := [c] + hashtable[HashInt(c)]];
        ClusterLength(c, clusters);
      }
    }

    /** The loop over a block's list that looks for a key. */
    method Search(l: seq<Entry<V>>, key: Key) returns (i: nat)
      ensures i == Position(l, key)
    {
      i := 0;
      while i < |l|
        invariant i <= |l|
        invariant Position(l, key) == i + Position(l[i..], key)
      {
        if l[i].key == key {
          return;
        }
        i := i + 1;
      }
    }

    /** FindMutable */
    method Find(key: Key) returns (r: Option<V>)
      requires Valid()
      ensures r == if key in contents then Some(contents[key]) else None
    {
      Lookup(hashtable, clusters, free, contents, owner, key);
      var found := LookupCluster(key);
      ClusterKnown(hashtable, clusters, ClusterOf(key));
      hide Ok, HashInt;
      if found {
        var l := clusters[ClusterOf(key)][BlockOf(key)];
        var i := Search(l, key);
        if i < |l| {
          return Some(l[i].value);
        }
      }
      return None;
    }

    method Insert(key: Key, value: V)
      requires Valid()
      modifies this
      ensures Valid() && contents == old(contents)[key := value]
    {
      hide Ok, HashInt, ListOk;
      CreateCluster(key);
      Lookup(hashtable, clusters, free, contents, owner, key);
      var l := clusters[ClusterOf(key)][BlockOf(key)];
      assert l == ListOf(clusters, key);
      var i := Search(l, key);
      if i < |l| {
        Overwrite(key, value, l, i);
      } else {
        Allocate();
        AddEntry(key, value, l);
      }
    }

    /** Give the key's entry a new value. */
    method Overwrite(key: Key, value: V, l: seq<Entry<V>>, i: nat)
      requires Valid() && ClusterOf(key) in clusters && l == ListOf(clusters, key) && i < |l| && l[i].key == key
      modifies this`clusters, this`contents
      ensures Valid() && contents == old(contents)[key := value]
    {
      ClusterKnown(hashtable, clusters, ClusterOf(key));
      Lookup(hashtable, clusters, free, contents, owner, key);
      assert l[i] in l;
      UpdateOk(l, i, key, value, contents, owner);
      hide HashInt, ListOk, Ok;
      ghost var clusters0, contents0 := clusters, contents;
      var l' := l[i := Entry(l[i].id, key, value)];
      clusters := Replace(clusters, key, l');
      contents := contents[key := value];
      SameKeys(hashtable, clusters0, free, contents0, owner, key, l');
      ReplaceOk(hashtable, clusters0, free, contents0, owner, key, l', contents, l[i].id, owner);
      Assemble(hashtable, clusters0, clusters, free, contents0, contents, owner);
    }

    /** The free list is refilled when it is empty. */
    method Allocate()
      requires Valid()
      modifies this`free, this`next, this`owner
      ensures Valid() && free != []
    {
      hide Ok;
      if free == [] {
        var n := next;
        var ids := seq(ALLOC_COUNT, i requires 0 <= i < ALLOC_COUNT => n + i);
        ghost var owner0 := owner;
        owner := owner + map i | i in ids :: None;
        Stocked(hashtable, clusters, free, contents, owner0, ids, owner);
        free := ids + free;
        next := next + ALLOC_COUNT;
        assert ids[0] in ids;
      }
    }

    /** Take an entry off the free list and put it in front of the block's list. */
    method AddEntry(key: Key, value: V, l: seq<Entry<V>>)
      requires Valid() && ClusterOf(key) in clusters && l == ListOf(clusters, key) && free != [] && key !in contents
      modifies this`clusters, this`contents, this`free, this`owner
      ensures Valid() && contents == old(contents)[key := value]
    {
      ClusterKnown(hashtable, clusters, ClusterOf(key));
      Lookup(hashtable, clusters, free, contents, owner, key);
      FirstFree(free, owner);
      var e := Entry(free[0], key, value);
      PrependOk(l, e, contents, owner);
      hide HashInt, ListOk, Ok, Keys;
      ghost var clusters0, contents0, free0, owner0 := clusters, contents, free, owner;
      free := free[1..];
      clusters := Replace(clusters, key, [e] + l);
      contents := contents[key := value];
      owner := owner[e.id := Some(key)];
      MoreKeys(hashtable, clusters0, free0, contents0, owner0, key, [e] + l);
      ReplaceOk(hashtable, clusters0, free0, contents0, owner0, key, [e] + l, contents, e.id, owner);
      Assembled(hashtable, clusters, free, contents, owner);
    }

    method FindAndRemove(key: Key) returns (removed: Option<V>)
      requires Valid()
      modifies this
      ensures Valid() && contents == old(contents) - {key}
      ensures removed == if key in old(contents) then Some(old(contents)[key]) else None
    {
      Lookup(hashtable, clusters, free, contents, owner, key);
      var found := LookupCluster(key);
      ClusterKnown(hashtable, clusters, ClusterOf(key));
      hide Ok, HashInt, ListOk, Keys;
      removed := None;
      NotBound(contents, key);
      if found {
        var l := clusters[ClusterOf(key)][BlockOf(key)];
        assert l == ListOf(clusters, key);
        var i := Search(l, key);
        if i < |l| {
          removed := Some(l[i].value);
          Unlink(key, l, i);
        }
      }
    }

    /** Unlink the key's entry and put it on the free list. */
    method Unlink(key: Key, l: seq<Entry<V>>, i: nat)
      requires Valid() && ClusterOf(key) in clusters && l == ListOf(clusters, key) && i < |l| && l[i].key == key
      modifies this`clusters, this`contents, this`free, this`owner
      ensures Valid() && contents == old(contents) - {key}
    {
      ClusterKnown(hashtable, clusters, ClusterOf(key));
      Lookup(hashtable, clusters, free, contents, owner, key);
      UnlinkOk(l, i, contents, owner);
      NowFree(free, owner, l[i].id);
      hide HashInt, ListOk, Ok, Keys, FreeOk;
      ghost var clusters0, contents0, free0, owner0 := clusters, contents, free, owner;
      var id, l' := l[i].id, l[..i] + l[i + 1..];
      clusters := Replace(clusters, key, l');
      free := [id] + free;
      contents := contents - {key};
      owner := owner[id := None];
      FewerKeys(hashtable, clusters0, free0, contents0, owner0, key, l');
      ReplaceOk(hashtable, clusters0, free0, contents0, owner0, key, l', contents, id, owner);
      Assembled(hashtable, clusters, free, contents, owner);
    }

    // ---------------------------------------------------------------- the range around an address

    /** The loop of FindInside over one block's list: the entry it returns, if any, and
        otherwise had_smaller_key. */
    method ScanList(l: seq<Entry<V>>, size: V -> nat, key: Key) returns (r: Option<Entry<V>>, hadSmaller: bool)
      ensures r.Some? ==> r.value in l && Covers(r.value.key, size(r.value.value), key)
      ensures r == None ==> forall e :: e in l ==> !Covers(e.key, size(e.value), key)
      ensures r == None ==> (hadSmaller <==> exists e :: e in l && e.key <= key)
    {
      hadSmaller := false;
      for i := 0 to |l|
        invariant forall j :: 0 <= j < i ==> !Covers(l[j].key, size(l[j].value), key)
        invariant hadSmaller ==> exists e :: e in l && e.key <= key
        invariant !hadSmaller ==> forall j :: 0 <= j < i ==> l[j].key > key
      {
        if l[i].key <= key {
          if l[i].key == key || key < l[i].key + size(l[i].value) {
            return Some(l[i]), hadSmaller;
          }
          hadSmaller := true;
          assert l[i] in l;
        }
      }
      r := None;
      Everywhere(l, size, key, hadSmaller);
    }

    /** FindInside, exactly: the range that covers the key, if there is one and it starts in the
        key's own block or its block ends within max_size of the key. */
    method FindInside(size: V -> nat, maxSize: nat, key: Key) returns (r: Option<(Key, V)>)
      requires Valid() && RangesApart(contents, size)
      ensures forall k :: r.Some? && r.value.0 == k <==> Found(contents, size, maxSize, key, k)
      ensures r.Some? ==> r.value.0 in contents && r.value.1 == contents[r.value.0]
    {
      hide Ok, NoneFrom, Found;
      var num: Key := key;
      StartAt(contents, key);
      while true
        invariant Searched(contents, size, maxSize, key, num)
        decreases num
      {
        var found := LookupCluster(num);
        if found {
          while true
            invariant Searched(contents, size, maxSize, key, num) && ClusterOf(num) in clusters
            decreases num
          {
            ClusterKnownHere(num);
            var l := clusters[ClusterOf(num)][BlockOf(num)];
            var e, hadSmaller := ScanList(l, size, key);
            Scanned(hashtable, clusters, free, contents, owner, size, maxSize, key, num, l, e, hadSmaller);
            if e.Some? {
              return Some((e.value.key, e.value.value));
            }
            if hadSmaller {
              return None;
            }
            if BlockOf(num) == 0 {
              break;
            }
            var before := LastOf(num) - BLOCK_SIZE;
            PreviousBlock(contents, size, maxSize, key, num);
            if key - before > maxSize {
              return None;
            }
            num := before;
          }
        } else {
          NoCluster(hashtable, clusters, free, contents, owner, key, num);
        }
        if num < CLUSTER_SIZE {
          FirstCluster(contents, size, maxSize, key, num);
          return None;
        }
        var before := num / CLUSTER_SIZE * CLUSTER_SIZE + (CLUSTER_SIZE - 1) - CLUSTER_SIZE;
        PreviousCluster(contents, size, maxSize, key, num);
        if key - before > maxSize {
          return None;
        }
        num := before;
      }
      assert false;
    }

    lemma ClusterKnownHere(num: Key)
      requires Valid() && ClusterOf(num) in clusters
      ensures BlockOf(num) < |clusters[ClusterOf(num)]| && ListOf(clusters, num) == clusters[ClusterOf(num)][BlockOf(num)]
    {
      ClusterKnown(hashtable, clusters, ClusterOf(num));
    }

    // ---------------------------------------------------------------- all bindings

    /** Iterate: the bindings in the order in which the callback gets them. */
    method Iterate() returns (visited: seq<(Key, V)>)
      requires Valid()
      ensures visited == FlatTable(hashtable, clusters, HASH_SIZE)
    {
      TableSize(hashtable, clusters);
      hide Ok, HashInt, FlatChain;
      visited := [];
      for h := 0 to HASH_SIZE
        invariant |hashtable| == HASH_SIZE && visited == FlatTable(hashtable, clusters, h)
      {
        var inChain := VisitChain(h);
        visited := visited + inChain;
      }
    }

    /** The bindings of the clusters in one chain. */
    method VisitChain(h: nat) returns (visited: seq<(Key, V)>)
      requires Valid() && h < |hashtable|
      ensures visited == FlatChain(hashtable[h], clusters, |hashtable[h]|)
    {
      hide Ok, HashInt, FlatBlocks;
      visited := [];
      for i := 0 to |hashtable[h]|
        invariant visited == FlatChain(hashtable[h], clusters, i)
      {
        InTable(hashtable, clusters, free, contents, owner, h, hashtable[h][i]);
        var inCluster := VisitBlocks(clusters[hashtable[h][i]]);
        visited := visited + inCluster;
      }
    }

    /** The bindings of one cluster. */
    method VisitBlocks(blocks: seq<seq<Entry<V>>>) returns (visited: seq<(Key, V)>)
      ensures visited == FlatBlocks(blocks, |blocks|)
    {
      visited := [];
      for b := 0 to |blocks|
        invariant visited == FlatBlocks(blocks, b)
      {
        ghost var before := visited;
        for j := 0 to |blocks[b]|
          invariant visited == before + Pairs(blocks[b], j)
        {
          visited := visited + [(blocks[b][j].key, blocks[b][j].value)];
        }
      }
    }
  }

  // ------------------------------------------------------------------ facts the methods use

  lemma NotBound<V>(contents: map<Key, V>, key: Key)
    ensures key !in contents ==> contents - {key} == contents
  {}

  lemma ClusterLength<V(!new)>(c: nat, clusters: Clusters<V>)
    requires c in clusters && clusters[c] == NoBlocks()
    ensures |clusters[c]| == CLUSTER_BLOCKS
  {}

  lemma Assembled<V(!new)>(table: seq<seq<nat>>, clusters: Clusters<V>, free: seq<Id>, contents: map<Key, V>,
                           owner: map<Id, Option<Key>>)
    requires TableOk(table, clusters) && ListsOk(clusters, contents, owner) && Complete(clusters, contents)
    requires FreeOk(free, owner) && OwnersOk(clusters, owner)
    ensures Ok(table, clusters, free, contents, owner)
  {}

  lemma Assemble<V(!new)>(table: seq<seq<nat>>, clusters0: Clusters<V>, clusters: Clusters<V>, free: seq<Id>,
                          contents0: map<Key, V>, contents: map<Key, V>, owner: map<Id, Option<Key>>)
    requires Ok(table, clusters0, free, contents0, owner)
    requires TableOk(table, clusters) && ListsOk(clusters, contents, owner) && Complete(clusters, contents)
    requires OwnersOk(clusters, owner)
    ensures Ok(table, clusters, free, contents, owner)
  {}

  /** The keys of a list are those bound in its block. */
  lemma KeysOfList<V(!new)>(table: seq<seq<nat>>, clusters: Clusters<V>, free: seq<Id>, contents: map<Key, V>,
                            owner: map<Id, Option<Key>>, key: Key, k: Key)
    requires Ok(table, clusters, free, contents, owner)
    ensures k in Keys(ListOf(clusters, key)) <==> k in Keys(ListOf(clusters, k)) && SamePlace(k, key)
  {
    Lookup(table, clusters, free, contents, owner, key);
    if SamePlace(k, key) {
      assert ListOf(clusters, k) == ListOf(clusters, key);
    }
  }

  lemma SameKeys<V(!new)>(table: seq<seq<nat>>, clusters: Clusters<V>, free: seq<Id>, contents: map<Key, V>,
                          owner: map<Id, Option<Key>>, key: Key, l: seq<Entry<V>>)
    requires Ok(table, clusters, free, contents, owner) && Keys(l) == Keys(ListOf(clusters, key))
    ensures forall k :: k != key ==> (k in Keys(l) <==> k in Keys(ListOf(clusters, k)) && SamePlace(k, key))
  {
    forall k
      ensures k in Keys(l) <==> k in Keys(ListOf(clusters, k)) && SamePlace(k, key)
    {
      KeysOfList(table, clusters, free, contents, owner, key, k);
    }
  }

  lemma MoreKeys<V(!new)>(table: seq<seq<nat>>, clusters: Clusters<V>, free: seq<Id>, contents: map<Key, V>,
                          owner: map<Id, Option<Key>>, key: Key, l: seq<Entry<V>>)
    requires Ok(table, clusters, free, contents, owner) && Keys(l) == Keys(ListOf(clusters, key)) + {key}
    ensures forall k :: k != key ==> (k in Keys(l) <==> k in Keys(ListOf(clusters, k)) && SamePlace(k, key))
    ensures key in Keys(l)
  {
    forall k | k != key
      ensures k in Keys(l) <==> k in Keys(ListOf(clusters, k)) && SamePlace(k, key)
    {
      KeysOfList(table, clusters, free, contents, owner, key, k);
    }
  }

  lemma FewerKeys<V(!new)>(table: seq<seq<nat>>, clusters: Clusters<V>, free: seq<Id>, contents: map<Key, V>,
                           owner: map<Id, Option<Key>>, key: Key, l: seq<Entry<V>>)
    requires Ok(table, clusters, free, contents, owner) && Keys(l) == Keys(ListOf(clusters, key)) - {key}
    ensures forall k :: k != key ==> (k in Keys(l) <==> k in Keys(ListOf(clusters, k)) && SamePlace(k, key))
  {
    forall k | k != key
      ensures k in Keys(l) <==> k in Keys(ListOf(clusters, k)) && SamePlace(k, key)
    {
      KeysOfList(table, clusters, free, contents, owner, key, k);
    }
  }

  lemma FirstFree(free: seq<Id>, owner: map<Id, Option<Key>>)
    requires FreeOk(free, owner) && free != []
    ensures free[0] in owner && owner[free[0]] == None
    ensures forall k :: FreeOk(free[1..], owner[free[0] := Some(k)])
  {
    var x: Id, rest := free[0], free[1..];
    assert free == [x] + rest;
    assert x in free;
    assert x in owner && owner[x] == None;
    NoDupConcat([x], rest);
    hide NoDup;
    forall k
      ensures FreeOk(rest, owner[x := Some(k)])
    {
      forall id
        ensures id in rest <==> id in owner[x := Some(k)] && owner[x := Some(k)][id] == None
      {
        assert id in free <==> id == x || id in rest;
      }
    }
  }

  lemma NowFree(free: seq<Id>, owner: map<Id, Option<Key>>, id: Id)
    requires FreeOk(free, owner) && id in owner && owner[id].Some?
    ensures FreeOk([id] + free, owner[id := None])
  {
    NoDupConcat([id], free);
  }

  // ------------------------------------------------------------------ the search for a range

  /** The range of `size` bytes at `k` contains the key, or starts at it. */
  predicate Covers(k: Key, size: nat, key: Key) {
    k == key || k < key < k + size
  }

  /** The bound addresses start ranges that do not overlap (nor wrap around). */
  ghost predicate RangesApart<V>(contents: map<Key, V>, size: V -> nat) {
    forall a, b :: a in contents && b in contents && a < b ==> a + size(contents[a]) <= b
  }

  /** What FindInside finds. */
  ghost predicate Found<V>(contents: map<Key, V>, size: V -> nat, maxSize: nat, key: Key, k: Key) {
    && k in contents && Covers(k, size(contents[k]), key)
    && (Block(k) == Block(key) || key <= LastOf(k) + maxSize)
  }

  /** As documented: with max_size no less than any size, it finds the range whenever there is one. */
  lemma FindsAll<V>(contents: map<Key, V>, size: V -> nat, maxSize: nat, key: Key, k: Key)
    requires forall a :: a in contents ==> size(contents[a]) <= maxSize
    ensures Found(contents, size, maxSize, key, k) <==> k in contents && Covers(k, size(contents[k]), key)
  {
    assert k <= LastOf(k);
  }

  /** The cut-off by max_size alone: a containing range is found if it starts within max_size of
      the key. */
  lemma FindsNear<V>(contents: map<Key, V>, size: V -> nat, maxSize: nat, key: Key, k: Key)
    requires k in contents && Covers(k, size(contents[k]), key) && key - k <= maxSize
    ensures Found(contents, size, maxSize, key, k)
  {
    assert k <= LastOf(k);
  }

  lemma Apart<V>(contents: map<Key, V>, size: V -> nat, a: Key, b: Key)
    requires RangesApart(contents, size) && a in contents && b in contents
    ensures a < b ==> a + size(contents[a]) <= b
  {}

  lemma CoverUnique<V>(contents: map<Key, V>, size: V -> nat, key: Key, a: Key, b: Key)
    requires RangesApart(contents, size) && a in contents && b in contents
    requires Covers(a, size(contents[a]), key) && b <= key
    ensures b <= a
    ensures Covers(b, size(contents[b]), key) ==> a == b
  {
    Apart(contents, size, a, b);
    Apart(contents, size, b, a);
  }

  /** No bound address up to the key lies in block `b` or beyond. */
  ghost predicate NoneFrom<V>(contents: map<Key, V>, key: Key, b: nat) {
    forall k :: k in contents && k <= key ==> Block(k) < b
  }

  /** How far the search has come: `num` is the key or the last address of an earlier block, and
      all blocks after its own have been seen. */
  ghost predicate Searched<V>(contents: map<Key, V>, size: V -> nat, maxSize: nat, key: Key, num: Key) {
    && RangesApart(contents, size)
    && NoneFrom(contents, key, Block(num) + 1)
    && (num == key || (num == LastOf(num) && Block(num) < Block(key) && num < key <= num + maxSize))
  }

  lemma Monotone(a: Key, b: Key)
    requires a <= b
    ensures Block(a) <= Block(b) && ClusterOf(a) <= ClusterOf(b)
  {}

  lemma StartAt<V>(contents: map<Key, V>, key: Key)
    ensures NoneFrom(contents, key, Block(key) + 1)
  {
    forall k | k in contents && k <= key
      ensures Block(k) < Block(key) + 1
    {
      Monotone(k, key);
    }
  }

  lemma ListedInBlock<V(!new)>(l: seq<Entry<V>>, num: Key, contents: map<Key, V>, owner: map<Id, Option<Key>>)
    requires ListOk(ClusterOf(num), BlockOf(num), l, contents, owner)
    ensures forall e :: e in l ==> e.key in contents && contents[e.key] == e.value && Block(e.key) == Block(num)
  {
    BlockNumber(num);
    forall e | e in l
      ensures e.key in contents && contents[e.key] == e.value && Block(e.key) == Block(num)
    {
      BlockNumber(e.key);
    }
  }

  lemma SameBlock(k: Key, num: Key)
    requires Block(k) == Block(num)
    ensures SamePlace(k, num)
  {
    BlockNumber(num);
    BlockNumber(k);
    UniqueQuotient(ClusterOf(k), BlockOf(k), ClusterOf(num), BlockOf(num));
  }

  lemma UniqueQuotient(c: nat, b: nat, c': nat, b': nat)
    requires b < CLUSTER_BLOCKS && b' < CLUSTER_BLOCKS && c * CLUSTER_BLOCKS + b == c' * CLUSTER_BLOCKS + b'
    ensures c == c' && b == b'
  {}

  /** Everything in the block's list is a bound address of the block, and the other way round. */
  lemma BlockList<V(!new)>(table: seq<seq<nat>>, clusters: Clusters<V>, free: seq<Id>, contents: map<Key, V>,
                           owner: map<Id, Option<Key>>, num: Key)
    requires Ok(table, clusters, free, contents, owner)
    ensures forall e :: e in ListOf(clusters, num) ==> e.key in contents && contents[e.key] == e.value && Block(e.key) == Block(num)
    ensures forall k :: k in contents && Block(k) == Block(num) ==> exists e :: e in ListOf(clusters, num) && e.key == k
  {
    Lookup(table, clusters, free, contents, owner, num);
    hide Ok, Block, ListOk, ClusterOf, BlockOf;
    var l := ListOf(clusters, num);
    ListedInBlock(l, num, contents, owner);
    forall k | k in contents && Block(k) == Block(num)
      ensures exists e :: e in l && e.key == k
    {
      SameBlock(k, num);
      Lookup(table, clusters, free, contents, owner, k);
      assert k in Keys(ListOf(clusters, k)) && ListOf(clusters, k) == l;
    }
  }

  /** After one block's list has been scanned. */
  lemma Scanned<V(!new)>(table: seq<seq<nat>>, clusters: Clusters<V>, free: seq<Id>, contents: map<Key, V>,
                         owner: map<Id, Option<Key>>, size: V -> nat, maxSize: nat, key: Key, num: Key,
                         l: seq<Entry<V>>, r: Option<Entry<V>>, hadSmaller: bool)
    requires Ok(table, clusters, free, contents, owner) && Searched(contents, size, maxSize, key, num)
    requires l == ListOf(clusters, num)
    requires r.Some? ==> r.value in l && Covers(r.value.key, size(r.value.value), key)
    requires r == None ==> forall e :: e in l ==> !Covers(e.key, size(e.value), key)
    requires r == None ==> (hadSmaller <==> exists e :: e in l && e.key <= key)
    ensures r.Some? ==> r.value.key in contents && contents[r.value.key] == r.value.value
                        && forall k :: k == r.value.key <==> Found(contents, size, maxSize, key, k)
    ensures r == None && hadSmaller ==> forall k :: !Found(contents, size, maxSize, key, k)
    ensures r == None && !hadSmaller ==> NoneFrom(contents, key, Block(num))
  {
    BlockList(table, clusters, free, contents, owner, num);
    hide Ok, ListOf;
    if r.Some? {
      OnlyFound(contents, size, maxSize, key, num, r.value.key);
    } else if hadSmaller {
      var e :| e in l && e.key <= key;
      forall k | k in contents
        ensures !Covers(k, size(contents[k]), key)
      {
        if Block(k) == Block(num) {
          var x :| x in l && x.key == k;
        } else {
          EarlierMisses(contents, size, key, num, k, e.key);
        }
      }
    }
  }

  /** A range of an earlier block ends before another bound address, and so before the key. */
  lemma EarlierMisses<V>(contents: map<Key, V>, size: V -> nat, key: Key, num: Key, k: Key, e: Key)
    requires RangesApart(contents, size) && NoneFrom(contents, key, Block(num) + 1)
    requires k in contents && Block(k) != Block(num) && e in contents && e <= key && Block(e) == Block(num)
    ensures !Covers(k, size(contents[k]), key)
  {
    if k <= key {
      assert Block(k) < Block(e);
      Apart(contents, size, k, e);
    }
  }

  lemma OnlyFound<V>(contents: map<Key, V>, size: V -> nat, maxSize: nat, key: Key, num: Key, e: Key)
    requires Searched(contents, size, maxSize, key, num)
    requires e in contents && Covers(e, size(contents[e]), key) && Block(e) == Block(num)
    ensures forall k :: k == e <==> Found(contents, size, maxSize, key, k)
  {
    forall k
      ensures k == e <==> Found(contents, size, maxSize, key, k)
    {
      if Found(contents, size, maxSize, key, k) {
        CoverUnique(contents, size, key, k, e);
      }
    }
  }

  /** Beyond the cut-off nothing is found any more. */
  lemma CutOff<V>(contents: map<Key, V>, size: V -> nat, maxSize: nat, key: Key, before: Key)
    requires NoneFrom(contents, key, Block(before) + 1) && before == LastOf(before) && Block(before) < Block(key)
    requires key > before + maxSize
    ensures forall k :: !Found(contents, size, maxSize, key, k)
  {
    forall k | k in contents && k <= key
      ensures LastOf(k) <= before && Block(k) != Block(key)
    {}
  }

  lemma PreviousBlock<V>(contents: map<Key, V>, size: V -> nat, maxSize: nat, key: Key, num: Key)
    requires Searched(contents, size, maxSize, key, num) && NoneFrom(contents, key, Block(num)) && BlockOf(num) != 0
    ensures var before := LastOf(num) - BLOCK_SIZE;
            && 0 <= before < num && before < key && ClusterOf(before) == ClusterOf(num)
            && (key - before > maxSize ==> forall k :: !Found(contents, size, maxSize, key, k))
            && (key - before <= maxSize ==> Searched(contents, size, maxSize, key, before))
  {
    BlockNumber(num);
    assert Block(num) >= 1;
    var before := LastOf(num) - BLOCK_SIZE;
    assert Block(before) == Block(num) - 1 && LastOf(before) == before;
    BlockNumber(before);
    Quotients(ClusterOf(num), BlockOf(num), ClusterOf(before), BlockOf(before));
    Monotone(num, key);
    if key - before > maxSize {
      CutOff(contents, size, maxSize, key, before);
    }
  }

  lemma Quotients(c: nat, b: nat, c': nat, b': nat)
    requires 1 <= b < CLUSTER_BLOCKS && b' < CLUSTER_BLOCKS && c' * CLUSTER_BLOCKS + b' == c * CLUSTER_BLOCKS + b - 1
    ensures c' == c
  {}

  lemma PreviousCluster<V>(contents: map<Key, V>, size: V -> nat, maxSize: nat, key: Key, num: Key)
    requires Searched(contents, size, maxSize, key, num) && num >= CLUSTER_SIZE
    requires NoneFrom(contents, key, ClusterOf(num) * CLUSTER_BLOCKS)
    ensures var before := num / CLUSTER_SIZE * CLUSTER_SIZE + (CLUSTER_SIZE - 1) - CLUSTER_SIZE;
            && 0 <= before < num && before < key
            && (key - before > maxSize ==> forall k :: !Found(contents, size, maxSize, key, k))
            && (key - before <= maxSize ==> Searched(contents, size, maxSize, key, before))
  {
    var c := num / CLUSTER_SIZE;
    var before := c * CLUSTER_SIZE + (CLUSTER_SIZE - 1) - CLUSTER_SIZE;
    LastInCluster(c, before);
    BlockNumber(num);
    Monotone(num, key);
    if key - before > maxSize {
      CutOff(contents, size, maxSize, key, before);
    }
  }

  lemma LastInCluster(c: nat, before: Key)
    requires c >= 1 && before == c * CLUSTER_SIZE - 1
    ensures Block(before) + 1 == c * CLUSTER_BLOCKS && LastOf(before) == before
  {
    assert before == (c * 8192 - 1) * 128 + 127;
    assert before / 128 == c * 8192 - 1;
  }

  /** Nothing is bound in a cluster that does not exist. */
  lemma NoCluster<V(!new)>(table: seq<seq<nat>>, clusters: Clusters<V>, free: seq<Id>, contents: map<Key, V>,
                           owner: map<Id, Option<Key>>, key: Key, num: Key)
    requires Ok(table, clusters, free, contents, owner) && ClusterOf(num) !in clusters
    requires NoneFrom(contents, key, Block(num) + 1)
    ensures NoneFrom(contents, key, ClusterOf(num) * CLUSTER_BLOCKS)
  {
    BlockNumber(num);
    forall k | k in contents && k <= key
      ensures Block(k) < ClusterOf(num) * CLUSTER_BLOCKS
    {
      Lookup(table, clusters, free, contents, owner, k);
      assert k in Keys(ListOf(clusters, k));
      assert ClusterOf(k) in clusters;
      BlockNumber(k);
      EarlierCluster(ClusterOf(k), BlockOf(k), ClusterOf(num), BlockOf(num));
    }
  }

  lemma EarlierCluster(c: nat, b: nat, c': nat, b': nat)
    requires b < CLUSTER_BLOCKS && b' < CLUSTER_BLOCKS && c != c'
    requires c * CLUSTER_BLOCKS + b <= c' * CLUSTER_BLOCKS + b'
    ensures c * CLUSTER_BLOCKS + b < c' * CLUSTER_BLOCKS
  {}

  lemma FirstCluster<V>(contents: map<Key, V>, size: V -> nat, maxSize: nat, key: Key, num: Key)
    requires num < CLUSTER_SIZE && NoneFrom(contents, key, ClusterOf(num) * CLUSTER_BLOCKS)
    ensures forall k :: !Found(contents, size, maxSize, key, k)
  {
    assert ClusterOf(num) == 0;
  }

  lemma Everywhere<V(!new)>(l: seq<Entry<V>>, size: V -> nat, key: Key, hadSmaller: bool)
    requires forall j :: 0 <= j < |l| ==> !Covers(l[j].key, size(l[j].value), key)
    requires !hadSmaller ==> forall j :: 0 <= j < |l| ==> l[j].key > key
    ensures forall e :: e in l ==> !Covers(e.key, size(e.value), key)
    ensures !hadSmaller ==> forall e :: e in l ==> e.key > key
  {}

  // ------------------------------------------------------------------ the order of Iterate

  function Pairs<V>(l: seq<Entry<V>>, n: nat): seq<(Key, V)>
    requires n <= |l|
  {
    if n == 0 then [] else Pairs(l, n - 1) + [(l[n - 1].key, l[n - 1].value)]
  }

  function FlatBlocks<V>(blocks: seq<seq<Entry<V>>>, n: nat): seq<(Key, V)>
    requires n <= |blocks|
  {
    if n == 0 then [] else FlatBlocks(blocks, n - 1) + Pairs(blocks[n - 1], |blocks[n - 1]|)
  }

  function FlatChain<V>(chain: seq<nat>, clusters: Clusters<V>, n: nat): seq<(Key, V)>
    requires n <= |chain|
  {
    if n == 0 then []
    else
      var c := chain[n - 1];
      FlatChain(chain, clusters, n - 1) + if c in clusters then FlatBlocks(clusters[c], |clusters[c]|) else []
  }

  function FlatTable<V>(table: seq<seq<nat>>, clusters: Clusters<V>, n: nat): seq<(Key, V)>
    requires n <= |table|
  {
    if n == 0 then [] else FlatTable(table, clusters, n - 1) + FlatChain(table[n - 1], clusters, |table[n - 1]|)
  }

  lemma TableSize<V(!new)>(table: seq<seq<nat>>, clusters: Clusters<V>)
    requires TableOk(table, clusters)
    ensures |table| == HASH_SIZE
  {}

  lemma InTable<V(!new)>(table: seq<seq<nat>>, clusters: Clusters<V>, free: seq<Id>, contents: map<Key, V>,
                         owner: map<Id, Option<Key>>, h: nat, c: nat)
    requires Ok(table, clusters, free, contents, owner) && h < |table| && c in table[h]
    ensures c in clusters && |clusters[c]| == CLUSTER_BLOCKS && HashInt(c) == h
  {}

  lemma {:induction false} PairsOf<V(!new)>(l: seq<Entry<V>>, n: nat)
    requires n <= |l| && KeysDiffer(l)
    ensures forall p :: p in Pairs(l, n) <==> exists i :: 0 <= i < n && p == (l[i].key, l[i].value)
    ensures NoDup(Pairs(l, n))
  {
    if n > 0 {
      PairsOf(l, n - 1);
      var last := (l[n - 1].key, l[n - 1].value);
      NoDupConcat(Pairs(l, n - 1), [last]);
      hide NoDup;
      forall p
        ensures p in Pairs(l, n) <==> exists i :: 0 <= i < n && p == (l[i].key, l[i].value)
      {
        assert p in Pairs(l, n) <==> p in Pairs(l, n - 1) || p == last;
      }
    }
  }

  /** The bindings with a certain cluster and a block below `n`. */
  ghost predicate InCluster<V>(contents: map<Key, V>, p: (Key, V), c: nat, n: nat) {
    p.0 in contents && contents[p.0] == p.1 && ClusterOf(p.0) == c && BlockOf(p.0) < n
  }

  lemma {:induction false} BlocksOf<V(!new)>(table: seq<seq<nat>>, clusters: Clusters<V>, free: seq<Id>,
                                             contents: map<Key, V>, owner: map<Id, Option<Key>>, c: nat, n: nat)
    requires Ok(table, clusters, free, contents, owner) && c in clusters && n <= |clusters[c]| == CLUSTER_BLOCKS
    ensures forall p :: p in FlatBlocks(clusters[c], n) <==> InCluster(contents, p, c, n)
    ensures NoDup(FlatBlocks(clusters[c], n))
  {
    if n > 0 {
      BlocksOf(table, clusters, free, contents, owner, c, n - 1);
      var l := clusters[c][n - 1];
      assert ListOk(c, n - 1, l, contents, owner);
      PairsOf(l, |l|);
      forall p
        ensures p in Pairs(l, |l|) <==> InCluster(contents, p, c, n) && BlockOf(p.0) == n - 1
      {
        if InCluster(contents, p, c, n) && BlockOf(p.0) == n - 1 {
          Lookup(table, clusters, free, contents, owner, p.0);
          assert ListOf(clusters, p.0) == l;
          assert (l[Position(l, p.0)].key, l[Position(l, p.0)].value) == p;
        }
        if p in Pairs(l, |l|) {
          var i :| 0 <= i < |l| && p == (l[i].key, l[i].value);
          assert l[i] in l;
        }
      }
      NoDupConcat(FlatBlocks(clusters[c], n - 1), Pairs(l, |l|));
      hide NoDup, Ok, ListOk, Pairs, BlockOf, ClusterOf;
      forall p
        ensures p in FlatBlocks(clusters[c], n) <==> InCluster(contents, p, c, n)
      {
        assert p in FlatBlocks(clusters[c], n) <==> p in FlatBlocks(clusters[c], n - 1) || p in Pairs(l, |l|);
      }
    }
  }

  ghost predicate InClusters<V>(contents: map<Key, V>, p: (Key, V), chain: seq<nat>) {
    p.0 in contents && contents[p.0] == p.1 && ClusterOf(p.0) in chain
  }

  /** One cluster more. */
  lemma ChainStep<V(!new)>(contents: map<Key, V>, chain: seq<nat>, c: nat, before: seq<(Key, V)>, here: seq<(Key, V)>)
    requires NoDup(before) && NoDup(here) && c !in chain
    requires forall p :: p in before <==> InClusters(contents, p, chain)
    requires forall p :: p in here <==> InCluster(contents, p, c, CLUSTER_BLOCKS)
    ensures NoDup(before + here)
    ensures forall p :: p in before + here <==> InClusters(contents, p, chain + [c])
  {
    hide ClusterOf, BlockOf;
    NoDupConcat(before, here);
    hide NoDup;
    forall p
      ensures p in before + here <==> InClusters(contents, p, chain + [c])
    {
      assert p in before + here <==> p in before || p in here;
    }
  }

  lemma {:induction false} ChainOf<V(!new)>(table: seq<seq<nat>>, clusters: Clusters<V>, free: seq<Id>,
                                            contents: map<Key, V>, owner: map<Id, Option<Key>>, h: nat, n: nat)
    requires Ok(table, clusters, free, contents, owner) && h < |table| && n <= |table[h]|
    ensures forall p :: p in FlatChain(table[h], clusters, n) <==> InClusters(contents, p, table[h][..n])
    ensures NoDup(FlatChain(table[h], clusters, n))
  {
    hide Ok, HashInt, FlatBlocks, InCluster, ClusterOf;
    if n > 0 {
      hide NoDup, InClusters;
      var chain, c := table[h], table[h][n - 1];
      ChainOf(table, clusters, free, contents, owner, h, n - 1);
      InTable(table, clusters, free, contents, owner, h, c);
      BlocksOf(table, clusters, free, contents, owner, c, CLUSTER_BLOCKS);
      ChainPrefix(table, clusters, free, contents, owner, h, n);
      ChainStep(contents, chain[..n - 1], c, FlatChain(chain, clusters, n - 1), FlatBlocks(clusters[c], CLUSTER_BLOCKS));
    }
  }

  lemma ChainPrefix<V(!new)>(table: seq<seq<nat>>, clusters: Clusters<V>, free: seq<Id>, contents: map<Key, V>,
                             owner: map<Id, Option<Key>>, h: nat, n: nat)
    requires Ok(table, clusters, free, contents, owner) && h < |table| && 1 <= n <= |table[h]|
    ensures table[h][..n] == table[h][..n - 1] + [table[h][n - 1]] && table[h][n - 1] !in table[h][..n - 1]
  {
    assert NoDup(table[h]);
  }

  ghost predicate InChains<V>(contents: map<Key, V>, p: (Key, V), n: nat) {
    p.0 in contents && contents[p.0] == p.1 && HashInt(ClusterOf(p.0)) < n
  }

  ghost predicate InChain<V>(contents: map<Key, V>, p: (Key, V), h: nat) {
    p.0 in contents && contents[p.0] == p.1 && HashInt(ClusterOf(p.0)) == h
  }

  /** A whole chain holds what hashes to it. */
  lemma WholeChain<V(!new)>(table: seq<seq<nat>>, clusters: Clusters<V>, free: seq<Id>, contents: map<Key, V>,
                            owner: map<Id, Option<Key>>, h: nat)
    requires Ok(table, clusters, free, contents, owner) && h < |table|
    ensures forall p :: p in FlatChain(table[h], clusters, |table[h]|) <==> InChain(contents, p, h)
    ensures NoDup(FlatChain(table[h], clusters, |table[h]|))
  {
    ChainOf(table, clusters, free, contents, owner, h, |table[h]|);
    assert table[h][..|table[h]|] == table[h];
    hide Ok, HashInt, FlatChain, ClusterOf, NoDup;
    forall p
      ensures InClusters(contents, p, table[h]) <==> InChain(contents, p, h)
    {
      if p.0 in contents {
        BoundCluster(table, clusters, free, contents, owner, p.0);
      }
    }
  }

  /** One chain more. */
  lemma TableStep<V(!new)>(contents: map<Key, V>, n: nat, before: seq<(Key, V)>, here: seq<(Key, V)>)
    requires NoDup(before) && NoDup(here)
    requires forall p :: p in before <==> InChains(contents, p, n)
    requires forall p :: p in here <==> InChain(contents, p, n)
    ensures NoDup(before + here)
    ensures forall p :: p in before + here <==> InChains(contents, p, n + 1)
  {
    hide ClusterOf, HashInt;
    NoDupConcat(before, here);
    hide NoDup;
    forall p
      ensures p in before + here <==> InChains(contents, p, n + 1)
    {
      assert p in before + here <==> p in before || p in here;
    }
  }

  lemma {:induction false} TableOf<V(!new)>(table: seq<seq<nat>>, clusters: Clusters<V>, free: seq<Id>,
                                            contents: map<Key, V>, owner: map<Id, Option<Key>>, n: nat)
    requires Ok(table, clusters, free, contents, owner) && n <= |table|
    ensures forall p :: p in FlatTable(table, clusters, n) <==> InChains(contents, p, n)
    ensures NoDup(FlatTable(table, clusters, n))
  {
    if n > 0 {
      TableOf(table, clusters, free, contents, owner, n - 1);
      WholeChain(table, clusters, free, contents, owner, n - 1);
      hide Ok, NoDup, FlatChain, InChain, InChains;
      TableStep(contents, n - 1, FlatTable(table, clusters, n - 1), FlatChain(table[n - 1], clusters, |table[n - 1]|));
    }
  }

  lemma BoundCluster<V(!new)>(table: seq<seq<nat>>, clusters: Clusters<V>, free: seq<Id>, contents: map<Key, V>,
                              owner: map<Id, Option<Key>>, k: Key)
    requires Ok(table, clusters, free, contents, owner) && k in contents
    ensures |table| == HASH_SIZE
    ensures forall h :: 0 <= h < |table| ==> (ClusterOf(k) in table[h] <==> HashInt(ClusterOf(k)) == h)
  {
    Lookup(table, clusters, free, contents, owner, k);
    assert k in Keys(ListOf(clusters, k));
    assert ClusterOf(k) in clusters;
    hide HashInt;
  }

  /** Iterate visits every binding, and each only once. */
  lemma VisitedOnce<V(!new)>(m: Map<V>)
    requires m.Valid()
    ensures |m.hashtable| == HASH_SIZE
    ensures var visited := FlatTable(m.hashtable, m.clusters, HASH_SIZE);
            && NoDup(visited)
            && forall k, v :: (k, v) in visited <==> k in m.contents && m.contents[k] == v
  {
    TableOf(m.hashtable, m.clusters, m.free, m.contents, m.owner, HASH_SIZE);
    hide HashInt;
    var visited := FlatTable(m.hashtable, m.clusters, HASH_SIZE);
    forall k, v
      ensures (k, v) in visited <==> k in m.contents && m.contents[k] == v
    {
      assert (k, v) in visited <==> InChains(m.contents, (k, v), HASH_SIZE);
      assert HashInt(ClusterOf(k)) < HASH_SIZE;
    }
  }
}
