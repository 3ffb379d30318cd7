/**
  The chained hash table of NightWatch (utl_hash_map.c), which doubles when it is half full.
  Its users add only keys that are not in it; then it is a finite map, and doubling changes no
  lookup.
  */
module HashTable {
  import opened Options
  import opened Powers

  type Key = nat    // below 2^64

  const HT_INIT_KEY_LEN: nat := 10

  datatype Member<+V> = Member(key: Key, val: V)

  // ------------------------------------------------------------------ slots

  /** get_map_slot: `len` bits out of the middle of a square.  The mask has its ones there, so
      that masking and shifting take those bits. */
  function Slot(key: Key, len: nat): (slot: nat)
    requires len < 16
    ensures slot < Pow2(len)
  {
    var h := (key + key / Pow2(len) + key / Pow2(2 * len) + key / Pow2(4 * len)) % WORDS;
    h * h % WORDS / Pow2((64 - len) / 2) % Pow2(len)
  }

  /** In a new table, of 1024 slots, all keys up to 11574 share the first slot, and the next one has the second. */
  lemma SmallKeysMeet(key: Key)
    requires key <= 11574
    ensures Slot(key, 10) == 0 && Slot(11575, 10) == 1
  {
    hide Slot;
    SlotOfSmall(key, key + key / 1024);
    SlotOfSmall(11575, 11586);
  }

  lemma SlotOfSmall(key: Key, h: nat)
    requires key <= 11575 && h == key + key / 1024
    ensures Slot(key, 10) == if key == 11575 then 1 else 0
  {
    SmallPowers();
    hide Pow2;
    assert key / 0x10_0000 == 0 && key / 0x100_0000_0000 == 0 && h % WORDS == h;
    var square := h * h;
    assert Slot(key, 10) == square % WORDS / 0x800_0000 % 1024;
    hide Slot;
    if key < 11575 {
      assert key / 1024 <= 11;
      Times(h, 11585, h);
      Times(h, 11585, 11585);
    } else {
      assert h == 11586;
    }
    Middle(square, key == 11575);
  }

  lemma Times(a: nat, b: nat, n: nat)
    requires a <= b
    ensures a * n <= b * n
  {}

  lemma Middle(square: nat, last: bool)
    requires if last then square == 134_235_396 else square <= 134_212_225
    ensures square % WORDS / 0x800_0000 % 1024 == if last then 1 else 0
  {}

  lemma SmallPowers()
    ensures Pow2(10) == 1024 && Pow2(20) == 0x10_0000 && Pow2(40) == 0x100_0000_0000 && Pow2(27) == 0x800_0000
  {
    assert Pow2(5) == 32;
    assert Pow2(10) == 1024;
    assert Pow2(15) == 0x8000;
    assert Pow2(20) == 0x10_0000;
    assert Pow2(25) == 0x200_0000;
    assert Pow2(27) == 0x800_0000;
    assert Pow2(30) == 0x4000_0000;
    assert Pow2(35) == 0x8_0000_0000;
  }

  // ------------------------------------------------------------------ one chain

  ghost predicate KeysDiffer<V>(l: seq<Member<V>>) {
    forall i, j :: 0 <= i < j < |l| ==> l[i].key != l[j].key
  }

  /** Position of the first member with the key, or the length of the chain. */
  function Position<V>(l: seq<Member<V>>, key: Key): (i: nat)
    ensures i <= |l|
    ensures i < |l| ==> l[i].key == key
    ensures forall j :: 0 <= j < i ==> l[j].key != key
  {
    if l == [] || l[0].key == key then 0 else 1 + Position(l[1..], key)
  }

  /** `l` without its i-th member. */
  function Unlinked<V>(l: seq<Member<V>>, i: nat): seq<Member<V>>
    requires i < |l|
  {
    l[..i] + l[i + 1..]
  }

  lemma UnlinkedKeeps<V(!new)>(l: seq<Member<V>>, i: nat)
    requires i < |l| && KeysDiffer(l)
    ensures KeysDiffer(Unlinked(l, i)) && |Unlinked(l, i)| == |l| - 1
    ensures forall m :: m in Unlinked(l, i) <==> m in l && m.key != l[i].key
  {
    var r := Unlinked(l, i);
    forall m | m in r
      ensures m in l && m.key != l[i].key
    {
      var j :| 0 <= j < |r| && r[j] == m;
      assert m == l[if j < i then j else j + 1];
    }
    forall m | m in l && m.key != l[i].key
      ensures m in r
    {
      var j :| 0 <= j < |l| && l[j] == m;
      assert r[if j < i then j else j - 1] == m;
    }
    forall a, b | 0 <= a < b < |r|
      ensures r[a].key != r[b].key
    {
      assert r[a] == l[if a < i then a else a + 1] && r[b] == l[if b < i then b else b + 1];
    }
  }

  lemma PushKeeps<V(!new)>(l: seq<Member<V>>, m: Member<V>)
    requires KeysDiffer(l) && forall x :: x in l ==> x.key != m.key
    ensures KeysDiffer([m] + l) && forall x :: x in [m] + l <==> x == m || x in l
  {
    forall i, j | 0 <= i < j < |[m] + l|
      ensures ([m] + l)[i].key != ([m] + l)[j].key
    {
      assert l[j - 1] in l;
    }
  }

  // ------------------------------------------------------------------ the table

  /** Each member is in the chain of its slot, and nowhere else. */
  ghost predicate ChainOk<V(!new)>(chain: seq<Member<V>>, members: seq<Member<V>>, slot: nat, len: nat)
    requires len < 16
  {
    KeysDiffer(chain) && forall m :: m in chain <==> m in members && Slot(m.key, len) == slot
  }

  ghost predicate ChainsOk<V(!new)>(buckets: seq<seq<Member<V>>>, counts: seq<int>, members: seq<Member<V>>, len: nat) {
    && len < 16 && |buckets| == |counts| == Pow2(len)
    && (forall b :: 0 <= b < |buckets| ==> counts[b] == |buckets[b]|)
    && (forall b :: 0 <= b < |buckets| ==> ChainOk(buckets[b], members, b, len))
  }

  /** The members are the bindings of the map. */
  ghost predicate Represents<V>(members: seq<Member<V>>, contents: map<Key, V>) {
    && KeysDiffer(members)
    && (forall m :: m in members ==> m.key in contents && contents[m.key] == m.val)
    && (forall k :: k in contents ==> Member(k, contents[k]) in members)
  }

  lemma LookupOk<V(!new)>(buckets: seq<seq<Member<V>>>, counts: seq<int>, members: seq<Member<V>>, len: nat,
                          contents: map<Key, V>, key: Key)
    requires ChainsOk(buckets, counts, members, len) && Represents(members, contents)
    ensures Slot(key, len) < |buckets|
    ensures var l := buckets[Slot(key, len)];
            && (Position(l, key) < |l| <==> key in contents)
            && (key in contents ==> l[Position(l, key)] == Member(key, contents[key]))
  {
    var l := buckets[Slot(key, len)];
    assert ChainOk(l, members, Slot(key, len), len);
    hide Slot;
    var i := Position(l, key);
    if i < |l| {
      assert l[i] in l;
    }
    if key in contents {
      assert Member(key, contents[key]) in l;
    }
  }

  /** A member with a new key enters the chain of its slot. */
  lemma AddOk<V(!new)>(buckets: seq<seq<Member<V>>>, counts: seq<int>, members: seq<Member<V>>, len: nat,
                       m: Member<V>, members': seq<Member<V>>)
    requires ChainsOk(buckets, counts, members, len) && forall x :: x in members ==> x.key != m.key
    requires forall x :: x in members' <==> x == m || x in members
    ensures Slot(m.key, len) < |buckets|
    ensures var s := Slot(m.key, len);
            ChainsOk(buckets[s := [m] + buckets[s]], counts[s := counts[s] + 1], members', len)
  {
    var s := Slot(m.key, len);
    hide Slot;
    var buckets' := buckets[s := [m] + buckets[s]];
    forall b | 0 <= b < |buckets'|
      ensures ChainOk(buckets'[b], members', b, len)
    {
      assert ChainOk(buckets[b], members, b, len);
      if b == s {
        PushKeeps(buckets[s], m);
      }
    }
  }

  lemma DeleteOk<V(!new)>(buckets: seq<seq<Member<V>>>, counts: seq<int>, members: seq<Member<V>>, len: nat,
                          s: nat, i: nat, members': seq<Member<V>>)
    requires ChainsOk(buckets, counts, members, len) && s < |buckets| && i < |buckets[s]|
    requires forall x :: x in members' <==> x in members && x.key != buckets[s][i].key
    ensures ChainsOk(buckets[s := Unlinked(buckets[s], i)], counts[s := counts[s] - 1], members', len)
  {
    hide Slot, Unlinked;
    var m := buckets[s][i];
    var buckets' := buckets[s := Unlinked(buckets[s], i)];
    assert ChainOk(buckets[s], members, s, len);
    UnlinkedKeeps(buckets[s], i);
    assert m in buckets[s];
    forall b | 0 <= b < |buckets'|
      ensures ChainOk(buckets'[b], members', b, len)
    {
      assert ChainOk(buckets[b], members, b, len);
    }
  }

  lemma EmptyOk<V(!new)>(len: nat, buckets: seq<seq<Member<V>>>, counts: seq<int>)
    requires len < 16 && |buckets| == |counts| == Pow2(len)
    requires forall b :: 0 <= b < |buckets| ==> buckets[b] == [] && counts[b] == 0
    ensures ChainsOk(buckets, counts, [], len)
  {
    hide Slot;
  }

  lemma RepresentsAdd<V(!new)>(members: seq<Member<V>>, contents: map<Key, V>, m: Member<V>)
    requires Represents(members, contents) && m.key !in contents
    ensures Represents([m] + members, contents[m.key := m.val])
    ensures forall x :: x in members ==> x.key != m.key
    ensures forall x :: x in [m] + members <==> x == m || x in members
  {
    PushKeeps(members, m);
    hide KeysDiffer;
  }

  lemma RepresentsDelete<V(!new)>(members: seq<Member<V>>, contents: map<Key, V>, i: nat)
    requires Represents(members, contents) && i < |members|
    ensures Represents(Unlinked(members, i), contents - {members[i].key})
  {
    UnlinkedKeeps(members, i);
    hide KeysDiffer, Unlinked;
  }

  class HashMap<V(!new)> {
    var buckets: seq<seq<Member<V>>>    // map[].entry
    var counts: seq<int>                // map[].n
    var size: int
    var fill: int
    var keyLen: nat
    var members: seq<Member<V>>
    ghost var contents: map<Key, V>

    /** The number of members never exceeds half the size by more than one. */
    ghost predicate Valid()
      reads this
    {
      && ChainsOk(buckets, counts, members, keyLen)
      && Represents(members, contents)
      && size == |buckets| && fill == |members| && fill <= size / 2 + 1
      && 1 <= keyLen
    }

    /** A table may grow as long as the shifts of get_map_slot stay below 64. */
    ghost predicate MayGrow()
      reads this
    {
      keyLen < 15 || fill <= size / 2
    }

    constructor ()
      ensures Valid() && contents == map[] && MayGrow()
    {
      assert Pow2(10) == 1024;
      keyLen := HT_INIT_KEY_LEN;
      size, fill := 1024, 0;
      buckets, counts := seq(1024, _ => []), seq(1024, _ => 0);
      members, contents := [], map[];
      new;
      EmptyOk(keyLen, buckets, counts);
      hide Slot, Pow2;
    }

    /** get_map_member on the chain of the key. */
    method Search(l: seq<Member<V>>, key: Key) returns (i: nat)
      ensures i == Position(l, key)
    {
      i := 0;
      while i < |l|
        invariant i <= |l| && Position(l, key) == i + Position(l[i..], key)
      {
        if l[i].key == key {
          return;
        }
        i := i + 1;
      }
    }

    method Find(key: Key) returns (r: Option<V>)
      requires Valid()
      ensures r == if key in contents then Some(contents[key]) else None
    {
      LookupOk(buckets, counts, members, keyLen, contents, key);
      hide ChainsOk, Slot, Represents;
      var l := buckets[Slot(key, keyLen)];
      var i := Search(l, key);
      if i == |l| {
        return None;
      }
      return Some(l[i].val);
    }

    /** hash_map_rebuild: the contents, and with them all lookups, stay what they are. */
    method Rebuild()
      requires Valid() && keyLen < 15
      modifies this
      ensures Valid() && contents == old(contents) && members == old(members)
      ensures fill == old(fill) && if fill == 0 then size == old(size) else size == 2 * old(size)
    {
      if members == [] {
        return;
      }
      ghost var size0 := size;
      assert Pow2(keyLen + 1) == 2 * Pow2(keyLen);
      size := size * 2;
      keyLen := keyLen + 1;
      buckets, counts := Rehash(members, keyLen, size);
    }

    /** Its loop: each member, the newest first, goes to the front of its new chain. */
    method Rehash(members: seq<Member<V>>, len: nat, size: nat) returns (buckets: seq<seq<Member<V>>>, counts: seq<int>)
      requires len < 16 && size == Pow2(len) && KeysDiffer(members)
      ensures ChainsOk(buckets, counts, members, len) && |buckets| == size
    {
      hide Slot, Pow2;
      buckets, counts := seq(size, _ => []), seq(size, _ => 0);
      EmptyOk(len, buckets, counts);
      assert members[..0] == [];
      for i := 0 to |members|
        invariant ChainsOk(buckets, counts, members[..i], len) && |buckets| == size
      {
        TakeNext(members, i);
        AddOk(buckets, counts, members[..i], len, members[i], members[..i + 1]);
        var s := Slot(members[i].key, len);
        hide ChainsOk;
        counts := counts[s := counts[s] + 1];
        buckets := buckets[s := [members[i]] + buckets[s]];
      }
      assert members[..|members|] == members;
    }

    /** hash_map_add_member, for a key that is not in the table. */
    method Add(key: Key, val: V)
      requires Valid() && MayGrow() && key !in contents
      modifies this
      ensures Valid() && contents == old(contents)[key := val]
    {
      if size / 2 < fill {
        Rebuild();
      }
      var m := Member(key, val);
      RepresentsAdd(members, contents, m);
      AddOk(buckets, counts, members, keyLen, m, [m] + members);
      hide ChainsOk, Represents, Slot;
      InRange(buckets, counts, members, keyLen);
      var s := Slot(key, keyLen);
      buckets := buckets[s := [m] + buckets[s]];
      members := [m] + members;
      counts := counts[s := counts[s] + 1];
      fill := fill + 1;
      contents := contents[key := val];
    }

    /** hash_map_delete_member; nothing happens if there is no such member. */
    method Delete(key: Key)
      requires Valid()
      modifies this
      ensures Valid() && contents == old(contents) - {key}
    {
      LookupOk(buckets, counts, members, keyLen, contents, key);
      InRange(buckets, counts, members, keyLen);
      hide ChainsOk, Represents, Slot, Unlinked, Position;
      var s := Slot(key, keyLen);
      var i := Search(buckets[s], key);
      if i == |buckets[s]| {
        assert contents - {key} == contents;
        return;
      }
      Drop(key, s, i);
    }

    /** The member found is taken off its chain and off the list of all members. */
    method Drop(key: Key, s: nat, i: nat)
      requires Valid() && s < |buckets| && i < |buckets[s]| && buckets[s][i].key == key
      modifies this
      ensures Valid() && contents == old(contents) - {key}
    {
      hide ChainsOk, Represents, Slot, Unlinked, Position;
      InRange(buckets, counts, members, keyLen);
      MemberAt(buckets, counts, members, keyLen, s, i);
      var p := Search(members, key);
      KeyUnlinked(members, contents, p);
      RepresentsDelete(members, contents, p);
      DeleteOk(buckets, counts, members, keyLen, s, i, Unlinked(members, p));
      buckets := buckets[s := Unlinked(buckets[s], i)];
      members := Unlinked(members, p);
      counts := counts[s := counts[s] - 1];
      fill := fill - 1;
      contents := contents - {key};
    }
  }

  lemma TakeNext<V(!new)>(members: seq<Member<V>>, i: nat)
    requires i < |members| && KeysDiffer(members)
    ensures forall x :: x in members[..i] ==> x.key != members[i].key
    ensures forall x :: x in members[..i + 1] <==> x == members[i] || x in members[..i]
  {
    assert members[..i + 1] == members[..i] + [members[i]];
  }

  lemma InRange<V(!new)>(buckets: seq<seq<Member<V>>>, counts: seq<int>, members: seq<Member<V>>, len: nat)
    requires ChainsOk(buckets, counts, members, len)
    ensures len < 16 && |counts| == |buckets| && forall key :: Slot(key, len) < |buckets|
  {
    hide Slot;
  }

  lemma MemberAt<V(!new)>(buckets: seq<seq<Member<V>>>, counts: seq<int>, members: seq<Member<V>>, len: nat, s: nat, i: nat)
    requires ChainsOk(buckets, counts, members, len) && s < |buckets| && i < |buckets[s]|
    ensures Position(members, buckets[s][i].key) < |members|
  {
    assert ChainOk(buckets[s], members, s, len);
    hide Slot;
    assert buckets[s][i] in buckets[s];
  }

  lemma KeyUnlinked<V(!new)>(members: seq<Member<V>>, contents: map<Key, V>, p: nat)
    requires Represents(members, contents) && p < |members|
    ensures |Unlinked(members, p)| == |members| - 1
    ensures forall x :: x in Unlinked(members, p) <==> x in members && x.key != members[p].key
  {
    UnlinkedKeeps(members, p);
  }

  // ------------------------------------------------------------------ keys added twice

  /** What looking for the key in a list of members yields. */
  function First<V>(l: seq<Member<V>>, key: Key): Option<V> {
    if l == [] then None else if l[0].key == key then Some(l[0].val) else First(l[1..], key)
  }

  /** The value of the last one with the key. */
  function Last<V>(l: seq<Member<V>>, key: Key): Option<V> {
    if l == [] then None
    else if l[|l| - 1].key == key then Some(l[|l| - 1].val)
    else Last(l[..|l| - 1], key)
  }

  /** The chain of a slot as additions make it: the newest member first, as in `members`. */
  function Chain<V>(members: seq<Member<V>>, slot: nat, len: nat): seq<Member<V>>
    requires len < 16
  {
    if members == [] then []
    else (if Slot(members[0].key, len) == slot then [members[0]] else []) + Chain(members[1..], slot, len)
  }

  /** The chain of a slot as rebuilding makes it: each member, the newest first, is put in front. */
  function Rehashed<V>(members: seq<Member<V>>, slot: nat, len: nat): seq<Member<V>>
    requires len < 16
  {
    if members == [] then []
    else
      var n := |members| - 1;
      (if Slot(members[n].key, len) == slot then [members[n]] else []) + Rehashed(members[..n], slot, len)
  }

  /** Before, a lookup finds the newest member with the key ... */
  lemma {:induction false} FindsNewest<V(!new)>(members: seq<Member<V>>, len: nat, key: Key)
    requires len < 16
    ensures First(Chain(members, Slot(key, len), len), key) == First(members, key)
  {
    hide Slot;
    if members != [] {
      FindsNewest(members[1..], len, key);
      var rest := Chain(members[1..], Slot(key, len), len);
      assert ([members[0]] + rest)[1..] == rest && [] + rest == rest;
    }
  }

  /** ... and after rebuilding the oldest. */
  lemma {:induction false} FindsOldest<V(!new)>(members: seq<Member<V>>, len: nat, key: Key)
    requires len < 16
    ensures First(Rehashed(members, Slot(key, len), len), key) == Last(members, key)
  {
    hide Slot;
    if members != [] {
      var n := |members| - 1;
      FindsOldest(members[..n], len, key);
      var rest := Rehashed(members[..n], Slot(key, len), len);
      assert ([members[n]] + rest)[1..] == rest && [] + rest == rest;
    }
  }

  lemma {:induction false} LastBehind<V(!new)>(m: Member<V>, members: seq<Member<V>>, key: Key)
    ensures Last([m] + members, key) ==
              if Last(members, key) == None && m.key == key then Some(m.val) else Last(members, key)
  {
    if members != [] {
      var n := |members| - 1;
      LastBehind(m, members[..n], key);
      assert ([m] + members)[..n + 1] == [m] + members[..n];
    }
  }

  lemma {:induction false} LastNone<V(!new)>(members: seq<Member<V>>, key: Key)
    ensures Last(members, key) == None <==> forall m :: m in members ==> m.key != key
  {
    if members != [] {
      var n := |members| - 1;
      LastNone(members[..n], key);
      assert members == members[..n] + [members[n]];
      assert forall m :: m in members <==> m in members[..n] || m == members[n];
    }
  }

  /** Rebuilding leaves what a newly added key yields as it is, whatever the value, exactly if the
      key was not in the table before: otherwise an older value comes back. */
  lemma RebuildKeepsFresh<V(!new)>(members: seq<Member<V>>, key: Key, len: nat, a: V, b: V)
    requires len < 15 && a != b
    ensures (forall v :: var now := [Member(key, v)] + members;
               First(Chain(now, Slot(key, len), len), key) == First(Rehashed(now, Slot(key, len + 1), len + 1), key))
            <==> forall m :: m in members ==> m.key != key
  {
    LastNone(members, key);
    hide Slot;
    forall v
      ensures var now := [Member(key, v)] + members;
              && First(Chain(now, Slot(key, len), len), key) == Some(v)
              && First(Rehashed(now, Slot(key, len + 1), len + 1), key)
                 == if Last(members, key) == None then Some(v) else Last(members, key)
    {
      var now := [Member(key, v)] + members;
      FindsNewest(now, len, key);
      FindsOldest(now, len + 1, key);
      LastBehind(Member(key, v), members, key);
    }
    hide Chain, Rehashed, First;
    if Last(members, key) != None {
      var other := if Last(members, key) == Some(a) then b else a;
      var now := [Member(key, other)] + members;
      assert First(Chain(now, Slot(key, len), len), key) == Some(other);
      assert First(Rehashed(now, Slot(key, len + 1), len + 1), key) == Last(members, key);
    }
  }
}
