/**
  The direct-mapped cache that packs a key, or its upper part, and a value into one entry
  (packed-cache-inl.h), for all widths its constructor allows.
  */
module PackedCache {
  import opened Options
  import Arith
  import opened Powers

  // ------------------------------------------------------------------ shifts and masks

  /** x << n */
  function Shl(x: nat, n: nat): nat { x * Pow2(n) }

  /** x >> n */
  function Shr(x: nat, n: nat): nat { Arith.Quotient(x, Pow2(n)) }

  /** x & N_ONES_(n) */
  function Low(x: nat, n: nat): (r: nat)
    ensures r < Pow2(n)
  {
    x % Pow2(n)
  }

  lemma ShrShr(x: nat, a: nat, b: nat)
    ensures Shr(Shr(x, a), b) == Shr(x, a + b)
  {
    Pow2Add(a, b);
    hide Pow2;
    DivDiv(x, Pow2(a), Pow2(b));
  }

  lemma DivDiv(x: nat, p: nat, q: nat)
    requires p >= 1 && q >= 1 && p * q >= 1
    ensures x / p / q == x / (p * q)
  {
    var y, z := x / p, x / p / q;
    Arith.Between(x, p);
    Arith.Between(y, q);
    Nested(x, p, q, y, z);
    Arith.QuotientIs(x, p * q, z);
  }

  lemma Nested(x: nat, p: nat, q: nat, y: nat, z: nat)
    requires p >= 1 && q >= 1 && p * y <= x < p * (y + 1) && q * z <= y < q * (z + 1)
    ensures p * q * z <= x < p * q * (z + 1)
  {
    Arith.Order(p, q * z, y);
    Arith.Order(p, y + 1, q * (z + 1));
    assert p * (q * z) == p * q * z;
    assert p * (q * (z + 1)) == p * q * (z + 1);
  }

  /** What fits in `a + b` bits, shifted right by `a`, fits in `b`. */
  lemma ShrFits(x: nat, a: nat, b: nat)
    requires x < Pow2(a + b)
    ensures Shr(x, a) < Pow2(b)
  {
    Pow2Add(a, b);
    hide Pow2;
    Arith.Between(x, Pow2(a));
    Arith.Order(Pow2(a), Shr(x, a), Pow2(b));
  }

  lemma LowSmall(x: nat, n: nat)
    requires x < Pow2(n)
    ensures Low(x, n) == x
  {
    hide Pow2;
    Arith.SmallRemainder(x, Pow2(n));
  }

  /** Something shifted left by `n` bits, and something of `n` bits: both can be taken out again. */
  lemma Packed(u: nat, r: nat, n: nat)
    requires r < Pow2(n)
    ensures Shr(Shl(u, n) + r, n) == u && Low(Shl(u, n) + r, n) == r
  {
    hide Pow2;
    var p := Pow2(n);
    var x := u * p + r;
    assert u * p == p * u && p * (u + 1) == p * u + p;
    Arith.QuotientIs(x, p, u);
    assert x == p * (x / p) + x % p;
  }

  lemma PackedFits(u: nat, r: nat, low: nat, n: nat)
    requires u < Pow2(n) && r < Pow2(low)
    ensures Shl(u, low) + r < Pow2(n + low)
  {
    Pow2Add(n, low);
    hide Pow2;
    var p, m := Pow2(low), Pow2(n);
    Arith.Order(p, u + 1, m);
    assert p * (u + 1) == u * p + p && p * m == m * p;
  }

  lemma ShlOne(u: nat, v: nat, n: nat)
    ensures Shl(u, n) == Shl(v, n) <==> u == v
  {
    hide Pow2;
    var p := Pow2(n);
    Arith.Order(p, u, v);
    Arith.Order(p, v, u);
    assert u * p == p * u && v * p == p * v;
  }

  /** High and low bits make up the number. */
  lemma Whole(x: nat, y: nat, n: nat)
    requires Shr(x, n) == Shr(y, n) && Low(x, n) == Low(y, n)
    ensures x == y
  {
    hide Pow2;
    var p := Pow2(n);
    assert x == p * (x / p) + x % p && y == p * (y / p) + y % p;
  }

  // ------------------------------------------------------------------ entries

  /** kKeybits, kHashbits, kValuebits and the bits of an entry. */
  datatype Widths = Widths(key: nat, hash: nat, val: nat, entry: nat) {
    /** The compile-time assertions; kHashbits >= kValuebits is assumed by KeyToUpper. */
    predicate Good() {
      hash <= key && key - hash + val <= entry && val <= hash
    }

    /** kUseWholeKeys */
    predicate Whole() { key + val <= entry }

    /** kUpperbits */
    function UpperBits(): nat
      requires hash <= key
    {
      if Whole() then key else key - hash
    }
  }

  /** x & kUpperMask, a mask of `n` ones above `low` zeros */
  function Field(x: nat, low: nat, n: nat): nat {
    Shl(Low(Shr(x, low), n), low)
  }

  function KeyToUpper(w: Widths, k: nat): nat
    requires w.Good()
  {
    if w.Whole() then Low(Shl(Low(k, w.entry), w.val), w.entry)
    else Field(Low(Shr(k, w.hash - w.val), w.entry), w.val, w.UpperBits())
  }

  function Hash(w: Widths, k: nat): (h: nat)
    ensures h < Pow2(w.hash)
  {
    Low(k, w.hash)
  }

  function EntryToValue(w: Widths, e: nat): nat { Low(e, w.val) }

  /** Exclusive or with the key's upper part leaves nothing under the mask: the fields agree. */
  predicate KeyMatch(w: Widths, e: nat, k: nat)
    requires w.Good()
  {
    if w.Whole() then Shr(e, w.val) == k
    else Field(KeyToUpper(w, k), w.val, w.UpperBits()) == Field(e, w.val, w.UpperBits())
  }

  /** The part of a key that is stored. */
  function Upper(w: Widths, k: nat): nat {
    if w.Whole() then k else Shr(k, w.hash)
  }

  lemma UpperFits(w: Widths, k: nat)
    requires w.Good() && k < Pow2(w.key)
    ensures Upper(w, k) < Pow2(w.UpperBits())
  {
    hide Pow2, Shr;
    if !w.Whole() {
      ShrFits(k, w.hash, w.key - w.hash);
    }
  }

  lemma FieldIs(u: nat, r: nat, low: nat, n: nat)
    requires u < Pow2(n) && r < Pow2(low)
    ensures Field(Shl(u, low) + r, low, n) == Shl(u, low)
  {
    hide Pow2, Shl, Shr, Low;
    Packed(u, r, low);
    LowSmall(u, n);
  }

  lemma NoBits(n: nat)
    ensures 0 < Pow2(n)
  {}

  /** KeyToUpper puts the stored part of the key above the bits of the value, whole. */
  lemma KeyToUpperIs(w: Widths, k: nat)
    requires w.Good() && k < Pow2(w.key)
    ensures KeyToUpper(w, k) == Shl(Upper(w, k), w.val)
  {
    hide Pow2, Shl, Shr, Low;
    UpperFits(w, k);
    NoBits(w.val);
    if w.Whole() {
      Pow2Grows(w.key, w.entry);
      LowSmall(k, w.entry);
      PackedFits(k, 0, w.val, w.key);
      Pow2Grows(w.key + w.val, w.entry);
      LowSmall(Shl(k, w.val), w.entry);
    } else {
      var n := w.key - w.hash + w.val;
      assert w.hash - w.val + n == w.key;
      ShrFits(k, w.hash - w.val, n);
      Pow2Grows(n, w.entry);
      LowSmall(Shr(k, w.hash - w.val), w.entry);
      ShrShr(k, w.hash - w.val, w.val);
      LowSmall(Shr(k, w.hash), w.key - w.hash);
    }
  }

  /** An entry: KeyToUpper(key) | value; the two have no bits in common. */
  function Pack(w: Widths, k: nat, v: nat): nat
    requires w.Good()
  {
    KeyToUpper(w, k) + v
  }

  /** An entry matches exactly the keys with the same stored part, and gives its value back. */
  lemma PackedMatches(w: Widths, k: nat, v: nat, k': nat)
    requires w.Good() && k < Pow2(w.key) && k' < Pow2(w.key) && v < Pow2(w.val)
    ensures KeyMatch(w, Pack(w, k, v), k') <==> Upper(w, k) == Upper(w, k')
    ensures EntryToValue(w, Pack(w, k, v)) == v
    ensures Pack(w, k, v) < Pow2(w.entry)
  {
    KeyToUpperIs(w, k);
    KeyToUpperIs(w, k');
    UpperFits(w, k);
    UpperFits(w, k');
    hide Pow2, Shl, Shr, Low, KeyToUpper, Field;
    NoBits(w.val);
    var u, u' := Upper(w, k), Upper(w, k');
    Packed(u, v, w.val);
    FieldIs(u, v, w.val, w.UpperBits());
    FieldIs(u', 0, w.val, w.UpperBits());
    PackedFits(u, v, w.val, w.UpperBits());
    Pow2Grows(w.UpperBits() + w.val, w.entry);
    ShlOne(u, u', w.val);
  }

  /** Slot and stored part together determine the key. */
  lemma Injective(w: Widths, k: nat, k': nat)
    requires w.Good() && k < Pow2(w.key) && k' < Pow2(w.key)
    ensures Hash(w, k) == Hash(w, k') && KeyToUpper(w, k) == KeyToUpper(w, k') <==> k == k'
    ensures Hash(w, k) == Hash(w, k') && Upper(w, k) == Upper(w, k') <==> k == k'
  {
    KeyToUpperIs(w, k);
    KeyToUpperIs(w, k');
    hide Pow2, Shl, Shr, Low, KeyToUpper;
    ShlOne(Upper(w, k), Upper(w, k'), w.val);
    if Hash(w, k) == Hash(w, k') && Upper(w, k) == Upper(w, k') && !w.Whole() {
      Whole(k, k', w.hash);
    }
  }

  // ------------------------------------------------------------------ the cache

  /** Each slot holds one pair, whose key belongs there. */
  type Slots = seq<(nat, nat)>

  ghost predicate SlotsOk(w: Widths, slots: Slots) {
    |slots| == Pow2(w.hash)
    && forall i :: 0 <= i < |slots| ==> slots[i].0 < Pow2(w.key) && slots[i].1 < Pow2(w.val) && Hash(w, slots[i].0) == i
  }

  function Lookup(w: Widths, slots: Slots, k: nat): Option<nat>
    requires |slots| == Pow2(w.hash)
  {
    if slots[Hash(w, k)].0 == k then Some(slots[Hash(w, k)].1) else None
  }

  class Cache {
    const w: Widths
    const entries: array<nat>       // array_
    ghost var slots: Slots

    ghost predicate Valid()
      reads this, entries
    {
      && w.Good() && SlotsOk(w, slots) && entries.Length == |slots|
      && forall i :: 0 <= i < |slots| ==> entries[i] == Pack(w, slots[i].0, slots[i].1)
    }

    constructor (w: Widths, initial: nat)
      requires w.Good() && initial < Pow2(w.val)
      ensures Valid() && this.w == w && slots == Initial(w, initial) && fresh(entries)
    {
      this.w := w;
      entries := new nat[Pow2(w.hash)];
      new;
      Clear(initial);
    }

    method Clear(v: nat)
      requires w.Good() && entries.Length == Pow2(w.hash) && v < Pow2(w.val)
      modifies this`slots, entries
      ensures Valid() && slots == Initial(w, v)
    {
      hide KeyToUpper, Hash, Pow2, SlotsOk;
      InitialOk(w, v);
      slots := Initial(w, v);
      for i := 0 to entries.Length
        invariant slots == Initial(w, v) && forall j :: 0 <= j < i ==> entries[j] == Pack(w, j, v)
      {
        InitialKey(w, i);
        entries[i] := if w.Whole() then v + KeyToUpper(w, i) else v;
      }
    }

    method Put(k: nat, v: nat)
      requires Valid() && k < Pow2(w.key) && v < Pow2(w.val)
      modifies this`slots, entries
      ensures Valid() && slots == old(slots)[Hash(w, k) := (k, v)]
    {
      hide KeyToUpper, Hash, Pow2;
      entries[Hash(w, k)] := KeyToUpper(w, k) + v;
      slots := slots[Hash(w, k) := (k, v)];
    }

    method Has(k: nat) returns (has: bool)
      requires Valid() && k < Pow2(w.key)
      ensures has <==> Lookup(w, slots, k).Some?
    {
      EntryTells(k);
      has := KeyMatch(w, entries[Hash(w, k)], k);
    }

    method GetOrDefault(k: nat, default: nat) returns (v: nat)
      requires Valid() && k < Pow2(w.key)
      ensures v == if Lookup(w, slots, k).Some? then Lookup(w, slots, k).value else default
    {
      EntryTells(k);
      var entry := entries[Hash(w, k)];
      v := if KeyMatch(w, entry, k) then EntryToValue(w, entry) else default;
    }

    lemma EntryTells(k: nat)
      requires Valid() && k < Pow2(w.key)
      ensures Hash(w, k) < entries.Length
      ensures KeyMatch(w, entries[Hash(w, k)], k) <==> Lookup(w, slots, k).Some?
      ensures Lookup(w, slots, k).Some? ==> EntryToValue(w, entries[Hash(w, k)]) == Lookup(w, slots, k).value
    {
      var (k', v') := slots[Hash(w, k)];
      PackedMatches(w, k', v', k);
      Injective(w, k, k');
      hide KeyMatch, Pack, EntryToValue, Upper, KeyToUpper, Pow2;
    }
  }

  /** The cache after Clear: as if the value had been Put for the keys below 2^kHashbits. */
  function Initial(w: Widths, v: nat): (s: Slots)
    ensures |s| == Pow2(w.hash) && forall i :: 0 <= i < |s| ==> s[i] == (i, v)
  {
    seq(Pow2(w.hash), i requires 0 <= i < Pow2(w.hash) => (i, v))
  }

  lemma InitialOk(w: Widths, v: nat)
    requires w.Good() && v < Pow2(w.val)
    ensures SlotsOk(w, Initial(w, v))
  {
    hide Pow2, Low;
    Pow2Grows(w.hash, w.key);
    forall i: nat | i < Pow2(w.hash)
      ensures Hash(w, i) == i
    {
      LowSmall(i, w.hash);
    }
  }

  lemma InitialKey(w: Widths, i: nat)
    requires w.Good() && i < Pow2(w.hash)
    ensures !w.Whole() ==> KeyToUpper(w, i) == 0
  {
    hide Pow2, KeyToUpper, Shr;
    Pow2Grows(w.hash, w.key);
    KeyToUpperIs(w, i);
    assert w.hash + 0 == w.hash;
    ShrFits(i, w.hash, 0);
    NoneLeft();
  }

  lemma NoneLeft()
    ensures Pow2(0) == 1
  {}

  // ------------------------------------------------------------------ its laws, over any use

  datatype Use = PutPair(k: nat, v: nat) | ClearAll(v: nat)

  function Step(w: Widths, slots: Slots, u: Use): (s: Slots)
    requires |slots| == Pow2(w.hash)
    ensures |s| == |slots|
  {
    match u
    case PutPair(k, v) => slots[Hash(w, k) := (k, v)]
    case ClearAll(v) => Initial(w, v)
  }

  function Run(w: Widths, slots: Slots, uses: seq<Use>): (s: Slots)
    requires |slots| == Pow2(w.hash)
    ensures |s| == |slots|
  {
    if uses == [] then slots else Step(w, Run(w, slots, uses[..|uses| - 1]), uses[|uses| - 1])
  }

  /** After Put(key, value) and anything that does not Put, the key yields the value exactly if
      there was no Clear, or the key is below 2^kHashbits and the last Clear was with the same
      value. */
  lemma {:induction false} PutThenGet(w: Widths, slots: Slots, k: nat, v: nat, uses: seq<Use>)
    requires |slots| == Pow2(w.hash) && forall u :: u in uses ==> u.ClearAll?
    ensures Lookup(w, Run(w, Step(w, slots, PutPair(k, v)), uses), k) == Some(v)
            <==> uses == [] || (k < Pow2(w.hash) && uses[|uses| - 1].v == v)
  {
    if uses != [] {
      var last := uses[|uses| - 1];
      assert last in uses;
      assert last.ClearAll?;
      if k < Pow2(w.hash) {
        LowSmall(k, w.hash);
      }
    }
  }

  /** A key is present only if it was Put, or there from a Clear. */
  lemma {:induction false} HasOnlyPut(w: Widths, initial: nat, uses: seq<Use>, k: nat)
    ensures Lookup(w, Run(w, Initial(w, initial), uses), k).Some? ==>
              k < Pow2(w.hash) || exists v :: PutPair(k, v) in uses
  {
    if uses != [] {
      var n := |uses| - 1;
      HasOnlyPut(w, initial, uses[..n], k);
      assert uses[n] in uses;
      if v :| PutPair(k, v) in uses[..n] {
        assert PutPair(k, v) in uses;
      }
    }
  }

  /** Put for one key can only evict another key, and changes the value of none that stays. */
  lemma PutOther(w: Widths, slots: Slots, k: nat, v: nat, other: nat)
    requires |slots| == Pow2(w.hash) && other != k
    ensures var before, after := Lookup(w, slots, other), Lookup(w, Step(w, slots, PutPair(k, v)), other);
            && (after.Some? ==> after == before)
            && (after != before <==> before.Some? && Hash(w, k) == Hash(w, other))
  {
    hide Hash, Pow2, Low;
  }
}
