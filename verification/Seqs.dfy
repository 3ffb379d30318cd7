/** Facts about duplicate-free sequences that several components share. */
module Seqs {

  ghost predicate NoDup<T>(s: seq<T>) {
    forall i, j :: 0 <= i < j < |s| ==> s[i] != s[j]
  }

  function Elems<T(==)>(s: seq<T>): set<T> {
    set x | x in s
  }

  /** `s` without the first occurrence of `x`: unlinking one node of a list. */
  function Without<T(==)>(s: seq<T>, x: T): (r: seq<T>)
    ensures x !in s ==> r == s
    ensures x in s ==> |r| == |s| - 1
  {
    if s == [] then [] else if s[0] == x then s[1..] else [s[0]] + Without(s[1..], x)
  }

  lemma {:induction false} WithoutElems<T>(s: seq<T>, x: T)
    requires NoDup(s)
    ensures NoDup(Without(s, x))
    ensures forall y :: y in Without(s, x) <==> y in s && y != x
  {
    if s != [] {
      assert s == [s[0]] + s[1..];
      WithoutElems(s[1..], x);
      var r := Without(s[1..], x);
      if s[0] != x {
        assert Without(s, x) == [s[0]] + r;
        assert s[0] !in r;
      } else {
        assert forall y :: y in s[1..] ==> y != x;
      }
    }
  }

  lemma {:induction false} NoDupCard<T>(s: seq<T>)
    requires NoDup(s)
    ensures |Elems(s)| == |s|
  {
    if s != [] {
      NoDupCard(s[1..]);
      assert Elems(s) == {s[0]} + Elems(s[1..]);
      assert s[0] !in s[1..];
    }
  }

  /** A duplicate-free part of `all` that misses one of its elements is shorter ... */
  lemma MissingOne<T>(part: seq<T>, all: seq<T>, x: T)
    requires NoDup(part) && NoDup(all)
    requires forall y :: y in part ==> y in all
    requires x in all && x !in part
    ensures |part| < |all|
    ensures |part| + 1 == |all| ==> forall y :: y in all ==> y in part || y == x
  {
    NoDupCard(part);
    NoDupCard(all);
    SubsetCard(Elems(part) + {x}, Elems(all));
    assert |Elems(part) + {x}| == |part| + 1;
    if |part| + 1 == |all| {
      forall y | y in all
        ensures y in part || y == x
      {
        assert y in Elems(all);
      }
    }
  }

  lemma {:induction false} SubsetCard<T>(a: set<T>, b: set<T>)
    requires a <= b
    ensures |a| <= |b|
    ensures |a| == |b| ==> a == b
  {
    if a != {} {
      var x :| x in a;
      SubsetCard(a - {x}, b - {x});
      if |a| == |b| {
        assert a == (a - {x}) + {x} && b == (b - {x}) + {x};
      }
    }
  }

  /** Duplicate-free and disjoint parts make a duplicate-free whole, and the other way round. */
  lemma NoDupConcat<T>(a: seq<T>, b: seq<T>)
    ensures NoDup(a + b) <==> NoDup(a) && NoDup(b) && forall x :: x in a ==> x !in b
  {
    var s := a + b;
    if NoDup(s) {
      forall i, j | 0 <= i < j < |b|
        ensures b[i] != b[j]
      {
        assert s[|a| + i] == b[i] && s[|a| + j] == b[j];
      }
      forall i, j | 0 <= i < j < |a|
        ensures a[i] != a[j]
      {
        assert s[i] == a[i] && s[j] == a[j];
      }
      forall i, j | 0 <= i < |a| && 0 <= j < |b|
        ensures a[i] != b[j]
      {
        assert s[i] == a[i] && s[|a| + j] == b[j];
      }
    }
    if NoDup(a) && NoDup(b) && forall x :: x in a ==> x !in b {
      forall i, j | 0 <= i < j < |s|
        ensures s[i] != s[j]
      {
        if i < |a| <= j {
          assert s[i] in a && s[j] == b[j - |a|] && s[j] in b;
        }
      }
    }
  }

  lemma NoDupPush<T>(x: T, s: seq<T>)
    ensures NoDup([x] + s) <==> x !in s && NoDup(s)
  {
    NoDupConcat([x], s);
  }
}
