/** Time values, and the list of pending events in order of trigger time (event_queue.h and
    the list handling of event_queue.c). */
module Timers {

  /** How early an event may fire, in microseconds. */
  const TIMER_RESOLUTION: int := 50

  const MICROSECONDS: int := 1_000_000

  // ------------------------------------------------------------------ struct timeval

  datatype TimeVal = TimeVal(sec: int, usec: int) {
    predicate Normal() {
      0 <= usec < MICROSECONDS
    }

    /** The instant or duration in microseconds. */
    function Value(): int {
      sec * MICROSECONDS + usec
    }
  }

  /** usec2tv */
  function OfMicroseconds(usec: nat): (t: TimeVal)
    ensures t.Normal() && t.Value() == usec
  {
    TimeVal(usec / MICROSECONDS, usec % MICROSECONDS)
  }

  /** tv_cmp orders times as their values. */
  function Compare(a: TimeVal, b: TimeVal): (r: int)
    requires a.Normal() && b.Normal()
    ensures r == 1 <==> a.Value() > b.Value()
    ensures r == -1 <==> a.Value() < b.Value()
    ensures r == 0 <==> a == b
  {
    if a.sec > b.sec then 1 else if a.sec < b.sec then -1
    else if a.usec > b.usec then 1 else if a.usec < b.usec then -1 else 0
  }

  /** tv_add */
  function Plus(a: TimeVal, b: TimeVal): (r: TimeVal)
    requires a.Normal() && b.Normal()
    ensures r.Normal() && r.Value() == a.Value() + b.Value()
  {
    var usec, sec := a.usec + b.usec, a.sec + b.sec;
    if usec >= MICROSECONDS then TimeVal(sec + usec / MICROSECONDS, usec % MICROSECONDS) else TimeVal(sec, usec)
  }

  /** tv_sub */
  function Minus(a: TimeVal, b: TimeVal): (r: TimeVal)
    requires a.Normal() && b.Normal()
    ensures r.Normal() && r.Value() == a.Value() - b.Value()
  {
    if a.usec < b.usec then TimeVal(a.sec - (b.sec + 1), a.usec + (MICROSECONDS - b.usec))
    else TimeVal(a.sec - b.sec, a.usec - b.usec)
  }

  // ------------------------------------------------------------------ the sorted list

  datatype Event<+K> = Event(key: K, trigger: int)

  ghost predicate Sorted<K>(q: seq<Event<K>>) {
    forall i, j :: 0 <= i <= j < |q| ==> q[i].trigger <= q[j].trigger
  }

  /** No key is queued twice. */
  ghost predicate KeysDiffer<K(!new)>(q: seq<Event<K>>) {
    forall i, j :: 0 <= i < j < |q| ==> q[i].key != q[j].key
  }

  ghost predicate Queued<K>(q: seq<Event<K>>, key: K) {
    exists e :: e in q && e.key == key
  }

  /** The position at which add_time_event stops its search: the first later event. */
  function Position<K>(q: seq<Event<K>>, trigger: int): (i: nat)
    ensures i <= |q|
    ensures forall j :: 0 <= j < i ==> q[j].trigger <= trigger
    ensures i < |q| ==> trigger < q[i].trigger
  {
    if q == [] || trigger < q[0].trigger then 0 else 1 + Position(q[1..], trigger)
  }

  function Insert<K>(q: seq<Event<K>>, e: Event<K>): seq<Event<K>> {
    var i := Position(q, e.trigger);
    q[..i] + [e] + q[i..]
  }

  lemma InsertAt<K(!new)>(q: seq<Event<K>>, e: Event<K>, j: nat)
    requires j <= |q|
    ensures |Insert(q, e)| == |q| + 1
    ensures var i := Position(q, e.trigger);
            Insert(q, e)[j] == if j < i then q[j] else if j == i then e else q[j - 1]
  {}

  /** A new event keeps the order and comes behind all of equal trigger time. */
  lemma InsertSorted<K(!new)>(q: seq<Event<K>>, e: Event<K>)
    requires Sorted(q)
    ensures Sorted(Insert(q, e))
  {
    var r := Insert(q, e);
    forall a, b | 0 <= a <= b < |r|
      ensures r[a].trigger <= r[b].trigger
    {
      InsertAt(q, e, a);
      InsertAt(q, e, b);
      hide Insert;
      var i := Position(q, e.trigger);
      assert i < |q| && b > i ==> q[i].trigger <= q[b - 1].trigger;
    }
  }

  /** No other event is lost or doubled. */
  lemma InsertElems<K(!new)>(q: seq<Event<K>>, e: Event<K>)
    ensures forall x :: x in Insert(q, e) <==> x == e || x in q
    ensures multiset(Insert(q, e)) == multiset(q) + multiset{e}
  {
    var i := Position(q, e.trigger);
    hide Position;
    assert q == q[..i] + q[i..];
    assert forall x :: x in q <==> x in q[..i] || x in q[i..];
  }

  lemma InsertKeys<K(!new)>(q: seq<Event<K>>, e: Event<K>)
    requires KeysDiffer(q) && !Queued(q, e.key)
    ensures KeysDiffer(Insert(q, e))
  {
    var r := Insert(q, e);
    forall a, b | 0 <= a < b < |r|
      ensures r[a].key != r[b].key
    {
      InsertAt(q, e, a);
      InsertAt(q, e, b);
      hide Insert;
      assert forall j :: 0 <= j < |q| ==> q[j] in q;
    }
  }

  /** The position of a key's event. */
  function Find<K(==)>(q: seq<Event<K>>, key: K): (i: nat)
    ensures i <= |q|
    ensures i < |q| ==> q[i].key == key
    ensures forall j :: 0 <= j < i ==> q[j].key != key
  {
    if q == [] || q[0].key == key then 0 else 1 + Find(q[1..], key)
  }

  function Remove<K(==)>(q: seq<Event<K>>, key: K): seq<Event<K>> {
    var i := Find(q, key);
    if i < |q| then q[..i] + q[i + 1..] else q
  }

  lemma RemoveAt<K(!new)>(q: seq<Event<K>>, key: K, j: nat)
    requires Find(q, key) < |q| && j + 1 < |q|
    ensures |Remove(q, key)| == |q| - 1
    ensures Remove(q, key)[j] == if j < Find(q, key) then q[j] else q[j + 1]
  {}

  lemma FindQueued<K(!new)>(q: seq<Event<K>>, key: K)
    ensures Find(q, key) < |q| <==> Queued(q, key)
  {
    if Find(q, key) < |q| {
      assert q[Find(q, key)] in q;
    }
  }

  lemma RemoveOrdered<K(!new)>(q: seq<Event<K>>, key: K)
    requires Sorted(q) && KeysDiffer(q)
    ensures Sorted(Remove(q, key)) && KeysDiffer(Remove(q, key))
  {
    if Find(q, key) < |q| {
      var r := Remove(q, key);
      forall a, b | 0 <= a < b < |q| - 1
        ensures |r| == |q| - 1 && r[a].trigger <= r[b].trigger && r[a].key != r[b].key
      {
        RemoveAt(q, key, a);
        RemoveAt(q, key, b);
      }
    }
  }

  lemma OthersDiffer<K(!new)>(q: seq<Event<K>>, i: nat, x: Event<K>)
    requires KeysDiffer(q) && i < |q| && x in q[..i] + q[i + 1..]
    ensures x.key != q[i].key
  {
    var rest := q[..i] + q[i + 1..];
    var j :| 0 <= j < |rest| && rest[j] == x;
    assert x == q[if j < i then j else j + 1];
  }

  lemma RemoveIs<K(!new)>(q: seq<Event<K>>, key: K)
    requires Find(q, key) < |q|
    ensures var i := Find(q, key); q[i].key == key && Remove(q, key) == q[..i] + q[i + 1..]
  {
    hide Find;
  }

  lemma SplitAt<T>(q: seq<T>, i: nat)
    requires i < |q|
    ensures q == q[..i] + [q[i]] + q[i + 1..]
  {}

  /** Exactly the event of the key goes. */
  lemma RemoveElems<K(!new)>(q: seq<Event<K>>, key: K)
    requires KeysDiffer(q) && Find(q, key) < |q|
    ensures forall x :: x in Remove(q, key) <==> x in q && x.key != key
    ensures multiset(q) == multiset(Remove(q, key)) + multiset{q[Find(q, key)]}
  {
    hide *;
    RemoveIs(q, key);
    var i := Find(q, key);
    SplitAt(q, i);
    var before, e, after := q[..i], q[i], q[i + 1..];
    Around(before, e, after);
    forall x: Event<K> | x in before + after
      ensures x.key != key
    {
      OthersDiffer(q, i, x);
    }
  }

  lemma Around<T>(before: seq<T>, e: T, after: seq<T>)
    ensures forall x :: x in before + [e] + after <==> x in before + after || x == e
    ensures multiset(before + [e] + after) == multiset(before + after) + multiset{e}
  {}

  /** do_trigger_time_event's test, for the clock reading `now`. */
  predicate Due<K>(e: Event<K>, now: int) {
    now + TIMER_RESOLUTION >= e.trigger
  }

  /** How many events at the front of the list are due. */
  function DueCount<K>(q: seq<Event<K>>, now: int): (n: nat)
    ensures n <= |q|
    ensures forall i :: 0 <= i < n ==> Due(q[i], now)
    ensures n < |q| ==> !Due(q[n], now)
  {
    if q == [] || !Due(q[0], now) then 0 else 1 + DueCount(q[1..], now)
  }

  /** An event added with `delay` is fired at once exactly if the delay does not exceed the
      timer resolution. */
  lemma AtOnce<K(!new)>(q: seq<Event<K>>, e: Event<K>, now: int, delay: int)
    requires Sorted(q) && e.trigger == now + delay
    ensures DueCount(Insert(q, e), now) == DueCount(q, now) + (if delay <= TIMER_RESOLUTION then 1 else 0)
  {
    InsertSorted(q, e);
    DueIsPrefix(q, now);
    DueIsPrefix(Insert(q, e), now);
    var i, r := Position(q, e.trigger), Insert(q, e);
    var n := DueCount(q, now);
    if delay <= TIMER_RESOLUTION {
      assert forall j :: 0 <= j < n + 1 ==> Due(r[j], now);
      assert n + 1 < |r| ==> !Due(r[n + 1], now);
      DueUnique(r, now, n + 1);
    } else {
      assert n <= i;
      DueUnique(r, now, n);
    }
  }

  lemma DueIsPrefix<K>(q: seq<Event<K>>, now: int)
    requires Sorted(q)
    ensures forall i :: 0 <= i < |q| ==> (Due(q[i], now) <==> i < DueCount(q, now))
  {}

  lemma DueUnique<K>(q: seq<Event<K>>, now: int, n: nat)
    requires n <= |q| && (forall i :: 0 <= i < n ==> Due(q[i], now)) && (n < |q| ==> !Due(q[n], now))
    ensures DueCount(q, now) == n
  {}

  /** The keys that have an event. */
  ghost function Keys<K>(q: seq<Event<K>>): set<K> {
    set e | e in q :: e.key
  }

  lemma KeysQueued<K(!new)>(q: seq<Event<K>>, key: K)
    ensures key in Keys(q) <==> Queued(q, key)
  {}

  lemma KeysInsert<K(!new)>(q: seq<Event<K>>, e: Event<K>)
    requires Sorted(q) && KeysDiffer(q) && e.key !in Keys(q)
    ensures Sorted(Insert(q, e)) && KeysDiffer(Insert(q, e)) && Keys(Insert(q, e)) == Keys(q) + {e.key}
  {
    KeysQueued(q, e.key);
    InsertSorted(q, e);
    InsertKeys(q, e);
    InsertElems(q, e);
    hide Insert, Sorted, KeysDiffer;
    forall k
      ensures k in Keys(Insert(q, e)) <==> k in Keys(q) + {e.key}
    {
      if k in Keys(q) {
        var x :| x in q && x.key == k;
        assert x in Insert(q, e);
      }
    }
  }

  lemma KeysRemove<K(!new)>(q: seq<Event<K>>, key: K)
    requires Sorted(q) && KeysDiffer(q) && key in Keys(q)
    ensures Sorted(Remove(q, key)) && KeysDiffer(Remove(q, key)) && Keys(Remove(q, key)) == Keys(q) - {key}
    ensures |Remove(q, key)| == |q| - 1
  {
    KeysQueued(q, key);
    FindQueued(q, key);
    RemoveOrdered(q, key);
    RemoveElems(q, key);
    assert |Remove(q, key)| == |q| - 1;
    hide Remove, Sorted, KeysDiffer, Find;
    forall k
      ensures k in Keys(Remove(q, key)) <==> k in Keys(q) - {key}
    {
      if k in Keys(q) && k != key {
        var x :| x in q && x.key == k;
        assert x in Remove(q, key);
      }
    }
  }

  lemma KeysTail<K(!new)>(q: seq<Event<K>>)
    requires q != [] && Sorted(q) && KeysDiffer(q)
    ensures Sorted(q[1..]) && KeysDiffer(q[1..])
    ensures Keys(q) == Keys(q[1..]) + {q[0].key} && q[0].key !in Keys(q[1..])
  {
    assert q == [q[0]] + q[1..];
    assert forall x :: x in q <==> x == q[0] || x in q[1..];
    forall x | x in q[1..]
      ensures x.key != q[0].key
    {
      var i :| 0 <= i < |q[1..]| && q[1..][i] == x;
      assert x == q[i + 1];
    }
    hide Sorted, KeysDiffer;
    forall k
      ensures k in Keys(q) <==> k in Keys(q[1..]) + {q[0].key}
    {
      if k in Keys(q) {
        var x :| x in q && x.key == k;
        assert x == q[0] || x in q[1..];
      }
    }
  }
}
