/**
  The time event queue (event_queue.c).  What the handlers do is arbitrary: the n-th event
  fired runs the n-th list of calls of an unknown table, and these calls may dispatch again.
  The clock stands still while a call or signal is handled.
  */
module EventQueue {
  import opened Options
  import opened Timers

  type Key = int
  type Entry = Event<Key>

  datatype State = Empty | Pending | Active

  /** What a handler may call. */
  datatype Call = Add(key: Key, delay: int) | Cancel(key: Key)

  /** All that happened: events added, removed before their time, and fired, with the time. */
  datatype History = History(added: multiset<Entry>, removed: multiset<Entry>, fired: seq<Entry>, times: seq<int>)

  /** The list agrees with the key index. */
  ghost predicate Indexed(events: seq<Entry>, byKey: map<Key, Entry>) {
    && (forall e :: e in events ==> e.key in byKey && byKey[e.key] == e)
    && (forall k :: k in byKey ==> byKey[k] in events && byKey[k].key == k)
  }

  /** No event is lost, doubled, or fired after its removal. */
  ghost predicate Conserved(events: seq<Entry>, h: History) {
    h.added == multiset(h.fired) + h.removed + multiset(events)
  }

  /** Events were fired in order of trigger time, and at most 50 microseconds early. */
  ghost predicate FiredInOrder(h: History, clock: int) {
    && |h.fired| == |h.times|
    && (forall i, j :: 0 <= i <= j < |h.fired| ==> h.fired[i].trigger <= h.fired[j].trigger && h.times[i] <= h.times[j])
    && (forall i :: 0 <= i < |h.fired| ==> h.fired[i].trigger - TIMER_RESOLUTION <= h.times[i] <= clock)
  }

  /** What is queued comes after all that was fired. */
  ghost predicate Later(events: seq<Entry>, h: History) {
    forall e, i :: e in events && 0 <= i < |h.fired| ==> h.fired[i].trigger <= e.trigger
  }

  ghost predicate Ok(events: seq<Entry>, byKey: map<Key, Entry>, h: History, clock: int) {
    && Sorted(events) && KeysDiffer(events)
    && Indexed(events, byKey)
    && Conserved(events, h)
    && FiredInOrder(h, clock)
    && Later(events, h)
  }

  /** `b` continues `a`. */
  ghost predicate Continues(a: History, b: History) {
    a.added <= b.added && a.removed <= b.removed && a.fired <= b.fired && a.times <= b.times
  }

  lemma Forth(a: History, b: History, c: History)
    requires Continues(a, b) && Continues(b, c)
    ensures Continues(a, c)
  {}

  lemma AddedAgrees(events: seq<Entry>, byKey: map<Key, Entry>, e: Entry, events': seq<Entry>)
    requires Indexed(events, byKey) && e.key !in byKey
    requires forall x :: x in events' <==> x == e || x in events
    ensures Indexed(events', byKey[e.key := e])
  {}

  lemma AddedConserved(events: seq<Entry>, h: History, e: Entry, events': seq<Entry>)
    requires Conserved(events, h) && multiset(events') == multiset(events) + multiset{e}
    ensures Conserved(events', h.(added := h.added + multiset{e}))
  {}

  lemma OkAdd(events: seq<Entry>, byKey: map<Key, Entry>, h: History, clock: int, e: Entry,
              events': seq<Entry>, byKey': map<Key, Entry>, h': History)
    requires Ok(events, byKey, h, clock) && e.key !in byKey && e.trigger > clock + TIMER_RESOLUTION
    requires events' == Insert(events, e) && byKey' == byKey[e.key := e]
    requires h' == h.(added := h.added + multiset{e})
    ensures Ok(events', byKey', h', clock)
    ensures DueCount(events', clock) == DueCount(events, clock)
    ensures Continues(h, h')
  {
    assert !Queued(events, e.key);
    InsertSorted(events, e);
    InsertElems(events, e);
    InsertKeys(events, e);
    AtOnce(events, e, clock, e.trigger - clock);
    hide Insert, DueCount, Sorted, KeysDiffer;
    assert Later(events', h');
    hide Later, FiredInOrder;
    AddedAgrees(events, byKey, e, events');
    AddedConserved(events, h, e, events');
  }

  /** Both ways in which an event leaves the list take it out of the index as well. */
  lemma OkDrop(events: seq<Entry>, byKey: map<Key, Entry>, e: Entry, events': seq<Entry>)
    requires Indexed(events, byKey)
    requires e in events && forall x :: x in events' <==> x in events && x.key != e.key
    ensures Indexed(events', byKey - {e.key})
  {}

  lemma OkRemove(events: seq<Entry>, byKey: map<Key, Entry>, h: History, clock: int, key: Key,
                 events': seq<Entry>, byKey': map<Key, Entry>, h': History)
    requires Ok(events, byKey, h, clock) && key in byKey
    requires events' == Remove(events, key) && byKey' == byKey - {key}
    requires h' == h.(removed := h.removed + multiset{byKey[key]})
    ensures Ok(events', byKey', h', clock)
    ensures DueCount(events', clock) <= DueCount(events, clock)
    ensures Continues(h, h')
  {
    var e := byKey[key];
    FindQueued(events, key);
    RemoveOrdered(events, key);
    RemoveElems(events, key);
    assert events[Find(events, key)] == e;
    DueAfterRemove(events, key, clock);
    hide Remove, Find, DueCount, Sorted, KeysDiffer;
    assert Continues(h, h');
    hide Continues;
    OkDrop(events, byKey, e, events');
    hide Indexed;
    RemovedKept(events, h, clock, e, events', h');
  }

  lemma RemovedKept(events: seq<Entry>, h: History, clock: int, e: Entry, events': seq<Entry>, h': History)
    requires Conserved(events, h) && FiredInOrder(h, clock) && Later(events, h)
    requires multiset(events) == multiset(events') + multiset{e} && h' == h.(removed := h.removed + multiset{e})
    requires forall x :: x in events' ==> x in events
    ensures Conserved(events', h') && FiredInOrder(h', clock) && Later(events', h')
  {}

  lemma DueAfterRemove(events: seq<Entry>, key: Key, now: int)
    requires Sorted(events) && Find(events, key) < |events| && Sorted(Remove(events, key))
    ensures DueCount(Remove(events, key), now) <= DueCount(events, now)
  {
    var r, n := Remove(events, key), DueCount(events, now);
    DueIsPrefix(events, now);
    DueIsPrefix(r, now);
    if n < |r| {
      RemoveAt(events, key, n);
      assert !Due(r[n], now);
    }
  }

  /** The first event fires. */
  lemma OkFire(events: seq<Entry>, byKey: map<Key, Entry>, h: History, clock: int,
               events': seq<Entry>, byKey': map<Key, Entry>, h': History)
    requires Ok(events, byKey, h, clock) && DueCount(events, clock) > 0
    requires events' == events[1..] && byKey' == byKey - {events[0].key}
    requires h' == h.(fired := h.fired + [events[0]], times := h.times + [clock])
    ensures Ok(events', byKey', h', clock)
    ensures DueCount(events', clock) == DueCount(events, clock) - 1
    ensures Continues(h, h')
  {
    var e := events[0];
    FirstDiffers(events);
    DueTail(events, clock);
    hide DueCount, Sorted, KeysDiffer;
    assert Continues(h, h');
    hide Continues;
    FireConserved(events, h, clock);
    FireOrdered(events, h, clock);
    hide Conserved, FiredInOrder, Later;
    OkDrop(events, byKey, e, events');
  }

  lemma FirstDiffers(events: seq<Entry>)
    requires events != [] && Sorted(events) && KeysDiffer(events)
    ensures events[0] in events
    ensures Sorted(events[1..]) && KeysDiffer(events[1..])
    ensures forall x :: x in events[1..] <==> x in events && x.key != events[0].key
  {
    var e, tail := events[0], events[1..];
    assert events == [e] + tail;
    assert forall x :: x in events <==> x == e || x in tail;
    forall i | 0 <= i < |tail|
      ensures tail[i].key != e.key
    {
      assert tail[i] == events[i + 1];
    }
  }

  lemma DueTail(events: seq<Entry>, now: int)
    requires DueCount(events, now) > 0
    ensures DueCount(events[1..], now) == DueCount(events, now) - 1 && Due(events[0], now)
  {}

  lemma Nonempty(events: seq<Entry>, byKey: map<Key, Entry>, h: History, clock: int)
    requires Ok(events, byKey, h, clock) && DueCount(events, clock) > 0
    ensures events != [] && |h.fired| == |h.times|
  {}

  lemma FirstDue(events: seq<Entry>, now: int, clock: int)
    requires now <= clock
    ensures DueCount(events, now) == 0 <==> events == [] || !Due(events[0], now)
    ensures DueCount(events, now) > 0 ==> DueCount(events, clock) > 0
    ensures DueCount(events, clock) == 0 ==> DueCount(events, now) == 0
  {}

  lemma FireConserved(events: seq<Entry>, h: History, clock: int)
    requires events != [] && Conserved(events, h)
    ensures Conserved(events[1..], h.(fired := h.fired + [events[0]], times := h.times + [clock]))
  {
    assert events == [events[0]] + events[1..];
  }

  lemma FireOrdered(events: seq<Entry>, h: History, clock: int)
    requires events != [] && Due(events[0], clock) && Sorted(events) && FiredInOrder(h, clock) && Later(events, h)
    ensures FiredInOrder(h.(fired := h.fired + [events[0]], times := h.times + [clock]), clock)
    ensures Later(events[1..], h.(fired := h.fired + [events[0]], times := h.times + [clock]))
  {
    assert events[0] in events;
    assert forall x :: x in events[1..] ==> x in events && events[0].trigger <= x.trigger;
  }

  class Queue {
    var state: State
    var events: seq<Entry>
    var byKey: map<Key, Entry>      // private2event_map
    var alarm: Option<int>          // when SIGALRM is due, if the timer is set
    var clock: int                  // gettimeofday
    var count: int                  // handlers run so far
    const handlers: int -> seq<Call>
    ghost var history: History

    /** Every event that was fired has had its handler run, or is having it run. */
    ghost predicate Valid()
      reads this
    {
      Sound() && count == |history.fired|
    }

    /** Just after an event was taken out to be fired. */
    ghost predicate Popped()
      reads this
    {
      Sound() && count == |history.fired| - 1
    }

    ghost predicate Sound()
      reads this
    {
      && Ok(events, byKey, history, clock)
      && (state == Pending ==> alarm == None)
      && (state == Empty ==> events == [] && alarm == None)
      && (alarm.Some? ==> events != [] && events[0].trigger <= alarm.value <= events[0].trigger + TIMER_RESOLUTION)
    }

    /** Whoever has to fire the next event knows when: the timer or the pending caller. */
    ghost predicate Settled()
      reads this
    {
      state == Pending || (events != [] ==> alarm.Some?)
    }

    /** The timer is not set while events wait to be fired at once. */
    ghost predicate Quiet()
      reads this
    {
      alarm.Some? ==> DueCount(events, clock) == 0
    }

    constructor (handlers: int -> seq<Call>, now: int)
      ensures Valid() && Settled() && state == Empty && events == [] && clock == now && this.handlers == handlers
      ensures history == History(multiset{}, multiset{}, [], [])
    {
      state, events, byKey, alarm, clock, count := Empty, [], map[], None, now, 0;
      history := History(multiset{}, multiset{}, [], []);
      this.handlers := handlers;
    }

    /** Time passes. */
    method Advance(now: int)
      requires Valid() && Settled() && now >= clock
      modifies this`clock
      ensures Valid() && Settled() && clock == now
    {
      clock := now;
    }

    /** do_pend_event_queue */
    method Pend() returns (was: State)
      requires Valid()
      modifies this`state, this`alarm
      ensures Valid() && was == old(state) && state == Pending && alarm == None
    {
      was := state;
      state := Pending;
      if was == Pending {
        return;
      }
      alarm := None;
    }

    /** do_trigger_time_event: fire, in order, all that is due. */
    method FireDue(now: int)
      requires Valid() && Quiet() && now <= clock
      modifies this
      ensures Valid() && Quiet() && clock == old(clock)
      ensures DueCount(events, now) == 0 && DueCount(events, clock) <= old(DueCount(events, clock))
      ensures if old(state) == Pending then Settled() else state != Pending
      ensures Continues(old(history), history)
      ensures old(DueCount(events, now)) == 0 ==> Same(old(events), old(history), old(alarm), old(state))
      decreases DueCount(events, clock), 0, 0
    {
      hide Ok, Continues, DueCount;
      Start(history);
      FirstDue(events, now, clock);
      while events != [] && Due(events[0], now)
        invariant Valid() && Quiet() && clock == old(clock)
        invariant DueCount(events, now) == 0 <==> events == [] || !Due(events[0], now)
        invariant DueCount(events, clock) <= old(DueCount(events, clock))
        invariant if old(state) == Pending then Settled() else state != Pending
        invariant Continues(old(history), history)
        invariant old(DueCount(events, now)) == 0 ==> Same(old(events), old(history), old(alarm), old(state))
        decreases DueCount(events, clock)
      {
        FirstDue(events, now, clock);
        ghost var h0 := history;
        FireFirst();
        ghost var h1 := history;
        var _ := RunHandler();
        Forth(old(history), h0, h1);
        Forth(old(history), h1, history);
        FirstDue(events, now, clock);
      }
    }

    /** Take the first event out of the list and the index. */
    method FireFirst()
      requires Valid() && DueCount(events, clock) > 0 && alarm == None
      modifies this`events, this`byKey, this`history
      ensures Popped() && alarm == None
      ensures DueCount(events, clock) == old(DueCount(events, clock)) - 1
      ensures events == old(events)[1..]
      ensures history == old(history).(fired := old(history).fired + [old(events)[0]], times := old(history).times + [clock])
      ensures Continues(old(history), history)
    {
      hide Ok, Continues, DueCount;
      Nonempty(events, byKey, history, clock);
      ghost var events0, byKey0, h0 := events, byKey, history;
      byKey := byKey - {events[0].key};
      history := history.(fired := history.fired + [events[0]], times := history.times + [clock]);
      events := events[1..];
      OkFire(events0, byKey0, h0, clock, events, byKey, history);
    }

    ghost predicate Same(events0: seq<Entry>, h: History, alarm0: Option<int>, state0: State)
      reads this
    {
      events == events0 && history == h && alarm == alarm0 && state == state0
    }

    /** The handler of the event just taken out makes all its calls, one after the other; `steps`
        tells what has happened before and after each. */
    method RunHandler() returns (ghost steps: seq<History>)
      requires Popped() && Quiet()
      modifies this
      ensures Valid() && Quiet() && clock == old(clock)
      ensures DueCount(events, clock) <= old(DueCount(events, clock))
      ensures if old(state) == Pending then old(Settled()) ==> Settled() else state != Pending
      ensures Continues(old(history), history)
      ensures |steps| == |handlers(old(count))| + 1 && steps[0] == old(history) && steps[|steps| - 1] == history
      ensures forall i :: 0 <= i < |handlers(old(count))| ==> Made(handlers(old(count))[i], steps[i], steps[i + 1], clock)
      decreases DueCount(events, clock), 3, 0
    {
      hide Ok, Continues, DueCount, Made;
      Start(history);
      var calls := handlers(count);
      count := count + 1;
      steps := [history];
      for i := 0 to |calls|
        invariant Valid() && Quiet() && clock == old(clock)
        invariant DueCount(events, clock) <= old(DueCount(events, clock))
        invariant if old(state) == Pending then Settled() else state != Pending
        invariant Continues(old(history), history)
        invariant |steps| == i + 1 && steps[0] == old(history) && steps[i] == history
        invariant forall k :: 0 <= k < i ==> Made(calls[k], steps[k], steps[k + 1], clock)
      {
        ghost var h := history;
        MakeCall(calls[i]);
        Forth(old(history), h, history);
        steps := steps + [history];
      }
    }

    /** A handler makes calls its author may make: it adds only keys that are not queued, with
        delays above the resolution, and removes only keys that are queued. */
    method MakeCall(call: Call)
      requires Valid() && Quiet()
      modifies this
      ensures Valid() && Quiet() && clock == old(clock)
      ensures DueCount(events, clock) <= old(DueCount(events, clock))
      ensures (old(Settled()) ==> Settled()) && (old(state) != Pending ==> state != Pending)
      ensures Made(call, old(history), history, clock) && Continues(old(history), history)
      decreases DueCount(events, clock), 2, 1
    {
      hide Ok, Continues, DueCount, InQueue;
      Start(history);
      match call
      case Add(key, delay) =>
        QueueIs(events, byKey, history, clock, key);
        if key !in byKey && delay > TIMER_RESOLUTION {
          AddTimeEvent(delay, key);
        }
      case Cancel(key) =>
        QueueIs(events, byKey, history, clock, key);
        if key in byKey {
          RemoveTimeEvent(key);
        }
    }

    method AddTimeEvent(delay: int, key: Key)
      requires Valid() && key !in byKey && delay > TIMER_RESOLUTION
      modifies this
      ensures Valid() && Settled() && Quiet() && clock == old(clock)
      ensures DueCount(events, clock) <= old(DueCount(events, clock))
      ensures old(state) != Pending ==> state != Pending
      ensures Continues(Adding(old(history), Event(key, clock + delay)), history) && Continues(old(history), history)
      ensures old(DueCount(events, clock)) == 0 ==>
                events == Insert(old(events), Event(key, clock + delay))
                && history == Adding(old(history), Event(key, clock + delay))
      decreases DueCount(events, clock), 2, 0
    {
      hide Ok, Continues, DueCount, Insert;
      var was := Pend();
      Enqueue(Event(key, clock + delay));
      ghost var h1 := history;
      FireDue(clock);
      ghost var h2 := history;
      Forth(old(history), h1, h2);
      Start(h2);
      if was == Active || was == Empty {
        Resume(clock);
      }
      Forth(h1, h2, history);
      Forth(old(history), h2, history);
    }

    method Enqueue(e: Entry)
      requires Valid() && state == Pending && e.key !in byKey && e.trigger > clock + TIMER_RESOLUTION
      modifies this`events, this`byKey, this`history
      ensures Valid() && events == Insert(old(events), e) && history == Adding(old(history), e)
      ensures DueCount(events, clock) == old(DueCount(events, clock))
      ensures Continues(old(history), history)
    {
      hide Ok, Continues, DueCount, Insert;
      ghost var events0, byKey0, h0 := events, byKey, history;
      byKey := byKey[e.key := e];
      events := Insert(events, e);
      history := Adding(history, e);
      OkAdd(events0, byKey0, h0, clock, e, events, byKey, history);
    }

    method Dequeue(key: Key)
      requires Valid() && state == Pending && key in byKey
      modifies this`events, this`byKey, this`history
      ensures Valid() && events == Remove(old(events), key) && history == Removing(old(history), old(byKey)[key])
      ensures DueCount(events, clock) <= old(DueCount(events, clock))
      ensures Continues(old(history), history)
    {
      hide Ok, Continues, DueCount, Remove;
      ghost var events0, byKey0, h0 := events, byKey, history;
      history := Removing(history, byKey[key]);
      events := Remove(events, key);
      byKey := byKey - {key};
      OkRemove(events0, byKey0, h0, clock, key, events, byKey, history);
    }

    method RemoveTimeEvent(key: Key)
      requires Valid()
      modifies this
      ensures Valid() && Settled() && Quiet() && clock == old(clock)
      ensures DueCount(events, clock) <= old(DueCount(events, clock))
      ensures state == Pending <==> old(key !in byKey)
      ensures old(key !in byKey) ==> events == old(events) && history == old(history)
      ensures Continues(old(history), history)
      ensures old(key in byKey) ==> Continues(Removing(old(history), old(byKey)[key]), history)
      ensures old(key in byKey) && old(DueCount(events, clock)) == 0 ==>
                events == Remove(old(events), key) && history == Removing(old(history), old(byKey)[key])
      decreases DueCount(events, clock), 2, 0
    {
      hide Ok, Continues, DueCount, Remove;
      var was := Pend();
      Start(history);
      if key !in byKey {
        return;
      }
      Dequeue(key);
      ghost var h1 := history;
      Start(h1);
      if events == [] {
        state := Empty;
      } else {
        Resume(clock);
      }
      Forth(old(history), h1, history);
    }

    /** do_resume_event_queue */
    method Resume(now: int)
      requires Valid() && now <= clock
      requires now == clock || (now == clock - TIMER_RESOLUTION && DueCount(events, clock) == 0)
      requires state == Active ==> Settled() && Quiet()
      modifies this
      ensures Valid() && Settled() && Quiet() && state != Pending && clock == old(clock)
      ensures DueCount(events, clock) <= old(DueCount(events, clock))
      ensures old(state) != Active ==> DueCount(events, clock) == 0 && (alarm.Some? ==> alarm.value > clock)
      ensures Continues(old(history), history)
      ensures old(DueCount(events, clock)) == 0 ==> events == old(events) && history == old(history)
      decreases DueCount(events, clock), 1, 0
    {
      hide Ok, Continues, DueCount;
      Start(history);
      var was := state;
      state := Active;
      if was == Active {
        return;
      }
      FirstDue(events, now, clock);
      FireDue(now);
      FirstDue(events, now, clock);
      if events == [] {
        return;
      }
      alarm := Some(clock + (events[0].trigger - now));
    }

    /** trigger_time_event, the SIGALRM handler. */
    method Signal()
      requires Valid() && Settled()
      modifies this
      ensures Valid() && Settled() && clock == old(clock)
      ensures Continues(old(history), history)
      ensures old(state) == Pending ==> Same(old(events), old(history), old(alarm), old(state))
      ensures old(state) != Pending ==> state != Pending && DueCount(events, clock) == 0
                                        && (alarm.Some? ==> alarm.value > clock)
    {
      hide Ok, Continues, DueCount;
      Start(history);
      var was := Pend();
      if was == Pending {
        return;
      }
      FireDue(clock);
      ghost var h1 := history;
      Start(h1);
      FirstDue(events, clock, clock);
      if events == [] {
        state := Empty;
      } else {
        Resume(clock - TIMER_RESOLUTION);
      }
      Forth(old(history), h1, history);
    }
  }

  function Adding(h: History, e: Entry): History { h.(added := h.added + multiset{e}) }

  function Removing(h: History, e: Entry): History { h.(removed := h.removed + multiset{e}) }

  /** What was added and neither removed nor fired. */
  ghost predicate InQueue(h: History, e: Entry) { e in h.added - h.removed - multiset(h.fired) }

  /** What a handler's call does: it adds an event if none of the key is queued and the delay is
      above the resolution, it removes the event of the key if one is queued, and does nothing
      else by itself; what it fires in passing comes after. */
  ghost predicate Made(call: Call, h: History, h': History, clock: int) {
    match call
    case Add(key, delay) =>
      if delay > TIMER_RESOLUTION && forall e :: InQueue(h, e) ==> e.key != key
      then Continues(Adding(h, Event(key, clock + delay)), h') else h' == h
    case Cancel(key) =>
      if forall e :: InQueue(h, e) ==> e.key != key then h' == h
      else exists e :: InQueue(h, e) && e.key == key && Continues(Removing(h, e), h')
  }

  lemma QueueIs(events: seq<Entry>, byKey: map<Key, Entry>, h: History, clock: int, key: Key)
    requires Ok(events, byKey, h, clock)
    ensures key !in byKey <==> forall e :: InQueue(h, e) ==> e.key != key
    ensures key in byKey ==> InQueue(h, byKey[key]) && byKey[key].key == key
  {
    assert h.added - h.removed - multiset(h.fired) == multiset(events);
  }

  lemma Start(h: History)
    ensures Continues(h, h)
  {}

  /** What the rest of the program may do: let time pass, take the signal, use the queue. */
  datatype Move = Wait(until: int) | Interrupt | DoAdd(key: Key, delay: int) | DoCancel(key: Key) | DoPend | DoResume

  /** Whatever is called in whatever order (but no queued key is added again, no delay is within
      the resolution): the list stays sorted and indexed, every event is fired once or removed
      once or still queued, in order and not early; and the timer is set unless some caller
      holds the queue. */
  method Run(queue: Queue, moves: seq<Move>)
    requires queue.Valid() && queue.Settled()
    modifies queue
    ensures queue.Valid() && queue.Settled() && Continues(old(queue.history), queue.history)
    ensures queue.state != Pending && queue.events != [] ==>
              queue.alarm.Some? && queue.events[0].trigger <= queue.alarm.value <= queue.events[0].trigger + TIMER_RESOLUTION
  {
    hide Ok, Continues, DueCount;
    Start(queue.history);
    for i := 0 to |moves|
      invariant queue.Valid() && queue.Settled() && Continues(old(queue.history), queue.history)
    {
      ghost var h := queue.history;
      Start(h);
      match moves[i] {
        case Wait(until) => if until >= queue.clock { queue.Advance(until); }
        case Interrupt => queue.Signal();
        case DoAdd(key, delay) => if key !in queue.byKey && delay > TIMER_RESOLUTION { queue.AddTimeEvent(delay, key); }
        case DoCancel(key) => queue.RemoveTimeEvent(key);
        case DoPend => var _ := queue.Pend();
        case DoResume => if queue.state != Active { queue.Resume(queue.clock); }
      }
      Forth(old(queue.history), h, queue.history);
    }
  }

  // ------------------------------------------------------------------ why delays must exceed the resolution

  /** The firings of one dispatch, cut off after `fuel`, when every handler adds its event
      again with the delay `delay`. */
  function Refired(q: seq<Entry>, now: int, delay: int, fuel: nat): nat
    decreases fuel
  {
    if fuel == 0 || q == [] || !Due(q[0], now) then 0
    else 1 + Refired(Insert(q[1..], Event(q[0].key, now + delay)), now, delay, fuel - 1)
  }

  /** Dispatch comes to an end, after firing each due event once, exactly if the delay is more
      than the resolution; with a delay of 50 microseconds or less it goes on for ever. */
  lemma {:induction false} DispatchEnds(q: seq<Entry>, now: int, delay: int, fuel: nat)
    requires Sorted(q) && 0 < DueCount(q, now)
    ensures delay > TIMER_RESOLUTION && fuel >= DueCount(q, now) ==> Refired(q, now, delay, fuel) == DueCount(q, now)
    ensures delay <= TIMER_RESOLUTION ==> Refired(q, now, delay, fuel) == fuel
    decreases fuel
  {
    if fuel > 0 {
      var tail, e := q[1..], Event(q[0].key, now + delay);
      DueTail(q, now);
      AtOnce(tail, e, now, delay);
      InsertSorted(tail, e);
      if DueCount(Insert(tail, e), now) > 0 {
        DispatchEnds(Insert(tail, e), now, delay, fuel - 1);
      } else {
        FirstDue(Insert(tail, e), now, now);
      }
    }
  }
}
