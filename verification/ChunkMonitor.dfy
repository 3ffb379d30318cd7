/**
  The chunk monitor itself (chunk_monitor.c): its handlers for page faults and timers, and the
  calls that start and stop the monitoring of a chunk.  Page protection is the set of guarded
  pages; the readings of the counters, the clock and the random numbers are arguments.  While a
  call or handler runs the clock stands still, and the timer queue fires whatever is due
  whenever event_queue.c would.
  */
module ChunkMonitor {
  import Arith
  import opened Config
  import opened Options
  import opened Seqs
  import opened MonitorState
  import opened Timers
  import EventQueue
  import SamplePlacement

  type Entry = Event<Key>

  const DEFAULT_BURST_LEN: int := 500
  const BURST_SKIP_UPDATE_INTERVAL: int := 100_000
  const SAMPLE_FREQUENCY: int := 100_000
  const SAMPLE_INTERVAL: int := 5_000_000

  /** The results of page_sample_complete: 0, SAMPLE_COMPLETE and WAIT_NEXT_SAMPLE. */
  datatype Outcome = Continue | Complete | WaitNext

  /** The timer has not been fired between `a` and `b`. */
  ghost predicate Unfired(a: World, b: World, key: Key) {
    key in a.keys ==> key in b.keys
  }

  ghost predicate Over(w: World, c: ChunkId) {
    c in w.chunks && w.chunks[c].state == MonitFinish
  }

  /** What firing timers does: a chunk whose timer has gone starts a new round, and no other changes.  A
      sample whose timer has gone waits for a fault, or is out of use if the round is over; the idle samples
      of a revived chunk start again; no other sample changes, nor does the one a handler works on. */
  ghost predicate Kept(a: World, b: World, busy: Option<Page>) {
    && b.samples.Keys == a.samples.Keys && b.chunks.Keys == a.chunks.Keys && b.keys <= a.keys
    && (forall c :: c in a.chunks ==>
          b.chunks[c] == if Unfired(a, b, OfChunk(c)) then a.chunks[c] else NewRound(a.chunks[c]))
    && (forall p :: p in a.samples ==> b.samples[p].chunk == a.samples[p].chunk && KeptSample(a, b, busy, p))
  }

  ghost predicate KeptSample(a: World, b: World, busy: Option<Page>, p: Page)
    requires p in a.samples && p in b.samples
  {
    var s, s', c := a.samples[p], b.samples[p], a.samples[p].chunk;
    if busy == Some(p) then s' == s
    else if Unfired(a, b, OfSample(p)) then
      s' == if Unfired(a, b, OfChunk(c)) then s else AfterRevival(s, c, true)
    else
      Unfired(a, b, OfChunk(c)) ==> s' == AfterTimer(s, Over(a, c))
  }

  lemma KeptForth(a: World, b: World, c: World, busy: Option<Page>)
    requires Kept(a, b, busy) && Kept(b, c, busy)
    ensures Kept(a, c, busy)
  {
    hide AfterRevival, AfterTimer, NewRound, KeptSample;
    forall p | p in a.samples
      ensures c.samples[p].chunk == a.samples[p].chunk && KeptSample(a, c, busy, p)
    {
      assert KeptSample(a, b, busy, p) && KeptSample(b, c, busy, p);
      KeptSampleForth(a, b, c, busy, p);
    }
  }

  lemma KeptSampleForth(a: World, b: World, c: World, busy: Option<Page>, p: Page)
    requires p in a.samples && p in b.samples && p in c.samples && c.keys <= b.keys <= a.keys
    requires b.chunks.Keys == a.chunks.Keys && b.samples[p].chunk == a.samples[p].chunk
    requires forall d :: d in a.chunks && Unfired(a, b, OfChunk(d)) ==> b.chunks[d] == a.chunks[d]
    requires KeptSample(a, b, busy, p) && KeptSample(b, c, busy, p)
    ensures KeptSample(a, c, busy, p)
  {
    hide AfterRevival, AfterTimer;
    assert Over(a, a.samples[p].chunk) == Over(b, a.samples[p].chunk) || !Unfired(a, b, OfChunk(a.samples[p].chunk));
  }

  lemma KeptSame(a: World, busy: Option<Page>)
    ensures Kept(a, a, busy)
  {}

  /** The sample a handler works on is not about to be fired. */
  ghost predicate NotDue(queue: seq<Entry>, clock: int, busy: Option<Page>) {
    busy.Some? ==> forall e :: e in queue && e.key == OfSample(busy.value) ==> !Due(e, clock)
  }

  lemma NotDueTail(queue: seq<Entry>, clock: int, busy: Option<Page>)
    requires NotDue(queue, clock, busy) && DueCount(queue, clock) > 0
    ensures NotDue(queue[1..], clock, busy) && DueCount(queue[1..], clock) == DueCount(queue, clock) - 1
    ensures busy.Some? ==> queue[0].key != OfSample(busy.value)
  {
    assert queue[0] in queue && Due(queue[0], clock);
  }

  /** A new timer lies beyond all that is due. */
  lemma NotDueInsert(queue: seq<Entry>, clock: int, e: Entry, busy: Option<Page>)
    requires Sorted(queue) && NotDue(queue, clock, busy) && e.trigger > clock + TIMER_RESOLUTION
    ensures NotDue(Insert(queue, e), clock, busy) && DueCount(Insert(queue, e), clock) == DueCount(queue, clock)
    ensures forall n :: 0 <= n <= DueCount(queue, clock) ==> e in Insert(queue, e)[n..]
  {
    AtOnce(queue, e, clock, e.trigger - clock);
    InsertElems(queue, e);
    var i := Position(queue, e.trigger);
    assert DueCount(queue, clock) <= i;
    assert Insert(queue, e)[i] == e;
    forall n | 0 <= n <= DueCount(queue, clock)
      ensures e in Insert(queue, e)[n..]
    {
      assert Insert(queue, e)[n..][i - n] == e;
    }
  }

  lemma NotDueAbsent(queue: seq<Entry>, clock: int, p: Page)
    requires OfSample(p) !in Keys(queue)
    ensures NotDue(queue, clock, Some(p))
  {}

  lemma DueEnd(queue: seq<Entry>, clock: int)
    ensures DueCount(queue, clock) == 0 <==> queue == [] || !Due(queue[0], clock)
  {}

  // ------------------------------------------------------------------ single samples

  /** Nine in ten of the round's references were pollutors. */
  predicate ToRevive(ch: Chunk) {
    ch.total > 0 && 10 * ch.pollutors >= 9 * ch.total
  }

  lemma EndedState(ch: Chunk)
    ensures Ended(ch).state == MonitFinish && NextCycle(ch).state == ch.state
  {}

  lemma RevivedIff(ch: Chunk)
    ensures Conclusion(ch.pollutors + ch.iPollutors, ch.total + ch.iTotal) == Restrict <==> ToRevive(Ended(ch))
  {
    ConclusionIff(ch.pollutors + ch.iPollutors, ch.total + ch.iTotal);
    hide Conclusion;
  }

  const WORDS: nat := 0x1_0000_0000_0000_0000

  /** How much a counter of 64 bits has gone on since it was read as `before`. */
  function Delta(now: int, before: int): nat { (now - before) % WORDS }

  /** init_page_sample */
  function FreshSample(chunk: ChunkId): Sample {
    Sample(chunk, WaitFirstAccess, false, false, 0, 0, 0, 0, 0)
  }

  function CountedSample(s: Sample, victim: bool): Sample {
    if victim then s.(victims := s.victims + 1, total := s.total + 1)
    else s.(pollutors := s.pollutors + 1, total := s.total + 1)
  }

  /** A sample after the switch of collect_page_sample: an access that is the first starts a
      burst to be skipped, a second one is counted unless it is still part of the burst. */
  function Taken(s: Sample, burst: bool, victim: bool, accesses: int, misses: int): Sample {
    if s.state == WaitFirstAccess then s.(state := BurstAccessSkip, accesses := accesses, misses := misses)
    else if burst then s.(state := BurstAccessSkip)
    else CountedSample(s, victim).(state := WaitFirstAccess)
  }

  /** A sample after a page fault: it waits for its timer, unless the round is over. */
  function AfterFault(s: Sample, burst: bool, victim: bool, accesses: int, misses: int, finished: bool): Sample {
    var s1 := Taken(s, burst, victim, accesses, misses).(waitFault := false);
    if finished then s1.(state := Uninit) else s1.(waitTimer := true)
  }

  /** A chunk after a reference. */
  function Counted(ch: Chunk, counts: bool, victim: bool): Chunk {
    if !counts then ch
    else if victim then ch.(iVictims := ch.iVictims + 1, iTotal := ch.iTotal + 1)
    else ch.(iPollutors := ch.iPollutors + 1, iTotal := ch.iTotal + 1)
  }

  /** ... and, when that has completed a cycle, after the cycle. */
  function AfterReference(ch: Chunk, counts: bool, victim: bool): Chunk {
    var ch1 := Counted(ch, counts, victim);
    if ch1.iTotal != ch1.nr then ch1 else if Settles(ch1) then Ended(ch1) else NextCycle(ch1)
  }

  /** What a fault does to its sample and its chunk. */
  ghost predicate Faulted(s: Sample, s': Sample, ch: Chunk, ch': Chunk, burst: bool, victim: bool, accesses: int, misses: int) {
    && ch' == AfterReference(ch, s.state == WaitSuccessiveAccess && !burst, victim)
    && s' == AfterFault(s, burst, victim, accesses, misses, ch'.state == MonitFinish)
  }

  /** Whether the sample waited for a fault before makes no difference to what follows. */
  lemma FaultCleared(s: Sample, s': Sample, ch: Chunk, ch': Chunk, burst: bool, victim: bool, accesses: int, misses: int)
    requires Faulted(s.(waitFault := false), s', ch, ch', burst, victim, accesses, misses)
    ensures Faulted(s, s', ch, ch', burst, victim, accesses, misses)
  {}

  /** A sample after the revival of chunk `c`: the idle ones among its samples start again. */
  function AfterRevival(s: Sample, c: ChunkId, member: bool): Sample {
    if member && s.state == Uninit then FreshSample(c).(waitFault := true) else s
  }

  /** A sample after last_chunk_sample_update. */
  function AfterLast(s: Sample, late: bool): Sample {
    if late then CountedSample(s, false) else s
  }

  /** A chunk after it, `more` being the late samples. */
  function LastCounted(ch: Chunk, more: nat): Chunk {
    ch.(victims := ch.victims + ch.iVictims, pollutors := ch.pollutors + ch.iPollutors + more,
        total := ch.total + ch.iTotal + more, round := LastRound)
  }

  lemma NextPage(pages: seq<Page>, i: nat)
    requires i < |pages| && NoDup(pages)
    ensures pages[i] !in pages[..i] && pages[..i + 1][..i] == pages[..i] && pages[..i + 1][i] == pages[i]
    ensures forall q :: q in pages[..i + 1] <==> q in pages[..i] || q == pages[i]
  {}

  /** A sample after its timer: it waits for the next access, unless the round is over. */
  function AfterTimer(s: Sample, finished: bool): Sample {
    if finished then s.(waitTimer := false, state := Uninit)
    else s.(waitTimer := false, waitFault := true,
            state := if s.state == BurstAccessSkip then WaitSuccessiveAccess else s.state)
  }

  class Monitor {
    var samples: map<Page, Sample>      // page_sample_map, and each chunk's list through `pages`
    var guarded: set<Page>              // pages without access rights
    var chunks: map<ChunkId, Chunk>     // the live chunks
    var queue: seq<Entry>
    var state: EventQueue.State         // of the queue
    var alarm: Option<int>              // when SIGALRM is due, if the timer is set
    var clock: int
    var burst: int                      // burst_skip_len
    var burstClock: int                 // tv_at_skip_update
    var burstAccesses: int              // llc_acc_at_skip_update
    const regionLines: nat              // cache_region_sz_in_line
    const llcLines: nat                 // llc_sz_in_line
    const llcBytes: nat                 // llc_sz
    ghost var logs: map<ChunkId, Log>

    ghost function TheWorld(): World
      reads this
    {
      World(samples, guarded, chunks, logs, Keys(queue))
    }

    ghost predicate Listed()
      reads this
    {
      Sorted(queue) && KeysDiffer(queue) && burst >= DEFAULT_BURST_LEN && burstClock <= clock && regionLines >= 1
    }

    /** Between calls (`busy` is None) and inside a handler. */
    ghost predicate Okay(busy: Option<Page>)
      reads this
    {
      Listed() && WorldOk(TheWorld(), busy, None) && NotDue(queue, clock, busy)
    }

    /** The timer is set only for the first event, and not while the queue is pending. */
    ghost predicate TimerOk()
      reads this
    {
      && (state == EventQueue.Pending ==> alarm == None)
      && (state == EventQueue.Empty ==> queue == [] && alarm == None)
      && (alarm.Some? ==> queue != [] && queue[0].trigger <= alarm.value <= queue[0].trigger + TIMER_RESOLUTION)
    }

    /** Someone is going to fire the next event: the timer, or the caller that holds the queue. */
    ghost predicate Held()
      reads this
    {
      TimerOk() && (state == EventQueue.Pending || (queue != [] ==> alarm.Some?))
    }

    /** Nobody holds the queue, and if an event is queued the timer is set. */
    ghost predicate Armed()
      reads this
    {
      Held() && state != EventQueue.Pending
    }

    // ---------------------------------------------------------------- the queue

    /** pend_time_event_queue */
    method Pend() returns (was: EventQueue.State)
      requires Held()
      modifies this`state, this`alarm
      ensures Held() && was == old(state) && state == EventQueue.Pending
    {
      was := state;
      state := EventQueue.Pending;
      if was == EventQueue.Pending {
        return;
      }
      alarm := None;
    }

    /** resume_time_event_queue, at `now`; what is due at the clock is fired, and nothing is if `now` is
        before it. */
    method Resume(now: int, ghost busy: Option<Page>)
      requires Okay(busy) && Held()
      requires now == clock || (now == clock - TIMER_RESOLUTION && DueCount(queue, clock) == 0)
      modifies this`samples, this`guarded, this`chunks, this`queue, this`logs, this`state, this`alarm
      ensures Okay(busy) && Armed()
      ensures old(state) != EventQueue.Active ==> DueCount(queue, clock) == 0 && (alarm.Some? ==> alarm.value > clock)
      ensures Kept(old(TheWorld()), TheWorld(), busy) && |queue| <= old(|queue|)
      ensures old(DueCount(queue, clock)) == 0 ==> TheWorld() == old(TheWorld()) && queue == old(queue)
      decreases false, |queue|, 1
    {
      hide WorldOk, NotDue, Sorted, KeysDiffer, Kept, DueCount, Keys;
      var was := state;
      state := EventQueue.Active;
      if was == EventQueue.Active {
        KeptSame(TheWorld(), busy);
        return;
      }
      Dispatch(busy);
      if queue == [] {
        return;
      }
      DueEnd(queue, clock);
      alarm := Some(clock + (queue[0].trigger - now));
    }

    /** Fire what is due, in order. */
    method Dispatch(ghost busy: Option<Page>)
      requires Okay(busy)
      modifies this`samples, this`guarded, this`chunks, this`queue, this`logs, this`state, this`alarm
      ensures Okay(busy) && DueCount(queue, clock) == 0
      ensures Kept(old(TheWorld()), TheWorld(), busy)
      ensures queue == old(queue)[old(DueCount(queue, clock))..]
      ensures old(DueCount(queue, clock)) == 0 ==> TheWorld() == old(TheWorld())
      ensures state == old(state) && alarm == old(alarm)
      decreases false, |queue|, 0
    {
      hide WorldOk, NotDue, Sorted, KeysDiffer, Kept, DueCount, Keys;
      ghost var w0 := TheWorld();
      ghost var fired := 0;
      KeptSame(w0, busy);
      DueEnd(queue, clock);
      while queue != [] && Due(queue[0], clock)
        invariant Okay(busy) && Kept(w0, TheWorld(), busy) && state == old(state) && alarm == old(alarm)
        invariant fired == 0 ==> TheWorld() == w0
        invariant fired <= old(DueCount(queue, clock)) <= old(|queue|) && queue == old(queue)[fired..]
        invariant DueCount(queue, clock) == old(DueCount(queue, clock)) - fired
        invariant DueCount(queue, clock) == 0 <==> queue == [] || !Due(queue[0], clock)
        decreases |queue|
      {
        ghost var w1 := TheWorld();
        var key := queue[0].key;
        KeysTail(queue);
        NotDueTail(queue, clock, busy);
        queue := queue[1..];
        fired := fired + 1;
        DueEnd(queue, clock);
        match key {
          case OfSample(p) =>
            TimedSample(w1, p, busy);
            BurstSkipHandler(p, busy);
            HandledKept(w1, TheWorld(), p, busy);
          case OfChunk(c) =>
            ReviveHandler(c, busy);
        }
        KeptForth(w0, w1, TheWorld(), busy);
      }
    }

    /** The chunk of the sample has finished its round. */
    ghost predicate Finished(p: Page)
      reads this
    {
      p in samples && samples[p].chunk in chunks && chunks[samples[p].chunk].state == MonitFinish
    }

    /** burst_skip_handler: the sample's timer has fired. */
    method BurstSkipHandler(p: Page, ghost busy: Option<Page>)
      requires Listed() && p in samples && samples[p].waitTimer && Some(p) != busy && OfSample(p) !in Keys(queue)
      requires WorldOk(TheWorld().(keys := Keys(queue) + {OfSample(p)}), busy, None)
      modifies this`samples, this`guarded, this`chunks, this`queue, this`logs, this`state, this`alarm
      ensures WorldOk(TheWorld(), busy, None)
      ensures queue == old(queue) && chunks == old(chunks) && logs == old(logs)
      ensures state == old(state) && alarm == old(alarm)
      ensures samples == old(samples)[p := AfterTimer(old(samples)[p], Finished(p))]
      ensures guarded == if Finished(p) then old(guarded) else old(guarded) + {p}
      decreases false, |queue|, 2
    {
      hide WorldOk, Sorted, KeysDiffer, Keys;
      ghost var w := TheWorld().(keys := Keys(queue) + {OfSample(p)});
      TimedSample(w, p, busy);
      samples := samples[p := samples[p].(waitTimer := false)];
      var ret := PageSampleComplete(p, false);
      if ret != Continue || chunks[samples[p].chunk].state == MonitFinish {
        samples := samples[p := samples[p].(state := Uninit)];
        SampleStep(w, TheWorld(), p, busy, busy, None);
        return;
      }
      assert chunks[samples[p].chunk].state == UnderMonit
             && (samples[p].state == BurstAccessSkip || samples[p].state == WaitFirstAccess);
      if samples[p].state == BurstAccessSkip {
        samples := samples[p := samples[p].(state := WaitSuccessiveAccess)];
      }
      guarded := guarded + {p};
      samples := samples[p := samples[p].(waitFault := true)];
      SampleStep(w, TheWorld(), p, busy, busy, None);
    }

    /** page_sample_complete.  `closing` tells that the reference just counted has completed a
        cycle of the sample's chunk. */
    method PageSampleComplete(p: Page, ghost closing: bool) returns (ret: Outcome)
      requires p in samples && samples[p].chunk in chunks
      requires if closing
               then Listed() && NotDue(queue, clock, Some(p)) && WorldOk(TheWorld(), Some(p), Some(samples[p].chunk))
               else chunks[samples[p].chunk].state == MonitFinish
                    || chunks[samples[p].chunk].iTotal != chunks[samples[p].chunk].nr
      requires closing ==> Armed() && chunks[samples[p].chunk].state == UnderMonit
                           && chunks[samples[p].chunk].iTotal == chunks[samples[p].chunk].nr
      modifies this`samples, this`guarded, this`chunks, this`queue, this`logs, this`state, this`alarm
      ensures !closing ==> TheWorld() == old(TheWorld()) && queue == old(queue)
      ensures if closing then Armed() else state == old(state) && alarm == old(alarm)
      ensures !closing ==> ret == if chunks[samples[p].chunk].state == MonitFinish then Complete else Continue
      ensures closing ==> Okay(Some(p)) && p in samples && samples[p] == old(samples[p])
      ensures closing ==> var c := samples[p].chunk; var ch := old(chunks)[samples[p].chunk];
                          && c in chunks && chunks[c] == (if Settles(ch) then Ended(ch) else NextCycle(ch))
                          && ret == (if Settles(ch) then WaitNext else Continue)
                          && (ret == WaitNext && ToRevive(chunks[c]) ==> Event(OfChunk(c), clock + SAMPLE_INTERVAL) in queue)
      ensures closing ==> Keys(queue) <= old(Keys(queue)) + {OfChunk(samples[p].chunk)}
      decreases closing, |queue|, 1
    {
      hide WorldOk, Sorted, KeysDiffer, Keys, NotDue, Settles, Ended, NextCycle, ToRevive;
      EndedState(chunks[samples[p].chunk]);
      var c := samples[p].chunk;
      var ch := chunks[c];
      if ch.state == MonitFinish {
        return Complete;
      }
      if ch.iTotal != ch.nr {
        return Continue;
      }
      if !Settles(ch) {
        CloseCycle(p, c);
        return Continue;
      }
      EndRound(p, c);
      return WaitNext;
    }

    /** The cycle is over, the round is not. */
    method CloseCycle(ghost p: Page, c: ChunkId)
      requires c in chunks && chunks[c].state == UnderMonit && WorldOk(TheWorld(), Some(p), Some(c))
      requires !Settles(chunks[c])
      modifies this`chunks, this`logs
      ensures WorldOk(TheWorld(), Some(p), None)
      ensures chunks == old(chunks)[c := NextCycle(old(chunks)[c])]
    {
      ghost var w := TheWorld();
      FullChunk(w, c, Some(p));
      hide WorldOk, Keys;
      ghost var ch, log := chunks[c], logs[c];
      chunks := chunks[c := NextCycle(chunks[c])];
      logs := logs[c := log.(cycles := log.cycles + [ch.iPollutors])];
      CycleKeeps(ch, log, chunks[c], logs[c]);
      ChunkStep(w, TheWorld(), c, Some(p), Some(c), None);
    }

    /** The cycle that is over ends the round as well. */
    method EndRound(p: Page, c: ChunkId)
      requires Listed() && NotDue(queue, clock, Some(p)) && WorldOk(TheWorld(), Some(p), Some(c))
      requires p in samples && c in chunks && chunks[c].state == UnderMonit && Settles(chunks[c])
      requires Armed()
      modifies this`samples, this`guarded, this`chunks, this`queue, this`logs, this`state, this`alarm
      ensures Armed()
      ensures Okay(Some(p)) && p in samples && samples[p] == old(samples[p])
      ensures c in chunks && chunks[c] == Ended(old(chunks)[c])
      ensures ToRevive(chunks[c]) ==> Event(OfChunk(c), clock + SAMPLE_INTERVAL) in queue
      ensures Keys(queue) <= old(Keys(queue)) + {OfChunk(c)}
      decreases true, |queue|, 0
    {
      hide WorldOk, Sorted, KeysDiffer, Keys, NotDue, Kept, Ended, DueCount;
      var target := Conclude(p, c);
      if target == Restrict {
        ghost var w := TheWorld().(keys := Keys(queue) + {OfChunk(c)});
        AddTimer(OfChunk(c), SAMPLE_INTERVAL, Some(p));
        KeptKeys(w, TheWorld(), Some(p));
      }
    }

    /** The round's conclusion is drawn and noted; the revival comes next if there is to be one. */
    method Conclude(p: Page, c: ChunkId) returns (target: Mapping)
      requires WorldOk(TheWorld(), Some(p), Some(c))
      requires p in samples && c in chunks && chunks[c].state == UnderMonit && Settles(chunks[c])
      modifies this`chunks, this`logs
      ensures c in chunks && chunks[c] == Ended(old(chunks)[c]) && OfChunk(c) !in Keys(queue)
      ensures target == Restrict <==> ToRevive(chunks[c])
      ensures WorldOk(if target == Restrict then TheWorld().(keys := Keys(queue) + {OfChunk(c)}) else TheWorld(),
                      Some(p), None)
    {
      ghost var w, log := TheWorld(), logs[c];
      FullChunk(w, c, Some(p));
      hide WorldOk, Keys, Ended, Conclusion, ToRevive;
      var ch := chunks[c];
      target := Conclusion(ch.pollutors + ch.iPollutors, ch.total + ch.iTotal);
      RevivedIff(ch);
      chunks := chunks[c := Ended(ch)];
      logs := logs[c := log.(cycles := log.cycles + [ch.iPollutors], concluded := log.concluded + [target])];
      RoundEnds(ch, log, chunks[c], logs[c], target);
      if target == Restrict {
        ChunkStep(w, TheWorld().(keys := Keys(queue) + {OfChunk(c)}), c, Some(p), Some(c), None);
      } else {
        ChunkStep(w, TheWorld(), c, Some(p), Some(c), None);
      }
    }

    /** add_time_event */
    method AddTimer(key: Key, delay: int, ghost busy: Option<Page>)
      requires Listed() && key !in Keys(queue) && delay > TIMER_RESOLUTION && NotDue(queue, clock, busy)
      requires WorldOk(TheWorld().(keys := Keys(queue) + {key}), busy, None)
      requires Held()
      modifies this`samples, this`guarded, this`chunks, this`queue, this`logs, this`state, this`alarm
      ensures Held() && (state == EventQueue.Pending <==> old(state) == EventQueue.Pending)
      ensures Okay(busy) && key in Keys(queue) && Keys(queue) <= old(Keys(queue)) + {key}
      ensures Event(key, clock + delay) in queue
      ensures Kept(old(TheWorld().(keys := Keys(queue) + {key})), TheWorld(), busy)
      decreases false, |queue| + 1, 2
    {
      hide WorldOk, Sorted, KeysDiffer, Kept, Keys, NotDue, DueCount;
      var was := Pend();
      var e := Event(key, clock + delay);
      KeysInsert(queue, e);
      NotDueInsert(queue, clock, e, busy);
      InsertLength(queue, e);
      queue := Insert(queue, e);
      ghost var all, n := queue, DueCount(queue, clock);
      Dispatch(busy);
      StillQueued(all, n, e);
      if was == EventQueue.Active || was == EventQueue.Empty {
        Resume(clock, busy);
      }
      KeptKeys(old(TheWorld().(keys := Keys(queue) + {key})), TheWorld(), busy);
    }

    /** revive_sample_handler: the chunk's next round starts. */
    method ReviveHandler(c: ChunkId, ghost busy: Option<Page>)
      requires Listed() && OfChunk(c) !in Keys(queue)
      requires WorldOk(TheWorld().(keys := Keys(queue) + {OfChunk(c)}), busy, None)
      modifies this`samples, this`guarded, this`chunks, this`logs
      ensures WorldOk(TheWorld(), busy, None) && queue == old(queue)
      ensures c in old(chunks) && chunks == old(chunks)[c := NewRound(old(chunks)[c])] && samples.Keys == old(samples.Keys)
      ensures forall q :: q in samples ==> samples[q] == AfterRevival(old(samples)[q], c, q in old(chunks)[c].pages)
      ensures forall q :: q in samples && q in old(chunks)[c].pages && old(samples)[q].state == Uninit ==>
                samples[q] == Sample(c, WaitFirstAccess, false, true, 0, 0, 0, 0, 0)
      ensures Kept(old(TheWorld().(keys := Keys(queue) + {OfChunk(c)})), TheWorld(), busy)
    {
      hide WorldOk, Sorted, KeysDiffer, Keys, Kept, ChunkOk;
      ghost var keys := Keys(queue) + {OfChunk(c)};
      ghost var chunks0, logs0 := chunks, logs;
      ghost var w := TheWorld().(keys := keys);
      RevivedChunk(w, c, busy);
      ReviveSamples(c, chunks[c].pages, busy, keys);
      ghost var w1 := World(samples, guarded, chunks0, logs0, keys);
      chunks := chunks[c := NewRound(chunks[c])];
      logs := logs[c := logs[c].(cycles := [])];
      ReviveKeeps(chunks0[c], logs0[c], chunks[c], logs[c]);
      ChunkStep(w1, TheWorld(), c, busy, None, None);
      RevivedKept(w, TheWorld(), c, busy);
    }

    /** Its loop: all samples of the chunk that are not in use are set up again. */
    method ReviveSamples(c: ChunkId, pages: seq<Page>, ghost busy: Option<Page>, ghost keys: set<Key>)
      requires WorldOk(TheWorld().(keys := keys), busy, None) && c in chunks && pages == chunks[c].pages
      modifies this`samples, this`guarded
      ensures WorldOk(TheWorld().(keys := keys), busy, None)
      ensures samples.Keys == old(samples.Keys)
      ensures forall q :: q in samples ==> samples[q] == AfterRevival(old(samples)[q], c, q in pages)
      ensures busy.Some? && busy.value in samples ==> samples[busy.value] == old(samples)[busy.value]
    {
      if busy.Some? { BusyState(TheWorld().(keys := keys), busy); }
      hide WorldOk, Keys, AfterRevival;
      ghost var samples0 := samples;
      ghost var done := {};
      NoneRevived(samples, c);
      for i := 0 to |pages|
        invariant WorldOk(TheWorld().(keys := keys), busy, None)
        invariant forall q :: q in done <==> q in pages[..i]
        invariant Revived(samples0, samples, c, done)
      {
        ghost var samples1 := samples;
        ReviveSample(c, pages[i], busy, keys);
        OneRevived(samples0, samples1, samples, c, done, pages[i]);
        done := done + {pages[i]};
      }
      AllRevived(samples0, samples, c, done, pages, busy);
    }

    method ReviveSample(c: ChunkId, p: Page, ghost busy: Option<Page>, ghost keys: set<Key>)
      requires WorldOk(TheWorld().(keys := keys), busy, None) && c in chunks && p in chunks[c].pages
      modifies this`samples, this`guarded
      ensures WorldOk(TheWorld().(keys := keys), busy, None)
      ensures p in old(samples) && samples == old(samples)[p := AfterRevival(old(samples)[p], c, true)]
    {
      hide WorldOk, Keys;
      ghost var w := TheWorld().(keys := keys);
      MemberSample(w, c, p, busy);
      if samples[p].state == Uninit {
        guarded := guarded + {p};
        samples := samples[p := FreshSample(c).(waitFault := true)];
        SampleStep(w, TheWorld().(keys := keys), p, busy, busy, None);
      }
    }

    // ---------------------------------------------------------------- taking a sample

    constructor (regionLines: nat, llcLines: nat, llcBytes: nat, now: int, accesses: int)
      requires regionLines >= 1
      ensures Okay(None) && Armed() && chunks == map[] && queue == [] && clock == now
      ensures this.regionLines == regionLines && this.llcLines == llcLines && this.llcBytes == llcBytes
    {
      samples, guarded, chunks, queue, logs := map[], {}, map[], [], map[];
      clock, burst, state, alarm := now, DEFAULT_BURST_LEN, EventQueue.Empty, None;
      burstClock, burstAccesses := now, accesses;
      this.regionLines, this.llcLines, this.llcBytes := regionLines, llcLines, llcBytes;
    }

    /** page_fault_handler: the program touched a guarded page.  `accesses` and `misses` are the
        readings of the cache counters. */
    method PageFault(p: Page, accesses: int, misses: int)
      requires Okay(None) && p in guarded
      requires Armed()
      modifies this`samples, this`guarded, this`chunks, this`queue, this`logs, this`state, this`alarm,
               this`burst, this`burstClock, this`burstAccesses
      ensures Armed()
      ensures Okay(None) && p in samples && p !in guarded
      ensures !old(Finished(p)) ==> Scheduled(p)
      ensures old(Finished(p)) ==> chunks == old(chunks) && queue == old(queue)
                                   && samples == old(samples)[p := old(samples)[p].(waitFault := false, state := Uninit)]
      ensures !old(Finished(p)) ==>
                var s := old(samples)[p];
                samples[p].chunk == s.chunk && s.chunk in old(chunks) && s.chunk in chunks
                && Faulted(s, samples[p], old(chunks)[s.chunk], chunks[s.chunk],
                           Burst(Delta(accesses, s.accesses)), Victim(Delta(misses, s.misses)), accesses, misses)
    {
      hide WorldOk, Sorted, KeysDiffer, Keys, NotDue, Faulted;
      ghost var w := TheWorld();
      GuardedSample(w, p);
      samples := samples[p := samples[p].(waitFault := false)];
      var ret := PageSampleComplete(p, false);
      if ret != Continue || chunks[samples[p].chunk].state == MonitFinish {
        guarded := guarded - {p};
        samples := samples[p := samples[p].(state := Uninit)];
        SampleStep(w, TheWorld(), p, None, None, None);
        NobodyBusy(queue, clock);
        return;
      }
      assert chunks[samples[p].chunk].state == UnderMonit
             && (samples[p].state == WaitFirstAccess || samples[p].state == WaitSuccessiveAccess);
      guarded := guarded - {p};
      SampleStep(w, TheWorld(), p, None, Some(p), None);
      ghost var s, ch := w.samples[p], chunks[samples[p].chunk];
      Collect(p, accesses, misses);
      FaultCleared(s, samples[p], ch, chunks[s.chunk], Burst(Delta(accesses, s.accesses)), Victim(Delta(misses, s.misses)), accesses, misses);
    }

    /** is_burst_access_sample */
    predicate Burst(delta: nat) { delta < regionLines }

    /** is_victim_sample, PREFETCH_BATCH being 1 */
    predicate Victim(delta: nat) { delta < llcLines }

    /** What follows a fault is queued: the sample's next step, after the burst or at the sampling frequency; or
        the chunk's next round, if its round has just ended and it is to be restricted. */
    ghost predicate Scheduled(p: Page)
      reads this
    {
      && p in samples && samples[p].chunk in chunks
      && var c, ch := samples[p].chunk, chunks[samples[p].chunk];
         if ch.state == MonitFinish then ToRevive(ch) ==> Event(OfChunk(c), clock + SAMPLE_INTERVAL) in queue
         else Event(OfSample(p), clock + if samples[p].state == WaitFirstAccess then SAMPLE_FREQUENCY else burst) in queue
    }

    /** collect_page_sample */
    method Collect(p: Page, accesses: int, misses: int)
      requires Listed() && WorldOk(TheWorld(), Some(p), None) && OfSample(p) !in Keys(queue)
      requires p in samples && !samples[p].waitTimer
      requires samples[p].state == WaitFirstAccess || samples[p].state == WaitSuccessiveAccess
      requires samples[p].chunk in chunks && chunks[samples[p].chunk].state == UnderMonit
      requires Armed()
      modifies this`samples, this`guarded, this`chunks, this`queue, this`logs, this`state, this`alarm,
               this`burst, this`burstClock, this`burstAccesses
      ensures Armed()
      ensures Okay(None) && p in samples && p !in guarded && Scheduled(p)
      ensures var s := old(samples)[p];
              samples[p].chunk == s.chunk && s.chunk in old(chunks) && s.chunk in chunks
              && Faulted(s, samples[p], old(chunks)[s.chunk], chunks[s.chunk],
                         Burst(Delta(accesses, s.accesses)), Victim(Delta(misses, s.misses)), accesses, misses)
    {
      hide WorldOk, Sorted, KeysDiffer, Keys, NotDue, Settles, Ended, NextCycle;
      BusyUnguarded(TheWorld(), p);
      BurstSkipUpdate(accesses);
      ghost var closing := TakeReference(p, accesses, misses);
      EndedState(chunks[samples[p].chunk]);
      Proceed(p, if samples[p].state == WaitFirstAccess then SAMPLE_FREQUENCY else burst, closing);
    }

    /** Its end: the cycle is closed if it is full, and unless the round is over the timer set. */
    method Proceed(p: Page, delay: int, ghost closing: bool)
      requires Listed() && OfSample(p) !in Keys(queue) && p in samples && !samples[p].waitTimer
      requires samples[p].state == BurstAccessSkip || samples[p].state == WaitFirstAccess
      requires samples[p].chunk in chunks && chunks[samples[p].chunk].state == UnderMonit
      requires WorldOk(TheWorld(), Some(p), if closing then Some(samples[p].chunk) else None)
      requires closing <==> chunks[samples[p].chunk].iTotal == chunks[samples[p].chunk].nr
      requires delay > TIMER_RESOLUTION
      requires Armed()
      modifies this`samples, this`guarded, this`chunks, this`queue, this`logs, this`state, this`alarm
      ensures Armed()
      ensures Okay(None) && p in samples && p !in guarded && samples[p].chunk in chunks
      ensures var s, ch := old(samples)[p], old(chunks)[old(samples)[p].chunk];
              && samples[p].chunk == s.chunk
              && chunks[s.chunk] == (if !closing then ch else if Settles(ch) then Ended(ch) else NextCycle(ch))
              && samples[p] == if closing && Settles(ch) then s.(state := Uninit) else s.(waitTimer := true)
      ensures var ch := chunks[samples[p].chunk];
              if ch.state == MonitFinish then ToRevive(ch) ==> Event(OfChunk(samples[p].chunk), clock + SAMPLE_INTERVAL) in queue
              else Event(OfSample(p), clock + delay) in queue
    {
      hide WorldOk, Sorted, KeysDiffer, Keys, NotDue, Kept, Settles, Ended, NextCycle;
      var c := samples[p].chunk;
      EndedState(chunks[c]);
      NotDueAbsent(queue, clock, p);
      var ret := PageSampleComplete(p, closing);
      if ret == Complete || ret == WaitNext {
        Rest(p);
      } else {
        StartTimer(p, delay);
      }
    }

    /** The sample waits for neither fault nor timer. */
    method Rest(p: Page)
      requires Listed() && WorldOk(TheWorld(), Some(p), None) && OfSample(p) !in Keys(queue)
      requires p in samples && !samples[p].waitTimer
      requires samples[p].chunk in chunks && chunks[samples[p].chunk].state == MonitFinish
      modifies this`samples
      ensures Okay(None) && p !in guarded
      ensures samples == old(samples)[p := old(samples)[p].(state := Uninit)]
    {
      hide WorldOk, Sorted, KeysDiffer, Keys, NotDue;
      ghost var w := TheWorld();
      samples := samples[p := samples[p].(state := Uninit)];
      BusyUnguarded(w, p);
      SampleStep(w, TheWorld(), p, Some(p), None, None);
      NobodyBusy(queue, clock);
    }

    /** burst_skip_update: if there have been accesses enough, and the last renewal is long enough ago, the
        length to skip becomes the time in which a region's accesses occur at the present rate, but the default
        at least. */
    method BurstSkipUpdate(accesses: int)
      requires regionLines >= 1 && burstClock <= clock && burst >= DEFAULT_BURST_LEN
      modifies this`burst, this`burstClock, this`burstAccesses
      ensures burst >= DEFAULT_BURST_LEN && burstClock <= clock
      ensures var occurred, passed := accesses - old(burstAccesses), clock - old(burstClock);
              if occurred >= regionLines && passed >= BURST_SKIP_UPDATE_INTERVAL
              then (burstClock, burstAccesses) == (clock, accesses) && passed * regionLines < (burst + 1) * occurred
                   && (burst > DEFAULT_BURST_LEN ==> burst * occurred <= passed * regionLines)
              else (burst, burstClock, burstAccesses) == old((burst, burstClock, burstAccesses))
    {
      if accesses < burstAccesses {
        return;
      }
      var occurred: nat := accesses - burstAccesses;
      if occurred < regionLines {
        return;
      }
      var passed: nat := clock - burstClock;
      if passed < BURST_SKIP_UPDATE_INTERVAL {
        return;
      }
      var len := passed * regionLines / occurred;
      Arith.Between(passed * regionLines, occurred);
      burst := if len < DEFAULT_BURST_LEN then DEFAULT_BURST_LEN else len;
      assert len < DEFAULT_BURST_LEN ==> (len + 1) * occurred <= (burst + 1) * occurred;
      burstClock, burstAccesses := clock, accesses;
    }

    /** The switch of collect_page_sample. */
    method TakeReference(p: Page, accesses: int, misses: int) returns (ghost closing: bool)
      requires WorldOk(TheWorld(), Some(p), None) && p in samples
      requires samples[p].state == WaitFirstAccess || samples[p].state == WaitSuccessiveAccess
      requires samples[p].chunk in chunks && chunks[samples[p].chunk].state == UnderMonit
      modifies this`samples, this`chunks
      ensures p in samples && samples[p].chunk == old(samples)[p].chunk && samples[p].chunk in chunks
      ensures WorldOk(TheWorld(), Some(p), if closing then Some(samples[p].chunk) else None)
      ensures samples[p] == Taken(old(samples)[p], Burst(Delta(accesses, old(samples)[p].accesses)),
                                  Victim(Delta(misses, old(samples)[p].misses)), accesses, misses)
      ensures var counts := old(samples)[p].state == WaitSuccessiveAccess && !Burst(Delta(accesses, old(samples)[p].accesses));
              && chunks[samples[p].chunk] ==
                   Counted(old(chunks)[samples[p].chunk], counts, Victim(Delta(misses, old(samples)[p].misses)))
              && (closing <==> counts && chunks[samples[p].chunk].iTotal == chunks[samples[p].chunk].nr)
              && (!closing ==> chunks[samples[p].chunk].iTotal != chunks[samples[p].chunk].nr)
    {
      hide WorldOk, Keys;
      var c := samples[p].chunk;
      ghost var w := TheWorld();
      BusyUnguarded(w, p);
      RunningChunk(w, c, Some(p));
      closing := false;
      if samples[p].state == WaitFirstAccess {
        samples := samples[p := samples[p].(state := BurstAccessSkip, accesses := accesses, misses := misses)];
        SampleStep(w, TheWorld(), p, Some(p), Some(p), None);
      } else {
        var again := UpdateChunkSample(p, c, accesses, misses);
        closing := !again && chunks[c].iTotal == chunks[c].nr;
        ghost var full := if closing then Some(c) else None;
        ghost var w1 := TheWorld();
        samples := samples[p := samples[p].(state := if again then BurstAccessSkip else WaitFirstAccess)];
        SampleStep(w1, TheWorld(), p, Some(p), Some(p), full);
      }
    }

    /** update_chunk_sample: true if the accesses came in a burst and are not counted. */
    method UpdateChunkSample(p: Page, c: ChunkId, accesses: int, misses: int) returns (again: bool)
      requires WorldOk(TheWorld(), Some(p), None) && p in samples && samples[p].chunk == c
      requires c in chunks && chunks[c].state == UnderMonit
      modifies this`samples, this`chunks
      ensures again == Burst(Delta(accesses, old(samples)[p].accesses))
      ensures again ==> samples == old(samples) && chunks == old(chunks)
      ensures !again ==>
                var victim := Victim(Delta(misses, old(samples)[p].misses));
                && samples == old(samples)[p := CountedSample(old(samples)[p], victim)]
                && chunks == old(chunks)[c := Counted(old(chunks)[c], true, victim)]
                && WorldOk(TheWorld(), Some(p), if chunks[c].iTotal == chunks[c].nr then Some(c) else None)
    {
      hide WorldOk, Keys;
      if Delta(accesses, samples[p].accesses) < regionLines {
        return true;
      }
      ghost var w := TheWorld();
      var ch := chunks[c];
      BusyUnguarded(w, p);
      RunningChunk(w, c, Some(p));
      var s := samples[p];
      if Delta(misses, s.misses) < llcLines {
        samples := samples[p := s.(victims := s.victims + 1, total := s.total + 1)];
        chunks := chunks[c := ch.(iVictims := ch.iVictims + 1, iTotal := ch.iTotal + 1)];
      } else {
        samples := samples[p := s.(pollutors := s.pollutors + 1, total := s.total + 1)];
        chunks := chunks[c := ch.(iPollutors := ch.iPollutors + 1, iTotal := ch.iTotal + 1)];
      }
      CountKeeps(ch, w.logs[c], chunks[c]);
      SampleStep(w, w.(samples := samples), p, Some(p), Some(p), None);
      ChunkStep(w.(samples := samples), TheWorld(), c, Some(p), None,
                if chunks[c].iTotal == chunks[c].nr then Some(c) else None);
      return false;
    }

    /** The sample's next access is waited for after `delay`. */
    method StartTimer(p: Page, delay: int)
      requires Listed() && WorldOk(TheWorld(), Some(p), None) && OfSample(p) !in Keys(queue)
      requires p in samples && (samples[p].state == BurstAccessSkip || samples[p].state == WaitFirstAccess)
      requires samples[p].chunk in chunks && chunks[samples[p].chunk].state == UnderMonit
      requires delay > TIMER_RESOLUTION
      requires Armed()
      modifies this`samples, this`guarded, this`chunks, this`queue, this`logs, this`state, this`alarm
      ensures Armed()
      ensures Okay(None) && p in samples && samples[p] == old(samples)[p].(waitTimer := true) && p !in guarded
      ensures Event(OfSample(p), clock + delay) in queue
      ensures samples[p].chunk in chunks && chunks[samples[p].chunk] == old(chunks)[samples[p].chunk]
    {
      hide WorldOk, Sorted, KeysDiffer, Keys, NotDue, Kept;
      ghost var w := TheWorld().(keys := Keys(queue) + {OfSample(p)});
      BusyUnguarded(TheWorld(), p);
      NotDueAbsent(queue, clock, p);
      SampleStep(TheWorld(), w, p, Some(p), Some(p), None);
      NotRevived(w, samples[p].chunk, Some(p));
      AddTimer(OfSample(p), delay, Some(p));
      KeptKeys(w, TheWorld(), Some(p));
      KeptChunk(w, TheWorld(), Some(p), samples[p].chunk);
      ghost var w1 := TheWorld();
      BusyUnguarded(w1, p);
      samples := samples[p := samples[p].(waitTimer := true)];
      SampleStep(w1, TheWorld(), p, Some(p), None, None);
      NobodyBusy(queue, clock);
    }

    // ---------------------------------------------------------------- time

    /** Time passes. */
    method Advance(now: int)
      requires Okay(None) && Armed() && now >= clock
      modifies this`clock
      ensures Okay(None) && Armed() && clock == now
    {
      clock := now;
    }

    /** SIGALRM: trapped in a pending queue it does nothing. */
    method Signal()
      requires Okay(None) && Held()
      modifies this`samples, this`guarded, this`chunks, this`queue, this`logs, this`state, this`alarm
      ensures Okay(None) && Held() && Kept(old(TheWorld()), TheWorld(), None)
      ensures old(state) == EventQueue.Pending ==>
                TheWorld() == old(TheWorld()) && queue == old(queue) && state == EventQueue.Pending
      ensures old(state) != EventQueue.Pending ==>
                Armed() && DueCount(queue, clock) == 0 && (alarm.Some? ==> alarm.value > clock)
      ensures old(state) != EventQueue.Pending ==> queue == old(queue)[old(DueCount(queue, clock))..]
    {
      hide WorldOk, NotDue, Sorted, KeysDiffer, Kept, DueCount, Keys;
      KeptSame(TheWorld(), None);
      var was := Pend();
      if was == EventQueue.Pending {
        return;
      }
      Dispatch(None);
      if queue == [] {
        state := EventQueue.Empty;
      } else {
        Resume(clock - TIMER_RESOLUTION, None);
      }
    }

    // ---------------------------------------------------------------- giving samples up

    /** remove_time_event: if there is such an event the queue is resumed, and fires what is due. */
    method RemoveTimer(key: Key, ghost busy: Option<Page>)
      requires Listed() && NotDue(Remove(queue, key), clock, busy)
      requires key in Keys(queue) ==> WorldOk(TheWorld().(keys := Keys(queue) - {key}), busy, None)
      requires Held()
      modifies this`samples, this`guarded, this`chunks, this`queue, this`logs, this`state, this`alarm
      ensures Held() && (state == EventQueue.Pending <==> key !in old(Keys(queue)))
      ensures key !in old(Keys(queue)) ==> TheWorld() == old(TheWorld()) && queue == old(queue)
      ensures key in old(Keys(queue)) ==> Okay(busy) && Kept(old(TheWorld().(keys := Keys(queue) - {key})), TheWorld(), busy)
      ensures Listed()
    {
      FindQueued(queue, key);
      KeysQueued(queue, key);
      hide WorldOk, Sorted, KeysDiffer, Keys, NotDue, Kept;
      var _ := Pend();
      if Find(queue, key) == |queue| {
        return;
      }
      KeysRemove(queue, key);
      queue := Remove(queue, key);
      if queue == [] {
        state := EventQueue.Empty;
        KeptSame(TheWorld(), busy);
      } else {
        Resume(clock, busy);
      }
    }

    /** remove_page_sample */
    method RemovePageSample(p: Page)
      requires Okay(None) && p in samples
      requires Held()
      modifies this`samples, this`guarded, this`chunks, this`queue, this`logs, this`state, this`alarm
      ensures Held() && (old(Armed()) ==> Armed())
      ensures Okay(None) && SampleGone(old(TheWorld()), TheWorld(), p)
    {
      hide WorldOk, Sorted, KeysDiffer, NotDue, Kept, Keys;
      ghost var w := TheWorld();
      RestingSample(w, p);
      ghost var busy := None;
      ghost var w1 := w;
      if samples[p].waitTimer {
        busy := Some(p);
        w1 := w.(keys := w.keys - {OfSample(p)});
        SampleStep(w, w1, p, None, busy, None);
        TimerGone(queue, clock, p);
        RemoveTimer(OfSample(p), busy);
        KeptKeys(w1, TheWorld(), busy);
      } else {
        KeptSame(w, None);
      }
      hide WorldOk, Sorted, KeysDiffer, NotDue, Kept, Keys, Without;
      ghost var w2 := TheWorld();
      SampleOf(w2, p, busy);
      var c := samples[p].chunk;
      guarded := guarded - {p};
      chunks := chunks[c := chunks[c].(pages := Without(chunks[c].pages, p))];
      samples := samples - {p};
      SampleLeaves(w2, TheWorld(), p, busy);
      NobodyBusy(queue, clock);
      GoneFacts(w, w1, w2, TheWorld(), p, busy);
    }

    /** remove_chunk_samples */
    method RemoveChunkSamples(c: ChunkId)
      requires Okay(None) && c in chunks && OfChunk(c) !in Keys(queue)
      requires Held()
      modifies this`samples, this`guarded, this`chunks, this`queue, this`logs, this`state, this`alarm
      ensures Held() && (old(Armed()) ==> Armed())
      ensures Okay(None) && SamplesGone(old(TheWorld()), TheWorld(), c, Elems(old(chunks)[c].pages))
      ensures c in chunks && chunks[c] == old(chunks)[c].(pages := [])
    {
      ghost var w := TheWorld();
      ghost var gone := {};
      NoneGone(w, c);
      hide WorldOk, Sorted, KeysDiffer, NotDue, Keys, SamplesGone, SampleGone, Without;
      while chunks[c].pages != []
        invariant Okay(None) && c in chunks && OfChunk(c) !in Keys(queue)
        invariant Held() && (old(Armed()) ==> Armed())
        invariant SamplesGone(w, TheWorld(), c, gone)
        invariant Elems(w.chunks[c].pages) == gone + Elems(chunks[c].pages)
        invariant chunks[c] == w.chunks[c].(pages := chunks[c].pages)
        decreases |chunks[c].pages|
      {
        var p := chunks[c].pages[0];
        ghost var w1 := TheWorld();
        MemberSample(w1, c, p, None);
        RevivedPages(w1, c);
        RemovePageSample(p);
        GoneOne(w, w1, TheWorld(), c, gone, p);
        gone := gone + {p};
      }
      assert gone == Elems(w.chunks[c].pages);
    }

    /** stop_monit_chunk, and the end of the chunk with it.  `told` is what the
        chunk's context is told, if the round was not over. */
    method StopMonit(c: ChunkId, misses: int) returns (told: Option<Mapping>)
      requires Okay(None) && c in chunks
      requires Armed()
      modifies this`samples, this`guarded, this`chunks, this`queue, this`logs, this`state, this`alarm
      ensures Armed()
      ensures Okay(None) && chunks.Keys == old(chunks.Keys) - {c}
      ensures samples.Keys == old(samples.Keys) - Elems(old(chunks)[c].pages)
      ensures OfChunk(c) !in Keys(queue)
      ensures forall p :: p in old(chunks)[c].pages ==> p !in samples && p !in guarded && OfSample(p) !in Keys(queue)
      ensures told.Some? <==> old(chunks)[c].state == UnderMonit
      ensures told.Some? ==> (told.value == Restrict <==> old(ToldRestrict(c, misses)))
    {
      hide WorldOk, Sorted, KeysDiffer, NotDue, Keys, SamplesGone, LateCount, Conclusion, ToldRestrict;
      ToldIff(c, misses);
      ghost var pages := chunks[c].pages;
      var _ := Pend();
      told := GiveUp(c, misses);
      ghost var w := TheWorld();
      RemoveChunkSamples(c);
      AllGone(w, TheWorld(), c);
      ghost var w1 := TheWorld();
      chunks := chunks - {c};
      logs := logs - {c};
      ChunkLeaves(w1, TheWorld(), c);
      ghost var w2 := TheWorld();
      NobodyBusy(queue, clock);
      Resume(clock, None);
      StillGone(w2, TheWorld(), c, pages);
    }

    /** A sample with a first access behind it, that pollutes. */
    predicate Late(s: Sample, size: nat, misses: int) {
      s.misses != 0 && (size >= llcBytes || !Victim(Delta(misses, s.misses)))
    }

    /** How many of the samples on `pages` are late. */
    ghost function LateCount(all: map<Page, Sample>, pages: seq<Page>, size: nat, misses: int): nat {
      if pages == [] then 0
      else
        var p := pages[|pages| - 1];
        LateCount(all, pages[..|pages| - 1], size, misses) + if p in all && Late(all[p], size, misses) then 1 else 0
    }

    /** The pages of the chunk whose samples have had a first access, and now pollute: the chunk is as large as the
        cache, or the misses have risen by the whole cache since. */
    ghost function LatePages(all: map<Page, Sample>, pages: seq<Page>, size: nat, misses: int): set<Page> {
      set p | p in pages && p in all && all[p].misses != 0
              && (size >= llcBytes || Delta(misses, all[p].misses) >= llcLines)
    }

    /** In whole numbers: told is that the chunk restricts exactly if nine in ten references were pollutors, those of
        the cycle under way and one for each late page included. */
    ghost predicate ToldRestrict(c: ChunkId, misses: int)
      requires c in chunks
      reads this
    {
      var ch := chunks[c];
      var late := |LatePages(samples, ch.pages, ch.size, misses)|;
      && ch.total + ch.iTotal + late > 0
      && 10 * (ch.pollutors + ch.iPollutors + late) >= 9 * (ch.total + ch.iTotal + late)
    }

    lemma ToldIff(c: ChunkId, misses: int)
      requires WorldOk(TheWorld(), None, None) && c in chunks
      ensures Told(c, misses).Some? <==> chunks[c].state == UnderMonit
      ensures Told(c, misses).Some? ==> (Told(c, misses).value == Restrict <==> ToldRestrict(c, misses))
    {
      var ch := chunks[c];
      RevivedPages(TheWorld(), c);
      hide WorldOk, Keys, LateCount, LatePages, Conclusion;
      LateCountIs(samples, ch.pages, ch.size, misses);
      var late := |LatePages(samples, ch.pages, ch.size, misses)|;
      ConclusionIff(ch.pollutors + ch.iPollutors + late, ch.total + ch.iTotal + late);
    }

    lemma {:induction false} LateCountIs(all: map<Page, Sample>, pages: seq<Page>, size: nat, misses: int)
      requires NoDup(pages)
      ensures LateCount(all, pages, size, misses) == |LatePages(all, pages, size, misses)|
    {
      if pages == [] {
        assert LatePages(all, pages, size, misses) == {};
      } else {
        var p, rest := pages[|pages| - 1], pages[..|pages| - 1];
        LateCountIs(all, rest, size, misses);
        assert pages == rest + [p];
        NoDupConcat(rest, [p]);
        assert LatePages(all, pages, size, misses)
            == LatePages(all, rest, size, misses) + if p in all && Late(all[p], size, misses) then {p} else {};
        assert p !in LatePages(all, rest, size, misses);
      }
    }

    /** The conclusion from all references, with those of the cycle under way and the late ones. */
    ghost function Told(c: ChunkId, misses: int): Option<Mapping>
      requires c in chunks
      reads this
    {
      var ch := chunks[c];
      var more := LateCount(samples, ch.pages, ch.size, misses);
      if ch.state == MonitFinish then None
      else Some(Conclusion(ch.pollutors + ch.iPollutors + more, ch.total + ch.iTotal + more))
    }

    /** Its first part: the chunk is not going to be monitored any more. */
    method GiveUp(c: ChunkId, misses: int) returns (told: Option<Mapping>)
      requires Okay(None) && c in chunks
      requires Held()
      modifies this`samples, this`guarded, this`chunks, this`queue, this`logs, this`state, this`alarm
      ensures Held()
      ensures Okay(None) && c in chunks && chunks[c].state == MonitFinish && chunks[c].pages == old(chunks)[c].pages
      ensures samples.Keys == old(samples.Keys) && chunks.Keys == old(chunks.Keys)
      ensures OfChunk(c) !in Keys(queue)
      ensures told == old(Told(c, misses))
    {
      hide WorldOk, Sorted, KeysDiffer, NotDue, Keys, LateCount, Conclusion;
      told := None;
      if chunks[c].state != MonitFinish {
        told := GiveUpRound(c, misses);
      } else {
        GiveUpRevival(c);
      }
    }

    /** The round under way is given up: there is no revival to take back. */
    method GiveUpRound(c: ChunkId, misses: int) returns (told: Option<Mapping>)
      requires Okay(None) && c in chunks && chunks[c].state == UnderMonit
      requires Held()
      modifies this`samples, this`guarded, this`chunks, this`queue, this`logs, this`state, this`alarm
      ensures Held()
      ensures Okay(None) && c in chunks && chunks[c].state == MonitFinish && chunks[c].pages == old(chunks)[c].pages
      ensures samples.Keys == old(samples.Keys) && chunks.Keys == old(chunks.Keys)
      ensures OfChunk(c) !in Keys(queue)
      ensures told == old(Told(c, misses))
    {
      hide WorldOk, Sorted, KeysDiffer, NotDue, Keys, Kept, Told;
      ghost var w := TheWorld();
      InLogs(w, c);
      NotRevived(w, c, None);
      KeysQueued(queue, OfChunk(c));
      told := LastConclusion(c, misses);
      ghost var w1 := TheWorld().(chunks := w.chunks);
      NobodyBusy(Remove(queue, OfChunk(c)), clock);
      RemoveTimer(OfChunk(c), None);
      chunks := chunks[c := chunks[c].(state := MonitFinish)];
      logs := logs[c := logs[c].(stopping := true)];
      GivenUp(w1, TheWorld(), c);
      NobodyBusy(queue, clock);
    }

    /** The unfinished round is counted and concluded from. */
    method LastConclusion(c: ChunkId, misses: int) returns (told: Option<Mapping>)
      requires WorldOk(TheWorld(), None, None) && c in chunks && chunks[c].state != MonitFinish
      modifies this`samples, this`chunks
      ensures WorldOk(TheWorld().(chunks := old(chunks)), None, None)
      ensures c in chunks && chunks == old(chunks)[c := chunks[c]] && SameSite(old(chunks)[c], chunks[c])
      ensures samples.Keys == old(samples.Keys)
      ensures told == old(Told(c, misses))
    {
      hide WorldOk, Keys, LateCount, Conclusion, AfterLast, Late;
      LastSampleUpdate(c, misses);
      told := Some(Conclusion(chunks[c].pollutors, chunks[c].total));
    }

    /** The round is over: its revival, if any, is taken back. */
    method GiveUpRevival(c: ChunkId)
      requires Okay(None) && c in chunks && chunks[c].state == MonitFinish
      requires Held()
      modifies this`samples, this`guarded, this`chunks, this`queue, this`logs, this`state, this`alarm
      ensures Held()
      ensures Okay(None) && c in chunks && chunks[c] == old(chunks)[c]
      ensures samples.Keys == old(samples.Keys) && chunks.Keys == old(chunks.Keys)
      ensures OfChunk(c) !in Keys(queue)
    {
      ghost var w := TheWorld();
      InLogs(w, c);
      hide WorldOk, Sorted, KeysDiffer, NotDue, Keys, Kept;
      logs := logs[c := logs[c].(stopping := true)];
      ghost var w1 := TheWorld().(keys := Keys(queue) - {OfChunk(c)});
      ChunkStep(w, w1, c, None, None, None);
      NobodyBusy(Remove(queue, OfChunk(c)), clock);
      if OfChunk(c) !in Keys(queue) { SameWorld(TheWorld(), w1); }
      RemoveTimer(OfChunk(c), None);
      KeptSame(w1, None);
      StoppedChunk(w1, TheWorld(), c);
      NobodyBusy(queue, clock);
    }

    /** last_chunk_sample_update: the cycle under way is added up, and late samples count once
        more. */
    method LastSampleUpdate(c: ChunkId, misses: int)
      requires WorldOk(TheWorld(), None, None) && c in chunks
      modifies this`samples, this`chunks
      ensures WorldOk(TheWorld().(chunks := old(chunks)), None, None)
      ensures samples.Keys == old(samples.Keys)
      ensures forall q :: q in samples ==>
                samples[q] == AfterLast(old(samples)[q], q in old(chunks)[c].pages && Late(old(samples)[q], old(chunks)[c].size, misses))
      ensures var ch := old(chunks)[c];
              chunks == old(chunks)[c := LastCounted(ch, LateCount(old(samples), ch.pages, ch.size, misses))]
    {
      hide WorldOk, Keys, NoDup;
      ghost var chunks0, samples0 := chunks, samples;
      var pages, size := chunks[c].pages, chunks[c].size;
      RevivedPages(TheWorld(), c);
      var more := 0;
      for i := 0 to |pages|
        invariant samples.Keys == samples0.Keys && chunks == chunks0
        invariant WorldOk(TheWorld(), None, None)
        invariant more == LateCount(samples0, pages[..i], size, misses)
        invariant forall q :: q in samples0 ==>
                    samples[q] == AfterLast(samples0[q], q in pages[..i] && Late(samples0[q], size, misses))
      {
        var p := pages[i];
        ghost var w := TheWorld();
        MemberSample(w, c, p, None);
        NextPage(pages, i);
        if Late(samples[p], size, misses) {
          samples := samples[p := CountedSample(samples[p], false)];
          RestingSample(w, p);
          SampleStep(w, TheWorld(), p, None, None, None);
          more := more + 1;
        }
      }
      assert pages[..|pages|] == pages;
      chunks := chunks[c := LastCounted(chunks[c], more)];
    }

    /** remove_sample_range, for the buffer of `len` bytes at `start`. */
    method RemoveSampleRange(start: nat, len: nat)
      requires Okay(None)
      requires Armed()
      modifies this`samples, this`guarded, this`chunks, this`queue, this`logs, this`state, this`alarm
      ensures Armed()
      ensures Okay(None)
      ensures forall p :: Visited(start, len, p) ==> p !in samples && p !in guarded && OfSample(p) !in Keys(queue)
      ensures samples.Keys <= old(samples.Keys) && chunks.Keys == old(chunks.Keys)
      ensures forall p :: p in old(samples) && p !in samples ==> Visited(start, len, p)
    {
      ghost var samples0 := samples;
      var end, addr, k := start + len, start, 0;
      NoneVisited(start);
      hide WorldOk, Sorted, KeysDiffer, NotDue, Keys, SampleGone;
      while addr <= end
        invariant addr == start + k * PAGE_SIZE <= end + PAGE_SIZE
        invariant Okay(None) && Armed() && chunks.Keys == old(chunks.Keys)
        invariant samples.Keys <= samples0.Keys
        invariant forall p :: p in samples0 && p !in samples ==> VisitedBy(start, k, p)
        invariant forall p :: VisitedBy(start, k, p) ==> p !in samples
        decreases end + PAGE_SIZE - addr
      {
        var p := SamplePlacement.PageDown(addr);
        VisitedNext(start, k, p);
        if p in samples {
          ghost var w := TheWorld();
          RemovePageSample(p);
          GoneKeys(w, TheWorld(), p);
        }
        addr := addr + PAGE_SIZE;
        k := k + 1;
      }
      VisitedAll(start, len, k);
      AbsentSamples(TheWorld());
    }

    // ---------------------------------------------------------------- starting

    /** monit_chunk, for a chunk of `size` bytes at `addr`, which overlaps no other with
        its extent (MonitorState.AttachIff tells why it must not). */
    method MonitChunk(c: ChunkId, mapping: Mapping, addr: nat, size: nat, density: nat, random: int -> nat)
      requires Okay(None) && (c in chunks ==> chunks[c].state == UnderMonit)
      requires 1 <= density <= (SamplePlacement.End(addr, size) - SamplePlacement.Start(addr)) / PAGE_SIZE
      requires c in chunks || Clear(chunks, addr, size)
      requires Armed()
      modifies this`samples, this`guarded, this`chunks, this`queue, this`logs, this`state, this`alarm
      ensures Armed()
      ensures Okay(None) && c in chunks
      ensures c in old(chunks) ==> TheWorld() == old(TheWorld()) && queue == old(queue)
      ensures c !in old(chunks) ==>
                && chunks.Keys == old(chunks.Keys) + {c} && Monitored(chunks[c], mapping, addr, size, density, random)
                && Attached(samples, old(samples.Keys), chunks[c].pages, c, SamplePlacement.Start(addr), SamplePlacement.End(addr, size))
    {
      if c in chunks {
        return;
      }
      hide WorldOk, Sorted, KeysDiffer, NotDue, Keys, Kept, Attached, Monitored, SamplePlacement.Start, SamplePlacement.End;
      var _ := Pend();
      ClearOfSamples(samples, chunks, addr, size);
      SetUp(c, mapping, addr, size, density, random);
      ghost var w := TheWorld();
      NotRevived(w, c, None);
      Resume(clock, None);
      KeptFresh(w, TheWorld(), c, old(samples.Keys), SamplePlacement.Start(addr), SamplePlacement.End(addr, size));
      KeptChunk(w, TheWorld(), None, c);
    }

    /** What it does while the queue is held. */
    method SetUp(c: ChunkId, mapping: Mapping, addr: nat, size: nat, density: nat, random: int -> nat)
      requires Okay(None) && c !in chunks
      requires 1 <= density <= (SamplePlacement.End(addr, size) - SamplePlacement.Start(addr)) / PAGE_SIZE
      requires forall p :: p in samples ==> !(SamplePlacement.Start(addr) <= p < SamplePlacement.End(addr, size))
      modifies this`samples, this`guarded, this`chunks, this`logs
      ensures Okay(None) && c in chunks && chunks == old(chunks)[c := chunks[c]]
      ensures Monitored(chunks[c], mapping, addr, size, density, random) && chunks[c].state == UnderMonit
      ensures Attached(samples, old(samples.Keys), chunks[c].pages, c, SamplePlacement.Start(addr), SamplePlacement.End(addr, size))
    {
      hide WorldOk, Sorted, KeysDiffer, NotDue, Keys, Attached, PlacedPages, SamplePlacement.Start, SamplePlacement.End,
           SamplePlacement.IsBaseCycle, SamplePlacement.AllPlaced, SamplePlacement.NrSample;
      SamplePlacement.WatchedRange(addr, size);
      SamplePlacement.Placement(addr, size, density, random);
      var start, end := SamplePlacement.Start(addr), SamplePlacement.End(addr, size);
      var n := SamplePlacement.NrSample(end - start, density);
      var base := SamplePlacement.BaseSampleCycle(end - start);
      SamplePlacement.CycleBounds(end - start, base);
      EnterChunk(c, mapping, addr, size, n, base);
      AttachSamples(c, start, end, n, random);
    }

    /** The loop that places the samples. */
    method AttachSamples(c: ChunkId, start: nat, end: nat, n: nat, random: int -> nat)
      requires Okay(None) && c in chunks && chunks[c].pages == [] && start <= end && 1 <= n <= end - start
      requires start == SamplePlacement.Start(chunks[c].addr) && end == SamplePlacement.End(chunks[c].addr, chunks[c].size)
      requires forall p :: p in samples ==> !(start <= p < end)
      requires SamplePlacement.AllPlaced(start, end, n, random)
      modifies this`samples, this`guarded, this`chunks
      ensures Okay(None) && c in chunks && chunks[c].pages == PlacedPages(start, end, n, random, n)
      ensures Attached(samples, old(samples.Keys), chunks[c].pages, c, start, end)
      ensures chunks == old(chunks)[c := old(chunks)[c].(pages := chunks[c].pages)]
    {
      hide WorldOk, Sorted, KeysDiffer, NotDue, Keys, Attached, AfterSample, SamplePlacement.SampleAddr,
           SamplePlacement.Placed, SamplePlacement.InOrder;
      ghost var keys0, chunks0 := samples.Keys, chunks;
      FirstSample(start, end, n, random, samples, c);
      for i := 0 to n
        invariant Okay(None) && c in chunks && chunks[c].pages == PlacedPages(start, end, n, random, i)
        invariant chunks == chunks0[c := chunks0[c].(pages := chunks[c].pages)]
        invariant AfterSample(start, end, i, n, random) <= end
        invariant Attached(samples, keys0, chunks[c].pages, c, start, AfterSample(start, end, i, n, random))
      {
        var p := SamplePlacement.SampleAddr(start, end, end - start, i, n, random(i));
        if i > 0 {
          assert SamplePlacement.InOrder(start, end, i - 1, n, random(i - 1), random(i - 1 + 1));
        }
        NextSample(start, end, i, n, random);
        ghost var samples0, pages0 := samples, chunks[c].pages;
        NotAttached(samples0, keys0, pages0, c, start, end, AfterSample(start, end, i, n, random), p);
        AttachSample(c, p);
        StillFresh(samples0, samples, keys0, pages0, p, c, start, AfterSample(start, end, i, n, random));
      }
      AttachedWithin(samples, keys0, chunks[c].pages, c, start, AfterSample(start, end, n, n, random), end);
    }

    /** The chunk's fields as monit_chunk sets them.  (Its state is set last; the queue is held
        meanwhile, so that nothing sees the difference.) */
    method EnterChunk(c: ChunkId, mapping: Mapping, addr: nat, size: nat, n: nat, base: nat)
      requires Okay(None) && c !in chunks && n >= 1 && MIN_SAMPLE_CYCLE <= base <= MAX_SAMPLE_CYCLE
      modifies this`chunks, this`logs
      ensures Okay(None) && c in chunks && chunks == old(chunks)[c := chunks[c]]
      ensures chunks[c] == Chunk(addr, size, mapping, UnderMonit, StartSample, base, n, 0, 0, 0, 0, 0, 0, 0, [])
    {
      ghost var w := TheWorld();
      hide WorldOk, Sorted, KeysDiffer, NotDue, Keys;
      chunks := chunks[c := Chunk(addr, size, mapping, UnderMonit, StartSample, base, n, 0, 0, 0, 0, 0, 0, 0, [])];
      logs := logs[c := Log(mapping, [], [], false)];
      ChunkJoins(w, TheWorld(), c);
      NobodyBusy(queue, clock);
    }

    /** attach_page_sample and what monit_chunk does with the sample. */
    method AttachSample(c: ChunkId, p: Page)
      requires Okay(None) && c in chunks && p !in samples && Watched(p, chunks[c].addr, chunks[c].size)
      modifies this`samples, this`guarded, this`chunks
      ensures Okay(None) && samples == old(samples)[p := FreshSample(c).(waitFault := true)]
      ensures chunks == old(chunks)[c := old(chunks)[c].(pages := [p] + old(chunks)[c].pages)]
    {
      ghost var w := TheWorld();
      hide WorldOk, Sorted, KeysDiffer, NotDue, Keys;
      samples := samples[p := FreshSample(c)];
      chunks := chunks[c := chunks[c].(pages := [p] + chunks[c].pages)];
      guarded := guarded + {p};
      samples := samples[p := samples[p].(waitFault := true)];
      SampleJoins(w, TheWorld(), c, p);
      NobodyBusy(queue, clock);
    }
  }

  /** What happens to the monitor from outside. */
  datatype Step =
    | Elapse(until: int)
    | Alarm
    | Fault(page: Page, accesses: int, misses: int)
    | Start(chunk: ChunkId, mapping: Mapping, addr: nat, size: nat, density: nat, random: int -> nat)
    | Stop(chunk: ChunkId, lastMisses: int)
    | Unprotect(from: nat, len: nat)

  /** The block for a chunk, as large as its extent, overlaps none of those in use. */
  predicate Clear(chunks: map<ChunkId, Chunk>, addr: nat, size: nat) {
    forall c | c in chunks :: SamplePlacement.Apart(addr, size, chunks[c].addr, chunks[c].size)
  }

  lemma ClearOfSamples(samples: map<Page, Sample>, chunks: map<ChunkId, Chunk>, addr: nat, size: nat)
    requires Linked(samples, chunks) && Clear(chunks, addr, size)
    ensures forall p :: p in samples ==> !(SamplePlacement.Start(addr) <= p < SamplePlacement.End(addr, size))
  {
    hide Linked;
    forall p | p in samples
      ensures !(SamplePlacement.Start(addr) <= p < SamplePlacement.End(addr, size))
    {
      NoSampleThere(samples, chunks, addr, size, p);
    }
  }

  /** Chunks are given up before others take their place. */
  predicate MayStart(chunks: map<ChunkId, Chunk>, c: ChunkId, addr: nat, size: nat, density: nat) {
    && c !in chunks
    && 1 <= density <= (SamplePlacement.End(addr, size) - SamplePlacement.Start(addr)) / PAGE_SIZE
    && Clear(chunks, addr, size)
  }

  /** Over every sequence of faults, alarms, starts and stops, whatever the counters, the clock
      and the random numbers say, samples, pages, timers and chunks agree. */
  method Run(monitor: Monitor, steps: seq<Step>)
    requires monitor.Okay(None) && monitor.Armed()
    modifies monitor
    ensures monitor.Okay(None) && monitor.Armed()
  {
    for i := 0 to |steps|
      invariant monitor.Okay(None) && monitor.Armed()
    {
      hide WorldOk, Sorted, KeysDiffer, NotDue, Keys;
      match steps[i]
      case Elapse(until) => if until >= monitor.clock { monitor.Advance(until); NobodyBusy(monitor.queue, monitor.clock); }
      case Alarm => monitor.Signal();
      case Fault(p, accesses, misses) => if p in monitor.guarded { monitor.PageFault(p, accesses, misses); }
      case Start(c, mapping, addr, size, density, random) =>
        if MayStart(monitor.chunks, c, addr, size, density) {
          monitor.MonitChunk(c, mapping, addr, size, density, random);
        }
      case Stop(c, misses) => if c in monitor.chunks { var _ := monitor.StopMonit(c, misses); }
      case Unprotect(from, len) => monitor.RemoveSampleRange(from, len);
    }
  }

  // ------------------------------------------------------------------ what a reference is

  /** The references the chunk's round has seen, and the pollutors among them. */
  function Seen(ch: Chunk): (nat, nat) {
    (ch.total + ch.iTotal, ch.pollutors + ch.iPollutors)
  }

  /** The sample waits for its timer, and its chunk is under monitoring. */
  ghost predicate Timed(m: Monitor, p: Page, state: SampleState)
    reads m
  {
    && m.Okay(None) && m.Armed() && p in m.samples && m.samples[p].waitTimer && m.samples[p].state == state
    && m.samples[p].chunk in m.chunks && m.chunks[m.samples[p].chunk].state == UnderMonit
  }

  /** Time passes, and the alarm comes. */
  method Wait(m: Monitor, p: Page, until: int, ghost trigger: int) returns (again: bool)
    requires Timed(m, p, BurstAccessSkip) || Timed(m, p, WaitFirstAccess)
    requires until >= m.clock && Event(OfSample(p), trigger) in m.queue
    modifies m
    ensures m.Okay(None) && m.Armed() && p in m.samples && m.samples[p].chunk == old(m.samples[p].chunk)
    ensures var c := old(m.samples[p].chunk); c in m.chunks && m.chunks[c] == old(m.chunks)[c]
    ensures again <==> p in m.guarded
    ensures trigger <= until + TIMER_RESOLUTION ==> again
    ensures m.samples[p] == var s := old(m.samples[p]);
              if !again then s
              else s.(waitTimer := false, waitFault := true,
                      state := if s.state == BurstAccessSkip then WaitSuccessiveAccess else WaitFirstAccess)
  {
    hide WorldOk, Sorted, KeysDiffer, NotDue, Keys, Kept, DueCount;
    ghost var w, c := m.TheWorld(), m.samples[p].chunk;
    NotRevived(w, c, None);
    m.Advance(until);
    ghost var queue := m.queue;
    m.Signal();
    KeptChunk(w, m.TheWorld(), None, c);
    if trigger <= until + TIMER_RESOLUTION {
      DueGone(queue, until, Event(OfSample(p), trigger));
    }
    Fired(w, m.TheWorld(), p);
    again := p in m.guarded;
  }

  lemma DueGone(queue: seq<Entry>, now: int, e: Entry)
    requires Sorted(queue) && KeysDiffer(queue) && e in queue && Due(e, now)
    ensures DueCount(queue, now) <= |queue| && e.key !in Keys(queue[DueCount(queue, now)..])
  {
    assert forall x :: x in queue[DueCount(queue, now)..] ==> !Due(x, now);
  }

  lemma Fired(a: World, b: World, p: Page)
    requires Kept(a, b, None) && WorldOk(b, None, None) && WorldOk(a, None, None)
    requires p in a.samples && a.samples[p].waitTimer && !Over(a, a.samples[p].chunk)
    ensures p in b.samples && b.samples[p].chunk == a.samples[p].chunk
    ensures p in b.guarded <==> OfSample(p) !in b.keys
    ensures b.samples[p] == if p in b.guarded then AfterTimer(a.samples[p], false) else a.samples[p]
  {
    var c := a.samples[p].chunk;
    assert SampleOk(p, a.samples[p], a.guarded, a.keys) && c in a.chunks;
    NotRevived(a, c, None);
    assert SampleOk(p, b.samples[p], b.guarded, b.keys);
    assert KeptSample(a, b, None, p);
    assert Unfired(a, b, OfChunk(c));
  }

  lemma CountsOne(s: Sample, s': Sample, ch: Chunk, ch': Chunk, burst: bool, victim: bool, accesses: int, misses: int)
    requires Faulted(s, s', ch, ch', burst, victim, accesses, misses)
    requires s.state == WaitSuccessiveAccess && ch.state == UnderMonit && ch.iTotal != ch.nr
    ensures if burst then ch' == ch && s'.state == BurstAccessSkip && s'.waitTimer && (s'.accesses, s'.misses) == (s.accesses, s.misses)
            else Seen(ch') == (Seen(ch).0 + 1, Seen(ch).1 + if victim then 0 else 1)
                 && (ch'.state == UnderMonit ==> s'.state == WaitFirstAccess && s'.waitTimer)
    ensures s'.chunk == s.chunk
  {
    hide Settles, Conclusion;
  }

  /** The fault after a burst: it counts as one reference of the chunk if the accesses have risen by a
      cache region since the first fault, and then as a pollutor if the misses have risen by the whole
      cache; otherwise it counts as none, and the sample skips again. */
  method AfterBurst(m: Monitor, p: Page, until: int, accesses: int, misses: int, ghost trigger: int) returns (again: bool)
    requires Timed(m, p, BurstAccessSkip) && until >= m.clock && Event(OfSample(p), trigger) in m.queue
    modifies m
    ensures m.Okay(None) && m.Armed() && p in m.samples && old(m.samples[p].chunk) in m.chunks
    ensures trigger <= until + TIMER_RESOLUTION ==> again
    ensures var s, s', c := old(m.samples[p]), m.samples[p], old(m.samples[p].chunk);
            var ch, ch' := old(m.chunks)[c], m.chunks[c];
            if again && Delta(accesses, s.accesses) >= m.regionLines
            then Seen(ch') == (Seen(ch).0 + 1, Seen(ch).1 + if Delta(misses, s.misses) >= m.llcLines then 1 else 0)
                 && (ch'.state == UnderMonit ==> Timed(m, p, WaitFirstAccess))
            else ch' == ch && Timed(m, p, BurstAccessSkip) && (s'.accesses, s'.misses) == (s.accesses, s.misses)
  {
    hide WorldOk, Sorted, KeysDiffer, NotDue, Keys, DueCount, Faulted, AfterReference, Delta;
    again := Wait(m, p, until, trigger);
    if again {
      ghost var s, ch := m.samples[p], m.chunks[m.samples[p].chunk];
      RunningChunk(m.TheWorld(), s.chunk, None);
      m.PageFault(p, accesses, misses);
      CountsOne(s, m.samples[p], ch, m.chunks[s.chunk], m.Burst(Delta(accesses, s.accesses)), m.Victim(Delta(misses, s.misses)),
                accesses, misses);
    }
  }

  /** From one fault to the next: first the page is touched for the first time, at readings `a1` and `m1`,
      and, when the burst has been skipped, once more, at `a2` and `m2`. */
  method TwoFaults(m: Monitor, p: Page, a1: int, m1: int, until: int, a2: int, m2: int) returns (again: bool)
    requires m.Okay(None) && m.Armed() && p in m.guarded && p in m.samples && m.samples[p].state == WaitFirstAccess
    requires m.samples[p].chunk in m.chunks && m.chunks[m.samples[p].chunk].state == UnderMonit && until >= m.clock
    modifies m
    ensures m.Okay(None) && m.Armed() && p in m.samples && old(m.samples[p].chunk) in m.chunks
    ensures var c := old(m.samples[p].chunk);
            var ch, ch' := old(m.chunks)[c], m.chunks[c];
            if again && Delta(a2, a1) >= m.regionLines
            then Seen(ch') == (Seen(ch).0 + 1, Seen(ch).1 + if Delta(m2, m1) >= m.llcLines then 1 else 0)
                 && (ch'.state == UnderMonit ==> Timed(m, p, WaitFirstAccess))
            else ch' == ch && Timed(m, p, BurstAccessSkip)
  {
    hide WorldOk, Sorted, KeysDiffer, NotDue, Keys;
    RunningChunk(m.TheWorld(), m.samples[p].chunk, None);
    m.PageFault(p, a1, m1);
    again := AfterBurst(m, p, until, a2, m2, m.clock + m.burst);
  }

  /** The fault after a counted reference is a first access again: it counts nothing. */
  method AfterReferenceFault(m: Monitor, p: Page, until: int, accesses: int, misses: int, ghost trigger: int) returns (again: bool)
    requires Timed(m, p, WaitFirstAccess) && until >= m.clock && Event(OfSample(p), trigger) in m.queue
    modifies m
    ensures m.Okay(None) && m.Armed() && p in m.samples && old(m.samples[p].chunk) in m.chunks
    ensures trigger <= until + TIMER_RESOLUTION ==> again
    ensures m.chunks[old(m.samples[p].chunk)] == old(m.chunks[m.samples[p].chunk])
    ensures if again then Timed(m, p, BurstAccessSkip) && (m.samples[p].accesses, m.samples[p].misses) == (accesses, misses)
            else Timed(m, p, WaitFirstAccess) && m.samples[p] == old(m.samples[p])
  {
    hide WorldOk, Sorted, KeysDiffer, NotDue, Keys, Kept, DueCount;
    again := Wait(m, p, until, trigger);
    if again {
      RunningChunk(m.TheWorld(), m.samples[p].chunk, None);
      m.PageFault(p, accesses, misses);
    }
  }

  ghost predicate FreshIn(samples: map<Page, Sample>, p: Page, c: ChunkId) {
    p in samples && samples[p] == FreshSample(c).(waitFault := true)
  }

  /** The pages of the first `i` samples, the last one in front. */
  ghost function PlacedPages(start: nat, end: nat, n: nat, random: int -> nat, i: nat): seq<Page>
    requires start <= end && 1 <= n <= end - start
  {
    if i == 0 then []
    else [SamplePlacement.SampleAddr(start, end, end - start, i - 1, n, random(i - 1))] + PlacedPages(start, end, n, random, i - 1)
  }

  /** A chunk as monit_chunk leaves it: all counts zero, and its samples where they belong. */
  ghost predicate Monitored(ch: Chunk, mapping: Mapping, addr: nat, size: nat, density: nat, random: int -> nat) {
    var start, end := SamplePlacement.Start(addr), SamplePlacement.End(addr, size);
    && start <= end
    && var n := SamplePlacement.NrSample(end - start, density);
       && 1 <= n <= end - start
       && ch == Chunk(addr, size, mapping, UnderMonit, StartSample, ch.base, n, 0, 0, 0, 0, 0, 0, 0, PlacedPages(start, end, n, random, n))
       && SamplePlacement.IsBaseCycle(end - start, ch.base)
  }

  /** Where the first `i` samples end. */
  ghost function AfterSample(start: nat, end: nat, i: nat, n: nat, random: int -> nat): int
    requires start <= end && 1 <= n <= end - start
  {
    if i == 0 then start
    else SamplePlacement.SampleAddr(start, end, end - start, i - 1, n, random(i - 1)) + PAGE_SIZE
  }

  lemma NextSample(start: nat, end: nat, i: nat, n: nat, random: int -> nat)
    requires start <= end && 1 <= n <= end - start && i < n
    requires SamplePlacement.Placed(start, end, i, n, random(i))
    requires i > 0 ==> SamplePlacement.InOrder(start, end, i - 1, n, random(i - 1), random(i))
    ensures var p := SamplePlacement.SampleAddr(start, end, end - start, i, n, random(i));
            AfterSample(start, end, i, n, random) <= p && start <= p && p + PAGE_SIZE <= end
            && AfterSample(start, end, i + 1, n, random) == p + PAGE_SIZE
  {}

  lemma StillFresh(samples: map<Page, Sample>, samples': map<Page, Sample>, before: set<Page>, pages: seq<Page>,
                   p: Page, c: ChunkId, start: int, bound: int)
    requires Attached(samples, before, pages, c, start, bound) && bound <= p && start <= p && p !in samples
    requires samples' == samples[p := FreshSample(c).(waitFault := true)]
    ensures Attached(samples', before, [p] + pages, c, start, p + PAGE_SIZE)
  {
    assert Elems([p] + pages) == {p} + Elems(pages);
    forall q | q in [p] + pages
      ensures FreshIn(samples', q, c) && start <= q && q + PAGE_SIZE <= p + PAGE_SIZE
    {
      if q != p {
        assert FreshIn(samples, q, c);
      }
    }
  }

  /** Beside those of before there are the samples on `pages`, all new, between `start` and `bound`. */
  ghost predicate Attached(samples: map<Page, Sample>, before: set<Page>, pages: seq<Page>, c: ChunkId, start: int, bound: int) {
    && samples.Keys == before + Elems(pages)
    && forall p :: p in pages ==> FreshIn(samples, p, c) && start <= p && p + PAGE_SIZE <= bound
  }

  lemma FirstSample(start: nat, end: nat, n: nat, random: int -> nat, samples: map<Page, Sample>, c: ChunkId)
    requires start <= end && 1 <= n <= end - start
    ensures AfterSample(start, end, 0, n, random) == start
    ensures Attached(samples, samples.Keys, [], c, start, start)
  {}

  lemma NotAttached(samples: map<Page, Sample>, before: set<Page>, pages: seq<Page>, c: ChunkId, start: int, end: int,
                    bound: int, p: Page)
    requires Attached(samples, before, pages, c, start, bound) && start <= p < end && bound <= p
    requires forall q :: q in before ==> !(start <= q < end)
    ensures p !in samples
  {
    forall q | q in samples.Keys
      ensures q != p
    {
      assert q in before || q in pages;
    }
  }

  lemma AttachedWithin(samples: map<Page, Sample>, before: set<Page>, pages: seq<Page>, c: ChunkId, start: int, bound: int, end: int)
    requires Attached(samples, before, pages, c, start, bound) && bound <= end
    ensures Attached(samples, before, pages, c, start, end)
  {}

  lemma KeptFresh(a: World, b: World, c: ChunkId, before: set<Page>, start: int, end: int)
    requires Kept(a, b, None) && c in a.chunks && OfChunk(c) !in a.keys && WorldOk(a, None, None)
    requires Attached(a.samples, before, a.chunks[c].pages, c, start, end)
    ensures c in b.chunks && b.chunks[c] == a.chunks[c] && b.chunks.Keys == a.chunks.Keys
    ensures Attached(b.samples, before, a.chunks[c].pages, c, start, end)
  {
    assert Unfired(a, b, OfChunk(c));
    forall p | p in a.chunks[c].pages
      ensures FreshIn(b.samples, p, c)
    {
      assert FreshIn(a.samples, p, c);
      RestingSample(a, p);
      assert Unfired(a, b, OfSample(p)) && Unfired(a, b, OfChunk(a.samples[p].chunk));
    }
  }

  // ------------------------------------------------------------------ the pages remove_sample_range looks at

  /** Page `p` is one of the first `k` pages from `start` on. */
  ghost predicate VisitedBy(start: nat, k: nat, p: Page) {
    p % PAGE_SIZE == 0
    && start / PAGE_SIZE <= p / PAGE_SIZE < start / PAGE_SIZE + k
  }

  ghost predicate Visited(start: nat, len: nat, p: Page) {
    VisitedBy(start, len / PAGE_SIZE + 1, p)
  }

  lemma NoneVisited(start: nat)
    ensures forall p :: !VisitedBy(start, 0, p)
  {}

  lemma VisitedNext(start: nat, k: nat, p: Page)
    requires p == SamplePlacement.PageDown(start + k * PAGE_SIZE)
    ensures forall q :: VisitedBy(start, k + 1, q) <==> VisitedBy(start, k, q) || q == p
  {
    assert (start + k * 4096) / 4096 == start / 4096 + k;
    assert p / 4096 == start / 4096 + k && p % 4096 == 0;
    forall q | q % PAGE_SIZE == 0
      ensures q / PAGE_SIZE == p / PAGE_SIZE <==> q == p
    {
      assert q == 4096 * (q / 4096) && p == 4096 * (p / 4096);
    }
  }

  lemma VisitedAll(start: nat, len: nat, k: nat)
    requires k * PAGE_SIZE > len && k * PAGE_SIZE <= len + PAGE_SIZE
    ensures k == len / PAGE_SIZE + 1
  {}

  lemma GoneKeys(a: World, b: World, p: Page)
    requires SampleGone(a, b, p)
    ensures b.samples.Keys == a.samples.Keys - {p} && b.chunks.Keys == a.chunks.Keys
  {}

  lemma AbsentSamples(w: World)
    requires WorldOk(w, None, None)
    ensures forall p :: p !in w.samples ==> p !in w.guarded && OfSample(p) !in w.keys
  {}

  /** The loop looks at one address in steps of a page, so it meets every page of the buffer exactly
      if the offset of `start` in its page and what `len` exceeds whole pages by are a page at most
      together; if they are more, the page of the last byte is not looked at. */
  lemma RangeIsCovered(start: nat, len: nat)
    requires len > 0
    ensures (forall a :: start <= a < start + len ==> Visited(start, len, SamplePlacement.PageDown(a)))
            <==> start % PAGE_SIZE + len % PAGE_SIZE <= PAGE_SIZE
  {
    var s, l := start % 4096, len % 4096;
    var last := start + len - 1;
    forall a | start <= a < start + len
      ensures SamplePlacement.PageDown(a) / 4096 == a / 4096 && start / 4096 <= a / 4096 <= last / 4096
    {}
    assert SamplePlacement.PageDown(last) / 4096 == last / 4096;
    assert last / 4096 == start / 4096 + len / 4096 + (if s + l == 0 then -1 else if s + l <= 4096 then 0 else 1);
  }

  // ------------------------------------------------------------------ samples that have gone

  /** Sample `p` has gone, with its timer and its protection. */
  ghost predicate SampleGone(a: World, b: World, p: Page) {
    && p in a.samples && a.samples[p].chunk in a.chunks
    && b.samples.Keys == a.samples.Keys - {p} && p !in b.guarded && b.keys <= a.keys - {OfSample(p)}
    && b.guarded <= b.samples.Keys
    && b.chunks.Keys == a.chunks.Keys
    && (forall d :: d in a.chunks ==>
          && b.chunks[d].pages == (if d == a.samples[p].chunk then Without(a.chunks[d].pages, p) else a.chunks[d].pages)
          && (OfChunk(d) !in a.keys ==> b.chunks[d] == a.chunks[d].(pages := b.chunks[d].pages)))
  }

  /** The samples `gone` of chunk `c` have gone, and no others. */
  ghost predicate SamplesGone(a: World, b: World, c: ChunkId, gone: set<Page>) {
    && b.samples.Keys == a.samples.Keys - gone && b.chunks.Keys == a.chunks.Keys && b.keys <= a.keys
    && (forall p :: p in gone ==> p !in b.guarded && OfSample(p) !in b.keys)
    && (forall d :: d in a.chunks && d != c ==> b.chunks[d].pages == a.chunks[d].pages)
  }

  lemma NoneGone(w: World, c: ChunkId)
    ensures SamplesGone(w, w, c, {})
  {}

  lemma GoneOne(w: World, w1: World, w2: World, c: ChunkId, gone: set<Page>, p: Page)
    requires SamplesGone(w, w1, c, gone) && SampleGone(w1, w2, p) && w1.samples[p].chunk == c && c in w1.chunks
    requires w1.chunks[c].pages != [] && p == w1.chunks[c].pages[0] && OfChunk(c) !in w1.keys
    ensures SamplesGone(w, w2, c, gone + {p}) && OfChunk(c) !in w2.keys && c in w2.chunks
    ensures w2.chunks[c].pages == w1.chunks[c].pages[1..]
    ensures w2.chunks[c] == w1.chunks[c].(pages := w2.chunks[c].pages)
    ensures Elems(w1.chunks[c].pages) == {p} + Elems(w2.chunks[c].pages)
  {
    var pages := w1.chunks[c].pages;
    assert pages == [p] + pages[1..];
    forall q | q in gone + {p}
      ensures q !in w2.guarded && OfSample(q) !in w2.keys
    {
      if q in gone {
        assert q !in w1.samples.Keys;
      }
    }
  }

  lemma AllGone(a: World, b: World, c: ChunkId)
    requires c in a.chunks && SamplesGone(a, b, c, Elems(a.chunks[c].pages))
    ensures b.samples.Keys == a.samples.Keys - Elems(a.chunks[c].pages) && b.chunks.Keys == a.chunks.Keys && b.keys <= a.keys
    ensures forall p :: p in a.chunks[c].pages ==> p !in b.samples && p !in b.guarded && OfSample(p) !in b.keys
  {
    forall p | p in a.chunks[c].pages
      ensures p !in b.samples && p !in b.guarded && OfSample(p) !in b.keys
    {
      assert p in Elems(a.chunks[c].pages);
      assert p !in b.samples.Keys;
    }
  }

  lemma GoneFacts(w: World, w1: World, w2: World, w3: World, p: Page, busy: Option<Page>)
    requires p in w.samples && w.samples[p].chunk in w.chunks && WorldOk(w3, None, None)
    requires w1 == w.(keys := w1.keys) && w1.keys == w.keys - {OfSample(p)} && Kept(w1, w2, busy)
    requires p in w2.samples && w2.samples[p].chunk in w2.chunks
    requires w3.samples == w2.samples - {p} && w3.guarded == w2.guarded - {p} && w3.keys == w2.keys
    requires var c := w2.samples[p].chunk; w3.chunks == w2.chunks[c := w2.chunks[c].(pages := Without(w2.chunks[c].pages, p))]
    ensures SampleGone(w, w3, p)
  {
    hide Without;
    assert w2.samples[p].chunk == w.samples[p].chunk;
    assert w3.guarded <= w3.samples.Keys;
    forall d | d in w.chunks && OfChunk(d) !in w.keys
      ensures w2.chunks[d] == w1.chunks[d]
    {
      assert Unfired(w1, w2, OfChunk(d));
    }
  }

  // ------------------------------------------------------------------ the samples of a revived chunk

  ghost predicate Revived(a: map<Page, Sample>, b: map<Page, Sample>, c: ChunkId, done: set<Page>) {
    b.Keys == a.Keys && forall q :: q in a ==> b[q] == AfterRevival(a[q], c, q in done)
  }

  lemma NoneRevived(a: map<Page, Sample>, c: ChunkId)
    ensures Revived(a, a, c, {})
  {}

  lemma OneRevived(a: map<Page, Sample>, b: map<Page, Sample>, b': map<Page, Sample>, c: ChunkId, done: set<Page>, p: Page)
    requires Revived(a, b, c, done) && p in b && b' == b[p := AfterRevival(b[p], c, true)]
    ensures Revived(a, b', c, done + {p})
  {}

  lemma AllRevived(a: map<Page, Sample>, b: map<Page, Sample>, c: ChunkId, done: set<Page>, pages: seq<Page>, busy: Option<Page>)
    requires Revived(a, b, c, done) && forall q :: q in done <==> q in pages[..|pages|]
    requires busy.Some? && busy.value in a ==> a[busy.value].state != Uninit
    ensures b.Keys == a.Keys
    ensures forall q :: q in a ==> b[q] == AfterRevival(a[q], c, q in pages)
    ensures busy.Some? && busy.value in a ==> b[busy.value] == a[busy.value]
  {
    assert pages[..|pages|] == pages;
  }

  // ------------------------------------------------------------------ facts the methods use

  lemma InsertLength(queue: seq<Entry>, e: Entry)
    ensures |Insert(queue, e)| == |queue| + 1
  {}

  lemma StillQueued(all: seq<Entry>, n: nat, e: Entry)
    requires n <= |all| && e in all[n..]
    ensures e.key in Keys(all[n..]) && e in all[n..]
  {}

  lemma KeptKeys(a: World, b: World, busy: Option<Page>)
    requires Kept(a, b, busy)
    ensures b.keys <= a.keys
    ensures busy.Some? && busy.value in a.samples ==> busy.value in b.samples && b.samples[busy.value] == a.samples[busy.value]
    ensures forall c :: c in a.chunks && OfChunk(c) in b.keys ==> c in b.chunks && b.chunks[c] == a.chunks[c]
  {
    forall c | c in a.chunks && OfChunk(c) in b.keys
      ensures b.chunks[c] == a.chunks[c]
    {
      assert Unfired(a, b, OfChunk(c));
    }
    if busy.Some? && busy.value in a.samples {
      var p := busy.value;
      assert busy == Some(p) && p in a.samples;
      assert b.samples[p] == a.samples[p];
    }
  }

  /** A sample whose timer is queued waits for it. */
  lemma TimedSample(w: World, p: Page, busy: Option<Page>)
    requires WorldOk(w, busy, None) && OfSample(p) in w.keys && busy != Some(p)
    ensures p in w.samples && w.samples[p].waitTimer && !w.samples[p].waitFault && p !in w.guarded
    ensures w.samples[p].state == BurstAccessSkip || w.samples[p].state == WaitFirstAccess
    ensures w.samples[p].chunk in w.chunks
    ensures var ch := w.chunks[w.samples[p].chunk]; ch.state == MonitFinish || ch.iTotal != ch.nr
  {
    assert p in w.samples;
    assert SampleOk(p, w.samples[p], w.guarded, w.keys);
    var c := w.samples[p].chunk;
    assert ChunkOk(w.chunks[c], w.logs[c], OfChunk(c) in w.keys, false);
  }

  lemma FullChunk(w: World, c: ChunkId, busy: Option<Page>)
    requires WorldOk(w, busy, Some(c)) && c in w.chunks && w.chunks[c].state == UnderMonit
    ensures c in w.logs && !w.logs[c].stopping && CountsOk(w.chunks[c], w.logs[c], true)
    ensures RoundsOk(w.chunks[c], w.logs[c], false) && OfChunk(c) !in w.keys
  {
    assert ChunkOk(w.chunks[c], w.logs[c], OfChunk(c) in w.keys, true);
  }

  /** What was gone before the queue was resumed is gone afterwards. */
  lemma StillGone(a: World, b: World, c: ChunkId, pages: seq<Page>)
    requires Kept(a, b, None) && WorldOk(b, None, None) && OfChunk(c) !in a.keys
    requires forall p :: p in pages ==> p !in a.samples
    ensures b.samples.Keys == a.samples.Keys && b.chunks.Keys == a.chunks.Keys && OfChunk(c) !in b.keys
    ensures forall p :: p in pages ==> p !in b.samples && p !in b.guarded && OfSample(p) !in b.keys
  {}

  lemma GivenUp(w: World, w': World, c: ChunkId)
    requires WorldOk(w, None, None) && c in w.chunks && c in w'.chunks && c in w.logs && OfChunk(c) !in w.keys
    requires w'.chunks == w.chunks[c := w'.chunks[c]] && SameSite(w.chunks[c], w'.chunks[c])
    requires w'.chunks[c].state == MonitFinish && w'.logs == w.logs[c := w.logs[c].(stopping := true)]
    requires w'.samples == w.samples && w'.guarded == w.guarded && w'.keys == w.keys
    ensures WorldOk(w', None, None)
  {
    hide WorldOk;
    ChunkStep(w, w', c, None, None, None);
  }

  /** A chunk that is to be revived has finished its round, and was told to restrict. */
  lemma RevivedChunk(w: World, c: ChunkId, busy: Option<Page>)
    requires WorldOk(w, busy, None) && OfChunk(c) in w.keys
    ensures c in w.chunks && c in w.logs && ChunkOk(w.chunks[c], w.logs[c], true, false)
    ensures w.chunks[c].state == MonitFinish && NoDup(w.chunks[c].pages)
    ensures Linked(w.samples, w.chunks)
  {
    assert c in w.chunks;
    assert ChunkOk(w.chunks[c], w.logs[c], OfChunk(c) in w.keys, false);
  }

  /** A sample of a chunk that is not in use may be used again. */
  lemma MemberSample(w: World, c: ChunkId, p: Page, busy: Option<Page>)
    requires WorldOk(w, busy, None) && c in w.chunks && p in w.chunks[c].pages
    ensures p in w.samples && w.samples[p].chunk == c
    ensures w.samples[p].state == Uninit ==> busy != Some(p) && p !in w.guarded && OfSample(p) !in w.keys
  {
    if busy != Some(p) {
      assert SampleOk(p, w.samples[p], w.guarded, w.keys);
    }
  }

  lemma BusyState(w: World, busy: Option<Page>)
    requires WorldOk(w, busy, None) && busy.Some?
    ensures busy.value in w.samples && w.samples[busy.value].state != Uninit
  {}

  lemma RevivedKept(w: World, w': World, c: ChunkId, busy: Option<Page>)
    requires w'.samples.Keys == w.samples.Keys && OfChunk(c) in w.keys && w'.keys == w.keys - {OfChunk(c)}
    requires c in w.chunks && w'.chunks == w.chunks[c := NewRound(w.chunks[c])]
    requires forall q :: q in w.samples ==> w'.samples[q] == AfterRevival(w.samples[q], c, q in w.chunks[c].pages)
    requires busy.Some? && busy.value in w.samples ==> w'.samples[busy.value] == w.samples[busy.value]
    requires Linked(w.samples, w.chunks)
    ensures Kept(w, w', busy)
  {
    hide NoDup, NewRound;
    assert !Unfired(w, w', OfChunk(c));
    forall q | q in w.samples
      ensures w'.samples[q].chunk == w.samples[q].chunk && KeptSample(w, w', busy, q)
    {
      assert Unfired(w, w', OfSample(q));
      assert q in w.chunks[c].pages <==> w.samples[q].chunk == c;
    }
  }

  lemma HandledKept(w: World, w': World, p: Page, busy: Option<Page>)
    requires p in w.samples && busy != Some(p) && OfSample(p) in w.keys && w'.keys == w.keys - {OfSample(p)}
    requires w'.chunks == w.chunks && w'.samples == w.samples[p := AfterTimer(w.samples[p], Over(w, w.samples[p].chunk))]
    ensures Kept(w, w', busy)
  {
    assert !Unfired(w, w', OfSample(p));
  }

  /** A guarded page belongs to a sample that waits for a fault. */
  lemma GuardedSample(w: World, p: Page)
    requires WorldOk(w, None, None) && p in w.guarded
    ensures p in w.samples && w.samples[p].waitFault && !w.samples[p].waitTimer && OfSample(p) !in w.keys
    ensures w.samples[p].state == WaitFirstAccess || w.samples[p].state == WaitSuccessiveAccess
    ensures w.samples[p].chunk in w.chunks
    ensures var ch := w.chunks[w.samples[p].chunk]; ch.state == MonitFinish || ch.iTotal != ch.nr
  {
    assert SampleOk(p, w.samples[p], w.guarded, w.keys);
    var c := w.samples[p].chunk;
    assert ChunkOk(w.chunks[c], w.logs[c], OfChunk(c) in w.keys, false);
  }

  lemma BusyUnguarded(w: World, p: Page)
    requires exists full :: WorldOk(w, Some(p), full)
    ensures p in w.samples && p !in w.guarded && !w.samples[p].waitFault && w.samples[p].state != Uninit
    ensures w.samples[p].chunk in w.chunks
  {}

  lemma RunningChunk(w: World, c: ChunkId, busy: Option<Page>)
    requires WorldOk(w, busy, None) && c in w.chunks && w.chunks[c].state == UnderMonit
    ensures c in w.logs && !w.logs[c].stopping && CountsOk(w.chunks[c], w.logs[c], false)
    ensures RoundsOk(w.chunks[c], w.logs[c], OfChunk(c) in w.keys)
    ensures w.chunks[c].iTotal != w.chunks[c].nr
  {
    assert ChunkOk(w.chunks[c], w.logs[c], OfChunk(c) in w.keys, false);
  }

  lemma NotRevived(w: World, c: ChunkId, busy: Option<Page>)
    requires WorldOk(w, busy, None) && c in w.chunks && w.chunks[c].state == UnderMonit
    ensures OfChunk(c) !in w.keys
  {
    assert ChunkOk(w.chunks[c], w.logs[c], OfChunk(c) in w.keys, false);
  }

  lemma KeptChunk(a: World, b: World, busy: Option<Page>, c: ChunkId)
    requires Kept(a, b, busy) && c in a.chunks && OfChunk(c) !in a.keys
    ensures c in b.chunks && b.chunks[c] == a.chunks[c]
  {
    assert Unfired(a, b, OfChunk(c));
  }

  lemma NobodyBusy(queue: seq<Entry>, clock: int)
    ensures NotDue(queue, clock, None)
  {}

  lemma RestingSample(w: World, p: Page)
    requires WorldOk(w, None, None) && p in w.samples
    ensures SampleOk(p, w.samples[p], w.guarded, w.keys) && w.samples[p].chunk in w.chunks
    ensures w.samples[p].state == Uninit ==> w.chunks[w.samples[p].chunk].state == MonitFinish
  {}

  lemma SampleOf(w: World, p: Page, busy: Option<Page>)
    requires WorldOk(w, busy, None) && p in w.samples
    ensures w.samples[p].chunk in w.chunks
  {}

  lemma TimerGone(queue: seq<Entry>, clock: int, p: Page)
    requires Sorted(queue) && KeysDiffer(queue) && OfSample(p) in Keys(queue)
    ensures NotDue(Remove(queue, OfSample(p)), clock, Some(p))
  {
    KeysRemove(queue, OfSample(p));
    NotDueAbsent(Remove(queue, OfSample(p)), clock, p);
  }

  lemma InLogs(w: World, c: ChunkId)
    requires WorldOk(w, None, None) && c in w.chunks
    ensures c in w.logs
  {}

  lemma RevivedPages(w: World, c: ChunkId)
    requires WorldOk(w, None, None) && c in w.chunks
    ensures NoDup(w.chunks[c].pages)
  {}

  lemma SameWorld(a: World, b: World)
    requires b == a.(keys := b.keys) && b.keys == a.keys
    ensures a == b
  {}

  lemma StoppedChunk(a: World, b: World, c: ChunkId)
    requires Kept(a, b, None) && c in a.chunks && OfChunk(c) !in a.keys
    ensures c in b.chunks && b.chunks[c] == a.chunks[c] && OfChunk(c) !in b.keys
    ensures b.samples.Keys == a.samples.Keys && b.chunks.Keys == a.chunks.Keys
  {
    assert Unfired(a, b, OfChunk(c));
  }
}
