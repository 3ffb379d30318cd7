/**
  The samples and chunks of the chunk monitor (chunk_monitor.c, chunk_predictor.c), and what
  every handler and call keeps true of them.
  */
module MonitorState {
  import opened Config
  import opened Options
  import opened Seqs
  import opened SampleRounds
  import SamplePlacement

  type Page = int       // address of a page
  type ChunkId = int    // address of a memory_chunk

  /** The private pointer of a time event. */
  datatype Key = OfSample(page: Page) | OfChunk(chunk: ChunkId)

  datatype SampleState = Uninit | WaitFirstAccess | WaitSuccessiveAccess | BurstAccessSkip

  datatype Sample = Sample(chunk: ChunkId, state: SampleState, waitTimer: bool, waitFault: bool,
                           accesses: int, misses: int, victims: nat, pollutors: nat, total: nat)

  datatype ChunkState = UnderMonit | MonitFinish
  datatype Round = StartSample | FirstRound | SecondRound | LastRound
  datatype Mapping = Restrict | OpenMapping

  datatype Chunk = Chunk(addr: nat, size: nat, mapping: Mapping, state: ChunkState, round: Round, base: nat, nr: nat,
                         victims: nat, pollutors: nat, total: nat,
                         iVictims: nat, iPollutors: nat, iTotal: nat, cycle: nat, pages: seq<Page>)

  /** What has happened to a chunk: the mapping it came with, the pollutors in each cycle of the
      current round, what the finished rounds concluded, and whether it is being given up. */
  datatype Log = Log(initial: Mapping, cycles: seq<nat>, concluded: seq<Mapping>, stopping: bool)

  const POLLUTOR_THRESHOLD: real := 0.9

  /** update_context_mapping_type, as far as the chunk is concerned. */
  function Conclusion(pollutors: nat, total: nat): Mapping {
    if Rate(pollutors, total) >= POLLUTOR_THRESHOLD then Restrict else OpenMapping
  }

  /** In whole numbers: restrict exactly if there were references, nine in ten of them pollutors at least. */
  lemma ConclusionIff(pollutors: nat, total: nat)
    ensures Conclusion(pollutors, total) == Restrict <==> total > 0 && 10 * pollutors >= 9 * total
  {
    if total > 0 {
      var f, product := total as real, pollutors as real;
      assert Rate(pollutors, total) == product / f;
      NineTenths(product / f, f, product);
      hide Rate;
      assert 10.0 * product >= 9.0 * f <==> 10 * pollutors >= 9 * total;
    }
  }

  lemma NineTenths(rate: real, f: real, product: real)
    requires f > 0.0 && rate * f == product
    ensures rate >= 0.9 <==> 10.0 * product >= 9.0 * f
  {
    if rate >= 0.9 {
      assert (rate - 0.9) * f >= 0.0;
      assert (rate - 0.9) * f == rate * f - 0.9 * f;
    } else {
      assert (0.9 - rate) * f > 0.0;
      assert (0.9 - rate) * f == 0.9 * f - rate * f;
    }
  }

  // ------------------------------------------------------------------ samples

  /** A sample at rest: its page is protected exactly while it waits for a fault, its timer is
      queued exactly while it waits for that, it never waits for both, and it waits for neither
      exactly if it is not in use. */
  ghost predicate SampleOk(p: Page, s: Sample, guarded: set<Page>, keys: set<Key>) {
    && (s.waitFault <==> p in guarded)
    && (s.waitTimer <==> OfSample(p) in keys)
    && !(s.waitFault && s.waitTimer)
    && (s.state == Uninit <==> !s.waitFault && !s.waitTimer)
    && (s.waitFault ==> s.state == WaitFirstAccess || s.state == WaitSuccessiveAccess)
    && (s.waitTimer ==> s.state == WaitFirstAccess || s.state == BurstAccessSkip)
  }

  /** A sample some handler is working on. */
  ghost predicate BusyOk(p: Page, s: Sample, guarded: set<Page>) {
    p !in guarded && !s.waitFault && s.state != Uninit
  }

  // ------------------------------------------------------------------ chunks

  ghost predicate CountsOk(ch: Chunk, log: Log, full: bool) {
    && ch.nr >= 1 && MIN_SAMPLE_CYCLE <= ch.base <= MAX_SAMPLE_CYCLE
    && ch.victims + ch.pollutors == ch.total == ch.cycle * ch.nr
    && ch.iVictims + ch.iPollutors == ch.iTotal
    && (if full then ch.iTotal == ch.nr && ch.state == UnderMonit else ch.iTotal < ch.nr)
    && ch.cycle == |log.cycles| && ch.pollutors == PollutorsIn(log.cycles, |log.cycles|)
    && (ch.state == UnderMonit ==> Unsettled(log.cycles, ch.nr, ch.base, |log.cycles|))
    && (ch.state == MonitFinish ==>
          && log.cycles != []
          && Unsettled(log.cycles, ch.nr, ch.base, |log.cycles| - 1)
          && ch.cycle >= ch.base
          && ConvergesAt(log.cycles, ch.nr, |log.cycles| - 1)
          && log.concluded != []
          && log.concluded[|log.concluded| - 1] == Conclusion(ch.pollutors, ch.total))
  }

  /** The mapping a chunk has after the rounds `concluded`: the first round changes nothing. */
  function MappingAfter(initial: Mapping, concluded: seq<Mapping>): Mapping {
    if |concluded| < 2 then initial else concluded[|concluded| - 1]
  }

  ghost predicate RoundsOk(ch: Chunk, log: Log, revive: bool) {
    && ch.round == (if log.concluded == [] then StartSample else if |log.concluded| == 1 then FirstRound else SecondRound)
    && ch.mapping == MappingAfter(log.initial, log.concluded)
    && (forall i :: 0 <= i < |log.concluded| - (if ch.state == MonitFinish then 1 else 0) ==> log.concluded[i] == Restrict)
    && (revive <==> ch.state == MonitFinish && log.concluded != [] && log.concluded[|log.concluded| - 1] == Restrict)
  }

  ghost predicate ChunkOk(ch: Chunk, log: Log, revive: bool, full: bool) {
    if log.stopping then ch.state == MonitFinish && !revive && !full
    else CountsOk(ch, log, full) && RoundsOk(ch, log, revive)
  }

  // ------------------------------------------------------------------ all of it

  /** `keys` are those with a queued time event. */
  datatype World = World(samples: map<Page, Sample>, guarded: set<Page>, chunks: map<ChunkId, Chunk>,
                               logs: map<ChunkId, Log>, keys: set<Key>)

  /** The page lies in the part of the chunk that is watched. */
  predicate Watched(p: Page, addr: nat, size: nat) {
    SamplePlacement.Start(addr) <= p && p + PAGE_SIZE <= SamplePlacement.End(addr, size)
  }

  /** The chunk's samples and its place in memory are the same. */
  predicate SameSite(a: Chunk, b: Chunk) {
    a.addr == b.addr && a.size == b.size && a.pages == b.pages
  }

  /** Samples and chunks know each other, and samples lie where their chunks are watched. */
  ghost predicate Linked(samples: map<Page, Sample>, chunks: map<ChunkId, Chunk>) {
    && (forall p :: p in samples ==> samples[p].chunk in chunks && p in chunks[samples[p].chunk].pages)
    && (forall c, p :: c in chunks && p in chunks[c].pages ==> p in samples && samples[p].chunk == c)
    && (forall c :: c in chunks ==> NoDup(chunks[c].pages))
    && (forall p :: p in samples ==> Watched(p, chunks[samples[p].chunk].addr, chunks[samples[p].chunk].size))
  }

  /** Nothing waits for what is not there. */
  ghost predicate Known(w: World) {
    && w.guarded <= w.samples.Keys
    && (forall p :: OfSample(p) in w.keys ==> p in w.samples)
    && (forall c :: OfChunk(c) in w.keys ==> c in w.chunks)
    && w.logs.Keys == w.chunks.Keys
  }

  ghost predicate SamplesOk(w: World, busy: Option<Page>) {
    && (forall p :: p in w.samples && Some(p) != busy ==> SampleOk(p, w.samples[p], w.guarded, w.keys))
    && (busy.Some? ==> busy.value in w.samples && BusyOk(busy.value, w.samples[busy.value], w.guarded))
  }

  ghost predicate ChunksOk(w: World, full: Option<ChunkId>)
    requires Known(w)
  {
    forall c :: c in w.chunks ==> ChunkOk(w.chunks[c], w.logs[c], OfChunk(c) in w.keys, Some(c) == full)
  }

  /** As long as its chunk is under monitoring a sample is in use. */
  ghost predicate InUse(samples: map<Page, Sample>, chunks: map<ChunkId, Chunk>) {
    forall p :: p in samples && samples[p].state == Uninit && samples[p].chunk in chunks ==>
      chunks[samples[p].chunk].state == MonitFinish
  }

  /** `busy` is the sample a handler works on, `full` the chunk whose cycle has just become
      complete. */
  ghost predicate WorldOk(w: World, busy: Option<Page>, full: Option<ChunkId>) {
    Linked(w.samples, w.chunks) && Known(w) && SamplesOk(w, busy) && ChunksOk(w, full) && InUse(w.samples, w.chunks)
  }

  /** No sample lies in the watched part of a chunk whose extent is apart from all live ones. */
  lemma NoSampleThere(samples: map<Page, Sample>, chunks: map<ChunkId, Chunk>, addr: nat, size: nat, p: Page)
    requires Linked(samples, chunks)
    requires forall c :: c in chunks ==> SamplePlacement.Apart(addr, size, chunks[c].addr, chunks[c].size)
    requires p in samples
    ensures !(SamplePlacement.Start(addr) <= p < SamplePlacement.End(addr, size))
  {
    var ch := chunks[samples[p].chunk];
    assert Watched(p, ch.addr, ch.size);
    SamplePlacement.ApartWatched(addr, size, ch.addr, ch.size);
  }

  // ------------------------------------------------------------------ steps

  /** One sample changes, with its page's protection and its timer. */
  lemma SampleStep(w: World, w': World, p: Page, busy: Option<Page>, busy': Option<Page>, full: Option<ChunkId>)
    requires WorldOk(w, busy, full) && p in w.samples && p in w'.samples
    requires w'.samples == w.samples[p := w'.samples[p]] && w'.samples[p].chunk == w.samples[p].chunk
    requires w'.chunks == w.chunks && w'.logs == w.logs
    requires forall q :: q != p ==> (q in w'.guarded <==> q in w.guarded)
    requires forall k :: k != OfSample(p) ==> (k in w'.keys <==> k in w.keys)
    requires busy' == busy || busy == Some(p) || (busy == None && busy' == Some(p))
    requires busy == Some(p) ==> busy' == None || busy' == Some(p)
    requires if busy' == Some(p) then BusyOk(p, w'.samples[p], w'.guarded)
             else SampleOk(p, w'.samples[p], w'.guarded, w'.keys)
    requires w'.samples[p].state == Uninit && w.samples[p].chunk in w.chunks ==>
               w.chunks[w.samples[p].chunk].state == MonitFinish
    ensures WorldOk(w', busy', full)
  {
    LinkedStep(w.samples, w'.samples, w.chunks, p);
    KnownStep(w, w', p);
    InUseStep(w.samples, w'.samples, w.chunks, p);
    hide Linked, ChunkOk, InUse;
    assert ChunksOk(w', full) by {
      ChunksFrame(w, w', full);
    }
    hide ChunksOk, Known;
    forall q | q in w'.samples && Some(q) != busy'
      ensures SampleOk(q, w'.samples[q], w'.guarded, w'.keys)
    {
      if q != p {
        assert SampleOk(q, w.samples[q], w.guarded, w.keys);
      }
    }
    if busy' != Some(p) && busy'.Some? {
      assert BusyOk(busy'.value, w.samples[busy'.value], w.guarded);
    }
  }

  lemma InUseStep(samples: map<Page, Sample>, samples': map<Page, Sample>, chunks: map<ChunkId, Chunk>, p: Page)
    requires InUse(samples, chunks) && p in samples && p in samples' && samples' == samples[p := samples'[p]]
    requires samples'[p].state == Uninit && samples'[p].chunk in chunks ==> chunks[samples'[p].chunk].state == MonitFinish
    ensures InUse(samples', chunks)
  {}

  lemma LinkedChunk(samples: map<Page, Sample>, chunks: map<ChunkId, Chunk>, chunks': map<ChunkId, Chunk>, c: ChunkId)
    requires Linked(samples, chunks) && c in chunks && c in chunks'
    requires chunks' == chunks[c := chunks'[c]] && SameSite(chunks[c], chunks'[c])
    ensures Linked(samples, chunks')
  {
    hide NoDup;
  }

  lemma KnownChunk(w: World, w': World, c: ChunkId)
    requires Known(w) && c in w.chunks && w'.samples == w.samples && w'.guarded == w.guarded
    requires w'.chunks.Keys == w.chunks.Keys && w'.logs.Keys == w.logs.Keys
    requires forall k :: k != OfChunk(c) ==> (k in w'.keys <==> k in w.keys)
    ensures Known(w')
  {
    forall d | OfChunk(d) in w'.keys
      ensures d in w'.chunks
    {
      assert d != c ==> OfChunk(d) in w.keys;
    }
  }

  lemma LinkedStep(samples: map<Page, Sample>, samples': map<Page, Sample>, chunks: map<ChunkId, Chunk>, p: Page)
    requires Linked(samples, chunks) && p in samples && p in samples'
    requires samples' == samples[p := samples'[p]] && samples'[p].chunk == samples[p].chunk
    ensures Linked(samples', chunks)
  {
    hide NoDup;
  }

  lemma KnownStep(w: World, w': World, p: Page)
    requires Known(w) && p in w.samples && w'.samples.Keys == w.samples.Keys
    requires w'.chunks == w.chunks && w'.logs == w.logs
    requires forall q :: q != p ==> (q in w'.guarded <==> q in w.guarded)
    requires forall k :: k != OfSample(p) ==> (k in w'.keys <==> k in w.keys)
    ensures Known(w')
  {
    forall q | OfSample(q) in w'.keys
      ensures q in w'.samples
    {
      assert q != p ==> OfSample(q) in w.keys;
    }
    assert forall q :: q in w'.guarded ==> q in w.guarded || q == p;
  }

  lemma ChunksFrame(w: World, w': World, full: Option<ChunkId>)
    requires Known(w) && Known(w') && ChunksOk(w, full)
    requires w'.chunks == w.chunks && w'.logs == w.logs
    requires forall c :: OfChunk(c) in w'.keys <==> OfChunk(c) in w.keys
    ensures ChunksOk(w', full)
  {
    hide ChunkOk;
    forall c | c in w'.chunks
      ensures ChunkOk(w'.chunks[c], w'.logs[c], OfChunk(c) in w'.keys, Some(c) == full)
    {
      assert ChunkOk(w.chunks[c], w.logs[c], OfChunk(c) in w.keys, Some(c) == full);
    }
  }

  lemma SamplesFrame(w: World, w': World, busy: Option<Page>)
    requires SamplesOk(w, busy)
    requires w'.samples == w.samples && w'.guarded == w.guarded
    requires forall p :: OfSample(p) in w'.keys <==> OfSample(p) in w.keys
    ensures SamplesOk(w', busy)
  {
    forall q | q in w'.samples && Some(q) != busy
      ensures SampleOk(q, w'.samples[q], w'.guarded, w'.keys)
    {
      assert SampleOk(q, w.samples[q], w.guarded, w.keys);
    }
  }

  ghost predicate NoneIdle(samples: map<Page, Sample>, pages: seq<Page>) {
    forall p :: p in pages && p in samples ==> samples[p].state != Uninit
  }

  lemma StillInUse(samples: map<Page, Sample>, chunks: map<ChunkId, Chunk>, chunks': map<ChunkId, Chunk>, c: ChunkId)
    requires Linked(samples, chunks) && InUse(samples, chunks) && c in chunks && c in chunks'
    requires chunks' == chunks[c := chunks'[c]]
    requires chunks'[c].state == MonitFinish || chunks'[c].state == chunks[c].state || NoneIdle(samples, chunks[c].pages)
    ensures InUse(samples, chunks')
  {}

  /** One chunk changes, with its revival's timer. */
  lemma ChunkStep(w: World, w': World, c: ChunkId, busy: Option<Page>, full: Option<ChunkId>, full': Option<ChunkId>)
    requires WorldOk(w, busy, full) && c in w.chunks && c in w'.chunks && c in w'.logs
    requires w'.chunks == w.chunks[c := w'.chunks[c]] && SameSite(w.chunks[c], w'.chunks[c])
    requires w'.logs == w.logs[c := w'.logs[c]]
    requires w'.samples == w.samples && w'.guarded == w.guarded
    requires forall k :: k != OfChunk(c) ==> (k in w'.keys <==> k in w.keys)
    requires full' == full || full == Some(c) || (full == None && full' == Some(c))
    requires full == Some(c) ==> full' == None || full' == Some(c)
    requires ChunkOk(w'.chunks[c], w'.logs[c], OfChunk(c) in w'.keys, Some(c) == full')
    requires w'.chunks[c].state == MonitFinish || w'.chunks[c].state == w.chunks[c].state || NoneIdle(w.samples, w.chunks[c].pages)
    ensures WorldOk(w', busy, full')
  {
    StillInUse(w.samples, w.chunks, w'.chunks, c);
    LinkedChunk(w.samples, w.chunks, w'.chunks, c);
    KnownChunk(w, w', c);
    SamplesFrame(w, w', busy);
    hide Linked, ChunkOk, Known, SamplesOk;
    forall d | d in w'.chunks
      ensures ChunkOk(w'.chunks[d], w'.logs[d], OfChunk(d) in w'.keys, Some(d) == full')
    {
      if d != c {
        assert ChunkOk(w.chunks[d], w.logs[d], OfChunk(d) in w.keys, Some(d) == full);
      }
    }
  }

  /** A sample without a timer leaves, and its page is released. */
  lemma SampleLeaves(w: World, w': World, p: Page, busy: Option<Page>)
    requires WorldOk(w, busy, None) && (busy == None || busy == Some(p))
    requires p in w.samples && OfSample(p) !in w.keys
    requires w'.samples == w.samples - {p} && w'.guarded == w.guarded - {p} && w'.keys == w.keys && w'.logs == w.logs
    requires var c := w.samples[p].chunk;
             c in w.chunks && w'.chunks == w.chunks[c := w.chunks[c].(pages := Without(w.chunks[c].pages, p))]
    ensures WorldOk(w', None, None)
  {
    hide Linked, Without, InUse, ChunkOk;
    LinkedLess(w.samples, w'.samples, w.chunks, w'.chunks, p);
    InUseLess(w.samples, w'.samples, w.chunks, w'.chunks, p);
    assert Known(w');
    forall d | d in w'.chunks
      ensures ChunkOk(w'.chunks[d], w'.logs[d], OfChunk(d) in w'.keys, false)
    {
      assert ChunkOk(w.chunks[d], w.logs[d], OfChunk(d) in w.keys, false);
      OtherPages(w.chunks[d], w'.chunks[d], w.logs[d], OfChunk(d) in w.keys);
    }
    forall q | q in w'.samples
      ensures SampleOk(q, w'.samples[q], w'.guarded, w'.keys)
    {
      assert SampleOk(q, w.samples[q], w.guarded, w.keys);
    }
  }

  lemma OtherPages(ch: Chunk, ch': Chunk, log: Log, revive: bool)
    requires ChunkOk(ch, log, revive, false) && ch' == ch.(pages := ch'.pages)
    ensures ChunkOk(ch', log, revive, false)
  {}

  lemma InUseLess(samples: map<Page, Sample>, samples': map<Page, Sample>, chunks: map<ChunkId, Chunk>,
                  chunks': map<ChunkId, Chunk>, p: Page)
    requires InUse(samples, chunks) && p in samples && samples' == samples - {p}
    requires forall c :: c in chunks' ==> c in chunks && chunks'[c].state == chunks[c].state
    ensures InUse(samples', chunks')
  {}

  lemma LinkedLess(samples: map<Page, Sample>, samples': map<Page, Sample>, chunks: map<ChunkId, Chunk>,
                   chunks': map<ChunkId, Chunk>, p: Page)
    requires Linked(samples, chunks) && p in samples && samples' == samples - {p}
    requires var c := samples[p].chunk;
             c in chunks && chunks' == chunks[c := chunks[c].(pages := Without(chunks[c].pages, p))]
    ensures Linked(samples', chunks')
  {
    hide Without, NoDup, Watched;
    WithoutElems(chunks[samples[p].chunk].pages, p);
  }

  /** A new chunk is entered, as yet without samples. */
  lemma ChunkJoins(w: World, w': World, c: ChunkId)
    requires WorldOk(w, None, None) && c !in w.chunks && c in w'.chunks && c in w'.logs
    requires w'.chunks == w.chunks[c := w'.chunks[c]] && w'.logs == w.logs[c := w'.logs[c]]
    requires w'.samples == w.samples && w'.guarded == w.guarded && w'.keys == w.keys
    requires w'.chunks[c].pages == [] && ChunkOk(w'.chunks[c], w'.logs[c], false, false)
    ensures WorldOk(w', None, None)
  {
    assert Linked(w'.samples, w'.chunks);
    hide Linked, ChunkOk;
    SamplesFrame(w, w', None);
    hide SamplesOk;
    forall d | d in w'.chunks
      ensures ChunkOk(w'.chunks[d], w'.logs[d], OfChunk(d) in w'.keys, false)
    {
      if d != c {
        assert ChunkOk(w.chunks[d], w.logs[d], OfChunk(d) in w.keys, false);
      }
    }
  }

  /** A new sample is entered; its page is guarded. */
  lemma SampleJoins(w: World, w': World, c: ChunkId, p: Page)
    requires WorldOk(w, None, None) && c in w.chunks && p !in w.samples && Watched(p, w.chunks[c].addr, w.chunks[c].size)
    requires p in w'.samples && w'.samples == w.samples[p := w'.samples[p]] && w'.guarded == w.guarded + {p}
    requires w'.samples[p].chunk == c && w'.samples[p].state == WaitFirstAccess
    requires w'.samples[p].waitFault && !w'.samples[p].waitTimer
    requires w'.chunks == w.chunks[c := w.chunks[c].(pages := [p] + w.chunks[c].pages)]
    requires w'.logs == w.logs && w'.keys == w.keys
    ensures WorldOk(w', None, None)
  {
    LinkedMore(w.samples, w'.samples, w.chunks, w'.chunks, c, p);
    hide Linked;
    assert Known(w');
    forall d | d in w'.chunks
      ensures ChunkOk(w'.chunks[d], w'.logs[d], OfChunk(d) in w'.keys, false)
    {
      assert ChunkOk(w.chunks[d], w.logs[d], OfChunk(d) in w.keys, false);
    }
    hide ChunkOk;
    forall q | q in w'.samples
      ensures SampleOk(q, w'.samples[q], w'.guarded, w'.keys)
    {
      if q != p {
        assert SampleOk(q, w.samples[q], w.guarded, w.keys);
      }
    }
  }

  /** A page that has a sample already would have the same sample object taken over, which stays
      on the list it was on as well: order is kept exactly on a page without a sample. */
  lemma AttachIff(w: World, w': World, c: ChunkId, p: Page)
    requires WorldOk(w, None, None) && c in w.chunks && Watched(p, w.chunks[c].addr, w.chunks[c].size)
    requires p in w'.samples && w'.samples == w.samples[p := w'.samples[p]] && w'.guarded == w.guarded + {p}
    requires w'.samples[p].chunk == c && w'.samples[p].state == WaitFirstAccess
    requires w'.samples[p].waitFault && !w'.samples[p].waitTimer
    requires w'.chunks == w.chunks[c := w.chunks[c].(pages := [p] + w.chunks[c].pages)]
    requires w'.logs == w.logs && w'.keys == w.keys
    ensures WorldOk(w', None, None) <==> p !in w.samples
  {
    if p !in w.samples {
      SampleJoins(w, w', c, p);
    } else {
      Occupied(w, w', c, p);
    }
  }

  lemma Occupied(w: World, w': World, c: ChunkId, p: Page)
    requires Linked(w.samples, w.chunks) && c in w.chunks && p in w.samples
    requires p in w'.samples && w'.samples[p].chunk == c
    requires w'.chunks == w.chunks[c := w.chunks[c].(pages := [p] + w.chunks[c].pages)]
    ensures !Linked(w'.samples, w'.chunks)
  {
    var c0 := w.samples[p].chunk;
    assert p in w.chunks[c0].pages;
    if c0 == c {
      NoDupPush(p, w.chunks[c].pages);
      assert !NoDup(w'.chunks[c].pages);
    } else {
      assert p in w'.chunks[c0].pages;
    }
  }

  lemma LinkedMore(samples: map<Page, Sample>, samples': map<Page, Sample>, chunks: map<ChunkId, Chunk>,
                   chunks': map<ChunkId, Chunk>, c: ChunkId, p: Page)
    requires Linked(samples, chunks) && c in chunks && p !in samples && p in samples' && Watched(p, chunks[c].addr, chunks[c].size)
    requires samples' == samples[p := samples'[p]] && samples'[p].chunk == c
    requires chunks' == chunks[c := chunks[c].(pages := [p] + chunks[c].pages)]
    ensures Linked(samples', chunks')
  {
    hide NoDup, Watched;
    NoDupPush(p, chunks[c].pages);
  }

  /** A chunk without samples and without a timer leaves. */
  lemma ChunkLeaves(w: World, w': World, c: ChunkId)
    requires WorldOk(w, None, None) && c in w.chunks && w.chunks[c].pages == [] && OfChunk(c) !in w.keys
    requires w' == w.(chunks := w.chunks - {c}, logs := w.logs - {c})
    ensures WorldOk(w', None, None)
  {
    assert Linked(w'.samples, w'.chunks);
    hide Linked, ChunkOk;
    forall d | d in w'.chunks
      ensures ChunkOk(w'.chunks[d], w'.logs[d], OfChunk(d) in w'.keys, false)
    {
      assert ChunkOk(w.chunks[d], w.logs[d], OfChunk(d) in w.keys, false);
    }
    forall q | q in w'.samples
      ensures SampleOk(q, w'.samples[q], w'.guarded, w'.keys)
    {
      assert SampleOk(q, w.samples[q], w.guarded, w.keys);
    }
  }

  // ------------------------------------------------------------------ the cycles of one chunk

  /** One reference is counted. */
  lemma CountKeeps(ch: Chunk, log: Log, ch': Chunk)
    requires CountsOk(ch, log, false) && ch.state == UnderMonit
    requires ch' == ch.(iVictims := ch.iVictims + 1, iTotal := ch.iTotal + 1)
             || ch' == ch.(iPollutors := ch.iPollutors + 1, iTotal := ch.iTotal + 1)
    ensures CountsOk(ch', log, ch'.iTotal == ch'.nr)
  {}

  lemma PrefixSum(cycles: seq<nat>, x: nat, n: nat)
    requires forall i :: 0 <= i < |cycles| ==> cycles[i] <= n
    ensures PollutorsIn(cycles + [x], |cycles| + 1) == PollutorsIn(cycles, |cycles|) + x
    ensures forall k :: 0 <= k < |cycles| ==> ConvergesAt(cycles + [x], n, k) == ConvergesAt(cycles, n, k)
    ensures ConvergesAt(cycles + [x], n, |cycles|) == Converged(PollutorsIn(cycles, |cycles|), |cycles| * n, x, n)
  {
    PollutorsPrefix(cycles, x, |cycles|);
    forall k | 0 <= k < |cycles|
      ensures ConvergesAt(cycles + [x], n, k) == ConvergesAt(cycles, n, k)
    {
      PollutorsPrefix(cycles, x, k);
    }
  }

  /** The cycle is over but the rate has not settled: the round goes on. */
  lemma CycleKeeps(ch: Chunk, log: Log, ch': Chunk, log': Log)
    requires CountsOk(ch, log, true)
    requires !Settles(ch)
    requires ch' == NextCycle(ch) && log' == log.(cycles := log.cycles + [ch.iPollutors])
    ensures CountsOk(ch', log', false)
  {
    PrefixSum(log.cycles, ch.iPollutors, ch.nr);
    NextTotal(ch.cycle, ch.nr);
  }

  lemma NextTotal(cycle: nat, nr: nat)
    ensures (cycle + 1) * nr == cycle * nr + nr
  {}

  function NextCycle(ch: Chunk): Chunk {
    ch.(victims := ch.victims + ch.iVictims, pollutors := ch.pollutors + ch.iPollutors, total := ch.total + ch.iTotal,
        iVictims := 0, iPollutors := 0, iTotal := 0, cycle := ch.cycle + 1)
  }

  /** The cycle just completed settles the round. */
  predicate Settles(ch: Chunk) {
    ch.cycle >= ch.base - 1 && Converged(ch.pollutors, ch.total, ch.iPollutors, ch.iTotal)
  }

  /** The chunk at the end of its round: the mapping follows from the second round on. */
  function Ended(ch: Chunk): Chunk {
    var target := Conclusion(ch.pollutors + ch.iPollutors, ch.total + ch.iTotal);
    var round := NextRound(ch.round);
    NextCycle(ch).(state := MonitFinish, round := round, mapping := if round == SecondRound then target else ch.mapping)
  }

  function NextRound(r: Round): Round {
    if r == StartSample then FirstRound else if r == FirstRound then SecondRound else r
  }

  /** The rate has settled: the round ends with a conclusion, which from the second round on
      becomes the chunk's mapping. */
  lemma RoundEnds(ch: Chunk, log: Log, ch': Chunk, log': Log, target: Mapping)
    requires CountsOk(ch, log, true) && RoundsOk(ch, log, false) && !log.stopping
    requires Settles(ch) && target == Conclusion(ch.pollutors + ch.iPollutors, ch.total + ch.iTotal)
    requires ch' == Ended(ch)
    requires log' == log.(cycles := log.cycles + [ch.iPollutors], concluded := log.concluded + [target])
    ensures ChunkOk(ch', log', target == Restrict, false)
  {
    PrefixSum(log.cycles, ch.iPollutors, ch.nr);
    NextTotal(ch.cycle, ch.nr);
    assert CountsOk(ch', log', false) by { hide Converged, Conclusion, PollutorsIn; }
    hide CountsOk;
    var n := |log.concluded|;
    assert log'.concluded[n] == target;
    assert forall i :: 0 <= i < n ==> log'.concluded[i] == log.concluded[i] == Restrict;
  }

  function NewRound(ch: Chunk): Chunk {
    ch.(victims := 0, pollutors := 0, total := 0, iVictims := 0, iPollutors := 0, iTotal := 0, cycle := 0,
        state := UnderMonit)
  }

  /** A round starts anew. */
  lemma ReviveKeeps(ch: Chunk, log: Log, ch': Chunk, log': Log)
    requires ChunkOk(ch, log, true, false)
    requires ch' == NewRound(ch)
    requires log' == log.(cycles := [])
    ensures ChunkOk(ch', log', false, false)
  {
    var n := |log.concluded|;
    assert forall i :: 0 <= i < n ==> log.concluded[i] == Restrict;
    assert CountsOk(ch', log', false);
  }

  // ------------------------------------------------------------------ what follows for a chunk

  /** A round takes at least its base cycles and at most 15, and it has ended before the 15th
      cycle is over or ends with it. */
  lemma RoundLength(ch: Chunk, log: Log, full: bool)
    requires CountsOk(ch, log, full)
    ensures ch.state == UnderMonit ==> ch.cycle <= 14
    ensures ch.state == MonitFinish ==> ch.base <= ch.cycle <= 15
  {
    if ch.state == UnderMonit {
      StillRunning(log.cycles, ch.nr, ch.base);
    } else {
      RoundIsShort(log.cycles, ch.nr, ch.base);
    }
  }

  /** Round `k` (counted from 1) was one at whose end the chunk's heap type was switched. */
  predicate SwitchedAt(log: Log, k: nat)
    requires 1 <= k <= |log.concluded|
  {
    MappingAfter(log.initial, log.concluded[..k]) != MappingAfter(log.initial, log.concluded[..k - 1])
  }

  /** The heap type is switched only at the end of the second or a later round, only if every
      earlier round concluded RESTRICT, and, after the second round, only back to open, by the
      last round the chunk has. */
  lemma SwitchesAreLate(ch: Chunk, log: Log, revive: bool, k: nat)
    requires RoundsOk(ch, log, revive) && 1 <= k <= |log.concluded| && SwitchedAt(log, k)
    ensures k >= 2
    ensures forall i :: 0 <= i < k - 1 ==> log.concluded[i] == Restrict
    ensures k > 2 ==> k == |log.concluded| && log.concluded[k - 1] == OpenMapping && ch.state == MonitFinish && !revive
  {
    var now, before := log.concluded[..k], log.concluded[..k - 1];
    if k > 2 {
      assert before[k - 2] == log.concluded[k - 2] && now[k - 1] == log.concluded[k - 1];
    }
  }

  /** In every state of the monitor: a round under way has closed at most 14 cycles, a finished
      one its base number at least and at most 15. */
  lemma EveryRoundEnds(w: World, busy: Option<Page>, c: ChunkId)
    requires WorldOk(w, busy, None) && c in w.chunks
    ensures c in w.logs
    ensures !w.logs[c].stopping ==>
              var ch := w.chunks[c];
              if ch.state == UnderMonit then ch.cycle <= 14 else ch.base <= ch.cycle <= 15
  {
    assert ChunkOk(w.chunks[c], w.logs[c], OfChunk(c) in w.keys, false);
    if !w.logs[c].stopping {
      RoundLength(w.chunks[c], w.logs[c], false);
    }
  }

  /** In every state of the monitor: a finished round has concluded to restrict, and is followed by another,
      exactly if nine in ten of the round's references were pollutors; the first round leaves the heap
      type as it came, and from the second on it is what the latest round concluded. */
  lemma ConcludedRight(w: World, busy: Option<Page>, c: ChunkId)
    requires WorldOk(w, busy, None) && c in w.chunks
    ensures c in w.logs
    ensures !w.logs[c].stopping && w.chunks[c].state == MonitFinish ==>
              var ch, concluded := w.chunks[c], w.logs[c].concluded;
              var restrict := ch.total > 0 && 10 * ch.pollutors >= 9 * ch.total;
              && concluded != []
              && (concluded[|concluded| - 1] == Restrict <==> restrict)
              && (OfChunk(c) in w.keys <==> restrict)
              && (if |concluded| == 1 then ch.mapping == w.logs[c].initial else (ch.mapping == Restrict <==> restrict))
  {
    assert ChunkOk(w.chunks[c], w.logs[c], OfChunk(c) in w.keys, false);
    ConclusionIff(w.chunks[c].pollutors, w.chunks[c].total);
  }

  /** In every state of the monitor: a sample of a chunk under monitoring waits for a fault on its page,
      which is protected, or for its timer, which is queued; so the round can go on. */
  lemma RoundGoesOn(w: World, c: ChunkId, p: Page)
    requires WorldOk(w, None, None) && c in w.chunks && w.chunks[c].state == UnderMonit && p in w.chunks[c].pages
    ensures p in w.guarded || OfSample(p) in w.keys
  {
    assert p in w.samples && w.samples[p].chunk == c;
    assert SampleOk(p, w.samples[p], w.guarded, w.keys);
  }

  /** In every state of the monitor: a chunk whose heap type is not the one it came with has
      finished two rounds at least, and all of them but the last told to restrict. */
  lemma SwitchedMapping(w: World, busy: Option<Page>, c: ChunkId)
    requires WorldOk(w, busy, None) && c in w.chunks
    ensures c in w.logs
    ensures !w.logs[c].stopping && w.chunks[c].mapping != w.logs[c].initial ==>
              var concluded := w.logs[c].concluded;
              && |concluded| >= 2 && w.chunks[c].mapping == concluded[|concluded| - 1]
              && (forall i :: 0 <= i < |concluded| - 1 ==> concluded[i] == Restrict)
              && exists k :: 2 <= k <= |concluded| && SwitchedAt(w.logs[c], k)
  {
    var log := w.logs[c];
    assert ChunkOk(w.chunks[c], log, OfChunk(c) in w.keys, false);
    if !log.stopping && w.chunks[c].mapping != log.initial {
      FirstSwitch(log, |log.concluded|);
    }
  }

  lemma {:induction false} FirstSwitch(log: Log, n: nat)
    requires n <= |log.concluded| && MappingAfter(log.initial, log.concluded[..n]) != log.initial
    ensures exists k :: 2 <= k <= n && SwitchedAt(log, k)
  {
    if !SwitchedAt(log, n) {
      FirstSwitch(log, n - 1);
    } else {
      assert SwitchedAt(log, n);
    }
  }
}
