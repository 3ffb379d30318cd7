# Verified models of the tcmalloc structures and the NightWatch monitor

A Dafny model of the two families of state-keeping code in this repository: the allocator structures of
gperftools 2.4 (`gperftools-2.4_NW_externed_v2.0/src`) and the serial NightWatch locality monitor
(`nightwatch_v1.01_serial`). `dafny verify dfyconfig.toml` checks all of it.

## What is modelled

**Central free lists** (`Central*.dfy`). `CentralModel` is a transition system: any number of threads
over all size classes, each transition being what one thread does between two lock operations (or one
call of ReleaseToSpans or FetchFromOneSpans under the lock). The schedule decides who moves, which class
is picked to evict, what the unlocked reads of ShrinkCache yield, and what the page heap answers.
`CentralInvariant` says what holds between any two transitions, the `*Keeps` lemmas show it transition
by transition (`CentralSystem.StepKeeps` is the sum), and `CentralTheorems` draws the conclusions for
every run: every object in exactly one place, refcounts and counters, the slot budget, one lock at a
time, no deadlock, and what RemoveRange returns. `CentralMemory` adds the memory to the runs: the link
words, written by the transitions as the code writes them and by the program in the objects it has; in
every run every free, cached and carried chain is linked through to NULL, and RemoveRange returns such a
chain. `CentralFreeList` is one list as a class over linked memory, from Init to RemoveRange and
InsertRange with all their paths, the loops of the source and the lock drops; each method is proved to
compute the model's function, with the chains of `CentralChains`. `CentralViews` shows that every list
of every run is in the state those methods require, and that what they do to one list is the transition
of all. `CentralSlots` follows the transfer-cache slots through every run: where they go, the one place
where one is lost, and that stealing from another class works. `CentralSizes` joins the lists to the
size classes.

**Address map and leak checker.** `AddressMap` is the hash table of clusters of block lists as a class,
proved to be a finite map, with the backward search of FindInside characterised exactly. `Reachability`
defines what can be reached through aligned words; `HeapChecker` has the flood with its explicit stack,
the snapshot and the whole check; `ProfileTable` the flags packed into the bucket pointer and the books
of allocations; `LibraryRegions` the interval subtraction.

**Size classes.** `SizeMap` and `SizeClasses` are SizeMap::Init with its nested loops, for every page
size of at least 128 bytes that is a power of two and every transfer limit. `PackedCache` is the packed
cache for all widths its constructor allows, with the three laws of its header.

**NightWatch.** `Timers` and `EventQueue` are the timer queue with re-entrant handlers, which are an
unknown table. `SampleRounds` is the convergence test and its numeric bound, `SamplePlacement` where
samples go, `MonitorState` the invariant of samples, pages, timers and chunks, and `ChunkMonitor` the
handlers and calls, with the state of the queue they hold and resume. `HashTable`, `PageSamples` and
`Bitmaps` are the fast forms that refine simple ones.

`Options`, `Seqs`, `Arith`, `Powers` and `Config` hold shared definitions, facts and constants.

## What turned out otherwise than documented or expected

Each is proved with its exact condition; the code is modelled as it is.

- An event added with a delay of exactly 50 microseconds, the timer's resolution, is fired at once, and
  a handler that adds itself again so keeps dispatch from ever ending: `Timers.AtOnce`,
  `EventQueue.DispatchEnds`. The delay has to exceed the resolution.
- Removing an event that is not queued leaves the queue pending, without a timer, until someone resumes
  it; removing one that is queued resumes it even inside a pend/resume bracket: `Queue.RemoveTimeEvent`.
- A thread that has won a slot from another class, and finds its own cache grown to the maximum when it
  has its lock back, loses the slot for good; nothing else loses one: `CentralSlots.SlotsConserved`.
- The last page of a chunk that is watched can get a sample only if the range is a multiple of the number
  of samples; otherwise it never does: `SamplePlacement.LastPage`.
- A monitoring round takes at most 15 cycles, and 15 do happen (`SampleRounds`).
- The watched part of a chunk smaller than 8192 bytes reaches past its end, where another chunk may be
  (`SamplePlacement.NeighboursMeet`, `NeighboursClash`), and attaching keeps the monitor in order
  exactly on a page without a sample (`MonitorState.AttachIff`). The program never gets there, because a
  small chunk about to be sampled is allocated 8192 bytes: `SamplePlacement.SampledIsWhole`, which holds
  exactly if the number of chunks to skip is not negative, and `MonitorState.NoSampleThere`.
- remove_sample_range steps by pages from an unaligned start and can miss the page of the buffer's last
  byte: `ChunkMonitor.RangeIsCovered`.
- SizeMap::Init never ends with a transfer limit of -4 or less (`SizeMap.SpanLoopEnds`), and with a
  limit below 1 the central lists would move no objects (`CentralSizes.ConfigGood`).
- NonLiveSnapshot is documented to skip ignored objects but does not look at that flag; ignored objects
  are not reported all the same, because they are roots of a flood (`Checker.LeakCheck`).
- Law 1 of the packed cache has to exclude Clear as well as Put, unless the Clear is with the same value
  and the key among those it sets: `PackedCache.PutThenGet`.
- Rebuilding the hash map reverses which of two members with the same key is found:
  `HashTable.RebuildKeepsFresh`. Keys have to be fresh when added.
- RecordAlloc at an address that is recorded already puts the totals out: `Table.RecordAlloc`.
- The upward bitmap scan can run past its map if the words hold more bits than an int can count, and
  exactly then: `Bitmaps.ScanStays`, `RunsPast`.

## Model

| member | source | states |
|---|---|---|
| `CentralTheorems.RunInv` | gperftools-2.4_NW_externed_v2.0/src/central_freelist.cc:49-372 | Every run of any number of threads over all size classes, whatever the schedule and whatever the page heap answers, stays inside the invariant: locks, spans, lists, places of objects, private spans and slot budget |
| `CentralTheorems.ObjectInOnePlace` | gperftools-2.4_NW_externed_v2.0/src/central_freelist.cc:107-152 | In every reachable state each object of each span a list owns is in exactly one place: its span's free chain, one transfer-cache chain, one thread's hands, or handed out; and no chain holds an object twice |
| `CentralTheorems.RefcountIsInUse` | gperftools-2.4_NW_externed_v2.0/src/central_freelist.cc:119-130 | For every owned span: free-chain length plus refcount is the number of whole objects in the span; the refcount is the number of objects not free; the span is on the nonempty list exactly if its chain is not empty and on the empty list exactly if it is |
| `CentralTheorems.CountersAreRight` | gperftools-2.4_NW_externed_v2.0/src/central_freelist.cc:132-139 | `counter_` is the number of free objects on all chains of the class, `num_spans_` the number of its spans |
| `CentralTheorems.SlotBudget` | gperftools-2.4_NW_externed_v2.0/src/central_freelist.cc:170-232 | At every lock release used <= size <= maximum for each class; each cached chain is a full transfer of objects of the class; all cache sizes plus slots in flight between ShrinkCache and MakeCacheSpace never exceed what Init gave out |
| `CentralTheorems.OneLockAtATime` | gperftools-2.4_NW_externed_v2.0/src/central_freelist.cc:213-217 | No thread ever holds two of the class locks and the page-heap lock: what the LockInverter is for |
| `CentralTheorems.NoDeadlock` | gperftools-2.4_NW_externed_v2.0/src/central_freelist.cc:203-217 | As long as some call is under way, some thread inside a call can take a step |
| `CentralTheorems.DataUnderLock` | gperftools-2.4_NW_externed_v2.0/src/central_freelist.h:80-170 | A transition changes a list, or a span of its class, only while its thread holds that class's lock, and the page map only under the page-heap lock |
| `CentralTheorems.RemoveReturns` | gperftools-2.4_NW_externed_v2.0/src/central_freelist.cc:249-281 | A RemoveRange of class cl that comes to its return hands out distinct objects of that class that nobody had, at most n of them; fewer only if no span of the class has a free object left; none only if the page heap refused |
| `CentralTheorems.RunServed` | gperftools-2.4_NW_externed_v2.0/src/central_freelist.cc:284-291 | Once the page heap gave a span, the list has a free object until this thread fetches (it holds the lock from Populate's end to the second fetch) |
| `CentralTheorems.StartInv` | gperftools-2.4_NW_externed_v2.0/src/central_freelist.cc:49-83 | The lists as Init leaves them, with no thread inside a call, satisfy the invariant |
| `CentralSystem.StepKeeps` | gperftools-2.4_NW_externed_v2.0/src/central_freelist.cc:85-372 | Whichever thread moves, and whatever class is picked to evict or the page heap answers, the transition keeps the invariant |
| `CentralSystem.InsertKeeps` | gperftools-2.4_NW_externed_v2.0/src/central_freelist.cc:234-247 | InsertRange up to its first lock drop: store into a free slot, ask for one, or release to spans |
| `CentralSystem.ShrinkKeeps` | gperftools-2.4_NW_externed_v2.0/src/central_freelist.cc:206-232 | ShrinkCache under the victim's lock, forced or not, on a cache that is empty, full or neither |
| `CentralSystem.ReturnedKeeps` | gperftools-2.4_NW_externed_v2.0/src/central_freelist.cc:176-188 | MakeCacheSpace with its own lock back: the cache grows only if it is still below its maximum, since it may have changed meanwhile |
| `CentralSystem.ReleaseStepKeeps` | gperftools-2.4_NW_externed_v2.0/src/central_freelist.cc:85-91 | One turn of ReleaseListToSpans, with the span kept or given to the page heap |
| `CentralSystem.FetchStepKeeps` | gperftools-2.4_NW_externed_v2.0/src/central_freelist.cc:267-278 | One FetchFromOneSpans call of RemoveRange, its Populate, its return, or its next turn |
| `CentralSystem.NoMemoryKeeps` | gperftools-2.4_NW_externed_v2.0/src/central_freelist.cc:335-339 | The page heap refuses: the list is as it was |
| `CentralCache.StoreKeeps` | gperftools-2.4_NW_externed_v2.0/src/central_freelist.cc:237-245 | A whole chain goes into the next transfer-cache slot, also when the cache grew by the slot in flight |
| `CentralCache.TakeSlotKeeps` | gperftools-2.4_NW_externed_v2.0/src/central_freelist.cc:230-231 | ShrinkCache takes an unused slot: one slot is in flight, none is lost |
| `CentralCache.ForcedShrinkKeeps` | gperftools-2.4_NW_externed_v2.0/src/central_freelist.cc:221-228 | A forced ShrinkCache empties the last used slot, whose chain goes from the cache to the thread that releases it |
| `CentralCache.RemoveCachedKeeps` | gperftools-2.4_NW_externed_v2.0/src/central_freelist.cc:252-261 | RemoveRange takes a whole transfer-cache entry and hands it out |
| `CentralSpans.FetchListOk` | gperftools-2.4_NW_externed_v2.0/src/central_freelist.cc:307-319 | After a fetch the span is on the right one of the two lists and the counter is right |
| `CentralSpans.FetchKeeps` | gperftools-2.4_NW_externed_v2.0/src/central_freelist.cc:293-321 | FetchFromOneSpans under the lock keeps the whole invariant: its chain goes from the span to the thread |
| `CentralSpans.LinkListOk` | gperftools-2.4_NW_externed_v2.0/src/central_freelist.cc:367-371 | A freshly carved span is put on the nonempty list and counted |
| `CentralRelease.ReleasedObject` | gperftools-2.4_NW_externed_v2.0/src/central_freelist.cc:107-117 | An object a thread releases lies in its span but not on the span's chain, so that the refcount is positive (the assertion of ReleaseToSpans) |
| `CentralRelease.ReleaseKeptKeeps` | gperftools-2.4_NW_externed_v2.0/src/central_freelist.cc:112-117 | ReleaseToSpans with other objects of the span in use keeps the invariant; a span without free objects moves to the nonempty list |
| `CentralRelease.LastInUse` | gperftools-2.4_NW_externed_v2.0/src/central_freelist.cc:134-137 | When the refcount reaches zero every object of the span is free or the one just given back, so subtracting the whole span from the counter is right |
| `CentralRelease.ReleaseGoneKeeps` | gperftools-2.4_NW_externed_v2.0/src/central_freelist.cc:134-147 | The last object of a span in use is given back: the span leaves the list, and none of its objects is in any cache, hand or pocket |
| `CentralRelease.CallInsertKeeps` | gperftools-2.4_NW_externed_v2.0/src/central_freelist.cc:234-235 | A caller's chain goes from handed-out to the calling thread |
| `CentralRelease.DeliverKeeps` | gperftools-2.4_NW_externed_v2.0/src/central_freelist.cc:279-281 | The chain RemoveRange has collected is handed out |
| `CentralHeap.DeleteKeeps` | gperftools-2.4_NW_externed_v2.0/src/central_freelist.cc:141-147 | The page heap takes a span back: its addresses leave the page map, which no other thread needed |
| `CentralHeap.FreshSpan` | gperftools-2.4_NW_externed_v2.0/src/central_freelist.cc:329-334 | A span the page heap gives overlaps no address that the page map knows |
| `CentralHeap.NewKeeps` | gperftools-2.4_NW_externed_v2.0/src/central_freelist.cc:330-365 | Populate between its two critical sections: the new span belongs to this thread alone |
| `CentralHeap.LinkKeeps` | gperftools-2.4_NW_externed_v2.0/src/central_freelist.cc:367-372 | Populate's end keeps the invariant |
| `CentralModel.MaxCacheSize` | gperftools-2.4_NW_externed_v2.0/src/central_freelist.cc:57-80 | The maximum cache size never exceeds the 64 entries of the array |
| `CentralModel.MaxCacheIs` | gperftools-2.4_NW_externed_v2.0/src/central_freelist.cc:57-82 | The maximum is the greatest number of entries, up to 64, whose objects make up 1 MB at most, but one entry is always allowed; a cache starts with as many, 16 at most |
| `CentralModel.PiecesFill` | gperftools-2.4_NW_externed_v2.0/src/central_freelist.cc:350-364 | The pieces of a span lie inside its bytes and do not overlap, and no further piece would fit behind them |
| `CentralModel.CarveNoDup` | gperftools-2.4_NW_externed_v2.0/src/central_freelist.cc:357-362 | The pieces are distinct, and the first is the span's start |
| `CentralModel.FetchEmptyIff` | gperftools-2.4_NW_externed_v2.0/src/central_freelist.cc:293-294 | Nothing is fetched exactly if no span of the class has a free object |
| `CentralModel.LinkedFirst` | gperftools-2.4_NW_externed_v2.0/src/central_freelist.cc:293-372 | The span that Populate hung on last is the first to be fetched from, from its first piece on |
| `CentralModel.ReleasedFirst` | gperftools-2.4_NW_externed_v2.0/src/central_freelist.cc:107-130 | An object given back to a span that had none free is the next to be fetched, and fetching it undoes the release |
| `CentralInvariant.Relocate` | gperftools-2.4_NW_externed_v2.0/src/central_freelist.cc:234-247 | Moving one chain of objects to another place, and nothing else, leaves every object in exactly one place |
| `CentralInvariant.FreeTotalWithout` | gperftools-2.4_NW_externed_v2.0/src/central_freelist.cc:136-139 | What a span contributes to the class's number of free objects |
| `CentralChains.ChainUnique` | gperftools-2.4_NW_externed_v2.0/src/linked_list.h:44-50 | The objects of a NULL-terminated chain are determined by the memory and its head |
| `CentralChains.ChainCut` | gperftools-2.4_NW_externed_v2.0/src/linked_list.h:63-84 | Writing NULL behind the k-th object makes two chains of one |
| `CentralChains.ChainJoin` | gperftools-2.4_NW_externed_v2.0/src/linked_list.h:86-90 | Linking the last object of one chain to the head of another joins them, if they share no object |
| `CentralChains.StandsCut` | gperftools-2.4_NW_externed_v2.0/src/central_freelist.cc:299-318 | Taking the first k objects off a span's linked chain: what it is in memory, and in the record |
| `CentralChains.StandsPush` | gperftools-2.4_NW_externed_v2.0/src/central_freelist.cc:149-150 | Giving an object back to the front of its span's chain |
| `CentralChains.TakenTwice` | gperftools-2.4_NW_externed_v2.0/src/central_freelist.cc:270-277 | A chain taken earlier outlasts the taking of the next, and shares nothing with it |
| `CentralChains.TakenJoin` | gperftools-2.4_NW_externed_v2.0/src/linked_list.h:86-90 | Two chains that belong to no span become one that belongs to none |
| `CentralChains.FetchInOrder` | gperftools-2.4_NW_externed_v2.0/src/central_freelist.cc:307-319 | All other spans' chains are untouched by a fetch, and what is taken was free and is on no span's chain any more |
| `CentralChains.PushInOrder` | gperftools-2.4_NW_externed_v2.0/src/central_freelist.cc:112-150 | All other spans' chains are untouched by a release |
| `CentralChains.LinkInOrder` | gperftools-2.4_NW_externed_v2.0/src/central_freelist.cc:350-371 | A carved span is put on the nonempty list: its chain is in order, and so are all others still |
| `CentralChains.NextCached` | gperftools-2.4_NW_externed_v2.0/src/central_freelist.cc:237-245 | A chain put into the next entry leaves all entries whole, apart from each other and from the free chains |
| `CentralChains.LastHeld` | gperftools-2.4_NW_externed_v2.0/src/central_freelist.cc:252-260 | The chain of the last entry, once taken out, is on no free chain and in no entry |
| `CentralChains.CachedOn` | gperftools-2.4_NW_externed_v2.0/src/central_freelist.cc:107-151 | The entries stay whole as long as their objects stay off the free chains and their links are not written |
| `CentralChains.FreeHeld` | gperftools-2.4_NW_externed_v2.0/src/central_freelist.cc:262-281 | What has been taken off free chains is in no entry either |
| `CentralChains.HeldGiven` | gperftools-2.4_NW_externed_v2.0/src/central_freelist.cc:85-91 | Giving back the first object of a chain leaves the rest linked, and apart from all else |
| `CentralFreeList.List.constructor` | gperftools-2.4_NW_externed_v2.0/src/central_freelist.cc:49-83 | The list as Init leaves it: no spans, an empty cache of at most 16 slots |
| `CentralFreeList.List.Walk` | gperftools-2.4_NW_externed_v2.0/src/central_freelist.cc:299-305 | The do-while loop ends at the n-th object of the chain or at its last |
| `CentralFreeList.List.FetchFromOneSpans` | gperftools-2.4_NW_externed_v2.0/src/central_freelist.cc:293-321 | On linked memory: computes the model's Fetch; the chain from *start to *end is NULL-terminated, without repetition, on no span's free chain afterwards and was on one before; only the link of *end is written |
| `CentralFreeList.List.PushRange` | gperftools-2.4_NW_externed_v2.0/src/linked_list.h:86-90 | SLL_PushRange joins two chains that no span owns; an empty range changes nothing |
| `CentralFreeList.List.TopUpOnce` | gperftools-2.4_NW_externed_v2.0/src/central_freelist.cc:270-277 | One turn of RemoveRange's loop |
| `CentralFreeList.List.TopUp` | gperftools-2.4_NW_externed_v2.0/src/central_freelist.cc:268-278 | RemoveRange's loop: the chain grows, by objects that were free, to n objects or until no span has one left, stays NULL-terminated and without repetition, and its end stays the first chain's |
| `CentralFreeList.List.ReleaseToSpans` | gperftools-2.4_NW_externed_v2.0/src/central_freelist.cc:107-151 | On linked memory: computes the model's Release, with the span kept or gone; only the object's own link word is written |
| `CentralFreeList.List.Populate` | gperftools-2.4_NW_externed_v2.0/src/central_freelist.cc:324-372 | The lock is dropped, so that other threads may leave the list in any state; then the span the page heap gave, if any, is carved and hung on the list, and all chains are in order |
| `CentralFreeList.List.Hang` | gperftools-2.4_NW_externed_v2.0/src/central_freelist.cc:350-371 | A fresh span of the class is on the list, all its objects on its chain |
| `CentralFreeList.List.FetchFromOneSpansSafe` | gperftools-2.4_NW_externed_v2.0/src/central_freelist.cc:284-291 | What FetchFromOneSpans gives, or, if that is nothing, what it gives after Populate |
| `CentralFreeList.List.RemoveRange` | gperftools-2.4_NW_externed_v2.0/src/central_freelist.cc:249-281 | On all three paths (a transfer-cache entry, the spans, the spans after Populate): *start to *end is a NULL-terminated chain of exactly `result` distinct objects of spans of the list, on no free chain and in no entry afterwards; from the cache it is the last entry, from spans all of it was free before and it is what the model's loop collects; fewer than n only if no span has a free object left, none only if the page heap refused |
| `CentralFreeList.List.ReleaseFirst` | gperftools-2.4_NW_externed_v2.0/src/central_freelist.cc:86-90 | One turn of ReleaseListToSpans: the link is read before ReleaseToSpans writes it, and the rest of the chain stays linked and apart |
| `CentralFreeList.List.ReleaseListToSpans` | gperftools-2.4_NW_externed_v2.0/src/central_freelist.cc:85-91 | Each object of the chain is given back once, in order, to its span, whatever other threads make of the list where the lock is dropped |
| `CentralFreeList.AllBack` | gperftools-2.4_NW_externed_v2.0/src/central_freelist.cc:85-91 | As long as no span can go, all objects of the chain are on their spans' chains afterwards, each counted once, and no span is lost |
| `CentralFreeList.List.MakeCacheSpace` | gperftools-2.4_NW_externed_v2.0/src/central_freelist.cc:170-189 | True exactly if a slot was unused or an eviction succeeded and the cache was below its maximum when the lock was back, and then it has grown by one; the thread's own chain stays as it is |
| `CentralFreeList.List.InsertRange` | gperftools-2.4_NW_externed_v2.0/src/central_freelist.cc:234-247 | The chain becomes the last transfer-cache entry, with its two ends, or all of it goes back to the spans |
| `CentralFreeList.List.ShrinkCache` | gperftools-2.4_NW_externed_v2.0/src/central_freelist.cc:218-231 | Under its lock: nothing, or the cache is one slot smaller, by an unused slot or by its last entry, all objects of which go back to the spans, and only if forced |
| `CentralFreeList.CarveSpan` | gperftools-2.4_NW_externed_v2.0/src/central_freelist.cc:350-364 | Populate's carving loop makes floor(bytes / size) pieces, linked in address order and NULL-terminated, and writes no word but their link words |
| `CentralMemory.RunLinked` | gperftools-2.4_NW_externed_v2.0/src/central_freelist.cc:85-372 | In every run, whatever the schedule, the page heap and the program's writes into objects it has: each free chain, each transfer-cache entry, each chain a thread carries and each carved span is linked from its first object through all of it to NULL |
| `CentralMemory.ReturnsChain` | gperftools-2.4_NW_externed_v2.0/src/central_freelist.cc:249-281 | In every run a RemoveRange(n) returns a NULL-terminated chain of at most n distinct objects of the class that nobody had; shorter only if no span has a free object left, empty only if the page heap refused |
| `CentralMemory.EventLinked` | gperftools-2.4_NW_externed_v2.0/src/central_freelist.cc:85-372 | Each transition of each thread keeps all chains linked, and so does each write of the program |
| `CentralMemory.ForeignKeeps` | gperftools-2.4_NW_externed_v2.0/src/central_freelist.h:61-66 | The program may write any word of the objects it has, and of addresses no span has, at any time: no chain of the lists suffers |
| `CentralMemory.OthersKept` | gperftools-2.4_NW_externed_v2.0/src/linked_list.h:48-50 | Writing one object's link leaves every chain at another place linked |
| `CentralMemory.FetchLinked` | gperftools-2.4_NW_externed_v2.0/src/central_freelist.cc:293-321 | FetchFromOneSpans and SLL_PushRange in a run: the objects taken are linked in front of those collected, and what is left of the span's chain stays linked |
| `CentralMemory.ReleaseLinked` | gperftools-2.4_NW_externed_v2.0/src/central_freelist.cc:85-151 | A turn of ReleaseListToSpans in a run: the object is linked in front of its span's chain, and the rest of the list to release stays linked |
| `CentralMemory.PopulateLinked` | gperftools-2.4_NW_externed_v2.0/src/central_freelist.cc:350-364 | Populate threads pieces that no chain runs through |
| `CentralMemory.InsertingLinked` | gperftools-2.4_NW_externed_v2.0/src/central_freelist.cc:154-247 | InsertRange, MakeCacheSpace and ShrinkCache pass whole chains on and write no link |
| `CentralMemory.MemoryFollows` | gperftools-2.4_NW_externed_v2.0/src/central_freelist.cc:85-372 | No transition is held up by the memory: there are words it can write, as long as callers pass linked chains and the page heap does not give page 0 |
| `CentralViews.ListInRun` | gperftools-2.4_NW_externed_v2.0/src/central_freelist.cc:85-372 | Each list of each run, at each moment, also where another thread has dropped its lock, is in the state that the methods of CentralFreeList.List require and keep, and what each thread carries is apart from it |
| `CentralViews.FetchOfView` | gperftools-2.4_NW_externed_v2.0/src/central_freelist.cc:293-321 | FetchFromOneSpans on one list alone is the transition of the whole system |
| `CentralViews.ReleaseOfView` | gperftools-2.4_NW_externed_v2.0/src/central_freelist.cc:107-139 | ReleaseToSpans on one list alone is the transition of the whole system |
| `CentralViews.LinkOfView` | gperftools-2.4_NW_externed_v2.0/src/central_freelist.cc:367-371 | So is the end of Populate |
| `CentralViews.ShrinkOfView` | gperftools-2.4_NW_externed_v2.0/src/central_freelist.cc:206-232 | So is ShrinkCache: the cache size that is left and the slot handed on are the cache size before; an entry is evicted only from a full cache |
| `CentralViews.InsertOfView` | gperftools-2.4_NW_externed_v2.0/src/central_freelist.cc:234-247 | So is InsertRange up to its first lock drop: chains that are no full transfer go to the spans, others into an unused slot, and a full cache below its maximum asks for one, without force first |
| `CentralViews.ReturnedOfView` | gperftools-2.4_NW_externed_v2.0/src/central_freelist.cc:176-188 | So is MakeCacheSpace with its own lock back |
| `CentralViews.RemoveOfView` | gperftools-2.4_NW_externed_v2.0/src/central_freelist.cc:249-266 | So is RemoveRange under its lock: the last entry for a full transfer, if there is one, and else the spans |
| `CentralViews.GivenOfView` | gperftools-2.4_NW_externed_v2.0/src/central_freelist.cc:85-91 | So is one turn of ReleaseListToSpans |
| `CentralSlots.SlotsConserved` | gperftools-2.4_NW_externed_v2.0/src/central_freelist.cc:170-232 | In every run: the slots of all caches, those on their way, and those lost are exactly what Init gave out; one is lost just where a thread comes back with a slot it has won and finds that its cache has grown to the maximum meanwhile |
| `CentralSlots.StepSlots` | gperftools-2.4_NW_externed_v2.0/src/central_freelist.cc:170-232 | Each transition: no slot appears, and none is lost but there |
| `CentralSlots.ForcedIsSecond` | gperftools-2.4_NW_externed_v2.0/src/central_freelist.cc:183-186 | In every run: a thread that evicts by force has tried without force before, for the same chain, and has been in that InsertRange ever since |
| `CentralSlots.StealWorks` | gperftools-2.4_NW_externed_v2.0/src/central_freelist.cc:170-247 | With nobody in the way, a full cache below its maximum grows by the unused slot of another class, which shrinks by it, and takes the chain |
| `CentralSlots.ForceWorks` | gperftools-2.4_NW_externed_v2.0/src/central_freelist.cc:170-232 | Without an unused slot the unforced try fails, and the forced one takes the last entry out of a full cache, which is then one slot smaller |
| `CentralSlots.StoredAndTaken` | gperftools-2.4_NW_externed_v2.0/src/central_freelist.cc:234-261 | RemoveRange is the inverse of InsertRange: a full transfer put into an unused slot is what the next RemoveRange takes out, and all is as before |
| `CentralSizes.ConfigGood` | gperftools-2.4_NW_externed_v2.0/src/common.cc:99-119 | The size classes that Init chooses are such as the central lists rely on (a span holds an object, a transfer moves one) exactly if the limit on transfers is at least 1 |
| `AddressMap.Map.constructor` | gperftools-2.4_NW_externed_v2.0/src/addressmap-inl.h:270-277 | An empty map |
| `AddressMap.Map.LookupCluster` | gperftools-2.4_NW_externed_v2.0/src/addressmap-inl.h:214-222 | FindCluster finds the cluster exactly if it exists |
| `AddressMap.Map.CreateCluster` | gperftools-2.4_NW_externed_v2.0/src/addressmap-inl.h:224-231 | Creating a cluster changes no list |
| `AddressMap.Map.Search` | gperftools-2.4_NW_externed_v2.0/src/addressmap-inl.h:299-303 | The first entry of a list with the key |
| `AddressMap.Map.Find` | gperftools-2.4_NW_externed_v2.0/src/addressmap-inl.h:290-306 | Find returns what the abstract map binds the key to, nothing if it is not bound |
| `AddressMap.Map.Insert` | gperftools-2.4_NW_externed_v2.0/src/addressmap-inl.h:309-338 | The abstract map is updated at the key, whether it was bound or not |
| `AddressMap.Map.Overwrite` | gperftools-2.4_NW_externed_v2.0/src/addressmap-inl.h:315-320 | An old value is forgotten |
| `AddressMap.Map.Allocate` | gperftools-2.4_NW_externed_v2.0/src/addressmap-inl.h:323-331 | The free list is refilled with entries that no block list holds |
| `AddressMap.Map.AddEntry` | gperftools-2.4_NW_externed_v2.0/src/addressmap-inl.h:332-337 | An entry moves from the free list to the front of its block's list |
| `AddressMap.Map.FindAndRemove` | gperftools-2.4_NW_externed_v2.0/src/addressmap-inl.h:341-357 | The key is unbound, and its old value returned |
| `AddressMap.Map.Unlink` | gperftools-2.4_NW_externed_v2.0/src/addressmap-inl.h:345-352 | An entry moves from its block's list to the free list, and no other entry changes |
| `AddressMap.Map.ScanList` | gperftools-2.4_NW_externed_v2.0/src/addressmap-inl.h:371-382 | The scan of one block's list finds a covering entry if there is one, and else tells whether any starts at or before the key |
| `AddressMap.Map.FindInside` | gperftools-2.4_NW_externed_v2.0/src/addressmap-inl.h:359-403 | For ranges that do not overlap: the search ends, and returns k exactly if k is bound, contains the key or starts at it, and starts in the key's block or in a block whose last address is within max_size of the key |
| `AddressMap.FindsAll` | gperftools-2.4_NW_externed_v2.0/src/addressmap-inl.h:129-139 | As documented: with max_size no less than any size, a range is found whenever the key points to its start or into it |
| `AddressMap.FindsNear` | gperftools-2.4_NW_externed_v2.0/src/addressmap-inl.h:389-396 | The cut-off never loses a range that starts within max_size of the key |
| `AddressMap.Map.Iterate` | gperftools-2.4_NW_externed_v2.0/src/addressmap-inl.h:407-420 | The callback gets the bindings in table, chain, block and list order |
| `AddressMap.Map.VisitChain` | gperftools-2.4_NW_externed_v2.0/src/addressmap-inl.h:412-418 | ... those of one hash chain |
| `AddressMap.Map.VisitBlocks` | gperftools-2.4_NW_externed_v2.0/src/addressmap-inl.h:413-417 | ... those of one cluster |
| `AddressMap.VisitedOnce` | gperftools-2.4_NW_externed_v2.0/src/addressmap-inl.h:141-146 | Iterate visits every binding, exactly once, and nothing else |
| `AddressMap.BlockOf` | gperftools-2.4_NW_externed_v2.0/src/addressmap-inl.h:235-238 | A block number is within the cluster's array |
| `AddressMap.BlockNumber` | gperftools-2.4_NW_externed_v2.0/src/addressmap-inl.h:216-238 | Cluster and block number together are the address without its low seven bits |
| `AddressMap.HashInt` | gperftools-2.4_NW_externed_v2.0/src/addressmap-inl.h:202-207 | The hash is an index into the table |
| `AddressMap.NeighboursApart` | gperftools-2.4_NW_externed_v2.0/src/addressmap-inl.h:202-207 | Neighbouring clusters never share a slot of the table |
| `AddressMap.Lookup` | gperftools-2.4_NW_externed_v2.0/src/addressmap-inl.h:213-238 | The list that a key dictates tells whether it is bound and to what |
| `AddressMap.ReplaceOk` | gperftools-2.4_NW_externed_v2.0/src/addressmap-inl.h:308-357 | Changing one key's list, its binding and one entry's owner keeps every entry in the cluster and block its key dictates, no key twice, and every entry object in one list or free |
| `AddressMap.EarlierMisses` | gperftools-2.4_NW_externed_v2.0/src/addressmap-inl.h:380-384 | Why had_smaller_key may end the search: a range of an earlier block ends before a range that does not contain the key |
| `AddressMap.CutOff` | gperftools-2.4_NW_externed_v2.0/src/addressmap-inl.h:389-398 | Why the distance may end the search: what lies beyond it is not to be found |
| `Reachability.ClosedReached` | gperftools-2.4_NW_externed_v2.0/src/heap-checker.cc:1392-1507 | A set of objects that takes up the roots and whatever its members point to takes up all that is reachable |
| `Reachability.FloodStarts` | gperftools-2.4_NW_externed_v2.0/src/heap-checker.cc:1397-1402 | The loop invariant of the flood holds at its start |
| `Reachability.FloodGoesOn` | gperftools-2.4_NW_externed_v2.0/src/heap-checker.cc:1397-1500 | One area taken off the stack and swept keeps it: what is marked is reachable, and what is marked has been swept or waits on the stack |
| `Reachability.FloodEnds` | gperftools-2.4_NW_externed_v2.0/src/heap-checker.cc:1397-1402 | With the stack empty, what is live is what was live before and what is reachable from the roots, no less and no more |
| `HeapChecker.Checker.MarkAsLive` | gperftools-2.4_NW_externed_v2.0/src/heap-profile-table.cc:263-270 | True exactly if the object is recorded and was not live; it is live then, and nothing else changes |
| `HeapChecker.Checker.HaveOnHeap` | gperftools-2.4_NW_externed_v2.0/src/heap-checker.cc:1466-1472 | Finds the object that a word points to, at its start or inside, exactly if there is one, with its size |
| `HeapChecker.Checker.LookAt` | gperftools-2.4_NW_externed_v2.0/src/heap-checker.cc:1450-1497 | One word: the object it points to is live afterwards, and is put on the stack exactly if it was not before; the range test in front loses nothing |
| `HeapChecker.AlignedUp` | gperftools-2.4_NW_externed_v2.0/src/heap-checker.cc:1412-1420 | The start is moved up to the first aligned address, not beyond |
| `HeapChecker.Checker.ScanArea` | gperftools-2.4_NW_externed_v2.0/src/heap-checker.cc:1412-1499 | After the sweep everything that an aligned word of the area points to is live; what was marked is on the stack, once |
| `HeapChecker.Checker.FloodOnce` | gperftools-2.4_NW_externed_v2.0/src/heap-checker.cc:1398-1499 | One round: more objects are live, or the stack is shorter |
| `HeapChecker.Checker.Flood` | gperftools-2.4_NW_externed_v2.0/src/heap-checker.cc:1392-1507 | IgnoreLiveObjectsLocked ends, and marks exactly the objects reachable from the areas on the stack; the count of live objects is right |
| `HeapChecker.Checker.MakeIgnoredLive` | gperftools-2.4_NW_externed_v2.0/src/heap-checker.cc:727-734 | Every ignored object becomes a root, and nothing else |
| `HeapChecker.Checker.AddIfNonLive` | gperftools-2.4_NW_externed_v2.0/src/heap-profile-table.cc:419-430 | The callback: a live object loses its flag, another is recorded unless it is in the base |
| `HeapChecker.Checker.NonLiveSnapshot` | gperftools-2.4_NW_externed_v2.0/src/heap-profile-table.cc:496-511 | All live flags are cleared; the snapshot holds exactly the recorded objects that were not live and are not in the base, and its totals are theirs |
| `HeapChecker.Checker.LeakCheck` | gperftools-2.4_NW_externed_v2.0/src/heap-checker.cc:1105-1131 | After any number of floods and that from the ignored objects, the snapshot holds exactly the recorded objects that are reachable from none of the roots, nor from an ignored object, and are not in the base; none of them is ignored |
| `HeapChecker.Reported` | gperftools-2.4_NW_externed_v2.0/src/heap-profile-table.cc:496-511 | How floods and snapshot combine; an ignored object is never reported although the snapshot does not look at that flag |
| `ProfileTable.SetBucket` | gperftools-2.4_NW_externed_v2.0/src/heap-profile-table.h:192-196 | Storing a bucket, aligned to four, clears both flags, and the bucket can be read back |
| `ProfileTable.SetLive` | gperftools-2.4_NW_externed_v2.0/src/heap-profile-table.h:199-203 | The live flag is set without touching bucket or ignore flag |
| `ProfileTable.SetIgnore` | gperftools-2.4_NW_externed_v2.0/src/heap-profile-table.h:205-209 | The ignore flag is set without touching bucket or live flag |
| `ProfileTable.TotalWithout` | gperftools-2.4_NW_externed_v2.0/src/heap-profile-table.cc:210-234 | The number of recorded bytes does not depend on the order of recording |
| `ProfileTable.OverwriteUnbalances` | gperftools-2.4_NW_externed_v2.0/src/heap-profile-table.cc:210-223 | Recording at an address keeps the counts in balance exactly if nothing is recorded there |
| `ProfileTable.BooksRecord` | gperftools-2.4_NW_externed_v2.0/src/heap-profile-table.cc:210-223 | With each allocation recorded the number and bytes of allocations, in the total and in its bucket, go on being those ever recorded |
| `ProfileTable.BooksFree` | gperftools-2.4_NW_externed_v2.0/src/heap-profile-table.cc:225-234 | ... and with each free those of frees being those ever freed, with the allocations untouched |
| `ProfileTable.Table.constructor` | gperftools-2.4_NW_externed_v2.0/src/heap-profile-table.cc:210-223 | An empty table is in balance |
| `ProfileTable.Table.RecordAlloc` | gperftools-2.4_NW_externed_v2.0/src/heap-profile-table.cc:210-223 | The allocation is recorded and counted in its bucket and in the total: allocs, allocSize, frees and freeSize are always the number and bytes of all that was ever recorded and ever freed; they balance (allocations minus frees are what is in the table) exactly if the address was not recorded |
| `ProfileTable.Table.RecordFree` | gperftools-2.4_NW_externed_v2.0/src/heap-profile-table.cc:225-234 | The allocation is removed, and counted as a free in its bucket and in the total; an unknown address changes nothing; the counts stay those of all ever recorded and freed, and in balance |
| `LibraryRegions.CutIs` | gperftools-2.4_NW_externed_v2.0/src/heap-checker.cc:1189-1214 | The pieces of one range are, address by address, the range without the region, and do not overlap |
| `LibraryRegions.SubtractRegion` | gperftools-2.4_NW_externed_v2.0/src/heap-checker.cc:1185-1219 | The inner loop: the union of all ranges loses exactly the region, and disjoint ranges stay disjoint |
| `LibraryRegions.KeptIff` | gperftools-2.4_NW_externed_v2.0/src/heap-checker.cc:1169-1183 | For disjoint caller ranges, looking up the least end after the caller decides exactly whether the caller lies inside a range |
| `LibraryRegions.Subtract` | gperftools-2.4_NW_externed_v2.0/src/heap-checker.cc:1158-1221 | The whole loop: what is left is the union of the ranges minus all regions to be subtracted, address by address, for any number of both; disjoint ranges stay disjoint |
| `SizeMap.LgFloor` | gperftools-2.4_NW_externed_v2.0/src/common.cc:63-75 | The loop finds the position of the highest bit of any number of up to 32 bits |
| `SizeMap.AlignmentForSize` | gperftools-2.4_NW_externed_v2.0/src/common.cc:77-97 | Computes the alignment of every size |
| `SizeMap.AlignmentChecks` | gperftools-2.4_NW_externed_v2.0/src/common.cc:94-95 | Both checks at its end hold for every size |
| `SizeMap.EighthOfSize` | gperftools-2.4_NW_externed_v2.0/src/common.cc:84-90 | From 128 bytes on the alignment is an eighth of the size, rounded down to a power of two, or a page |
| `SizeMap.NextSize` | gperftools-2.4_NW_externed_v2.0/src/common.cc:139-141 | Init's loop goes through multiples of their own alignment and meets the greatest size exactly: `size % alignment == 0` never fails |
| `SizeMap.NoneBetween` | gperftools-2.4_NW_externed_v2.0/src/common.cc:136-139 | Between a size that the loop tries and the next there is no other multiple of its own alignment |
| `SizeMap.LargeSizes` | gperftools-2.4_NW_externed_v2.0/src/common.h:176-182 | From 1024 bytes on all sizes are multiples of 128, as the flattened array needs |
| `SizeMap.NumMoveSize` | gperftools-2.4_NW_externed_v2.0/src/common.cc:99-119 | At most the limit, and at least 2 unless the limit is less |
| `SizeMap.Transfer` | gperftools-2.4_NW_externed_v2.0/src/common.cc:101-103 | A transfer moves as many objects as make up 64 kB, unless that is fewer than two or beyond the limit |
| `SizeMap.Quarter` | gperftools-2.4_NW_externed_v2.0/src/common.cc:143 | Division by four toward zero |
| `SizeMap.SpanLoopEnds` | gperftools-2.4_NW_externed_v2.0/src/common.cc:143-155 | The span loop of Init runs forever exactly with a transfer limit of -4 or less |
| `SizeClasses.FindSpan` | gperftools-2.4_NW_externed_v2.0/src/common.cc:144-156 | The nested loops end with the least number of pages that wastes at most an eighth and holds enough objects |
| `SizeClasses.ChooseClasses` | gperftools-2.4_NW_externed_v2.0/src/common.cc:136-175 | Sizes increase strictly and end at the greatest; every class, also after merging, has the least span for its size; neighbouring classes differ in pages or objects; and every multiple of its own alignment up to the greatest size is served with the span it would get alone, and loses no object to the merging |
| `SizeClasses.MergeClass` | gperftools-2.4_NW_externed_v2.0/src/common.cc:158-169 | Enlarging the last class keeps all this |
| `SizeClasses.AppendClass` | gperftools-2.4_NW_externed_v2.0/src/common.cc:171-174 | Adding a class keeps all this |
| `SizeClasses.MergeCovers` | gperftools-2.4_NW_externed_v2.0/src/common.cc:158-169 | Merging costs no tried size its span, nor an object |
| `SizeClasses.AppendCovers` | gperftools-2.4_NW_externed_v2.0/src/common.cc:171-174 | Nor does adding a class |
| `SizeClasses.ClassIndex` | gperftools-2.4_NW_externed_v2.0/src/common.h:200-209 | Every size up to the greatest has an index inside the array, size 0 the first |
| `SizeClasses.SameIndex` | gperftools-2.4_NW_externed_v2.0/src/common.h:176-193 | Sizes that share an index belong to the same class |
| `SizeClasses.FillOne` | gperftools-2.4_NW_externed_v2.0/src/common.cc:185-187 | One more array entry is right for all sizes of its index and spoils no other |
| `SizeClasses.SizeTable.FillClassArray` | gperftools-2.4_NW_externed_v2.0/src/common.cc:182-189 | The array maps every size from 0 to the greatest to the smallest class that fits |
| `SizeClasses.SizeTable.NumObjects` | gperftools-2.4_NW_externed_v2.0/src/common.cc:214-217 | The number of objects to move is set for every class |
| `SizeClasses.SizeTable.Init` | gperftools-2.4_NW_externed_v2.0/src/common.cc:122-218 | For every page size of at least 128 bytes and limit of at least -3: all of this together |
| `SizeClasses.SizeTable.SizeClass` | gperftools-2.4_NW_externed_v2.0/src/common.h:227-229 | The lookup returns the smallest class with room for the size: what Init double-checks |
| `SizeClasses.ClassServes` | gperftools-2.4_NW_externed_v2.0/src/common.cc:139-169 | A class that serves a size has a span with at least one object, a quarter of a transfer, and at most an eighth of its bytes wasted, and no smaller span has; for a size that Init tried it is the least span for that size itself, with as many objects; and no lesser class has room |
| `PackedCache.KeyToUpperIs` | gperftools-2.4_NW_externed_v2.0/src/packed-cache-inl.h:195-207 | In both modes KeyToUpper is the stored part of the key, whole, above the bits of the value |
| `PackedCache.PackedMatches` | gperftools-2.4_NW_externed_v2.0/src/packed-cache-inl.h:193-218 | An entry matches exactly the keys with the same stored part, gives its value back, and fits its type |
| `PackedCache.Injective` | gperftools-2.4_NW_externed_v2.0/src/packed-cache-inl.h:101-107 | Slot and stored part together determine the key |
| `PackedCache.Cache.constructor` | gperftools-2.4_NW_externed_v2.0/src/packed-cache-inl.h:148-155 | A new cache is as after Clear |
| `PackedCache.Cache.Clear` | gperftools-2.4_NW_externed_v2.0/src/packed-cache-inl.h:178-184 | The cache is as if the value had been Put for all keys below 2^kHashbits |
| `PackedCache.Cache.Put` | gperftools-2.4_NW_externed_v2.0/src/packed-cache-inl.h:157-161 | The pair replaces the one in its slot, and no other |
| `PackedCache.Cache.Has` | gperftools-2.4_NW_externed_v2.0/src/packed-cache-inl.h:163-166 | True exactly if the slot's pair has the key |
| `PackedCache.Cache.GetOrDefault` | gperftools-2.4_NW_externed_v2.0/src/packed-cache-inl.h:168-176 | The value of the slot's pair if it has the key, else the default |
| `PackedCache.InitialKey` | gperftools-2.4_NW_externed_v2.0/src/packed-cache-inl.h:181 | The assertion in Clear: in partial-key mode the keys below 2^kHashbits have no upper part |
| `PackedCache.PutThenGet` | gperftools-2.4_NW_externed_v2.0/src/packed-cache-inl.h:81-87 | Law 1: after Put(key, value) and anything but Puts, the key yields the value exactly if nothing followed, or if the key is below 2^kHashbits and the last Clear was with this value |
| `PackedCache.HasOnlyPut` | gperftools-2.4_NW_externed_v2.0/src/packed-cache-inl.h:88-94 | Law 2: a key is present only if it was Put or is below 2^kHashbits |
| `PackedCache.PutOther` | gperftools-2.4_NW_externed_v2.0/src/packed-cache-inl.h:96-99 | Law 3: Put for one key changes nothing for another, unless it evicts it |
| `Timers.OfMicroseconds` | nightwatch_v1.01_serial/event_queue.h:15-20 | usec2tv gives a normal time of that many microseconds |
| `Timers.Compare` | nightwatch_v1.01_serial/event_queue.h:28-36 | tv_cmp orders normal times as their microseconds |
| `Timers.Plus` | nightwatch_v1.01_serial/event_queue.h:38-48 | tv_add adds, and the result is normal |
| `Timers.Minus` | nightwatch_v1.01_serial/event_queue.h:50-60 | tv_sub subtracts, and the result is normal |
| `Timers.Position` | nightwatch_v1.01_serial/event_queue.c:188-191 | The search of add_time_event stops at the first later event |
| `Timers.InsertSorted` | nightwatch_v1.01_serial/event_queue.c:188-194 | A new event keeps the list sorted, behind those of equal time |
| `Timers.InsertElems` | nightwatch_v1.01_serial/event_queue.c:188-194 | No event is lost or doubled |
| `Timers.RemoveElems` | nightwatch_v1.01_serial/event_queue.c:213-220 | Exactly the event of the key goes |
| `Timers.RemoveOrdered` | nightwatch_v1.01_serial/event_queue.c:213-220 | ... and the others stay in order |
| `Timers.DueCount` | nightwatch_v1.01_serial/event_queue.c:100-112 | Of a list, exactly a front part is due |
| `Timers.AtOnce` | nightwatch_v1.01_serial/event_queue.c:97-102 | An event added now is fired at once exactly if its delay does not exceed the resolution of 50 microseconds |
| `EventQueue.OkAdd` | nightwatch_v1.01_serial/event_queue.c:188-194 | An added event keeps list, index and history in agreement: sorted, one event per key, nothing lost, nothing queued before what was fired |
| `EventQueue.OkRemove` | nightwatch_v1.01_serial/event_queue.c:213-220 | So does a removed one |
| `EventQueue.OkFire` | nightwatch_v1.01_serial/event_queue.c:101-105 | So does a fired one: in order of trigger time, at most 50 microseconds early, once |
| `EventQueue.Queue.constructor` | nightwatch_v1.01_serial/event_queue.c:256-281 | An empty queue |
| `EventQueue.Queue.Pend` | nightwatch_v1.01_serial/event_queue.c:116-132 | The timer is off and the queue pending |
| `EventQueue.Queue.FireFirst` | nightwatch_v1.01_serial/event_queue.c:101-106 | The first event leaves list and index |
| `EventQueue.Queue.FireDue` | nightwatch_v1.01_serial/event_queue.c:92-113 | Dispatch ends though handlers add, remove and dispatch in turn; nothing is due afterwards; nothing happens if nothing was due |
| `EventQueue.Queue.RunHandler` | nightwatch_v1.01_serial/event_queue.c:106-107 | The handler of each fired event is run once, and makes all its calls in turn: what has happened before and after each is as the call demands |
| `EventQueue.Queue.MakeCall` | nightwatch_v1.01_serial/event_queue.c:169-227 | One call from a handler: an event is added if its key has none and its delay exceeds the resolution, the key's event removed if it has one, and else nothing happens |
| `EventQueue.Queue.AddTimeEvent` | nightwatch_v1.01_serial/event_queue.c:169-204 | The event is queued in its place; the queue is pending afterwards only if it was before; else the timer is set if anything is queued |
| `EventQueue.Queue.Enqueue` | nightwatch_v1.01_serial/event_queue.c:182-194 | The event enters list and index |
| `EventQueue.Queue.Dequeue` | nightwatch_v1.01_serial/event_queue.c:213-220 | It leaves both |
| `EventQueue.Queue.RemoveTimeEvent` | nightwatch_v1.01_serial/event_queue.c:207-227 | The event of the key goes and no other; a pending queue stays pending exactly if the key is absent, and then nothing else happens |
| `EventQueue.Queue.Resume` | nightwatch_v1.01_serial/event_queue.c:135-166 | What is due is fired, and the timer set, strictly after now, if anything is left |
| `EventQueue.Queue.Signal` | nightwatch_v1.01_serial/event_queue.c:230-253 | Trapped in a pending queue the signal does nothing; else what is due is fired and the timer set again |
| `EventQueue.Run` | nightwatch_v1.01_serial/event_queue.c:92-253 | Over every sequence of calls, signals and passing time, whatever the handlers do: list and index agree, each event is fired or removed once, never more than 50 microseconds early, in order of trigger time; and whenever the queue is not pending and not empty the timer is set, for the first event |
| `EventQueue.DispatchEnds` | nightwatch_v1.01_serial/event_queue.c:92-113 | With handlers that add their event again, dispatch fires each due event once if the delay exceeds 50 microseconds, and never ends otherwise |
| `SampleRounds.ConvergedIff` | nightwatch_v1.01_serial/chunk_monitor.c:250-255 | The convergence test in whole numbers |
| `SampleRounds.FailsIff` | nightwatch_v1.01_serial/chunk_monitor.c:246-261 | The test of cycle k fails exactly if the cycle's pollutors stand off the mean so far by (k+1)/20 of the samples |
| `SampleRounds.RoundIsShort` | nightwatch_v1.01_serial/chunk_monitor.c:246-270 | A round ends after at most 15 cycles, for every number of samples and every sequence of victims and pollutors |
| `SampleRounds.StillRunning` | nightwatch_v1.01_serial/chunk_monitor.c:246-270 | While its tests fail a round has at most 14 cycles |
| `SampleRounds.FifteenHappens` | nightwatch_v1.01_serial/chunk_monitor.c:246-261 | There is a round of exactly 15 cycles, with 40 samples and 8 base cycles |
| `SamplePlacement.PageDown` | nightwatch_v1.01_serial/config.h:56-57 | The page that holds an address |
| `SamplePlacement.WatchedRange` | nightwatch_v1.01_serial/chunk_monitor.c:588-592 | Every chunk has at least one whole page to watch, inside its first max(size, 8192) bytes |
| `SamplePlacement.InItsPart` | nightwatch_v1.01_serial/chunk_monitor.c:542-545 | Before the clamp, sample i lies on a page of the i-th part of the range |
| `SamplePlacement.MayGet` | nightwatch_v1.01_serial/chunk_monitor.c:533-550 | The pages that sample i may get, depending on rand(), are all whole pages of the i-th part and no others |
| `SamplePlacement.LastPage` | nightwatch_v1.01_serial/chunk_monitor.c:533-550 | The last page watched may get a sample exactly if the range is a multiple of the number of samples |
| `SamplePlacement.Placement` | nightwatch_v1.01_serial/chunk_monitor.c:523-550 | At least one sample; all on whole pages inside the watched range, each after the one before; the final clamp changes none |
| `SamplePlacement.NeighboursMeet` | nightwatch_v1.01_serial/chunk_monitor.c:588-591 | monit_chunk taken alone: the watched part of a chunk reaches into a later chunk's exactly if the first is smaller than 8192 bytes and the other starts close enough |
| `SamplePlacement.NeighboursClash` | nightwatch_v1.01_serial/chunk_monitor.c:588-605 | monit_chunk taken alone: were it given two chunks of 16 bytes side by side, they would get a sample on the same page, whatever rand() yields |
| `SamplePlacement.ApartWatched` | nightwatch_v1.01_serial/chunk_monitor.c:588-591 | Chunks whose extents, of 8192 bytes at least, do not overlap have no page to watch in common |
| `SamplePlacement.SampledIsWhole` | nightwatch_v1.01_serial/chunk_predictor.c:26-73 | A chunk that NightWatch_sampling hands to monit_chunk has its extent allocated by NightWatch_size_demand, whatever its size, exactly if the number of chunks to skip is not negative |
| `SamplePlacement.FortySamples` | nightwatch_v1.01_serial/chunk_monitor.c:523-568 | A chunk of 290 pages can have 40 samples, and has 8 base cycles |
| `SamplePlacement.BaseSampleCycle` | nightwatch_v1.01_serial/chunk_monitor.c:552-568 | Two cycles, one more for each bit of the range in 16 kB units, eight at most |
| `MonitorState.ConclusionIff` | nightwatch_v1.01_serial/chunk_predictor.c:147-160 | In whole numbers: restrict exactly if there were references, and at least nine in ten of them were pollutors |
| `MonitorState.SampleStep` | nightwatch_v1.01_serial/chunk_monitor.c:355-475 | One sample changes, with its page's protection and its timer |
| `MonitorState.ChunkStep` | nightwatch_v1.01_serial/chunk_monitor.c:230-294 | One chunk changes, with its revival's timer |
| `MonitorState.SampleLeaves` | nightwatch_v1.01_serial/chunk_monitor.c:159-175 | A sample leaves |
| `MonitorState.ChunkJoins` | nightwatch_v1.01_serial/chunk_monitor.c:587-597 | A chunk enters |
| `MonitorState.SampleJoins` | nightwatch_v1.01_serial/chunk_monitor.c:601-613 | A sample enters |
| `MonitorState.NoSampleThere` | nightwatch_v1.01_serial/chunk_monitor.c:588-605 | No live sample lies in the watched part of a chunk whose extent is apart from those of all live chunks |
| `MonitorState.AttachIff` | nightwatch_v1.01_serial/chunk_monitor.c:601-613 | Samples and chunks stay in order exactly if the page had no sample: else one sample object ends up on two lists, or twice on one |
| `MonitorState.ChunkLeaves` | nightwatch_v1.01_serial/chunk_monitor.c:640-647 | A chunk leaves |
| `MonitorState.CountKeeps` | nightwatch_v1.01_serial/chunk_monitor.c:311-320 | One reference is counted: victims and pollutors make up the total, which stays below the number of samples until the cycle is full |
| `MonitorState.CycleKeeps` | nightwatch_v1.01_serial/chunk_monitor.c:262-268 | A full cycle is added up: total is cycles times samples |
| `MonitorState.RoundEnds` | nightwatch_v1.01_serial/chunk_monitor.c:255-285 | A settled round concludes, and from the second on the conclusion is the mapping |
| `MonitorState.ReviveKeeps` | nightwatch_v1.01_serial/chunk_monitor.c:477-490 | A revived round starts at zero |
| `MonitorState.RoundLength` | nightwatch_v1.01_serial/chunk_monitor.c:247-261 | A finished round took its base cycles at least and 15 at most |
| `MonitorState.EveryRoundEnds` | nightwatch_v1.01_serial/chunk_monitor.c:230-294 | In every state of the monitor: a round under way has closed at most 14 cycles, a finished one at most 15 |
| `MonitorState.ConcludedRight` | nightwatch_v1.01_serial/chunk_monitor.c:271-291 | In every state of the monitor: a finished round has concluded to restrict, and a revival is queued, exactly if at least nine in ten of its references were pollutors; the heap type is as it came after the first round, and what was concluded after any later one |
| `MonitorState.RoundGoesOn` | nightwatch_v1.01_serial/chunk_monitor.c:355-436 | In every state of the monitor: each sample of a chunk under monitoring waits for a fault on its page, which is protected, or for its timer, which is queued |
| `MonitorState.SwitchesAreLate` | nightwatch_v1.01_serial/chunk_monitor.c:271-285 | A switch at the end of round k means k is at least 2 and all rounds before concluded restrict; after round 2 only a switch back to open is possible, and it is the last |
| `MonitorState.SwitchedMapping` | nightwatch_v1.01_serial/chunk_monitor.c:209-224 | In every state of the monitor: a heap type other than the one the chunk came with was concluded by its latest round, which is at least the second, with all earlier ones concluding restrict |
| `MonitorState.FirstSwitch` | nightwatch_v1.01_serial/chunk_monitor.c:283-285 | The round of the first switch exists, and is not the first |
| `ChunkMonitor.Monitor.constructor` | nightwatch_v1.01_serial/chunk_monitor.c:649-686 | No chunk, no sample, no event |
| `ChunkMonitor.Monitor.Pend` | nightwatch_v1.01_serial/event_queue.c:116-132 | The queue is held, the timer off |
| `ChunkMonitor.Monitor.Resume` | nightwatch_v1.01_serial/event_queue.c:135-166 | The queue is free again: what is due is fired, and the timer is set, strictly after now, if anything is left |
| `ChunkMonitor.Monitor.Dispatch` | nightwatch_v1.01_serial/event_queue.c:92-113 | All due timers are fired, and what fired is what changes: a skipped sample is set to count its next fault, one that has counted to take a first access, those of a finished chunk go out of use, and a revived chunk starts anew |
| `ChunkMonitor.Monitor.BurstSkipHandler` | nightwatch_v1.01_serial/chunk_monitor.c:396-436 | The sample waits for a fault on its page, to be counted if it was skipping a burst, or is out of use if the round is over; the assertions in the handler hold |
| `ChunkMonitor.Monitor.PageSampleComplete` | nightwatch_v1.01_serial/chunk_monitor.c:230-294 | Nothing happens unless a cycle is full; else the cycle is closed, and the round with it if it settles |
| `ChunkMonitor.Monitor.CloseCycle` | nightwatch_v1.01_serial/chunk_monitor.c:262-268 | The cycle is closed |
| `ChunkMonitor.Monitor.EndRound` | nightwatch_v1.01_serial/chunk_monitor.c:271-291 | The round is over: mapping, round state, and, exactly if nine in ten references were pollutors, the revival, queued SAMPLE_INTERVAL from now |
| `ChunkMonitor.Monitor.Conclude` | nightwatch_v1.01_serial/chunk_monitor.c:271-285 | ... restrict is concluded exactly then |
| `ChunkMonitor.Monitor.AddTimer` | nightwatch_v1.01_serial/event_queue.c:169-204 | A timer is queued, with the delay from now as its trigger, and due ones are fired; the queue is pending afterwards exactly if it was before |
| `ChunkMonitor.Monitor.ReviveHandler` | nightwatch_v1.01_serial/chunk_monitor.c:477-505 | A new round starts; exactly the idle samples of the chunk are set up again, each as a new one that waits for its first fault |
| `ChunkMonitor.Monitor.ReviveSamples` | nightwatch_v1.01_serial/chunk_monitor.c:492-502 | ... its loop |
| `ChunkMonitor.Monitor.PageFault` | nightwatch_v1.01_serial/chunk_monitor.c:438-475 | A fault on a guarded page: sample and chunk change as the counters say, and the page is unprotected; if the round is over, only the sample goes out of use |
| `ChunkMonitor.Monitor.Collect` | nightwatch_v1.01_serial/chunk_monitor.c:355-392 | collect_page_sample: what sample and chunk become, a cycle and a round that end included; the timer comes after the burst length if the sample is skipping, after SAMPLE_FREQUENCY if it has counted |
| `ChunkMonitor.Monitor.Proceed` | nightwatch_v1.01_serial/chunk_monitor.c:383-392 | Its end: the cycle is closed if it is full, and unless that ends the round the sample's timer is queued with the delay given |
| `ChunkMonitor.Monitor.BurstSkipUpdate` | nightwatch_v1.01_serial/chunk_monitor.c:85-119 | The length to skip is renewed exactly if a region's accesses have occurred and the last renewal is long enough ago; it is the time that a region's accesses take at the present rate, rounded down, but the default at least |
| `ChunkMonitor.Monitor.TakeReference` | nightwatch_v1.01_serial/chunk_monitor.c:364-381 | The switch over the sample's state |
| `ChunkMonitor.Monitor.UpdateChunkSample` | nightwatch_v1.01_serial/chunk_monitor.c:296-323 | A burst counts nothing; else one victim or one pollutor, in sample and chunk |
| `ChunkMonitor.TwoFaults` | nightwatch_v1.01_serial/chunk_monitor.c:355-436 | From fault to fault: a first access, its timer, and the next fault, which counts one reference if accesses have risen by a region since the first, a pollutor exactly if misses have risen by the whole cache, and is else none, the sample skipping again |
| `ChunkMonitor.AfterBurst` | nightwatch_v1.01_serial/chunk_monitor.c:355-436 | The same from any skipped burst on; the timer brings the fault back on its trigger at the latest |
| `ChunkMonitor.AfterReferenceFault` | nightwatch_v1.01_serial/chunk_monitor.c:355-436 | After a counted reference and its timer the next fault is a first access, with nothing counted |
| `ChunkMonitor.Wait` | nightwatch_v1.01_serial/chunk_monitor.c:396-436 | The timer of a sample whose round is under way: it waits for a fault that counts if it was skipping, for a first one if not |
| `ChunkMonitor.Monitor.StartTimer` | nightwatch_v1.01_serial/chunk_monitor.c:389-390 | The sample waits for its timer, whose trigger is the delay from now |
| `ChunkMonitor.Monitor.Signal` | nightwatch_v1.01_serial/event_queue.c:229-253 | Nothing happens while the queue is pending; else nothing is due afterwards and the timer is set if anything is queued |
| `ChunkMonitor.Monitor.RemoveTimer` | nightwatch_v1.01_serial/event_queue.c:207-227 | The timer of the key goes, and no other but due ones, and the queue is free; an absent key leaves it pending and changes nothing else |
| `ChunkMonitor.Monitor.RemovePageSample` | nightwatch_v1.01_serial/chunk_monitor.c:159-175 | The sample goes, with its timer and its page's protection, and no other sample |
| `ChunkMonitor.Monitor.RemoveChunkSamples` | nightwatch_v1.01_serial/chunk_monitor.c:177-188 | All samples of the chunk go, and no others |
| `ChunkMonitor.Monitor.LastSampleUpdate` | nightwatch_v1.01_serial/chunk_monitor.c:325-351 | The cycle under way is added up; exactly the samples with a first access behind them that pollute, or all of these if the chunk is no smaller than the cache, count one pollutor more, in sample and chunk |
| `ChunkMonitor.Monitor.LastConclusion` | nightwatch_v1.01_serial/chunk_monitor.c:627-632 | The conclusion that the context is told is drawn from all of these |
| `ChunkMonitor.Monitor.GiveUpRound` | nightwatch_v1.01_serial/chunk_monitor.c:627-640 | A round under way is given up |
| `ChunkMonitor.Monitor.GiveUpRevival` | nightwatch_v1.01_serial/chunk_monitor.c:638-640 | A finished round's revival is taken back, and nothing else of the chunk changes |
| `ChunkMonitor.Monitor.GiveUp` | nightwatch_v1.01_serial/chunk_monitor.c:622-640 | One or the other: the chunk has no timer any more |
| `ChunkMonitor.Monitor.StopMonit` | nightwatch_v1.01_serial/chunk_monitor.c:622-647 | The context is told a conclusion exactly if the round was not over, and that it is restrict exactly if nine in ten references were pollutors, those of the cycle under way and the late ones included; no event names the chunk or any of its former samples, none of its pages is protected, and all other samples and chunks are still there; the queue is not left pending though an absent key may be removed on the way, and has its timer |
| `ChunkMonitor.Monitor.ToldIff` | nightwatch_v1.01_serial/chunk_monitor.c:325-351 | What the context is told, in whole numbers |
| `ChunkMonitor.Monitor.LateCountIs` | nightwatch_v1.01_serial/chunk_monitor.c:333-347 | The late samples are counted each once |
| `ChunkMonitor.ClearOfSamples` | nightwatch_v1.01_serial/chunk_monitor.c:588-605 | A chunk apart from all live ones has no live sample in its watched part |
| `ChunkMonitor.Monitor.RemoveSampleRange` | nightwatch_v1.01_serial/chunk_monitor.c:725-742 | Exactly the pages visited lose their samples, timers and protection |
| `ChunkMonitor.RangeIsCovered` | nightwatch_v1.01_serial/chunk_monitor.c:725-742 | They are all pages of the buffer exactly if the odd bytes at its start and length do not exceed a page together |
| `ChunkMonitor.Monitor.MonitChunk` | nightwatch_v1.01_serial/chunk_monitor.c:570-620 | A new chunk is under monitoring with all counts zero, its base cycles, and a new guarded sample on each page that get_sample_addr gave; a chunk under monitoring stays as it is; the queue is free afterwards, with its timer |
| `ChunkMonitor.Monitor.SetUp` | nightwatch_v1.01_serial/chunk_monitor.c:587-615 | ... while the queue is held |
| `ChunkMonitor.Monitor.AttachSamples` | nightwatch_v1.01_serial/chunk_monitor.c:601-613 | The loop puts a new sample on the page of each get_sample_addr, all of them different |
| `ChunkMonitor.Monitor.AttachSample` | nightwatch_v1.01_serial/chunk_monitor.c:603-611 | One sample is attached |
| `ChunkMonitor.Run` | nightwatch_v1.01_serial/chunk_monitor.c:355-647 | Over every sequence of faults, alarms, starts, stops and removals, for all counters, clocks and random numbers: a sample never waits for both fault and timer, its page is protected exactly while it waits for a fault, its timer queued exactly while it waits for that, one out of use waits for neither, no key is queued twice, and no call leaves the queue pending or a queued event without a timer set; and all of MonitorState; chunks are started wherever their extents do not overlap |
| `HashTable.Slot` | nightwatch_v1.01_serial/utl_hash_map.c:40-54 | Every computed slot is below 2^key_len |
| `HashTable.SmallKeysMeet` | nightwatch_v1.01_serial/utl_hash_map.c:40-54 | In a new table all keys up to 11574 share the first slot, and the next key has the second: the slot is taken out of the middle of a square |
| `HashTable.HashMap.constructor` | nightwatch_v1.01_serial/utl_hash_map.c:82-111 | An empty table of 1024 slots |
| `HashTable.HashMap.Search` | nightwatch_v1.01_serial/utl_hash_map.c:153-169 | The first member of the chain with the key |
| `HashTable.HashMap.Find` | nightwatch_v1.01_serial/utl_hash_map.c:276-288 | What the abstract map binds the key to, nothing if it is not bound |
| `HashTable.HashMap.Rehash` | nightwatch_v1.01_serial/utl_hash_map.c:199-209 | Each member is in the chain of its new slot, and each count is its chain's length |
| `HashTable.HashMap.Rebuild` | nightwatch_v1.01_serial/utl_hash_map.c:177-214 | The size doubles and no lookup changes |
| `HashTable.HashMap.Add` | nightwatch_v1.01_serial/utl_hash_map.c:216-249 | A new key is bound; fill never exceeds half the size by more than one |
| `HashTable.HashMap.Delete` | nightwatch_v1.01_serial/utl_hash_map.c:251-274 | The key is unbound; an absent one changes nothing |
| `HashTable.HashMap.Drop` | nightwatch_v1.01_serial/utl_hash_map.c:269-273 | The member leaves its chain and the list of members |
| `HashTable.FindsNewest` | nightwatch_v1.01_serial/utl_hash_map.c:243-244 | With a key added more than once, a lookup finds the newest |
| `HashTable.FindsOldest` | nightwatch_v1.01_serial/utl_hash_map.c:204-209 | After rebuilding it finds the oldest |
| `HashTable.RebuildKeepsFresh` | nightwatch_v1.01_serial/utl_hash_map.c:177-249 | So rebuilding changes no lookup of an added key, whatever its value, exactly if the key was not in the table |
| `PageSamples.OnePlaceOnePage` | nightwatch_v1.01_serial/page_sample_map.c:109-112 | Two addresses share block and index exactly if they share the page |
| `PageSamples.SetEntry` | nightwatch_v1.01_serial/page_sample_map.c:109-118 | One entry of a block is one page of the flat map, and no other |
| `PageSamples.PageMap.constructor` | nightwatch_v1.01_serial/page_sample_map.c:166-177 | An empty map |
| `PageSamples.PageMap.GetPageBlock` | nightwatch_v1.01_serial/page_sample_map.c:31-49 | With the hot block or without it the answer is what the hash map holds, and that is the hot block afterwards |
| `PageSamples.PageMap.InitPageBlock` | nightwatch_v1.01_serial/page_sample_map.c:51-69 | A new block is entered and changes no lookup |
| `PageSamples.PageMap.PageSampleFree` | nightwatch_v1.01_serial/page_sample_map.c:71-76 | A sample goes from the active to the free list |
| `PageSamples.PageMap.PageSampleAlloc` | nightwatch_v1.01_serial/page_sample_map.c:78-94 | ... or back, or is a new one |
| `PageSamples.PageMap.Exchange` | nightwatch_v1.01_serial/page_sample_map.c:113-121 | A page that has a sample gets the same one again, another gets one that no page has |
| `PageSamples.PageMap.AttachPageSample` | nightwatch_v1.01_serial/page_sample_map.c:96-122 | The flat map is updated at the page, and nowhere else; every sample is on exactly one list |
| `PageSamples.PageMap.DetachPageSample` | nightwatch_v1.01_serial/page_sample_map.c:124-147 | The page loses its sample, and no other page |
| `PageSamples.PageMap.GetPageSample` | nightwatch_v1.01_serial/page_sample_map.c:149-164 | What the flat map holds for the page |
| `PageSamples.PageMap.ActivePages` | nightwatch_v1.01_serial/page_sample_map.c:206-218 | The length of the active list is the number of pages that have a sample |
| `Bitmaps.Bitmap.NewBitmap` | nightwatch_v1.01_serial/utl_bitmap.c:17-42 | Null exactly for a size of zero or less; else all bits up to the size are as asked, and none beyond is set |
| `Bitmaps.Bitmap.BitTest` | nightwatch_v1.01_serial/utl_bitmap.c:53-65 | The bit, 0 out of range |
| `Bitmaps.Bitmap.SetBit` | nightwatch_v1.01_serial/utl_bitmap.c:68-80 | Exactly that bit is set, and never one at or beyond the size |
| `Bitmaps.Bitmap.ClrBit` | nightwatch_v1.01_serial/utl_bitmap.c:83-95 | Exactly that bit is cleared |
| `Bitmaps.Bitmap.UpwardBitTest` | nightwatch_v1.01_serial/utl_bitmap.c:98-128 | For every size an int can have: the least one bit at or above n, -1 if there is none or n is out of range; or an access behind the last word, exactly if no bit is found and the words hold more bits than an int can count |
| `Bitmaps.Bitmap.DownwardBitTest` | nightwatch_v1.01_serial/utl_bitmap.c:130-161 | The greatest one bit at or below n; -1 exactly if there is none, or n is out of range |
| `Bitmaps.ScanStays` | nightwatch_v1.01_serial/utl_bitmap.c:98-128 | For every size: the upward scan stays in the map and returns the least one bit at or above n, or -1, for all contents and every n, exactly if the words hold no more bits than an int can count |
| `Bitmaps.RunsPast` | nightwatch_v1.01_serial/utl_bitmap.c:98-128 | An empty bitmap of size 0x7fffffff, searched from 0: the scan runs past the last word |
| `Bitmaps.LeastFrom` | nightwatch_v1.01_serial/utl_bitmap.c:98-128 | The least one bit at or above an index; -1 exactly if there is none |
| `Bitmaps.UpWord` | nightwatch_v1.01_serial/utl_bitmap.c:115-124 | What the upward scan learns of one word |
| `Bitmaps.DownWord` | nightwatch_v1.01_serial/utl_bitmap.c:147-158 | What the downward scan learns of one word |

## Left out

- The parallel NightWatch (`nightwatch_beta_v2.0_parallel`) and the allocator's extension to several heap types: one heap type throughout.
- Foreign calls: mprotect is a set of guarded pages, the readings of the performance counters (differences of which are taken as 64-bit ones) and rand() are inputs, the clock is an input that stands still during one dispatch and never goes back, and pow(pages, 0.65) is any number from 1 to the number of pages.
- The page heap and Span: a nondeterministic source and sink of spans that do not overlap. page_heap.cc, span.cc and thread_cache.cc are not part of this model; what a thread cache holds is the set of objects handed out.
- TCMALLOC_SMALL_BUT_SLOW, EvictRandomSizeClass's counter (any class may be picked), ASSERTs switched off by `if (false)`, logging.
- CentralModel: chains are sequences, whose link words are in `CentralMemory` and `CentralFreeList`; of the two lists of spans the order is modelled, not the doubly-linked nodes.
- CentralTheorems.RemoveReturns: chains are sequences here; that the chain is linked from *start to *end and NULL-terminated is CentralMemory.ReturnsChain and CentralFreeList.List.RemoveRange.
- CentralFreeList.List.Populate: the states other threads may leave where the lock is dropped are given as further lists, which are any that the invariant allows (CentralViews.ListInRun); the span is carved after the lock is back, since until then nobody else knows it.
- CentralFreeList.List.ReleaseListToSpans: the page heap taking a span back is part of what happens while the lock is dropped; that no other object of the span is in use is CentralRelease.LastInUse.
- Machine words: shifts, masks and single bits are written as arithmetic on numbers, or a word as its bits; unsigned sums stay below 2^64 (ranges and chunks end below the top of the address space). The bitmap's int counter and the size_t comparison of Init's loop do wrap.
- IEEE rounding: rates of the monitor are exact rationals, and 64.0 * 1024.0 / size is exact.
- AddressMap and HashTable: block lists and chains are sequences of entries, with the identity of the entry objects kept for the free list of AddressMap; the recycling of map members and events in NightWatch is not modelled. The sentinel test of get_map_member is plain found or not found, and a table has at most 2^15 slots, as get_map_slot's shifts need.
- HashTable.HashMap.Add: the key is not in the table, and the table has not outgrown 2^15 slots; what lookups find with a key added twice is HashTable.FindsNewest, FindsOldest and RebuildKeepsFresh.
- EventQueue.Queue.MakeCall: handlers add only keys that are not queued, with delays above the resolution, and remove only keys that are queued; the conditions under which the queue works, see above for what happens otherwise.
- EventQueue.Queue.AddTimeEvent: the key is not queued already and the delay exceeds the resolution; the index holds one event per key, and shorter delays are Timers.AtOnce and EventQueue.DispatchEnds.
- EventQueue.Run: calls from outside add under the same conditions; they may remove any key, and pend and resume at any time.
- ChunkMonitor.Monitor.AddTimer: as EventQueue.Queue.AddTimeEvent; the monitor's handlers add no key twice and wait longer than the resolution.
- ChunkMonitor.Monitor.MonitChunk: a chunk whose monitoring is finished is not started again before it is stopped, and a new one does not overlap the live ones, which is what the allocator guarantees (SamplePlacement.SampledIsWhole).
- ChunkMonitor.Run: chunks are started under the same conditions, and removed from samples page range by page range as the caller says.
- ChunkMonitor.Monitor.StopMonit: what the context does with a conclusion (its two last predictions, the size-to-mapping table, skip_interval) is not part of this model; the conclusion itself is, at the end of a round and of a chunk.
- SizeClasses.SizeTable.Init: does not model the crash on a number of classes other than kNumClasses; the number is whatever the loop finds. MetaDataAlloc, pages() and OverheadBytes are left out as shallow.
- HeapChecker.Checker.LeakCheck: the areas of each flood are given; finding stacks, registers, thread data and libraries, stopping threads, symbols, reports and flags are left out, as is skipping unreadable areas.
- ProfileTable.Table.RecordAlloc: the bucket is given; GetBucket's hashing of stack traces and the text of profiles are left out. bucket_rep is modelled by SetBucket, SetLive and SetIgnore, and as a record elsewhere.
- PackedCache: one thread; the races its header allows are left out.
- PageSamples: the table of blocks is the finite map that HashTable is proved to be, and samples are known by number; page_sample_map_destroy is left out.
- Destructors and delete functions, the other monitors' statistics, heap-profiler.cc, debugallocation.cc and the malloc hooks.
