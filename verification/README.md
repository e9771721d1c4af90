# Verified model of a paged KV cache

The repository is a small virtual-memory system for the key/value caches of a language model:
a pool of physical frames with reference counts and swap slots, page tables per sequence and
layer, copy-on-write forks, a prefix index that pins frames, a continuous-batching scheduler
that admits and preempts against the pool, decode-attention kernels that read through the page
tables, and a cache object that puts a model on top. This project models those parts in Dafny
and proves what they are for.

`dafny verify dfyconfig.toml` checks everything.

## How the model is laid out

- Each file holds the module of its name. `FramePool`, `SwapStore`, `PageTable` and `CacheStore`
  describe one call each as a function on values; `MemoryAllocator` (in `Allocator`),
  `HostSwapBackend` (in `SwapStore`), `BlockTable` (in `PageTable`) and `KVCacheManager` (in
  `CacheManager`) are classes with the program's fields and loops, and each method's contract ties
  its new state to those functions.
- `CacheAccounting` states reference conservation: every count equals the resident entries
  mapping the frame plus its prefix pins, and live slots match swapped entries. `PrivateStore` is
  the store a client may imagine, in which every sequence owns its bytes. `CacheRefinement`,
  `CacheWrites`, `CacheLifecycle`, `CacheSharing` and `CachePrefixes` prove call by call that the
  shared store behaves as the private one; `CacheSupply` says when each call succeeds and how many
  blocks an eviction takes; `CacheRuns`, `CacheTheorems` and `CacheIsolation` extend that to runs, and
  `CacheLabels` follows the labels and flags of page-table entries through them.
- `PrefixCounts` says what the token count of a key means for an attachment and for the ledger's
  discount; `FrameReuse` in which order frames are handed out.
- `SchedulerModel` is the scheduler as a value and `SchedulerObject` has the class. Plans
  (`SchedulerPlans`, `SchedulerBudget`), admission and reclaim rounds (`SchedulerRounds`), books and
  prefill progress (`SchedulerLedger`, `SchedulerProgress`), fairness, capacity, refusals and readings
  each have a module. The capacity and reading results use the
  cache's own theorems, so they hold for the real page tables and not for an abstract allocator.
- `Softmax` is the algebra of rescaled sums over the reals, with the exponential as a parameter
  that is positive, turns sums into products and maps 0 to 1, and an explicit minus infinity.
  `AttentionSpec` says what decode attention means; four CPU kernels and the GPU kernels with
  their merge are proved to compute it. `AttentionReference` writes the output out element by element
  from the bytes a sequence reads, layer included. `CacheLayout` and `CacheViews` are the addressing below.
- `PagedPoolModel`, `PagedPoolMemos` and `PagedPoolRuns` show that the memo tables of the
  transformers cache agree with the page table; `PagedRows`, `PagedLayers` and `PagedCacheRuns` that
  the cache is an append list per layer and branch; `PagedDecode` that the GPU kernels attend to that
  list; `PagedCacheObjects` has the two classes.
- `Contiguous` is the contiguous-allocation baseline of the trace replay, and `ReplaySchedule` the
  schedule it follows, told without its loops.
- `CacheShortfalls`, `SchedulerShortfalls`, `SchedulerResume`, `PrefixShortfalls` and
  `PagedPoolShortfalls` show, by short runs from unused pools, inputs at which the code falls short.

Proofs are assembled from many small lemmas. A `hide` statement at the head of a proof keeps the
definitions out of it, so that it runs on the contracts of the lemmas it calls.

## What the code does not keep

Where a promise fails, the model follows the code, states when it holds, and shows an input that a
short run reaches:

- Cancelling a preempted request subtracts its lifetime a second time
  (`SchedulerLedger.CancelKeepsBooksIff`, `SchedulerShortfalls.DoubleSubtractionIsReachable`).
- Publishing under a second key leaves the old record's user count behind
  (`CacheSharing.PublishKeepsPrefixesIff`, `CacheShortfalls.SecondKeyIsReachable`).
- A refused admission releases earlier sequences of the same request along with the new one
  (`SchedulerCache.RefusalLeavesNoTrace`, `SchedulerShortfalls.RefusalReleasesEarlierSequence`).
- Resuming a preempted request adds its lifetime back without looking at the pool's size or at
  `max_active_requests`: the ledger can exceed the pool (`SchedulerResume.ResumeWithinLimitsIff`,
  `SchedulerResume.ResumeOvercommits`).
- The frames of a shared prefix are charged to the request that published it, and leave the ledger
  with it while others still map them: a later admission can take the frames another request declared,
  whose growth then fails (`PrefixShortfalls.SharedPrefixStarvesGrowth`; `SchedulerCapacity.GrowthSucceedsIff`
  says when a growth succeeds, and `SchedulerNoStall.NoDecodeStall` that it never fails without prefixes,
  forks, preemption and resumption).
- Preempting a request and resuming it at once can fail, when blocks it already had in swap no longer
  fit (`SchedulerCache.PreemptThenResume`, `SchedulerResume.ResumeFailsAfterPreempt`).
- A swap-in of an unknown slot advances the generation of the frame it tried
  (`FramePool.SwapInGeneration`, `CacheShortfalls.UnknownSlotAges`); the manager never asks for one
  (`CacheShortfalls.SwappedBlockHasSlot`).
- A growth that runs out of frames midway leaves a recorded table length stale
  (`PagedPoolMemos.EnsureCapacityIs`, `PagedPoolShortfalls.StaleLengthIsReachable`).
- The frame remembered for a write survives a fork: asked again for the same token, the pool returns
  a frame the child maps as well (`PagedPoolMemos.WritableFrameIsOwnIff`,
  `PagedPoolShortfalls.StaleFrameIsReachable`). Layers never ask, because a fork falls between steps
  and the next step writes the next token (`PagedCacheRuns.PagedCacheIsAppendList`).
- A request for no blocks is never placed on an idle pool, so a replay can stop early with it at
  the head (`Contiguous.RunContiguous` says when; `Contiguous.NothingIsNeverServed` is an input).
- A fork clears the `writable` flag in the child only; ownership is decided by the reference count
  (`PageTable.ForkSharesEveryMapping`).
- The third refusal test of an admission (src/Scheduler.cpp:114-117) can never be the one that
  fires; it is part of the model's condition all the same.

## Model

| member | source | states |
|---|---|---|
| `CacheTheorems.SharingIsInvisible` | src/KVCacheManager.cpp:155-541 | over every run of calls (one discipline: no second key for a published sequence) the invariant holds, every sequence reads, block by block, what a store of private copies would hold after the same calls with the same results, and each of those results is the one the private copies and the supply (free frames, swap slots left, frame width, and for each block whether it is alone, shared or in swap) call for, the number of frames each eviction frees included |
| `CacheTheorems.StepRefinesPrivateCopies` | src/KVCacheManager.cpp:136-541 | each public call, succeeding or failing, does to readings exactly what it does to private copies; only the bytes of freshly reserved blocks are left open |
| `CacheTheorems.StepAnswers` | src/KVCacheManager.cpp:136-541 | exactly when each call succeeds, from the private copies and the supply alone: a fork or a publication is refused for a swapped block, a write for a swapped block or for want of a frame to copy a shared one to, a reservation or a restore for want of frames, an attach never for want of memory; an eviction reports, frees and moves to swap exactly the lesser of the unshared resident blocks and the slots left, none without a backend |
| `CacheTheorems.ReferencesAreConserved` | src/MemoryAllocator.cpp:97-129 | in every reachable state a frame's reference count is the number of resident entries mapping it plus its prefix pins, and it is on the free list exactly when that is zero |
| `CacheTheorems.SlotsMatchSwappedEntries` | src/KVCacheManager.cpp:290-322 | live swap slots and swapped-out entries correspond one to one |
| `CacheTheorems.NothingLeaks` | src/KVCacheManager.cpp:367-386 | with no sequence left there is no record, no index entry, no slot, and every frame is free |
| `CacheTheorems.DrainedRunLeaksNothing` | src/KVCacheManager.cpp:367-386 | every run that ends with no sequence ends with an empty pool and no live slot |
| `CacheTheorems.FreshStoreInv` | src/KVCacheManager.cpp:37-37 | a store over an unused pool satisfies the invariant and reads as nothing |
| `CacheTheorems.RestoreRequestAllOrNothing` | src/KVCacheManager.cpp:404-429 | restoring a request succeeds exactly when its swapped blocks fit the free frames, leaves none swapped and every reading as it was; otherwise nothing changes |
| `CacheTheorems.EvictRequestRefines` | src/KVCacheManager.cpp:396-402 | evicting a request changes no reading, frees exactly as many frames as it reports and swaps as many entries |
| `CacheTheorems.SwapRoundTrip` | src/KVCacheManager.cpp:396-429 | evicting and restoring at once succeeds exactly when the blocks already in swap fitted before, and every reading is back |
| `CacheTheorems.ReleaseEachRefines` | src/KVCacheManager.cpp:431-436 | releasing a list of sequences removes exactly those and leaves private copies of the rest |
| `CacheIsolation.OthersUntouched` | src/KVCacheManager.cpp:155-386 | a call on one sequence, a failed call included, changes the bytes of no other sequence |
| `CacheIsolation.PublishedPrefixesAreFrozen` | src/KVCacheManager.cpp:449-496 | while a record lives its saved bytes are those saved at its first publication, whatever the publisher writes afterwards |
| `CacheIsolation.AttachReadsPublishedBytes` | src/KVCacheManager.cpp:498-541 | attaching to an empty sequence yields, in every table, the first publisher's bytes at publish time |
| `CacheSharing.PublishKeepsPrefixes` | src/KVCacheManager.cpp:449-496 | publishing keeps hashes under a key distinct and each user count equal to the sequences holding that key and hash |
| `CacheSharing.PublishKeepsPrefixesIff` | src/KVCacheManager.cpp:457-494 | a publication keeps every user count exactly when the call is refused before it starts (no key, no such sequence, no block, a block in swap) or the sequence holds no key or this one |
| `CacheSharing.SecondKeyBreaksUserCount` | src/KVCacheManager.cpp:457-494 | publishing under a second key overwrites the first without dropping its user: the old record's count no longer matches |
| `CacheSharing.AttachRefines` | src/KVCacheManager.cpp:498-541 | attach succeeds exactly for an empty sequence under a key with one record, keeps all invariants and reads as a private copy of the saved bytes |
| `CachePrefixes.DropKeepsPrefixes` | src/KVCacheManager.cpp:101-134 | dropping a user keeps every record's count exact and changes only that sequence's key |
| `CacheRefinement.CreateRefines` | src/KVCacheManager.cpp:136-153 | creating fails exactly for a known id and otherwise adds an empty private sequence |
| `CacheRefinement.ForkRefines` | src/KVCacheManager.cpp:155-189 | forking succeeds exactly for a live, fully resident parent and a fresh child, which then reads a copy |
| `CacheRefinement.ReserveRefines` | src/KVCacheManager.cpp:191-233 | reserving succeeds exactly when the pool has the rounded-up blocks for every table, appends that many, and changes nothing otherwise |
| `CacheWrites.EnsureWritableRefines` | src/KVCacheManager.cpp:235-288 | the call succeeds exactly for a mapped resident block that is private or can be copied; afterwards the frame is held by nobody else and no reading changed |
| `CacheWrites.StoreRefines` | src/KVCacheManager.cpp:235-288 | storing into the frame so obtained changes one block of one sequence |
| `CacheWrites.WriteRefines` | src/KVCacheManager.cpp:235-288 | materialise-then-write changes exactly the written block, or nothing when it fails |
| `CacheWrites.PositionsDiffer` | src/KVCacheManager.cpp:155-233 | one sequence never maps one frame, or holds one slot, at two positions |
| `CacheLifecycle.SwapOutRefines` | src/KVCacheManager.cpp:290-322 | evicting a sequence changes no reading and keeps the reference accounting |
| `CacheLifecycle.SwapInRefines` | src/KVCacheManager.cpp:324-365 | restoring a sequence succeeds exactly when its swapped blocks fit, and changes no reading |
| `CacheLifecycle.ReleaseRefines` | src/KVCacheManager.cpp:367-386 | releasing drops the prefix user, returns every frame and slot and removes the private copy |
| `CacheLifecycle.PublishRefines` | src/KVCacheManager.cpp:449-496 | publishing saves a copy of the bytes or joins the copy with the same hash |
| `PrefixCounts.CountsOneRecord` | src/KVCacheManager.cpp:438-447 | a key answers 0 exactly when it has no record or more than one, and otherwise with its record's tokens |
| `PrefixCounts.AttachTakesTheCount` | src/KVCacheManager.cpp:498-541 | an attachment that succeeds reports the count the key answered with before the call, which is the attached table's blocks times the tokens per block, in every table; no frame leaves the free list |
| `PrefixCounts.FirstPublicationCounts` | src/KVCacheManager.cpp:449-496 | after the first publication under a key the count is the publisher's blocks times the tokens per block |
| `CacheRuns.SequencesForLists` | src/KVCacheManager.cpp:388-394 | the request index lists each request's live sequences, each once |
| `CacheRuns.IndexRemoves` | src/KVCacheManager.cpp:53-63 | unindexing removes the sequence and erases an emptied list |
| `CacheLabels.StepMarks` | src/KVCacheManager.cpp:136-541 | every call changes what entries say about themselves as stated and in no other way: a reservation appends writable blocks of the sequence's own, a fork hands the parent's blocks to the child with their flags cleared, a write sets the flag of the block it made its own, an attachment starts with blocks that are not writable |
| `CacheLabels.LabelsOverRuns` | src/KVCacheManager.cpp:218-229 | over every run entry i of every table says it is block i of that sequence, starting at the token that block starts at |
| `CacheManager.KVCacheManager.Create` | src/KVCacheManager.cpp:136-153 | the object's new state and result are those of the store model |
| `CacheManager.KVCacheManager.ForkFrom` | src/KVCacheManager.cpp:155-189 | checks residency first, then retains entry by entry; new state as in the store model |
| `CacheManager.KVCacheManager.Reserve` | src/KVCacheManager.cpp:191-233 | the up-front capacity check, then the nested growth loops; new state as in the store model |
| `CacheManager.KVCacheManager.EnsureWritable` | src/KVCacheManager.cpp:235-288 | copy-on-write on the object; new state and frame as in the store model |
| `CacheManager.KVCacheManager.Write` | src/KVCacheManager.cpp:235-288 | materialise, then store into the frame handed out |
| `CacheManager.KVCacheManager.SwapOutOne` | src/KVCacheManager.cpp:290-322 | two passes per table; new state and count as in the store model |
| `CacheManager.KVCacheManager.SwapInOne` | src/KVCacheManager.cpp:324-365 | counts, checks capacity, then restores; no slot fails midway |
| `CacheManager.KVCacheManager.ReleaseOne` | src/KVCacheManager.cpp:367-386 | drops the prefix user, frees every entry, unindexes and erases |
| `CacheManager.KVCacheManager.SwapOutRequested` | src/KVCacheManager.cpp:396-402 | sequence after sequence, adding up what was evicted |
| `CacheManager.KVCacheManager.SwapInRequested` | src/KVCacheManager.cpp:404-429 | counts the whole request first, then restores |
| `CacheManager.KVCacheManager.ReleaseRequested` | src/KVCacheManager.cpp:431-436 | releases a snapshot of the request's sequences |
| `CacheManager.KVCacheManager.PrefixTokens` | src/KVCacheManager.cpp:438-447 | the count `PrefixCounts` specifies: the record's tokens for a key with exactly one record, 0 otherwise; what an attachment then maps (`PrefixCounts.AttachTakesTheCount`) |
| `CacheManager.KVCacheManager.Publish` | src/KVCacheManager.cpp:449-496 | new state as in the store model; the books stay sound exactly when no sequence gets a second key |
| `CacheManager.KVCacheManager.Attach` | src/KVCacheManager.cpp:498-541 | deals the pinned frames out to the tables; new state as in the store model |
| `CacheManager.KVCacheManager.DropUser` | src/KVCacheManager.cpp:101-134 | new state as in the store model, in the middle of a release |
| `CacheManager.KVCacheManager.UnindexSequence` | src/KVCacheManager.cpp:53-63 | removes every occurrence and erases an empty list |
| `CacheManager.TwoPassesEvict` | src/KVCacheManager.cpp:298-320 | collecting resident indices first and evicting them afterwards does what one pass over the table does |
| `CacheManager.SwapInTableOn` | src/KVCacheManager.cpp:344-363 | every restore in the loop finds a frame, given the capacity check |
| `CacheManager.GrowTableOn` | src/KVCacheManager.cpp:211-231 | every allocation in the loop succeeds, given the capacity check |
| `CacheManager.FindRecordIndex` | src/KVCacheManager.cpp:116-121 | the first record with that hash |
| `PageTable.MapEntryUpdatesMap` | src/BlockTable.cpp:48-63 | mapping keeps the vector sorted and overwrites one key of the finite map it stands for |
| `PageTable.UnmapUpdatesMap` | src/BlockTable.cpp:65-74 | unmapping keeps it sorted, deletes one key and returns its frame |
| `PageTable.LookupAgreesWithMap` | src/BlockTable.cpp:76-85 | lookup is the map's value, or nothing for a missing or swapped entry |
| `PageTable.FindAgreesWithMap` | src/BlockTable.cpp:87-101 | the binary search finds exactly the keys of the map |
| `PageTable.SortedTableIsCanonical` | src/BlockTable.cpp:10-25 | two sorted vectors with the same map are the same vector |
| `PageTable.ForkSharesEveryMapping` | src/BlockTable.cpp:113-121 | a fork maps and looks up as its parent does; only the child's writable flags are cleared |
| `PageTable.DenseLowerBound` | src/BlockTable.cpp:10-25 | on a gap-free table the search is the index itself |
| `PageTable.BlockTable.FindLowerBound` | src/BlockTable.cpp:10-25 | the halving loop returns the lower bound |
| `PageTable.BlockTable.Map` | src/BlockTable.cpp:48-63 | insert or overwrite in place, stated on the map |
| `PageTable.BlockTable.UnmapBlock` | src/BlockTable.cpp:65-74 | erase in place, stated on the map |
| `PageTable.BlockTable.LookupBlock` | src/BlockTable.cpp:76-85 | agrees with the map |
| `PageTable.BlockTable.SetWritable` | src/BlockTable.cpp:103-107 | changes one flag and nothing else |
| `PageTable.BlockTable.ForkTable` | src/BlockTable.cpp:113-121 | a fresh table equal to the fork; the parent is unchanged |
| `FramePool.AllocateAccounted` | src/MemoryAllocator.cpp:83-95 | a new reference to a frame nobody held; bytes untouched |
| `FramePool.RetainAccounted` | src/MemoryAllocator.cpp:117-129 | one more reference, nothing else |
| `FramePool.ReleaseAccounted` | src/MemoryAllocator.cpp:97-115 | one reference fewer; the frame joins the free list exactly with the last one |
| `FramePool.CopyAccounted` | src/MemoryAllocator.cpp:135-149 | the destination reads as the source, everything else as before |
| `FramePool.SwapOutAccounted` | src/MemoryAllocator.cpp:169-196 | a sole reference becomes a slot holding the same bytes, or nothing changes |
| `FramePool.SwapInAccounted` | src/MemoryAllocator.cpp:198-216 | a slot becomes a frame with the same bytes and the slot is gone |
| `FramePool.DiscardAccounted` | src/MemoryAllocator.cpp:218-222 | one slot reference fewer, nothing else |
| `FramePool.GenerationAdvancesWhenFreed` | src/MemoryAllocator.cpp:97-115 | a generation advances, by one, exactly when the frame's last reference goes |
| `FramePool.SwapInGeneration` | src/MemoryAllocator.cpp:198-216 | a swap-in keeps to that rule exactly when there is no backend, no free frame, or the slot is known |
| `FramePool.StatisticsAgree` | src/MemoryAllocator.cpp:242-269 | free counter and free list agree, and the states partition the pool |
| `FrameReuse.LastReleasedFirstAllocated` | src/MemoryAllocator.cpp:83-115 | frames released one after the other come back in reverse order, and no other frame moves in the free list |
| `FrameReuse.NewPoolCountsDown` | src/MemoryAllocator.cpp:59-95 | a new pool hands out its frames from the highest id down, and then no more |
| `FramePool.RetainAllAccounted` | src/KVCacheManager.cpp:172-185 | retaining a list of held references adds exactly those |
| `FramePool.FreeAllAccounted` | src/KVCacheManager.cpp:373-383 | freeing a list of references removes exactly those and disturbs no kept content |
| `SwapStore.StoreThenLoad` | src/SwapBackend.cpp:10-39 | a stored block loads back; other slots are untouched; ids are never reused |
| `SwapStore.HostSwapBackend.StoreBlock` | src/SwapBackend.cpp:10-23 | a fresh slot id, or nothing at capacity |
| `SwapStore.HostSwapBackend.LoadBlock` | src/SwapBackend.cpp:25-39 | overwrites the head of the block, or reports failure |
| `Allocator.MemoryAllocator.AllocateFrame` | src/MemoryAllocator.cpp:83-95 | LIFO allocation on the object, as in the pool model |
| `Allocator.MemoryAllocator.ReleaseFrame` | src/MemoryAllocator.cpp:97-115 | as in the pool model |
| `Allocator.MemoryAllocator.RetainFrame` | src/MemoryAllocator.cpp:117-129 | as in the pool model |
| `Allocator.MemoryAllocator.CopyFrame` | src/MemoryAllocator.cpp:135-149 | as in the pool model |
| `Allocator.MemoryAllocator.SwapOutFrame` | src/MemoryAllocator.cpp:169-196 | as in the pool model |
| `Allocator.MemoryAllocator.SwapInSlot` | src/MemoryAllocator.cpp:198-216 | as in the pool model, handing the frame back on a failed load |
| `Allocator.MemoryAllocator.SetSwapBackend` | src/MemoryAllocator.cpp:165-167 | any backend whose slots hold whole frames takes the place of the old one, and nothing else changes |
| `Allocator.MemoryAllocator.Stats` | src/MemoryAllocator.cpp:242-269 | one pass over the states gives counters that partition the pool |
| `Allocator.MemoryAllocator.constructor` | src/MemoryAllocator.cpp:59-81 | every adopted frame starts free, handed out from the highest id down |
| `SchedulerPlans.PlansAreWellFormed` | src/Scheduler.cpp:129-180 | the budget is kept and spent; chunks are positive and within what is left; ids are distinct and active on return; decodes are the oldest decoding requests; victims are exactly the newest previously active requests, newest first; admitted requests are the picked ones in order |
| `SchedulerPlans.PlannedIsNotPreempted` | src/Scheduler.cpp:294-322 | no planned request is preempted, has preemption information, or waits |
| `SchedulerPlans.PreemptSheds` | src/Scheduler.cpp:294-322 | one reclaim round takes the newest active request not admitted in this call |
| `SchedulerPlans.TryAdmitIs` | src/Scheduler.cpp:80-127 | a refusal moves only victims; an admission adds the lifetime to the ledger and the first chunk to the plan |
| `SchedulerPlans.PlanDecodeIs` | src/Scheduler.cpp:67-78 | one token for each decoding request, oldest first, up to the budget |
| `SchedulerPlans.AdmitLoopIs` | src/Scheduler.cpp:132-163 | the whole admission phase: who is left, who was taken, which chunks |
| `SchedulerRuns.BooksHoldOverRuns` | src/Scheduler.cpp:33-253 | over every disciplined run, with any client activity on the cache, each request is in exactly one queue with a matching state, preemption records are those of the preempted requests, the ledger is the sum of active lifetimes |
| `SchedulerRuns.EveryPlanIsWellFormed` | src/Scheduler.cpp:129-180 | every plan of every such run is well formed |
| `SchedulerRuns.StateTellsQueue` | src/Scheduler.cpp:255-272 | the reported state tells which queue holds the request, and preemption information exists exactly while preempted |
| `SchedulerLedger.CancelKeepsBooksIff` | src/Scheduler.cpp:198-211 | cancelling a preempted request subtracts its lifetime again: the ledger stays exact if and only if there was nothing to subtract or not enough left |
| `SchedulerLedger.PreemptKeepsBooks` | src/Scheduler.cpp:213-234 | preempting moves the request, its lifetime and its record together |
| `SchedulerLedger.ResumeKeepsBooks` | src/Scheduler.cpp:236-253 | a failed resume changes nothing in the books, a successful one restores them |
| `SchedulerLedger.EnqueueKeepsBooks` | src/Scheduler.cpp:33-39 | enqueueing keeps the books exactly for an untracked id |
| `SchedulerLedger.CompleteKeepsBooks` | src/Scheduler.cpp:182-196 | completing a step keeps the books; what it takes off a request is `SchedulerProgress.CompleteTakesOff` |
| `SchedulerProgress.CompleteTakesOff` | src/Scheduler.cpp:182-196 | a completed step takes the produced tokens off what is left to prefill, never more than is left, and the request decodes exactly when they were at least that; a decoding request, every other request and everything else stay as they were |
| `SchedulerProgress.CompleteUnknown` | src/Scheduler.cpp:182-186 | completing a step for an id that is not active changes nothing |
| `SchedulerProgress.PrefillOverRuns` | src/Scheduler.cpp:33-253 | over every disciplined run in which it is not cancelled, what a request has left to prefill is what it had less the tokens completed for it, through preemption, resumption and everybody else's calls |
| `SchedulerProgress.DecodesOncePromptIsDone` | src/Scheduler.cpp:182-196 | from its submission on, an active request decodes if and only if the tokens completed for it reach its prompt |
| `SchedulerProgress.ReportsTheState` | src/Scheduler.cpp:255-272 | the state reported for a tracked request is its own, whichever queue it is in |
| `SchedulerBudget.OldestPrefillFirst` | src/Scheduler.cpp:165-174 | carried-over prefill is served oldest request first, each with all it has left, until the budget ends in the middle of one; the rest waits |
| `SchedulerBudget.SchedulesOldestFirst` | src/Scheduler.cpp:129-180 | so does a whole scheduling call, after the requests it admitted |
| `SchedulerRounds.ReclaimTakes` | src/Scheduler.cpp:293-322 | under a positive watermark and 0 < needed <= total the newest active requests go, one after the other and exactly as many as it takes: none before the free frames reach the lesser of needed plus watermark and the total and the ledger has room, nobody after; otherwise nobody goes |
| `SchedulerRounds.ReclaimLeavesRoom` | src/Scheduler.cpp:293-322 | on return free frames and ledger have the room asked for, or no victim is left to take, or the last one freed nothing |
| `SchedulerRounds.NobodyToTake` | src/Scheduler.cpp:305-310 | requests admitted in the same call are never taken |
| `SchedulerRounds.AdmitsIff` | src/Scheduler.cpp:80-127 | with any watermark an attempt succeeds exactly when budget is left, the lifetime fits the pool, and after the victims it takes the ledger has room and the sequence can be placed |
| `SchedulerRounds.PicksTheFirst` | src/Scheduler.cpp:134-158 | the head alone, when it must go first, and otherwise the first waiting request whose attempt succeeds; nobody only when everybody tried is refused |
| `SchedulerRounds.AdmitsUntilNobodyFits` | src/Scheduler.cpp:132-163 | a scheduling call admits round after round until nobody waits, the active limit is reached or a round finds nobody |
| `SchedulerNoStall.PicksFirstThatFits` | src/Scheduler.cpp:134-158 | within capacity the one picked is the first that fits budget and ledger |
| `SchedulerNoStall.NobodyWaitsWhoFits` | src/Scheduler.cpp:132-163 | within capacity a scheduling call leaves nobody waiting who fits and whom it may look at |
| `PrefixCounts.UsableIsWhole` | src/Scheduler.cpp:41-46 | a prefix discounts a request by its key's count when the prompt is at least as long, by nothing otherwise, and always by whole blocks |
| `PrefixCounts.LifetimeLessSharedBlocks` | src/Scheduler.cpp:41-49 | a request's lifetime is the blocks of its prompt and decode budget less the shared blocks, per table: that of a request without a key for the remaining prompt |
| `PrefixCounts.PlacementTakesTheRest` | src/Scheduler.cpp:97-127 | a placement takes frames for the prompt less the shared blocks, maps the whole prompt, and leaves of the lifetime exactly what growing to the declared length will take |
| `SchedulerFairness.OvertakingIsBounded` | src/Scheduler.cpp:132-163 | at every point of every run a waiting request's counter is exactly the number of later arrivals admitted first, counters never increase towards the back, and nobody, waiting or admitted, was passed more often than the limit |
| `SchedulerFairness.FifoAdmitsInOrder` | src/Scheduler.cpp:134-146 | without size-awareness admission order is arrival order |
| `SchedulerFairness.PickKeepsFair` | src/Scheduler.cpp:148-158 | one admission adds one skip and one overtaker to those in front, and to nobody else |
| `SchedulerFairness.AdmissionPicks` | src/Scheduler.cpp:132-163 | a head at its limit, or any head without size-awareness, is taken first |
| `SchedulerCache.PreemptThenResume` | src/Scheduler.cpp:213-253 | preempting and resuming at once succeeds exactly when the blocks already in swap fit; contents, ledger and other queues are back, and the state is Prefill exactly when prefill is left |
| `SchedulerCache.PreemptionRecord` | src/Scheduler.cpp:213-234 | a preemption records its reason and how many frames it freed: the lesser of the request's unshared resident blocks and the swap slots left |
| `SchedulerCache.RefusalLeavesNoTrace` | src/Scheduler.cpp:80-117 | without a watermark a refused candidate leaves scheduler and store exactly as they were if and only if it failed an early check or its request had no sequence |
| `SchedulerCache.RefusedPlacementLeavesNoTrace` | src/Scheduler.cpp:99-117 | tables, counts, free list, generations, prefix users and index are restored exactly, unless earlier sequences of the request went with it |
| `SchedulerCache.UndoAttach` | src/KVCacheManager.cpp:101-134 | releasing a sequence that had just attached a prefix undoes the attachment exactly |
| `SchedulerCache.RetainThenFree` | src/MemoryAllocator.cpp:97-129 | taking references to frames in use and dropping them leaves the pool untouched |
| `SchedulerReadings.SchedulingKeepsReadings` | src/Scheduler.cpp:129-180 | a scheduling call, whatever it preempts, attaches, reserves and undoes, changes nothing an existing sequence reads |
| `SchedulerNoStall.NoDecodeStall` | src/Scheduler.cpp:41-48 | without forks, prefixes, preemption and resumption no growth within a declared length ever fails, and mapped frames stay within the ledger and the ledger within the pool |
| `SchedulerCapacity.AdmissionIsExact` | src/Scheduler.cpp:80-127 | in such runs an admission succeeds exactly when budget, ledger and root id allow: its reservation never fails |
| `SchedulerCapacity.GrowthNeverStalls` | tools/trace_replay/TraceReplay.cpp:153-166 | growing an active request towards any declared position succeeds |
| `SchedulerCapacity.GrowthIs` | tools/trace_replay/TraceReplay.cpp:153-166 | a growth that succeeds maps one block more exactly when the position lies past the table |
| `SchedulerCapacity.GrowthSucceedsIff` | tools/trace_replay/TraceReplay.cpp:153-166 | in any state a growth succeeds exactly when the sequence is there and the position is mapped already or a frame per table is free |
| `SchedulerCapacity.MappedWithinLedger` | src/Scheduler.cpp:93-95 | mapped frames are at most the ledger, the ledger at most the pool, and the rest of the pool is free |
| `SchedulerCapacity.FreeIsTheRest` | src/MemoryAllocator.cpp:83-129 | frames not held by any client are free |
| `SchedulerNoStall.CancelCapacity` | src/Scheduler.cpp:198-211 | cancelling an active or waiting request keeps the capacity invariant |
| `SchedulerRuns.FreshBooks` | src/Scheduler.cpp:30-31 | an empty scheduler starts with its books in order |
| `SchedulerFairness.FreshHistory` | src/Scheduler.cpp:30-31 | an empty scheduler starts with nobody overtaken |
| `SchedulerNoStall.FreshCapacity` | src/Scheduler.cpp:30-31 | an empty scheduler over an unused, non-empty pool starts within capacity |
| `SchedulerObject.Scheduler.EnqueueRequest` | src/Scheduler.cpp:33-39 | the object's new state is the model's |
| `SchedulerObject.Scheduler.TryAdmitRequest` | src/Scheduler.cpp:80-127 | new state, plan and admitted request are the model's |
| `SchedulerObject.Scheduler.PlaceSequence` | src/Scheduler.cpp:97-117 | create, attach, reserve, or undo; new store and result are the model's |
| `SchedulerObject.Scheduler.Reclaim` | src/Scheduler.cpp:294-322 | the preemption loop with its early exits; whom it takes, and when, is `SchedulerRounds.ReclaimTakes` |
| `SchedulerObject.Scheduler.AdmitFromPending` | src/Scheduler.cpp:132-161 | the admission loop with its breaks |
| `SchedulerObject.Scheduler.Next` | src/Scheduler.cpp:129-180 | new state and plan are the model's |
| `SchedulerObject.Scheduler.PreemptRequest` | src/Scheduler.cpp:213-234 | new state and result are the model's |
| `SchedulerObject.Scheduler.ResumeRequest` | src/Scheduler.cpp:236-253 | new state and result are the model's |
| `SchedulerObject.Scheduler.CancelRequest` | src/Scheduler.cpp:198-211 | searches the three queues in order |
| `SchedulerObject.Scheduler.CompleteRequest` | src/Scheduler.cpp:182-196 | new state is the model's, which `SchedulerProgress.CompleteTakesOff` pins down |
| `SchedulerObject.Scheduler.State` | src/Scheduler.cpp:263-272 | the state of a tracked request |
| `SchedulerObject.AddDecodeTokens` | src/Scheduler.cpp:67-78 | the decode loop with its early exit |
| `SchedulerObject.AddCarriedPrefill` | src/Scheduler.cpp:165-174 | the carry-over prefill loop |
| `CacheLayout.AddressesTileTheFrame` | src/CacheLayout.cpp:21-39 | every in-shape coordinate has an address below the element count, and the address determines the coordinate |
| `CacheLayout.EveryElementHasACoordinate` | src/CacheLayout.cpp:21-39 | every element below the element count belongs to a coordinate |
| `CacheLayout.HeadVectorsAreDisjoint` | src/CacheLayout.cpp:25-39 | different head vectors never overlap and lie inside the frame |
| `CacheLayout.BytesAreElements` | src/Block.cpp:5-10 | a block's byte size is its element count times the element size |
| `CacheLayout.StrideIsLeast` | src/MemoryAllocator.cpp:11-31 | the stride is the least positive multiple of the alignment that holds a block |
| `CacheLayout.FramesAreDisjoint` | src/MemoryAllocator.cpp:59-81 | frames are disjoint ranges inside the pool |
| `CacheViews.SlotsAreDisjoint` | include/qwenvl_paged/KVCacheManager.h:135-163 | through an injective table and the aligned stride, distinct (stream, layer, token, head) vectors of a sequence occupy disjoint byte ranges inside the pool |
| `CacheViews.DenseLookup` | src/BlockTable.cpp:76-85 | a block found in a gap-free table is resident at its own index |
| `Softmax.PushStandsFor` | include/qwenvl_paged/PagedAttention.h:407-418 | one token of online softmax: the rescaled state stands for the longer token list |
| `Softmax.AnyReferencePoint` | include/qwenvl_paged/PagedAttention.h:103-129 | subtracting any common reference score leaves the weighted average unchanged |
| `Softmax.StateGivesAttention` | include/qwenvl_paged/PagedAttention.h:457-466 | dividing a state out gives the attention of the tokens it stands for |
| `Softmax.RebaseWeighted` | include/qwenvl_paged/PagedAttention.h:409-416 | moving the reference score scales every numerator alike |
| `PagedAttention.Decode` | include/qwenvl_paged/PagedAttention.h:58-132 | the reference kernel succeeds exactly when arguments fit and every needed block is resident; it then writes the attention of the flat cache for every query head, and otherwise leaves the output untouched; `AttentionReference` says which bytes of which layer that is, written out |
| `BlockedAttention.DecodeBlocked` | include/qwenvl_paged/PagedAttention.h:142-232 | the blocked kernel meets the same contract |
| `FusedAttention.DecodeFused` | include/qwenvl_paged/PagedAttention.h:328-475 | the group-fused two-pass kernel meets the same contract |
| `FusedAttention.DecodeFast` | include/qwenvl_paged/PagedAttention.h:328-481 | the group-fused online kernel meets the same contract, without its vector instructions |
| `FusedAttention.OnlinePass` | include/qwenvl_paged/PagedAttention.h:396-420 | the single pass leaves every group member's state standing for the whole context |
| `FusedAttention.PushGroup` | include/qwenvl_paged/PagedAttention.h:407-418 | one key and value into every member's state |
| `FusedAttention.ScorePass` | include/qwenvl_paged/PagedAttention.h:422-437 | first pass: every member's scores and maximum |
| `FusedAttention.WeighPass` | include/qwenvl_paged/PagedAttention.h:438-454 | second pass: every member's sums relative to its maximum |
| `FusedAttention.WriteGroup` | include/qwenvl_paged/PagedAttention.h:457-466 | writes exactly the group's rows |
| `BlockedAttention.VectorAtIs` | include/qwenvl_paged/PagedAttention.h:186-196 | inside a block the walk reads exactly the token's vector |
| `AttentionSpec.PagingIsTransparent` | include/qwenvl_paged/PagedAttention.h:78-94 | the output depends only on the flat contents of the tokens below the context length |
| `AttentionSpec.SameBlocksSameTokens` | include/qwenvl_paged/PagedAttention.h:78-94 | sequences that read the same block by block have the same tokens, whatever frames hold them |
| `AttentionReference.ReadsTheLayer` | include/qwenvl_paged/KVCacheManager.h:135-160 | what a kernel reads for a token is cut out of the sequence's bytes at the layer asked for: from that layer's own table with one layer per frame, from that layer's part of the one table's frames otherwise |
| `AttentionReference.TablesPerLayer` | include/qwenvl_paged/PagedAttention.h:165-170 | which table and which part of a frame a layer's tokens are in |
| `AttentionReference.SlotOfTheLayer` | include/qwenvl_paged/KVCacheManager.h:135-160 | a slot points at the frame behind that block and at that layer's, stream's, token's and head's place in it |
| `AttentionReference.KernelSucceedsIff` | include/qwenvl_paged/PagedAttention.h:58-76 | a kernel call on a sequence succeeds exactly when sizes, layer and heads make sense and every block of the context is resident in that layer's table |
| `AttentionReference.OutputWrittenOut` | include/qwenvl_paged/PagedAttention.h:78-132 | every output element is the weighted average, written out, over the tokens below the context length of what the sequence reads in the layer asked for and for the kv head that serves the query head's group |
| `AttentionOverCache.AttendsIffResident` | include/qwenvl_paged/PagedAttention.h:165-174 | a call fails for want of a block exactly when one it needs is unmapped or in swap |
| `AttentionOverCache.SameReadingSameAttention` | src/KVCacheManager.cpp:543-559 | a sequence that reads the same in two cache states gives the same attention |
| `TritonKernel.PartitionsCoverOnce` | tools/triton_kernel/paged_attention_decode.py:371-372 | for every requested count each block lies in exactly one partition, none starts past the end, and there are at most as many as asked for |
| `TritonKernel.ChooseNumPartitions` | tools/triton_kernel/paged_attention_decode.py:296-306 | as many as fill the device, as far as 32 partitions and one block each allow: never fewer, never more |
| `TritonKernel.TileStandsFor` | tools/triton_kernel/paged_attention_decode.py:202-233 | one masked tile extends what a running state stands for by its live tokens, none included |
| `TritonKernel.PartialKernel` | tools/triton_kernel/paged_attention_decode.py:188-238 | a partition's unnormalised result stands for its own tokens |
| `TritonKernel.MergeIsExact` | tools/triton_kernel/paged_attention_decode.py:257-281 | unnormalised partials of any split, empty ones weighted zero, merge to whole-context attention |
| `TritonKernel.ReduceKernel` | tools/triton_kernel/paged_attention_decode.py:241-281 | the padded merge of a row of partials is whole-context attention |
| `TritonKernel.WholeKernel` | tools/triton_kernel/paged_attention_decode.py:19-97 | the single-program kernel computes attention of the flat cache |
| `TritonKernel.DecodePartitioned` | tools/triton_kernel/paged_attention_decode.py:309-437 | fails exactly for a requested number of partitions out of range; otherwise, chosen or requested, whole or split, it computes whole-context attention |
| `TritonKernel.DecodeSplit` | tools/triton_kernel/paged_attention_decode.py:371-437 | the split path computes whole-context attention for any number of partitions, merged at the power of two above the re-derived count |
| `TritonKernel.GpuComputesTheCpuRow` | tools/triton_kernel/paged_attention_decode.py:19-97 | the row is the CPU kernels' output row for that head |
| `TritonKernel.TileOffsetIsElementOffset` | tools/triton_kernel/paged_attention_decode.py:204-218 | the kernel's address arithmetic is the layout's element offset |
| `PagedCacheRuns.PagedCacheIsAppendList` | python/paged_cache.py:275-326 | after every run of whole-model steps and forks the pool is what the append lists say |
| `PagedCacheRuns.GathersEverythingAppended` | python/paged_cache.py:353-379 | a gather on any branch returns, layer by layer, exactly what was appended to it, inherited prefix included; its table holds exactly the blocks its tokens need |
| `PagedCacheRuns.StepAppends` | python/paged_cache.py:275-326 | one model step appends to every layer of one branch and leaves the other branches alone |
| `PagedCacheRuns.ForkKeepsCache` | python/paged_cache.py:462-483 | a fork succeeds exactly for a fresh id and gives the child its parent's lists |
| `PagedCacheRuns.StepLeavesTable` | python/paged_cache.py:275-295 | a step leaves the branch's whole block table in the launch memo, and its length, rounded up to whole blocks after a gather |
| `PagedCacheRuns.LayerIsUpdated` | python/paged_cache.py:275-312 | one layer's update appends to that layer and to no other |
| `PagedCacheRuns.GatherReads` | python/paged_cache.py:353-379 | a gather through the cached table reads the sequence's own blocks |
| `PagedCacheRuns.FreshCacheOk` | python/paged_cache.py:67-141 | a newly built pool holds empty lists |
| `PagedLayers.SpanIsWritten` | python/paged_cache.py:297-312 | a span across blocks writes its rows and disturbs no other row, layer or branch |
| `PagedLayers.BlockWrote` | python/paged_cache.py:300-309 | storing keys and values of one block changes exactly those tokens of that layer |
| `PagedDecode.AttendsToEverythingAppended` | python/paged_cache.py:328-351 | after every run of steps and forks a decode launch on any branch, layer and head is attention over everything appended to that branch |
| `PagedDecode.LaunchReadsLists` | python/paged_cache.py:328-351 | what a launch reads through the cached table is, head by head, the layer's lists |
| `PagedDecode.OffsetInRow` | tools/triton_kernel/paged_attention_decode.py:204-218 | the kernel's offset of a head vector lies inside the token's row, at the head's place |
| `PagedPoolRuns.MemosAgreeOverRuns` | python/paged_cache.py:143-237 | over every run of forks, growths, resolved frames and launch inputs in any order, failures included, the memo tables agree with the page table, so long as no growth runs out partway on a recorded length |
| `PagedPoolRuns.MemosAnswerForTheTable` | python/paged_cache.py:147-212 | after every such run a launch gets the current block table as far as its length reaches, and the recorded length is the true one |
| `PagedPoolRuns.CallKeepsMemosIff` | python/paged_cache.py:143-237 | one call leaves the memos in agreement exactly when it is not a growth that has some but not all of its frames while a length is on record |
| `PagedPoolRuns.TableHoldsMostTokens` | python/paged_cache.py:147-169 | over every successful run a table ends with the blocks for the most tokens ever asked for, or those it began with if they are more |
| `PagedPoolRuns.GrownFromEmpty` | python/paged_cache.py:147-169 | a table grown from empty holds exactly the blocks that the most tokens asked for need, and that is its recorded length |
| `PagedPoolRuns.ForkThenSameToken` | python/paged_cache.py:218-237 | asking for a token's frame, forking and asking again returns a frame the child maps as well |
| `PagedPoolMemos.DecodeInputsAreCurrent` | python/paged_cache.py:189-212 | the cached device table is the current block table, sliced to the requested length or as far as it goes |
| `PagedPoolMemos.EnsureCapacityIs` | python/paged_cache.py:147-169 | succeeds exactly when the missing blocks are free; the table then has exactly the blocks asked for, never fewer than before, and its length is on record; otherwise every frame is taken and the record is stale exactly when there was one and the pool was not empty before |
| `PagedPoolMemos.WritableFrameIs` | python/paged_cache.py:218-237 | a remembered token gets the remembered frame and nothing changes; any other gets a frame of its own exactly when its block is there and private or a frame is free; the memos agree either way |
| `PagedPoolMemos.WritableFrameIsOwnIff` | python/paged_cache.py:218-237 | the frame returned is nobody else's exactly when the token was not the remembered one, or its block still maps the remembered frame with one reference |
| `PagedPoolMemos.OwnFrameByCount` | python/paged_cache.py:218-237 | a frame that a block maps is held by no other entry and no pin exactly when its reference count is 1 |
| `PagedPoolMemos.ForkIs` | python/paged_cache.py:143-145 | forking shares every block and leaves all memo tables in step |
| `PagedPoolMemos.StoreIsRead` | python/paged_cache.py:307-308 | whoever maps a frame at a block reads what is stored there, so a store into a remembered frame that a fork shared reaches the child |
| `PagedPoolMemos.StoreIs` | python/paged_cache.py:307-308 | a store into the resolved frame changes one block of one sequence |
| `PagedRows.BaseIsOffset` | python/paged_cache.py:171-175 | a layer's stream starts at the layout's element offset |
| `PagedRows.SpliceRows` | python/paged_cache.py:176-181 | splicing rows replaces those rows and leaves every other |
| `PagedRows.RowIndexInjective` | python/paged_cache.py:171-181 | different (layer, stream, token) rows of a frame are different places |
| `PagedCacheObjects.PagedPool.Ensure` | python/paged_cache.py:147-169 | the growth loop; new state and result as in the pool model |
| `PagedCacheObjects.PagedPool.Writable` | python/paged_cache.py:218-237 | the memo and its invalidation; as in the pool model |
| `PagedCacheObjects.PagedPool.Inputs` | python/paged_cache.py:189-212 | as in the pool model |
| `PagedCacheObjects.PagedPool.constructor` | python/paged_cache.py:67-141 | root and spacer sequences over a fresh manager |
| `PagedCacheObjects.PagedLayer.Update` | python/paged_cache.py:275-312 | grow, write, then hand a single token on to the kernel or gather everything this layer was ever given |
| `PagedCacheObjects.PagedLayer.AttendDecode` | python/paged_cache.py:328-351 | fails exactly when query heads do not group evenly; otherwise each head's row is attention over its kv head's part of everything the layer was given |
| `PagedCacheObjects.PagedLayer.WriteSpanRows` | python/paged_cache.py:297-309 | the block-boundary loop; as in the pool model |
| `PagedCacheObjects.PagedLayer.WriteOne` | python/paged_cache.py:314-326 | the single-token path does what the span path does for one token |
| `PagedCacheObjects.PagedLayer.Gather` | python/paged_cache.py:353-379 | returns the layer's lists |
| `Contiguous.FirstFit` | tools/trace_replay/TraceReplay.cpp:609-619 | the lowest free run of a positive length, or nothing exactly when there is none; a zero length is placed behind the first used block and fails on an idle pool |
| `Contiguous.RunContiguous` | tools/trace_replay/TraceReplay.cpp:560-703 | reservations stay disjoint and account for the blocks in use; with room for one active request and a block per servable request every trace finishes within the bound and leaves the pool empty; a trace whose first servable request asks for no block never gets past it; a replay given its steps, however many run at a time, finishes or stops with an idle, empty pool at a servable request that asks for no block; one request at a time, it finishes exactly when every servable request needs a block; its run is the one schedule of `ReplaySchedule`: nobody admitted late, the lowest place for each, no idle step; finished, it takes at least every servable request's turns, exactly their sum one at a time, exactly their largest when all fit at once |
| `Contiguous.AdmitPending` | tools/trace_replay/TraceReplay.cpp:626-653 | admits in order, skipping what no pool could serve, each into the lowest run of free blocks, and stops short of the end only with the active limit reached or no free run for the next; conservation and turns are kept |
| `Contiguous.DecodeActive` | tools/trace_replay/TraceReplay.cpp:655-676 | every active request takes one turn; those that finish give their run back |
| `ReplaySchedule.ScheduleIsUnique` | tools/trace_replay/TraceReplay.cpp:621-676 | admission at the first step that is not refused, in the lowest place, leaves one schedule: two runs of a trace book alike as far as both go |
| `ReplaySchedule.OneAtATime` | tools/trace_replay/TraceReplay.cpp:626-676 | with one active request each starts when the one before is done: the last step is the sum of all turns |
| `ReplaySchedule.AllAtOnce` | tools/trace_replay/TraceReplay.cpp:626-676 | when everything fits at once all start in the first step, side by side, and each is done after its turns |
| `ReplaySchedule.ServableIff` | tools/trace_replay/TraceReplay.cpp:583-600 | a request can be served exactly when its declared tokens fit the context limit and the whole pool, and needs the fewest blocks that hold them |
| `Contiguous.AsksForNothing` | tools/trace_replay/TraceReplay.cpp:583-591 | which requests ask for no block at all |
| `Contiguous.NothingIsNeverServed` | tools/trace_replay/TraceReplay.cpp:583-626 | one request for no tokens is servable by any pool and meets the condition under which `Contiguous.RunContiguous` never gets past a request, whatever the limits |
| `Contiguous.RequestDone` | tools/trace_replay/TraceReplay.cpp:663-671 | removing a finished reservation keeps the placement and the counts |
| `CacheShortfalls.SecondKeyIsReachable` | src/KVCacheManager.cpp:457-494 | create, reserve, publish, publish under another key: the invariant is broken, and releasing the only sequence leaves the first record behind |
| `CacheShortfalls.UnknownSlotAges` | src/MemoryAllocator.cpp:198-216 | an allocator call that advances the generation of a frame that was never in use |
| `CacheShortfalls.SwappedBlockHasSlot` | src/KVCacheManager.cpp:324-365 | the manager never makes that call: every block in swap names a live slot |
| `CacheShortfalls.FreshPoolIsUnused` | src/MemoryAllocator.cpp:59-80 | a pool whose frames were just bound has none in use, so the runs below start from pools that exist |
| `SchedulerResume.ResumeWithinLimitsIff` | src/Scheduler.cpp:236-253 | a resumption succeeds exactly when the swapped blocks fit; the ledger then stays within the pool, and the active queue within its limit, exactly when each had room for the request before the call |
| `SchedulerResume.ResumeOvercommits` | src/Scheduler.cpp:236-253 | admit a long request, preempt it, admit another, resume the first: two are active where one is allowed and the ledger exceeds the pool |
| `SchedulerResume.ResumeFailsAfterPreempt` | src/Scheduler.cpp:198-253 | a client evicts an admitted request's sequence and takes the frames; preempting the request and resuming it at once then fails |
| `SchedulerShortfalls.PreemptThenCancelIff` | src/Scheduler.cpp:198-234 | cancelling right after preempting keeps the books exactly when the request held nothing or less than its lifetime was left on the ledger |
| `SchedulerShortfalls.DoubleSubtractionIsReachable` | src/Scheduler.cpp:198-234 | two requests admitted, one preempted and cancelled: the books are broken |
| `SchedulerShortfalls.RefusalReleasesEarlierSequence` | src/Scheduler.cpp:97-117 | a client's sequence of a request disappears when that request's own admission is refused |
| `PrefixShortfalls.SharedPrefixStarvesGrowth` | src/Scheduler.cpp:41-127 | admit a request and publish its prompt, admit a second that shares it, cancel the first, admit a third: the ledger is within the pool, yet the second request's next block, within its declared length, is not there |
| `PagedPoolShortfalls.StaleLengthIsReachable` | python/paged_cache.py:147-169 | two growths on a new pool, the second too large: the record says empty while the table holds every frame |
| `PagedPoolShortfalls.StaleFrameIsReachable` | python/paged_cache.py:218-237 | grow, resolve, fork, resolve again on a new pool: the frame returned is the child's as well |

## Left out

- 32-bit wrap-around of token, block and batch arithmetic: numbers are unbounded naturals.
- Byte contents of frames: a frame is a sequence of real elements, and its size is counted in elements.
- Floating-point rounding, bf16 conversion and the AVX-512 paths: arithmetic is over the reals.
- The FNV content hash: a deterministic function parameter; equal hashes under a key count as equal contents, as in the program.
- Copy hooks, the eviction selector, cache kinds, multimodal spans and positional metadata: carried or advisory, never interpreted.
- In-place update of `SequenceState` tables and prefix records inside the manager's maps: they are values reassigned in the map, so aliasing between them is not modelled.
- The tensor layouts of the kernels' scratch buffers: score and accumulator buffers are arrays of rows, and a tile is a sequence with a mask.
- Kernel launches: one program per (sequence, query head) is modelled; programs of a grid share no state.
- Null arguments of the kernels: arrays and views are always given.
- `PagedLayer.reset`, dtype and device movement, and the model glue around the cache.
- Clients that call the allocator directly beside the cache manager: the accounting is stated for the manager as only client.
- Replacing the swap backend while the manager has blocks in swap: the accounting is stated for one backend throughout.
- `run_paged` of the trace replay except its growth rule, and the replay's statistics.
- Trace loading, bindings, fixtures, benchmarks and plots.
- Contiguous.RunContiguous: which traces with an empty request behind a non-empty one finish, with several at a time, is stated through the schedule and not as a condition on the trace alone: it depends on what else is running when that request comes up.
- FusedAttention.DecodeFast: does not model the AVX-512 instructions of the fast path; they compute the same sums in another order, which makes no difference over the reals.
- PagedCacheRuns.PagedCacheIsAppendList: covers runs whose calls succeed; a failed assertion ends the run, and only what it leaves in the length memo is stated.
