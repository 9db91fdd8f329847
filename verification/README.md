# Verified model of the Flux serving engine

A Dafny model of the continuous-batching engine under `src/flux/engine`, with proofs that scheduling, batching, KV
caching and prefix reuse change nothing a request generates, lose no memory, end every request exactly once and keep
the loop moving.

The language model is one uninterpreted step function over the attended positions (`LanguageModel.Lm`); a forward pass
is a fold of that step over the positions its mask selects, so causality holds by definition. Tensors hold exact reals.

| files | what they model |
|---|---|
| `KvCache`, `LanguageModel`, `Batching`, `Engines`, `Generation` | caches, the model, padded batches, the naive and the cached engine |
| `Sequences`, `BlockPool`, `PrefixCache`, `PrefixLaws`, `PrefixOps` | the request record, the block allocator and the prefix cache as values, with their laws |
| `Scheduler`, `EmptyBatch`, `AdmissionOrder`, `PrefixHits` | admission: when it succeeds, whom it takes, in what order, and what a hit is worth to it and to the prefill |
| `HeldBlocks`, `Coverage`, `CoverageRuns` | which reservations are really covered by blocks, along whole runs |
| `Lifecycle`, `Worker`, `WorkerCore` ... `WorkerRuns`, `WorkerHistory` | the worker as a state machine over awaits and abort-flag reads, its invariant, and what follows for every run |
| `StoredKeys`, `StoredRuns`, `EvictionQueue`, `QueuedEntries`, `StoringRuns`, `LongPrefixes` | which lengths of a prompt can be found stored at all: eviction as a queue, the bound that every run keeps, and runs that reach it |
| `Fates`, `Endings`, `Iterations` | what may end a request, what a raised flag does, and what one whole iteration achieves |
| `Drain`, `DrainRuns`, `Fairness`, `Overtaking`, `Stall`, `StallRuns`, `FailingRuns` | progress, the drain, fairness and its limits, the exact condition under which the loop stalls, and runs that break a promise |
| `SequenceRecord`, `PoolObject`, `PrefixObject`, `SchedulerObject`, `WorkerObject`, `ContinuousWorker`, `ServerObject`, `StreamObject` | the classes and loops that update fields in place, each proved to do what the value functions and the state machine say |
| `Streaming`, `Nucleus`, `Isolation` | the race between worker, event loop and stream consumer, the top-p mask, and who may write to which KV buffer |

A run (`Worker.Serve`) is any finite sequence of events: submissions, abort requests, administrative aborts, a stop
request, and worker steps with an arbitrary clock reading and arbitrary model or sampler failures. One worker step goes
from one await, or one read of an abort flag, to the next, so a flag may flip inside a decode step. `Reachable` states
are those some run leads to, for some pool, cache, batch and queue sizes.

Four promises are not kept by the code on all inputs. Each has its exact condition, and where it takes a run from the
start of the process to break it, that run:

- Coverage of a reservation is lost when the blocks of a hit cannot be reserved and the entry is referenced without any,
  at admission (`Coverage.AdmissionCoversExactlyWhen`, `FailingRuns.ShortByAdmission`) or at the late bind
  (`Coverage.BindCoversExactlyWhen`, `FailingRuns.ShortByLateBind`), and at no other time
  (`CoverageRuns.CoveredExactlyWhen`).
- An empty batch does not always admit somebody: the fit test does not count the blocks a hit reserves for itself
  (`EmptyBatch.IdleAdmission`, `Stall.EmptyBatchVerdict`, `Stall.StallsForever`). A request that fits the pool stalls
  the loop in some run if and only if it is not roomy (`StallRuns.StallsExactlyWhenNotRoomy`): if it does not fit apart
  from some first n tokens that a run can leave stored. Which n those are depends on `max_entries`, because storing a
  long prompt evicts its own first entries: with blocks enough to get there, a length is found stored in some run if and
  only if it has no more than `StoredKeys.StoreLimit` candidate lengths (`LongPrefixes.StoredExactlyWhen`).
- Not every accepted request ends: one accepted after the worker has stopped waits until somebody aborts it
  administratively (`Fairness.LateSubmissionWaits`); all that were submitted before the stop end
  (`Fairness.StopEndsEverything`).
- Streamed deltas do not add up to the decoded output when the decoder takes text back
  (`Streaming.AlwaysCompleteExactlyWhen`, `Streaming.PlaceholderExample`, `Streaming.TokenBetweenReads`).

## Model

| member | source | states |
|---|---|---|
| KvCache.SliceCache | src/flux/engine/kv_utils.py:29-41 | copies exactly the first n positions of every layer |
| KvCache.CloneIsWhole | src/flux/engine/kv_utils.py:44-45 | a clone, which is a slice at the full length, is the cache |
| LanguageModel.ForwardFromPrefix | src/flux/engine/cached_engine.py:47-77 | running a suffix over the KV of a prefix gives the cache and logits of full recompute of both, for every split |
| LanguageModel.KvOfPrefix | src/flux/engine/prefix_cache.py:138-145 | the cache of a prompt cut to n positions is the cache of its first n tokens, which is what makes sliced entries true |
| Batching.StackCaches | src/flux/engine/batching.py:12-32 | the loops produce right-padded rows of the original lengths and fail only on an empty list |
| Batching.AttentionMaskForDecode | src/flux/engine/batching.py:35-43 | each row's mask shows its own past and the new token, and no padding |
| Batching.ExtractRowCache | src/flux/engine/batching.py:46-71 | a row keeps its old positions plus the last one, in every layer |
| Batching.PaddedAttention | src/flux/engine/batching.py:12-43 | under the mask a padded row attends to exactly the positions of the unpadded cache |
| Batching.ExtractAfterStep | src/flux/engine/batching.py:46-71 | extracting a row after a step gives its own cache with just the new position appended |
| Engines.DecodeBatchLoop | src/flux/engine/cached_engine.py:93-120 | stack, mask, one forward, split: the imperative decode_batch computes the functional one |
| Engines.BatchedDecodeIsSoloDecode | src/flux/engine/cached_engine.py:93-120 | for caches of arbitrary different lengths, row r of a batched decode has the logits and the cache that decoding row r alone gives |
| Engines.Argmax | src/flux/engine/sampler.py:21-22 | greedy sampling takes the first index of a maximal logit |
| Generation.NaiveGenerateIds | src/flux/engine/naive_engine.py:45-81 | full recompute returns a completion of the request, and refuses only max_tokens below 1 or an empty prompt |
| Generation.CachedGenerateIds | src/flux/engine/cached_engine.py:142-175 | prefill then decode returns a completion, and the cache it ends with is the KV of the prompt and all but the last output |
| Generation.EnginesAgree | src/flux/engine/cached_engine.py:142-175 | both engines run on one request return the same thing, which is what naive generation promises |
| Generation.GeneratesIsUnique | src/flux/engine/naive_engine.py:45-81 | any two results that keep the promise of generate_ids for a request are equal, errors included |
| Generation.GreedyIsPrefixOfCompletion | src/flux/engine/naive_engine.py:60-71 | every greedy run of a request, stopped anywhere, is a prefix of its completion |
| Generation.CompletionIsUnique | src/flux/engine/naive_engine.py:60-71 | a request has at most one completion |
| BlockPool.BlocksLeast | src/flux/engine/block_pool.py:41-44 | blocks_needed is the least number of blocks that holds the tokens |
| BlockPool.BlocksSplit | src/flux/engine/scheduler.py:147-149 | reserving a prefix and the rest apart needs as many blocks as together, or one more |
| BlockPool.ConservedIsPartition | src/flux/engine/block_pool.py:22-32 | conservation spelled out: free, owned and pinned blocks are duplicate-free, disjoint and together the whole pool |
| BlockPool.ReserveConserves | src/flux/engine/block_pool.py:58-69 | a reservation takes exactly the needed blocks out of the free list and loses none |
| BlockPool.AllocateConserves | src/flux/engine/block_pool.py:49-56 | an allocation becomes owned by its sequence, block for block |
| BlockPool.DetachConserves | src/flux/engine/block_pool.py:80-89 | detaching splits an owned list in two without loss |
| BlockPool.FreeConserves | src/flux/engine/block_pool.py:91-99 | freeing returns exactly what the sequence owned |
| BlockPool.FreeListIsFifo | src/flux/engine/block_pool.py:58-78 | over any run of reservations and releases the blocks handed out, followed by those still free, are those free at first, followed by those given back |
| BlockPool.ReservesFront | src/flux/engine/block_pool.py:58-78 | a reservation fails exactly when too few blocks are free and hands out the front of the free list; released blocks come after all that were free before |
| PoolObject.BlockPoolObject.Reserve | src/flux/engine/block_pool.py:58-69 | the pop loop over the deque reserves what the function says, or changes nothing |
| PoolObject.BlockPoolObject.Allocate | src/flux/engine/block_pool.py:49-56 | allocation on the object, dictionary and record together |
| PoolObject.BlockPoolObject.Release | src/flux/engine/block_pool.py:71-78 | appends the blocks in order |
| PoolObject.BlockPoolObject.Detach | src/flux/engine/block_pool.py:80-89 | detaches the front of the owned list, falling back to what the record remembers |
| PoolObject.BlockPoolObject.FreeSequence | src/flux/engine/block_pool.py:91-99 | returns the owned list, or what the record remembers, and clears the record |
| PrefixOps.PeekFromIsLongest | src/flux/engine/prefix_cache.py:81-96 | peek finds the longest stored key that is a prefix of the prompt and misses only when there is none of at least min_tokens |
| PrefixOps.CandidateLengthsAre | src/flux/engine/prefix_cache.py:69-79 | candidate lengths are the full length first and every whole number of blocks, at least min_tokens, without repeats |
| QueuedEntries.CandidatesFall | src/flux/engine/prefix_cache.py:69-79 | they come longest first |
| PrefixOps.LookupKeeps | src/flux/engine/prefix_cache.py:98-115 | a lookup takes one reference to the longest prefix, hands out true KV and true logits, and keeps blocks, pins and contents |
| PrefixHits.LookupHandsOut | src/flux/engine/prefix_cache.py:98-115 | a lookup hands out the stored KV of the longest stored front, its logits exactly when that is the whole prompt, and marks that entry and no other as used now |
| PrefixLaws.AcquireKeeps | src/flux/engine/prefix_cache.py:198-219 | taking a reference, by pinning, sharing, reserving or failing to reserve, keeps pin counts and block conservation exact |
| PrefixLaws.SharedBlocks | src/flux/engine/prefix_cache.py:221-230 | what a live entry lends has exactly the number of blocks the shorter key needs, all of them pinned |
| PrefixLaws.LentExactlyWhenRelated | src/flux/engine/prefix_cache.py:221-230 | blocks are lent if and only if some referenced entry that has blocks starts with the key |
| PrefixLaws.LentByFirstRelative | src/flux/engine/prefix_cache.py:221-230 | they are the front, as long as the key needs, of the first such entry's blocks |
| PrefixLaws.FirstReferenceBlocks | src/flux/engine/prefix_cache.py:198-219 | the first reference gives an entry a relative's front, or else the front of the free list, or no blocks when too few are free |
| PrefixLaws.ReleaseKeeps | src/flux/engine/prefix_cache.py:175-186 | a release gives back one reference and, with the last one, the entry's blocks |
| PrefixLaws.FreedWithLastHolder | src/flux/engine/prefix_cache.py:236-248 | a pinned block returns to the pool exactly when no referenced entry, nested ones included, lists it any more |
| PrefixLaws.UnpinSubtracts | src/flux/engine/prefix_cache.py:236-248 | unpinning lowers each count by its occurrences and frees exactly the blocks whose count reaches zero |
| PrefixOps.EvictKeeps | src/flux/engine/prefix_cache.py:250-257 | eviction moves no block and no reference |
| PrefixOps.EvictDropsLeastUsed | src/flux/engine/prefix_cache.py:250-257 | eviction makes room unless everything is referenced, and drops only unreferenced entries used no later than those it keeps |
| PrefixHits.EvictsNoMoreThanNeeded | src/flux/engine/prefix_cache.py:250-257 | eviction stops as soon as there is room for one entry |
| PrefixOps.InsertKeeps | src/flux/engine/prefix_cache.py:117-146 | insertion stores only KV and logits of the entry's own ids and disturbs no live sequence |
| PrefixOps.InsertOneStores | src/flux/engine/prefix_cache.py:129-145 | after inserting a length its prefix is stored, unless every entry is referenced |
| PrefixOps.InsertAddsOnlyPrefixes | src/flux/engine/prefix_cache.py:129-145 | every added entry is a prefix of the prompt at a candidate length, sliced from its cache; only the full length keeps logits |
| PrefixHits.InsertStoresWhatItIsGiven | src/flux/engine/prefix_cache.py:117-146 | an insertion adds only fronts of the prompt, cut from the KV it is given; the whole prompt keeps the very logits it is given, a shorter front none |
| PrefixHits.InsertLeavesShortest | src/flux/engine/prefix_cache.py:117-146 | the shortest candidate front is stored afterwards, unless every entry is referenced |
| PrefixOps.AdoptKeeps | src/flux/engine/prefix_cache.py:148-173 | adoption takes one reference, and the front of the owned list becomes the blocks of an unreferenced entry, one for one |
| PrefixHits.AdoptsExactlyWhenStored | src/flux/engine/prefix_cache.py:148-173 | a sequence without prefix comes out of adoption holding one, its whole prompt, if and only if that is stored and long enough |
| PrefixHits.AdoptionListsItsBlocks | src/flux/engine/prefix_cache.py:165-173 | its list of blocks is then what the entry has, followed by what it owns |
| Lifecycle.AdoptFindsUnreferenced | src/flux/engine/prefix_cache.py:160-163 | after a miss the entry adoption finds has no references, so the branch for a referenced entry is never taken |
| PrefixObject.PrefixCacheObject.CandidateLengths | src/flux/engine/prefix_cache.py:69-79 | the loop computes the candidate lengths |
| PrefixObject.PrefixCacheObject.Peek | src/flux/engine/prefix_cache.py:81-96 | the descending loop computes peek |
| PrefixObject.PrefixCacheObject.Lookup | src/flux/engine/prefix_cache.py:98-115 | lookup in place on entries, pins and pool |
| PrefixObject.PrefixCacheObject.AcquireBlocks | src/flux/engine/prefix_cache.py:198-219 | all four branches in place |
| PrefixObject.PrefixCacheObject.ShareFromLive | src/flux/engine/prefix_cache.py:221-230 | the scan finds the first live relative in dictionary order |
| PrefixObject.PrefixCacheObject.Pin | src/flux/engine/prefix_cache.py:232-234 | the loop counts every listed block once more |
| PrefixObject.PrefixCacheObject.Unpin | src/flux/engine/prefix_cache.py:236-248 | the loop lowers counts and frees the rest at the end |
| PrefixObject.PrefixCacheObject.Release | src/flux/engine/prefix_cache.py:175-186 | release in place |
| PrefixObject.PrefixCacheObject.Evict | src/flux/engine/prefix_cache.py:250-257 | the while loop evicts what the function says |
| PrefixObject.PrefixCacheObject.Insert | src/flux/engine/prefix_cache.py:117-146 | the loop over candidate lengths inserts what the function says |
| PrefixObject.PrefixCacheObject.Adopt | src/flux/engine/prefix_cache.py:148-173 | adoption in place on cache, pool and record |
| Scheduler.TryAllocateKeeps | src/flux/engine/scheduler.py:143-163 | after a successful attempt whatever KV the sequence carries is true and it stays within its budget (own blocks plus those its prefix calls for); a failed one leaves no block and no reference behind |
| PrefixHits.AdmissionBindsLongest | src/flux/engine/scheduler.py:119-123 | after a hit of length n the sequence has the first n tokens as its key, n as its length, the stored entry's KV, and its logits exactly when n is the whole prompt; it lists the entry's blocks and its own |
| PrefixHits.AdmissionBindsNothing | src/flux/engine/scheduler.py:143-163 | with nothing stored, or the prefix cache off, its binding stays as it was |
| PrefixHits.AdmissionOwnsTheRest | src/flux/engine/scheduler.py:147-158 | an attempt succeeds if and only if the tokens the hit leaves over fit the blocks that are free after it, and the sequence then owns exactly the blocks for them, from the front |
| PrefixHits.FitsExactlyWhen | src/flux/engine/scheduler.py:165-168 | the fit test asks whether the free blocks hold the tokens that the longest stored front leaves over |
| PrefixHits.AcceptedExactlyWhen | src/flux/engine/scheduler.py:125-133 | a submission is accepted if and only if those fit the whole pool and the queue has room; otherwise it leaves no trace |
| Coverage.AdmissionCoversExactlyWhen | src/flux/engine/scheduler.py:143-163 | shared and owned blocks cover the reservation if and only if the hit finds blocks or the owned ones suffice alone |
| Coverage.BindCoversExactlyWhen | src/flux/engine/worker.py:54-75 | a late bind leaves its sequence covered if and only if its hit finds blocks, or what it gives up still leaves enough of its own |
| Coverage.PrefillCoversExactlyWhen | src/flux/engine/worker.py:78-101 | a whole prefill leaves its sequence covered if and only if its late bind does: storing and adopting only move blocks from own to shared |
| HeldBlocks.EndSettles | src/flux/engine/prefix_cache.py:175-186 | ending a sequence changes no other list of owned blocks and no blocks of an entry that stays referenced |
| HeldBlocks.PrefillSettles | src/flux/engine/prefix_cache.py:117-173 | neither do lookup, insertion with eviction, and adoption: an entry's blocks are settled by its first reference |
| CoverageRuns.CoveredExactlyWhen | src/flux/engine/scheduler.py:143-163 | for every run: a live admitted sequence is covered for prompt plus max_tokens if and only if neither its admission nor its late bind left it short |
| FailingRuns.ShortByAdmission | src/flux/engine/prefix_cache.py:212-216 | a run, with the deployed block size, to a live sequence whose admission left it short |
| FailingRuns.ShortByLateBind | src/flux/engine/worker.py:68-75 | a run to a live sequence that was covered when admitted and is short after its late bind |
| StoredKeys.CandidatesFrom | src/flux/engine/prefix_cache.py:69-79 | the candidate lengths of a candidate length are the ones from there on |
| StoredKeys.Outlasts | src/flux/engine/prefix_cache.py:129-145 | an entry put in by an insertion is there at its end only if the lengths after it are present already or find room behind it |
| StoredKeys.StoredIsStorable | src/flux/engine/prefix_cache.py:117-146 | so a length with too many candidate lengths does not outlive its own insertion, by a sequence that holds a reference or found nothing |
| StoredKeys.PrefillStorable | src/flux/engine/worker.py:78-101 | late bind, insertion and adoption together leave only lengths stored that have few enough candidates |
| StoredRuns.WorkContents | src/flux/engine/worker.py:269-402 | every worker step but a prefill leaves keys, KV and logits of the prefix cache as they are |
| StoredRuns.StoredKeysAreStorable | src/flux/engine/prefix_cache.py:117-257 | in every reachable state every stored key has few enough candidate lengths |
| EvictionQueue.Round | src/flux/engine/prefix_cache.py:129-145 | inserting the level above the held one into a full cache, when every second level below is queued last: it stays, and what was missing comes in |
| QueuedEntries.FirstIsLeastUsed | src/flux/engine/prefix_cache.py:250-257 | the entry given up is the first of the queue: least recently used, and of those the earliest in the dictionary |
| QueuedEntries.InsertInLine | src/flux/engine/prefix_cache.py:117-146 | an insertion is a walk down the levels on that queue |
| StoringRuns.ComesAndStores | src/flux/engine/worker.py:276-301 | a run that submits one request to an idle process, serves it to its end and leaves it idle, and the memory it leaves |
| LongPrefixes.StoresPrompt | src/flux/engine/prefix_cache.py:117-257 | every prompt with no more than StoreLimit candidate lengths gets stored by some run, and nothing but fronts of it |
| LongPrefixes.StoredExactlyWhen | src/flux/engine/prefix_cache.py:117-257 | with blocks enough to get there, a prompt is found stored after some run of a process of these sizes if and only if it has no more candidate lengths than that |
| EmptyBatch.IdleAdmission | src/flux/engine/scheduler.py:143-163 | with nothing live, allocation succeeds if and only if the lengths of the request and of its hit allow it |
| EmptyBatch.RoomyAdmits | src/flux/engine/scheduler.py:165-184 | a request that fits without a hit and, apart, for every length that a run can leave stored, is admitted into an idle memory with such keys |
| EmptyBatch.RoomyIsExact | src/flux/engine/scheduler.py:143-168 | and only such a request is admitted into every memory that satisfies what is proved of the reachable idle ones |
| EmptyBatch.SlackIsRoomy | src/flux/engine/block_pool.py:41-44 | one block of slack is always enough |
| EmptyBatch.NineTokensNeedTwo | src/flux/engine/scheduler.py:143-168 | nine stored tokens and one to generate fit one block of sixteen together, pass the fit test, and cannot be allocated apart |
| AdmissionOrder.FcfsKeepsOrder | src/flux/engine/scheduler.py:170-184 | fcfs: admitted followed by remaining is the old queue, also when an allocation fails |
| AdmissionOrder.AdmissionConservesWaiters | src/flux/engine/scheduler.py:170-202 | either policy conserves the multiset of waiters and stays within the room |
| AdmissionOrder.EveryRoundTakesFirstFit | src/flux/engine/scheduler.py:186-202 | every round takes the first waiter that fits the memory as the rounds before left it |
| AdmissionOrder.WhyAdmissionStops | src/flux/engine/scheduler.py:170-202 | unused room means an empty queue, nobody that fits, or an allocation that failed on the memory the last round met |
| SchedulerObject.RequestQueueObject.TryEnqueue | src/flux/engine/scheduler.py:36-42 | bounded append that sets the event |
| SchedulerObject.RequestQueueObject.PopOne | src/flux/engine/scheduler.py:49-55 | takes the head and clears the event with the last one |
| SchedulerObject.RequestQueueObject.PushFront | src/flux/engine/scheduler.py:57-59 | puts back in front and sets the event |
| SchedulerObject.RequestQueueObject.Remove | src/flux/engine/scheduler.py:61-72 | the rebuilding loop removes the first occurrence and nothing else |
| SchedulerObject.SchedulerObject.Submit | src/flux/engine/scheduler.py:125-133 | the two refusals leave no trace, and acceptance appends |
| SchedulerObject.SchedulerObject.TryAllocate | src/flux/engine/scheduler.py:143-163 | lookup, allocation, rollback and binding in place |
| SchedulerObject.SchedulerObject.AdmitFcfs | src/flux/engine/scheduler.py:170-184 | the loop admits exactly whom the function Admit admits and leaves what it leaves |
| SchedulerObject.SchedulerObject.AdmitMemoryFit | src/flux/engine/scheduler.py:186-202 | the same for the skipping policy |
| SchedulerObject.SchedulerObject.Admit | src/flux/engine/scheduler.py:135-141 | admission under either policy never exceeds max_batch |
| Lifecycle.ReuseIsPrefill | src/flux/engine/worker.py:81-97 | exact, partial, logit-less and missing hits all give the logits and cache of a full prefill |
| Lifecycle.BindKeeps | src/flux/engine/worker.py:54-75 | a late bind takes one reference and gives up no more own blocks than its prefix calls for; whatever KV the sequence carries is true |
| PrefixHits.LateBindBindsLongest | src/flux/engine/worker.py:64-75 | a late bind binds to the longest stored front, entry, KV and logits alike, as admission does |
| PrefixHits.LateBindGivesUpFront | src/flux/engine/worker.py:68-75 | the front of its own blocks, as many as the hit makes up for or as it has, goes to the end of the free list |
| PrefixHits.LateBindBindsNothing | src/flux/engine/worker.py:54-63 | nothing changes for a sequence that has a prefix, after a miss, or with the prefix cache off |
| PrefixHits.ReuseBuildsOnWhatItCarries | src/flux/engine/worker.py:81-97 | the prefill starts with the KV it was handed, true or not, and adds a position for each further token; an exact hit returns the stored logits and KV as they are |
| PrefixHits.PrefillStoresAndHolds | src/flux/engine/worker.py:98-100 | a prefill that succeeds leaves the shortest candidate front of its prompt stored, unless every entry is referenced, and with its whole prompt stored the sequence holds a prefix |
| Lifecycle.PrefillKeeps | src/flux/engine/worker.py:78-101 | from every state that keeps the books, prefill with reuse returns full recompute and keeps the books |
| Lifecycle.EndKeeps | src/flux/engine/worker.py:104-119 | ending gives back exactly the blocks and the reference the sequence holds |
| Lifecycle.FreeIsIdempotent | src/flux/engine/block_pool.py:91-99 | freeing a sequence's blocks twice frees them once |
| Lifecycle.SecondReleaseStealsReference | src/flux/engine/worker.py:104-112 | releasing a shared prefix twice takes another sequence's reference and its blocks, so ending must happen once |
| WorkerObject.BindPrefixAtPrefill | src/flux/engine/worker.py:54-75 | the late bind on the objects |
| WorkerObject.PrefillWithReuse | src/flux/engine/worker.py:78-101 | prefill, insertion and adoption on the objects |
| WorkerObject.NoteToken | src/flux/engine/worker.py:154-163 | appends, pushes and decides the finish reason on the record |
| WorkerObject.ReleaseSequence | src/flux/engine/worker.py:104-112 | gives reference and blocks back on the objects |
| WorkerObject.RunOne | src/flux/engine/worker.py:198-252 | the sequential worker ends its sequence exactly once, the first time it is told to and for that reason, returns all it took, and left alone finishes with the completion |
| WorkerRuns.NextKeeps | src/flux/engine/worker.py:269-402 | every step of the worker and of its environment keeps the invariant |
| WorkerRuns.ServeKeeps | src/flux/engine/worker.py:269-303 | so does every run, for all interleavings of submissions, aborts, stop, failures and steps |
| WorkerRuns.ServesWhatNaiveGenerates | src/flux/engine/worker.py:269-402 | in every reachable state a finished sequence has exactly the completion of its request, and any other has a prefix of it |
| WorkerRuns.FinishedIsNaive | src/flux/engine/worker.py:134-151 | whatever result keeps the promise of naive generation for a finished request is the result its client was given |
| WorkerRuns.NaiveAgrees | src/flux/engine/naive_engine.py:45-81 | running the baseline on a finished request keeps its promise and returns the request's very result |
| WorkerRuns.ReuseIsInvisible | src/flux/engine/worker.py:78-101 | in every reachable state prefill with reuse equals full prefill, whatever the cache holds |
| WorkerRuns.BlocksPartitioned | src/flux/engine/block_pool.py:49-99 | in every reachable state free, owned and pinned blocks are a partition of the pool |
| WorkerRuns.OwnersAreAdmitted | src/flux/engine/worker.py:104-119 | exactly the live admitted sequences own blocks |
| WorkerRuns.PinsAndRefsExact | src/flux/engine/prefix_cache.py:175-248 | in every reachable state pin counts are sums of references and references are live holders; no references means no blocks; sizes are respected |
| WorkerRuns.SharedBlockHoldsSameTokens | src/flux/engine/prefix_cache.py:198-230 | in every reachable state a block that two stored prefixes list is at the same place in both, one of them starts with the other, and it stands for the same tokens in both |
| WorkerRuns.LivePrefixResolves | src/flux/engine/prefix_cache.py:250-257 | the prefix key of a live sequence is never evicted |
| WorkerRuns.ReservationCovered | src/flux/engine/scheduler.py:143-163 | a live sequence without prefix, or whose entry carries blocks, is covered for prompt plus max_tokens in every reachable state |
| WorkerRuns.QuiescentMeansNoLeak | src/flux/engine/worker.py:104-131 | whenever no admitted sequence is live, no block is used, pinned or referenced |
| WorkerRuns.ShutdownEndsEverything | src/flux/engine/worker.py:122-131 | the final sweep ends every sequence ever accepted and returns every block |
| WorkerRuns.EndsExactlyOnce | src/flux/engine/worker.py:104-163 | terminal means released once, signalled once, all output pushed and then one None; live means none of it |
| Fates.WorkFate | src/flux/engine/worker.py:269-402 | what one worker step does to a live request: aborted only when flagged or stopped, failed exactly when it is its failing prefill or its row of a failing batch, and without its flag at most one token more |
| Endings.EndsForAReason | src/flux/engine/worker.py:104-163 | in every run an aborted request was flagged, aborted administratively or stopped, and one that errored met a failing worker step or had an empty prompt |
| Endings.UndisturbedFinishes | src/flux/engine/worker.py:382-402 | so a request that nobody aborts, in a run without stop and failures, is finished once it has ended, with the result of naive generation |
| Endings.UndisturbedDrains | src/flux/engine/worker.py:269-303 | and without new submissions, when every unfinished request is roomy, it is so after an explicit number of worker steps |
| Endings.FlagReadAborts | src/flux/engine/worker.py:305-312 | at each of the checks a flag that is up aborts its sequence on the spot, with what it had generated |
| Endings.FlagFreezes | src/flux/engine/worker.py:166-167 | along any run after its flag went up a sequence generates nothing more and is not finished; outside the batch it can only be aborted |
| Endings.FlagEndsWithIteration | src/flux/engine/worker.py:276-299 | an admitted sequence whose flag is up inside an iteration has ended when the loop is at rest again, unless the loop that sorts out the batch had already let it through |
| Endings.FlagEndsNextIteration | src/flux/engine/worker.py:271-299 | one whose flag is up when the loop is at rest has ended when it is at rest the next time |
| Endings.LetThroughExactly | src/flux/engine/worker.py:291-299 | while the batch is sorted out the condition is exact: back at its top, the loop still has a flagged sequence if and only if it had already let it through |
| Endings.FlagEnds | src/flux/engine/worker.py:269-299 | wherever the loop stands, a flag ends its admitted sequence within an explicit number of worker steps, whatever else happens |
| Endings.AbortRequestEnds | src/flux/engine/sequence.py:68-69 | an abort request ends an admitted sequence within those steps, with what it had generated at that moment |
| Endings.AdminAbortEnds | src/flux/server/routes_admin.py:110-122 | so does an administrative abort of a running sequence |
| Endings.AdminAbortExactly | src/flux/server/routes_admin.py:110-122 | an administrative abort ends a waiter on the spot and takes it out of the queue, raises the flag of a running sequence, and changes nothing else |
| WorkerHistory.TerminalIsFinal | src/flux/engine/worker.py:269-402 | along any further run a terminal record never changes but for its abort flag, and output and pushes only grow |
| WorkerRuns.NoLostWakeup | src/flux/engine/scheduler.py:36-82 | waiters imply the event is set; a worker blocked and not woken has no waiter, no running sequence and no stop request |
| WorkerRuns.BatchAndQueueBounded | src/flux/engine/worker.py:277-299 | running and admitted never exceed max_batch nor waiters max_waiting; every live sequence is in exactly one place |
| ContinuousWorker.ContinuousWorkerObject.DropAborted | src/flux/engine/worker.py:305-312 | the loop ends the flagged and keeps the rest in order, step for step as the state machine does |
| ContinuousWorker.ContinuousWorkerObject.PrefillOne | src/flux/engine/worker.py:282-288 | prefill of one admitted sequence on the objects: it ends or joins the batch, step for step |
| ContinuousWorker.ContinuousWorkerObject.DecodeOneStep | src/flux/engine/worker.py:353-402 | sweep, collection, batched decode and row loop on the objects, or failure of every row, step for step |
| ContinuousWorker.ContinuousWorkerObject.Settle | src/flux/engine/worker.py:291-299 | what ended leaves the running list and the flagged are ended, step for step |
| ContinuousWorker.ContinuousWorkerObject.AbortLeftovers | src/flux/engine/worker.py:122-131 | both loops end everybody waiting and everybody running that was not signalled |
| ContinuousWorker.ContinuousWorkerObject.RunIteration | src/flux/engine/worker.py:276-301 | one undisturbed pass of the loop over the objects is one whole iteration of the state machine: it leaves the top and is back there when it is over and not before; with somebody to serve it lowers the tokens left |
| ServerObject.AttachWorker | src/flux/engine/serving.py:42-63 | newly built objects are in the machine's initial state |
| ServerObject.Submit | src/flux/engine/scheduler.py:125-133 | a submission to the objects, accepted or refused, is the machine's step |
| ServerObject.RequestAbort | src/flux/engine/sequence.py:68-69 | so is raising an abort flag, which is up afterwards |
| ServerObject.RequestStop | src/flux/engine/worker.py:265-267 | and a stop request, which wakes a blocked worker |
| ServerObject.Iterate | src/flux/engine/worker.py:276-301 | an undisturbed iteration over the objects leads from reachable states to reachable ones, lowers the tokens left when there is somebody to serve, aborts every flagged running record as it was and gives every other, unless it fails, exactly one token |
| DrainRuns.IterationMakesProgress | src/flux/engine/worker.py:271-301 | an iteration that has somebody to serve, a running sequence or a first fitting waiter that can be allocated, strictly decreases the tokens left to the requests submitted so far, whatever happens meanwhile |
| Iterations.WholeIterationProgresses | src/flux/engine/worker.py:271-301 | the same of one whole iteration, which is what a pass over the objects is |
| Iterations.IterationFeedsEverybody | src/flux/engine/worker.py:353-402 | whatever happens during an iteration, every sequence that was running has ended or generated one token more, and no more than one; it finishes only with that token, is aborted only if flagged, and fails only with a failure |
| Iterations.UndisturbedIteration | src/flux/engine/worker.py:276-299 | left undisturbed, an iteration aborts the flagged as they were and gives every other running sequence that does not fail exactly one token |
| Iterations.AdmittedArePrefilled | src/flux/engine/worker.py:277-288 | whoever is admitted has ended or has its first token when the loop is at rest again |
| Iterations.AdmissionFillsBatch | src/flux/engine/scheduler.py:135-141 | admission fills the batch up to max_batch, unless nobody waits, nobody fits, or the one that fits cannot be allocated |
| Iterations.IdleWorkerSleeps | src/flux/engine/worker.py:271-273 | in every reachable state a worker with nothing running, nobody waiting and no stop request goes to sleep, and then no worker step changes anything |
| Iterations.WokenExactlyBy | src/flux/engine/scheduler.py:36-83 | a sleeping worker is woken by an accepted submission or the stop request and by nothing else |
| DrainRuns.StepsFall | src/flux/engine/worker.py:269-303 | every worker step inside an iteration brings its end nearer by an explicit count |
| DrainRuns.Drains | src/flux/engine/worker.py:269-303 | without new submissions, if every unfinished request is roomy, after an explicit number of worker steps every request has ended and every block is free |
| DrainRuns.DrainsWithoutPrefixCache | src/flux/engine/scheduler.py:125-133 | with the prefix cache off the submission check alone guarantees the drain |
| Fairness.StopEndsEverything | src/flux/engine/worker.py:265-275 | after a stop request everything submitted so far ends within the current iteration and one step, roomy or not |
| Fairness.NobodyOvertakes | src/flux/engine/scheduler.py:170-184 | first come, first served, with submissions going on, every iteration lowers the tokens left to the requests submitted no later than any unfinished one |
| Fairness.LateSubmissionWaits | src/flux/engine/scheduler.py:125-133 | a request accepted after the worker has stopped ends, and its consumer hears of it, if and only if somebody aborts it administratively |
| Overtaking.OvertakenAnyNumberOfTimes | src/flux/engine/scheduler.py:186-202 | under memory_fit, for every k: a run in which a roomy waiter is overtaken by k requests submitted after it, all of them finished |
| Stall.EmptyBatchVerdict | src/flux/engine/scheduler.py:170-184 | under either policy an empty batch admits somebody if and only if some waiter fits and the first that does can be allocated |
| Stall.FcfsVerdict | src/flux/engine/scheduler.py:170-184 | first come, first served that condition is one on the lengths of the head and its hit |
| Stall.StallsForever | src/flux/engine/worker.py:271-301 | otherwise, under either policy, nobody who waits or comes is ever admitted, however long the worker runs, whoever is submitted and whatever is flagged; only under memory_fit with no waiter that fits does this need that nobody comes |
| StallRuns.StuckHeadIsNotRoomy | src/flux/engine/scheduler.py:165-184 | in every reachable state of a stuck loop the head of the queue is not roomy |
| StallRuns.NotRoomyStalls | src/flux/engine/scheduler.py:143-184 | for every request that fits the pool and is not roomy: a run, under either policy, after which it waits for ever, whoever comes and whatever is flagged |
| StallRuns.StallsExactlyWhenNotRoomy | src/flux/engine/scheduler.py:143-184 | over runs, for all sizes: a request that fits the pool stalls at the head of the queue in some run if and only if it is not roomy |
| StallRuns.StallIsReachable | src/flux/engine/scheduler.py:143-184 | the instance with one block of the deployed size, nine prompt tokens and one to generate |
| StreamObject.NextToken | src/flux/server/sse.py:89-97 | the inner loop polls through timeouts until an item comes or the flag is up with nothing queued, and leaves the stream where that interleaving leads |
| StreamObject.ReadDelta | src/flux/engine/tokenizer.py:46-54 | the second read of the ids, when there is one, sees whatever has been generated since the first |
| StreamObject.IterTextDeltas | src/flux/server/sse.py:74-86 | whatever happens between polls and between reads, the yielded deltas are non-empty, add up to what the interleaving emits, and for a growing decoder are a prefix of its text and, at the end of the loop, all of it |
| Streaming.StreamIsComplete | src/flux/server/sse.py:74-97 | for a growing decoder the deltas are always a prefix of the decoded output and, once closed, all of it, for every interleaving |
| Streaming.AlwaysCompleteExactlyWhen | src/flux/server/sse.py:74-97 | for every decoder and output: the stream is complete in every interleaving if and only if no sequence of reads, the two of one decode_delta counted apart, builds up a text the whole does not start with |
| Streaming.CompleteExactlyWhen | src/flux/engine/tokenizer.py:46-54 | for decoders whose text never shortens that says: each first part of the output decodes to a first part of the text |
| Streaming.CompleteNeedsPrefixes | src/flux/engine/tokenizer.py:46-54 | for any decoder, completeness in every interleaving needs each first part of the output to decode to a first part of the text |
| Streaming.PlaceholderExample | src/flux/engine/tokenizer.py:46-54 | a decoder that replaces a placeholder makes the stream say more than the output |
| Streaming.TokenBetweenReads | src/flux/engine/tokenizer.py:46-54 | a decoder with which a token that arrives between the two reads is sent although the whole text does not contain it |
| Streaming.PollsClose | src/flux/server/sse.py:89-97 | once the finished flag is set the stream closes within a known number of polls and second reads, delivered items or not |
| Streaming.ClosedIsFinal | src/flux/server/sse.py:78-86 | after closing neither the output nor what was emitted changes |
| Fairness.StreamReadsNaive | src/flux/server/sse.py:74-97 | the closed stream of a finished sequence reads as the decoded output of naive generation |
| Nucleus.NucleusMaskRow | src/flux/engine/sampler.py:32-44 | cumulate, shift and scatter: exactly the surviving tokens keep their logits at their own indices |
| Nucleus.NucleusIsMinimal | src/flux/engine/sampler.py:32-44 | the survivors' mass exceeds top_p and no smaller set of tokens has that mass |
| Nucleus.MostLikelySurvives | src/flux/engine/sampler.py:37-40 | the most likely token always survives |
| Isolation.SliceCacheRef | src/flux/engine/kv_utils.py:29-45 | slices are new buffers with the right contents |
| Isolation.GrowInPlace | src/flux/engine/cached_engine.py:79-91 | a step appends one position to every layer of the same buffers |
| Isolation.KvHeap.Insert | src/flux/engine/prefix_cache.py:138-145 | storing copies, and leaves every other stored and live cache alone |
| Isolation.KvHeap.BindStored | src/flux/engine/prefix_cache.py:110-115 | a hit hands out the stored cache itself, not a copy |
| Isolation.KvHeap.PrefillBound | src/flux/engine/worker.py:82-94 | the prefill starts from fresh copies of what was handed out |
| Isolation.KvHeap.GrowUncloned | src/flux/engine/worker.py:83 | without that clone a single step would rewrite the stored cache |
| Isolation.KvHeap.PerformAll | src/flux/engine/kv_utils.py:29-45 | over any sequence of prefills, steps, insertions, hits, evictions and ends, with references to stored caches handed out all the while, no stored or handed-out buffer ever changes |

## Left out

- Tensor numerics, floating point, devices, Hugging Face loading and `DynamicCache` internals: logits and KV are exact reals behind one step function.
- The methods of the classes run undisturbed; what may happen between and inside them is the business of the state machine, whose runs they are proved to be. The outer `while` of `run` and its blocking wait exist only there.
- The sequential worker's outer loop (admission of one, waiting): only the service of an admitted sequence is modelled.
- Prefill and one batched decode are atomic for the pool and the cache; thread-level races on Python containers, in particular an administrative abort of a waiter in the middle of a prefill's bookkeeping, are not modelled.
- Failures come only from the model and from sampling after a prefill; the row loop after a batched decode does not fail, and task cancellation is not modelled.
- A scheduler without a pool: the pool is always present, the prefix cache may be off.
- `_anon` reservations of the pool, snapshots, hit, miss and token counters, latencies, Prometheus and Redis.
- `resolve_num_kv_blocks`: the pool size is a parameter.
- Random sampling: greedy choice and the nucleus mask only; temperature scaling and the draw are left out, and output equality is claimed for greedy sampling.
- Sequence ids are numbers and never reused; a submission under a known id, or with max_tokens below 1, is not an event the server produces and leaves the state unchanged.
- Clocks: `last_used` is an arbitrary supplied number; timestamps of a record are left out.
- `combined_stop_ids` and `stop_token_ids`: a request carries its set of stop tokens.
- FastAPI routes, schemas and SSE JSON shaping; the stream model starts at the token queue and assumes it unbounded, as it is created.
- The sorting permutation and the exponential of the nucleus mask are parameters: any descending order, any positive increasing function.
- DrainRuns.Drains: asks every unfinished request to be roomy. Of the requests that fit the pool exactly the others can stall (`StallRuns.StallsExactlyWhenNotRoomy`); for a request that was accepted only because of a stored prefix and does not fit the pool without it, `Stall.EmptyBatchVerdict` says when it does.
- Endings.FlagEnds: speaks of admitted sequences; a flagged waiter is aborted once it is admitted, and `DrainRuns.Drains` says when that is certain.
- EmptyBatch.RoomyIsExact: ranges over memories that satisfy what is proved of the reachable idle ones; `StallRuns.StallsExactlyWhenNotRoomy` speaks of runs.
- Overtaking.OvertakenAnyNumberOfTimes: has the prefix cache off.
- Streaming.CompleteExactlyWhen: speaks of decoders whose text never gets shorter; `Streaming.AlwaysCompleteExactlyWhen` has the condition for all.
- WorkerRuns.ReservationCovered: leaves out sequences whose entry carries no blocks; `CoverageRuns.CoveredExactlyWhen` has the condition for all.
