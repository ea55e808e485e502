# CacheBlend: a verified model

CacheBlend keeps fixed-size chunks of prompt tokens together with one key/value tensor per decoder layer. When a new
prompt comes in, it finds stored chunks at any offset behind the prefix the engine has cached already, pins them on every
tensor-parallel rank, and assembles for each layer one contiguous span out of the cached prefix, the relocated stored chunks
and gaps that are computed afresh. This project models that path in Dafny and proves what it keeps.

The modules follow the program:

| file | what it models |
|---|---|
| Hashing.dfy, Types.dfy | the two content hashes; segments, plans and their validation |
| Matching.dfy, Matcher.dfy | the leftmost scan and why it is optimal; the three hash indexes of `TokenRangeMatcher` that refine it |
| StoreModel.dfy, StoreInvariants.dfy, StoreOperations.dfy, StoreTheorems.dfy, Store.dfy | the store's operations on values, its invariant over every run, what follows from it, and the class `LocalPinnedCPUStore` (module StoreObject) proved against those operations |
| StoreEffects.dfy, StoreHistory.dfy, StoreRecency.dfy | what each operation answers and does to an entry, and the store's contents told from a run alone: last accepted puts, open reservations, order of use |
| ProtocolModel.dfy, Protocol.dfy, ProtocolSteps.dfy, ProtocolRuns.dfy | the scheduler, its one-worker lookup queue and N rank stores as a step relation, under any interleaving |
| ProtocolPlans.dfy, ProtocolPins.dfy, ProtocolReads.dfy | whose plans the scheduler holds, how long their pins last, and which tensors are read through them |
| ProtocolContent.dfy, ProtocolCollision.dfy | which tokens are stored behind a returned plan, and the runs that show both outcomes |
| Paging.dfy | block slots, gather and scatter over the three page layouts, the block table rebuilt for the native gather |
| Rope.dfy | moving rotary-encoded keys, over the reals |
| Loader.dfy, LayerLoader.dfy, RopeLoader.dfy, SameDevice.dfy | assembling a layer's span, the two reused staging buffers and the layer loop, what the keys in the span encode, and loading in place on the store's own device |
| Pipeline.dfy, PipelineTiming.dfy, PipelineExecution.dfy | the same loader seen from its two streams: queued work, events, legal timings, and what is computed under each of them |
| Selection.dfy, BlendRun.dfy, BlendedPages.dfy | choosing the tokens to recompute, the layer fold over the active tokens, and the fold on the loader's buffers down to the pages |

Objects that update their fields in place are classes here (the matcher, the store and its entries, the loader, the
execution state), algorithms over tensors are methods on arrays, and each method is proved against a specification function
or relation whose properties are lemmas. A locked region of the store is one atomic step. A tensor is an abstract value with a
byte size in the store, and one key and one value per token in the loader. The monotonic clock is a counter that never goes
back. A remote call is one atomic step on a rank's store. The retrieval gate, the broker's choice of when a request is cacheable,
every score and every layer computation are arbitrary inputs.

## What the proofs turned up

- A lookup compares tokens only on the searching rank; the other ranks compare segment ids. On the searching rank a returned
  segment holds exactly the prompt's tokens, whatever the hash does, as long as its entry is not replaced
  (`ProtocolContent.SearchingRankIsExact`). `ProtocolCollision.CollidingChunkIsReturned` is a reachable run in which another
  rank holds different tokens under an agreed id. With no other store traffic during the lookup, every rank holds the prompt's
  tokens if and only if, before it, no rank stores other tokens under an id that the search finds and all ranks have
  (`ProtocolContent.QuietLookupIsExactIff`); under any traffic it is enough that the rank stores no entry that shares its hash,
  but not its tokens, with a window of the prompt (`ProtocolRuns.PinnedTokensMatch`). Stores that meet these conditions are
  reached too.
- A rejected layer has already evicted every entry that could be evicted (`StoreTheorems.RefusalEvictsEverything`).
- A page tensor laid out block first is read with its axes crossed when it has exactly two blocks
  (`Paging.BlockFirstReadIff`).
- The guard of the native gather accepts slot lists that its block table does not address
  (`Paging.GuardAcceptsMisalignedSlots`); it addresses them exactly for block-aligned runs (`Paging.NativeAgreesIffAligned`).
  The function's own description limits its use to such runs.
- The shuffle-rotate-shuffle fallback equals the delta rotation for interleaved pairs of any width and for half-split pairs
  of the full width, and for no other half-split width (`Rope.FallbackAgreesIff`). The start-up check requires full width.
- Loading segment by segment on the store's own device relocates the stored tensors themselves, because moving a tensor to the
  device it is on does not copy it. For given tables `SameDevice.LoadIsRightIff` and `SameDevice.StoreIsKeptIff` say exactly
  when this is harmless: when the turns that earlier loads left in a tensor, composed, are none. Over all unit-norm tables
  that leaves one case each: no segment is used again after an earlier load moved it (`SameDevice.SameDeviceIsRightIff`), and
  no segment moves at all (`SameDevice.SameDeviceKeepsStoreIff`). Displacements that add up to zero are not enough
  (`SameDevice.CancellingDisplacementsTurn`). The fused path and a store on another device are not affected.

## Model

| member | source | states |
|---|---|---|
| Hashing.ContentHash | cacheblend_vllm/hashing.py:18-22 | the masked Horner loop computes the content hash of any token list |
| Hashing.HashIsPolynomialResidue | cacheblend_vllm/hashing.py:18-22 | masking after every step gives the residue modulo 2^64 of the exact polynomial in the base, with every token shifted by one |
| Hashing.RollingEqualsHorner | cacheblend_vllm/hashing.py:25-53 | for every window, every offset and all tokens, the wrapped dot product with the descending powers equals the Horner hash of that window |
| Hashing.RollingHashValues | cacheblend_vllm/hashing.py:42-53 | a window of zero or less raises; a short input gives no hashes; otherwise entry i is the content hash of the window at i |
| Hashing.HashCollision | cacheblend_vllm/hashing.py:18-22 | two different two-token chunks have the same content hash |
| Types.CheckOrdered | cacheblend_vllm/types.py:83-101 | the validation loop succeeds exactly when the ordered segments lie in the span and do not overlap, and then returns their total length |
| Types.MakePlan | cacheblend_vllm/types.py:83-101 | a plan is constructed exactly when its fields satisfy the position-wise invariant, and otherwise an error is raised |
| Types.FromSegments | cacheblend_vllm/types.py:103-117 | a plan is built exactly when the prefix is not negative, no two different segments overlap and none starts before the prefix; it lists each given segment once, in order, and ends with the largest end, whatever the order and repetition of the input |
| Types.SortByTargetSorts | cacheblend_vllm/types.py:89-90 | the order used by validation and construction is a sorted permutation |
| Types.DisjointSegmentsPlan | cacheblend_vllm/types.py:103-117 | disjoint segments behind the prefix always plan, keep exactly those segments and that prefix, and end the span at the last of them, or at the prefix without any |
| Types.GapTokensAreUncovered | cacheblend_vllm/types.py:119-125 | the reported gap count is the number of span positions that no segment covers |
| Matching.CandidateIsEarliest | cacheblend_vllm/matcher.py:108-116 | the record found for a window is the earliest registered one of the scope with exactly those tokens, and none is found only if there is none |
| Matching.ScanIsSound | cacheblend_vllm/matcher.py:97-125 | every emitted segment is a registered record whose tokens are exactly the prompt tokens at its target |
| Matching.ScanIsSpaced | cacheblend_vllm/matcher.py:97-125 | emitted segments are a chunk apart, so they never overlap |
| Matching.ScanTakesEarliest | cacheblend_vllm/matcher.py:97-125 | every emitted segment names the earliest registered record of its window |
| Matching.ScanMissesNothing | cacheblend_vllm/matcher.py:97-125 | an exact occurrence that is not emitted lies inside a chunk emitted before it: the scan is leftmost |
| Matching.GreedyCount | cacheblend_vllm/matcher.py:97-125 | no set of pairwise disjoint exact occurrences has more members than the scan's result |
| Matching.GreedyIsOptimal | cacheblend_vllm/matcher.py:97-125 | hence none covers more tokens than the matcher returns |
| Matching.SuffixScanShifts | cacheblend_vllm/ipc.py:218-242 | matching the suffix from offset zero and shifting equals matching the whole prompt from the offset |
| Matching.SortedSubsetIsKeep | cacheblend_vllm/ipc.py:248-259 | sorting the surviving set by target gives the candidates that survive, in their order, whatever order the set enumerates |
| Matching.IntersectionPlans | cacheblend_vllm/connector.py:641-673 | for every set of survivors plan construction succeeds, for the default and for the extended span, and the last prompt token stays outside the span |
| Matcher.TokenRangeMatcher.MakeRecord | cacheblend_vllm/matcher.py:34-51 | a record is made exactly for a full chunk with a valid identity, and carries the content hash of its tokens |
| Matcher.TokenRangeMatcher.Register | cacheblend_vllm/matcher.py:53-63 | an equal record changes nothing, another under the same id replaces it at the end of the order, and the three indexes stay coherent |
| Matcher.TokenRangeMatcher.Unregister | cacheblend_vllm/matcher.py:65-78 | exactly the record of that id leaves all three indexes |
| Matcher.TokenRangeMatcher.Probe | cacheblend_vllm/matcher.py:108-116 | the bucket of a hash yields the first rightly hashed record with the queried tokens, colliding records notwithstanding |
| Matcher.TokenRangeMatcher.SearchSuffix | cacheblend_vllm/matcher.py:92-125 | the search over prefiltered hashes returns what the naive scan of the rightly hashed records returns |
| Matcher.TokenRangeMatcher.Match | cacheblend_vllm/matcher.py:80-125 | an offset outside the tokens raises; otherwise the result is the naive leftmost scan from that offset |
| Matcher.MadeLogsAreRightlyHashed | cacheblend_vllm/matcher.py:34-51 | for records built by `make_record` nothing is lost to a wrong hash |
| StoreObject.LocalPinnedCPUStore.constructor | cacheblend_vllm/storage.py:43-54 | a new store is empty |
| StoreObject.LocalPinnedCPUStore.BeginPut | cacheblend_vllm/storage.py:56-76 | in place, the new state and the result or error are those of the specified operation |
| StoreObject.LocalPinnedCPUStore.ReserveLayer | cacheblend_vllm/storage.py:104-118 | likewise for reserving a layer |
| StoreObject.LocalPinnedCPUStore.CancelLayer | cacheblend_vllm/storage.py:120-129 | likewise for cancelling a reservation |
| StoreObject.LocalPinnedCPUStore.PutLayerHost | cacheblend_vllm/storage.py:131-190 | likewise for storing a layer: bookkeeping, eviction, rejection and publication |
| StoreObject.LocalPinnedCPUStore.AbortPut | cacheblend_vllm/storage.py:192-199 | likewise for aborting an unfinished entry |
| StoreObject.LocalPinnedCPUStore.Match | cacheblend_vllm/storage.py:201-208 | a match with nothing in between returns exactly the matches of the naive scan, all of them committed, and touches them |
| StoreObject.LocalPinnedCPUStore.Validate | cacheblend_vllm/storage.py:210-219 | the committed segments in their order, each touched |
| StoreObject.LocalPinnedCPUStore.Pin | cacheblend_vllm/storage.py:221-238 | the request's old pins are released first, then every committed segment is counted, touched and recorded |
| StoreObject.LocalPinnedCPUStore.Release | cacheblend_vllm/storage.py:240-247 | the request's occurrences are given back one by one |
| StoreObject.LocalPinnedCPUStore.GetLayer | cacheblend_vllm/storage.py:249-263 | a pinned, stored layer is returned and its entry touched; otherwise an error and no change |
| StoreObject.LocalPinnedCPUStore.Clear | cacheblend_vllm/storage.py:265-271 | everything is emptied, the matcher included |
| StoreObject.LocalPinnedCPUStore.Evict | cacheblend_vllm/storage.py:282-294 | the eviction loop over a snapshot of the order ends in the specified state |
| StoreEffects.BegunPut | cacheblend_vllm/storage.py:56-76 | a new put opens an empty entry for exactly the given tokens under their content id, a repeated one is the same entry, only used again, and a raised one changes nothing |
| StoreEffects.BegunPutAnswers | cacheblend_vllm/storage.py:64-75 | which of the four errors is raised, and for which input |
| StoreEffects.ReserveAnswers | cacheblend_vllm/storage.py:104-118 | a reservation is granted exactly for a numbered layer of an entry that has not failed, neither stored nor in flight, and marks that layer only |
| StoreEffects.AcceptedPut | cacheblend_vllm/storage.py:177-190 | an accepted layer is the given tensor, every other layer is as before, the entry is committed exactly when no number is missing, and the answer says so |
| StoreEffects.RefusedPut | cacheblend_vllm/storage.py:168-176 | a refused layer is not stored; its entry fails, and is gone unless another layer is in flight |
| StoreEffects.FailedPut | cacheblend_vllm/storage.py:150-154 | a layer for a failed entry only resolves its reservation, and with the last one the entry is gone |
| StoreEffects.IdlePut | cacheblend_vllm/storage.py:145-159 | a layer for a missing or complete entry, or under a number out of range, changes nothing, and what is answered |
| StoreEffects.CancelledLayer | cacheblend_vllm/storage.py:120-129 | cancelling fails an unfinished entry and resolves that reservation; a committed or missing entry is left alone |
| StoreEffects.AbortedPut | cacheblend_vllm/storage.py:192-199 | aborting fails an unfinished entry, which is gone unless a layer is in flight; a committed or missing entry is left alone |
| StoreEffects.ValidateAnswers | cacheblend_vllm/storage.py:210-219 | the answer lists exactly the committed ones among the asked segments, in their order and with repetitions |
| StoreEffects.PinAnswers | cacheblend_vllm/storage.py:221-238 | so does a pin's, and the request's pins are the ids of that list |
| StoreEffects.ReadAnswers | cacheblend_vllm/storage.py:249-263 | a read succeeds exactly for a pinned, committed segment with a layer of that number and gives that layer; which error otherwise, with nothing changed |
| StoreEffects.ClearedStore | cacheblend_vllm/storage.py:265-271 | nothing is left: no entry, no pin, no bytes, nothing discoverable |
| StoreHistory.LayersAreTheLastPuts | cacheblend_vllm/storage.py:131-190 | at any moment of any run an entry holds, for each layer, exactly the tensor of the last accepted put of it since the entry came to be, and no other layer |
| StoreHistory.ReadsReturnTheLastPut | cacheblend_vllm/storage.py:249-263 | in every reachable state, and after anything that does not disturb the request, reading a layer of a pinned segment gives the tensor of its last accepted put, and every numbered layer has one |
| StoreHistory.MarksAreInFlight | cacheblend_vllm/storage.py:104-190 | the reservation marks are exactly the granted reservations not yet stored or cancelled |
| StoreHistory.ReservationsAreExclusive | cacheblend_vllm/storage.py:104-118 | so a layer is never granted twice: only when no put of it was accepted and no reservation of it is open |
| StoreRecency.OrderIsLastUse | cacheblend_vllm/storage.py:273-275 | in every reachable state the entries stand in the order in which the run last used them, each with the time of that use, so the eviction order is least recently used first |
| StoreRecency.ClockIsElapsedTime | cacheblend_vllm/storage.py:273-275 | the clock is the time that has passed, so these times compare across a run |
| StoreOperations.ApplyKeeps | cacheblend_vllm/storage.py:56-294 | every operation with any arguments keeps the store invariant |
| StoreOperations.RunKeeps | cacheblend_vllm/storage.py:56-294 | so does every sequence of operations |
| StoreOperations.ReleaseKeeps | cacheblend_vllm/storage.py:240-247 | a release lowers each pin count by exactly the request's occurrences, never below zero, and its trailing eviction removes nothing |
| StoreTheorems.PublicationIsAllOrNothing | cacheblend_vllm/storage.py:161-190 | in every reachable state the discoverable ids are the committed entries, and each of those holds exactly layers 0 to n-1, no reservation and no failure mark |
| StoreTheorems.AccountingIsExact | cacheblend_vllm/storage.py:131-199 | in every reachable state the byte counter is the sum of entry sizes, each the sum of its layers, within the limit; pin counts are the occurrences over all requests; pinned ids are committed; failed entries have something in flight |
| StoreTheorems.EntryEvolves | cacheblend_vllm/storage.py:104-199 | across any operation but clear an entry keeps its identity, a committed one its layers, and an entry leaves only unpinned and with nothing but the resolved reservation in flight |
| StoreTheorems.CommittedEntriesAreImmutable | cacheblend_vllm/storage.py:161-190 | the layer map of a committed entry never changes while it is present |
| StoreTheorems.OnlyClearRemovesBusyEntries | cacheblend_vllm/storage.py:120-129 | only clear removes an entry that is pinned or has another reservation in flight |
| StoreTheorems.FailedEntryDrains | cacheblend_vllm/storage.py:120-159 | resolving the last reservation of a failed entry, by storing or cancelling, removes it and returns all its bytes; an earlier one leaves it |
| StoreTheorems.AbortMarksOrRemoves | cacheblend_vllm/storage.py:192-199 | an abort alone resolves no reservation: it removes an idle entry and only marks a busy one |
| StoreTheorems.RejectionIsExact | cacheblend_vllm/storage.py:161-176 | a layer is refused if and only if it grows the store and the growth does not fit beside the pinned and the unfinished entries |
| StoreTheorems.EvictionIsMinimal | cacheblend_vllm/storage.py:282-294 | an accepted layer evicts the shortest least-recently-used prefix of the evictable entries that makes room, and the others keep their order up to the final touch |
| StoreTheorems.RefusalEvictsEverything | cacheblend_vllm/storage.py:161-176 | a refused layer has evicted every evictable entry first |
| StoreTheorems.PinsUndisturbed | cacheblend_vllm/storage.py:221-247 | only releasing, re-pinning or clearing changes a request's pins |
| StoreTheorems.PinnedReadsAreStable | cacheblend_vllm/storage.py:221-263 | until then, over any run, reading a layer of a pinned segment gives the same tensor |
| StoreTheorems.PinnedLayersReadable | cacheblend_vllm/storage.py:249-263 | every layer of a pinned segment can be read, and no other layer number can |
| Protocol.PinOutcome | cacheblend_vllm/storage.py:221-238 | a rank answers a prefetch with exactly the committed ones among the asked segments, and holds pins for exactly those |
| Protocol.SearchPlanable | cacheblend_vllm/ipc.py:218-242 | whatever rank 0 finds are disjoint chunk-sized hits in the suffix, before its last token, whose ids carry the hash of the prompt tokens |
| Protocol.ReturnedPlan | cacheblend_vllm/connector.py:641-673 | the plan over returned segments is well formed, has the cached prefix, exactly these segments and their tokens as hits, and ends at the prefix without segments, before the last prompt token for the Sparse-Q strategies, and otherwise with the last segment |
| ProtocolRuns.GetMatchedKeeps | cacheblend_vllm/connector.py:572-724 | asking for a prompt, whether it queues a lookup, waits, picks up a finished one or declines, keeps the system invariant |
| ProtocolRuns.CleanupKeeps | cacheblend_vllm/connector.py:884-906 | so does cleaning a request up, at any moment of its lookup and also before its id is used again |
| ProtocolSteps.ConfirmKeeps | cacheblend_vllm/storage.py:207-208 | so does the second locked region of a match, which may find fewer entries than the search did |
| ProtocolSteps.ValidateRankKeeps | cacheblend_vllm/ipc.py:248-258 | so does one rank's answer to the validation round |
| ProtocolSteps.PrefetchRankKeeps | cacheblend_vllm/ipc.py:262-277 | so does one rank's pinning |
| ProtocolSteps.CancelRankKeeps | cacheblend_vllm/ipc.py:278-289 | so does one rank's release, after a partial pin or for a cleaned-up request |
| ProtocolSteps.LookupStartsClean | cacheblend_vllm/connector.py:602-606 | a lookup starts only when its request holds no pin anywhere and no cancel of it is queued |
| ProtocolRuns.StepKeeps | cacheblend_vllm/ipc.py:211-289 | every step of the scheduler, the worker, a lookup round on one rank, or an unrelated store operation keeps the system invariant |
| ProtocolRuns.RunSysKeeps | cacheblend_vllm/connector.py:572-724 | so does every run, for any number of ranks and any interleaving |
| ProtocolRuns.LookupIsAllOrNothing | cacheblend_vllm/ipc.py:211-280 | a non-empty result is pinned, segment for segment, and committed on every rank; an empty one leaves no pin on any rank |
| ProtocolRuns.PinnedTensorsAreStable | cacheblend_vllm/storage.py:249-263 | for as long as a request keeps a segment pinned on a rank, reading any of its layers there gives the same tensor under any interleaving |
| ProtocolPins.SettledPlanStaysPinned | cacheblend_vllm/connector.py:884-906 | from a plan that is settled for a request, each of its segments stays pinned on every rank at every moment of every run that neither cleans the request up nor gives its pins back |
| ProtocolPins.PlannedTensorsAreStable | cacheblend_vllm/storage.py:249-263 | so over every such run each layer of a planned segment can be read on every rank if its number is in range, and reading it always gives the same tensor |
| ProtocolPins.AcceptedLookupSettles | cacheblend_vllm/connector.py:641-673 | accepting a non-empty lookup result settles the plan over its segments for the request |
| ProtocolReads.RankRunsAlone | cacheblend_vllm/ipc.py:106-134 | a rank's store after a run of the system is its start after the rank's own operations |
| ProtocolReads.PlannedReadsReturnTheLastPut | cacheblend_vllm/storage.py:249-263 | for a settled plan, reading a layer of one of its segments on any rank gives the tensor last put for it on that rank, at every later moment until the request is cleaned up or released, and exactly the numbered layers can be read |
| ProtocolRuns.StepIsOneOperation | cacheblend_vllm/ipc.py:106-134 | every step is at most one store operation on a given rank, and never a clear |
| ProtocolRuns.PinsAreLiveOrBeingCancelled | cacheblend_vllm/connector.py:884-906 | a rank holds pins of a request that is not live only while a cancel of it is queued behind all its lookups, or is being delivered and has not reached that rank |
| ProtocolRuns.DrainedQueueLeavesOnlyLivePins | cacheblend_vllm/connector.py:884-906 | once the queue is empty and the worker idle, only live requests hold pins |
| ProtocolRuns.HeldPlansArePinned | cacheblend_vllm/connector.py:580-606 | a plan the scheduler holds is backed by its pins on every rank, and no stale cancel of an earlier request with that id is still to come |
| ProtocolRuns.ReturnedLookupPlans | cacheblend_vllm/connector.py:641-673 | in every reachable state the plan of a returned lookup is that plan, with its gap count exact |
| ProtocolPlans.ResultsAreFiledRightly | cacheblend_vllm/connector.py:641-724 | a step files at most one result, under the running lookup's ticket: the plan of the segments it returned if it is accepted and not cancelled, an empty plan behind the prefix otherwise; no result ever changes |
| ProtocolPlans.AskedPrompt | cacheblend_vllm/connector.py:572-620 | asking keeps a plan that is there, picks up a finished lookup, waits for a pending one, gives a prompt of at most one chunk behind the prefix an empty plan, and queues a lookup with a fresh ticket for any other |
| ProtocolPlans.HeldPlansAreOfAskedPrompts | cacheblend_vllm/connector.py:572-724 | at any moment of any run, every plan held for a request is the plan of a prompt asked for under that request, over disjoint chunks of that prompt, with the span that prompt's plan has |
| ProtocolPlans.CleanedUp | cacheblend_vllm/connector.py:884-906 | cleaning up forgets the request's plan and future, takes a lookup that has not started out of the queue, marks exactly one that has, and queues a cancel behind everything else |
| ProtocolPlans.CleanedUpLookupFilesNothing | cacheblend_vllm/connector.py:645-662 | a lookup whose request is cleaned up while it runs files an empty plan whatever it finds, over every run that does not ask for that request again |
| ProtocolPlans.MarkersFollowSteps | cacheblend_vllm/connector.py:884-906 | a request is live from being asked for to being cleaned up, and counts as released from a worker giving its pins back to the start of its next lookup |
| ProtocolRuns.PinnedTokensMatchUpToCollision | cacheblend_vllm/ipc.py:243-280 | on every rank the tokens stored under a returned segment hash like the prompt tokens they stand for |
| ProtocolRuns.PinnedTokensMatch | cacheblend_vllm/ipc.py:243-280 | they are those tokens on every rank that stores no entry sharing its hash, but not its tokens, with a window of the prompt, under any interleaving |
| ProtocolContent.SearchingRankIsExact | cacheblend_vllm/ipc.py:218-280 | on the rank that searched, a returned segment holds exactly the prompt's tokens as long as its entry stays, under any interleaving and with no condition on the hash |
| ProtocolContent.QuietLookupIsExactIff | cacheblend_vllm/ipc.py:211-280 | with no store traffic of others, a lookup returns exactly the searched segments that every rank has committed, and every rank holds the prompt's tokens under all of them if and only if before the lookup the ranks agreed on the tokens behind these ids |
| ProtocolContent.LookupMissesNothing | cacheblend_vllm/ipc.py:218-242 | wherever behind the prefix and before the last prompt token the searching rank has committed the prompt's own chunk, the search finds that position or one that reaches it from the left |
| ProtocolCollision.AgreementIsMet | cacheblend_vllm/ipc.py:211-280 | that agreement holds in a reachable state that has something to return |
| ProtocolCollision.NoCollisionIsMet | cacheblend_vllm/ipc.py:243-280 | the condition on stored hashes holds in a reachable state with a segment pinned on both ranks |
| ProtocolCollision.CollidingChunkIsReturned | cacheblend_vllm/ipc.py:243-280 | with a collision a reachable run returns a segment that holds other tokens on a rank that did not search |
| Paging.SlotMappingLength | cacheblend_vllm/connector.py:42-45 | the mapping has as many slots as tokens asked for, or as the blocks have |
| Paging.SlotMappingEntry | cacheblend_vllm/connector.py:42-45 | token o of the b-th block is in slot o of the block that the b-th id names |
| Paging.SlotMappingInjective | cacheblend_vllm/connector.py:42-45 | distinct blocks give distinct slots, for any token count |
| Paging.RepeatedBlockCollides | cacheblend_vllm/connector.py:42-45 | a repeated block makes two tokens share a slot as soon as both are in use |
| Paging.CellsInArrays | cacheblend_vllm/kv_layout.py:90-161 | for each layout, the key of a slot is in the key tensor or in plane 0 of the K/V axis, at the slot's block and offset, and its value in the value tensor or in plane 1 |
| Paging.GatheredFromArrays | cacheblend_vllm/kv_layout.py:90-122 | entry i of the gathered keys and values is the array cell of slot i |
| Paging.GatherPagedKv | cacheblend_vllm/kv_layout.py:90-122 | the gathered planes are the cells of the listed slots, and a stacked tensor without an axis of length two in front raises |
| Paging.ScatterPagedKv | cacheblend_vllm/kv_layout.py:125-161 | slots outside the list keep their contents, and for distinct slots gathering afterwards gives back what was written |
| Paging.Commit | cacheblend_vllm/ascend.py:385-396 | a write-back changes exactly the suffix slots and never a slot of the cached prefix |
| Paging.BlockFirstReadIff | cacheblend_vllm/kv_layout.py:90-122 | a block-first tensor is read with its own axes unless it has exactly two blocks, and then only if crossing them makes no difference |
| Paging.NativeAgreesIffAligned | cacheblend_vllm/kv_layout.py:47-62 | the rebuilt block table addresses the listed slots if and only if they are block-aligned runs |
| Paging.MappingIsAddressed | cacheblend_vllm/kv_layout.py:47-62 | it therefore addresses every stretch of the mapping that the connector builds from block ids |
| Paging.GuardCountsStarts | cacheblend_vllm/kv_layout.py:47-62 | the guard accepts a list exactly when it starts as many blocks as an unbroken run of its length would |
| Paging.GuardAcceptsMisalignedSlots | cacheblend_vllm/kv_layout.py:47-62 | the length guard alone accepts a list that the table does not address |
| Rope.RotateTwice | cacheblend_vllm/ascend.py:86-99 | two rotations in a row are the rotation by the sum of the angles, for both pairings, the unrotated tail included |
| Rope.EncodePairs | cacheblend_vllm/ascend.py:86-99 | the encoding turns each pair of a head by its own angle, for both pairings, and leaves the unrotated tail alone |
| Rope.RelocationReencodes | cacheblend_vllm/ascend.py:74-103 | with unit-norm tables a key encoded at the old position becomes its encoding at the new one |
| Rope.RelocationsCompose | cacheblend_vllm/ascend.py:74-103 | relocating through a middle position equals relocating directly |
| Rope.StayingIsIdentity | cacheblend_vllm/ascend.py:64-65 | the shortcut for unmoved keys agrees with rotating them |
| Rope.RelocateKeyReencodes | cacheblend_vllm/ascend.py:52-103 | for every token and every head, relocating what was encoded at the old positions gives the encodings at the new ones |
| Rope.RelocationIsExactIffUnitNorm | cacheblend_vllm/ascend.py:74-80 | relocation re-encodes every key if and only if each pair has unit norm at the old position or vanishes at the new one |
| Rope.FallbackIsDelta | cacheblend_vllm/ascend.py:42-73 | for interleaved pairs, and for half-split pairs of full width, the fallback is the delta rotation on every key and any tables |
| Rope.PartialFallbackFails | cacheblend_vllm/ascend.py:42-73 | for every partial half-split width a key on which they differ, with unit-norm tables |
| Rope.FallbackAgreesIff | cacheblend_vllm/ascend.py:42-73 | they agree on all keys and all unit-norm tables if and only if the pairs are interleaved, fully rotated or not rotated at all |
| Loader.ZeroGaps | cacheblend_vllm/ascend.py:280-287 | exactly the positions behind the prefix that no segment covers are zeroed |
| Loader.LoadSegmentsIndividually | cacheblend_vllm/ascend.py:289-311 | each hit holds the relocated token of the stored tensor as it was when its segment was loaded; nothing else is written; and what becomes of the stored tensors |
| Loader.LoadSegmentsFused | cacheblend_vllm/ascend.py:313-370 | packing, relocating at once and scattering puts at every hit its own relocated token, writes nothing else and leaves the store alone |
| Loader.PackedAt | cacheblend_vllm/ascend.py:332-362 | the packed tokens, the old and the new positions line up entry by entry |
| Loader.DeterminedIsUnique | cacheblend_vllm/ascend.py:230-266 | the plan determines every position of the span, so nothing stale survives and the two loading paths give the same buffer |
| Loader.CopiesLoadTheHits | cacheblend_vllm/ascend.py:289-311 | working on copies, the segment loop loads every hit as it is stored |
| SameDevice.LoadIsRightIff | cacheblend_vllm/ascend.py:297-310 | on the store's own device, for given unit-norm tables, every hit is loaded as it was stored if and only if no load reads a token that earlier loads have left turned |
| SameDevice.StoreIsKeptIff | cacheblend_vllm/ascend.py:297-310 | and the stored tensors are as before afterwards if and only if the turns of each token, composed, are none |
| SameDevice.SameDeviceIsRightIff | cacheblend_vllm/ascend.py:297-310 | the hits are right for all unit-norm tables if and only if no segment is used again after an earlier load moved it |
| SameDevice.SameDeviceKeepsStoreIff | cacheblend_vllm/ascend.py:297-310 | the stored tensors are kept for all unit-norm tables if and only if no segment moves |
| SameDevice.CancellingDisplacementsTurn | cacheblend_vllm/ascend.py:297-310 | a plan whose displacements add up to zero, and unit-norm tables for which it leaves the stored tensor turned |
| LayerLoader.Planned | cacheblend_vllm/ascend.py:230-266 | for every well-formed plan there is a span that meets it position by position |
| LayerLoader.SpanFromParts | cacheblend_vllm/ascend.py:230-311 | a position of the prefix holds its page slot, one of a hit the stored token with its key moved from source to target position, and one of a gap zeros |
| LayerLoader.ImageFromArrays | cacheblend_vllm/kv_layout.py:90-122 | what a page slot holds, told of the key and value arrays of each layout |
| LayerLoader.LoadLayer | cacheblend_vllm/ascend.py:230-266 | after the copying step every position is prefix page, zero or relocated hit, for the fused path and for the segment loop on copies |
| LayerLoader.PagedBlendLoader.Prefetch | cacheblend_vllm/ascend.py:224-278 | a layer is assembled in the staging buffer of its parity whatever that held, the other buffer is untouched, and a layer already there or past the last is skipped |
| LayerLoader.PagedBlendLoader.Get | cacheblend_vllm/ascend.py:372-383 | a prefetched layer's buffer is handed out and forgotten |
| LayerLoader.PagedBlendLoader.Commit | cacheblend_vllm/ascend.py:385-396 | the suffix pages take the blended tokens and all other slots keep theirs |
| LayerLoader.PagedBlendLoader.Run | cacheblend_vllm/ascend.py:433-485 | the double-buffered loop writes back what computing each layer in turn on its own freshly assembled span would, for any layer computation |
| LayerLoader.LayerAfterLayer | cacheblend_vllm/ascend.py:463-485 | that reference computation gives each layer its own span and what the layer before it hands on |
| RopeLoader.RelocatingStaysPut | cacheblend_vllm/ascend.py:64-65 | with unit-norm tables, rotary relocation meets what the loading proofs ask of a relocation |
| RopeLoader.MovedKeysAreRelocated | cacheblend_vllm/ascend.py:309-310 | the key plane the loader moves is the result of `relocate_key` on it |
| RopeLoader.HitsAreEncodedInPlace | cacheblend_vllm/ascend.py:313-370 | in a loaded span every hit carries the encoding of its raw key at the position it now has, and its own value |
| Pipeline.StreamedLoader.Prefetch | cacheblend_vllm/ascend.py:224-278 | what a prefetch queues on the load stream, with the pending reuse event waited for once |
| Pipeline.StreamedLoader.Get | cacheblend_vllm/ascend.py:372-383 | the compute stream waits for the layer's load event, if there is one, and the buffer is returned |
| Pipeline.StreamedLoader.Commit | cacheblend_vllm/ascend.py:385-400 | the scatter is queued and its event kept for the next use of that buffer |
| Pipeline.StreamedLoader.Run | cacheblend_vllm/ascend.py:462-485 | for any number of layers the queue is the specified one: turn l takes the buffer of its own parity and at most layers l and l + 1 are held |
| PipelineTiming.QueueOrderIsLegal | cacheblend_vllm/ascend.py:462-485 | whatever is queued, running it in queue order is a legal timing, so the results about all legal timings are never about none |
| PipelineTiming.EveryWaitIsRecorded | cacheblend_vllm/ascend.py:241-244 | for any number of layers, every wait that the loop queues is for an event recorded earlier in the queue, so none blocks forever |
| PipelineTiming.LoadBeforeCompute | cacheblend_vllm/ascend.py:372-376 | under every legal timing layer l is computed after its load has finished |
| PipelineTiming.ScatterBeforeReload | cacheblend_vllm/ascend.py:241-244 | layer l + 2 is loaded after layer l has been written back |
| PipelineTiming.AtMostTwoLive | cacheblend_vllm/ascend.py:462-485 | at any moment at most two layers are in flight, neighbours, in different buffers |
| PipelineTiming.BufferIsExclusive | cacheblend_vllm/ascend.py:241-278 | from the start of a layer's load to the end of its write-back no command of another layer runs on its buffer |
| PipelineExecution.ConflictsInOrder | cacheblend_vllm/ascend.py:241-278 | under every legal timing, of two queued commands that touch the same pages, sample, buffer or hidden state, the earlier one finishes before the later one starts |
| PipelineExecution.AnyTimingComputesTheSame | cacheblend_vllm/ascend.py:462-485 | running the commands in any order that a legal timing allows leaves the same pages, buffers and hidden state as running them in queue order, for any layer computation |
| PipelineExecution.AnyTimingComputesPlainly | cacheblend_vllm/ascend.py:462-485 | and these are what computing one layer after the other, each on its own freshly gathered span, leaves |
| Selection.TopK | cacheblend_vllm/ascend.py:786-790 | k positions outside the base, none beaten by one left out |
| Selection.Select | cacheblend_vllm/ascend.py:757-796 | a mask of another shape raises; otherwise the sorted positions of every gap, everything forced and, of the open rest, the best by score: the whole part of the ratio's share of the cached tokens, at least one and at most all that are open |
| Selection.SelectOnAllRanks | cacheblend_vllm/ascend.py:757-796 | with equal masks every rank allocates the sender's size whatever the scores are, and all ranks end up with that selection on the summed scores |
| Selection.AllReduceSums | cacheblend_vllm/ascend.py:768-769 | the sum takes every rank's scores exactly once |
| Selection.CountGrows | cacheblend_vllm/ascend.py:666-674 | a prefix sum grows over a window exactly when the window holds a gap |
| Selection.SparseMasks | cacheblend_vllm/ascend.py:654-674 | forced positions are exactly those within the overflow radius of a gap; without any gap the tail is forced and queried |
| BlendRun.GapMask | cacheblend_vllm/ascend.py:456-459 | the gap mask is true exactly at span positions that no segment covers |
| BlendRun.ComputeLayer | cacheblend_vllm/ascend.py:495-636 | the written cells are fresh, the others as loaded, the kept rows are a selection on the strategy's own scores, and the state stays sorted, aligned and with every gap |
| BlendRun.Config.RatioOf | cacheblend_vllm/ascend.py:776-780 | a check layer uses the ratio at its place in the list of check layers, and the only ratio there is otherwise |
| BlendRun.CheckLayerKeeps | cacheblend_vllm/ascend.py:654-674 | the rows a check layer keeps are a selection on that layer's scores of its own rows, holding every gap and, for Sparse-Q, every row within overflow blocks times block size of a gap, or the tail without any |
| BlendRun.DenseWindow | cacheblend_vllm/ascend.py:654-674 | on an unpruned span the Sparse-Q window is measured in token positions |
| BlendRun.Run | cacheblend_vllm/ascend.py:433-485 | over all layers, for every scoring and every accepted configuration: each gap holds a key and value computed in that layer from its own row at its own position, the prefix is untouched, a token reused in one layer is reused in all later ones, everything is fresh before the first check layer, and under Sparse-Q so is everything near a gap in every layer |
| BlendedPages.Run | cacheblend_vllm/ascend.py:433-485 | the fold run on the loader's own buffers leaves in every layer's pages: in the slot of each gap, under Sparse-Q of each token near a gap, and before the first check layer of every suffix token, what that layer computed from the token's own row at its own position; in any other suffix slot that or the planned token; elsewhere what was there; and a token reused in one layer is reused in all later ones |

## Left out

- Sockets, timeouts, socket resets and server threads: a remote call is one step that succeeds; the order of delivery after a failed call is not modelled.
- `put_layer`: the device copy around `put_layer_host`; it is two locked regions with a copy in between, and only the second is modelled.
- StoreObject.LocalPinnedCPUStore.Match: with nothing between its two locked regions; as two separate steps it is modelled in ProtocolModel, as the search and the confirmation.
- The number of tokens announced to the engine for a plan: the end of its span less the tokens computed already, one subtraction.
- `Future.cancel`: a queued lookup that is cancelled leaves the queue; one that is running goes on.
- `passes_gate` and `_is_cacheable`: their outcomes are arbitrary inputs of the steps.
- Token values outside the unsigned 64-bit range: the array conversion raises for them, and they are not tokens here.
- `TokenRangeMatcher.validate`: one membership test.
- The gather's `out` argument and the native kernels: a gather returns new planes by direct indexing, and the rebuilt block table is compared with that.
- Torch and NPU arithmetic: keys are reals for the rotation and abstract values elsewhere; attention, norms and the MLP are an arbitrary function of the layer, the hidden state and the span.
- A loader over a plan without segments: joining an empty list of positions raises there, and the model gives an empty load.
- LayerLoader.PagedBlendLoader.Run: for the fused path or a store on another device; what the segment loop does on the store's own device is stated in SameDevice.
- BlendedPages.Run: likewise for the fused path or a store on another device.
- LayerLoader.PagedBlendLoader.Prefetch: both staging allocations are made at first use, the packed one also when the segment loop does not need it.
- Pipeline.StreamedLoader.Commit: a span without suffix, for which the run returns before its loop.
- Pipeline.StreamedLoader.Run: memory reuse by the allocator between requests and work queued by other requests are not part of it.
- Selection.Select: the share of cached tokens is exact, where the program rounds a floating-point product.
- Sparse-Q and deviation scores: any finite values.
- Asynchronous publication and its exception paths: they only abort an entry, so draining is stated at the store.
- `build_connector_meta`: assembling the worker's metadata from the plans.
- Preemption: a plan that is sent again after its pins have been given back is not part of this model.
- Configuration, version checks, the model registry, tracing, benchmarks and dictionary round trips: single branches or formatting.
