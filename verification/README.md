# StreamInfer: a verified model

StreamInfer serves mixture-of-experts models without barriers: every token moves on as soon as its own expert outputs
are back. This project models the parts of the system whose correctness is not visible from one function, and proves
their properties for all inputs, all runs and all interleavings.

| file | what it models |
|---|---|
| `LayerPolicy`, `AsyncModel`, `AsyncLedger`, `AsyncInvariant`, `AsyncRequests`, `AsyncJoins`, `AsyncSteps`, `AsyncTheorems`, `AsyncPlaces` | the asynchronous token protocol as a transition system, its invariant, its ranking and its theorems, and where and in what order work is queued |
| `AsyncWorker`, `AsyncSimulation` | the protocol's objects, each method tied to the transition system |
| `CountingSort`, `Batches`, `BatchMerge`, `BatchSplit`, `Chunks`, `Dispatcher`, `DataPlane` | token batches: counting sort, merges, splits, dispatch, and one hop end to end |
| `LayerQueue`, `TopKPool`, `PackTopK`, `PoolModel`, `UnifiedPool` | the receiving side: layer queues, the top-k join, packing, routing, draining, and runs of calls to the pool |
| `DefragScheduler`, `DefragDecay`, `DefragNoHistory` | the defragmenting layer scheduler, its history windows, and when it idles |
| `BlockManager` | the paged KV-cache allocator and its address translation |
| `TboScheduler`, `GreedyDrain`, `RouteCounts` | the two-batch-overlap scheduler, the greedy expert drain, route counting |
| `SpscRing` | the lock-free ring, at the granularity of atomic loads and stores |
| `TokenBucket`, `BandwidthBins` | traffic pacing, and spreading received bytes over time |
| `Prelude` | sums, ranges and division laws |

To verify the project, run `dafny verify dfyconfig.toml` in this directory.

How the model reads the source:

- Objects that update their fields are classes, and each method's contract says what the new state is, as a function of
  the old one. Properties of runs are lemmas about those functions.
- The protocol's steps are arrive, loop pass, wake, attention done, compute done, forward one token of a batch, route,
  and deliver. Delays are not modelled: any enabled step may come next, so every order of events that any delays could
  produce is covered, and more. Passing the loop top and waking up are separate steps from what follows them, and so is
  handing on each token of a batch.
- A token object is shared by all its copies, and its fanout table with it. The model keeps that table once per layer,
  keyed by token id.
- A raised exception or a failed assertion is a result, and what had changed before it stays changed.
- Floats and times are reals. Tensor rows are names, and summing rows builds a name from names.
- Sequences model the vectors and deques that methods reassign; arrays are used where the source fills a buffer in place.

Where the code does not do what its documentation or an obvious reading says, the model follows the code, and the
exact condition under which it does is proved, with a concrete failing input where that helps:

- `csrc/include/layer.h:136-137` documents a limit of zero or below as no limit. The branch is commented out at
  `csrc/muhelper/layer.cpp:161-163`: such a limit takes nothing and throws, and it is the default.
- A merge of one batch returns it unchanged, sorted or not.
- A top-k pool for one expert per token never emits anything.
- `append_block` for a request without a table takes a block off the free queue and then throws; the block is lost.
- The dispatcher's expert table ignores layers, so it is right only if an expert has one rank in all layers.
- A tokenizer batch for a layer above the first, with several experts per token, lands in a queue its layer is not
  drained from.
- The number of blocks for a sequence is not its ceiling for most lengths below one.
- A slot mapping reads the filler of the padded table, or another request's block, when a request has more tokens than
  its own blocks hold, and maps a length of zero to the slot before the request's first block.
- A negative decay can let the defragmenting scheduler idle with work queued. With histories, the sign of the total
  weight of each pipeline distance decides whether it can; without them, a decay above -1 never does.
- The two-batch-overlap finish times leave out transfers still in flight, so the last combine is not counted.
- A token bucket credits idle time at the rate that is set afterwards. Rates bound traffic window by window exactly when
  no rate is raised while the bucket is neither full nor just refilled.

## Model

| member | source | states |
|---|---|---|
| `AsyncTheorems.EveryRunEnds` | simulation/sim_async.py:518-611 | Every run of the protocol ends: no infinite sequence of steps exists from the initial state, for any arrival order, routing, scheduling policy and interleaving. |
| `AsyncTheorems.QuiescentIsDone` | simulation/sim_async.py:1368-1372 | A reachable state in which no step is enabled has completed every token of every request exactly once, in order and through every layer, finished every request once, and holds nothing in a queue, in transit or at a join: no deadlock. |
| `AsyncTheorems.NeverRaises` | simulation/sim_async.py:985-1008 | No enabled step of a reachable state raises any of the simulator's errors: over-completion, missing fanout, untracked or unknown request, missing home, index errors. |
| `AsyncTheorems.CopiesConserved` | simulation/sim_async.py:1010-1057 | While any copy of a token is queued, in a batch or in transit at a layer, copies out plus copies tallied at the join equal the fanout recorded at dispatch, and the token is nowhere else. |
| `AsyncTheorems.TalliesAreOwed` | simulation/sim_async.py:305-323 | A count held at a join is positive and short of the fanout, and exactly the missing copies are still out. |
| `AsyncTheorems.OneJob` | simulation/sim_async.py:964-975 | A token at attention has exactly one attention job, at one layer, and no copies out. |
| `AsyncTheorems.RoutedOnce` | simulation/sim_async.py:1010-1025 | A token is routed at most once at each layer, over a whole run: it enters the next layer once. |
| `AsyncTheorems.RequestsInOrder` | simulation/sim_async.py:208-291 | Waiting requests are the most recent arrivals in order and wait only behind a full cap; active requests never exceed the cap; tokens of each request complete with indices 0, 1, 2, ... in order. |
| `AsyncTheorems.OneTokenPerRequest` | simulation/sim_async.py:255-280 | Each active request has exactly one token in flight, the one dispatched last, and no other request has any. |
| `AsyncTheorems.NoLostWakeup` | simulation/sim_async.py:503-561 | A GPU asleep on an unfired event has both queues empty; cached totals are exact; a loop pass that does not sleep takes at least one token, so no loop spins in zero time. |
| `AsyncPlaces.CopiesWhereRouted` | simulation/sim_async.py:1028-1057 | Over any run, for every GPU w, local queue q, layer and token: the copies queued there or on their way there are no more than the times a routing step chose expert w * queuesPerWorker + q for the token at that layer; no queue ever holds a copy that was routed elsewhere. |
| `AsyncPlaces.DeliverAllPlaces` | simulation/sim_async.py:1028-1057 | Delivering a token leaves every queue (w, q) of its layer as it was, followed by the token once for each chosen expert equal to w * queuesPerWorker + q, and every other queue unchanged. |
| `AsyncPlaces.ServedInOrder` | simulation/sim_async.py:503-572 | In every step and on every GPU, attention jobs and the tokens of each expert queue leave first in, first out: a batch is a front of each queue of one layer, queue after queue, as many as the limit allows. |
| `AsyncPlaces.BatchForwarded` | simulation/sim_async.py:573-611 | A computed batch is handed on whole and in its own order, first token first. |
| `AsyncPlaces.HomesInTurn` | simulation/sim_async.py:214-222 | Request n lives on GPU n modulo the number of GPUs, and so do all its tokens in flight. |
| `AsyncPlaces.TaskChoice` | simulation/sim_async.py:613-637 | Attention goes first exactly when it has jobs and no layer has work or the jobs times top_k exceed the best layer's score; otherwise the first layer of greatest score is taken. |
| `AsyncTheorems.RunKeepsInv` | simulation/sim_async.py:168-1057 | Every state of every run satisfies the protocol invariant under some census of the tokens in flight. |
| `AsyncTheorems.StepReachable` | simulation/sim_async.py:1364-1372 | Reachability is closed under steps, which lets the object-level simulator inherit the theorems. |
| `AsyncTheorems.InitReachable` | simulation/sim_async.py:1109-1341 | The state a new simulation starts in is reachable, so the theorems apply from the first event. |
| `AsyncSteps.StepOk` | simulation/sim_async.py:518-611 | Any enabled step from a state satisfying the invariant raises nothing, keeps the invariant, and decreases the lexicographic measure (stages left, arrivals left, queued weight). |
| `AsyncSteps.CompleteCopyOk` | simulation/sim_async.py:977-1008 | A returning copy is tallied, or as the last one releases its token to the next layer or to completion; the invariant survives both. |
| `AsyncSteps.HandleCompletionOk` | simulation/sim_async.py:238-253 | Completing a token dispatches the request's next one or finishes the request and admits waiting ones, with strictly fewer stages left. |
| `AsyncSteps.RouteOk` | simulation/sim_async.py:1010-1025 | Recording the fanout moves a token from attention to the experts and puts exactly that many copies in transit. |
| `AsyncSteps.DeliverOk` | simulation/sim_async.py:1053-1057 | Delivering the copies of a token loses none and wakes only sleeping GPUs. |
| `AsyncSteps.PassOk` | simulation/sim_async.py:532-561 | Going through the loop top keeps the invariant and decreases the weight. |
| `AsyncSteps.WakeOk` | simulation/sim_async.py:533-536 | A fired event always finds work. |
| `AsyncSteps.ForwardOk` | simulation/sim_async.py:604-611 | Handing on one token of a finished batch completes exactly one copy. |
| `AsyncRequests.StartRequestOk` | simulation/sim_async.py:214-236 | Starting a request raises nothing and gives it its first token. |
| `AsyncRequests.AdmitQueuedOk` | simulation/sim_async.py:282-291 | Admission from the waiting queue stops only when nobody waits or the cap is reached. |
| `AsyncRequests.ArriveOk` | simulation/sim_async.py:208-212 | An arriving request starts or waits, keeping the invariant. |
| `AsyncRequests.DispatchNextOk` | simulation/sim_async.py:255-280 | Dispatching a request's next token raises nothing and fills the gap its last one left. |
| `AsyncJoins.AdvanceHolds` | simulation/sim_async.py:995-1003 | Releasing the last copy of a token at a join moves the token, whole, to the next layer's attention. |
| `AsyncJoins.RetireHolds` | simulation/sim_async.py:312-319 | The last copy at the final layer completes its token and leaves no count behind. |
| `AsyncLedger.DrainConserves` | simulation/sim_async.py:565-569 | Forming a batch moves tokens from the queues of a layer to the batch and loses none. |
| `AsyncLedger.DeliverAllEffect` | simulation/sim_async.py:1053-1057 | Delivering to valid experts adds exactly one copy per chosen expert in all and leaves every other count alone; where each copy goes is `AsyncPlaces.DeliverAllPlaces`. |
| `AsyncLedger.TakeTaskEffect` | simulation/sim_async.py:538-569 | Taking a task leaves a GPU computing one attention token or one non-empty batch. |
| `LayerPolicy.BestLayerHasWork` | simulation/sim_async.py:657-732 | Either policy returns no layer exactly when all are empty, and otherwise a layer with queued tokens. |
| `LayerPolicy.BestBelowIsArgMax` | simulation/sim_async.py:723-732 | The selection loop returns the first layer of maximal positive score. |
| `LayerPolicy.ScoresAre` | simulation/sim_async.py:657-732 | A layer's score is its queued tokens under one policy; under the other also what the next layers queue, decayed once per layer. |
| `AsyncWorker.ExpertWorker.Enqueue` | simulation/sim_async.py:503-510 | Queues a copy, counts it, and fires the event exactly when the GPU had nothing queued and it is not fired already. |
| `AsyncWorker.ExpertWorker.PutAttention` | simulation/sim_async.py:512-516 | The same for attention work. |
| `AsyncWorker.ExpertWorker.SelectNextLayerLongestFirst` | simulation/sim_async.py:657-672 | Computes the longest-layer-first choice of the policy specification. |
| `AsyncWorker.ExpertWorker.SelectNextLayerDefragging` | simulation/sim_async.py:674-732 | Computes the defragmenting choice of the policy specification. |
| `AsyncWorker.ExpertWorker.SelectNextTask` | simulation/sim_async.py:613-637 | Prefers attention exactly when its score exceeds the best layer's or no layer has work. |
| `AsyncWorker.ExpertWorker.FormBatch` | simulation/sim_async.py:563-572 | Pops the layer's queues in order up to the batch limit. |
| `AsyncWorker.ExpertWorker.RunLoopTop` | simulation/sim_async.py:531-561 | One pass through the loop top: sleep on a fresh event, or take a task. |
| `AsyncSimulation.AttentionWorker.Enqueue` | simulation/sim_async.py:964-975 | Hands a token to its home GPU or raises for a bad home. |
| `AsyncSimulation.AttentionWorker.NotifyExpertCompletion` | simulation/sim_async.py:977-1008 | Tallies a returning copy, releases the token at the last one, and raises in the source's cases. |
| `AsyncSimulation.AttentionWorker.DispatchCopies` | simulation/sim_async.py:1053-1057 | Queues one copy at every chosen expert, in order, as the delivery of the transition system does, whose queues `AsyncPlaces.DeliverAllPlaces` describes. |
| `AsyncSimulation.FinalCompletionTracker.RecordCompletion` | simulation/sim_async.py:305-323 | The final join. |
| `AsyncSimulation.RequestManager.DispatchNextToken` | simulation/sim_async.py:255-280 | Issues the next token of a request, or raises as the source does. |
| `AsyncSimulation.RequestManager.StartRequestNow` | simulation/sim_async.py:214-236 | Starts a request on the next home GPU. |
| `AsyncSimulation.RequestManager.Admit` | simulation/sim_async.py:208-212 | Starts a request or queues it. |
| `AsyncSimulation.RequestManager.MaybeAdmitQueuedRequests` | simulation/sim_async.py:282-291 | Admits waiting requests, oldest first, while there is room. |
| `AsyncSimulation.RequestManager.HandleTokenCompletion` | simulation/sim_async.py:238-253 | Records a completion, then dispatches or finishes. |
| `AsyncSimulation.Simulation.Step` | simulation/sim_async.py:168-1057 | The objects, wired as in the simulation, take every step exactly as the transition system says. |
| `AsyncSimulation.Simulation.SafeStep` | simulation/sim_async.py:168-1057 | From a reachable state no step of the objects raises, and the new state is reachable. |
| `AsyncSimulation.Simulation.constructor` | simulation/sim_async.py:1155-1341 | Building the objects gives the initial state. |
| `CountingSort.NextPosition` | csrc/include/metadata.hpp:276-286 | The mutated prefix sums, with the separate counter for expert 0, hand token i its stable rank and stay consistent for token i + 1. |
| `CountingSort.PrefixSums` | csrc/include/metadata.hpp:272-274 | In place, counts become the number of tokens of experts up to each. |
| `CountingSort.SortPositions` | csrc/include/metadata.hpp:263-286 | The positions are the stable ranks of the expert ids. |
| `CountingSort.RanksArePermutation` | csrc/include/metadata.hpp:277-286 | The positions are a permutation: distinct and in range. |
| `CountingSort.RankOrder` | csrc/include/metadata.hpp:277-286 | Positions order tokens by expert first and arrival second, and only so: the sort is stable. |
| `CountingSort.ScatterIsStableSort` | csrc/include/vector_utils.hpp:27-35 | Scattering a vector to the positions is the reference stable sort by expert. |
| `CountingSort.StableSortCount` | csrc/include/metadata.hpp:263-289 | The stable sort holds every value as often as its input. |
| `CountingSort.StableSortSorted` | csrc/include/metadata.hpp:263-289 | The stable sort of the expert ids is in increasing order. |
| `CountingSort.PermutationIsOnto` | csrc/include/vector_utils.hpp:27-35 | A permutation leaves no output place unwritten. |
| `CountingSort.Permute` | csrc/include/vector_utils.hpp:27-35 | Element i of the input is element positions[i] of the output; an empty vector stays empty. |
| `Batches.MergeMetaByExpert` | csrc/include/metadata.hpp:379-445 | All five vectors of the concatenated inputs are scattered to the stable counting-sort positions, which are also returned. |
| `Batches.PlaceRows` | csrc/include/batch.hpp:87-98 | The row loop puts every row pointer at the position of its own token. |
| `Batches.ScatteredTokensSorted` | csrc/include/batch.hpp:75-103 | The metadata loop and the row loop agree: token by token, row included, the merge is the stable sort by expert. |
| `Batches.MergeByExpert` | csrc/include/batch.hpp:62-104 | Merging several batches is the stable sort by expert of all their tokens; one batch comes back unchanged. |
| `Batches.TokensAreColumns` | csrc/include/metadata.hpp:396-433 | Concatenated columns and rows, zipped, are the tokens of all batches in order. |
| `Batches.MergeMetaByAttention` | csrc/include/metadata.hpp:447-490 | Merged metadata lists all prefill tokens batch after batch, then all decode tokens. |
| `Batches.PlaceAttentionRows` | csrc/include/batch.hpp:130-151 | The two row cursors fill the prefill and the decode region in the same order as the metadata. |
| `Batches.MergeByAttention` | csrc/include/batch.hpp:106-159 | Rows and metadata of the merge agree token by token: all prefill tokens, then all decode tokens. |
| `BatchMerge.MergedSortedIff` | csrc/include/batch.hpp:161-169 | A merge is sorted by expert exactly when it has two inputs or more, or its one input was sorted. |
| `BatchMerge.SingleUnsortedBatch` | csrc/include/batch.hpp:165-167 | An unsorted single batch comes back unsorted. |
| `BatchMerge.MergeConserves` | csrc/include/batch.hpp:62-104 | An expert merge holds every (row, request, expert, rank, weight) token exactly as often as its inputs. |
| `BatchMerge.AttentionMergeConserves` | csrc/include/batch.hpp:106-159 | An attention merge holds every (row, request, length) token exactly as often as its inputs. |
| `BatchMerge.MergedPrefillFirstIff` | csrc/include/metadata.hpp:454-474 | The merged batch has its prefill tokens first exactly when every input had. |
| `BatchMerge.Merge` | csrc/include/batch.hpp:161-175 | Chooses the merge by the first batch's tag; nothing for no batches, one batch as it is. |
| `BatchSplit.SplitWithSizes` | csrc/include/metadata.hpp:318-368 | Piece i holds tokens base_i to base_i + size_i of every vector and of the rows; attention pieces recount their prefill tokens. |
| `BatchSplit.SplitVector` | csrc/include/vector_utils.hpp:62-75 | Consecutive pieces of the given sizes; an absent vector has absent pieces. |
| `BatchSplit.PieceRouted` | csrc/include/batch.hpp:51-60 | The tokens of a piece are that stretch of the batch's tokens, rows beside their own metadata. |
| `BatchSplit.PieceAttention` | csrc/include/metadata.hpp:327-350 | A piece of an attention batch passes the safe check again, counts the prefill tokens of its own stretch, and keeps prefill tokens first. |
| `BatchSplit.PrefillsCounted` | csrc/include/metadata.hpp:329-336 | The recount is the number of positions whose length is not -1. |
| `BatchSplit.MovedUnique` | csrc/include/vector_utils.hpp:27-35 | The result of permuting a vector is determined by the positions. |
| `BatchSplit.BatchMetadata.PermuteTokenInfos` | csrc/include/metadata.hpp:202-212 | In place, every present vector is sent to the positions; no positions change nothing. |
| `BatchSplit.BatchMetadata.SortByExpert` | csrc/include/metadata.hpp:263-289 | In place, the metadata is stably sorted by expert and the positions are returned. |
| `BatchSplit.MovedIsStableSort` | csrc/include/metadata.hpp:263-289 | After sorting in place the expert ids are their stable sort, in increasing order. |
| `BatchSplit.MergeIsSortOfConcatenation` | csrc/include/metadata.hpp:379-445 | Merging by expert gives the same positions and the same vectors as sorting the concatenation in place. |
| `Chunks.GetChunkSizes` | csrc/include/metadata.hpp:223-236 | The chunks are the maximal runs of equal keys; a batch without tokens has one chunk of size zero. |
| `Chunks.RunsUnique` | csrc/include/metadata.hpp:223-236 | There is only one way to cut keys into maximal runs, so every run-splitting loop below computes the same sizes. |
| `Chunks.SplitByExpert` | csrc/include/batch.hpp:40-49 | Cuts a batch into the pieces of its maximal runs: of one expert in an expert batch, of one attention rank otherwise. |
| `Dispatcher.UnifiedDispatcher.constructor` | csrc/muhelper/dispatcher.cpp:12-38 | The tables hold the last placement of each expert and the last channel to each rank, or -1. |
| `Dispatcher.TableRightIff` | csrc/muhelper/dispatcher.cpp:30-35 | The expert table, which ignores layers, is right about every placement exactly when no expert has two ranks. |
| `Dispatcher.LayersCollide` | csrc/muhelper/dispatcher.cpp:30-35 | A layer-dependent placement the table gets wrong. |
| `Dispatcher.ChannelOwnsRank` | csrc/muhelper/dispatcher.cpp:36-39 | A channel found for a rank leads to that rank, and none is found only if there is none. |
| `Dispatcher.UnifiedDispatcher.ExpertChannelOwns` | csrc/muhelper/dispatcher.cpp:7-10 | The channel used for an expert leads to the rank of the expert's last placement, and is the last channel that leads there. |
| `Dispatcher.OwnersHaveExpert` | csrc/muhelper/dispatcher.cpp:30-39 | When no expert has two ranks, the expert of every token delivered over a channel has all its placements on the rank that channel leads to. |
| `Dispatcher.UnifiedDispatcher.ExpertRuns` | csrc/muhelper/dispatcher.cpp:51-58 | The two-index loop cuts the tokens into maximal runs for one channel. |
| `Dispatcher.UnifiedDispatcher.RankRuns` | csrc/muhelper/dispatcher.cpp:70-76 | The two-index loop cuts the tokens into maximal runs for one rank. |
| `Dispatcher.DeliveredIsFilter` | csrc/muhelper/dispatcher.cpp:60-64 | What arrives over a channel is exactly the tokens for it, in their original order. |
| `Dispatcher.UnifiedDispatcher.SendToExpert` | csrc/muhelper/dispatcher.cpp:48-65 | Every channel receives exactly the tokens of its experts, in order, rows beside their metadata; and for the placements and channels the dispatcher was built from, every token delivered over a channel has its expert last placed on the rank that channel leads to. |
| `Dispatcher.UnifiedDispatcher.SendToAttn` | csrc/muhelper/dispatcher.cpp:67-83 | Every channel receives exactly the tokens of its ranks, in order, and every token delivered over a channel has the rank that channel leads to. |
| `DataPlane.ExpertHopConserves` | csrc/muhelper/dispatcher.cpp:48-65 | Split, deliver, retag, merge: over all channels the merged batches hold every token sent exactly as often, with its own row, request and expert. |
| `DataPlane.MergedAtOwners` | csrc/muhelper/dispatcher.cpp:48-65 | After the hop, the batch merged at a channel holds only tokens whose expert is last placed on the rank that channel leads to. |
| `DataPlane.AttentionHopConserves` | csrc/muhelper/dispatcher.cpp:67-83 | Split, deliver, retag, merge by attention: a receiver holds every token sent over its channel exactly as often, with its own row and request. |
| `LayerQueue.DrainTakesPrefix` | csrc/muhelper/layer.cpp:39-66 | A drain takes exactly the first min(t, queued) tokens in order and leaves the rest in order, for any limit. |
| `LayerQueue.DrainCutsOneBatch` | csrc/muhelper/layer.cpp:46-53 | A drain cuts one batch at most; all others are taken or left whole. |
| `LayerQueue.NonPositiveLimit` | csrc/include/layer.h:136-139 | A limit of zero or below, documented as no limit, takes nothing; that is everything only if nothing is queued. |
| `LayerQueue.DefaultLimitFails` | csrc/muhelper/pool.cpp:108-118 | With the default limit of -1 a queued token is not taken. |
| `LayerQueue.UnifiedLayer.AddBatch` | csrc/muhelper/layer.cpp:18-26 | Appends a batch and keeps the token counter exact. |
| `LayerQueue.UnifiedLayer.GetAllBatches` | csrc/muhelper/layer.cpp:28-37 | Takes every batch; the counter reset is exact exactly when no gathered token is queued beside them. |
| `LayerQueue.UnifiedLayer.GetBatchesRestricted` | csrc/muhelper/layer.cpp:39-66 | The loop computes the drain, keeps the counter exact, and fails exactly when it took nothing. |
| `LayerQueue.UnifiedLayer.GetAllTokens` | csrc/muhelper/layer.cpp:79-87 | Takes every gathered token; the counter reset is exact exactly when no batch token is queued. |
| `LayerQueue.UnifiedLayer.GetTokensRestricted` | csrc/muhelper/layer.cpp:89-100 | Takes the first min(t, queued) gathered tokens, and none for a limit of zero or below. |
| `TopKPool.JoinIsExact` | csrc/muhelper/muhelper.cpp:1086-1124 | For every arrival sequence and every request, full groups of k arrivals are emitted in order and the rest is held. |
| `TopKPool.JoinIsExactIff` | csrc/muhelper/muhelper.cpp:1108-1121 | The join is exact for all arrivals if and only if k is at least two. |
| `TopKPool.SingleNeverEmits` | csrc/muhelper/muhelper.cpp:1108-1121 | With k of one nothing is ever emitted. |
| `TopKPool.GroupsCount` | csrc/muhelper/muhelper.cpp:1114-1121 | Arrivals are k times the emissions plus fewer than k pending, and each emission has k tensors. |
| `TopKPool.GroupsKeepOrder` | csrc/muhelper/muhelper.cpp:1113-1116 | Emitted tensors followed by pending ones are the arrived rows in arrival order. |
| `TopKPool.GroupsAre` | csrc/muhelper/muhelper.cpp:1110-1125 | Emission j carries the request, length and rank of arrival j * k and the rows of that arrival and the k - 1 after it. |
| `TopKPool.ArrivalsForAre` | csrc/muhelper/muhelper.cpp:1110-1124 | The arrivals of a request are all of its arrivals, as often as they came and in order, and no others. |
| `TopKPool.ReadyGrows` | csrc/muhelper/muhelper.cpp:1124-1125 | An arrival adds one ready token at most, behind all others. |
| `TopKPool.ExactAccounts` | csrc/muhelper/muhelper.cpp:1080-1124 | The books of a pool at any time: arrivals, emissions and held tensors of each request balance, in order. |
| `TopKPool.TokenTopKPool.PutBatch` | csrc/muhelper/muhelper.cpp:1086-1124 | Puts every token of a batch, keeping the join exact. |
| `TopKPool.TokenTopKPool.FetchReadyTokens` | csrc/muhelper/muhelper.cpp:1080-1084 | Hands over the ready tokens and keeps the join exact. |
| `PackTopK.PackMeta` | csrc/include/metadata.hpp:492-534 | Packed metadata lists the tokens in order and counts prefill and decode tokens. |
| `PackTopK.Pack` | csrc/include/batch.hpp:177-212 | Whatever order the sort leaves equal tokens in, each packed row is the sum of exactly the tensors of the token beside it, its rank beside it too, prefill tokens come first and by sequence, and the batch carries the given layer. |
| `PackTopK.SortTokens` | csrc/include/batch.hpp:178-185 | Some permutation the comparison allows. |
| `UnifiedPool.UnifiedPool.ProcessBatch` | csrc/muhelper/pool.cpp:92-106 | Does exactly the model's step: the retagged batch, or the tokens its copies complete, are appended to its one target layer; the pool stays ready to be drained exactly when the batch is refused, or not a tokenizer batch for a gathering layer. |
| `UnifiedPool.UnifiedPool.ProcessAttnBatchTopK` | csrc/muhelper/pool.cpp:47-56 | Arrived copies are pooled and exactly the completed tokens are queued; no other layer and no other pool changes. |
| `UnifiedPool.UnifiedPool.ProcessAttnBatch` | csrc/muhelper/pool.cpp:58-80 | Retags a batch for attention with its own prefill and decode counts and queues it. |
| `UnifiedPool.UnifiedPool.ProcessExpertBatch` | csrc/muhelper/pool.cpp:82-90 | Retags a batch for the experts and queues it; refuses several groups. |
| `UnifiedPool.UnifiedPool.GetBatchFromLayer` | csrc/muhelper/pool.cpp:108-118 | On any pool the constructor made and calls kept ready: a batch comes out exactly when the layer's limit is positive and the layer has tokens, is of the kind and for the layer it is drained from, holds exactly the drained front of its queue, and the pool stays ready. |
| `UnifiedPool.UnifiedLayerScheduler.GetBatchesRestricted` | csrc/muhelper/layer.cpp:157-177 | The batch is the merge of exactly the drained front of the queue, and is for that layer. |
| `UnifiedPool.UnifiedLayerScheduler.GetTokensRestricted` | csrc/muhelper/layer.cpp:164-169 | The batch packs exactly the first min(t, queued) gathered tokens, each beside its own rank, and is for that layer. |
| `UnifiedPool.UnifiedLayerScheduler.AddBatch` | csrc/muhelper/layer.cpp:211-220 | The batch goes to the queue of its own layer and kind, and only there. |
| `UnifiedPool.FirstServed` | csrc/muhelper/layer.cpp:247-265 | The choice is -1 exactly when all layers are empty, else the non-empty layer earliest in the pipeline. |
| `PoolModel.DrainKeepsKind` | csrc/muhelper/layer.cpp:46-56 | What a drain takes and what it leaves are batches of the layer's kind and carry the layer's id, cut ones included. |
| `PoolModel.BatchesBalance` | csrc/muhelper/pool.cpp:47-118 | Over any sequence of calls, the tokens drained from a layer followed by those still queued are all the tokens routed to it, in the order they arrived. |
| `PoolModel.TokensBalance` | csrc/muhelper/pool.cpp:47-118 | Over any sequence of calls, the gathered tokens drained from a layer followed by those still queued are what the join emits for all copies that arrived, in order; the rest are held. |
| `PoolModel.EveryGroupOnce` | csrc/muhelper/pool.cpp:47-118 | Per sequence, every full group of copies leaves or waits as one token with exactly its tensors, in order. |
| `PoolModel.ProcessReadyIff` | csrc/muhelper/pool.cpp:92-106 | A pool that can be drained stays so exactly when the batch it processes is refused or not misrouted. |
| `PoolModel.TokenizerBatchLost` | csrc/muhelper/pool.cpp:92-94 | A tokenizer batch for layer 1 with two experts per token that no drain, whatever its limit, takes out again. |
| `DefragScheduler.InversesIff` | csrc/muhelper/layer.cpp:336-348 | The pipeline-position maps stay in range and undo each other exactly when attention layers match expert layers or exceed them by one. |
| `DefragScheduler.PositiveScoreIff` | csrc/muhelper/layer.cpp:350-386 | With a decay that is not negative exactly the layers with work have a positive score. |
| `DefragScheduler.BestHasWork` | csrc/muhelper/layer.cpp:388-403 | The scheduler idles exactly when all layers are empty and otherwise picks a layer with work. |
| `DefragScheduler.EffectiveIs` | csrc/include/layer.h:177-184 | Queued tokens count in full at an attention layer; at an expert layer the count times top_k is the number queued. |
| `DefragScheduler.PipelineOrder` | csrc/muhelper/layer.cpp:327-343 | From an attention layer the next place is its expert layer, and from there the next attention layer. |
| `DefragScheduler.AheadIs` | csrc/muhelper/layer.cpp:356-375 | The work looked at k places ahead is that of the layer whose pipeline position is k further around the circle. |
| `DefragScheduler.ScoreIs` | csrc/muhelper/layer.cpp:345-379 | A layer with work scores that work plus what the next layers hold, one decay for each place: decay * (work ahead + decay * (...)). |
| `DefragScheduler.UnifiedDefraggingLayerScheduler.HistoryIsAverage` | csrc/muhelper/layer.cpp:288-373 | On any valid scheduler, a layer's history contribution times the snapshots in its window is the sum of its last min(lookback, recorded) snapshots, and lies between the least and the greatest of them. |
| `DefragScheduler.NegativeDecayIdles` | csrc/muhelper/layer.cpp:358-386 | A negative decay under which a layer with work is passed over. |
| `DefragDecay.NeverIdlesIff` | csrc/muhelper/layer.cpp:317-403 | With histories in use, the scheduler never idles while there is work exactly when no weight over the wrapped lookahead is negative; a decay that is not negative is enough. |
| `DefragDecay.LookaheadIsWeighted` | csrc/muhelper/layer.cpp:361-385 | A lookahead score is the sum over pipeline distances of that layer's work times its total weight, wrap-around included. |
| `DefragDecay.IdlesWithWork` | csrc/muhelper/layer.cpp:317-403 | With histories in use, any negative weight is enough to idle with work queued, after a suitable history. |
| `DefragNoHistory.NoHistoryIdles` | csrc/muhelper/layer.cpp:317-403 | Without histories a decay above -1 never idles while there is work; for an even lookahead no other decay is safe; a lookahead of one or three is always safe. |
| `DefragNoHistory.SomePlaceReaches` | csrc/muhelper/layer.cpp:361-386 | For any circular work that is not all zero and any decay between -1 and 1, some place with work has a positive decayed sum, however many places are summed. |
| `DefragNoHistory.FiveIdlesOnThree` | csrc/muhelper/layer.cpp:317-403 | A lookahead of five with a decay of -1 idles with one token queued when there are three layers. |
| `DefragScheduler.UnifiedDefraggingLayerScheduler.StepEnd` | csrc/muhelper/layer.cpp:288-307 | Each running sum stays the sum of the last lookback snapshots. |
| `DefragScheduler.UnifiedDefraggingLayerScheduler.ScoreLayer` | csrc/muhelper/layer.cpp:350-386 | The loop computes the score, which `ScoreIs`, `AheadIs`, `EffectiveIs` and `HistoryIsAverage` describe in terms of queued tokens and recorded snapshots. |
| `DefragScheduler.UnifiedDefraggingLayerScheduler.ChooseBest` | csrc/muhelper/layer.cpp:388-397 | The first layer of maximal positive score, or -1. |
| `DefragScheduler.UnifiedDefraggingLayerScheduler.ScheduleWithSnapshot` | csrc/muhelper/layer.cpp:309-411 | Decides on the queue lengths snapshot, by the scores of the averages recorded so far, and records the floor of the effective tokens of every layer exactly when some layer has work. |
| `BlockManager.NeededIsCeilIff` | csrc/engine/block_manager.cpp:66 | The block count is the least that holds the sequence exactly when the length is positive or one more than a non-positive multiple. |
| `BlockManager.EmptySequenceNeedsABlock` | csrc/engine/block_manager.cpp:66 | An empty sequence is charged a block. |
| `BlockManager.AddedIsCeil` | csrc/engine/block_manager.cpp:108-113 | Appending n tokens takes an exact number of blocks to the exact number for the longer context. |
| `BlockManager.AppendKeepsCeil` | csrc/engine/block_manager.cpp:102-123 | A table of ceil(context / size) blocks has ceil((context + n) / size) after append_tokens. |
| `BlockManager.StepSound` | csrc/engine/block_manager.cpp:41-123 | No operation, failing or not, ever puts a block in two places. |
| `BlockManager.StepPartitionIff` | csrc/engine/block_manager.cpp:41-123 | An operation keeps the partition of all blocks exactly unless it appends a block to an unknown request while one is free. |
| `BlockManager.RunPartitionIff` | csrc/engine/block_manager.cpp:41-123 | Over any sequence of operations, blocks are partitioned by free queue and tables exactly when no append_block leaked one. |
| `BlockManager.FromStartPartitionIff` | csrc/engine/block_manager.cpp:11-123 | From the constructor on, all num_blocks + reserved blocks stay partitioned exactly when no append_block leaked one. |
| `BlockManager.LeakLoses` | csrc/engine/block_manager.cpp:80-88 | append_block on an unknown request takes a block off the queue and throws: that block is nowhere any more. |
| `BlockManager.StepKeepsSlots` | csrc/engine/block_manager.cpp:41-123 | Whatever an operation does, failing or not, a request it does not release keeps the slot of every position it had room for: its old table is the start of its new one. |
| `BlockManager.RunKeepsSlots` | csrc/engine/block_manager.cpp:41-123 | Over any sequence of operations that does not release a request, every position it had room for keeps its slot. |
| `BlockManager.RunIsFifo` | csrc/engine/block_manager.cpp:22-123 | Over any sequence of operations, the blocks handed out followed by those still free are the free queue at the start followed by those given back, in order. |
| `BlockManager.FromStartIsFifo` | csrc/engine/block_manager.cpp:11-123 | From the constructor on, blocks are handed out in the order 0, 1, 2, ..., and then in the order they were released. |
| `BlockManager.AllocateSucceedsIff` | csrc/engine/block_manager.cpp:61-78 | A new request gets its blocks exactly when the reserved ones stay free beside the least number that holds its tokens. |
| `BlockManager.AppendSucceedsIff` | csrc/engine/block_manager.cpp:102-123 | Tokens are appended exactly when they fit the request's blocks, or at least one block stays free beside the new ones. |
| `BlockManager.ReservedStaysFree` | csrc/engine/block_manager.cpp:70 | A successful allocation leaves the reserved blocks free; growing a table leaves one free. |
| `BlockManager.UpdateKeepsCeil` | csrc/engine/block_manager.cpp:125-140 | A scheduling step that does not throw leaves every table exact for one token more. |
| `BlockManager.SlotsDistinct` | csrc/engine/block_manager.cpp:165-172 | Address translation is injective and in range over all requests and positions within capacity. |
| `BlockManager.FlatAt` | csrc/engine/block_manager.cpp:154-163 | Entry j of row i of the flat table is block j of request i, or the filler. |
| `BlockManager.SlotIsOwnIff` | csrc/engine/block_manager.cpp:165-172 | Over the whole table, a mapped slot is a slot of the request's own blocks, and then that of its last token, exactly when its tokens fit its own table; beyond it the filler or another request's block is read. |
| `BlockManager.ZeroLengthSlot` | csrc/engine/block_manager.cpp:165-172 | A length of zero is mapped to the slot just before the request's first block. |
| `BlockManager.BlockManager.constructor` | csrc/engine/block_manager.cpp:11-19 | All blocks, reserved ones included, are free in order. |
| `BlockManager.BlockManager.CanAllocate` | csrc/engine/block_manager.cpp:50-53 | Agrees with allocation of a new request whenever the block count is not negative. |
| `BlockManager.BlockManager.Allocate` | csrc/engine/block_manager.cpp:61-78 | Takes the oldest free blocks, or throws and changes nothing. |
| `BlockManager.BlockManager.AppendTokens` | csrc/engine/block_manager.cpp:102-123 | Adds the blocks needed if strictly more are free, or throws and changes nothing. |
| `BlockManager.BlockManager.AppendBlock` | csrc/engine/block_manager.cpp:80-88 | Adds one block, or throws; for an unknown request after taking one. |
| `BlockManager.BlockManager.Release` | csrc/engine/block_manager.cpp:41-48 | Returns a table's blocks to the end of the queue. |
| `BlockManager.BlockManager.BatchRelease` | csrc/engine/block_manager.cpp:55-59 | Releases in order up to the first that throws. |
| `BlockManager.BlockManager.UpdateBlockTable` | csrc/engine/block_manager.cpp:125-140 | Allocates, then appends, in order up to the first that throws; what was done before stays done. |
| `BlockManager.BlockManager.PrepareBlockTable` | csrc/engine/block_manager.cpp:143-172 | The flat array is the padded rows followed by the slots, each computed from what its lookup reads in the array as filled so far. |
| `TboScheduler.ScheduleBounds` | simulation/sim_tbo.py:902-1000 | Tasks start in non-decreasing order, compute never overlaps, each finish is at least that microbatch's solo chain, and the makespan lies between total compute and the sum of all durations. |
| `TboScheduler.ScheduleTrace` | simulation/sim_tbo.py:928-998 | On the trace of any schedule: every task runs once and in order, and starts exactly when what it waits for has ended (compute on its own tasks and on other compute, a transfer on its own compute); where both microbatches could launch at the same time, transfers go before compute, and then the first microbatch; a finish time is the end of the last own compute. |
| `TboScheduler.StepInv` | simulation/sim_tbo.py:928-998 | Running the picked task keeps order, exclusivity and all bounds. |
| `TboScheduler.AlternatingChain` | simulation/sim_tbo.py:684-689 | For alternating compute and transfers, the solo chain is the sum of all durations but a trailing transfer. |
| `TboScheduler.FinishCoversTransfersIff` | simulation/sim_tbo.py:984-1000 | For layers of alternating tasks, a reported finish covers all of its transfers exactly when the last combine takes no time. |
| `TboScheduler.LastCombineNotCounted` | simulation/sim_tbo.py:1000 | A trailing combine does not show in the finish time. |
| `TboScheduler.PickNext` | simulation/sim_tbo.py:929-951 | Picks the earliest start, transfers before compute, then the first microbatch; raises on unknown kinds. |
| `TboScheduler.ScheduleResources` | simulation/sim_tbo.py:902-1000 | The loop computes the schedule's ready times, and raises exactly when a kind is unknown. |
| `TboScheduler.SplitIntoMicrobatches` | simulation/sim_tbo.py:651-662 | Tokens are sorted by request and id and dealt alternately; the id map says who got which token. |
| `TboScheduler.OrderedUnique` | simulation/sim_tbo.py:654 | Two orderings of the same tokens are equal, so the split does not depend on the order the tokens come in. |
| `TboScheduler.DealtBalanced` | simulation/sim_tbo.py:658-661 | Dealing loses nothing and balances to within one token. |
| `GreedyDrain.Worker.SimulateComputeTime` | simulation/sim_sync.py:646-665 | Draining the longest queue first ends, in the closed-form time, with the closed-form batch count and recorded size, in batches that never grow. |
| `GreedyDrain.OrderIndependent` | simulation/sim_tbo.py:880-899 | Time and batch count do not depend on the order of the queues. |
| `GreedyDrain.BatchOff` | simulation/sim_sync.py:655-664 | One batch off a queue takes its own time off the closed form. |
| `RouteCounts.RouteLayer` | simulation/sim_sync.py:594-644 | Each queue holds as many copies as its expert's id was given, and each worker knows of every home as many as ids of its experts were given to tokens of that home; fanouts count the ids that are not negative; it raises exactly when a token has no such id or some id is out of range, at the first such token and id. |
| `RouteCounts.SelectedAre` | simulation/sim_sync.py:622-626 | The experts selected are the ids that are not negative, expert 0 included, each as often as it was given. |
| `RouteCounts.SentIsGiven` | simulation/sim_sync.py:635-643 | What a home sends to a worker are the ids of that worker's contiguous range of experts given to the home's tokens. |
| `RouteCounts.SourcesAreQueued` | simulation/sim_sync.py:635-643 | What all homes send to a worker is what its queues hold. |
| `RouteCounts.Home` | simulation/sim_sync.py:635-637 | Worker and queue of an expert are the only pair with its id. |
| `RouteCounts.NoCopyLost` | simulation/sim_sync.py:623-643 | All experts' counts together are the copies routed. |
| `RouteCounts.FanoutsAreCopies` | simulation/sim_sync.py:626 | The recorded fanouts add up to the copies routed. |
| `SpscRing.MaskIsModIff` | csrc/include/ucxq.hpp:70-76 | Masking with capacity - 1 is the remainder exactly for powers of two. |
| `SpscRing.StepInv` | csrc/include/ucxq.hpp:78-98 | Every atomic step of either side keeps the ring's invariant, however stale the index it read. |
| `SpscRing.RunIsFifo` | csrc/include/ucxq.hpp:66-104 | In every interleaving the dequeued items are a prefix of the enqueued ones, at most capacity - 1 are held, no full slot is written and no empty one read. |
| `SpscRing.SpscRing.TryEnqueue` | csrc/include/ucxq.hpp:78-87 | Uninterrupted, an enqueue succeeds exactly when fewer than capacity - 1 items are held. |
| `SpscRing.SpscRing.TryDequeue` | csrc/include/ucxq.hpp:89-98 | Uninterrupted, a dequeue returns the oldest item exactly when there is one. |
| `SpscRing.SpscRing.CheckTail` | csrc/include/ucxq.hpp:81-83 | The full test against a possibly stale tail. |
| `SpscRing.SpscRing.CheckHead` | csrc/include/ucxq.hpp:91-93 | The empty test against a possibly stale head. |
| `TokenBucket.RunValid` | interference_gen/ucx_sender.c:149-177 | Tokens stay between zero and the burst over any run of refills, consumes and rate changes. |
| `TokenBucket.RunBound` | interference_gen/ucx_sender.c:149-177 | Bytes consumed plus tokens left are at most the tokens there plus the largest rate times the elapsed time. |
| `TokenBucket.ConsumptionBound` | interference_gen/ucx_ring_node.c:147-174 | Between any two refills at most the burst plus the largest rate in force times the elapsed time is consumed. |
| `TokenBucket.WithinRatesIff` | interference_gen/ucx_sender.c:387-424 | Over every stretch of a run, bytes consumed and credit left are within the credit before and what the rates in force allow window by window, exactly when every rate change lowers the rate, follows a refill at once, or finds the bucket full. |
| `TokenBucket.SetRateWithin` | interference_gen/ucx_ring_node.c:965-971 | One rate change credits no more than the old rate allows exactly when it is safe in that sense. |
| `TokenBucket.WindowBound` | interference_gen/ucx_sender.c:387-424 | Without an unsafe change, all bytes consumed are within the tokens at the start and what the rates allow window by window. |
| `TokenBucket.IdleTimeEarnsNextRate` | interference_gen/ucx_sender.c:393-424 | A run of an active, an idle and an active window whose last change is unsafe: it sends three bursts where the rates allow 2.25. |
| `TokenBucket.SendableIff` | interference_gen/ucx_sender.c:162-177 | While the rate is positive a message can be sent sooner or later exactly when it fits the burst. |
| `TokenBucket.TokenBucket.DoRefill` | interference_gen/ucx_sender.c:149-157 | Credits elapsed time at the current rate up to the burst. |
| `TokenBucket.TokenBucket.DoTryConsume` | interference_gen/ucx_ring_node.c:167-174 | Refills, then takes the bytes if they are there. |
| `TokenBucket.TokenBucket.Consume` | interference_gen/ucx_sender.c:162-200 | Retries, with one reading of the clock to refill and another for the deadline, and consumes the bytes exactly when it succeeds; it fails only on a stop or past the deadline, and makes no try after either. |
| `TokenBucket.RunRateLoop` | interference_gen/ucx_sender.c:367-424 | Every message posted and every failed post is paid for, and all bytes are within the burst plus the largest rate times the elapsed time; each window is entered at its start, played at its own rate with no gap between consumes, or idly if that is negligible, and is left at its end; it ends early or is left out only on a stop or after more than a hundred failed posts. |
| `TokenBucket.RunWindow` | interference_gen/ucx_sender.c:405-424 | The consumes of one window, each started before its end and waiting no longer than to it: if the clock is before the end and nothing stops the run, the first is made at once, each next one follows the last without a gap, and the window is left only at a late reading, a stop, a failed consume, or more than a hundred failed posts. |
| `BandwidthBins.BuildRecvEvents` | experiments/process_and_plot_advanced_logging.py:662-693 | One event per row read, device after device, local ones only if asked for, all of positive duration, each with its row's peer, layer, bytes and flag and the node of its device. |
| `BandwidthBins.SharesAreBytes` | experiments/process_and_plot_advanced_logging.py:706-717 | The shares of an event over the covered bins add up to its bytes, also when it ends on the last edge. |
| `BandwidthBins.SharesFollowTime` | experiments/process_and_plot_advanced_logging.py:706-717 | Up to any bin edge, the shares are to the bytes as the time of the event before that edge is to all of it. |
| `BandwidthBins.NodeBytesAreReceived` | experiments/process_and_plot_advanced_logging.py:662-693 | The events of node n carry exactly the remote bytes logged by devices 2n and 2n + 1. |
| `BandwidthBins.NothingOutside` | experiments/process_and_plot_advanced_logging.py:709-710 | An event has no time in a bin outside the clamped range it is spread over. |
| `BandwidthBins.NodeConserves` | experiments/process_and_plot_advanced_logging.py:696-719 | Per node, the bins add up to the bytes its devices received. |
| `BandwidthBins.NodesConserve` | experiments/process_and_plot_advanced_logging.py:696-719 | All nodes together received all bytes. |
| `BandwidthBins.SpreadEvent` | experiments/process_and_plot_advanced_logging.py:707-717 | Each bin of the event's node grows by exactly its share, and no other bin changes. |
| `BandwidthBins.BuildNodeBandwidthSeries` | experiments/process_and_plot_advanced_logging.py:696-719 | Each bin holds exactly its share of every remote event of its node, the bins cover all events and are no more than that takes, and every node's series adds up to the remote bytes logged by its two devices; there is none exactly when there are no events. |

## Left out

- AsyncTheorems.EveryRunEnds: runs have finitely many requests, as the simulator's do; its option to stop early after a number of tokens ends runs sooner and is not modelled.
- AsyncSimulation.Simulation.Step: simulated time, transfer delays, ingress ports, latency records, progress output and the debug state are not modelled; nothing they do changes which step is possible.
- AsyncWorker.ExpertWorker.SelectNextTask: the two older policies that choose one queue instead of one layer are not called by the loop and are left out.
- AsyncTheorems.NeverRaises: routing is an arbitrary non-empty list of valid expert ids, and the configuration has at least one layer, worker, queue, token per request, active request and batch slot.
- CountingSort.NextPosition: expert ids are below 128, the size of the source's counter array; the array is static and shared between calls, and calls do not overlap here.
- BatchSplit.BatchMetadata.PermuteTokenInfos: positions are a permutation, as its callers' are; with others some places would keep default values.
- Batches.MergeByExpert: the copying kernel is taken to copy row i from pointer i; the tensor shape and data type are not modelled.
- PackTopK.SortTokens: lengths are -1 or not negative, as documented; below -1 the comparison is not an order. Packing no tokens reads past the end in the source and gives nothing here.
- LayerQueue.UnifiedLayer.GetBatchesRestricted: on an empty queue the source's failure message itself reads the front of the queue; here that is the same failure as any other.
- UnifiedPool.UnifiedLayerScheduler.GetBatchesRestricted: batches are of the layer's kind, and for `GetTokensRestricted` tokens have equally many tensors and lengths of -1 or more; the pool's constructor and calls establish and keep this.
- UnifiedPool.UnifiedPool.GetBatchFromLayer: locks are left out, as calls do not overlap; the unrestricted getter merges what `GetAllBatches` takes.
- DefragNoHistory.NoHistoryIdles: for an odd lookahead of five or more only one direction is proved, that a decay above -1 never idles. Which other decays do then depends on the number of layers as well, as `FiveIdlesOnThree` shows for three layers.
- DefragDecay.NeverIdlesIff: it is about schedulers that keep histories; without them `DefragNoHistory.NoHistoryIdles` applies.
- BlockManager.BlockManager.PrepareBlockTable: only lookups outside the flat array are excluded, where the source reads out of bounds; the GPU variant computes the same two parts in separate buffers, so there the array ends with the rows.
- BlockManager.SlotIsOwnIff: it is about lookups within the rows; in the slots behind them the array holds numbers that are not blocks. A batch has each request once.
- TboScheduler.ScheduleResources: the timeline recording is left out; it does not change the schedule.
- TboScheduler.SplitIntoMicrobatches: of a token only its id, request and home are kept.
- GreedyDrain.Worker.SimulateComputeTime: loads are natural numbers, as counts are.
- SpscRing.RunIsFifo: acquire and release are modelled as reads that may return any value written since the last read; other weak-memory effects are not. Indices are natural numbers, as they stay below the capacity.
- TokenBucket.TokenBucket.Consume: the lengths of sleeps and spins only decide when the next reading of the clock is taken, and readings are arbitrary here; the clock does not run backwards and passes every time, and nothing clears the stop flag.
- TokenBucket.RunRateLoop: the wait for room in the pipeline only decides when the next reading is taken; statistics output, the final drain and the re-initialization on reconnect are left out.
- TokenBucket.WithinRatesIff: it bounds consumption and the credit left together; whole bytes alone can hide an excess of less than one byte.
- RouteCounts.RouteLayer: a worker nobody sends to has an empty map of homes where the source has none, and the set of its homes is the keys of that map.
- BandwidthBins.BuildNodeBandwidthSeries: floating-point rounding is not modelled, and byte counts are natural numbers.
- The RDMA slot-credit protocol, GPU kernels, collective communication, sockets, connection setup and signal handling are not part of this model.
- The older layer schedulers, which the unified ones replace, are left out, and so are the older attention and expert pools and dispatchers.
- Sorting by attention rank, index selection, top-k duplication and the remaining metadata accessors would only add easy members.
- Profiles, cost tables, plots other than the bandwidth bins, benchmarks and the web server are left out.
