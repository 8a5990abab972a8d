# A model of the training stack's hard parts

Dafny 4.11 models, with proofs, of seven pieces of the repository that decide where data lives,
how it is cut up, and what a policy update is computed from.

| piece | modules |
|---|---|
| Activation offloading: a handler that moves each layer's saved tensors to the host and back | `OffloadState` (its operations as relations between states), `OffloadRuns` (whole runs), `OffloadMemory` (what is on the device when), `OffloadHandler` (the class, and one training iteration) |
| Sequence-length balancing: k-way differencing, the greedy variant, token-bounded micro-batches | `Differencing`, `Partitions`, `SeqlenBalancing`, `BalancedPartitions`, `MicroBatches` |
| Layer placement and weight layout: splitting layers over ranks, renumbering them when checkpoints are merged, taking interleaved attention weights apart | `PipelineShards`, `LayerPlacement`, `CheckpointMerge`, `AttentionLayout` |
| Sequence parallelism and packing | `Ulysses`, `Packing` |
| Multi-turn rollouts and the returns computed from them | `Rollout`, `RolloutBatch`, `Returns` |
| The SELAUR advantage and its GiGPO baseline | `Smoothing`, `Estimator`, `Normalization`, `GroupLaws`, `Grouping`, `StepGroups`, `Advantage`, `AdvantageLaws`, `Gigpo` |
| The batch that travels between workers, and the flat parameter buffers | `Alignment`, `Protocol`, `BufferLayout`, `MemoryBuffers`, `ModuleBuffers` |

`Arith`, `Reals`, `SeqLib`, `Blocks`, `Selections` and `Wrappers` hold what several of them share.
`dafny verify dfyconfig.toml` checks everything.

## How the code is represented

* Objects that the code updates in place are classes (`AsyncDoubleBufferGroupOffloadHandler`,
  `State` of the balancer, `OutcomeSplit`, `MemoryBuffer`, `Parameter`, `DataProto`), loops are
  loops, and numpy arrays written in place are arrays. Each such method is tied to a function or
  relation on values, and the lemmas are about those.
* Tensors are opaque contents, or sequences of opaque rows; a view is a storage with an offset.
  Tensor copies between host and device preserve contents; stream waits only order them.
* Python's floats are real numbers. `exp` and the square root are parameters; the variance is the
  unbiased sample variance, written out.
* What the code obtains from outside is a parameter: what the environments and the policy answer
  at each step, the per-step uncertainty, the collective exchange between ranks (modelled for all
  ranks at once), the largest micro-batch count in a data-parallel group, the first unused group id
  where the code draws a UUID, and the order in which `np.unique` lists ids (nothing proved depends
  on it beyond the order of the logged diagnostics).
* A failing assertion, a raised exception or a failing lookup is an error value, and contracts say
  exactly when it occurs, except where it would end a longer computation: in the offload handler,
  `KarmarkarKarp` (with the balancer's `State`) and `BuildMemoryReferenceFromModule` the assertions
  and lookups are preconditions, which `OffloadRuns.StepSafe`, `GetSeqlenBalancedPartitions` and
  `WrapModule` show to hold where the code calls them. Row indices handed to a batch are in range.
* `//` on possibly negative numbers is written out as floor division.

## Where the code and its documentation differ

The models follow the code.

* `verl/utils/seqlen_balancing.py:235` promises at most `max_token_len` tokens per micro-batch.
  That is false (`MicroBatches.PlainLimitBroken`); the bound the code gives is `max_token_len` plus
  the longest row, so at most twice the limit (`MicroBatches.TokenBound`, `RearrangeMicroBatches`).
* `verl/utils/activation_offload.py:496-498` promises at most two groups on the device. This is
  proved for the configuration used there, one group fewer than layers. The key of a saved tensor
  (`activation_offload.py:34-36`) does not tell a tensor from a view of it with other strides;
  `OffloadMemory.RestoredExactly` says exactly when this loses data and `TransposeLost` shows a case.
* `verl/model_merger/megatron_model_merger.py:50-59` promises a split for any layer count of at
  least `pp_size`; the search finds one exactly under the condition in
  `PipelineShards.GetDynamicPipelineShards`, and `FiveOnFour` shows a case where it finds none
  although an even split exists.
* `selaur/grouping.py:59` promises a canonical form "with the same equality semantics". Arrays lose
  their shape and dictionaries, lists and arrays all become tuples (`Grouping.ShapeForgotten`); the
  promise holds exactly for observations of the same form (`Grouping.EqualExactly`, `HashExactly`).
* `selaur/normalization.py:138-140` says that scaling degrades to plain centring for a lone row;
  the code divides by one plus the guard (`GroupLaws.LoneRow`).
* `selaur/advantage.py:209-212` says that uncertainty is subtracted from the episode score; the sign
  is the transform's, and `linear` adds it (`Smoothing.PenaltyExactly`).
* `scripts/model_merger.py:470` counts a layer even for a chunk that holds none, so the chunks after
  it are numbered one too high (`CheckpointMerge.CountIsStartExactly`, `LayersInRangeExactly`).
* `verl/utils/megatron_utils.py:507-527` handles fewer KV heads than ranks, but divides by zero when
  the number of query groups is the number of KV heads, as the configurations set it
  (`AttentionLayout.ReplicatedRoundTrip`).

## Model

| member | source | states |
|---|---|---|
| `OffloadState.WindowShape` | verl/utils/activation_offload.py:243-250 | for any 1 <= groups <= layers the window map is strictly increasing, never below the group it belongs to, and its last entry is the last layer |
| `OffloadState.WindowLeavesTime` | verl/utils/activation_offload.py:243-250 | every group but the last stays on the device until the next group is complete, if and only if there are fewer groups than layers (or one group) |
| `OffloadHandler.AsyncDoubleBufferGroupOffloadHandler.constructor` | verl/utils/activation_offload.py:221-254 | for any numbers of groups and layers the window map is the one the loop builds and the handler starts at rest; it is the window map of a run exactly when there is at least one group and a layer for each |
| `OffloadHandler.AsyncDoubleBufferGroupOffloadHandler.TensorPush` | verl/utils/activation_offload.py:256-279 | a tensor worth offloading is filed under the next tag of the current group, in the tag table and, for an offloaded group, in the buffer table; any other tensor is handed back and nothing changes |
| `OffloadHandler.AsyncDoubleBufferGroupOffloadHandler.TensorPop` | verl/utils/activation_offload.py:281-292 | a tagged pop returns the table entry and removes it from both tables |
| `OffloadHandler.AsyncDoubleBufferGroupOffloadHandler.BulkOffloadGroup` | verl/utils/activation_offload.py:294-313 | exactly the entries of the group become (key, shape) records, and the group gets one host copy per distinct key, taken from a tensor of the group |
| `OffloadHandler.AsyncDoubleBufferGroupOffloadHandler.ReleaseAndOffloadNext` | verl/utils/activation_offload.py:331-341 | the buffer entries of exactly the counted group are dropped, the next group (if any) is offloaded, and the counter advances by one |
| `OffloadHandler.AsyncDoubleBufferGroupOffloadHandler.SynchronizeOnGroupCommitForward` | verl/utils/activation_offload.py:315-341 | the first group departs at its own commit; the window decides when a group is released and the next departs; nothing else moves |
| `OffloadHandler.AsyncDoubleBufferGroupOffloadHandler.OnGroupCommitForward` | verl/utils/activation_offload.py:343-348 | the whole state after a forward commit, including the advanced group and the reset tensor count |
| `OffloadHandler.AsyncDoubleBufferGroupOffloadHandler.BulkReloadGroup` | verl/utils/activation_offload.py:350-367 | the group's host copies are consumed and every offloaded entry of the group becomes the copy of its key in the recorded shape; other groups are untouched |
| `OffloadHandler.AsyncDoubleBufferGroupOffloadHandler.OnGroupCommitBackward` | verl/utils/activation_offload.py:369-391 | the whole state after a backward commit: one group back, a reload when the window says so, and the counter falling to 0 with the last group |
| `OffloadRuns.StartInv` | verl/utils/activation_offload.py:221-254 | a fresh handler satisfies the invariant of all runs |
| `OffloadRuns.StepSafe` | verl/utils/activation_offload.py:256-391 | in every state that satisfies the invariant, every action autograd may take fires no assertion and misses no lookup, a pop returns the contents that were pushed, an iteration ends at rest, and the invariant holds again |
| `OffloadRuns.TraceSafe` | verl/utils/activation_offload.py:256-391 | the same for every prefix of every run of any number of iterations |
| `OffloadRuns.EndsAtRest` | verl/utils/activation_offload.py:388-391 | once all tensors are popped and the group is back at 0, every field is as in a fresh handler |
| `OffloadRuns.OnHostExactly` | verl/utils/activation_offload.py:315-341 | after the forward pass the tensors on the host are exactly those of the offloaded groups whose predecessor is not released before their own layer is reached |
| `OffloadRuns.PopEnabled` | verl/utils/activation_offload.py:281-292 | a legal pop finds its tag, on the device, with the contents that were pushed |
| `OffloadRuns.CommitBEnabled` | verl/utils/activation_offload.py:369-387 | at every backward commit the window lookup succeeds and a group due for reload has its host copies |
| `OffloadMemory.DepartsComplete` | verl/utils/activation_offload.py:315-338 | with fewer offloaded groups than layers, no commit copies a group to the host before the layer being committed, the only one that is pushed to, has reached it |
| `OffloadMemory.CopiedComplete` | verl/utils/activation_offload.py:256-338 | with fewer offloaded groups than layers (or one group), in every state of the forward pass every group with host copies lies behind the current layer, so no later push adds to it |
| `OffloadMemory.AtMostTwoResident` | verl/utils/activation_offload.py:494-498 | in the configuration used, only the current group and the one before it have a tensor on the device, in either table |
| `OffloadMemory.TwoGroupsResident` | verl/utils/activation_offload.py:494-537 | at most those two groups in every state of every forward/backward run with one group fewer than layers in which a layer's tensors are all popped before the next backward commit |
| `OffloadMemory.RestoredExactly` | verl/utils/activation_offload.py:294-313 | after the forward pass every pushed tensor can be restored if and only if tensors of one departing group that share a key hold the same elements |
| `OffloadMemory.TransposeLost` | verl/utils/activation_offload.py:34-36 | a tensor and its transpose share a key; pushed in one departing group, one of them cannot be restored |
| `OffloadHandler.ForwardPass` | verl/utils/activation_offload.py:256-348 | pushing any layers and committing after each leaves the handler in an invariant state with a handle standing for every tensor; only tensors that are filed, in a layer whose group leaves the device, need agree where they share a key |
| `OffloadHandler.BackwardPass` | verl/utils/activation_offload.py:281-391 | committing and popping in reverse returns every layer's contents and leaves the handler at rest |
| `OffloadHandler.TrainIteration` | verl/utils/activation_offload.py:256-391 | under the same condition one whole iteration returns the saved contents of every layer and restores the handler's state, so iterations can follow one another |
| `Differencing.LessExactly` | verl/utils/seqlen_balancing.py:39-44 | sets are ordered by sum, those of one sum by size, and those of one size by the first item in which they differ |
| `Differencing.NotLessTransitive` | verl/utils/seqlen_balancing.py:39-44 | the set order is total enough to sort by: not-less is transitive |
| `Differencing.LessAsymmetric` | verl/utils/seqlen_balancing.py:39-44 | no two sets are each below the other |
| `Differencing.SortCorrect` | verl/utils/seqlen_balancing.py:54 | sorting in reverse gives the same sets in descending order |
| `Differencing.MergeContents` | verl/utils/seqlen_balancing.py:65-68 | merging two states loses and duplicates no item |
| `Differencing.PairedSparse` | verl/utils/seqlen_balancing.py:39-44 | because ties on the sum are broken by item count, pairing the sets of two states keeps this: a state with an empty set has at most one item in every set |
| `Differencing.MergeStateOk` | verl/utils/seqlen_balancing.py:65-68 | a merged state is sorted, its sums are the sums of its items, and the sparseness above holds |
| `Differencing.MergeSpread` | verl/utils/seqlen_balancing.py:65-72 | merging never widens the spread beyond the larger of the two spreads |
| `Differencing.MergeEvenlyFilled` | verl/utils/seqlen_balancing.py:65-68 | merging states with m and n items in every set gives m + n in every set |
| `Differencing.NoEmptySet` | verl/utils/seqlen_balancing.py:98-122 | a state holding at least as many items as it has sets has no empty set |
| `Partitions.InitialOk` | verl/utils/seqlen_balancing.py:47-54 | the state built from 1 or k items satisfies the state invariant |
| `Partitions.InitialSpread` | verl/utils/seqlen_balancing.py:96-108 | a starting state's spread is at most the longest item, or, for a full sorted block, the gap inside the block |
| `Partitions.SpreadAttained` | verl/utils/seqlen_balancing.py:96-108 | the bound on the spread of the loads is no wider than the lengths make it: one of them or, for equal sizes, the gap between the ends of a block of k items sorted by length and then index |
| `Partitions.FinalPartition` | verl/utils/seqlen_balancing.py:117-122 | a single state holding all items gives index lists in which every index occurs exactly once, loads within the spread, and no empty part when there are enough items |
| `Partitions.FinalSizes` | verl/utils/seqlen_balancing.py:119-121 | an evenly filled state gives n/k items to every part |
| `SeqlenBalancing.State.constructor` | verl/utils/seqlen_balancing.py:47-54 | the sets of a new state: the items one to a set, then empty sets, sorted |
| `SeqlenBalancing.State.Merge` | verl/utils/seqlen_balancing.py:65-68 | in place, the state becomes the merged and re-sorted state |
| `SeqlenBalancing.State.GetPartitions` | verl/utils/seqlen_balancing.py:56-63 | the index lists of the sets, in order |
| `SeqlenBalancing.NotBeforeTransitive` | verl/utils/seqlen_balancing.py:74-80 | the state order is total enough to take a least state by |
| `SeqlenBalancing.PopLeast` | verl/utils/seqlen_balancing.py:110-112 | removing a state that none precedes keeps the heap invariant, and the contents split |
| `SeqlenBalancing.PushState` | verl/utils/seqlen_balancing.py:105-115 | pushing a state keeps the heap invariant and adds its contents |
| `SeqlenBalancing.MergeFirstTwo` | verl/utils/seqlen_balancing.py:110-115 | one round takes the two foremost states, each the widest there is and among those one with the largest first set, and puts back their merger; it leaves one state fewer, all items, the spread bound and the even filling |
| `SeqlenBalancing.InitialHeap` | verl/utils/seqlen_balancing.py:96-108 | the starting heap holds all items, in states that satisfy the invariant and the spread bound |
| `SeqlenBalancing.KarmarkarKarp` | verl/utils/seqlen_balancing.py:23-122 | k parts that are a partition of all indices; loads differ by at most the largest length (equal_size: the largest gap inside one sorted block); no empty part when there are at least k items; equal_size gives n/k items per part, so the last assertion holds; and they are the index lists of the state that such rounds leave of the starting states, one for each item in ascending order or for each block of k |
| `BalancedPartitions.CheckAndSortPartitions` | verl/utils/seqlen_balancing.py:171-181 | succeeds exactly for k non-empty parts whose indices are 0..n-1, with the error of the first failing assertion otherwise |
| `BalancedPartitions.GetSeqlenBalancedPartitions` | verl/utils/seqlen_balancing.py:143-184 | succeeds exactly when 1 <= k <= n and equal_size divides; then a balanced partition into non-empty sorted parts: no later assertion can fail |
| `BalancedPartitions.MinIndex` | verl/utils/seqlen_balancing.py:131-134 | the first part with the smallest biased sum |
| `BalancedPartitions.FewestItems` | verl/utils/seqlen_balancing.py:126-136 | with the bias, a part with the smallest biased sum has the fewest items |
| `BalancedPartitions.GreedyCounts` | verl/utils/seqlen_balancing.py:125-140 | with bias sum+1 the chosen part has fewest items, so the counts never differ by more than one |
| `BalancedPartitions.GreedyLoads` | verl/utils/seqlen_balancing.py:125-136 | without the bias the part sums never differ by more than the largest length |
| `BalancedPartitions.EqualExactly` | verl/utils/seqlen_balancing.py:137-139 | counts within one of each other are all equal if and only if the number of parts divides the number of items |
| `BalancedPartitions.GreedyPartition` | verl/utils/seqlen_balancing.py:125-140 | a partition; with equal_size it succeeds exactly when k divides n and then has equal parts; otherwise the loads are within the largest length |
| `MicroBatches.CountNotBelow` | verl/utils/seqlen_balancing.py:251-260 | there are at least as many micro-batches as rows, or enough to hold every token at the limit |
| `MicroBatches.FairShare` | verl/utils/seqlen_balancing.py:96-117 | k times any load is at most the total plus (k - 1) times the longest row |
| `MicroBatches.TokenBound` | verl/utils/seqlen_balancing.py:245-265 | no micro-batch exceeds max_token_len plus the longest row, whatever the other limits |
| `MicroBatches.PlainLimitBroken` | verl/utils/seqlen_balancing.py:235 | rows of 3, 3 and 3 tokens under limit 5: every balanced result has a micro-batch over the documented limit |
| `MicroBatches.PlainLimitKept` | verl/utils/seqlen_balancing.py:235 | the documented limit is kept when the total plus (k - 1) longest rows fits into k micro-batches, and when there are as many micro-batches as rows and no row is longer than the limit |
| `MicroBatches.PlainLimitNeeds` | verl/utils/seqlen_balancing.py:235 | where the documented limit is kept, the total is at most k times the limit and no row is longer than it |
| `MicroBatches.RearrangeMicroBatches` | verl/utils/seqlen_balancing.py:229-277 | succeeds exactly when the limit covers the row width and the count is between 1 and the number of rows; the count is the least number that is at least what this rank and the group ask for, is a multiple of the divisor, and holds every token or a micro-batch per row; the index lists are a permutation of the rows, each micro-batch holds its rows, any two loads differ by at most the longest row, and no load exceeds max_token_len plus the longest row, nor twice max_token_len |
| `MicroBatches.CountIsLeast` | verl/utils/seqlen_balancing.py:251-260 | the count is at least the minimum and the group's maximum, a multiple of the divisor, holds every token at the limit or a micro-batch per row, and no smaller number does |
| `MicroBatches.RanksAgree` | verl/utils/seqlen_balancing.py:255-258 | ranks that share the maximum of all their local counts run the same number of micro-batches |
| `MicroBatches.GetReverseIdx` | verl/utils/seqlen_balancing.py:280-295 | in place, the two-sided inverse of a permutation |
| `MicroBatches.ScoresRestored` | verl/workers/fsdp_workers.py:1399-1414 | rearranging, scoring row by row, concatenating and indexing with the inverse is scoring the rows in their order |
| `MicroBatches.Split` | verl/workers/fsdp_workers.py:1402-1403 | consecutive pieces of the given size that make up the rows |
| `MicroBatches.ComputeRmScore` | verl/workers/fsdp_workers.py:1398-1414 | on both paths the scores are the row-wise scores in the original order |
| `PipelineShards.CandidateExactly` | verl/model_merger/megatron_model_merger.py:76-80 | a middle size passes the test if and only if it is at least ceil(L/pp) and leaves two layers |
| `PipelineShards.DiffGrows` | verl/model_merger/megatron_model_merger.py:81-89 | the key the candidates are sorted by grows with the middle size |
| `PipelineShards.FirstLeast` | verl/model_merger/megatron_model_merger.py:88-89 | a candidate with the least key |
| `PipelineShards.Candidates` | verl/model_merger/megatron_model_merger.py:74-86 | the loop collects exactly the candidates of all middle sizes |
| `PipelineShards.GetDynamicPipelineShards` | verl/model_merger/megatron_model_merger.py:50-91 | for every input: the two errors, the two small cases, and for pp >= 3 the split with middle size ceil(L/pp), which exists if and only if ceil(L/pp)*(pp-2)+2 <= L; all stages are positive, at most ceil(L/pp), and add up to L |
| `PipelineShards.ShareIsLeast` | verl/model_merger/megatron_model_merger.py:53-59 | no split of L layers over pp ranks has a largest stage below ceil(L/pp) |
| `PipelineShards.FiveOnFour` | verl/model_merger/megatron_model_merger.py:60-61 | 5 layers on 4 ranks can be split evenly, but the search finds nothing |
| `LayerPlacement.Tiles` | verl/utils/megatron_utils.py:828-926 | the intervals that a divisible configuration asks for follow one another over all (vp, pp) pairs and end at L |
| `LayerPlacement.LayersPartitioned` | verl/utils/megatron_utils.py:828-926 | every layer below L lies in the interval of exactly one (pp, vp) pair |
| `CheckpointMerge.CountIsStartExactly` | scripts/model_merger.py:434-470 | the running count is the start of every chunk with layers if and only if no such chunk comes after a chunk without layers, for which the code counts one |
| `CheckpointMerge.LayersInRangeExactly` | scripts/model_merger.py:448-470 | if every weight is filed, all merged layer numbers are below L under exactly that condition |
| `LayerPlacement.OffsetIsStart` | verl/utils/megatron_utils.py:838-926 | the closed-form offset is the start of the interval, for every rank and chunk |
| `LayerPlacement.OffsetIsStartExactly` | verl/utils/megatron_utils.py:862-882 | with a non-empty middle stage the closed form is right everywhere if and only if an uneven virtual pipeline sets the first stage's size and has a middle stage |
| `LayerPlacement.ShardOffsets` | verl/model_merger/megatron_model_merger.py:353-356 | the cumulative sums of the pipeline shards are the closed-form offsets |
| `LayerPlacement.FoundShardsPlaced` | verl/model_merger/megatron_model_merger.py:50-91 | every split the search returns is placed consistently by the closed form |
| `LayerPlacement.SaveIndicesCount` | verl/model_merger/megatron_model_merger.py:424-446 | rank after rank the file numbers are 0, 1, 2, ... |
| `LayerPlacement.FilesCovered` | verl/model_merger/megatron_model_merger.py:424-446 | the files of all ranks are disjoint and cover 0..saves_total-1 |
| `CheckpointMerge.MergeChunk` | scripts/model_merger.py:438-470 | every part of every key of one chunk that the code files lands in the state under its key shifted by the running count; nothing else is added; the highest layer number is reported |
| `CheckpointMerge.MergeStateDicts` | scripts/model_merger.py:431-472 | walking chunks vpp-outer and pp-inner, every part of every layer key of every chunk lands at the running count plus its local number, and no other layer entry appears; every part of an unnumbered parameter, and of the output layer unless it is tied, is there, from the last chunk that gives it, and nothing else is: no extra state, and no output layer when tied; the count is the closed-form offset when no chunk with layers comes after one without |
| `SeqLib.ArraySplitSizes` | verl/model_merger/megatron_model_merger.py:434-438 | of the n pieces of a key list the first len mod n hold one key more than the others |
| `CheckpointMerge.SaveIndexMap` | verl/model_merger/megatron_model_merger.py:428-450 | every key of a rank is listed under the file of its own piece of the key list |
| `AttentionLayout.DeinterleaveJoin` | scripts/converter_hf_to_mcore.py:112-115 | taking apart the joined groups gives back the queries, keys and values |
| `AttentionLayout.SplitTensors` | verl/model_merger/megatron_model_merger.py:323-347 | the four errors and, otherwise, the de-interleaved thirds of the row chunks |
| `AttentionLayout.MergeAcrossTp` | scripts/model_merger.py:377-405 | the same over all tensor-parallel shards, with the errors of the assertions and of a chunk that does not split |
| `AttentionLayout.DefaultTpConcat` | verl/utils/megatron_utils.py:681-703 | the same rows, as three tensors or stacked; the loop is the one of `MergeAcrossTp`, and the model shares it |
| `AttentionLayout.ConvertQkvShard` | verl/utils/megatron_utils.py:481-527 | the trunk-concat converter on every input: it succeeds exactly for at least one query group per rank; the queries are the first slices of all chunks, the keys and values the further slices of the chunks taken, which are all of them or, with fewer KV heads than ranks, those of each first copy |
| `AttentionLayout.InterleavedBlocks` | scripts/converter_hf_to_mcore.py:112-116 | the interleaved rows are the concatenation of equal per-group blocks |
| `AttentionLayout.SplitRoundTrip` | verl/model_merger/megatron_model_merger.py:323-347 | interleaving as the converter does and splitting gives back exactly q, k and v |
| `AttentionLayout.ShardedRoundTrip` | scripts/model_merger.py:377-405 | interleaving, cutting into any tp blocks with tp dividing the KV heads, and merging, trunk-converting or concatenating all give back exactly q, k and v |
| `AttentionLayout.ReplicatedRoundTrip` | verl/utils/megatron_utils.py:507-527 | with several ranks to a KV head, each holding its own query rows and a copy of its head, trunk-converting gives back all queries in rank order and every key and value head once, if there is a query group for each rank; with fewer, as when there are as many query groups as KV heads, it divides by zero |
| `AttentionLayout.MergeGateUp` | scripts/model_merger.py:365-375 | succeeds exactly for at least one shard and no shard of a single row; then the first halves of the shards and their second halves, an odd row going to the first |
| `AttentionLayout.ConvertGateUpShard` | verl/utils/megatron_utils.py:529-544 | the trunk-concat form on every input, defined for at least one rank: the first slices of the trunks and what follows them |
| `AttentionLayout.GateUpRoundTrip` | verl/utils/megatron_utils.py:529-544 | shards that hold gate rows and as many up rows merge, and gather and convert, to all the gate rows and all the up rows |
| `Ulysses.HeadsExchangeExactly` | verl/utils/ulysses.py:133-153 | each receive buffer having the shape of the first piece sent, scattering heads of one width is possible if and only if all ranks hold as many positions and, if there are any, the ranks divide the heads |
| `Ulysses.RowsExchangeExactly` | verl/utils/ulysses.py:133-153 | scattering the sequence is possible if and only if all ranks hold as many positions and the ranks divide them |
| `Ulysses.GatherSequence` | verl/utils/ulysses.py:62-83 | with heads that divide by the ranks the exchange is possible and rank r gets the whole sequence restricted to head block r |
| `Ulysses.GatheredPositions` | verl/utils/ulysses.py:62-83 | whatever unpadded size is asked for, every rank keeps the same first positions of its heads: all if the ranks divide the size, that many if there are more, and otherwise as many as the size exceeds them by, counted from the front as Python slices do |
| `Ulysses.ScatterBack` | verl/utils/ulysses.py:86-101 | scattering the sequence back is possible and gives every rank its own rows with all heads |
| `Ulysses.BackwardInverse` | verl/utils/ulysses.py:165-191 | for heads that divide by the ranks, both exchanges are possible and the synchronous backward one undoes the forward one, sequence gathered |
| `Ulysses.BackwardInverseOfScatter` | verl/utils/ulysses.py:165-191 | and the other way round, heads gathered |
| `Ulysses.PaddedRoundTrip` | verl/utils/ulysses.py:62-114 | after unpadding, the padded scatter gives the ranks the unpadded rows followed by zero rows, cut evenly |
| `Ulysses.PaddedIdentity` | verl/utils/ulysses.py:62-114 | unpadding and re-padding is the identity on every rank if and only if the dropped rows were minimal zero padding |
| `Arith.PadSizeLeast` | verl/utils/ulysses.py:271-286 | the padding is below the divisor and makes the length divisible |
| `Ulysses.SlicesCover` | verl/utils/ulysses.py:117-130 | the slices of the ranks are equal and make up the sequence |
| `Ulysses.SlicedComputation` | verl/utils/ulysses.py:237-286 | padding ids with zeros and positions with a count from zero, slicing both, computing on each rank from its (id, position) pairs, gathering and unpadding is computing on the whole sequence |
| `Selections.RankPosition` | verl/utils/torch_functional.py:577-579 | a kept position stands in the index list after exactly the kept positions before it |
| `Selections.NonzeroAppend` | verl/utils/torch_functional.py:577-579 | the index list of a concatenation is the list of the first part followed by the shifted list of the second |
| `Packing.RowOccupies` | verl/utils/torch_functional.py:577-586 | indices increase; row b occupies [cu[b], cu[b+1]) with exactly its own kept positions; the boundaries start at 0 and end at the number of kept tokens; the maximum bounds every row and some row attains it |
| `Packing.PaddedDefined` | verl/utils/torch_functional.py:381-395 | the padded form succeeds exactly for a response of at least one token that leaves a token before it, or when there is nothing to score |
| `Packing.FullOutput` | verl/utils/torch_functional.py:398-416 | every position of the scattered output: zero for a dropped token, otherwise the score of its own logits against the next kept token of the whole batch |
| `Packing.PackedOutput` | verl/utils/torch_functional.py:398-417 | the same for the response slice, for every mask and response length |
| `Packing.PackedRefinesPadded` | verl/utils/torch_functional.py:381-417 | where a response token and its predecessor are both kept, the packed form returns the value of the padded form |
| `Rollout.ActivePrefix` | agent_system/multi_turn_rollout/rollout_loop.py:333-423 | for every environment behaviour the active steps are exactly the first episode_lengths[i] ones, at least one once a step is taken |
| `Rollout.EpisodeRewardStep` | agent_system/multi_turn_rollout/rollout_loop.py:400-402 | adding the masked reward keeps the accumulated reward equal to the sum of the rewards of the active prefix |
| `Rollout.Accumulate` | agent_system/multi_turn_rollout/rollout_loop.py:400-402 | in place, rewards and lengths grow for the active environments only |
| `Rollout.TakeStep` | agent_system/multi_turn_rollout/rollout_loop.py:342-423 | one pass: who is active is decided before the environments answer, and every list grows by that step's entry |
| `Rollout.VanillaMultiTurnLoop` | agent_system/multi_turn_rollout/rollout_loop.py:333-423 | the loop stops after the first step that leaves no environment active, or at the step limit, with the records, log-probs, infos, rewards and lengths of exactly those steps |
| `RolloutBatch.ProcessBatch` | agent_system/environments/base.py:133-140 | appends the outcome reported at the last active step, and nothing if there is none |
| `RolloutBatch.SuccessEvaluator` | agent_system/environments/base.py:112-131 | succeeds exactly when every environment has an active step, and then gives each one the outcome of its own last active step |
| `RolloutBatch.GatherEnvironment` | agent_system/multi_turn_rollout/rollout_loop.py:261-283 | one environment: its active records in order, each with the episode's reward, length and outcome and, if carried, the log-probs of its own step; or the wrong-trajectory error |
| `RolloutBatch.GatherRolloutData` | agent_system/multi_turn_rollout/rollout_loop.py:259-283 | environment by environment, exactly the active records in order, each with its environment's reward, length and outcome in the column of that name and, exactly if carried, the log-probs of its own step; the error exactly when some record carries another trajectory id |
| `RolloutBatch.KeptIsPrefix` | agent_system/multi_turn_rollout/rollout_loop.py:262-283 | keeping the active records of a prefix-active list keeps exactly the prefix |
| `RolloutBatch.MultiTurnLoop` | agent_system/multi_turn_rollout/rollout_loop.py:259-423 | with at least one step allowed, the batch is every environment's whole episode in order: row s holds that step's record, the sum of the episode's rewards, its length, the outcome reported at its last step and, exactly if carried, the log-probs of step s; with none, the evaluator's assertion fails |
| `Returns.ScanBackwards` | selaur/returns.py:71-76 | the reverse loop computes at every step the sum over the steps t from there on of gamma to the power t times the reward t steps ahead |
| `Reals.DiscountedIsPowerSum` | selaur/returns.py:71-76 | the backward recurrence is the sum of the values weighted with the powers of the factor, for every factor |
| `Returns.FillTrajectory` | selaur/returns.py:65-78 | one trajectory: fails exactly on an inactive row of its own; otherwise its rows get the power sums of its own rewards and no other trajectory's rows change |
| `Returns.ComputeStepDiscountedReturns` | selaur/returns.py:61-78 | fails exactly when some row is inactive; otherwise every trajectory's rows, in order, carry the sum of their own and the later rewards of the trajectory, each times gamma to the power of its distance |
| `Returns.InterleavingIrrelevant` | selaur/returns.py:64-78 | a trajectory with the same rewards in the same order gets the same returns, however its rows are mixed with others |
| `Returns.GatheredReturns` | selaur/returns.py:61-78 | on a gathered batch the active-mask assertion holds, each episode gets the returns of the rewards it earned, and with gamma = 1 its first row gets the episode's reward |
| `Smoothing.DiscountedSmooth` | selaur/uncertainty/aggregation.py:55-63 | the reverse loop computes, for every step, the average of its own and the later values, weighted with the powers of the decay |
| `Smoothing.SmoothedBetween` | selaur/uncertainty/aggregation.py:35-45 | a smoothed value lies between the least and the greatest value of the step and its successors |
| `Smoothing.NoDecay` | selaur/uncertainty/aggregation.py:49-51 | decay 0 keeps every step's own value |
| `Smoothing.NeutralShapes` | selaur/uncertainty/transforms.py:71-89 | the neutral term leaves every score unchanged, in both families |
| `Smoothing.ShapingDirection` | selaur/advantage.py:289-317 | uncertainty raises a score under linear, lowers it under neg and shrinks a non-negative one towards zero under exp; certainty leaves it alone under the additive transforms |
| `Smoothing.PenaltyExactly` | selaur/advantage.py:209-212 | when a shaped score is strictly below the plain one: never under linear, which raises it if and only if scale times uncertainty is positive; under neg in just those cases; under exp exactly for a positive score and a positive uncertainty |
| `Smoothing.StepShapingDirection` | selaur/advantage.py:289-317 | the same directions at the step level, for any non-negative step weight |
| `Selections.OwnAppend` | selaur/uncertainty/estimator.py:227-235 | a trajectory's own rows of two batches put together are its rows of the first followed by its rows of the second |
| `Estimator.OutcomeSplit.constructor` | selaur/uncertainty/estimator.py:61-66 | both buckets start empty |
| `Estimator.OutcomeSplit.Record` | selaur/uncertainty/estimator.py:69-77 | values are appended to the bucket of the outcome, the other bucket is kept |
| `Estimator.ShapeTrajectory` | selaur/uncertainty/estimator.py:239-245 | the two terms are written to the rows of the trajectory only if the transform owns its outcome; the other trajectories keep theirs |
| `Estimator.RecordTrajectory` | selaur/uncertainty/estimator.py:247-260 | the diagnostics get the linear values of the trajectory, whatever the transform |
| `Estimator.Compute` | selaur/uncertainty/estimator.py:218-266 | every trajectory's terms come from its own steps: the transformed smoothed trace if the transform owns its outcome, the neutral term otherwise; the diagnostics hold every trajectory, split by outcome |
| `Normalization.SomeScores` | selaur/normalization.py:94-104 | a group has a contributing score if and only if it has a row, so no group statistic is missing |
| `Normalization.CollectScores` | selaur/normalization.py:94-104 | the table holds, per group, the scores of its contributing rows in row order |
| `Normalization.GroupNormalize` | selaur/normalization.py:93-121 | every row is centred on the baseline of its own group and, unless only centring, divided by the guarded spread; only then need the guard be positive |
| `GroupLaws.ZeroSum` | selaur/normalization.py:111-121 | without deduplication the results of a group of two or more rows add up to zero, in both modes |
| `GroupLaws.ShiftInvisible` | selaur/advantage.py:34-36 | adding one constant to a whole group with two or more contributing rows changes none of its results, in both modes |
| `GroupLaws.NormalizedAdds` | selaur/normalization.py:111-116 | centring is additive in the scores |
| `GroupLaws.RenamedGroups` | selaur/normalization.py:94-121 | only the partition into groups matters, not the ids |
| `GroupLaws.LoneRow` | selaur/normalization.py:148-154 | a lone row keeps its score at the episode level (over 1 + epsilon when scaling) and gets zero at the step level |
| `GroupLaws.EqualScores` | selaur/normalization.py:111-121 | where all scores of a group with two or more contributing rows are equal, its results are zero |
| `GroupLaws.ScaledVariance` | selaur/normalization.py:111-121 | without deduplication the squared results of a scaled group of n rows add up to n - 1 times the share of the spread in the guarded spread, squared; with no guard their sample variance is one |
| `Grouping.KeyOrderIrrelevant` | selaur/grouping.py:47-74 | observations equal up to the order of dictionary entries, at any depth, have one canonical form |
| `Grouping.ShapeForgotten` | selaur/grouping.py:59-69 | two arrays of different shape with one canonical form: without a condition the documented equality of semantics does not hold |
| `Grouping.EqualExactly` | selaur/grouping.py:59-73 | observations with one canonical form are equal, up to the order of dictionary entries, if and only if they have the same form: the same kinds and array shapes at every place |
| `Grouping.HashExactly` | selaur/grouping.py:59-73 | among observations of the same form the canonical form has the same equality semantics, both ways |
| `Grouping.HashableExactly` | selaur/grouping.py:47-74 | an observation has a canonical form if and only if no value of an unsupported kind occurs in it, at any depth |
| `StepGroups.ClusterRows` | selaur/grouping.py:107-109 | every row is in the cluster of its own canonical anchor; fails exactly when some anchor has none |
| `StepGroups.NumberClusters` | selaur/grouping.py:111-113 | each cluster's rows get one unused id, other rows keep theirs |
| `StepGroups.BuildStepGroup` | selaur/grouping.py:101-120 | fails exactly when some anchor has no canonical form; otherwise no row is missed and two rows share an id if and only if they share the episode group and the canonical anchor |
| `StepGroups.RefinesEpisodes` | selaur/grouping.py:29-31 | a step group never spans two tasks |
| `StepGroups.KeyOrderKeepsGroup` | selaur/grouping.py:52-53 | dictionary key order never splits a group |
| `StepGroups.FormSeparatesGroups` | selaur/grouping.py:101-120 | two steps whose anchors have the same form share a group if and only if they share the task and their anchors are equal |
| `Advantage.ComputeTrajectorySuccessRate` | selaur/returns.py:85-104 | the mean over the trajectories of each one's mean |
| `Advantage.EpisodesWeighEqually` | selaur/returns.py:88-92 | when each trajectory has one outcome, the rate is the share of successful trajectories, however many steps each took |
| `Advantage.ComputeSelaurOutcomeAdvantage` | selaur/advantage.py:93-191 | the unknown-mode error first, exactly for a mode that is neither of the two, then the anchor error; otherwise every token gets its mask times the sum of the normalised episode level and the weighted normalised step level, shaped by the estimator's terms exactly when the gate is open |
| `AdvantageLaws.MaskedToken` | selaur/advantage.py:185-191 | a token that the mask leaves out gets no advantage |
| `AdvantageLaws.StepLevelAlone` | selaur/advantage.py:150-185 | where all episode scores of a task are equal and at least two of its rows contribute, a response token gets the weighted step level alone |
| `AdvantageLaws.EpisodeLevelAlone` | selaur/advantage.py:150-185 | where no other step of the task has the same canonical anchor, a response token gets the episode level alone |
| `AdvantageLaws.LoneTask` | selaur/advantage.py:150-160 | the only row of a task keeps its episode score, over one plus the guard when scaling |
| `AdvantageLaws.TermsOfRow` | selaur/uncertainty/estimator.py:227-245 | the terms of a row are the smoothed uncertainty of its own step times the step weight and the mean over its trajectory: as they are under linear and negated under neg if the trajectory failed, as exponentials of the negated values under exp if it succeeded, and otherwise neutral |
| `AdvantageLaws.ShapedScores` | selaur/advantage.py:289-317 | with the gate open the scale times those terms is added to the scores, or the exponential ones multiply them; with the gate shut the scores are the step rewards and the sums of the token rewards |
| `Gigpo.ComputeGigpoOutcomeAdvantage` | selaur/baselines/gigpo.py:63-109 | the same with fixed diagnostic settings, shaping off and the episode baseline over rows, with the same two errors in the same cases |
| `Gigpo.Parity` | selaur/advantage.py:150-185 | with the gate shut, or no trajectory with the outcome the transform owns, SELAUR's advantages are on every token, in either mode, those of the run with shaping off and the same choice of rows or trajectories for the episode baseline |
| `Gigpo.ParityEndToEnd` | selaur/advantage.py:150-185 | the results of the two estimators on one batch, the episode baseline being over rows: one fails if and only if the other does, with the same error, and in the two cases above they are equal |
| `Gigpo.Mirror` | selaur/advantage.py:289-317 | in mean mode the advantages under linear and under neg add up to twice those of the run with shaping off and the same choice of rows or trajectories, on every token |
| `Gigpo.MirrorEndToEnd` | selaur/advantage.py:289-317 | the results of the two SELAUR calls and of GiGPO on one batch in mean mode, the episode baseline being over rows: all fail alike or the first two add up to twice the third on every token |
| `Alignment.SliceRows` | verl/protocol.py:470-514 | a slice holds exactly the sliced rows, tensors and objects alike |
| `Alignment.SelectedRows` | verl/protocol.py:434-468 | selecting picks whole rows, in order |
| `Alignment.SelectIdxsRows` | verl/protocol.py:434-468 | which row each selected row is, for positions of either sign |
| `Alignment.SelectMaskRows` | verl/protocol.py:434-468 | a mask keeps exactly the rows where it is true, in order |
| `Alignment.RepeatEachAt` | verl/protocol.py:731-734 | interleaved, row j is a copy of row j / times |
| `Alignment.TileAt` | verl/protocol.py:735-737 | stacked, row j is a copy of row j modulo the size |
| `Alignment.RepeatRows` | verl/protocol.py:720-757 | both kinds of repeat repeat whole rows |
| `Alignment.ConcatRows` | verl/protocol.py:690-710 | the rows of a concatenation are the rows of its parts in order |
| `Protocol.Chunk` | verl/protocol.py:652-687 | succeeds exactly for equal chunks; the chunks are then consecutive blocks of the rows, each consistent, and concatenating them gives the rows back |
| `Protocol.ChunkRowsAt` | verl/protocol.py:663-685 | chunk i holds block i of the rows, whether the object columns are cut after the tensors or on their own |
| `Protocol.PadToDivisor` | verl/protocol.py:70-95 | the batch followed by its own first rows over and over, fewer than divisor of them, up to a multiple of the divisor; an empty batch is left alone |
| `Protocol.PadUnpad` | verl/protocol.py:98-101 | unpadding a padded batch gives the rows back |
| `Protocol.DispatchIsRowWise` | verl/protocol.py:70-101 | pad, chunk, map row by row on each chunk, concatenate and unpad is the row-wise map of the original |
| `Protocol.DataProto.Create` | verl/protocol.py:213-215 | construction with its check: it succeeds exactly when every object column has as many rows as the tensors, if there are any, and then holds the columns as given |
| `Alignment.AcceptedIsAligned` | verl/protocol.py:194-224 | a batch that the consistency check accepts has as many rows in every column as its length, given that its tensors have the size of their batch or, where there are none, its object columns one length |
| `Alignment.LengthIsRows` | verl/protocol.py:217-224 | the length is the number of rows, whichever column it is read from |
| `Protocol.DataProto.Reorder` | verl/protocol.py:712-718 | in place, the rows become the indexed rows |
| `Protocol.DataProto.Padding` | verl/protocol.py:637-650 | in place, copies of the first or last row are appended |
| `Arith.RoundUpLeast` | verl/utils/memory_buffer.py:53-57 | the padded size is the least multiple of the 128-bit alignment that holds the elements; rounding up the number of micro-batches is the same function |
| `BufferLayout.InBoundsAligned` | verl/utils/memory_buffer.py:113-137 | every range starts on a 128-bit boundary and ends inside the buffer the sizing pass asked for |
| `BufferLayout.Disjoint` | verl/utils/memory_buffer.py:113-137 | ranges of one type do not overlap, padding included |
| `MemoryBuffers.MemoryBuffer.constructor` | verl/utils/memory_buffer.py:30-37 | a zeroed buffer of the given size |
| `MemoryBuffers.MemoryBuffer.Get` | verl/utils/memory_buffer.py:43-50 | the requested view, or the out-of-range assertion |
| `MemoryBuffers.TotalNumel` | verl/utils/memory_buffer.py:79-91 | per type, the padded elements of all its parameters |
| `MemoryBuffers.BuildMemoryBuffer` | verl/utils/memory_buffer.py:70-96 | one new buffer per type, of exactly that size |
| `MemoryBuffers.Place` | verl/utils/memory_buffer.py:129-135 | the view at the cursor; the cursor follows the sizing pass |
| `MemoryBuffers.BuildMemoryReference` | verl/utils/memory_buffer.py:113-137 | succeeds exactly when every parameter fits, with each view at the sizing pass's offset; in buffers sized for the parameters the cursors end where the buffers end |
| `MemoryBuffers.SizedFits` | verl/utils/memory_buffer.py:43-50 | in buffers sized for the same parameters no request is out of range |
| `MemoryBuffers.ViewsDisjoint` | verl/utils/memory_buffer.py:113-137 | two parameters' views never share an element |
| `ModuleBuffers.MoveNext` | verl/utils/memory_buffer.py:103-110 | moving one parameter keeps the weights of those moved before and of those still to move |
| `ModuleBuffers.BuildMemoryReferenceFromModule` | verl/utils/memory_buffer.py:99-110 | after the loop every parameter, held outside the buffers or already in its place, reads from its place; with maintain_weight it reads its original weights, without it the buffers are untouched |
| `ModuleBuffers.WrapModule` | verl/utils/memory_buffer.py:146-151 | sizing, allocating and moving a module: every parameter still reads its original weights |

## Left out

- MicroBatches.PlainLimitKept: one direction only; between this condition and `PlainLimitNeeds`, whether the plain limit holds depends on which balanced partition the heuristic picks. The failing case is `PlainLimitBroken`, and the bound that always holds is `TokenBound`.
- Protocol.Chunk: a tensor batch without rows is left out, as what its tensor library does with it is not part of this model, and so is automatic padding, with which the number of pieces is up to that library.
- Normalization.GroupNormalize: when scaling, the guard epsilon must be positive, as its default is; with a zero guard the division by a zero spread gives a float `nan`.
- Smoothing.DiscountedSmooth: for a decay in [0, 1], as documented.
- Estimator.Compute: from one uncertainty per step on; the formulas of the token signals and their blending are not part of this model.
- Offloading: the synchronous base handler used alone, CUDA streams and pinned memory, autograd hook registration, pushes during the backward pass and nested checkpoint recomputation.
- Balancing: `heapq` is a pool from which a least state is removed, so the bounds do not depend on how ties between states are broken; the balance metrics that are only logged.
- Placement: the embedding and loss accounting flags of the layer offset, which read process-wide rank state; the tables that rename parameters (the parts of a fused weight are told apart, their spelled-out names are not modelled); writing files.
- Sequence parallelism: asynchronous exchanges, the gradient scaling of `Gather`, and process-group bookkeeping.
- Packing: the flash-attention variants that compute the same log-probabilities from packed ids.
- Rollouts: prompts, tokenisation, repeating the prompts per environment group, group ids, batch-wide means kept only for logging, the dynamic-sampling loop and `filter_group_data`.
- SELAUR: reading the configuration (transform and signal names are validated there, so the model has only the known transforms), and dtype or device conversions.
- DataProto: unions, pops, renames, iterators, futures, serialisation, slice steps, and `meta_info`.
- Memory buffers: the multi-stage rollout wrapper, shapes beyond their number of elements, and non-floating dtypes, for which the alignment is undefined.
- Integers are unbounded and sums of reals are exact: overflow and rounding are not modelled.
