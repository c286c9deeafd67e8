# Verified models of the vLLM-Omni core

A Dafny model of the parts of vLLM-Omni whose correctness is hard to see from one function at a
time, with proofs of what they promise together:

- **Paged decode attention.** The fish kv-cache kernels stream key/value blocks through an online
  softmax, or compute partial triples per split and combine them. Whatever order the programs of a
  launch run in, whatever the reused workspace held before, every row written is the
  softmax-weighted average over the tokens read, which is each of the request's tokens once
  wherever the split size allows. `exp` is any positive function that turns
  sums into products; minus infinity is a separate logit of weight zero.
- **The omni prefix cache.** A slot-indexed cache with synchronous updates, one asynchronous write
  in flight and commits deferred until a request finishes. The object's methods update arrays in
  place and are proved to be the steps of a state machine on values; about that machine it is
  proved that the asynchronous pipeline refines the synchronous cache over every run and that a
  prefix hit reads the history that was written.
- **The orchestrator and its CFG companion tracker.** Each handler call is one atomic step of a
  state machine over requests, tracker indices and a trace of visible events. The classes are
  proved to take exactly these steps; invariants and whole-run theorems are proved about them.
- **Self-contained pieces.** Shared-memory packing of diffusion outputs, payload flattening and its
  wire form, accumulation and draining of multimodal output, deploy-config merging, diffusion
  topology validation and the streaming underrun metric.

Where the code does not meet a natural claim, the condition under which it does is proved to be
exact, and an input or run that fails is given:

- the splits of a long row read every token once exactly when blocks tile a split or one split holds
  the row (`SplitDecode.ReadOnceIff`, failing on `OverrunReadsTwice`); a token read twice counts twice
  in the stored average (`SplitCombine`);
- a commit of deferred chunks and a write in flight commute exactly when their last rows agree on
  every slot both write (`PrefixCacheSpec.CommitCommutes`, over runs `SimulatesIffAgrees`).  The class
  accepts a write that does not skip a deferred key, and a run with one fails it (`UnskippedRun`); the
  runner always passes the deferred keys as skipped, so its runs do not (`SkippingAgrees`);
- a block read with a write in flight is the synchronous cache's exactly when, on every prefix slot
  the write names, its last row is the stored one (`PrefixCacheSpec.ReadIsSynchronousIff`);
- an abort strands a companion's parent exactly when it names an uncounted companion without its
  parent (`OrchestratorFanIn.OrphanFreeIffAbortsSpare`); it happens (`CompanionAbortStrands`);
- counting a parent's last companion moves it on exactly when its deferred output is finished or
  yields inputs (`OrchestratorWakeup.NoLostWakeup`, failing on `ReleaseMovesNothing`);
- the topology validator accepts cycles; acyclic links are exactly those that lead every consumer
  back to an encode stage (`DiffusionTopology.ReachesEncodeIffAcyclic`, `CycleAccepted`);
- merging is associative exactly where no scalar cuts a merge of dicts, for values, stages and whole
  documents (`DeployMerge.AssociativeIff`, `MergeDeployAssocIff`, failing on `ScalarCutsMerge`), and a
  chain may be grouped at will exactly where none cuts it between neighbouring stretches
  (`GroupsFreelyIff`);
- an output shows all chunks of an undrained key exactly when no non-tensor value shadows them and no
  join met chunks that do not fit (`OutputLedger.OutputShowsAllIff`);
- delta-mode draining delivers every chunk once exactly when no output is handed out after a
  non-tensor value with a chunk waiting, and no finishing one joins chunks that do not fit
  (`OutputDrain.DrainedOnceIff`, failing on `MixedRunLoses` and `MismatchedRunLoses`);
- a snapshot the output processor calls immutable changes exactly when it shares a list and a tensor
  arrives before the next join (`OutputState.SnapshotAfterRun`, and it does in `SnapshotChanges`).

`dafny verify dfyconfig.toml` checks the whole project.

| files | models |
|---|---|
| Arithmetic, OnlineSoftmax, DecodeProblem, DecodeKernels, SplitDecode, FishDecode | vllm_omni/attention |
| SlotCache, PrefixCacheSpec, PrefixCache, PrefixHistory | vllm_omni/core/prefix_cache.py |
| CfgTracker, OrchestratorSpec, OrchestratorSafety, OrchestratorFanIn, OrchestratorBundle, OrchestratorWakeup, OrchestratorMessages, OrchestratorCompletion, OrchestratorFlow, OrchestratorRuns, Orchestrator | vllm_omni/engine/orchestrator.py, cfg_companion_tracker.py |
| ShmIpc, DiffusionTransfer | vllm_omni/diffusion/ipc.py |
| PayloadKeys, PayloadWire | vllm_omni/data_entry_keys.py |
| OutputAccumulation, OutputLedger, OutputDrain, OutputArrivals, OutputState | vllm_omni/engine/output_processor.py |
| DeployMerge, DeployPrecedence | vllm_omni/config/stage_config.py |
| DiffusionTopology, TopologyReport | vllm_omni/diffusion/stage_roles.py |
| AudioContinuity | vllm_omni/benchmarks/audio_continuity.py |

## Model

| member | source | states |
|---|---|---|
| OnlineSoftmax.AbsorbSummarises | vllm_omni/attention/fish_kvcache_triton.py:72-97 | one block of the online softmax keeps the running triple a summary of all tokens seen: maximum, normaliser and weighted sum relative to it, masked lanes included |
| OnlineSoftmax.AddSplitSums | vllm_omni/attention/fish_kvcache_triton.py:223-232 | adding a split's triple relative to the global maximum sums the exponentials of both token ranges, empty splits included |
| OnlineSoftmax.FinishIsAttention | vllm_omni/attention/fish_kvcache_triton.py:99-102 | a summary of all tokens finishes as the two-pass softmax average, and as zero for no tokens |
| OnlineSoftmax.FinishIsCounted | vllm_omni/attention/fish_kvcache_triton.py:233-234 | sums over columns that visit tokens in any order and number finish as the softmax average weighted by visits |
| OnlineSoftmax.CountedOnce | vllm_omni/attention/fish_kvcache_triton.py:233-234 | if every token is visited once that is plain softmax attention |
| DecodeProblem.CoveringLaneStoresAttention | vllm_omni/attention/fish_kvcache_triton.py:63-102 | a lane that streamed at least seq_len tokens through the block table finishes as the attention specification, whatever the masked tail |
| DecodeProblem.KvOffset | vllm_omni/attention/fish_kvcache_triton.py:72-90 | every key and value access through the block table is inside the cache |
| DecodeKernels.StreamBlock | vllm_omni/attention/fish_kvcache_triton.py:72-97 | one loop iteration extends the streamed range of every query head of the group by one block |
| DecodeKernels.SmallDecode | vllm_omni/attention/fish_kvcache_triton.py:33-102 | a program writes the attention of its query heads and nothing else, or nothing when the guard sends its row to the long path |
| SplitDecode.SplitPartial | vllm_omni/attention/fish_kvcache_triton.py:105-185 | a partial program leaves exact triples of the columns its split visits in its own cells and touches no other cell, for any split size; rows below the minimum length are left alone |
| SplitDecode.VisitCount | vllm_omni/attention/fish_kvcache_triton.py:152-167 | over the columns of all splits a token occurs as often as there are splits whose block loop reaches it |
| SplitDecode.ReadOnceIff | vllm_omni/attention/fish_kvcache_triton.py:152-167 | the splits read every token of a sequence at least once, and exactly once if and only if blocks tile a split or one split holds the sequence |
| SplitDecode.OverrunReadsTwice | vllm_omni/attention/fish_kvcache_triton.py:152-167 | with any other split size the first token of the second split is read twice |
| SplitDecode.ReadOnceHolds | vllm_omni/attention/fish_kvcache_triton.py:188-236 | where every token is read once, what the split path leaves is the attention specification |
| SplitDecode.CombineMaxima | vllm_omni/attention/fish_kvcache_triton.py:215-222 | the first combine loop finds the maximum logit over everything the splits visited |
| SplitDecode.CombineSums | vllm_omni/attention/fish_kvcache_triton.py:223-232 | the second combine loop recovers normaliser and weighted sum of everything the splits visited |
| SplitDecode.SplitCombine | vllm_omni/attention/fish_kvcache_triton.py:188-236 | both combine loops together write, from the partial cells alone, the softmax average in which a token counts as often as splits read it, for any split size and minimum length, and zero where nothing was read; other rows stay |
| FishDecode.RowsApart | vllm_omni/attention/fish_kvcache_triton.py:56-61 | output tiles of different programs never overlap |
| FishDecode.OtherSplitsKept | vllm_omni/attention/fish_kvcache_triton.py:170-185 | partial cells of different (split, batch, kv head) programs never collide |
| FishDecode.LaunchPartial | vllm_omni/attention/fish_kvcache_triton.py:316-338 | programs in any order leave every live split stored, independent of the workspace's old contents |
| FishDecode.LaunchCombine | vllm_omni/attention/fish_kvcache_triton.py:340-357 | programs in any order leave in exactly the long rows what their splits read, whatever the split size; every other row stays as it was |
| FishDecode.FishDecodeTriton | vllm_omni/attention/fish_kvcache_triton.py:239-358 | after a launch that does not raise, every short row of a mixed-length batch, and every long one whose splits read each token once, holds softmax attention; any other long row holds the average weighted by reads; it raises exactly on unsupported shapes or a workspace that does not fit, having written nothing or only the short rows |
| FishDecode.OnePathPerRow | vllm_omni/attention/fish_kvcache_triton.py:292-358 | every row is owned by a launch, and by one only if and only if the small bound is positive or all rows are empty |
| FishDecode.WorkspaceCache.GetDecodeWorkspace | vllm_omni/attention/fish_kvcache_attn.py:121-155 | the cached or new workspace fits the launch key; a miss during graph capture fails and changes nothing |
| FishDecode.WorkspaceCache.FishDecodeAttn | vllm_omni/attention/fish_kvcache_attn.py:165-191 | with a length bound that holds, the workspace found always fits: the launch writes attention unless the shape is unsupported or capture misses the cache |
| FishDecode.DispatchMaxSeqLen | vllm_omni/attention/fish_kvcache_backend.py:182-215 | a length is dispatched exactly for a non-empty batch whose bounds cover it (and, when required, its real lengths); it is the smallest bucket covering every active bound, or the largest bound if no bucket does |
| FishDecode.GuardCoversTable | vllm_omni/attention/fish_kvcache_attn.py:56-110 | the eligibility guard makes every block-table access of a bounded batch fall inside the table |
| FishDecode.WideTableIsEligible | vllm_omni/attention/fish_kvcache_attn.py:56-110 | a bounded decode batch of a supported shape is eligible whenever the table holds its bounds and is as wide as the largest bucket |
| FishDecode.ForwardWithFishKvcache | vllm_omni/attention/fish_kvcache_backend.py:218-350 | from dispatch to kernels, exactly when: the fast path is taken if and only if a decode batch is eligible for its planned length and the workspace is there during capture, and then every row holds attention; the fallback is taken if and only if the metadata is missing, cascade or no decode step, or the kernel is not required and no planned length is eligible, and then nothing changed |
| SlotCache.IndexCopyInPlace | vllm_omni/core/prefix_cache.py:286-297 | the in-place row scatter is the scatter function |
| SlotCache.DistinctSlotsFixContents | vllm_omni/core/prefix_cache.py:286-297 | with distinct slots the scatter is the only outcome in which every named slot holds its row and every other slot what it held, whatever the order |
| SlotCache.OutcomeFixedIff | vllm_omni/core/prefix_cache.py:286-297 | with rows landing in any order the scatter is the only outcome if and only if repeated slots are given the same row |
| SlotCache.IndexCopyCommutes | vllm_omni/core/prefix_cache.py:286-297 | two scatters commute if and only if their last rows agree wherever both write |
| SlotCache.GetSlotIds | vllm_omni/core/prefix_cache.py:553-575 | positions past the block table are dropped and the valid ones are a prefix, so slots stay aligned with rows |
| SlotCache.WriteRunConcat | vllm_omni/core/prefix_cache.py:484-551 | one scatter of two contiguous runs is two scatters, truncation past the table included |
| SlotCache.SortIsStable | vllm_omni/core/prefix_cache.py:498-500 | chunks are committed by first token, ties in arrival order |
| SlotCache.SortedIsArrivalOrder | vllm_omni/core/prefix_cache.py:484-512 | for disjoint chunks the sorted commit leaves the cache arrival order would |
| SlotCache.GatherReadsSlots | vllm_omni/core/prefix_cache.py:715-737 | reading whole blocks is the inverse of writing through block * block_size + offset slots |
| SlotCache.GatherSameIff | vllm_omni/core/prefix_cache.py:715-737 | two caches read the same by blocks if and only if they hold the same row for every token of those blocks |
| PrefixCacheSpec.CommitCommutes | vllm_omni/core/prefix_cache.py:266-297 | committing finished requests commutes with landing the write in flight if and only if, for every key the write carries, both agree on the last row of every slot both scatter to |
| PrefixCacheSpec.OpRefinesIffAgrees | vllm_omni/core/prefix_cache.py:162-297 | each asynchronous operation, seen with its write in flight applied, is the synchronous one, except exactly a commit that disagrees with the write in flight |
| PrefixCacheSpec.SimulatesIffAgrees | vllm_omni/core/prefix_cache.py:162-480 | the asynchronous pipeline simulates the synchronous cache step for step exactly on the runs whose commits agree |
| PrefixCacheSpec.SkippingAgrees | vllm_omni/core/prefix_cache.py:195-208 | skipping the deferred keys makes every commit agree |
| PrefixCacheSpec.OpRefines | vllm_omni/core/prefix_cache.py:162-297 | with deferred keys skipped every operation is simulated |
| PrefixCacheSpec.AsyncRefinesSync | vllm_omni/core/prefix_cache.py:162-414 | over every run with arbitrary event answers, cache plus pending write equals the synchronous cache, deferred chunks and commits included |
| PrefixCacheSpec.UnskippedKeyOverwritesCommit | vllm_omni/core/prefix_cache.py:198-202 | an input of the class's interface on which they disagree: a write in flight that carries a deferred key overwrites the commit that the synchronous cache keeps |
| PrefixCacheSpec.UnskippedRun | vllm_omni/core/prefix_cache.py:162-250 | a run of fitting operations from an empty cache that reaches it, so it does not simulate the synchronous cache |
| PrefixCacheSpec.PrefixHitReadsHistory | vllm_omni/core/prefix_cache.py:696-737 | after any run that wrote the prefix's tokens, the cache with its write in flight applied, read by blocks, is exactly their history in order |
| PrefixCacheSpec.BehindWrite | vllm_omni/core/prefix_cache.py:208-212 | with a new write in flight the stored hidden states are those of the cache with all earlier writes landed, and show nothing of the new one |
| PrefixCacheSpec.PrefixReadBehindWrite | vllm_omni/core/prefix_cache.py:696-737 | what the runner reads: with this step's write in flight, the store as it stands read by blocks is the history of the tokens written by the steps before |
| PrefixCacheSpec.StandingReadsHistory | vllm_omni/core/prefix_cache.py:696-737 | from then on it is so at every moment of every run that respects the prefix, whatever the events answer and whatever is in flight |
| PrefixCacheSpec.BlockReadIff | vllm_omni/core/prefix_cache.py:715-737 | a block read with a write in flight is the read after it landed if and only if, on every prefix slot the write names, its last row is the stored one |
| PrefixCacheSpec.ReadIsSynchronousIff | vllm_omni/core/prefix_cache.py:696-737 | so, at any moment of any run, the block read is the synchronous cache's if and only if the write in flight agrees so |
| PrefixCacheSpec.CommittedChunksHold | vllm_omni/core/prefix_cache.py:456-512 | committed chunks that agree with a history leave it in the slots of the tokens they cover, overlaps and truncation included |
| PrefixCache.PrefixHitMergesHistory | vllm_omni/core/prefix_cache.py:673-737 | with this step's write in flight a request on a prefix hit gets the history of floor(computed / block_size) blocks followed by its new rows |
| PrefixCache.ScheduleThenMerge | vllm_omni/worker/gpu_ar_model_runner.py:1308-1322 | on the object: putting the step's write in flight and then merging returns, for a request on a prefix hit, its history followed by its scheduled rows, and for any other its scheduled rows |
| PrefixCache.OmniTensorPrefixCache.MaybeInitMissingMmCacheKeys | vllm_omni/core/prefix_cache.py:84-116 | every per-token tensor without a cache gets a zeroed one; existing caches are untouched |
| PrefixCache.OmniTensorPrefixCache.ConsumePendingWrite | vllm_omni/core/prefix_cache.py:266-297 | the write in flight lands in every cache it carries and is dropped |
| PrefixCache.OmniTensorPrefixCache.ScheduleAsyncWrite | vllm_omni/core/prefix_cache.py:162-250 | the previous write lands before this step's is put in flight, so at most one is pending |
| PrefixCache.OmniTensorPrefixCache.ScheduledIsAsyncOp | vllm_omni/core/prefix_cache.py:162-250 | scheduling on the object is the write step of the asynchronous machine |
| PrefixCache.OmniTensorPrefixCache.DrainReadyAsyncWrites | vllm_omni/core/prefix_cache.py:252-264 | a drain is the machine's drain step for the event's answer |
| PrefixCache.OmniTensorPrefixCache.UpdateOmniTensorPrefixCache | vllm_omni/core/prefix_cache.py:345-414 | the synchronous update is the write step of the synchronous machine |
| PrefixCache.OmniTensorPrefixCache.StageDeferredMmOutputs | vllm_omni/core/prefix_cache.py:416-454 | one chunk per scheduled request and deferred key is appended, whose contents PrefixHistory.StagedChunk gives |
| PrefixHistory.StagedChunk | vllm_omni/core/prefix_cache.py:436-454 | a chunk is staged exactly for a request the step has rows for; it starts at the request's first scheduled token and holds that request's own rows, as many as there are |
| PrefixHistory.StagedCommitReads | vllm_omni/core/prefix_cache.py:416-551 | over any asynchronous run in which what is staged for a request carries a history and covers it, the commit makes the block read of that key the history, in flight writes or not |
| PrefixHistory.ProducedIsReadBack | vllm_omni/core/prefix_cache.py:416-551 | the same from the forward steps alone: rows produced for a request's tokens, in any number of steps with anything between, are read back as its history |
| PrefixHistory.OpAt | vllm_omni/core/prefix_cache.py:345-414 | under a multimodal key an operation leaves the last row it scatters to a slot, a step its leading unpadded rows and a commit its chunks, and elsewhere what was there; skipped keys and padding rows are never written |
| PrefixHistory.KeyReadsHistory | vllm_omni/core/prefix_cache.py:345-414 | over any run of padded multi-row steps, new and skipped keys, stagings and commits that scatters a prefix's history to its slots, the key's cache read by blocks is that history once the next write is in flight |
| PrefixCache.OmniTensorPrefixCache.CommitDeferredMmKey | vllm_omni/core/prefix_cache.py:484-511 | sorting, coalescing and one scatter per contiguous run leave what separate writes in sorted order would |
| PrefixCache.OmniTensorPrefixCache.CommitDeferredMmOutputs | vllm_omni/core/prefix_cache.py:456-478 | finished requests are popped and committed, in any key order, as the machine's commit step |
| PrefixCache.OmniTensorPrefixCache.DiscardDeferredMmOutputs | vllm_omni/core/prefix_cache.py:480-482 | only the request's deferred chunks disappear |
| PrefixCache.OmniTensorPrefixCache.GetMergedHiddenStates | vllm_omni/core/prefix_cache.py:649-737 | every request gets its cached blocks and its own scheduled rows; it fails exactly when the staged rows are too few |
| CfgTracker.CfgCompanionTracker.PopCompanionOutputs | vllm_omni/engine/cfg_companion_tracker.py:60-68 | the loop returns stashed outputs in role-registration order and removes only those |
| CfgTracker.CfgCompanionTracker.OnCompanionCompleted | vllm_omni/engine/cfg_companion_tracker.py:70-83 | the object takes the completion step: untracked, repeated, marked or releasing |
| CfgTracker.CfgCompanionTracker.Cleanup | vllm_omni/engine/cfg_companion_tracker.py:99-107 | the parent and all its companions leave all six indices, nothing else does |
| CfgTracker.CfgCompanionTracker.AbortAll | vllm_omni/engine/cfg_companion_tracker.py:109-128 | every aborted id that is no companion is cleaned once, and its companions are added to the ids |
| OrchestratorSafety.AbortIsClean | vllm_omni/engine/cfg_companion_tracker.py:109-128 | the order parents are cleaned in does not matter: the result is the tracker without them and their companions |
| OrchestratorSafety.StepKeeps | vllm_omni/engine/orchestrator.py:435-1462 | every handler call keeps the tracker's indices consistent, requests well formed and the trace lawful |
| OrchestratorSafety.RunKeeps | vllm_omni/engine/orchestrator.py:659-794 | so does every run from the start |
| OrchestratorSafety.ContiguousAndOnce | vllm_omni/engine/orchestrator.py:931-969 | in every run a live request was submitted to exactly stages 0..k: the trace holds one submission to each of 1..k and none beyond, though three different events can trigger a forward |
| OrchestratorSafety.TerminalOnceThenGone | vllm_omni/engine/orchestrator.py:796-829 | at most one terminal message per id; afterwards neither it nor a registered companion remains anywhere and later outputs change nothing |
| OrchestratorMessages.OutputTells | vllm_omni/engine/orchestrator.py:876-966 | every output of a final-output stage is told with exactly one message, marked last if and only if every wanted output is now finished; then the request is gone; otherwise a finished output whose next stage has its turn goes on with that output or waits for companions with it, and nothing else is told |
| OrchestratorMessages.ForwardTells | vllm_omni/engine/orchestrator.py:1178-1462 | forwarding submits the given output, alone before any stage but diffusion, ends the request with a message when there are no inputs, and goes down exactly on missing prefill parameters |
| OrchestratorMessages.KvReadyTells | vllm_omni/engine/orchestrator.py:1067-1096 | a client's ready kv cache does the same when its next stage has its turn, and nothing otherwise |
| OrchestratorMessages.ErrorTells | vllm_omni/engine/orchestrator.py:796-814 | an error output tells exactly one error message, to the request or the parent it was registered for, and nothing of the addressee is left |
| OrchestratorMessages.AdmissionTells | vllm_omni/engine/orchestrator.py:435-487 | an admitted request starts with no finished output and is submitted to stage 0, and to every later stage exactly in async-chunk mode with a token prompt |
| OrchestratorMessages.RegistrationTells | vllm_omni/engine/orchestrator.py:532-576 | a companion of a live parent becomes live and awaited under its role; of a gone parent it changes nothing |
| OrchestratorMessages.CompanionTells | vllm_omni/engine/orchestrator.py:893-899 | a companion's finished output is counted for its parent and the companion is gone |
| OrchestratorMessages.AbortTells | vllm_omni/engine/orchestrator.py:578-585 | an abort removes exactly the requests it names and their companions, and tells nothing |
| OrchestratorCompletion.LiveMissesOutput | vllm_omni/engine/orchestrator.py:901-966 | in every run a live client has marked exactly the final-output stages whose finished output was brought since its admission, and misses a wanted one; one that is gone was aborted by name or got its one terminal message |
| OrchestratorCompletion.LastOutputCompletes | vllm_omni/engine/orchestrator.py:901-966 | in every run the call that brings a final-output stage's output is answered by one message of that stage, last if and only if with it every wanted output was brought; the request is then gone |
| OrchestratorFlow.SubmissionsAreSourced | vllm_omni/engine/orchestrator.py:1178-1462 | in every run each submission to a later stage carries first an output some call brought from the stage before for the same request; only a diffusion stage is given more, finished outputs that calls brought; only async-chunk mode submits without one |
| OrchestratorWakeup.NoLostWakeup | vllm_omni/engine/orchestrator.py:1042-1065 | in every run the tracker's assertion cannot fail; a deferred parent has an uncounted companion, the next call takes it out of waiting exactly when it counts the last companion or ends the parent, and then moves it on exactly when the deferred output is effective |
| OrchestratorWakeup.LastCompanionReleases | vllm_omni/engine/orchestrator.py:1042-1065 | without kv-ready outputs the call that counts the last companion always submits the parent to its next stage, ends it with one message or brings the orchestrator down |
| OrchestratorWakeup.ReleaseMovesNothing | vllm_omni/engine/orchestrator.py:1067-1096 | a run that fails it: a parent deferred by an unfinished kv-ready output, and a last companion whose output yields no inputs, leaves the parent neither waiting, submitted nor ended |
| OrchestratorFanIn.StepOwes | vllm_omni/engine/orchestrator.py:578-585 | of all calls only an abort can orphan a companion, and exactly those do that name an uncounted one without its parent |
| OrchestratorFanIn.OrphanFreeIffAbortsSpare | vllm_omni/engine/orchestrator.py:578-585 | no prefix of a run has an orphaned companion if and only if every abort that names an uncounted companion names its parent too |
| OrchestratorFanIn.DeferredAwaitsLiveCompanion | vllm_omni/engine/orchestrator.py:937-945 | on those runs an uncounted companion of a deferred parent is still live, so its stage owes the releasing output |
| OrchestratorFanIn.OrphanIsNeverCounted | vllm_omni/engine/orchestrator.py:1042-1065 | a companion gone uncounted is never counted in any continuation, so its parent is never released while it lives |
| OrchestratorFanIn.CompanionAbortStrands | vllm_omni/engine/orchestrator.py:578-585 | a run that fails the condition: aborting a companion alone leaves its deferred parent stranded |
| OrchestratorBundle.FirstDiffusionGetsBundle | vllm_omni/engine/orchestrator.py:1200-1211 | without kv-ready outputs, the first diffusion stage is given the parent's finished output and one finished output per companion registered so far, in registration order |
| Orchestrator.Orchestrator.HandleAddRequest | vllm_omni/engine/orchestrator.py:435-487 | the handler with its prewarm loop is the admission step |
| Orchestrator.Orchestrator.HandleAddCompanion | vllm_omni/engine/orchestrator.py:532-576 | the handler is the registration step, dropped for a parent that is gone |
| Orchestrator.Orchestrator.HandleAbort | vllm_omni/engine/orchestrator.py:578-585 | the handler is the abort step for some order of the parents |
| Orchestrator.Orchestrator.HandleStageError | vllm_omni/engine/orchestrator.py:796-814 | an error ends the parent with one message and the cleanup of everything tracked for it |
| Orchestrator.Orchestrator.CleanupRequestIds | vllm_omni/engine/orchestrator.py:818-829 | exactly the given ids lose their state and captured parameters |
| Orchestrator.Orchestrator.RouteOutput | vllm_omni/engine/orchestrator.py:876-966 | routing on the object is the routing step: companion, final output, forward, deferral or completion |
| Orchestrator.Orchestrator.HandleCompanionReady | vllm_omni/engine/orchestrator.py:1042-1065 | the handler is the companion-ready step |
| Orchestrator.Orchestrator.HandleKvReadyRawOutputs | vllm_omni/engine/orchestrator.py:1067-1096 | a batch of kv-ready outputs is a run of that many steps |
| Orchestrator.Orchestrator.ForwardToNextStage | vllm_omni/engine/orchestrator.py:1178-1462 | forwarding on the object is the forward step on all four paths, early termination included |
| Orchestrator.Orchestrator.HandleProcessedOutputs | vllm_omni/engine/orchestrator.py:765-794 | a batch of processed outputs is a run of that many steps |
| ShmIpc.HandleRestores | vllm_omni/diffusion/ipc.py:24-79 | a tensor's handle read back over its segment is the tensor, bfloat16 by way of float32 included |
| ShmIpc.LargeByWidth | vllm_omni/diffusion/ipc.py:17-85 | which tensors are moved to shared memory: those above a million bytes, by element width |
| ShmIpc.SharedMemory.PackValueIfLarge | vllm_omni/diffusion/ipc.py:82-106 | the packed value denotes the original, uses each new segment once, holds no large tensor, and packing what holds none changes nothing and creates nothing |
| ShmIpc.SharedMemory.UnpackIfShmHandle | vllm_omni/diffusion/ipc.py:109-119 | unpacking a packed value gives the original if and only if no dict in it passes for a handle, and then frees exactly its segments |
| ShmIpc.SharedMemory.TensorFromShm | vllm_omni/diffusion/ipc.py:58-79 | the segment is gone afterwards whether or not its contents could be read |
| DiffusionTransfer.PackDiffusionFields | vllm_omni/diffusion/ipc.py:122-131 | the four fields are packed in place, trajectories only when tensors; what they denote is unchanged |
| DiffusionTransfer.UnpackDiffusionFields | vllm_omni/diffusion/ipc.py:166-171 | packed fields come back as they were |
| DiffusionTransfer.PackDiffusionOutputShm | vllm_omni/diffusion/ipc.py:138-163 | every output reached through envelopes, results and batches is packed, also when reached twice; packing again is a no-op |
| DiffusionTransfer.UnpackDiffusionOutputShm | vllm_omni/diffusion/ipc.py:174-193 | every output reached is restored and exactly the packed segments are freed |
| DiffusionTransfer.RoundTrip | vllm_omni/diffusion/ipc.py:138-193 | pack then unpack returns every field and the segment namespace to where they started |
| PayloadKeys.KeysInjective | vllm_omni/data_entry_keys.py:291-312 | different positions of a payload never share a flat key |
| PayloadKeys.KeysSpelled | vllm_omni/data_entry_keys.py:288-312 | the spelling of flat keys: key, key.qualifier and hidden_states.layer_N, for the five nested keys |
| PayloadKeys.FlattenPayload | vllm_omni/data_entry_keys.py:291-312 | the loops emit exactly the payload's items |
| PayloadKeys.FlatIsUnique | vllm_omni/data_entry_keys.py:291-312 | a well-formed payload has one flat dict, whatever order it is walked in |
| PayloadKeys.UnflattenPart | vllm_omni/data_entry_keys.py:315-334 | any subset of a well-formed payload's items, in any order, unflattens without error to exactly that part |
| PayloadKeys.RoundTripIffWellFormed | vllm_omni/data_entry_keys.py:291-334 | unflatten undoes flatten if and only if top-level keys are dot-free and nested dicts are non-empty, string-keyed and free of layer spellings |
| PayloadKeys.UnflattenPayload | vllm_omni/data_entry_keys.py:315-334 | the loop decides exactly that for every payload the flat dict came from |
| PayloadKeys.ParsePrint | vllm_omni/data_entry_keys.py:326-329 | parsing a printed layer index gives the index back |
| PayloadWire.SentIsFlat | vllm_omni/data_entry_keys.py:368-379 | what is sent is the flat form of the payload without its None values |
| PayloadWire.DeserializePayload | vllm_omni/data_entry_keys.py:382-400 | entries decoded and unflattened give back a payload exactly when it is well formed |
| PayloadWire.WireRoundTrip | vllm_omni/data_entry_keys.py:355-400 | deserialise after serialise is the payload minus None values and the sub-dicts they leave empty |
| OutputLedger.RunLedger | vllm_omni/engine/output_processor.py:49-399 | in every run, tensors and other values mixed in any order: the slices of a key handed out by draining plus those waiting are never more than all that arrived, and are all of them in order exactly if no step lost one |
| OutputLedger.WaitsForAllIff | vllm_omni/engine/output_processor.py:49-87 | a key that is not drained denotes all its chunks in arrival order if and only if no join met chunks that do not fit |
| OutputLedger.DeferredIsEager | vllm_omni/engine/output_processor.py:49-87 | if the tensors among its values fit together, such a key denotes all of them in order under any interleaving, and joining it now gives exactly their concatenation |
| OutputLedger.OutputShowsAllIff | vllm_omni/engine/output_processor.py:374-394 | an output handed out shows all chunks so far of such a key if and only if no non-tensor value shadows them and no join so far met chunks that do not fit, or there are no slices to show |
| OutputLedger.OutputShowsAll | vllm_omni/engine/output_processor.py:374-394 | if all frames agree, exactly when no non-tensor value arrived or there are no slices to show |
| OutputLedger.AudioKeepsElements | vllm_omni/engine/output_processor.py:218-225 | whatever the frames, joined, flattened or drained, no element of audio is lost or added over any run in which no metadata hides a drained chunk |
| OutputAccumulation.MetadataIsLatest | vllm_omni/engine/output_processor.py:63-74 | metadata is always the latest value |
| OutputAccumulation.DeliversIffUnshadowed | vllm_omni/engine/output_processor.py:374-399 | an output hands out a drained key's waiting chunks if and only if no non-tensor value shadows them; either way they are gone |
| OutputAccumulation.JoinKeepsIff | vllm_omni/engine/output_processor.py:218-234 | joining a key other than audio keeps every slice if and only if the frames agree or only the last tensor has any, and never adds one |
| OutputAccumulation.FlatKeepsElements | vllm_omni/engine/output_processor.py:221-225 | flattening mismatched audio keeps every element of every tensor |
| OutputAccumulation.FlatAt | vllm_omni/engine/output_processor.py:225 | and lists the tensors one after another, each row by row |
| OutputDrain.WaitsForSince | vllm_omni/engine/output_processor.py:394-399 | what waits under a drained key is exactly the list of tensors that arrived since the last output |
| OutputDrain.DrainedOnceIff | vllm_omni/engine/output_processor.py:374-399 | in delta mode, tensors and other values mixed in any order: pieces handed out plus what waits are every chunk once and in order if and only if no output was handed out after a non-tensor value with a chunk waiting and no finishing one joined chunks that do not fit |
| OutputDrain.DrainedOnceInOrder | vllm_omni/engine/output_processor.py:374-399 | with tensors of one frame only, the pieces of a drained key are every chunk exactly once, in order, and after an output nothing waits |
| OutputDrain.MixedRunLoses | vllm_omni/engine/output_processor.py:374-399 | a run that fails it: a chunk, then a non-tensor value, then an output |
| OutputDrain.MismatchedRunLoses | vllm_omni/engine/output_processor.py:226-231 | another: two images of different shapes, then the finishing output |
| OutputState.OmniRequestState.MergePayload | vllm_omni/engine/output_processor.py:49-74 | merging in place, lists appended to, is the merge function |
| OutputArrivals.ArrivedIsSent | vllm_omni/engine/output_processor.py:154-197 | what arrived under a key in any run is what the payloads sent there: read off the operations, with the last named modality and the runners' keys standing for it |
| OutputArrivals.SentIff | vllm_omni/engine/output_processor.py:168-187 | a key receives the last item of a payload whose destination it is |
| OutputArrivals.ProducerArrives | vllm_omni/engine/output_processor.py:164-187 | a payload under "hidden" or "model_outputs", sent with a modality in any letter case, arrives under that modality and no other key |
| OutputArrivals.LowerIff | vllm_omni/engine/output_processor.py:164-165 | lower-casing is the choice of the spelling without capitals |
| OutputArrivals.DeliversWhatWasSent | vllm_omni/engine/output_processor.py:374-399 | in delta mode what was handed out and what waits are exactly the tensors sent under the key, in order, if and only if no step lost one |
| OutputArrivals.OutputShowsMetadata | vllm_omni/engine/output_processor.py:374-394 | every output carries the last non-tensor value sent under a key |
| OutputArrivals.TakesAudioAndImage | vllm_omni/engine/output_processor.py:394-399 | a delta output takes the audio and image tensors away and nothing else |
| OutputState.OmniRequestState.AddMultimodalTensor | vllm_omni/engine/output_processor.py:154-197 | the rename and merge loops change the state as the addition whose arrivals OutputArrivals.ArrivedIsSent reads off the payload; lists in use stay in use |
| OutputState.OmniRequestState.ConsolidateMultimodalTensors | vllm_omni/engine/output_processor.py:199-242 | every list becomes one tensor; lists already handed out are not touched |
| OutputState.OmniRequestState.MakeRequestOutput | vllm_omni/engine/output_processor.py:246-399 | the output handed out and the state left are those of the output step; drained lists are out of the accumulator's reach |
| OutputState.SnapshotAfterRun | vllm_omni/engine/output_processor.py:374-394 | after any later run an entry handed out shows what it showed plus, when it shares the accumulator's list, the tensors that arrived before the next join; it changes if and only if it is shared and one arrived |
| OutputState.SnapshotChanges | vllm_omni/engine/output_processor.py:374-394 | from a new delta request: an entry of two chunks handed out shows three after one more arrives |
| DeployMerge.GetRecursivelyMergedDict | vllm_omni/config/stage_config.py:538-556 | the loop on a copy, keys in any order, is the recursive merge |
| DeployPrecedence.MergeIsPrecedence | vllm_omni/config/stage_config.py:538-556 | the recursive merge is the only value that says, at every path, what the overlay says if it speaks there and what the base says otherwise |
| DeployMerge.MergeUnitAndIdempotent | vllm_omni/config/stage_config.py:538-556 | the empty dict is neutral and merging is idempotent |
| DeployMerge.AbsorbedIff | vllm_omni/config/stage_config.py:538-556 | an overlay hides its base exactly when it repeats all its keys recursively |
| DeployMerge.AssociativeIff | vllm_omni/config/stage_config.py:538-556 | grouping is irrelevant if and only if, wherever a scalar stands between two dicts, the last repeats the first |
| DeployMerge.ScalarCutsMerge | vllm_omni/config/stage_config.py:538-556 | inputs that fail it: dict, scalar, empty dict under one key keep the first dict in one grouping only |
| DeployMerge.DeepMergeStage | vllm_omni/config/stage_config.py:526-535 | the dicts combined as in the code are the stage merge that DeployPrecedence.StageLookup describes |
| DeployPrecedence.StageLookup | vllm_omni/config/stage_config.py:523-535 | at every path the overlay stage decides if it speaks: under the four deep keys by having something there or a scalar above, under any other by having the key; the base decides otherwise |
| DeployPrecedence.MergedListLookup | vllm_omni/config/stage_config.py:559-571 | in a merged stage list the overlay's last entry that speaks about a stage's path decides, else the base |
| DeployPrecedence.MergeDeployAt | vllm_omni/config/stage_config.py:574-616 | the same for every place of a document: top level, stages, platforms and their stages |
| DeployPrecedence.LastWordWins | vllm_omni/config/stage_config.py:593-616 | along a base_config chain the last document that speaks about a place, or the root if none does, decides what the resolved document has there |
| DeployMerge.MergeStageAssocIff | vllm_omni/config/stage_config.py:526-535 | stage merging may be regrouped exactly when every deep key all three stages name may |
| DeployMerge.MergeStageLaws | vllm_omni/config/stage_config.py:526-535 | stage merging is associative on stages that agree on what is a dict, and keeps them so |
| DeployMerge.MergeStageLists | vllm_omni/config/stage_config.py:559-571 | the two loops layer the overlay over the base by stage id |
| DeployMerge.MergeListsIsCombine | vllm_omni/config/stage_config.py:559-571 | the result lists the base's stages in their order, then the new ones in theirs, shared ones merged |
| DeployMerge.MergeListsUnit | vllm_omni/config/stage_config.py:559-571 | the empty list is neutral on both sides and merging is idempotent |
| DeployMerge.MergeDeployAssocIff | vllm_omni/config/stage_config.py:574-616 | whole documents, platforms included, may be regrouped if and only if in every stage all three name no scalar cuts a merge of deep keys |
| DeployMerge.MergeDeployAssociative | vllm_omni/config/stage_config.py:574-616 | documents whose shared stages agree on what is a dict may be regrouped, and merging keeps them so |
| DeployMerge.AnyGrouping | vllm_omni/config/stage_config.py:593-616 | every way of grouping a base_config chain of compatible documents gives what resolving it gives |
| DeployMerge.GroupsFreelyIff | vllm_omni/config/stage_config.py:593-616 | for any chain, every grouping of every stretch gives what resolving that stretch gives if and only if, between neighbouring stretches and the document after them, no scalar cuts a merge of deep keys |
| DiffusionTopology.RoleIsCanonical | vllm_omni/diffusion/stage_roles.py:56-70 | a normalised role is non-empty, has no surrounding space and is a fixed point |
| TopologyReport.RoleIs | vllm_omni/diffusion/stage_roles.py:56-70 | it is the stage's name without its surrounding space, or "diffusion" when nothing is left or there is none |
| TopologyReport.ErrorIff | vllm_omni/diffusion/stage_roles.py:197-293 | whatever the stage list, the report holds each error exactly where its own rule is broken |
| DiffusionTopology.ValidateLinearDiffusionTopology | vllm_omni/diffusion/stage_roles.py:197-293 | the loops return no error if and only if the declared rules hold |
| DiffusionTopology.NoErrorsIffLinear | vllm_omni/diffusion/stage_roles.py:207-216 | the same about the error list as a function, both directions |
| DiffusionTopology.DecodePath | vllm_omni/diffusion/stage_roles.py:247-278 | from a decode stage the source links visit denoise stages only and within n links end at an encode entry or revisit a denoise stage |
| DiffusionTopology.ReachesEncodeIffAcyclic | vllm_omni/diffusion/stage_roles.py:247-278 | every consumer of an accepted topology leads back to an encode entry if and only if its links are acyclic |
| DiffusionTopology.CycleAccepted | vllm_omni/diffusion/stage_roles.py:250-263 | two denoise stages feeding each other, with no encode stage, are accepted |
| AudioContinuity.ComputeContinuityStats | vllm_omni/benchmarks/audio_continuity.py:39-91 | the loop returns the worst deficit, zero if none, and counts the gaps; degenerate timelines are continuous |
| AudioContinuity.GapsAreStarved | vllm_omni/benchmarks/audio_continuity.py:75-84 | the gaps counted are the chunks before whose arrival the player had played more than it received |
| AudioContinuity.RateOfSamples | vllm_omni/benchmarks/audio_continuity.py:67-69 | the byte rate is the one at which n samples on every channel last n / sample_rate seconds |
| AudioContinuity.WorstIsLeastDelay | vllm_omni/benchmarks/audio_continuity.py:64-85 | a start delay suffices at every real time up to the last arrival if and only if it is at least the metric |
| AudioContinuity.SufficesAtArrivals | vllm_omni/benchmarks/audio_continuity.py:76-85 | in whatever order chunks are listed, a delay suffices at every real time if and only if it does at the arrival instants |
| AudioContinuity.ContinuousIffThresholdSuffices | vllm_omni/benchmarks/audio_continuity.py:87-91 | a request is continuous exactly when starting a threshold late would have been enough |

## Left out

- Floating-point rounding, the cast of probabilities to the value dtype, tile shapes, warps and pipelining: the attention theorems are over reals.
- Lanes at or above KV_GROUP in a kernel tile: they are masked out of every load and store and are not run.
- CUDA streams, pinned memory and the copy itself: a pending record and an arbitrary answer of its event stand for them.
- Tensor dtypes, trailing dimensions and the errors index_copy_ or cat raise on them in the prefix cache: tensors are rows along the first dimension.
- DispatchMaxSeqLen, GuardCoversTable: the checks of the guard that do not bound an access (device, dtype, sliding window, soft cap) are one boolean parameter.
- PrefixCacheSpec.AsyncRefinesSync: is about steps whose cached tensors have a row per unpadded token; on shorter ones the asynchronous path skips a key where the synchronous one raises.
- SlotCache.IndexCopyInPlace: takes repeated slots in row order, an order torch leaves open; that is one of the possible outcomes, and the only one exactly when repeated slots are given the same row (SlotCache.OutcomeFixedIff).
- PrefixCacheSpec.PrefixReadBehindWrite: takes the runner's duty as a hypothesis that rows written into a prefix's slots carry that prefix's history; tokens that only the step in flight writes are not read back in that step (PrefixCacheSpec.BehindWrite).
- Merged reads of multimodal keys and payload dicts: they gather blocks as the hidden-state read does.
- Streaming-input sessions, replica management, collective RPC, metrics, timers and the pools' abort and binding calls in the orchestrator.
- Interleaving inside a handler's awaits: a handler call is one atomic step.
- The fatal dead-engine path and replica unregistration: they drop request state without the tracker's cleanup, so the no-trace claim is not made there.
- OrchestratorSafety.TerminalOnceThenGone: needs fresh request ids, companions registered for client requests under new roles, and a final stage among the wanted outputs.
- OrchestratorBundle.FirstDiffusionGetsBundle: is about runs without kv-ready raw outputs and without async chunk; a kv-ready companion is counted before its output exists.
- Requests and output objects in the orchestrator are values, so aliasing between a deferred output and later changes to it is not captured.
- The crash of a missing prefill parameter is a flag after which nothing happens.
- ShmIpc.SharedMemory.TensorFromShm: reading another array's bytes through a forged handle gives any tensor or an error.
- Device, autograd state and NaN payloads of transferred tensors, and a tensor stored under the marker key (its truth value may raise).
- The queue between packing and unpacking: both ends share one segment namespace.
- PayloadKeys.UnflattenPayload: a list or tensor standing where a sub-dict is needed is an error here; Python would assign into a list or tensor stored under hidden_states.layers, which only payloads with a literal layer key lead to.
- PayloadKeys.ParsePrint: underscores, surrounding space and non-ASCII digits that Python's int accepts are not parsed.
- PayloadWire.WireRoundTrip: tensors are identities on the wire; their bytes, and bfloat16, which numpy lacks, are not modelled.
- OutputLedger.RunLedger: counts slices, so it leaves out audio whose other dimensions disagree, which is flattened; of that OutputLedger.AudioKeepsElements says over runs that the elements are kept, and OutputAccumulation.FlatAt for one flattening where they stand.
- OutputState.OmniRequestState.ConsolidateMultimodalTensors: a tensor is modelled along the one dimension its request's modality concatenates on; a modality that changes, and the retry of a mismatched audio key along the last dimension under another modality, are not.
- OutputState.OmniRequestState.AddMultimodalTensor: lower-cases ASCII letters only.
- OutputDrain.DrainedOnceIff: is about audio whose other dimensions agree, no parallel sampling and outputs that are delivered; a parent request that withholds a child's output loses what it drained.
- Tensor-valued metadata, which only payload objects built by hand contain, and the unflattening of snapshots.
- Stage entries without a stage_id, and relative path resolution of base_config files; a chain is given as the list of its documents.
- A topology given by objects without an id: ids are integers.
- Engine-argument plumbing, registries, configuration probing, logging and output formatting.
