# KV compression for Ascend: a verified model

This project models a plugin that compacts the key/value cache of long requests while a language-model
server keeps running, and proves what its two halves, its token selection and its numeric helpers owe
each other. `dafny verify dfyconfig.toml` checks everything.

## The system

A *scheduler* decides which requests run and owns a pool of reference-counted cache blocks. A *worker* runs
each scheduled batch on the accelerator. When a request's cache has grown past a threshold, the scheduler
half reserves private destination blocks and attaches a plan to the batch; the worker half runs the batch,
copies the selected tokens into the destination, and waits; when the output has been acknowledged the
scheduler half switches the request's block table and frees the source blocks, in asynchronous mode only
after the batches that were already queued; the worker switches at the request's next scheduled step. Host
events (preempting, finishing, aborting, resuming, taking back rejected drafts) may happen at any time.

## How the model is built

* `SchedulerModel`, `WorkerModel` give every hook and loop iteration as a function on values;
  `SchedulerState`, `WorkerState` are the classes with dictionaries and buffers updated in place, each
  method proved equal to those functions for every iteration order of the dictionaries it walks.
* `SchedulerInvariant`, `SchedulerSteps`, `Ledger`: block conservation, private tables, sound lengths and
  freezing, kept by every operation.
* `Agreement`, `Schedule`, `Dispatch`, `Protocol`: the two-party protocol as a step relation over a queue
  of in-flight outputs. The host is a small contract: fresh distinct blocks from the pool, one reference
  back per free, enough blocks for the scheduled physical tokens, no scheduling of a frozen request,
  outputs processed in order with a bounded number in flight, at most one in synchronous mode; rejected
  drafts are taken back only down to the last compression, from blocks that are neither hashed nor shared.
* `ProtocolInvariant`, `AcknowledgeStep`, `PassStep`, `ProtocolTheorems`, `LengthTheorems`: what holds in
  every reachable state. The key idea is the *logical worker*, the worker as it will be once everything
  issued has run; scheduler and logical worker always agree, up to one table switch that is still owed.
* `BarrierTheorems`, `SwitchTheorems`, `FreezeTheorems`, `HashTheorems`: what must have been acknowledged before
  a table switches, that it then does switch, when its source blocks are back, who gets a plan, which eligible
  step a request has afterwards, and what the host's prefix counts mean.
* `CompressTheorems`: what the worker does with a plan in any state at all, reachable or not.
* `ReturnTheorems`: nothing is freed twice, and freeing exactly what is held is the only way to keep the books.
* `KVMemory` to `KVRun`, `Selectors`, `WorkerContent`: what the cache contains. A slot's content is named by the token
  prefix it was computed for; each request has a *view*, the positions its physical tokens stand for.
* `Quotas`, `Ranking`, `V3Policy`, `Selection`: which tokens are kept, under any tie-breaking total order.
* `Paging`, `PagedCache`, `Compaction`: slots, and moving tokens between them.
* `Sums`, `Scoring`, `ScoringKernel`, `ScoringOffsets`, `Collective`: scores in real arithmetic; `ScoreMeaning`
  says what they are from the laws of cosine and sine.
* `LayerMetadata`, `GroupLengths`: lengths and slots per layer and per cache group.
* `SpecConv`, `ConvMeaning`, `SpecRollback`, `SpecCalls`, `PackedSegments`: the speculative convolution and packed sequences.
* `Witness`: a concrete run that compresses, so that the theorems about runs are not about nothing.

Some fields exist only to state history: the pool's `overdrawn` (a free returned more references than a block
had, which the pool does not refuse), a release's `stamp` and the counters `issued` and `acked` (how many
outputs were issued or acknowledged), a flight's `tables`, `anchors` and `live`, and the views and promises
of the annotated protocol. No decision reads them.

An acknowledgement matches a pending compression by comparing plans. An output of a freed request can in
principle carry an equal plan for a later incarnation (`BarrierTheorems.NoTwin` excludes it); the invariant shows that a request marked ready this
way still has a worker that carried out that plan, because outputs are processed in order.

A source-level observation: with a one-tap kernel the convolution's span check admits a span one token
longer than the state has columns, and the copy that follows fails, unless the state has no columns at all
(`SpecConv.WidthOneEdge`). The model keeps
that failure.

## Model

| member | source | states |
|---|---|---|
| ProtocolTheorems.RunsKeepInvariant | src/vllm_ascend_kvcompress/stateful.py:282-561 | Every state of every run of scheduler, worker and output queue satisfies the system invariant, whatever the order of adding, admitting, growing, preempting, finishing, resuming, taking back rejected drafts, scheduling, executing and acknowledging |
| ProtocolTheorems.WorkerFollowsScheduler | src/vllm_ascend_kvcompress/provider.py:321-371 | Whenever the worker runs an output, each scheduled request has on the worker the table and anchor that the scheduler had when it issued that output, no worker check fails, and every attached plan is carried out in that step |
| ProtocolTheorems.SchedulerNeverRaises | src/vllm_ascend_kvcompress/stateful.py:317-325 | In no step of any run does a commit meet a changed source table, or arming a table with too few blocks |
| ProtocolTheorems.BlocksConserved | src/vllm_ascend_kvcompress/stateful.py:301-394 | In every state of every run each block has as many references as occurrences in tables, pending reservations and deferred releases, and none was ever freed beyond them; with no requests, or no tables, every block is free |
| ReturnTheorems.NothingFreedTwice | src/vllm_ascend_kvcompress/stateful.py:301-394 | In every step of every run each block that a discard, commit, drain or free gives back is referenced at that moment, every return being judged in the state that the earlier ones have left |
| ReturnTheorems.BalancedExactly | src/vllm_ascend_kvcompress/stateful.py:385-394 | A step that only gives blocks back keeps the books if and only if it gives back exactly what the request no longer holds |
| ReturnTheorems.FreedExactlyOnce | src/vllm_ascend_kvcompress/stateful.py:628-640 | Freeing a request keeps the invariant if and only if what is given back is exactly what it held, each reference once |
| ReturnTheorems.SecondReturnShows | src/vllm_ascend_kvcompress/stateful.py:385-394 | Giving a waiting compression's reservation back a second time is told apart from giving it back once |
| ProtocolTheorems.CompressedTablesPrivate | src/vllm_ascend_kvcompress/stateful.py:396-412 | In every state of every run each block of a compressed request's table or of a pending destination is held once, by that request alone, and carries no prefix hash |
| ProtocolTheorems.InFlightBlocksHeld | src/vllm_ascend_kvcompress/stateful.py:370-383 | While a batch of a request that has not been freed is in flight, every block that batch uses for the request keeps a reference: those of the table it reads and writes, and those of the destination its plan fills |
| ProtocolTheorems.DrainsAfterEarlierBatches | src/vllm_ascend_kvcompress/stateful.py:292-338 | A deferred release that an acknowledgement lets go was created when only outputs acknowledged by now had been issued |
| ProtocolTheorems.NobodyStranded | src/vllm_ascend_kvcompress/stateful.py:550-553 | With nothing in flight an asynchronous scheduler waits for no compression and a synchronous one has every acknowledgement it needs; a request is frozen exactly while it waits |
| LengthTheorems.RemovedOnlyGrows | src/vllm_ascend_kvcompress/stateful.py:284-286 | Over every step of every run a compressed request keeps its anchor or gets one that removes strictly more tokens |
| LengthTheorems.LengthsSound | src/vllm_ascend_kvcompress/stateful.py:828-829 | In every state of every run removed tokens are positive, the physical length fits the table, and each position computed since the last compression lands, minus the offset, inside the table and past the compacted part |
| LengthTheorems.LiveSlotsDistinct | src/vllm_ascend_kvcompress/provider.py:687-705 | In every state of every run the slot of a compressed request's token, or of one still to be computed, differs from all other slots of its table and lies in a block nobody else holds |
| BarrierTheorems.SwitchNeedsAcknowledgement | src/vllm_ascend_kvcompress/stateful.py:343-346 | In every run a request's anchor changes only to that of a waiting compression, and only once an output carrying exactly its plan has been acknowledged |
| BarrierTheorems.ReadyMeansAcknowledged | src/vllm_ascend_kvcompress/stateful.py:362-368 | In every run a compression is ready only after an output with its very plan was acknowledged |
| BarrierTheorems.ArmingStep | src/vllm_ascend_kvcompress/stateful.py:543-559 | In every run each waiting compression was armed by some scheduling step, whose output carries exactly its plan, and has waited since |
| BarrierTheorems.ReadyMeansOwnOutput | src/vllm_ascend_kvcompress/stateful.py:362-368 | A compression is ready only once the very output of the step that armed it has been acknowledged, unless an output with the same plan for the request was already in flight when that step began |
| BarrierTheorems.SwitchNeedsOwnOutput | src/vllm_ascend_kvcompress/stateful.py:343-346 | A table is switched only once the very output of the arming step has been acknowledged, with the same exception |
| BarrierTheorems.PlansExactly | src/vllm_ascend_kvcompress/stateful.py:501-542 | Pool permitting, a request gets a plan exactly when it has no drafts, waits for nothing, has enough output to come and blocks for the budget, and is uncompressed with its prompt just computed and past the threshold, or compressed, not speculative, and past the threshold again; passed over, it finds the pool short |
| BarrierTheorems.ArmFailsExactly | src/vllm_ascend_kvcompress/stateful.py:501-533 | Arming fails exactly for a request that would get a plan but has too few blocks for the budget |
| FreezeTheorems.HostStepKept | src/vllm_ascend_kvcompress/stateful.py:385-394 | No event but a request's own arrival and departure changes the eligible step that the host gave it, whether it stands in the request or is saved by a waiting compression |
| FreezeTheorems.EligibleRestored | src/vllm_ascend_kvcompress/stateful.py:628-640 | In every run a request that leaves the waiting compressions and is still known has the eligible step it had just before the scheduling step that armed it |
| FreezeTheorems.FrozenWhileWaiting | src/vllm_ascend_kvcompress/stateful.py:550-553 | In every state of every run a waiting request's eligible step is out of reach for an asynchronous scheduler and the host's own for a synchronous one |
| SwitchTheorems.AcknowledgementSwitches | src/vllm_ascend_kvcompress/stateful.py:343-360 | In every asynchronous run acknowledging an output switches each request that waits with the plan it carried: destination as table, the plan's anchor, nothing cached |
| SwitchTheorems.PassSwitches | src/vllm_ascend_kvcompress/stateful.py:282-290 | A synchronous scheduler switches every acknowledged compression before its next pass begins |
| SwitchTheorems.CommitFailsExactly | src/vllm_ascend_kvcompress/stateful.py:317-325 | A commit fails exactly when a ready compression's table is no longer its source; the reservation is then given back and table and anchor stay |
| SwitchTheorems.ReleasedInTime | src/vllm_ascend_kvcompress/stateful.py:292-338 | In every state of every run a deferred release waits for every output issued before its commit, is gone once the allowed number of further ones has been acknowledged, and a synchronous scheduler defers nothing |
| HashTheorems.CachedBlocksRegistered | src/vllm_ascend_kvcompress/stateful.py:340-343 | In every state of every run the host's count of cached blocks covers blocks with a prefix hash only, and is zero for a compressed request |
| Selectors.CompactedCacheContent | src/vllm_ascend_kvcompress/methods/triattention/method.py:256-295 | In every state of every run, under both policies and any scoring: a request's physical cache is an order-preserving subsequence of its computed tokens, starts with the protected prefix, ends with the latest protected tokens, has no gap from the tokens that were the latest when it was last compressed, and each slot holds exactly that token's cell |
| WorkerContent.WorkerStepContent | src/vllm_ascend_kvcompress/provider.py:687-705 | At every worker step of every run, under both policies: once the step has stored its tokens, the worker's own table of each scheduled request holds the view recorded when the output was issued, and at the end each plan's destination holds the kept view |
| KVRun.WholeRunContent | src/vllm_ascend_kvcompress/provider.py:523-529 | The same content for any selection that meets the selection contract, together with what every prefix-hashed block promises |
| Selectors.PoliciesAreGood | src/vllm_ascend_kvcompress/methods/triattention/method.py:465-475 | Both policies, behind score sanitising, meet the selection contract for every scoring and tie-breaking |
| Witness.CompressionReachable | src/vllm_ascend_kvcompress/stateful.py:489-561 | A concrete five-state run in which a request is armed, compressed, acknowledged and switched, with its source blocks deferred |
| ProtocolTheorems.StepPreserves | src/vllm_ascend_kvcompress/stateful.py:582-617 | Each single event preserves the system invariant |
| PassStep.SchedulePreserves | src/vllm_ascend_kvcompress/stateful.py:593-598 | A whole scheduling call, both hooks around any host decisions, preserves the system invariant |
| AcknowledgeStep.AcknowledgePreserves | src/vllm_ascend_kvcompress/stateful.py:362-383 | Acknowledging an output, with draining and committing behind it, preserves the system invariant |
| ProtocolInvariant.FreedPreserves | src/vllm_ascend_kvcompress/stateful.py:628-640 | Freeing a request through preemption or finishing at any moment preserves the system invariant |
| ProtocolInvariant.ExecutePreserves | src/vllm_ascend_kvcompress/provider.py:471-601 | A worker step preserves the system invariant and runs its output as the scheduler believed |
| AcknowledgeStep.DrainThenCommit | src/vllm_ascend_kvcompress/stateful.py:292-299 | Draining before committing keeps every block that a queued batch uses referenced until that batch is acknowledged |
| Dispatch.CompressEffect | src/vllm_ascend_kvcompress/provider.py:471-601 | When every plan of a batch fits, the worker executes each of them, no guard skips and no check fails, and nothing else changes |
| Dispatch.FitsRuns | src/vllm_ascend_kvcompress/provider.py:479-529 | A fitting plan passes every guard and check, and the selection keeps a good set of its physical tokens |
| CompressTheorems.DueExactly | src/vllm_ascend_kvcompress/provider.py:479-560 | On any worker state a plan that does not concern the request now is passed over without effect, and any other stops the worker exactly when the scheduler's count or table, the sizes, the separation of destination and source, or the selection is out of order |
| CompressTheorems.CarriedOut | src/vllm_ascend_kvcompress/provider.py:520-601 | A plan that is carried out leaves the request waiting with its destination and changes no slot outside it |
| CompressTheorems.KeptArrives | src/vllm_ascend_kvcompress/provider.py:520-601 | Each kept token of such a plan stands in its place in the destination |
| CompressTheorems.StepRaisesExactly | src/vllm_ascend_kvcompress/provider.py:471-478 | The compression loop stops the worker exactly when some request does, after the ones before it |
| Dispatch.ArmAllEffect | src/vllm_ascend_kvcompress/stateful.py:501-561 | Arming a batch changes exactly the requests that receive plans, each with a private destination and its table as source |
| Dispatch.ArmAllKeeps | src/vllm_ascend_kvcompress/stateful.py:528-533 | Arming a batch keeps the scheduler invariant and never meets the too-few-blocks error |
| Agreement.UpdateAppended | src/vllm_ascend_kvcompress/provider.py:335-371 | A running request's next scheduled step switches to the waiting compression's table and anchor first and then appends the new blocks |
| Agreement.UpdateAdmitted | src/vllm_ascend_kvcompress/provider.py:325-330 | A new or resumed request starts from the output's whole table with no transaction left |
| Agreement.UpdateLocal | src/vllm_ascend_kvcompress/provider.py:321-371 | What an output says about one request decides what the update does to it |
| Schedule.OperateKeeps | src/vllm_ascend_kvcompress/stateful.py:593-598 | Each host decision inside a pass keeps scheduler and worker in agreement about the output under construction |
| SchedulerInvariant.StepKeeps | src/vllm_ascend_kvcompress/stateful.py:301-394 | The frame rule: a change to one request that accounts for every reference it takes and drops keeps the invariant of all requests |
| SchedulerSteps.CommitKeeps | src/vllm_ascend_kvcompress/stateful.py:309-360 | A commit keeps conservation, privacy, lengths and freezing |
| SchedulerSteps.CommitNeverRaises | src/vllm_ascend_kvcompress/stateful.py:317-325 | In an invariant state no commit meets a changed source table |
| SchedulerSteps.DrainKeeps | src/vllm_ascend_kvcompress/stateful.py:370-383 | Draining a request's releases keeps the invariant |
| SchedulerSteps.DiscardKeeps | src/vllm_ascend_kvcompress/stateful.py:385-394 | Discarding a pending compression keeps the invariant: reservation back, request thawed |
| SchedulerSteps.ArmKeeps | src/vllm_ascend_kvcompress/stateful.py:543-559 | Arming keeps the invariant: the destination is private and disjoint from everything held |
| SchedulerSteps.ArmNeverRaises | src/vllm_ascend_kvcompress/stateful.py:528-533 | In an invariant state a request that qualifies has enough blocks |
| SchedulerSteps.PreemptKeeps | src/vllm_ascend_kvcompress/stateful.py:628-640 | Preempting keeps the invariant: nothing the request held stays referenced for it, and no reference is given back that was not held |
| SchedulerSteps.FinishKeeps | src/vllm_ascend_kvcompress/stateful.py:628-640 | Finishing keeps the invariant |
| SchedulerSteps.GrowKeeps | src/vllm_ascend_kvcompress/stateful.py:400-409 | The host appending blocks for a running request keeps the invariant |
| SchedulerSteps.AdmitKeeps | tests/test_stateful.py:427-450 | The host admitting a request over prefix hits keeps the invariant |
| SchedulerSteps.RollbackKeeps | src/vllm_ascend_kvcompress/stateful.py:501-503 | The host taking back rejected drafts keeps the invariant |
| SchedulerSteps.CacheBlocksKeeps | src/vllm_ascend_kvcompress/stateful.py:396-412 | Registering full blocks of an uncompressed request keeps compressed tables unhashed |
| KVSteps.RollbackKeepsViews | src/vllm_ascend_kvcompress/provider.py:687-705 | Taking back rejected drafts cuts the request's view from its end, and what is left is still stored |
| ProtocolTheorems.RecompressionGrows | src/vllm_ascend_kvcompress/stateful.py:344-346 | A commit makes the removed tokens positive and larger than before, and the new table is exactly as long as the budget |
| SchedulerState.BlockPool.GetNewBlocks | tests/test_stateful.py:127-132 | The pool contract: distinct unreferenced blocks, referenced once, stripped of their hashes |
| SchedulerState.BlockPool.FreeBlocks | tests/test_stateful.py:140-144 | The pool contract: one reference back per block; a block freed beyond its references marks the pool for good |
| SchedulerState.SchedulerCompressionState.DiscardPending | src/vllm_ascend_kvcompress/stateful.py:385-394 | The dictionaries end as the model's discard of the old state; from an invariant state the reservation is given back once |
| SchedulerState.SchedulerCompressionState.CommitOne | src/vllm_ascend_kvcompress/stateful.py:309-360 | One commit iteration ends as the model's commit; it fails exactly when the source table changed |
| SchedulerState.SchedulerCompressionState.CommitPending | src/vllm_ascend_kvcompress/stateful.py:301-360 | The commit loop, over the pending dictionary in any order, folds the model's commit; a changed source table stops it, and an invariant state has none and stays one |
| SchedulerState.SchedulerCompressionState.AgeReleases | src/vllm_ascend_kvcompress/stateful.py:373-379 | The counting loop keeps the releases still waiting and frees the others' blocks |
| SchedulerState.SchedulerCompressionState.DrainDeferredReleases | src/vllm_ascend_kvcompress/stateful.py:370-383 | The drain loop folds the model's drain over all requests in any order and keeps the invariant |
| SchedulerState.SchedulerCompressionState.BeforeSchedule | src/vllm_ascend_kvcompress/stateful.py:282-290 | The hook before scheduling is the model's, with any iteration order of its snapshots |
| SchedulerState.SchedulerCompressionState.AfterOutput | src/vllm_ascend_kvcompress/stateful.py:292-299 | The hook after an output is the model's: acknowledge, then in asynchronous mode drain and commit with the deferral |
| SchedulerState.SchedulerCompressionState.AcknowledgePlans | src/vllm_ascend_kvcompress/stateful.py:362-368 | Exactly the pending compressions whose plan is the acknowledged one become ready; the others keep their state |
| SchedulerState.SchedulerCompressionState.ArmOne | src/vllm_ascend_kvcompress/stateful.py:501-561 | One arming iteration, guard by guard, is the model's: plan, reservation, freezing, or the error |
| SchedulerState.SchedulerCompressionState.ArmScheduled | src/vllm_ascend_kvcompress/stateful.py:501-561 | The arming loop folds the model's arming with whatever the pool hands out, returns its plans, and stops at the first error |
| SchedulerState.SchedulerCompressionState.AfterSchedule | src/vllm_ascend_kvcompress/stateful.py:489-561 | The hook after scheduling resets what left the batch and then arms |
| SchedulerState.SchedulerCompressionState.FreeRequest | src/vllm_ascend_kvcompress/stateful.py:628-640 | The free wrapper gives back reservation, deferred releases and table and thaws the request, exactly as the model does; from an invariant state nothing is freed beyond its references |
| SchedulerState.SchedulerCompressionState.CacheBlocks | src/vllm_ascend_kvcompress/stateful.py:407-410 | The hash hook refuses compressed requests |
| WorkerState.Provider.BeforeUpdateStates | src/vllm_ascend_kvcompress/provider.py:321-371 | The worker's switching loop, in any order, ends as the model's state update |
| WorkerState.Provider.AfterUpdateStates | src/vllm_ascend_kvcompress/provider.py:461-469 | Unknown requests are forgotten, and both offset buffers are current again |
| WorkerState.Provider.CompressRequest | src/vllm_ascend_kvcompress/provider.py:476-601 | One compression iteration, guard by guard and check by check, is the model's |
| WorkerState.Provider.CompressScheduledRequests | src/vllm_ascend_kvcompress/provider.py:471-601 | The compression loop is the model's, and fails exactly when the model does |
| WorkerState.Provider.SyncRequestOffsetRows | src/vllm_ascend_kvcompress/provider.py:981-1010 | After every synchronisation, also through the snapshot shortcut and for a shrunken batch, both buffers equal the removed tokens of the current rows and zero beyond |
| WorkerState.Provider.PhysicalPositionsForSlotMapping | src/vllm_ascend_kvcompress/provider.py:687-705 | Every position loses its own request's offset, also on the path that returns the positions untouched |
| WorkerState.Provider.ApplyPhysicalAttentionLengths | src/vllm_ascend_kvcompress/provider.py:707-728 | However often it is called in a step, the lengths are the semantic ones minus the offsets, once, and the semantic copies survive |
| WorkerState.Provider.SemanticGdnMetadata | src/vllm_ascend_kvcompress/provider.py:730-745 | The recurrent layers get the semantic lengths, on the device and on the host side, before and after the switch |
| GroupLengths.CountBlocks | src/vllm_ascend_kvcompress/stateful.py:702-764 | The answers of all groups are summed, each to the question for its own lengths, physical for the attention group of a compressed request and semantic elsewhere |
| GroupLengths.AllocateNewBlocks | src/vllm_ascend_kvcompress/stateful.py:766-794 | Each group is told its own lengths, of all tokens and of the main model's, physical for attention and semantic elsewhere; where it adds what it lacks it ends with the fewest blocks that cover its length |
| GroupLengths.PhysicalLoses | src/vllm_ascend_kvcompress/stateful.py:828-829 | In physical tokens every length loses what compression removed, and none falls below zero |
| GroupLengths.CountSplits | src/vllm_ascend_kvcompress/stateful.py:720-764 | The groups' answers add up, however the groups are split |
| GroupLengths.CountOfOne | src/vllm_ascend_kvcompress/stateful.py:720-764 | A single group counts with its own answer |
| GroupLengths.RetentionEndsPrefill | src/vllm_ascend_kvcompress/stateful.py:727-728 | Where states are retained an uncompressed request counts as if its prefill had ended, and a compressed one as anywhere else |
| GroupLengths.OnlyAttentionSaves | src/vllm_ascend_kvcompress/stateful.py:732-764 | A compressed request changes the attention group's answer and no other, by exactly that group's difference, and only ever saves where the host's answer is monotone |
| GroupLengths.CompressionSaves | src/vllm_ascend_kvcompress/stateful.py:732-764 | Where the attention group asks for what it lacks, a compressed request never asks for more than uncompressed, and for less by exactly that group's lesser lack |
| GroupLengths.HitCap | src/vllm_ascend_kvcompress/stateful.py:177-191 | Exactly the requests that may be compressed are capped, at the largest number of hits that leaves one token and the query suffix to compute |
| LayerMetadata.LayerSees | src/vllm_ascend_kvcompress/provider.py:815-851 | The expected metadata of a layer: native slots of semantic positions minus that layer's offsets, and semantic lengths minus them |
| LayerMetadata.LayerKeeps | src/vllm_ascend_kvcompress/provider.py:815-851 | A layer sees each compressed row as if it had begun with what that layer kept, its own count where it has one and the common one elsewhere, and other rows untouched |
| LayerMetadata.PerLayerProvider.SpecialiseLayer | src/vllm_ascend_kvcompress/provider.py:815-889 | One layer gets the expected metadata through its own buffer, padded with -1, on both sides of the equal-offset shortcut |
| LayerMetadata.PerLayerProvider.SpecialiseLayers | src/vllm_ascend_kvcompress/provider.py:815-889 | The layer loop gives every layer its expected metadata in any layer order, and succeeds exactly when each layer has metadata and a buffer |
| LayerMetadata.PerLayerProvider.PerLayerAttentionMetadata | src/vllm_ascend_kvcompress/provider.py:807-891 | It succeeds exactly when each layer has metadata and a buffer that fits or may be made; then each layer has its expected metadata in its own buffer, with -1 past the batch; and the batch's part of the shared slot buffer holds what it held before, also on failure |
| Quotas.QuotaBounds | src/vllm_ascend_kvcompress/methods/triattention/selection.py:172-182 | Each segment keeps between none and all of its tokens, and evicts within one of its proportional share |
| Quotas.QuotasExact | src/vllm_ascend_kvcompress/methods/triattention/selection.py:162-170 | The quotas and both windows add up to the budget exactly |
| Quotas.QuotasTelescope | src/vllm_ascend_kvcompress/methods/triattention/selection.py:173-180 | The quotas of the first segments are their tokens minus the evictions owed so far |
| Quotas.SegmentsEven | src/vllm_ascend_kvcompress/methods/triattention/selection.py:172-178 | The segments cover the middle and differ in width from an even share by less than one |
| Quotas.EqualWidthQuotas | src/vllm_ascend_kvcompress/methods/triattention/selection.py:39-44 | Segments of equal width have quotas that differ by at most one |
| V3Policy.SelectionGood | src/vllm_ascend_kvcompress/methods/triattention/selection.py:191-196 | For every accepted input the V3 answer is strictly increasing, exactly the budget long, in range, and contains both windows at its ends |
| V3Policy.SelectionTop | src/vllm_ascend_kvcompress/methods/triattention/selection.py:186-189 | Inside a segment nothing evicted scores above anything kept |
| V3Policy.SelectionAt | src/vllm_ascend_kvcompress/methods/triattention/selection.py:57-60 | Entry r of a segment lands after the prefix and the quotas of the earlier segments |
| V3Policy.GlobalGood | src/vllm_ascend_kvcompress/methods/triattention/selection.py:143-147 | With room for every infinite score the global answer meets the same contract |
| V3Policy.GlobalKeepsBest | src/vllm_ascend_kvcompress/methods/triattention/selection.py:143-147 | Under the global policy no unprotected token that is evicted has a higher score than an unprotected one that is kept |
| V3Policy.GlobalProtectsExactly | src/vllm_ascend_kvcompress/methods/triattention/selection.py:143-147 | The global policy keeps every protected token under all tie-breaking orders if and only if none is protected or the budget has room for the protected tokens and all unprotected ones scored positive infinity |
| V3Policy.SanitisedHasNoRivals | src/vllm_ascend_kvcompress/methods/triattention/method.py:465-467 | Sanitised scores leave no unprotected token at positive infinity |
| Selectors.RawScoresDecide | src/vllm_ascend_kvcompress/methods/triattention/method.py:465-475 | Under either policy, what is kept and what is evicted compare by the raw scores the method computed |
| Selection.TopK | src/vllm_ascend_kvcompress/methods/triattention/selection.py:186-188 | Top-k on a slice keeps the best under a total order that refines the scores; only the sorted form promises an order |
| Selection.SelectV3 | src/vllm_ascend_kvcompress/methods/triattention/selection.py:162-196 | The mask loop returns the V3 answer, and neither internal error can occur |
| Selection.PlanFacts | src/vllm_ascend_kvcompress/methods/triattention/selection.py:34-63 | Whenever the batched plan exists its widths, quotas, ranks and offsets are the loop's, and unsorted top-k is used only when all quotas are equal |
| Selection.PlanExists | src/vllm_ascend_kvcompress/methods/triattention/selection.py:34-63 | The batched plan exists exactly for a nonempty middle in equal segments that all keep something |
| Selection.PaddedRow | src/vllm_ascend_kvcompress/methods/triattention/selection.py:91-93 | Padding a row with the segment width and sorting puts the kept tokens first, ascending |
| Selection.Scatter | src/vllm_ascend_kvcompress/methods/triattention/selection.py:94-96 | Scattering in any order, with all padded ranks colliding on slot zero, gives every other slot its value |
| Selection.SelectV3Batched | src/vllm_ascend_kvcompress/methods/triattention/selection.py:66-105 | The batched path applies exactly to a nonempty middle in equal segments that all keep something, and then returns the loop's list |
| Selection.SelectKeepIndices | src/vllm_ascend_kvcompress/methods/triattention/selection.py:108-196 | Each input is rejected with its own error, under that error's exact condition, or answered with its policy's list, with or without the accelerator path |
| Paging.TwoLevel | src/vllm_ascend_kvcompress/provider.py:1273-1287 | The slot through the expanded kernel-block list equals the slot with the logical page size, for every id list, factor and token |
| Paging.SlotInjective | src/vllm_ascend_kvcompress/methods/triattention/cache.py:9-15 | Distinct pages give distinct tokens distinct slots |
| Paging.ExpandDistinct | src/vllm_ascend_kvcompress/provider.py:1273-1287 | Expanding distinct pages gives distinct kernel blocks |
| Paging.SlotsInjectiveExactly | src/vllm_ascend_kvcompress/methods/triattention/cache.py:9-15 | All tokens of a table have different slots if and only if its pages are distinct |
| PagedCache.SlotsInRange | src/vllm_ascend_kvcompress/methods/triattention/cache.py:9-15 | A table whose blocks exist in the cache gives slots that exist in it |
| PagedCache.Cache.GatherSlots | src/vllm_ascend_kvcompress/methods/triattention/cache.py:18-33 | The flat and the padded branch read the same slots |
| PagedCache.Cache.WriteSlots | src/vllm_ascend_kvcompress/methods/triattention/cache.py:36-45 | The flat and the padded branch write the same slots; distinct slots get their own values, and nothing else in storage changes |
| PagedCache.MaterializeTokenSlots | src/vllm_ascend_kvcompress/methods/triattention/cache.py:100-112 | Each destination slot of both caches ends with what its source slot held before, even where they overlap, and every other slot is unchanged |
| PagedCache.MaterializeSelectedTokens | src/vllm_ascend_kvcompress/methods/triattention/cache.py:79-97 | The same for selected tokens of a source table moved densely into a destination table |
| Compaction.MoveRefines | src/vllm_ascend_kvcompress/methods/triattention/method.py:271-288 | Moving kernel-block slots is materialising the protocol model's memory |
| Compaction.CompressLayers | src/vllm_ascend_kvcompress/methods/triattention/method.py:280-288 | Every layer's K and V cache ends as the model's copy of what it held |
| Scoring.PhasesMatch | src/vllm_ascend_kvcompress/methods/triattention/kernels.py:70-82 | Rotating the precomputed offset means by the round's angle gives the reference's mean phases, for any offsets, from the angle-addition laws |
| ScoringKernel.KeysAgree | src/vllm_ascend_kvcompress/methods/triattention/kernels.py:191-215 | Block-table addressing and the reference's gather read the same key elements, padded or not |
| ScoringKernel.CoefficientsMatch | src/vllm_ascend_kvcompress/methods/triattention/method.py:162-177 | The coefficients stored when the runner is bound are the reference's scale, magnitude coefficient and mean phases |
| ScoringKernel.BindLayer | src/vllm_ascend_kvcompress/methods/triattention/method.py:162-177 | Binding stores the scale, the magnitude coefficient and the mean offset phases of the reference |
| ScoringKernel.PrepareRound | src/vllm_ascend_kvcompress/methods/triattention/kernels.py:50-82 | What binding stored, with the phase kernel's output, is all the scoring kernel assumes |
| ScoringKernel.ScoreLayer | src/vllm_ascend_kvcompress/methods/triattention/method.py:330-376 | Binding, preparing and scoring in sequence give the reference scores with nothing assumed in between |
| ScoringKernel.KernelMatches | src/vllm_ascend_kvcompress/methods/triattention/kernels.py:216-239 | One token's kernel score equals its reference score, whatever the lanes are padded to |
| ScoringKernel.PrepareMeanPhases | src/vllm_ascend_kvcompress/methods/triattention/kernels.py:50-82 | Tiled and masked, the phase kernel fills every entry |
| ScoringKernel.ScorePagedKeysMean | src/vllm_ascend_kvcompress/methods/triattention/kernels.py:125-244 | The tiled kernel stores the reference score of every query head and token and nothing else |
| ScoringKernel.ScoreChunks | src/vllm_ascend_kvcompress/methods/triattention/method.py:405-422 | The chunked path stores the same scores, so that the chunk size is invisible |
| ScoringOffsets.BuildGeometricOffsets | src/vllm_ascend_kvcompress/methods/triattention/scoring.py:11-20 | The offsets are the powers of two up to the maximum, and a maximum below one is rejected |
| ScoringOffsets.ScoreBestOffset | src/vllm_ascend_kvcompress/methods/triattention/scoring.py:84-97 | The max aggregation is reached by some offset and exceeded by none |
| ScoringOffsets.OneOffsetAgrees | src/vllm_ascend_kvcompress/methods/triattention/scoring.py:77-97 | With one offset the two aggregations agree |
| ScoreMeaning.ScoreMeans | src/vllm_ascend_kvcompress/methods/triattention/scoring.py:57-120 | For a mean query and a key given as plane vectors the score is, per frequency, the product of the lengths with the mean cosine of the angle between them over the future offsets, then the length part, then the inner product of the unrotated dimensions, for interleaved and half-split keys |
| ScoreMeaning.OffsetScoreMeans | src/vllm_ascend_kvcompress/methods/triattention/scoring.py:57-120 | The same at a single offset, which the max aggregation compares |
| ScoreMeaning.KeyElement | src/vllm_ascend_kvcompress/methods/triattention/kernels.py:191-215 | The scored key of a token is its row of the cache tensor: page, place in the page, head, dimension |
| ScoreMeaning.HeadsShareKeys | src/vllm_ascend_kvcompress/methods/triattention/kernels.py:191-215 | Query heads share key heads in consecutive groups |
| Collective.LanesMatch | src/vllm_ascend_kvcompress/methods/triattention/kernels.py:379-395 | The fused maximum over padded lanes of reciprocal-root normalised heads is the plain maximum of normalised heads |
| Collective.AggregatedIsBest | src/vllm_ascend_kvcompress/methods/triattention/method.py:312-464 | Under the maximum the aggregated score is reached by some head of some layer on some rank, and exceeded by none |
| Collective.HeadMeans | src/vllm_ascend_kvcompress/methods/triattention/scoring.py:123-128 | A normalised head score is the distance to the head's mean in standard deviations, with variances below one millionth raised to it |
| Collective.MeanMovesByShare | src/vllm_ascend_kvcompress/methods/triattention/method.py:312-464 | Under the mean, moving one layer's score moves the aggregated score by that layer's share |
| Collective.MeanOfEqual | src/vllm_ascend_kvcompress/methods/triattention/method.py:312-464 | Under the mean, layers that agree on a score aggregate to it |
| Collective.StoredAt | src/vllm_ascend_kvcompress/methods/triattention/method.py:451-457 | An element of the one flattened collective is its own layer's collective |
| Collective.AllReduceMax | src/vllm_ascend_kvcompress/methods/triattention/method.py:453-457 | Every rank ends with the maximum over ranks |
| Collective.AggregateStored | src/vllm_ascend_kvcompress/methods/triattention/method.py:312-464 | Storing layers, one collective, then reducing gives every rank the aggregated score |
| Collective.AggregatePerLayer | src/vllm_ascend_kvcompress/methods/triattention/method.py:477-503 | A collective per layer with accumulation gives every rank the same aggregated score |
| Collective.AggregateAlone | src/vllm_ascend_kvcompress/methods/triattention/method.py:340-464 | One rank without collectives gets the same aggregated score |
| SpecConv.CausalConv1dSpec | src/vllm_ascend_kvcompress/qwen_gdn_ops.py:33-109 | The call succeeds exactly when the state is wide enough, the bounds agree and every active row is valid, and then output and states are the fold of its rows; skipped rows keep input and state |
| SpecConv.ConvolveRow | src/vllm_ascend_kvcompress/qwen_gdn_ops.py:97-108 | One row responds to its prior window and tokens, and rolls its state past all drafts |
| SpecConv.ImpulsePicks | src/vllm_ascend_kvcompress/qwen_gdn_ops.py:101-103 | A kernel that is one at a single tap answers with that tap's token, so taps and tokens are matched in order |
| SpecConv.TapsAddUp | src/vllm_ascend_kvcompress/qwen_gdn_ops.py:101-103 | The response is additive in the kernel, so that single taps determine it |
| SpecConv.WidthOneEdge | src/vllm_ascend_kvcompress/qwen_gdn_ops.py:86-108 | The span check misses a failing copy exactly when the kernel has one tap, the state has columns and the span is one longer than they are |
| SpecConv.OneTapFails | src/vllm_ascend_kvcompress/qwen_gdn_ops.py:86-108 | One tap, one column and two tokens pass the span check and fail in the copy |
| SpecConv.RowGoesThroughExactly | src/vllm_ascend_kvcompress/qwen_gdn_ops.py:86-108 | A row goes through exactly when its slot exists, its span holds tokens of the input, the window is inside the state, and the span fits what the state can hold |
| ConvMeaning.OutputMeans | src/vllm_ascend_kvcompress/qwen_gdn_ops.py:97-106 | In a whole call every output feature is the activation of that feature's own kernel against its own values in the joined tokens, plus its own bias |
| ConvMeaning.ImpulseOutput | src/vllm_ascend_kvcompress/qwen_gdn_ops.py:97-106 | A kernel that is one at one tap of one feature lets that feature of the token at that tap through, and leaves every other feature its bias |
| ConvMeaning.KernelsAddUp | src/vllm_ascend_kvcompress/qwen_gdn_ops.py:97-106 | Before bias and activation the outputs are additive in the kernels |
| ConvMeaning.CausalMeans | src/vllm_ascend_kvcompress/qwen_gdn_ops.py:97-106 | The plain causal convolution is the same formula on the stream's latest tokens |
| SpecRollback.RollbackStep | src/vllm_ascend_kvcompress/qwen_gdn_ops.py:98-108 | Re-entering at the accepted offset reads only what was written, and reads the last accepted tokens |
| SpecRollback.WindowIsAcceptedTail | src/vllm_ascend_kvcompress/qwen_gdn_ops.py:86-108 | Before every batch the prior window is the tail of the accepted stream |
| SpecRollback.OutputsAreCausal | src/vllm_ascend_kvcompress/qwen_gdn_ops.py:98-106 | Every output is the causal convolution over the accepted stream and the drafts before it |
| SpecRollback.SpeculationInvisible | src/vllm_ascend_kvcompress/qwen_gdn_ops.py:82-109 | Every accepted token's output is the plain causal convolution over the final accepted stream |
| SpecRollback.RowsIndependent | src/vllm_ascend_kvcompress/qwen_gdn_ops.py:82-109 | With distinct cache slots each row uses and leaves its own slot's state, and other slots are untouched |
| SpecRollback.RowOutputs | src/vllm_ascend_kvcompress/qwen_gdn_ops.py:82-109 | With ordered spans besides, each row's outputs depend on its own tokens and slot alone |
| SpecCalls.PackedSpans | src/vllm_ascend_kvcompress/qwen_gdn_ops.py:69-85 | Row boundaries in order give rows with spans of their own, in order |
| SpecCalls.AcceptedGoesThrough | src/vllm_ascend_kvcompress/qwen_gdn_ops.py:69-96 | A packed call that the convolution accepts is one that the theorems about many calls cover |
| SpecCalls.HistorySound | src/vllm_ascend_kvcompress/qwen_gdn_ops.py:82-109 | Over any number of calls, each with any rows, a slot's state holds for every possible accepted count the tail of the stream that count would make |
| SpecCalls.RowsAreCausal | src/vllm_ascend_kvcompress/qwen_gdn_ops.py:82-109 | In every one of any number of calls each row's outputs are the causal convolution over its own accepted stream and the drafts before it |
| SpecCalls.SpeculationInvisibleInCalls | src/vllm_ascend_kvcompress/qwen_gdn_ops.py:82-109 | Over any number of calls with distinct cache slots every accepted token's output is the plain causal convolution over its own sequence's accepted stream |
| PackedSegments.Segments | src/vllm_ascend_kvcompress/qwen_gdn_ops.py:235-274 | Which packings are accepted, the exact condition of each error, and the segments of each accepted packing |
| PackedSegments.TokensCoveredOnce | src/vllm_ascend_kvcompress/qwen_gdn_ops.py:253-257 | Every token lies in exactly one segment |
| PackedSegments.ChunksEnumeratedOnce | src/vllm_ascend_kvcompress/qwen_gdn_ops.py:253-257 | The (segment, chunk) pairs are exactly the state chunks below the total, each once |
| PackedSegments.LabelsMean | src/vllm_ascend_kvcompress/qwen_gdn_ops.py:264-273 | The accepted labelling gives each chunk the dense label of its segment and its place in it |
| PackedSegments.DenseCounts | src/vllm_ascend_kvcompress/qwen_gdn_ops.py:264-273 | The dense label of a segment is the number of segments before it that hold tokens |
| PackedSegments.StateReadsInRange | src/vllm_ascend_kvcompress/qwen_gdn_ops.py:305-310 | The validated bound keeps every state read of every launch in range |
| PackedSegments.PackedNeeds | src/vllm_ascend_kvcompress/qwen_gdn_ops.py:305-310 | On packed input that bound is the exact number of chunks |
| PackedSegments.WalkSegments | src/vllm_ascend_kvcompress/qwen_gdn_ops.py:345-376 | Launch by launch, chunk by chunk and row by row, every output element is stored exactly once |
| PackedSegments.PackedWalks | src/vllm_ascend_kvcompress/qwen_gdn_ops.py:345-376 | Accepted packed input satisfies what the walk needs |
| PackedSegments.BatchWalks | src/vllm_ascend_kvcompress/qwen_gdn_ops.py:242-245 | So does the unpacked form |

## Left out

- Host prefix lookup: which hashed blocks a request hits is the host's choice; the model only requires that a hit block was hashed for exactly that token prefix before the pass began, and that full blocks of scheduled requests are registered at the end of the pass.
- Blocks hashed and hit within one and the same pass are not modelled.
- Free order: the pool is a reference count, so the reversed order in which blocks are returned, and eviction order, are not captured.
- Companion state-space cache groups take part in the length hooks (`GroupLengths`) but not in the whole-run model, whose tables are those of the attention group.
- Speculative decoding in the whole-run model: the host may take back rejected drafts between steps; batches of the request that are already queued keep the positions they were issued with, and until a draft is taken back its cell is named like the token that will stand at its position.
- Per-layer physical lengths occur in `LayerMetadata`; the whole-run model uses one length per request, which is what the built-in method returns.
- LayerMetadata.PerLayerProvider.PerLayerAttentionMetadata: covers the live batch; the branch that builds synthetic batches for graph capture, and the common metadata of the speculative layer, are not modelled.
- LayerMetadata.BlockTable.ComputeSlotMapping: promises nothing about slots past the batch, which is all the source restores; what the host keeps there is the host's.
- GroupLengths.CountBlocks: the calls that go straight to the host (no compression state, or an uncompressed request whose groups all know the prefill end) are the host's own; the translation of skipped-block removal is the same length translation and is left out.
- SchedulerState.SchedulerCompressionState.BeforeSchedule: the invariant is concluded from the state after the resets, because resetting a request that still has a compressed table would not keep it; in runs the reset requests have no table.
- SpecConv.CausalConv1dSpec: shapes that disagree with each other, the transposed weight and state layouts, and the two-dimensional cache index table are resolved before the modelled call; the activation is any real function.
- Collective.AllReduceMax: the transport is not modelled, only its result.
- Scoring.PhasesMatch: real arithmetic; rounding, dtype casts and the accelerator's own cosine and sine are not captured, and square root is uninterpreted.
- Selection.TopK: scores are a sanitised order of reals and infinities; NaN appears only as the lowest score that sanitising gives it.
- Worker errors raised halfway through a batch leave the model's state as it was before the failing request; partial writes of a failing copy are not captured.
- Query observation callbacks, calibration files, checkpoints, configuration parsing, import hooks, host compatibility checks and benchmark scripts: plumbing or I/O around the modelled core; configuration checks appear as the model's configuration preconditions.
- The numeric body of the recurrent output kernel beyond its segment, chunk and row walk.
- Liveness: `ProtocolTheorems.NobodyStranded` says what holds when the queue is empty; that the host keeps calling is an assumption the model does not make.
