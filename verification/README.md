# Verified model of an asynchronous reinforcement-learning trainer

AReaL trains a language model while other workers generate samples with slightly older weights. This project
models the parts of it in which order, counting and agreement matter, and proves what they guarantee.

**The rollout pipeline** (`Pipeline*.dfy`, with `Staleness`, `Recovery`, `Tasks`). A client thread, a commit
thread, an event loop and a fetch thread share queues, a dictionary, counters and two wake-up mechanisms. They
are a state machine of atomic steps: one queue operation, one counter callback, one read of a shared variable or
one lock section at a time, in any order. Ghost history records what was submitted, committed, judged, harvested,
delivered and lost. Every theorem about it holds for every run. `Dispatcher` and `Runner` hold the same classes
method by method, with their loops and fields.

**Generation** (`Generation`, `Routing`). The loop that resumes an aborted generation, with the server as an
arbitrary function, and the request cache with its round-robin chooser.

**Weight updates** (`Bucketing`, `WeightUpdate`, `GroupRanks`, `Decimal`). Cutting the parameters into buckets,
broadcasting one bucket while the next is gathered, and the ranks and sizes of the process groups.

**Allocations** (`Strategy`, `Hybrid`, `AllocationText`). Sizes of hybrid mixture-of-experts strategies, and
printing and parsing a specification.

**Traces** (`TraceOrder`, `TraceRemap`). Renumbering processes, threads and flows of a merged trace.

Code that updates state is a class or an in-place method proved against a function; the theorems are about these
functions and about whole runs.

## Where the code does less than its documentation says

* `get_capacity` promises (areal/infra/staleness_manager.py:96-97) that samples never exceed the maximum
  staleness when they are consumed. The formula bounds how much is committed, and samples get older for two
  reasons. A slow sample can be overtaken. And the trainer can enter a version before it has consumed that many
  full consumer batches: rejections use up a dynamic batch, and nothing stops a static batch from being smaller
  than the consumer batch. `PipelineOffPolicy.OffPolicyBound` says by how much staleness can grow, for every
  run: one version for every started batch of overtaking or missing samples.
  `PipelineStragglers.TheBoundIsSharp` reaches that bound with overtakers alone, for every number of them, every
  batch size and every positive maximum staleness; `PipelineScenarios.AShortBatchIsTooOld` reaches it with one
  missing sample and nobody overtaking. Without slack and on time nothing is ever stale
  (`PipelineNoSlack.NeverStaleWithoutSlack`).
* `AsyncTaskRunner.wait` forgets what it had collected when it times out. Delivery is exactly once if and only if
  no fetch times out with results in hand (`PipelineDelivery.AlwaysExactlyOnce`).
* A lost result still counts as accepted. A trainer that waits for a batch can therefore wait forever
  (`PipelineScenarios.ALostResultStrandsTheTrainer`, `PipelineProgress.StuckForGood`). Collection moves on if and
  only if the accepted results, with the lost ones, are fewer than the sample limit
  (`PipelineProgress.BatchCollectionMovesOn`); `PipelineProgress.LossTolerance` says how many may be lost.
* Raising the version notifies nobody. The commit thread can sleep although its guard holds
  (`PipelineScenarios.RaisingTheVersionAloneStrandsTheProducer`); it cannot when versions are raised between
  `pause()` and `resume()`, as the trainers do (`PipelineWakeups.ProducerWakeupUnderProtocol`), and lost results
  never cause it.
* `pause()` promises that no new task is started (areal/infra/async_task_runner.py:628-635). A queued task is
  started all the same if and only if the event loop has already passed its test
  (`PipelinePause.PausedStartExactly`; `PipelineScenarios.ATaskStartsAfterPause` is such a run), and then only
  that one (`PipelinePause.PauseStopsStarts`). Likewise the commit thread enqueues at most one more
  (`PipelinePause.PauseStopsCommits`).
* A task is submitted before it is counted, so `running` can read -1 (`PipelineScenarios.RunningCanReadMinusOne`).
* The FSDP update tests bytes, not tensors, before it sends the rest: it forgets empty tensors after an oversized
  one, or a model of empty tensors only (`Bucketing.CompleteUnlessTailForgotten` gives the exact condition). The
  Megatron update forgets nothing.
* The vLLM backend sizes every group for all pipeline stages while the trainers create one group per stage: they
  agree if and only if there is one stage (`GroupRanks.FsdpAgreesWithVllm`). The Ray and Slurm launchers refuse
  pipelined vLLM and SGLang servers (areal/infra/utils/launcher.py:262-274), so several stages are reached only
  where that check is not made, such as from the local launcher.
* `edp_size` ignores the expert layout unless experts are distributed (`Hybrid.ReportedReplicas`).
* A named allocation prints its name in parentheses, which the grammar does not accept, and printing drops the
  expert tensor size (`AllocationText.PrintThenParse` gives the exact condition).

## Model

| member | source | states |
|---|---|---|
| `Staleness.StalenessManager.GetCapacity` | areal/infra/staleness_manager.py:99-113 | computes the capacity formula that the pipeline uses; concurrency and batch size are at least 1 |
| `Recovery.RecoveryIsAShift` | areal/infra/staleness_manager.py:79-166 | after any operations a manager recovered at version v reports the capacity of a fresh one run at versions lowered by v |
| `Recovery.RecoveredBurst` | areal/infra/staleness_manager.py:115-131 | the first burst after a recovery is that of a fresh start; without the callback it would grow with the version |
| `PipelineWakeups.ProducerWakeup` | areal/infra/workflow_executor.py:376-386 | in every reachable state in which the commit thread sleeps (in either wait) or has decided to although its guard holds, a result is in flight, the client is about to notify, or the version was raised since the last notify; whatever fetches timed out |
| `PipelineWakeups.FetchIsCovered` | areal/infra/workflow_executor.py:402-412 | a fetch never asks for more results than it holds or finds queued, unless it asks for one; so a partial timeout leaves results behind |
| `PipelineWakeups.ProducerWakeupUnderProtocol` | areal/infra/workflow_executor.py:436-449 | if versions are raised between pause and resume, the due notify comes from a result in flight or from the client |
| `PipelineWakeups.RunnerWakeup` | areal/infra/async_task_runner.py:457-473 | the loop never blocks on its event with input queued unless a set is scheduled or about to be |
| `PipelineRunner.ActiveIdsAreSound` | areal/infra/async_task_runner.py:369-380 | until the loop exits, queued and running ids are pairwise distinct and all active, for any submitted ids |
| `PipelineRunner.NoDuplicateWhileDraining` | areal/infra/async_task_runner.py:428-436 | the duplicate check while draining never fires |
| `PipelineCapacity.CapacityInvariant` | areal/infra/workflow_executor.py:359-375 | over all interleavings: committed minus rejected within the staleness limit, workflows in flight within the concurrency limit, running between -1 and that limit, enqueued equal to pending plus the popped task |
| `PipelineCapacity.CountersHold` | areal/infra/staleness_manager.py:133-166 | the counters equal the ghost counts of workflows in flight, commits and pending inputs, up to one uncounted submission |
| `PipelineCapacity.LimitsHold` | areal/infra/staleness_manager.py:99-113 | every granted commit still fits under the sample limit of the version at which it was granted |
| `PipelineDelivery.SubmissionOrder` | areal/infra/workflow_executor.py:376-386 | tasks enter the runner in submission order, across every put-back after a full queue |
| `PipelineDelivery.CommittedIsAccounted` | areal/infra/async_task_runner.py:417-455 | what was committed is exactly what is queued, running or harvested |
| `PipelineDelivery.HarvestIsAccounted` | areal/infra/workflow_executor.py:395-425 | with fresh ids, what was harvested is exactly what waits somewhere, was delivered, or was lost |
| `PipelineDelivery.ExactlyOnce` | areal/infra/workflow_executor.py:359-425 | with fresh ids every submitted task is in exactly one of nine places unless a timed-out fetch discarded it, and nothing else is anywhere |
| `PipelineDelivery.LostExactlyByTimeouts` | areal/infra/async_task_runner.py:602-622 | results are lost if and only if some fetch timed out with results in hand |
| `PipelineDelivery.AlwaysExactlyOnce` | areal/infra/async_task_runner.py:602-622 | delivery is exactly once for every task if and only if no fetch timed out with results in hand |
| `PipelineOffPolicy.OffPolicyBound` | areal/infra/staleness_manager.py:92-113 | for every run: a sample is consumed at most max_staleness versions after its commit, plus one for every started batch of samples that overtook it or are missing for as many full batches as the version counts |
| `PipelineOffPolicy.OffPolicyBoundOnTime` | areal/infra/staleness_manager.py:92-113 | when that many full batches were consumed before, only overtakers add to max_staleness |
| `PipelineOffPolicy.OffPolicyBoundInOrder` | areal/infra/staleness_manager.py:92-113 | for samples consumed in commit order only missing ones add to max_staleness; with none missing it is the bound |
| `PipelineOffPolicy.AcceptedBefore` | areal/infra/staleness_manager.py:105-109 | at least n minus the overtakers of the n-th consumed sample are accepted and committed before it |
| `PipelineOffPolicy.VerdictsHold` | areal/infra/workflow_executor.py:1111-1138 | rows and results repeat the verdicts, rejections are counted, and every commit fitted under the limit of its version |
| `PipelineProgress.AcceptedIsAccounted` | areal/infra/staleness_manager.py:150-157 | the accepted counter is the recovered count plus the accepted results in the table and harvested |
| `PipelineProgress.QuietCapacity` | areal/infra/staleness_manager.py:99-113 | with nothing in flight there is capacity if and only if the recovered, delivered, stored and lost accepted results are fewer than the sample limit |
| `PipelineProgress.LossTolerance` | areal/infra/async_task_runner.py:610-622 | an incomplete batch can be continued as long as no more than (max_staleness + 1) * batch - batch_size accepted results were lost, plus those that earlier batches fell short of the version, and cannot beyond that when all but one are there |
| `PipelineProgress.CommitThreadSurvives` | areal/infra/workflow_executor.py:370-375 | with fresh ids the commit thread never stops for a duplicate |
| `PipelineProgress.TakesTheFirstInput` | areal/infra/workflow_executor.py:436-449 | an awake commit thread whose guards hold, so that it is not paused, takes the first input on its own within eight steps |
| `PipelineProgress.BatchCollectionMovesOn` | areal/infra/workflow_executor.py:674-731 | deadlock freedom, exactly: for a trainer that follows the protocol and waits with nothing in flight, a pass enqueues an input if none is pending, and otherwise the commit thread takes one if and only if the accepted results, with the lost ones, are fewer than the sample limit |
| `PipelineProgress.StuckExactly` | areal/infra/workflow_executor.py:674-731 | with nothing in flight and too few results stored the trainer is stuck if and only if that limit is reached |
| `PipelineProgress.StuckForGood` | areal/infra/workflow_executor.py:572-586 | once stuck it stays stuck, whatever the threads do and however many inputs are enqueued, until the version is raised |
| `PipelinePause.PausedExactly` | areal/infra/workflow_executor.py:490-509 | in every run the pipeline is paused exactly from a pause() to the next resume() |
| `PipelinePause.PauseStopsCommits` | areal/infra/workflow_executor.py:441-447 | until resume() a paused pipeline enqueues at most one task, and none if the commit thread has not passed the test of paused; a thread that waits for room stays there |
| `PipelinePause.PauseStopsStarts` | areal/infra/async_task_runner.py:326-336 | until resume() the event loop starts at most the one task that it is about to take |
| `PipelinePause.PausedStartExactly` | areal/infra/async_task_runner.py:417-425 | a task queued at a pause is started before resume() if and only if the loop is past the test of paused |
| `PipelinePause.RestingLoopHarvestsNothing` | areal/infra/async_task_runner.py:326-329 | a loop that has seen the pause starts nothing and harvests nothing until resume() |
| `PipelinePause.PausedLoopComesToRest` | areal/infra/async_task_runner.py:326-380 | a paused loop comes to rest within 2 * rows + 5 steps of its own, unless it stops for a full output queue or waits for a wake-up |
| `PipelinePause.PausedCommitThreadSleeps` | areal/infra/workflow_executor.py:436-449 | a paused commit thread sleeps after at most nine steps of its own, unless it has stopped for a duplicate id |
| `PipelineOrder.CreationFollowsCommits` | areal/infra/async_task_runner.py:442-449 | with fresh ids tasks are taken in the order of commits, and their creation times follow that order |
| `PipelineOrder.WaitHandsOutTheEarliest` | areal/infra/workflow_executor.py:588-596 | a wait delivers as many of the stored results as it asked for, and none ahead of a stored one that was committed earlier, unless both were started at the same clock reading |
| `PipelineOrder.WaitForTaskDelivers` | areal/infra/workflow_executor.py:613-632 | waiting for a task delivers the stored result of that task |
| `PipelineOrder.RegisteredExactly` | areal/infra/workflow_executor.py:536-544 | with fresh ids the dispatcher knows exactly the tasks submitted and not delivered, up to the one being submitted |
| `PipelineScenarios.ATaskStartsAfterPause` | areal/infra/async_task_runner.py:628-635 | a reachable state after pause() has returned from which the queued task is started without a resume() |
| `PipelineScenarios.RunningCanReadMinusOne` | areal/infra/workflow_executor.py:372-373 | a reachable state in which the running counter is -1 |
| `PipelineScenarios.ATimeoutLosesAResult` | areal/infra/async_task_runner.py:610-622 | a reachable state in which a submitted task is nowhere |
| `PipelineScenarios.ALostResultStrandsTheTrainer` | areal/infra/async_task_runner.py:610-622 | a reachable state in which the trainer waits forever because a lost result still counts as accepted |
| `PipelineScenarios.RaisingTheVersionAloneStrandsTheProducer` | areal/infra/workflow_executor.py:496-507 | a reachable state of a new run in which the guard holds, the thread sleeps and nothing but a raised version is outstanding |
| `PipelineScenarios.AShortBatchIsTooOld` | areal/infra/workflow_executor.py:707-729 | a run with dynamic batches in which nobody overtakes and a sample is one version older than max_staleness, because a rejection used up a batch |
| `PipelineLiveness.LoopStartsTheFirst` | areal/infra/async_task_runner.py:417-455 | an event loop that is not paused starts the first queued task on its own within 2 * rows + 7 steps once the wake-up for it is scheduled, unless a full output queue stops it |
| `PipelineLiveness.LoopHarvests` | areal/infra/async_task_runner.py:338-380 | it moves every finished row to the output queue on its own within 2 * rows + 2 * queued + 6 steps, unless that queue is full |
| `PipelineLiveness.FetchStores` | areal/infra/workflow_executor.py:402-425 | without timeouts the fetch thread stores every queued result on its own, within a number of steps proportional to the results before it |
| `PipelineStragglers.TheBoundIsSharp` | areal/infra/workflow_executor.py:588-603 | for every batch size, every positive max_staleness and every k a run, on time throughout, in which a sample with k overtakers is as stale as the bound allows; so staleness is unbounded |
| `PipelineNoSlack.NeverStaleWithoutSlack` | areal/infra/staleness_manager.py:92-113 | with a max_staleness of 0 and versions on time every sample is consumed at the version of its commit, whoever overtook it |
| `PipelineNoSlack.AlwaysDated` | areal/infra/workflow_executor.py:359-375 | no commit is newer than the trainer and no sample is delivered at an older version than that of its commit |
| `Dispatcher.BatchTaskDispatcher.SubmitTaskInput` | areal/infra/workflow_executor.py:536-544 | appends the input, counts it and registers its id |
| `Dispatcher.BatchTaskDispatcher.WaitResults` | areal/infra/workflow_executor.py:565-603 | equals the specification of one wait on the stored results and the arrivals; a timeout leaves all stored, a count that is not positive changes nothing |
| `Dispatcher.GathersUntilEnough` | areal/infra/workflow_executor.py:572-586 | a wait looks at the arrivals in order until enough results are stored or the deadline passes, no earlier and no later |
| `Dispatcher.WaitSucceedsExactly` | areal/infra/workflow_executor.py:572-596 | with fresh ids a wait returns the count exactly when what was stored and what arrives are together as many, and nothing otherwise |
| `Dispatcher.WaitTakesOldest` | areal/infra/workflow_executor.py:588-596 | a wait returns as many results as it was asked for or none, and nothing that stays stored is older than anything returned |
| `Dispatcher.WaitingConserves` | areal/infra/workflow_executor.py:588-596 | with fresh ids what one wait returns and puts back are exactly what was stored and what arrived |
| `Dispatcher.CollectingConserves` | areal/infra/workflow_executor.py:674-731 | with fresh ids the results returned by all waits of a batch and those still stored are exactly those stored before and those that arrived |
| `Dispatcher.EveryShareIsOldest` | areal/infra/workflow_executor.py:702-705 | every wait of a batch takes all that is missing or nothing, from the oldest results that have arrived |
| `Dispatcher.BatchTaskDispatcher.SubmitPass` | areal/infra/workflow_executor.py:675-701 | enqueues inputs in order: no more than a batch, within the pending limit, with room in the runner for a batch beside them, and as many as these three allow; raises exactly when they allow one more than the generator has |
| `Dispatcher.PassesAreMaximal` | areal/infra/workflow_executor.py:678-695 | that determines the number of inputs of a pass |
| `Dispatcher.EveryPassIsMaximal` | areal/infra/workflow_executor.py:674-701 | so in every pass of a batch, which never leaves more than (max_staleness + 1) * consumer_batch_size inputs pending |
| `Dispatcher.BatchTaskDispatcher.Absorb` | areal/infra/workflow_executor.py:707-729 | looks at every arrived result, keeps exactly the accepted ones, and says when the batch is full in both modes |
| `Dispatcher.BatchTaskDispatcher.ActiveSubmitAndWait` | areal/infra/workflow_executor.py:670-731 | what is removed is exactly what its waits took from the store, pass by pass, and every pass enqueues as many inputs as the limits allow; the generator is reported as exhausted exactly at the first pass that needs one more; a static batch has exactly batch_size accepted results, a dynamic one uses up exactly batch_size; each error exactly in its case |
| `Dispatcher.AcceptedExactly` | areal/infra/workflow_executor.py:707-720 | what a batch leaves out of the removed results are exactly the rejections |
| `Dispatcher.Shuffle` | areal/infra/workflow_executor.py:601 | the loop of swaps; the result is a permutation |
| `Runner.AsyncTaskRunner.Submit` | areal/infra/async_task_runner.py:525-552 | all or nothing: a duplicate or a full queue leaves the runner unchanged |
| `Runner.AsyncTaskRunner.DrainPendingInputs` | areal/infra/async_task_runner.py:417-455 | starts every queued task in order; the branch for an id that is already in the table is there and its outcome never occurs |
| `Runner.AsyncTaskRunner.Complete` | areal/infra/async_task_runner.py:369-399 | a completed task moves to the output queue and frees its id; with a full queue the row stays and the loop stops |
| `Runner.AsyncTaskRunner.Wait` | areal/infra/async_task_runner.py:602-622 | succeeds exactly when enough polls find something, at the first moment they have, with the next results in queue order; on a timeout one result for each such poll is gone |
| `Runner.EnoughQueued` | areal/infra/async_task_runner.py:602-622 | a queue that holds enough is enough for as many polls |
| `Runner.FoundExactly` | areal/infra/async_task_runner.py:602-622 | enough polls find something if and only if there are as many polls and, after every poll, the results that had come in and the polls that remain are together as many |
| `Generation.RemoteInfEngine.AGenerate` | areal/infra/remote_inf_engine.py:732-884 | validates the budget, routes the request and returns the outcome of the resuming loop, whose tokens all carry the version of their own attempt |
| `Generation.RemoteInfEngine.ServerFor` | areal/infra/remote_inf_engine.py:769-779 | a cached request keeps its server, a new one takes the next in turn and may evict the oldest |
| `Generation.RemoteInfEngine.GenerateLoop` | areal/infra/remote_inf_engine.py:784-884 | the loop over accumulators equals the recursive specification |
| `Generation.TokensCarryTheirVersion` | areal/infra/remote_inf_engine.py:826-859 | whatever the server does: attempt k gets the prompt with all earlier tokens and the budget they left, all attempts but the last are aborted, the output is their tokens and log-probabilities in order, and each token carries the version read after its own attempt |
| `Generation.InterruptionsAreInvisible` | areal/infra/remote_inf_engine.py:784-859 | for a deterministic model the response is that of one uninterrupted run for every abort schedule, and it comes once an attempt is not aborted |
| `Generation.DecodeResumes` | areal/infra/remote_inf_engine.py:845-847 | resuming an unfinished run from its prefix with what is left of the budget gives the rest of it |
| `Generation.ResponseIsWellFormed` | areal/infra/remote_inf_engine.py:854-883 | original prompt, three lists of equal length, nondecreasing versions, output within the budget, never abort |
| `Generation.StopsAborting` | areal/infra/remote_inf_engine.py:787-790 | the loop ends once an attempt is not aborted |
| `Routing.CacheIsTheRecentInsertions` | areal/infra/remote_inf_engine.py:769-779 | after any requests the queue has no duplicates, at most 128 entries, exactly the keys of the map, and is the last 128 insertions with their servers |
| `Routing.StickyUntilEvicted` | areal/infra/remote_inf_engine.py:770-778 | a request keeps its server until 128 others have been inserted after it |
| `Routing.RoundRobin` | areal/infra/remote_inf_engine.py:713-716 | the k-th insertion gets server (start + k) mod n |
| `Routing.RoundRobinIsFair` | areal/infra/remote_inf_engine.py:713-716 | after any requests the numbers of insertions given to two servers differ by at most one, from any start index |
| `Bucketing.MegatronCutsAlike` | areal/engine/megatron_engine.py:1609-1617 | for positive sizes the Megatron loop cuts where the FSDP loop does; for experts with the limit divided among the ranks |
| `Bucketing.CompleteUnlessTailForgotten` | areal/engine/fsdp_engine.py:1553-1588 | the buckets concatenate to the parameters in order if and only if the tail is not forgotten |
| `Bucketing.MegatronIsComplete` | areal/engine/megatron_engine.py:1758-1782 | the Megatron loop forgets nothing, whatever the sizes |
| `Bucketing.FsdpIsGreedy` | areal/engine/fsdp_engine.py:1553-1588 | for positive sizes the loop packs the longest bucket first |
| `Bucketing.GreedyIsOptimal` | areal/engine/fsdp_engine.py:1559-1563 | no in-order split that obeys the limit uses fewer buckets than greedy packing |
| `Bucketing.FsdpBucketsAreOptimal` | areal/engine/fsdp_engine.py:1553-1588 | for positive sizes: complete, within the limit or one oversized tensor, and as few buckets as any such split |
| `Bucketing.MegatronBucketsAreOptimal` | areal/engine/megatron_engine.py:1498-1523 | the same for Megatron, where the limit applies to the sum over all expert-parallel ranks |
| `WeightUpdate.FsdpEngine.UpdateWeights` | areal/engine/fsdp_engine.py:1509-1599 | the loop over aliased lists produces the trace of the value semantics, on rank 0 and on the others, with and without a failing gather |
| `WeightUpdate.FsdpEngine.AddTensor` | areal/engine/fsdp_engine.py:1557-1581 | an overflowing bucket is sent after the pending one is awaited; the list in flight is never the list being filled |
| `WeightUpdate.FsdpEngine.WaitBucket` | areal/engine/fsdp_engine.py:1355-1365 | waiting clears the list of the bucket in flight and nothing else |
| `WeightUpdate.UpdateFollowsProtocol` | areal/engine/fsdp_engine.py:1521-1596 | at most one bucket in flight, each awaited once before the next is sent, all between pause and continue; a failed gather leaves nothing in flight and generation paused |
| `WeightUpdate.UpdateSendsTheCut` | areal/engine/fsdp_engine.py:1553-1588 | the buckets sent are the greedy cut, or its beginning if a gather fails |
| `WeightUpdate.RanksGatherAlike` | areal/engine/fsdp_engine.py:1553-1557 | every rank gathers the same tensors in the same order, up to a failure |
| `WeightUpdate.LiveBytesAreBounded` | areal/engine/fsdp_engine.py:1564-1588 | the gathered bytes in the open list and in flight never exceed two buckets and one tensor, a bucket counting as its limit or an oversized tensor; in the end both are empty |
| `WeightUpdate.TheBoundIsReached` | areal/engine/fsdp_engine.py:1564-1581 | three tensors that fill a bucket each reach that bound |
| `WeightUpdate.MegatronEngine.Pass` | areal/engine/megatron_engine.py:1758-1776 | the loop with a shared list and a threaded size sends the specified buckets |
| `WeightUpdate.MegatronEngine.UpdateWeights` | areal/engine/megatron_engine.py:1753-1802 | dense parameters first, then experts |
| `WeightUpdate.MegatronSendsAll` | areal/engine/megatron_engine.py:1758-1802 | the two passes send every parameter exactly once |
| `GroupRanks.SglangRanksPartition` | areal/engine/sglang_remote.py:226-269 | every rank but 0 lies in the block of exactly one server and no block leaves the group, per stage and for all workers |
| `GroupRanks.VllmRanksPartition` | areal/engine/vllm_remote.py:203-213 | the same for vLLM |
| `GroupRanks.RankSurvivesTheName` | areal/engine/sglang_remote.py:233-240 | the pipeline rank parsed from the suffix is the one the trainer wrote, whatever the base name |
| `GroupRanks.FsdpEngine.InitGroups` | areal/engine/fsdp_engine.py:1377-1437 | every rank records the names; rank 0 joins one group for each name, of that name and the right size, and the others none |
| `GroupRanks.FsdpEngine.InitPerStageGroups` | areal/engine/fsdp_engine.py:1439-1498 | one group per stage; the copies of the metadata keep the base name intact |
| `GroupRanks.FsdpAgreesWithSglang` | areal/engine/fsdp_engine.py:1448-1484 | trainer and servers agree on name, size and stage of every group |
| `GroupRanks.MegatronAgreesWithSglang` | areal/engine/megatron_engine.py:1637-1686 | every pipeline head agrees with the servers, or refuses exactly when the stage counts differ |
| `GroupRanks.FsdpAgreesWithVllm` | areal/engine/vllm_remote.py:203-213 | with vLLM the sizes agree if and only if there is one pipeline stage |
| `GroupRanks.NamesStartAlike` | areal/engine/fsdp_engine.py:1455-1460 | they start with the name of the update |
| `GroupRanks.StageNamesDiffer` | areal/engine/fsdp_engine.py:1457-1460 | groups of different stages have different names |
| `Hybrid.BuildPlain` | areal/api/alloc_mode.py:868-885 | the loop over dimensions takes the last size of each kind |
| `Hybrid.PlainSizes` | areal/api/alloc_mode.py:868-885 | each size is the one given last for its letter, or 1 |
| `Hybrid.AcceptedSizes` | areal/api/alloc_mode.py:1033-1040 | an accepted pair has the attention list's dp, pp, tp and cp and the ffn list's ep and etp |
| `Hybrid.Decision` | areal/api/alloc_mode.py:976-1028 | the error, or the result, by the cases that the code distinguishes |
| `Hybrid.HybridTrainPara` | areal/api/alloc_mode.py:943-1040 | accepts or refuses as specified, with the same error in the same case; every size of the result is the one given in its list |
| `Hybrid.AcceptedSizesMultiply` | areal/api/alloc_mode.py:976-1028 | accepted exactly when some number of expert replicas fills the attention world; then dp*cp*tp*pp = edp*pp*etp*ep and the divisibility assertion holds |
| `Hybrid.ReportedReplicas` | areal/api/alloc_mode.py:109-114 | edp_size is that number if and only if ep > 1 or it equals the attention dp |
| `Hybrid.FourReplicasReportedAsTwo` | areal/api/alloc_mode.py:109-114 | attn:d2t2 with ffn:d4 reports 2 |
| `Hybrid.OmittedReplicasAreDerived` | areal/api/alloc_mode.py:1002-1013 | omitting the ffn d equals writing the number that fits, and any other is refused |
| `AllocationText.PrintThenParse` | areal/api/alloc_mode.py:358-379 | parsing the printed form gives the allocation back if and only if it is unnamed, etp is 1 and, for inference backends, cp and ep are 1 |
| `AllocationText.ParseThenPrint` | areal/api/alloc_mode.py:285-349 | whatever is accepted satisfies the constructors, and printing gives a normal form unless it is named or hybrid with etp > 1 |
| `AllocationText.NamesAreRefused` | areal/api/alloc_mode.py:374-376 | a printed name is refused by the grammar |
| `AllocationText.HybridIsRead` | areal/api/alloc_mode.py:608-615 | a parenthesised hybrid specification is read as its two lists |
| `AllocationText.HybridExample` | areal/api/alloc_mode.py:608-634 | megatron:(attn:d2t4|ffn:d2e4) has tp 4, cp 1 and ep 4 |
| `AllocationText.DimsReadBack` | areal/api/alloc_mode.py:617-634 | printed dimensions are read back if the grammar of the backend has all their kinds |
| `Decimal.ParseNumeral` | areal/api/alloc_mode.py:634 | decimal numerals of any length are read back and have no leading zero |
| `TraceOrder.BeforeByParts` | areal/tools/perf_trace_converter.py:73-118 | the sort keys order by rank and role, then id, then thread, and separate different keys |
| `TraceOrder.KeysInOrder` | areal/tools/perf_trace_converter.py:73-118 | without the sort keys: ranks, processes and flows by number, then texts alphabetically; named roles before none; threads with natural numbers, then negative ones by magnitude, then texts |
| `TraceOrder.PlaceIsCount` | areal/tools/perf_trace_converter.py:163-175 | the place of a key in the sorted list is the number of keys before it |
| `TraceRemap.Remap` | areal/tools/perf_trace_converter.py:121-214 | the in-place pass with maps and counters renumbers by counting; the fallback for an unknown thread is not taken |
| `TraceRemap.RemapIsInjective` | areal/tools/perf_trace_converter.py:177-214 | two events share process and thread afterwards exactly when they shared rank, role, process and thread |
| `TraceRemap.PidsAreConsecutive` | areal/tools/perf_trace_converter.py:158-171 | the processes are numbered from 1 without gaps |
| `TraceRemap.TidsAreConsecutive` | areal/tools/perf_trace_converter.py:173-193 | the threads of a process are numbered from the number of the process without gaps |
| `TraceRemap.RemapKeepsOrder` | areal/tools/perf_trace_converter.py:158-193 | the new numbers follow rank, role and process, and in one process the threads |
| `TraceRemap.RemapChangesOnlyNumbers` | areal/tools/perf_trace_converter.py:195-214 | nothing else of an event changes, and events without a rank or a process stay as they are |
| `TraceRemap.RemapIsIdempotent` | areal/tools/perf_trace_converter.py:143-214 | a second pass changes nothing |
| `TraceRemap.RemapFlows` | areal/tools/perf_trace_converter.py:355-401 | the in-place flow pass |
| `TraceRemap.FlowsStayPaired` | areal/tools/perf_trace_converter.py:375-401 | two references agree afterwards exactly when their events had the same rank and role and they the same id |
| `TraceRemap.FlowsAreConsecutive` | areal/tools/perf_trace_converter.py:373-383 | the flows are numbered from 1 without gaps |
| `TraceRemap.RelinkChangesOnlyReferences` | areal/tools/perf_trace_converter.py:385-401 | nothing but these references changes |
| `TraceRemap.RelinkIsIdempotent` | areal/tools/perf_trace_converter.py:375-401 | a second flow pass changes nothing |

## Left out

Things the repository does that the model does not:

- Shutdown, thread death and its propagation, cancellation of running tasks, the cleanup at the end of `_run_async_loop`, and the start-up window before the loop has created its event.
- `wait_for_task` racing with `wait_results` from another thread: there is one client thread, which may call both in turn.
- Callbacks, tracing, statistics and trajectory dumping. They are assumed not to raise, so a finished workflow reports exactly one verdict; the verdict itself (from the workflow and the filter function) is arbitrary.
- `TaskIdGenerator`: where a theorem needs ids to be fresh it says so (`FreshIds`); the soundness of the runner's table needs no such hypothesis.
- Time: clock readings are any nondecreasing numbers, a timeout may happen whenever a fetch is collecting, and fairness of the scheduler is not assumed. Progress therefore says that a thread left alone gets there in a bounded number of steps.
- HTTP requests, retries, sessions, health checks and server launch. A server is a function from attempt, context and budget to a chunk; `patience` only bounds how many aborted attempts an observer is willing to watch.
- The half-second sleeps of `agenerate` while rollouts are paused, image data and routed experts.
- Tensor contents, conversion to the checkpoint format (a converted tensor counts as the parameter it came from), CUDA streams, and the process groups' own communication. A tensor is a name and a size in bytes.
- LoRA runs, which only filter the parameters; exceptions other than a failing gather (such as expert ranks that disagree on the number of tensors); the loop that broadcasts one bucket to several stage groups in turn.
- `redistribute_trajectories` and micro-batch packing: areal/utils/seqpack.py and areal/utils/data.py are not part of this model.
- Configuration classes, virtual pipeline parallelism, `StepInfo.next`, `output_tokens_without_stop` and the offload hooks.
- Multi-component allocations, colocation and the scheduling strategy. Every refusal of the grammar, including a missing backend, is the one error `Syntax`; white space is not accepted.
- `int()` on a group-name suffix accepts signs, spaces and underscores; here a suffix is a string of decimal digits. Trainers write no other.
- Trace identifiers other than integers and strings, and the metadata events that the renumbering adds.

Contracts stated weaker than the code:

- Dispatcher.Shuffle: does not say that every permutation is equally likely, because the random numbers are parameters.
- Runner.AsyncTaskRunner.Wait: does not model the length of the polling intervals; arrivals are grouped by poll.
- Dispatcher.BatchTaskDispatcher.ActiveSubmitAndWait: does not say when the passes happen; what the other threads do between two passes is a parameter.
- PipelineStragglers.TheBoundIsSharp: is about overtakers with versions on time; that overtakers and missing samples together reach the bound is not shown.
