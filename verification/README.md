# The packed inference runtime, modelled and proved in Dafny

This project models the packed ("ragged") inference runtime of the repository: an iteration-level scheduler
that drives a demand-paged KV cache with an LRU prefix cache, chunked prefill, recompute preemption and padded
graph batches, together with its attention kernels and its two tenant admission gates. It proves what the
design claims of them, over every input and every run.

Check the whole project with `dafny verify dfyconfig.toml`.

## How it is built

Code that updates objects in place is a class here (`BlockAllocator`, `PagedKVCache`, `RaggedRunner`,
`Scheduler`, `NaiveRunner`, `TenantLease`, `TenantGate`, `RedisTenantGate`). Each method says exactly which
state it leaves, as a function of the old one; those functions work on plain values (`Blocks`, `Cache`, `Sys`,
`Account`, `Keys`), and the theorems about single operations and about whole runs are lemmas on these values.

| files | what they model |
|---|---|
| `Lists`, `Allocator` | list operations, the free-list block allocator |
| `KvCache`, `KvCacheValid`, `KvCacheContent`, `KvCacheRecency`, `KvCacheStats`, `PagedCache` | the paged cache: block tables, transactional growth, prefix store, restore and eviction; block conservation; what the slots contain; recency order |
| `Transformer` | a causal model of any number of layers with uninterpreted per-token functions, and the recompute-everything `NaiveRunner`, the reference all else is measured against |
| `PackedForward`, `Packing`, `Padding`, `Runner`, `RaggedEngine` | packing a plan, one forward over the flat batch, graph padding, commit and sampling |
| `Scheduling`, `SchedulerLoop` | the scheduler's handlers, as functions and as the object, which serves any sequence of events keeping the invariant |
| `SchedulerCore`, `SchedulerRun`, `SchedulerMoves` | the invariant, that every step keeps it, and a second induction principle: each step unfolds into elementary moves |
| `SchedulerScenes`, `SchedulerCrowd`, `SchedulerCohort`, `SchedulerLimits`, `SchedulerReadmitted` | concrete runs of engines that can start, followed step by step, and what exactly limits and prompts must be |
| `SchedulerProgress`, `SchedulerLeaks` | when an iteration plans something and what an idle engine has done; residents and events left behind for good |
| `SchedulerQueue`, `SchedulerPlan`, `SchedulerOrder`, `GraphRouting` | who leaves the queue and who is admitted, what the plan builder guarantees, and which plans graph mode can run |
| `SchedulerRecords`, `SchedulerEffects`, `SchedulerRestores`, `SchedulerForward`, `SchedulerAftermath` | what each step does to every record, list and counter, stated of the step alone: clients, iterations, prefix reuse, forwards, post-processing |
| `SchedulerStreams`, `SchedulerCounts`, `SchedulerThrash`, `SchedulerWork`, `SchedulerTight`, `SchedulerCapacity` | streams, the terminal funnel, thrash and work bounds, demand-paging tightness, capacity rejections |
| `OnlineSoftmax`, `AttentionKernels` | the blocked online softmax over exact reals, both kernels, the torch reference, and the paged forward on the kernel |
| `Admission`, `RedisAdmission`, `AdmissionRuns`, `TenantGates` | the in-process and the Redis gate, and their comparison |

A run is any sequence of events: submissions, cancellations and consumers taking events at any point, and the
loop's own steps in turn: one iteration up to its plan, `execute_batch` as one atomic step (completing, out of
capacity, raising anywhere in the forward after any writes to its mapped slots, or raising while it samples),
and its post-processing. A cancellation may fall while a plan is in flight or between the forward and its
post-processing. Priorities are arbitrary functions to integer tuples except where a lemma names the production
policy. The clock is an argument of each step, with no assumption on its values in the scheduler.

## Where the code does less than its documentation says

Each item is exhibited by an explicit run, beside the exact condition under which the code does what is claimed. The
runs are those of engines that can start (`Startable`): 16-token blocks, a context of at most 4096 tokens, and in
graph mode a block for every row of the batches captured at start-up.

* **Capacity rejection.** A request is meant to be rejected for capacity only if it cannot run alone. If every
  other resident is cancelled between the failing forward and the processing of its failure, a request that fits
  is rejected (`FittingRejected`, six events). Over every run an unfinished planned request is rejected if and
  only if nobody can be preempted by then, which is if and only if every other resident of the failed forward has
  gone or finished (`RejectedExactly`, `FittingRejectedExactly`); if none has, only a sole resident that exceeds
  the pool alone is rejected (`RejectionGenuine`, `SoleCapacityExactly`).
* **Rows of a padded graph batch.** The padded run hands row k to the k-th sampling request. That is its own row
  if and only if the sampling items come first in the plan (`PaddedRowsRight`, `GraphAgreesExactly`). The
  production policy is safe with any limits, because a request re-feeding its own output is alone of its kind and
  comes last (`RefeedingLast`). Over all policies, graph mode keeps token parity if and only if chunks are of two
  or more tokens, or there are at most two places, or the budget is at most two (`ParityExactly`); `Misrouted` is
  the run in which a request is given its neighbour's token. Only token parity depends on this: all the other run
  theorems hold in every configuration.
* **Captured graph batches.** A decode-only plan that fills its bucket is copied into the batch captured at
  start-up, which has one logit row per token. A plan with a request re-feeding its own output has fewer rows, and
  unless a single one is left the copy raises: the planned requests fail instead of being continued. Over all
  policies this happens in no run if and only if there is one place, or chunks are of two or more tokens and the
  budget is above the active limit, or two, or the size of no captured batch (`RaisesExactly`, with the run
  `CohortCrashes`). Under the production policy one-token slices and two places are enough (`LoneCrashes`).
* **Long prompts.** Submission accepts negative output limits, and with them a prompt longer than the context. A
  forward's tables fit the table tensor if and only if in graph mode no item ends beyond the blocks of a full
  context (`WidthOverRuns`, `CrashExactly`); a prompt of n tokens never does so if and only if n is at most
  16 * ceil(max_model_len / 16) (`PromptExactly`, with the run `LongPromptRaises`).
* **Terminal residents.** A request cancelled while its forward runs out of capacity is neither finalized nor removed:
  a terminal resident is left behind by the processing of a forward if and only if the forward ran out of capacity
  or the request was not in its plan (`LeftBehindExactly`). It then keeps its place, its blocks and its state under
  whatever follows (`StuckForGood`); request 1 of `FittingRejected` is one. The counters count it as active.
* **Streams.** Order is proved, not delivery: what is pending at finalization stays pending for good, and the client
  is offered its whole stream if and only if nothing was (`PendingForGood`); in the run `StopUndelivered` the
  terminator is what stays behind. An iteration drains before it admits: everybody who was resident before it has
  undelivered events only behind a full queue, while a request it readmits has them as they were, for one more
  iteration (`DeliveredOverRuns`, with the run `ReadmittedUndrained`).
* **The two gates.** Redis forgets a lease that outlives `lease_seconds`; the in-process gate does not
  (`OutlivedLease`, two calls). One acquisition is answered alike if and only if a slot is free in process or all
  slots are still taken in Redis (`AcquireAlikeExactly`); without outlived leases the gates agree in every run, and
  so do the two objects (`ServeBoth`).

A preempted request back in the queue is timed out by its original arrival time; the model does as the code does.

## Model

| member | source | states |
|---|---|---|
| SchedulerRun.TokenParity | src/cloud_engine/scheduler.py:367-427 | in every state of every run each request has generated a prefix of what the recompute-everything runner answers its prompt alone, and it is COMPLETED if and only if it has generated all of that answer |
| SchedulerLimits.ParityExactly | src/cloud_engine/engine.py:459-464 | for given chunk, budget and active limit in graph mode: under every policy, model, engine that can start and run each request has generated a prefix of its own answer, if and only if chunks are of two or more tokens, or there are at most two places, or the budget is at most two |
| SchedulerLimits.Misrouted | src/cloud_engine/engine.py:459-464 | the run behind the other half, of an engine that can start, with 16-token blocks and as many blocks as places: one-token chunks, three places and prefills first; a request is given the successor of its neighbour's token, which is not in its answer |
| SchedulerCrowd.StartedShows | src/cloud_engine/config.py:116-136 | the engines of these runs are initial states, with the one block size, a context and pool the configuration check and the start-up captures allow |
| SchedulerRun.ContentOverRuns | src/cloud_engine/scheduler.py:367-427 | in every state of every run the blocks partition, every committed position of every resident request and of every prefix entry holds the KV of exactly its token prefix at every layer, and the tables are exactly those of the active requests |
| SchedulerRun.RunInv | src/cloud_engine/scheduler.py:367-427 | the scheduler invariant (places, cache content, faithful words, lengths, what is in flight) holds in every state of every run |
| SchedulerRun.StepInv | src/cloud_engine/scheduler.py:367-427 | every step, client calls included, keeps the invariant |
| SchedulerThrash.ThrashOverRuns | src/cloud_engine/scheduler.py:438-457 | under any victim policy no two previously preempted requests are ever resident together, and N submissions cause at most 2N preemptions |
| SchedulerWork.WorkOverRuns | src/cloud_engine/scheduler.py:527-553 | tokens executed are those of the residencies, one more residency per preemption; at most (N + preemptions) * (max_model_len - 1) when every output limit is positive; forwards are at most tokens + preemptions + N + 1 |
| SchedulerWork.ForwardsOverRuns | src/cloud_engine/scheduler.py:527-553 | N submissions with positive output limits cause at most 3N(max_model_len - 1) + 3N + 1 forwards |
| SchedulerCounts.FunnelOverRuns | src/cloud_engine/scheduler.py:640-668 | the lists are duplicate-free and disjoint and respect the limit; each request is finalized at most once, with one future resolution and one counter increment; submissions equal waiting + active + the five terminal counters |
| SchedulerCounts.TerminalAbsorbing | src/cloud_engine/scheduler.py:275-283 | between any two moments of any run a terminal request keeps its state and its words, and no request takes a token back |
| SchedulerLeaks.LeftBehindExactly | src/cloud_engine/scheduler.py:380-426 | a terminal resident is left unfinalized by the processing of a forward if and only if the forward ran out of capacity or the request was not in its plan |
| SchedulerLeaks.StuckForGood | src/cloud_engine/scheduler.py:383-395 | over every run: a terminal resident that is not in flight stays one under whatever follows, with its place, its state and its blocks, and is never finalized |
| SchedulerLeaks.ShapeOverRuns | src/cloud_engine/cache.py:247-285 | block size, prefix budget and number of blocks are those of the start in every state of every run |
| SchedulerStreams.StreamsOverRuns | src/cloud_engine/scheduler.py:602-629 | consumed, queued and pending events together are the token events in generation order, then STOP if and only if finalized; the queue respects its capacity, at most two events are pending, and the stall clock runs exactly while something is |
| SchedulerLeaks.PendingForGood | src/cloud_engine/scheduler.py:619-629 | over every run: once a request is finalized what is pending stays pending whatever follows, and its client is offered the whole stream if and only if nothing was pending then |
| SchedulerLimits.StopUndelivered | src/cloud_engine/scheduler.py:640-668 | with a stream queue of one event, of an engine that can start and with any model, a run of four events after which a completed request has its terminator pending for good |
| SchedulerTight.TightOverRuns | src/cloud_engine/scheduler.py:403-424 | whenever no forward is being processed, tables are exactly those of the active requests, each with length equal to the fed count and exactly ceil(fed / block_size) blocks, no wider than a full context if the prompt fits its blocks; every unfinished one has something to feed, exactly one token when decoding; waste is under a block per resident |
| SchedulerTight.WidthOverRuns | src/cloud_engine/engine.py:264-279 | over every run, configuration and output limit: the tables grown for a plan fit the block-table tensor if and only if in graph mode no item ends beyond the blocks of a full context; and none does if the planned prompts fit those blocks |
| SchedulerTight.CrashExactly | src/cloud_engine/engine.py:439-473 | over every run and configuration: a planned forward raises something other than a capacity error if and only if its tables grow and either an item ends beyond the blocks of a full context in graph mode, or graph mode does not take the plan |
| SchedulerLimits.PromptExactly | src/cloud_engine/engine.py:264-279 | prompts of n tokens never outgrow the tensor of a context of L in any graph-mode engine that can start and any run, if and only if n is at most 16 * ceil(L / 16) |
| SchedulerLimits.LongPromptRaises | src/cloud_engine/scheduler.py:233-254 | the run behind the other half: two events, a prompt longer than that submitted with a negative output limit, and its forward raises |
| SchedulerTight.NoCrashOverRuns | src/cloud_engine/engine.py:264-279 | over every run whose planned prompts fit the blocks of a full context, under limits with which graph mode takes every plan, a planned forward completes or reports capacity |
| SchedulerLimits.RaisesExactly | src/cloud_engine/engine.py:300-318 | for given chunk, budget and active limit in graph mode: under no policy, model, engine that can start and run does a planned forward of prompts that fit the tensor raise, if and only if there is one place, or chunks are of two or more tokens and the budget is above the active limit, or two, or the size of no captured batch |
| SchedulerLimits.CohortCrashes | src/cloud_engine/engine.py:300-314 | the run behind the other half, of an engine that can start: a preempted request comes back among as many newcomers as fill a captured batch, and the forward raises |
| SchedulerLimits.LoneCrashes | src/cloud_engine/engine.py:300-314 | the same under any policy, the production one included, with one-token slices and two places: request 0 fills the pool, is preempted, comes back alone, and its forward raises |
| SchedulerMoves.RunKeeps | src/cloud_engine/scheduler.py:367-427 | a property kept by every elementary move of the handlers and true at the start is true in every state of every run |
| SchedulerCapacity.RejectionGenuine | src/cloud_engine/scheduler.py:383-394 | over runs, if no resident of the failed forward has gone or finished by the time its failure is processed, a planned request is rejected if and only if it was the only resident, and then its own blocks for the position it had to reach exceed the pool |
| SchedulerCapacity.RejectedExactly | src/cloud_engine/scheduler.py:383-394 | over runs, whatever clients do between a forward that fails for capacity and the processing of its failure: a planned request that is still unfinished is rejected if and only if nobody can be preempted, that is, if and only if every other resident of the failed forward has gone or finished |
| SchedulerCapacity.FittingRejectedExactly | src/cloud_engine/scheduler.py:527-530 | a request whose prompt and output fit the pool never fails alone: there were other residents, and it is rejected exactly when all of them have gone or finished by then |
| SchedulerCapacity.SoleCapacityExactly | src/cloud_engine/scheduler.py:527-530 | with one request resident a forward fails for capacity if and only if that request alone exceeds the pool |
| SchedulerCapacity.RejectedBy | src/cloud_engine/scheduler.py:383-394 | in any state of the invariant a step newly rejects a request if and only if it processes a capacity error it cannot preempt for, with the request unfinished and in the failed plan |
| SchedulerCapacity.AdmitRejects | src/cloud_engine/engine.py:218-222 | admission never rejects anybody |
| SchedulerLimits.FittingRejected | src/cloud_engine/scheduler.py:527-530 | of an engine that can start with any pool, under the production policies and with any model, a run of six events that rejects a request although the pool has the blocks it needs: its neighbour is cancelled before the failure is processed, and is left behind terminal, resident and never finalized |
| SchedulerPlan.PlanGuarantees | src/cloud_engine/scheduler.py:459-518 | for any priority the plan is within budget, names each request at most once and only active ones, each slice is the next contiguous tokens and samples if and only if it reaches the end; leftover budget means every eligible request is in the plan |
| SchedulerPlan.SlicesMaximal | src/cloud_engine/scheduler.py:504-517 | every slice is as long as it may be: it reaches the end of what the request knows, or is a full chunk, or takes the last of the budget |
| SchedulerPlan.DecodeFirstPlan | src/cloud_engine/scheduler.py:496-517 | production policy with budget >= active limit: one sampled token for every eligible decoding request with one token left opens the plan, the rest of the budget goes to prefills in active order |
| SchedulerRun.DecodesEveryIteration | src/cloud_engine/scheduler.py:459-518 | over every run under the production policy with budget >= active limit, whoever is resident and decoding after an iteration with nothing undelivered has exactly one item in its plan, of one token, sampled |
| SchedulerProgress.PlansExactly | src/cloud_engine/scheduler.py:438-518 | over every run an iteration plans something if and only if some unfinished resident has nothing undelivered; and a waiter is left only behind a full limit, or because it was preempted and others are resident |
| SchedulerProgress.IdleIsDone | src/cloud_engine/scheduler.py:369-379 | over every run: when an iteration plans nothing, with a place to give, no client behind and nobody left behind, the engine is empty and every request has been finalized |
| SchedulerPlan.DecodeFirstSort | src/cloud_engine/scheduler.py:496-498 | sorting by the production policy is decodes then prefills, each in arrival order |
| SchedulerPlan.SortedFacts | src/cloud_engine/scheduler.py:496-498 | the sort is a permutation in rank order |
| SchedulerPlan.OrderedApart | src/cloud_engine/scheduler.py:496-498 | nobody in a sorted list outranks anybody before it, at any distance |
| SchedulerOrder.PlannedInOrder | src/cloud_engine/scheduler.py:471-498 | for any policy the plan of an iteration is in rank order of what the policy is shown of each request, ties in the order of their admission, and nobody left out is ahead of anybody planned |
| SchedulerOrder.SortedStable | src/cloud_engine/scheduler.py:496-498 | the sort is stable and loses nobody |
| SchedulerPlan.FillFacts | src/cloud_engine/scheduler.py:499-517 | handing out the budget: a leading segment of the candidates gets its next slices, within budget, and budget left over means all of them did |
| SchedulerPlan.VictimHighest | src/cloud_engine/scheduler.py:531-542 | the victim is the first of the highest-ranked: nobody outranks it and everybody before it ranks strictly below |
| SchedulerPlan.LargestIsVictim | src/cloud_engine/scheduler.py:197-199 | under the production policy no unfinished resident holds more slots than the victim |
| SchedulerPlan.VictimTies | src/cloud_engine/scheduler.py:197-199 | its ties: among those holding as many slots nobody has more fed tokens, among those nobody arrived later, and who ties in all three stands behind it |
| SchedulerPlan.DecodePlansSample | src/cloud_engine/scheduler.py:504-516 | with two or more tokens per chunk and a budget above the active limit every item of an all-decode plan samples, whatever the priority |
| SchedulerPlan.RefeedingLast | src/cloud_engine/scheduler.py:513-514 | under the production policy the one decode item that may not sample, of a request re-feeding its own output, comes last |
| SchedulerPlan.PlanRowsSafe | src/cloud_engine/engine.py:459-464 | under the production policy, or with two or more tokens per chunk, or with at most two places or a budget of at most two, every padded plan has its sampling items first |
| SchedulerPlan.PlanTaken | src/cloud_engine/engine.py:300-318 | under the limits of RaisesExactly graph mode takes every plan: its rows copy into the captured batch, and a padded one has somebody to sample |
| SchedulerPlan.PlanExecutable | src/cloud_engine/scheduler.py:459-518 | a non-empty plan names distinct known requests, has tokens to run, and no more decodes than the active limit |
| SchedulerCore.FinalizeCore | src/cloud_engine/scheduler.py:640-668 | finalizing a terminal request keeps the invariant for all others, wherever their items are |
| SchedulerCore.AdmitOneCore | src/cloud_engine/scheduler.py:438-457 | admitting the head of the queue never fails its reservation and keeps the invariant |
| SchedulerCore.EvictedCore | src/cloud_engine/scheduler.py:543-553 | preempting an unfinished resident keeps the invariant |
| SchedulerCore.CancelCore | src/cloud_engine/scheduler.py:275-283 | cancelling at any await keeps the invariant, the plan in flight included |
| SchedulerCore.SubmitCore | src/cloud_engine/scheduler.py:233-254 | submitting at any await keeps the invariant |
| SchedulerCore.WithTokenFaithful | src/cloud_engine/scheduler.py:581-607 | appending the greedy next token keeps a request on the way to its answer, completed exactly at an end-of-sequence hit or at the limit |
| SchedulerCore.PostItemCore | src/cloud_engine/scheduler.py:403-424 | processing one item of a completed forward keeps the invariant, whatever has been cancelled meanwhile |
| SchedulerCore.PostCrashedCore | src/cloud_engine/scheduler.py:396-400 | processing a failed forward keeps the invariant |
| SchedulerCore.PostCapacityCore | src/cloud_engine/scheduler.py:383-395 | processing a capacity error, by preemption or rejection, keeps the invariant |
| SchedulerRun.PostInv | src/cloud_engine/scheduler.py:380-426 | whatever the outcome, post-processing leaves a state with nothing in flight that satisfies the invariant |
| SchedulerRun.ExecuteInv | src/cloud_engine/engine.py:439-488 | the forward, completed, refused, or failing while it samples, keeps the invariant |
| SchedulerRun.ExecuteFailsInv | src/cloud_engine/scheduler.py:396-400 | a forward that raises anywhere, after any writes to its mapped slots, keeps the invariant |
| SchedulerQueue.ReapWaitingExactly | src/cloud_engine/scheduler.py:562-573 | exactly the waiters overdue by their arrival time leave the queue, each ended as timed out; the others keep their order and records |
| SchedulerQueue.ReapActiveExactly | src/cloud_engine/scheduler.py:575-578 | exactly the unfinished residents whose consumer has stalled too long leave the engine, each ended as cancelled; the others keep their order and records |
| SchedulerQueue.AdmitInOrder | src/cloud_engine/scheduler.py:438-457 | the leading part of the queue becomes resident in its order until the queue is empty, the limit is reached or a preempted request is at the head among others; a preempted request enters only an empty engine |
| SchedulerEffects.SubmitExactly | src/cloud_engine/scheduler.py:233-254 | a submission is refused exactly for an empty prompt, a prompt and limit beyond the context (context overflow) or a full queue (queue full), and then changes nothing; otherwise a fresh request joins the end of the queue |
| SchedulerEffects.CancelExactly | src/cloud_engine/scheduler.py:275-283 | in every reachable state and phase a cancellation takes effect: a request not in flight is finalized exactly once, out of both lists, without blocks and counted; one in flight is only marked; a finished one is left alone; nobody else changes |
| SchedulerEffects.ReapedOverRuns | src/cloud_engine/scheduler.py:562-579 | over every run an iteration times out and finalizes a waiter if and only if it arrived longer ago than the queue timeout, and cancels and finalizes an unfinished resident if and only if its consumer has blocked it longer than the stall timeout; everybody else is still in a list |
| SchedulerEffects.DeliveredOverRuns | src/cloud_engine/scheduler.py:429-436 | over every run, after an iteration a request that was resident before it has undelivered events only behind a full queue, and no stall clock otherwise; one just admitted has its stream as it was, so it falls short if and only if it was preempted with undelivered events and its client has made room since |
| SchedulerReadmitted.ReadmittedUndrained | src/cloud_engine/scheduler.py:371-373 | the run behind that exception: with any model, a queue of one event and one block of cache, fourteen events after which a readmitted request has an empty queue and an event pending, because draining comes before admission |
| SchedulerEffects.IterateExactly | src/cloud_engine/scheduler.py:367-379 | what an iteration does to every record and both lists: who is ended, whose events move how far, who is admitted in which order and why no more, and that everybody else stands in the same place with the same record |
| SchedulerEffects.ConsumeExactly | src/cloud_engine/engine.py:508-512 | a client takes the oldest queued event, and nothing else changes |
| SchedulerQueue.AdmitRecords | src/cloud_engine/scheduler.py:438-457 | admission changes the state and the fed count of those it admits, and nothing else |
| SchedulerRestores.AdmissionReuses | src/cloud_engine/engine.py:218-222 | the head of the queue, admitted with nobody to reap, starts from the longest cached prefix of its prompt if a copy fits next to the entry and the residents, and from nothing otherwise |
| SchedulerRestores.CancelRetains | src/cloud_engine/engine.py:224-226 | a request that ends leaves its prompt prefix as the most recently used entry exactly when that is cached, or fed and there is room for it; otherwise the entries are as they were or all evicted in vain |
| SchedulerForward.FullForwardExactly | src/cloud_engine/cache.py:371-396 | in every reachable state a forward reports a full cache if and only if the blocks of all residents, at their lengths after it, exceed the pool; retained prefixes never count |
| SchedulerForward.ForwardedExactly | src/cloud_engine/engine.py:439-488 | a forward feeds every planned request exactly its tokens when it completes or raises after the commit, and nobody anything otherwise; it counts once |
| SchedulerAftermath.ServedExactly | src/cloud_engine/scheduler.py:401-424 | after a completed forward each planned request is ended if it was cancelled meanwhile, else has its sampled token, its event published and the right next state, or goes on with its prefill; recomputed tokens are counted; nobody else changes |
| SchedulerAftermath.CrashedExactly | src/cloud_engine/scheduler.py:396-400 | after a crashed forward exactly the planned requests end, each once: as cancelled, or failed without being rejected |
| SchedulerAftermath.PreemptedExactly | src/cloud_engine/scheduler.py:527-553 | a full cache with two unfinished residents costs the first of the highest-ranked its place and nobody anything else: it goes to the end of the queue, unfed, with its words and stream; the production policy takes the one holding most, then the furthest on, then the last to arrive |
| SchedulerAftermath.RefusedExactly | src/cloud_engine/scheduler.py:383-395 | a full cache with at most one unfinished resident ends exactly the unfinished planned requests, as rejected |
| Runner.ExecuteFacts | src/cloud_engine/engine.py:439-488 | on a well-formed plan the call names the sampled requests and leaves right content everywhere, with the greedy next token of each if the rows are in order; or it reports capacity having changed nothing a request can see, or raises before the forward |
| Runner.ExecuteFailingFacts | src/cloud_engine/engine.py:439-488 | a call that raises inside the forward leaves all committed content of requests and prefix entries intact |
| Runner.FinishFacts | src/cloud_engine/engine.py:459-488 | after growth the call raises if and only if graph mode does not take the plan; otherwise it completes with right lengths, tables and content, and with right outputs if the rows are in order |
| Runner.GrowForPlan | src/cloud_engine/engine.py:234-236 | growing for a plan is all or nothing and never at the cost of committed content |
| Runner.CommittedAgrees | src/cloud_engine/engine.py:475-483 | after the pass and the commit every resident position and every prefix entry holds the right KV |
| Runner.CommitFacts | src/cloud_engine/cache.py:427-431 | committing distinct requests moves exactly their lengths to their ends |
| Runner.GraphSameAsPlain | src/cloud_engine/engine.py:459-473 | in graph mode a plan whose sampling items come first yields exactly what the plain path yields, unless its copy into the captured batch raises |
| Runner.PlainOutputsRight | src/cloud_engine/engine.py:484-488 | the outputs map names exactly the sampled requests, each with the greedy next token of its fed prefix |
| Runner.LogitRows | src/cloud_engine/engine.py:252-262 | the k-th logit row is that of the last fed token of the k-th sampling item |
| GraphRouting.GraphAgreesExactly | src/cloud_engine/engine.py:459-464 | if the rows of a batch pick different tokens, the padded run agrees with the plain run if and only if the sampling items come first in the plan |
| GraphRouting.PaddedRunOutputs | src/cloud_engine/engine.py:320-356 | a padded run leaves the same cache as the plain run and gives the k-th sampling request the token of row k instead of its own row |
| Padding.PaddingPreservesBatch | src/cloud_engine/engine.py:320-356 | layer by layer the padded run leaves the very same pools, and its first rows are the batch rows |
| Padding.PaddedRowsRight | src/cloud_engine/engine.py:459-464 | rows 0, 1, ... are the sampling items' own rows if and only if the sampling items come first |
| Padding.GraphBucketIsLeast | src/cloud_engine/engine.py:316-318 | the bucket is the least power of two holding the batch, and less than twice its size |
| Padding.BucketsPrecaptured | src/cloud_engine/engine.py:410-437 | with a power-of-two active limit every bucket of a batch within it is captured at start-up |
| Padding.WarmLoop | src/cloud_engine/engine.py:421-434 | the warm-up loop captures one size per doubling up to the limit |
| PackedForward.PackedEqualsRecompute | src/cloud_engine/model.py:205-221 | for any number of layers one forward over the flat batch gives every row the hidden state of a full recompute, writes the right KV into every fed slot and changes no other slot |
| PackedForward.GatherRight | src/cloud_engine/attention.py:192-207 | once a layer is written every row reads through its block table exactly the history a full recompute would see |
| PackedForward.AppendRight | src/cloud_engine/cache.py:398-413 | appending a layer leaves the right KV at every fed slot and everything else untouched |
| PackedForward.Forward | src/cloud_engine/model.py:205-221 | the layer loop over a packed batch, pools written in place, computes the layered specification |
| PackedForward.Append | src/cloud_engine/cache.py:398-413 | slot by slot the write computes the specification in which the last write to a slot wins |
| Packing.PackDescribes | src/cloud_engine/engine.py:231-301 | the packed tensors say, token by token, which token of which request at which position is read and written where |
| Packing.PackRows | src/cloud_engine/engine.py:231-301 | the flat rows are the positions of the plan's items, each present and nothing else |
| Packing.FlatToken | src/cloud_engine/engine.py:250-262 | each flat token belongs to an item of the plan and lies within its slice |
| Packing.SameSlotSamePosition | src/cloud_engine/cache.py:415-425 | covered positions share a slot if and only if they are the same position of the same request |
| Packing.RowsNoClash | src/cloud_engine/cache.py:415-425 | across a batch a slot written by one row and read by another stands for the same request and position |
| Packing.RowsReady | src/cloud_engine/engine.py:231-301 | everything a row reads is cached already or fed by this batch |
| Packing.WrittenNotInEntry | src/cloud_engine/cache.py:415-425 | no slot a batch writes belongs to a prefix entry |
| Packing.PartialForwardAgrees | src/cloud_engine/engine.py:439-473 | a forward that stops anywhere, with anything written to its slots, leaves committed content of requests and entries intact |
| Transformer.HiddenPrefix | src/cloud_engine/model.py:194-228 | causality: a hidden state depends on the tokens up to its position only |
| Transformer.AnswerSoFar | src/cloud_engine/engine.py:95-115 | greedy tokens with no earlier stop are a prefix of the answer, and all of it once they stop |
| Transformer.RecomputeForward | src/cloud_engine/model.py:205-221 | the layer loop without a cache computes the hidden states of a full recompute |
| Transformer.NaiveRunner.Step | src/cloud_engine/engine.py:103-115 | a step appends the greedy next token of prompt and output so far and advances the fed count by one |
| Transformer.ServeNaively | src/cloud_engine/engine.py:80-115 | serving one prompt step by step until a stop yields the answer |
| KvCacheValid.BlockConservation | src/cloud_engine/cache.py:120-156 | free list, tables and prefix entries, laid end to end, name every physical block exactly once |
| KvCacheValid.EnsureCapacityFacts | src/cloud_engine/cache.py:371-396 | on success every named table reaches its requirement and only grows at its end; on failure no table, length, pool slot or request block has changed; a capacity failure leaves no prefix entry |
| KvCacheValid.FullExactly | src/cloud_engine/cache.py:371-396 | growth fails for capacity if and only if the requests' own blocks plus the additions exceed the pool |
| KvCacheValid.PrefixCacheTransparent | src/cloud_engine/cache.py:371-396 | growth fails with the prefix cache exactly when it fails with every entry given back |
| KvCacheValid.EvictFacts | src/cloud_engine/cache.py:287-296 | eviction touches no request, keeps the protected entry, and stops with enough free blocks or nothing left to drop |
| KvCacheValid.EvictIsOldestFirst | src/cloud_engine/cache.py:287-296 | unprotected eviction drops a leading segment of the entries, the oldest ones, and none it did not need |
| KvCacheValid.GrowFacts | src/cloud_engine/cache.py:383-391 | each named table gets its count of fresh blocks at its end, nothing else changes |
| KvCacheValid.ReleaseFacts | src/cloud_engine/cache.py:497-501 | release gives exactly the request's blocks back |
| KvCacheValid.ReserveFacts | src/cloud_engine/cache.py:360-369 | a fresh request always gets its empty table |
| KvCacheContent.RestoreFacts | src/cloud_engine/cache.py:298-324 | a hit is the longest cached block-aligned prefix, shorter than the prompt, its source survives and the request holds its content; a miss means nothing is cached, or the longest entry does not fit with every other entry evicted |
| KvCacheContent.StoreFacts | src/cloud_engine/cache.py:326-357 | store never takes a request's block, stays within the prefix budget and retains only prefixes whose content is the KV of exactly their key |
| KvCacheContent.StoredExactly | src/cloud_engine/cache.py:326-357 | a prompt prefix is retained if and only if it fits the budget and is cached already, or is committed and fits the pool next to the requests' own blocks; it is then the most recently used entry |
| KvCacheRecency.RestoreOrder | src/cloud_engine/cache.py:298-324 | a hit makes its entry the most recently used one, drops the oldest others and only those the copy needs, and keeps the rest in order; a miss leaves the order alone; hits and misses are counted |
| KvCacheRecency.StoreOrder | src/cloud_engine/cache.py:326-357 | a cached prefix becomes the most recently used entry with the others in order; a new one joins at that end in place of the oldest ones that the budget or the pool needs; nothing else is dropped unless all was and it was not enough |
| KvCacheRecency.EvictKeepsOrder | src/cloud_engine/cache.py:287-296 | eviction next to a protected entry drops the oldest of the others, none that it need not, and keeps the rest in order |
| KvCacheRecency.GrowthOrder | src/cloud_engine/cache.py:371-396 | growing for a plan evicts the oldest entries and only those it needs; an unknown request costs nothing |
| KvCacheContent.AdmitFacts | src/cloud_engine/engine.py:218-222 | admission: an empty table, then the longest cached prefix; never a capacity error, and something is left to feed |
| KvCacheContent.TeardownFacts | src/cloud_engine/engine.py:224-226 | teardown retains the prompt prefix, gives the blocks back and disturbs nobody |
| KvCacheContent.CopyInGrowth | src/cloud_engine/cache.py:309-312 | with room for the source blocks the growth inside a restore evicts nothing more and reaches the entry's size |
| KvCacheContent.CopyKeepsOthers | src/cloud_engine/cache.py:313-318 | copying over the blocks of a request without content loses nobody's content |
| KvCacheContent.AgreesSamePool | src/cloud_engine/cache.py:497-501 | growing tables and dropping tables or entries keeps the content agreement |
| KvCacheStats.StatsFacts | src/cloud_engine/cache.py:503-526 | request blocks used are the sum of the table lengths; occupied slots never exceed reserved ones; with tight tables the waste is under a block per request |
| Allocator.FreeCheckMeaning | src/cloud_engine/cache.py:130-140 | the checks of free pass exactly for duplicate-free lists of blocks owned by the caller |
| Allocator.AllocateFacts | src/cloud_engine/cache.py:120-128 | an allocation hands over free blocks and leaves every other owner's blocks alone |
| Allocator.FreedFacts | src/cloud_engine/cache.py:141-143 | freeing one owner's blocks keeps the partition and every other owner's blocks |
| Allocator.BlocksPartitioned | src/cloud_engine/cache.py:150-156 | free and owned blocks are together exactly 0..total-1, and disjoint |
| Allocator.BlocksForIsLeast | src/cloud_engine/cache.py:108-111 | the block count is the least whose slots hold the tokens |
| Allocator.BlockAllocator.constructor | src/cloud_engine/cache.py:89-99 | every block is free, none owned |
| Allocator.BlockAllocator.BlocksNeeded | src/cloud_engine/cache.py:108-111 | returns the least number of blocks for the tokens |
| Allocator.BlockAllocator.Allocate | src/cloud_engine/cache.py:120-128 | pops from the end of the free list, or fails and changes nothing |
| Allocator.BlockAllocator.Free | src/cloud_engine/cache.py:130-143 | frees exactly duplicate-free lists of the caller's blocks; any error changes nothing |
| Allocator.BlockAllocator.FreeFor | src/cloud_engine/cache.py:145-148 | gives back everything the owner holds |
| PagedCache.PagedKVCache.constructor | src/cloud_engine/cache.py:247-285 | an empty cache over a fresh allocator |
| PagedCache.PagedKVCache.EvictPrefixes | src/cloud_engine/cache.py:287-296 | the rotating loop terminates in the specified state |
| PagedCache.PagedKVCache.RestorePrefix | src/cloud_engine/cache.py:298-324 | leaves the specified state and returns the restored length |
| PagedCache.PagedKVCache.StorePrefix | src/cloud_engine/cache.py:326-357 | leaves the specified state and returns the stored length |
| PagedCache.PagedKVCache.MakeRoom | src/cloud_engine/cache.py:340-344 | entries leave oldest first until the new one fits the prefix budget |
| PagedCache.PagedKVCache.Reserve | src/cloud_engine/cache.py:360-369 | a duplicate or a shortage is reported and changes nothing |
| PagedCache.PagedKVCache.EnsureCapacityBatch | src/cloud_engine/cache.py:371-396 | the error raised and the state left are the specified ones |
| PagedCache.PagedKVCache.CopyPool | src/cloud_engine/cache.py:316-318 | layer by layer the selected source blocks land on the target blocks |
| PagedCache.PagedKVCache.SlotMapping | src/cloud_engine/cache.py:415-425 | raises exactly for unequal lengths or a position no table covers |
| PagedCache.PagedKVCache.AppendSlots | src/cloud_engine/cache.py:398-413 | writes one layer of the pool and no other |
| PagedCache.PagedKVCache.CommitLengths | src/cloud_engine/cache.py:427-431 | commits in order and stops with an error at the first length its table does not cover |
| KvCacheStats.AllocatedIsLeast | src/cloud_engine/cache.py:433-434 | the slots a request holds are whole blocks and cover its committed tokens, none without a table; with tight tables they are the least multiple of the block size that does |
| PagedCache.PagedKVCache.Release | src/cloud_engine/cache.py:497-501 | leaves the specified state |
| PagedCache.PagedKVCache.View | src/cloud_engine/cache.py:460-489 | raises exactly when the table does not cover the length; otherwise the logical window in order |
| PagedCache.PagedKVCache.Stats | src/cloud_engine/cache.py:503-526 | the counters in terms of tables, lengths and entries |
| RaggedEngine.PackLists | src/cloud_engine/engine.py:238-262 | the packing loop grows its ten lists to the specified ones |
| RaggedEngine.TableWidth | src/cloud_engine/engine.py:265-270 | the fixed width of graph mode, else the widest table |
| RaggedEngine.TableRows | src/cloud_engine/engine.py:271-279 | fails exactly when some table is wider than the tensor |
| RaggedEngine.RaggedRunner.Admit | src/cloud_engine/engine.py:218-222 | an empty table and the restored length, or the reservation's refusal with nothing changed |
| RaggedEngine.RaggedRunner.Release | src/cloud_engine/engine.py:224-226 | store, then release |
| RaggedEngine.RaggedRunner.Pack | src/cloud_engine/engine.py:231-301 | the capacity transaction, then the packed tensors |
| RaggedEngine.RaggedRunner.CountGraph | src/cloud_engine/engine.py:358-408 | an unseen size is captured with its rows; a seen one is replayed unless the rows do not copy |
| RaggedEngine.RaggedRunner.WarmGraphs | src/cloud_engine/engine.py:410-437 | one full capture per power of two up to the active limit |
| RaggedEngine.RaggedRunner.ExecuteBatch | src/cloud_engine/engine.py:439-488 | outcome and cache are the specified ones; a captured bucket is not captured again |
| RaggedEngine.RaggedRunner.Run | src/cloud_engine/engine.py:459-488 | forward, commit and sampling, through the padded batch in graph mode |
| SchedulerLoop.Scheduler.constructor | src/cloud_engine/scheduler.py:205-230 | nothing submitted, nothing resident |
| SchedulerLoop.Scheduler.Submit | src/cloud_engine/scheduler.py:233-254 | the rejection and the state are the specified ones |
| SchedulerLoop.Scheduler.Cancel | src/cloud_engine/scheduler.py:275-283 | idempotent; a request in flight is only marked, any other is finalized |
| SchedulerLoop.Scheduler.Iterate | src/cloud_engine/scheduler.py:367-379 | one turn up to the plan leaves the specified state |
| SchedulerLoop.Scheduler.Reap | src/cloud_engine/scheduler.py:562-579 | timed-out waiters first, then consumers stalled too long |
| SchedulerLoop.Scheduler.DrainActiveStreams | src/cloud_engine/scheduler.py:429-436 | every active stream is drained as far as its queue allows |
| SchedulerLoop.Scheduler.AdmitWaiting | src/cloud_engine/scheduler.py:438-457 | the queue head is admitted until the limit, a preempted head among others, or the end of the queue |
| SchedulerLoop.Scheduler.BuildBatchPlan | src/cloud_engine/scheduler.py:459-518 | the loop over the sorted candidates builds the specified plan |
| SchedulerLoop.Scheduler.Execute | src/cloud_engine/scheduler.py:520-525 | the forward and its outcome; fed counts move only if it completed |
| SchedulerLoop.Scheduler.AfterToken | src/cloud_engine/scheduler.py:581-607 | the token is recorded and published, and the request finalized exactly at a stop |
| SchedulerLoop.Scheduler.PostItem | src/cloud_engine/scheduler.py:403-424 | one item of a completed forward |
| SchedulerLoop.Scheduler.PostCrashed | src/cloud_engine/scheduler.py:396-400 | every request of a failed plan is failed, or finalized if already terminal |
| SchedulerLoop.Scheduler.PostCapacity | src/cloud_engine/scheduler.py:383-395 | preempt, or reject the plan's unfinished requests |
| SchedulerLoop.Scheduler.PreemptForCapacity | src/cloud_engine/scheduler.py:527-553 | preempts the victim exactly when two or more residents are unfinished, else changes nothing |
| SchedulerLoop.Scheduler.PickVictim | src/cloud_engine/scheduler.py:528-542 | the specified victim, none when at most one resident is unfinished |
| SchedulerLoop.Scheduler.Publish | src/cloud_engine/scheduler.py:609-617 | append and drain |
| SchedulerLoop.Scheduler.DrainPending | src/cloud_engine/scheduler.py:619-629 | events move in order until the queue is full; the stall clock starts or stops |
| SchedulerLoop.Scheduler.Fail | src/cloud_engine/scheduler.py:631-638 | a terminal request is left alone |
| SchedulerLoop.Scheduler.Finalize | src/cloud_engine/scheduler.py:640-668 | detached from both lists and the cache, STOP behind everything undelivered, the future resolved, the outcome counted |
| SchedulerLoop.Scheduler.Post | src/cloud_engine/scheduler.py:380-426 | the branch of the outcome, with nothing marked in flight |
| SchedulerLoop.Scheduler.ExecuteFails | src/cloud_engine/scheduler.py:396-400 | a forward that raises has grown tables and written its slots, and no fed count has moved |
| SchedulerLoop.Scheduler.ExecuteFailsLate | src/cloud_engine/scheduler.py:396-400 | a failure while sampling comes after the commit, and fed counts have moved |
| SchedulerLoop.Scheduler.Apply | src/cloud_engine/scheduler.py:367-427 | the handler of any event leaves the state the step machine names, and keeps the invariant |
| SchedulerLoop.Scheduler.Serve | src/cloud_engine/scheduler.py:367-427 | any sequence of events leaves the state of its run, and the invariant: the run theorems hold of the object |
| AttentionKernels.PagedDecodeHead | src/cloud_engine/kernel.py:284-317 | the decode program computes softmax attention of the query over keys 0..seq_len-1 read through the block table, for every length and block boundary |
| AttentionKernels.RaggedHead | src/cloud_engine/kernel.py:358-401 | the ragged program computes softmax attention over positions 0..position read through the block table |
| AttentionKernels.RaggedAttention | src/cloud_engine/kernel.py:153-240 | row t of the launch is the attention of token t over its own sequence up to its position, for every head |
| AttentionKernels.StateStep | src/cloud_engine/kernel.py:364-396 | one more 16-key tile keeps: m is the maximum, l the plain and acc the weighted sums of exp(score - m) over the valid keys so far |
| OnlineSoftmax.Rescale | src/cloud_engine/kernel.py:378-395 | moving the running maximum rescales both sums by one factor |
| OnlineSoftmax.SoftmaxFrom | src/cloud_engine/kernel.py:398-401 | the normalized result does not depend on the reference point |
| OnlineSoftmax.Normalized | src/cloud_engine/kernel.py:398-401 | after the last tile acc / l is softmax attention, and l is positive |
| AttentionKernels.MaskedRowIsPrefix | src/cloud_engine/attention.py:101-112 | the causal mask over a longer view is attention over the prefix the row may see |
| AttentionKernels.ReferenceRows | src/cloud_engine/attention.py:88-112 | query i of a range is attention over positions 0..past_len + i of the view |
| AttentionKernels.ReferenceAttention | src/cloud_engine/attention.py:192-207 | the torch backend's rows are each token's attention over its own request up to its position |
| AttentionKernels.BackendsAgree | src/cloud_engine/attention.py:224-246 | on a packed plan whose tables cover its tokens the ragged kernel and the torch backend give the same rows |
| AttentionKernels.KernelForward | src/cloud_engine/model.py:205-221 | the layer loop with the ragged kernel over the paged pools: on a well-packed batch every row is the full recompute with softmax attention, at every layer |
| AttentionKernels.PaddedGather | src/cloud_engine/engine.py:271-279 | the zero padding of a block-table row is never read |
| AdmissionRuns.QuotaOverRuns | src/cloud_engine/api.py:157-190 | at every instant tokens admitted in the minute ending then and not rolled back are within the budget; active is the number of unreleased leases, within 0..max_concurrent |
| AdmissionRuns.RedisQuotaOverRuns | src/cloud_engine/api.py:211-246 | the Redis gate keeps the quota in every run, leases outlived or not |
| AdmissionRuns.RedisRefinesInProcess | src/cloud_engine/api.py:211-246 | when no lease outlives its lease time both gates answer every call alike with the same reason, hold the same multiset of reservations of the last minute, and the token keys list the same leases |
| AdmissionRuns.AcquireAlikeExactly | src/cloud_engine/api.py:211-237 | one acquisition is answered alike if and only if a slot is free in process or all slots are still taken in Redis |
| AdmissionRuns.OutlivedLease | src/cloud_engine/api.py:211-237 | two calls on which the gates differ: one slot held for the whole lease time |
| AdmissionRuns.SameReservations | src/cloud_engine/api.py:211-246 | on equal ledgers both gates hold each reservation of the last minute equally often |
| AdmissionRuns.RedisRetryOverRuns | src/cloud_engine/api.py:297-325 | over every run a token rejection of the Redis gate comes with a time after which no reservation standing now stands, and a second less would not be enough for one granted just now |
| AdmissionRuns.RetryOverRuns | src/cloud_engine/api.py:170-177 | over every run a token rejection of the in-process gate comes with the least number of seconds strictly longer than the oldest standing reservation has left; a whole window if nothing stands |
| RedisAdmission.RetryEmptiesWindow | src/cloud_engine/api.py:297-325 | the same of one call of the script, on any ledger in time order |
| RedisAdmission.VisibleTracks | src/cloud_engine/api.py:234-236 | the key TTLs never drop an entry of the last minute nor a lease still running |
| RedisAdmission.AcquireDecides | src/cloud_engine/api.py:211-237 | the script grants exactly when running leases leave a slot and standing reservations leave the tokens |
| RedisAdmission.SnapshotShows | src/cloud_engine/api.py:247-260 | the snapshot is the running leases and the standing reservations |
| Admission.AcquireFollows | src/cloud_engine/api.py:157-181 | the in-process gate grants exactly when unreleased leases leave a slot and standing reservations leave the tokens, and its counters follow the ledger |
| Admission.ReleaseFollows | src/cloud_engine/api.py:183-190 | release and rollback take exactly the lease's slot and reservation out |
| Admission.WindowWithinQuota | src/cloud_engine/api.py:170-179 | the window ending at any instant is within the quota if every grant was |
| Admission.RetryAfterIsEnough | src/cloud_engine/api.py:170-177 | after the advertised seconds the oldest reservation has left the window; more than a second earlier it has not |
| TenantGates.TenantLease.Release | src/cloud_engine/api.py:138-141 | only the first release reaches the gate; other tenants are untouched |
| TenantGates.TenantLease.ReleaseRemote | src/cloud_engine/api.py:138-141 | the same lease over the Redis gate: only the first release reaches the script, and other tenants are untouched |
| TenantGates.TenantGate.Acquire | src/cloud_engine/api.py:157-181 | verdict, counters and lease are the specified ones; other tenants are untouched |
| TenantGates.TenantGate.Release | src/cloud_engine/api.py:183-190 | the slot and, on rollback, one equal reservation go |
| TenantGates.TenantGate.Snapshot | src/cloud_engine/api.py:192-205 | slots in use and tokens stamped in the last minute |
| TenantGates.RedisTenantGate.Acquire | src/cloud_engine/api.py:297-325 | the script's effect on the tenant's keys, and the lease |
| TenantGates.RedisTenantGate.Release | src/cloud_engine/api.py:327-337 | the release script's effect on the tenant's keys |
| TenantGates.ServeLocally | src/cloud_engine/api.py:157-205 | any calls of one tenant on the in-process gate object: every answer and the account at the end are those of the run |
| TenantGates.ServeRemotely | src/cloud_engine/api.py:297-359 | the same on the Redis gate object |
| TenantGates.ServeBoth | src/cloud_engine/api.py:157-205 | the two gate objects side by side answer every call alike if no lease is outlived, and the quota holds at every instant |
| TenantGates.RedisTenantGate.Snapshot | src/cloud_engine/api.py:339-359 | the snapshot script's result and trimming |

## Left out

- SchedulerRun.TokenParity: in graph mode it assumes the production policy or the limits of `ParityExactly`, because with any other limits some policy and run give a request other requests' tokens (`Misrouted`).
- SchedulerTight.NoCrashOverRuns: it assumes the limits of `RaisesExactly` and prompts within the blocks of the context, because otherwise a forward can raise (`CohortCrashes`, `LongPromptRaises`); `CrashExactly` assumes nothing.
- SchedulerLoop.Scheduler.Apply: a forward that raises is assumed to have written at most the slots of its batch; what it has written is an argument.
- SchedulerEffects.DeliveredOverRuns: it exempts a request readmitted by the same iteration, because draining comes before admission (`ReadmittedUndrained`).
- SchedulerStreams.StreamsOverRuns: it states order and loss-freedom, not delivery, because nobody drains the pending events of a finalized request (`PendingForGood`).
- SchedulerTight.TightOverRuns: it exempts terminal residents from having something left to feed, because a request cancelled during a forward that runs out of capacity stays active (`StuckForGood`).
- AdmissionRuns.RedisRefinesInProcess: the seconds of a token rejection are not compared, because the Redis gate always advertises 60 and the in-process gate what its oldest reservation has left; `RedisRetryOverRuns` and `RetryOverRuns` say what each is good for.
- PagedCache.PagedKVCache.RestorePrefix: it asks for a non-empty prompt, because submission rejects empty ones; the same holds for StorePrefix.
- Transformer.NaiveRunner.Step: the replay of near-ties is a no-op in exact arithmetic and is not modelled.
- Floating point, FP16 near-ties, quantization, the rotary embedding and normalization formulas, tensor shapes and strides: exact reals and uninterpreted per-token functions stand for them.
- Triton launch mechanics, CUDA streams, graph capture internals and device placement; of a captured graph only its batch size and number of logit rows are kept. The forwards that start-up captures run are not modelled: they write only slots no request owns yet. Capturing at start-up is assumed to have happened, as the engine does it.
- Threads and asyncio: `execute_batch` is one step between plan and post-processing, and a cancel that releases another request's blocks while the worker thread runs is placed before or after it.
- A handler reads the clock once per step, where the code reads it again when a drain begins to stall or a sampled token is stamped.
- Requests are records in a store indexed by submission number, not objects; aliasing of a record held by a caller is not captured. Plan items name their request by that number.
- Request ids and lease ids never collide; the Redis gate's ids are numbered in grant order.
- Priority tuples of anything but integers.
- The serial scheduler loop, `ContiguousKVCache`, `CachedRunner` and the single-sequence decode backend.
- `drain`, `start` and `stop` of the scheduler, and termination of the loop as wall-clock liveness; that finitely many submissions cause finitely many forwards is proved.
- HTTP routes, authentication, payload validation, event rendering, Prometheus text, command line, console and demo.
- Real Redis, network failures and clock skew between replicas: both gates run on one monotone integer clock.
- Latency windows, percentiles and other metrics beyond the terminal counters, preemptions, forwards and tokens; recomputed tokens are counted per request, without their sum.
- Weight loading, tokenizer, deployment, benchmarks, profiling and experiment scripts.
