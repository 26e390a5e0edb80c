# Verified model of the inference gateway extension

This project models, in Dafny, the parts of the Gateway API inference extension whose behaviour
only shows over whole runs, and proves what they keep.  `dafny verify dfyconfig.toml` checks all
of it.

- **Continuous batching** (`Batching`, `BatchingSteps`, `BatchingRuns`, `BatchingOrder`, `LlmActor`).  One LLM actor
  of the simulator: requests move between the prefill, recompute, decode and decoded stores; each
  iteration admits a batch under three limits, or evicts the newest sequences and decodes one token
  for the rest.  `LlmActor` is the imperative code over the stores; the other modules state and
  prove conservation, the KV-cache bound, minimal eviction of the newest, order and progress.
- **Streaming server** (`Json`, `Streaming`, `StreamingServer`, `StreamingOrder`, `StreamingChunks`,
  `StreamingForwards`, `StreamingErrors`, `StreamingMetrics`, `StreamingLengths`, `StreamingBodies`, `FrontEnd`).  The
  full-duplex ext-proc stream as a machine that takes one event at a time; datastore, scheduler, front
  end, random choices and the success of each send are parameters (`Env`) that may differ from event
  to event.
  `FrontEnd` models the nested map that the request and the front-end call share on the heap.
- **Event-stream reader** (`Sse`, `SseFormat`) and **weighted draw** (`WeightedDraw`) of the same server.
- **Datastore and reconcilers** (`Kube`, `Models`, `Pods`, `Refresher`, `Datastore`).  The caches of
  InferenceModels and pods over runs of API changes and reconciles, each reconcile being one step;
  and the metrics refreshers with the steps of concurrent calls interleaved.
- **Filter-tree scheduler** (`FilterTree`, `FilterLoops`, `FilterQuality`, `FilterReads`).  The decision
  chart over list filters on one metrics snapshot; the coin of the LoRA filter and the final pick are
  arbitrary.  `FilterReads` lets every single read of the metrics return something else, and agrees
  with the snapshot if none does.
- **Metric specifications** (`Text`, `MetricSpec`).  The parser and the exact grammar it accepts.

Loops and in-place updates of the source are methods (with classes for `LLMActor`, the stream, the
datastore and the JSON maps) proved against functions on values; the theorems are about those
functions.  JSON decoding and encoding are uninterpreted.  Integer widths are written out where they
matter (the int32 sum of weights); ratios such as `tokens / budget >= 0.9` are compared exactly.

Where the code and its own text disagree, the model follows the code:

- A comment says that a response that cannot be decoded is passed through.  The code sends the
  encoding of a nil map in its place; `PassedThroughIff` gives the exact condition for passing through.
- Deletion in the pod reconciler and the bulk resync differ on terminating pods; `ResyncVersusEach`
  says exactly when they agree.
- "The oldest InferenceModel wins" fails when an object is deleted and created again before the
  deletion is processed, under its old name (`UnseenRecreation`) or under a new one
  (`RenamedRecreation`).  `StepExact` and `RunExact` say exactly which reconciles break the rule, and
  `ObservedIsClean` that none does if deletions are processed first.
- A cleared store is not refilled (`ClearedStoreStaysEmpty`); `QuiescentIsExact` says exactly when the
  store is complete.
- The API text promises an error for a model whose weights are all zero; `Int31n` panics there
  (`ZeroWeightsPanic`).  `PanicsExactly` gives the condition for all int32 weights; the validation of
  InferenceModel (weights from 1 to 1000000) keeps such objects out.
- Calls that add the same pod concurrently can leave a refresher that nobody can stop
  (`RacingAddsLose`, `LostForever`), and so does clearing the store; `LostExactly` and
  `NothingLostExactly` say exactly when.
- The gauge counts a request up under one model and down under another if a later body on the same
  stream is routed to another model (`TwoBodiesUnbalanced`; exactly when: `GaugeExact`).
- The Content-Length of a request is missing if its body follows headers that announced none
  (`BareOpeningDisagrees`; exactly when: `HeaderAnnouncesBody`).
- The last line of an event stream is dropped if it is not terminated (`UnfinishedLineIgnored`).

## Model

| member | source | states |
|---|---|---|
| Batching.ShareIsExact | tools/simulations/llm_ig_simulation/src/continous_batching.py:117-119 | comparing ten times the tokens with nine times the budget is the division by the budget compared with 0.9, for every positive budget |
| LlmActor.LLMActor.NumTokensInDecode | tools/simulations/llm_ig_simulation/src/llmactor.py:21-29 | the token sum of the decode store |
| LlmActor.LLMActor.CanPrefillItems | tools/simulations/llm_ig_simulation/src/continous_batching.py:10-43 | the guard is true exactly when the fetch would return at least one item |
| LlmActor.LLMActor.FetchFromRecompute | tools/simulations/llm_ig_simulation/src/continous_batching.py:51-66 | pops the longest prefix of the recompute queue that fits item by item |
| LlmActor.LLMActor.FetchFromPrefill | tools/simulations/llm_ig_simulation/src/continous_batching.py:68-83 | the same for the prefill queue, continuing the counts |
| LlmActor.LLMActor.FetchPrefillItems | tools/simulations/llm_ig_simulation/src/continous_batching.py:45-85 | returns the batch and leaves the rest of both queues |
| LlmActor.LLMActor.ProcessPrefillItems | tools/simulations/llm_ig_simulation/src/continous_batching.py:87-115 | loads adapters, generates one token per item and files it as decoding or decoded; the assertion on the remaining output always holds |
| LlmActor.LLMActor.RecomputeNewest | tools/simulations/llm_ig_simulation/src/continous_batching.py:124-131 | looking the newest sequence up by id removes exactly the last one |
| LlmActor.LLMActor.RemoveFromDecodeStore | tools/simulations/llm_ig_simulation/src/continous_batching.py:121-131 | the eviction loop terminates, keeps the invariant and computes `Evict` |
| LlmActor.LLMActor.DecodeItems | tools/simulations/llm_ig_simulation/src/continous_batching.py:133-163 | one token for every sequence, survivors and finished ones filed in order; the negative-remainder error cannot occur |
| LlmActor.LLMActor.PrefillOrDecode | tools/simulations/llm_ig_simulation/src/continous_batching.py:173-191 | one iteration computes `Iterate`, keeps the invariant and loses no request |
| BatchingSteps.HeadIsLeast | tools/simulations/llm_ig_simulation/src/llmactor.py:14-14 | the head of the recompute queue has the least id |
| BatchingSteps.BeforeExact | tools/simulations/llm_ig_simulation/src/llmactor.py:14-14 | ids are compared lexicographically: a proper prefix, or the smaller character at the first difference |
| BatchingSteps.GuardMatchesFetch | tools/simulations/llm_ig_simulation/src/continous_batching.py:6-85 | guard and fetch agree in every state |
| BatchingSteps.BatchLimits | tools/simulations/llm_ig_simulation/src/continous_batching.py:45-85 | sequence limit, at most 512 input tokens per batch, and the KV-cache share at admission of the last item |
| BatchingSteps.FetchIsGreedy | tools/simulations/llm_ig_simulation/src/continous_batching.py:45-85 | recomputed requests come first, and each queue is left only at its end or at a request that would exceed 256 sequences or 512 batch tokens, or with the cache at 0.9 of the budget |
| BatchingSteps.PrefillIteration | tools/simulations/llm_ig_simulation/src/continous_batching.py:180-185 | a prefill iteration keeps invariant and census, generates one token per admitted item and bounds the cache |
| BatchingSteps.EvictMinimal | tools/simulations/llm_ig_simulation/src/continous_batching.py:121-131 | eviction removes exactly the shortest newest-first suffix that restores the bound, into the recompute queue |
| BatchingSteps.EvictedCounted | tools/simulations/llm_ig_simulation/src/continous_batching.py:128-131 | an evicted sequence waits for recompute unchanged but for its count of recomputes, which goes up by one; nothing else is added |
| BatchingSteps.SurvivorsInOrder | tools/simulations/llm_ig_simulation/src/continous_batching.py:142-161 | a decode pass keeps survivors in order |
| BatchingSteps.DecodeIteration | tools/simulations/llm_ig_simulation/src/continous_batching.py:186-191 | a decode iteration keeps invariant and census, generates one token per survivor and ends within 0.9 of the budget |
| BatchingRuns.Conservation | tools/simulations/llm_ig_simulation/src/continous_batching.py:87-163 | along every run the invariant holds (positive remainders in decode and recompute, zero in decoded, at most 256 decoding, budget minus loaded adapters) and the stores hold exactly what arrived |
| BatchingRuns.ExactlyOneStore | tools/simulations/llm_ig_simulation/src/llmactor.py:8-19 | each arrived request is in exactly one of the four stores, once |
| BatchingRuns.CacheBound | tools/simulations/llm_ig_simulation/src/continous_batching.py:45-163 | the numeric KV-cache bound after every iteration of every run |
| BatchingRuns.TwoIterations | tools/simulations/llm_ig_simulation/src/continous_batching.py:173-191 | two consecutive iterations of a busy actor generate a token, whatever arrives in between |
| BatchingRuns.BusyBound | tools/simulations/llm_ig_simulation/src/continous_batching.py:173-191 | no run has more busy iterations than twice the output tokens asked for |
| BatchingRuns.Drains | tools/simulations/llm_ig_simulation/src/continous_batching.py:173-191 | without new arrivals everything is decoded within twice the sum of output sizes, also a request too large for the cache |
| BatchingOrder.PrefillAppends | tools/simulations/llm_ig_simulation/src/continous_batching.py:87-115 | after a prefill iteration the decoding sequences are where they were, followed by the fetched items with output left, in fetch order and one token further; the others are decoded and the adapters loaded |
| BatchingOrder.DecodeShape | tools/simulations/llm_ig_simulation/src/continous_batching.py:186-191 | any other iteration keeps the longest prefix of the decode store that restores the bound, decodes one token of each, files the finished ones in order and changes no other queue |
| BatchingOrder.FinishedInOrder | tools/simulations/llm_ig_simulation/src/continous_batching.py:155-161 | finished sequences are filed in order |
| BatchingOrder.DecodeInOrder | tools/simulations/llm_ig_simulation/src/continous_batching.py:108-108 | along every run the decode store is in the order of admission |
| BatchingOrder.NewestIsEvicted | tools/simulations/llm_ig_simulation/src/continous_batching.py:125-131 | along every run, a sequence that an iteration evicts was admitted later than every decoding sequence it does not evict |
| BatchingOrder.ArrivalsInOrder | tools/simulations/llm_ig_simulation/src/continous_batching.py:68-83 | along every run, what waits for prefill is the end of the list of arrivals: new requests are served in their order |
| FilterLoops.FilterByPredicate | pkg/epp/scheduling/filter.go:98-112 | keeps the passing pods in order, or reports that none is left |
| FilterLoops.LeastQueuingFilterFunc | pkg/epp/scheduling/filter.go:121-141 | keeps the pods of the first queue range; nothing is divided for an empty list |
| FilterLoops.LeastKvCacheFilterFunc | pkg/epp/scheduling/filter.go:153-173 | the same for the KV-cache usage |
| FilterLoops.LoraSoftAffinityFilter | pkg/epp/scheduling/filter.go:204-238 | returns the affine or the available pods, by coin only if both exist |
| FilterTree.RunSublist | pkg/epp/scheduling/filter.go:62-92 | every chart built from the filters returns a sublist of its input |
| FilterReads.RunFilter | pkg/epp/scheduling/filter.go:62-92 | the same if every read of the metrics may return something else; and if none does, the result is that of the chart on the snapshot |
| FilterQuality.SelectCount | pkg/epp/scheduling/filter.go:98-112 | a predicate filter keeps every passing pod as often as it is listed |
| FilterQuality.LeastQueuingExact | pkg/epp/scheduling/filter.go:114-141 | the queue filter keeps exactly the pods in the first of n equal ranges between the shortest and the longest queue, and never none |
| FilterQuality.LeastQueuingBetween | pkg/epp/scheduling/filter.go:121-141 | p is kept if and only if n times its distance from the shortest queue is at most the distance of the longest from the shortest |
| FilterQuality.LeastKvCacheExact | pkg/epp/scheduling/filter.go:147-173 | the same for the KV-cache filter; a largest usage below zero counts as zero |
| FilterQuality.LoraAffinityExact | pkg/epp/scheduling/filter.go:188-238 | the filter keeps all pods with the adapter if there are any and the coin or the lack of others says so, and else all others with a free slot; so only cheap pods remain, and none only if there are none |
| FilterQuality.RunDefault | pkg/epp/scheduling/scheduler.go:69-131 | the whole default chart reduced to one expression per branch, and when it is empty |
| FilterQuality.ExactAdmission | pkg/epp/scheduling/scheduler.go:146-159 | who gets a pod, if and only if, and that it is a pod of the pool (within both thresholds for a non-critical request) |
| FilterQuality.EveryCandidate | pkg/epp/scheduling/scheduler.go:146-159 | every pod the chart leaves is picked by some random number |
| FilterQuality.CriticalQuality | pkg/epp/scheduling/scheduler.go:91-110 | which pod a critical request is sent to: the LoRA group, the first queue range and the first cache range, in the order of the branch, over the pods below the threshold or over all |
| FilterQuality.SheddableQuality | pkg/epp/scheduling/scheduler.go:112-130 | which pod any other request is sent to: over the pods within both thresholds, the first queue range, the LoRA group and the first cache range |
| WeightedDraw.SumWeights | pkg/epp/handlers/streamingserver.go:816-819 | the int32 sum, or the dereference of a missing weight |
| WeightedDraw.RandomWeightedDraw | pkg/epp/handlers/streamingserver.go:801-830 | the result for every possible random value, overflow and panics included |
| WeightedDraw.NoOverflow | api/v1alpha2/inferencemodel_types.go:165-178 | for validated targets no partial int32 sum overflows |
| WeightedDraw.ExactShares | pkg/epp/handlers/streamingserver.go:821-829 | exactly weight[i] random values select target i, the shares are disjoint, and together they are all the random values |
| WeightedDraw.Proportional | pkg/epp/handlers/streamingserver.go:801-830 | each name comes out for as many random values as its weights add up to, and no value falls through to the empty result |
| WeightedDraw.PanicsExactly | pkg/epp/handlers/streamingserver.go:801-830 | for all int32 weights, the draw panics if and only if the first weight is set and another is missing or the true total is zero or a negative int32 modulo 2^32 |
| WeightedDraw.ZeroWeightsPanic | pkg/epp/handlers/streamingserver.go:816-820 | weights that are all zero panic for every random value |
| WeightedDraw.Uniform | pkg/epp/handlers/streamingserver.go:811-814 | if the first target has no weight, every random value yields a listed name, and each name comes out as often as it is listed |
| Sse.BufferTrims | pkg/epp/handlers/streamingserver.go:773-793 | the buffers hold, up to trimming, the values joined by line feeds |
| Sse.ReadWorkerId | pkg/epp/handlers/streamingserver.go:674-799 | the incremental reader returns the verdict of the first deciding block, for every stream and either way of ending |
| Sse.EarlierBlocksForgotten | pkg/epp/handlers/streamingserver.go:760-770 | blocks that decide nothing do not affect later ones |
| Sse.LaterTextIgnored | pkg/epp/handlers/streamingserver.go:742-799 | nothing after the deciding block matters |
| Sse.UnfinishedLineIgnored | pkg/epp/handlers/streamingserver.go:742-757 | a last line without line feed does not affect the result |
| SseFormat.LineExact | pkg/epp/handlers/streamingserver.go:773-793 | what a line means: comment, field, or nothing |
| SseFormat.CarriageReturns | pkg/epp/handlers/streamingserver.go:759-759 | a line may end in CR LF as well as in LF |
| SseFormat.CollectedInOrder | pkg/epp/handlers/streamingserver.go:773-793 | data values and comments are collected in order |
| SseFormat.CollectedOnly | pkg/epp/handlers/streamingserver.go:773-793 | nothing else is collected, and the last event line names the event |
| SseFormat.BlockTable | pkg/epp/handlers/streamingserver.go:682-740 | what a stream answers that begins with a given block: done, the worker it names and how, or else whatever the rest answers |
| SseFormat.LastBlock | pkg/epp/handlers/streamingserver.go:742-757 | the block cut off by the end of the stream counts if the stream ends normally; else a read error is reported |
| SseFormat.SpecialEvent | pkg/epp/handlers/streamingserver.go:669-716 | the documented block with the id on a comment line, or on a data line, as a JSON string or plain, yields that id whatever follows |
| SseFormat.JsonObject | pkg/epp/handlers/streamingserver.go:718-738 | a data line with a JSON object yields the id at its root, or else under its annotations |
| SseFormat.DoneMarker | pkg/epp/handlers/streamingserver.go:688-692 | the end marker on a data line or in a comment ends the search |
| Models.OldestIsOldest | pkg/epp/datastore/datastore.go:165-181 | the resync picks an eligible object of minimal creation time |
| Models.FirstOldest | pkg/epp/datastore/datastore.go:165-176 | of several oldest candidates the first of the listing is taken |
| Models.ReconcileServes | pkg/epp/datastore/datastore.go:137-149 | after the reconcile of a live object its name is served by it, unless by another object that is strictly older; no other name changes |
| Models.StepExact | pkg/epp/datastore/datastore.go:133-200 | a step keeps the rule (entries current and under their own name, none younger than a known object of its name) if and only if it is not a reconcile that finds an earlier incarnation of its object under another name, one under its own name with an older known object beside it, or, for a deleted object, a second entry |
| Models.RunExact | pkg/epp/controller/inferencemodel_reconciler.go:43-99 | a run keeps the rule throughout if and only if all its reconciles are clean in this sense |
| Models.ObservedIsClean | pkg/epp/controller/inferencemodel_reconciler.go:43-99 | they are if every deletion is processed before the object is created again |
| Models.OldestWins | pkg/epp/controller/inferencemodel_reconciler.go:43-99 | along every clean run each known eligible object is served by an entry no younger than it |
| Models.QuiescentIsExact | pkg/epp/datastore/datastore.go:133-200 | after a clean run with nothing pending the store holds exactly one oldest eligible object per model name, if and only if for every eligible object one of its name that is no younger was reconciled or backfilled since the store was last cleared |
| Models.ObservedIsExact | pkg/epp/datastore/datastore.go:133-200 | which is so if deletions are processed in time and the store was never cleared |
| Models.UnseenRecreation | pkg/epp/datastore/datastore.go:137-149 | a concrete run in which an unseen re-creation puts a younger object in charge |
| Models.RenamedRecreation | pkg/epp/datastore/datastore.go:137-149 | a concrete run in which an unseen re-creation under another name leaves a deleted object in charge, and it stays so in every continuation that keeps the new object eligible, does not clear the store and creates no object with an older date |
| Models.ClearedStoreStaysEmpty | pkg/epp/datastore/datastore.go:95-101 | a run, for every eligible object, in which a cleared store stays without it and nothing is pending |
| Pods.PodIsReady | pkg/epp/datastore/datastore.go:313-323 | the loop decides readiness |
| Pods.ReadyExact | pkg/epp/controller/pod_reconciler.go:86-96 | ready means that the first Ready condition is true |
| Pods.ResyncExact | pkg/epp/datastore/datastore.go:249-283 | a resync stores exactly the pods that carry the selector's labels with their values and whose first Ready condition is true, under their addresses |
| Pods.ResyncVersusEach | pkg/epp/datastore/datastore.go:249-283 | a resync equals reconciling every pod singly in any order if and only if no ready pod of the pool is terminating |
| Pods.CacheAgrees | pkg/epp/controller/inferencepool_reconciler.go:71-85 | along every run each settled pod is stored exactly when it is not terminating, carries the selector's labels with their values and is ready, under its address |
| Refresher.NoDoubleClose | pkg/epp/datastore/datastore.go:231-291 | in every interleaving no channel is closed twice and each stored refresher is under its own name |
| Refresher.LostForever | pkg/epp/backend/metrics/pod_metrics.go:83-105 | a refresher outside the map and outside any call is never stopped |
| Refresher.RacingAddsLose | pkg/epp/datastore/datastore.go:231-247 | two concurrent adds of one pod can lose a refresher |
| Refresher.LostExactly | pkg/epp/datastore/datastore.go:95-101 | a step loses a refresher if and only if it stores over its entry or clears the map while it is stored |
| Refresher.NothingLostExactly | pkg/epp/datastore/datastore.go:231-291 | an interleaving loses no refresher if and only if no store of it finds an entry under its key and no clear finds a non-empty map |
| Refresher.AtomicCallsBalance | pkg/epp/datastore/datastore.go:231-291 | a call that runs alone keeps refreshers and stored pods in one-to-one correspondence |
| Refresher.AtomicRunsBalance | pkg/epp/datastore/datastore.go:231-291 | and so does every sequence of such calls |
| Refresher.InitiallyBalanced | pkg/epp/datastore/datastore.go:71-80 | the store as it is created has no refresher and no pod, so these theorems apply to it |
| Refresher.ClearLoses | pkg/epp/datastore/datastore.go:95-101 | clearing the store loses every running refresher |
| Datastore.PodMetrics.StopRefreshLoop | pkg/epp/backend/metrics/pod_metrics.go:136-139 | closes the channel of a refresher that is not stopped yet |
| Datastore.Datastore.Clear | pkg/epp/datastore/datastore.go:95-101 | forgets pool, models and pods |
| Datastore.Datastore.ModelSetIfOlder | pkg/epp/datastore/datastore.go:133-150 | the new map, and whether the object is now stored |
| Datastore.Datastore.ModelResync | pkg/epp/datastore/datastore.go:152-182 | stores the oldest eligible object of the listing, if there is one |
| Datastore.Datastore.ModelDelete | pkg/epp/datastore/datastore.go:190-200 | removes the entry of the object wherever it is, or reports that there is none |
| Datastore.Datastore.PodUpdateOrAddIfNotExist | pkg/epp/datastore/datastore.go:231-247 | the pod is stored with its address; an existing refresher is kept |
| Datastore.Datastore.PodResyncAll | pkg/epp/datastore/datastore.go:249-283 | both loops together compute `ResyncAll`, leave no stopped refresher stored and stop the refresher of every pod they drop |
| Datastore.Datastore.PodDelete | pkg/epp/datastore/datastore.go:285-291 | the pod is gone and its refresher stopped once |
| Datastore.ReconcileModel | pkg/epp/controller/inferencemodel_reconciler.go:43-99 | set, or delete and backfill from the listing; it panics exactly if the entry of a deleted object is found before the pool is set, and what is then left |
| Datastore.ReconcileModelStep | pkg/epp/controller/inferencemodel_reconciler.go:43-99 | one reconcile that does not panic is one step of the runs of `Models` |
| Datastore.ReconcilePod | pkg/epp/controller/pod_reconciler.go:41-84 | stores or deletes the pod by its current state and the stored pool |
| Datastore.ReconcilePodStep | pkg/epp/controller/pod_reconciler.go:41-84 | one reconcile is one step of the runs of `Pods` |
| Datastore.ReconcilePool | pkg/epp/controller/inferencepool_reconciler.go:44-85 | clear, or set the pool and resync if it was unset or its selector changed |
| Datastore.ReconcilePoolStep | pkg/epp/controller/inferencepool_reconciler.go:71-85 | one reconcile is one step of the runs of `Pods` |
| StreamingServer.Stream.HandleHeaderList | pkg/epp/handlers/streamingserver.go:145-176 | flags set by the response headers |
| StreamingServer.Stream.Process | pkg/epp/handlers/streamingserver.go:68-257 | the event loop computes `Run`; for every stream the messages are in order, the request body sent is the one the inputs say, exactly when its header announces it, the error counter is bumped once if an event was an error and else never, the gauge is raised for the first and lowered for the last routed request, and it is balanced if there was at most one complete body |
| StreamingOrder.SendOrder | pkg/epp/handlers/streamingserver.go:98-316 | the order of messages for every sequence of events; trailers never fire |
| StreamingErrors.HeadersExact | pkg/epp/handlers/streamingserver.go:145-156 | the error flag is set exactly by a status other than 200, the streaming flag exactly by a content type that mentions an event stream |
| StreamingErrors.ContainsExact | pkg/epp/handlers/streamingserver.go:152-152 | mentioning is being a substring |
| StreamingErrors.ErrorsExact | pkg/epp/handlers/streamingserver.go:83-92 | for every stream and exit path the error counter is bumped once if some handled event was a rejected request, headers without a body that find a pod but no port, or response headers with a bad status, and else never |
| StreamingMetrics.GaugeExact | pkg/epp/handlers/streamingserver.go:86-96 | for every stream and exit path the error counter is as above, and if the inputs make it forward a request body the gauge is raised for the first and lowered for the last of the requests that are routed, and else untouched; so it is balanced if and only if no body is forwarded or these two name the same model |
| StreamingMetrics.TwoBodiesUnbalanced | pkg/epp/handlers/streamingserver.go:86-96 | a concrete stream that counts x up and y down |
| StreamingMetrics.GaugeBalance | pkg/epp/handlers/streamingserver.go:272-282 | with at most one complete request body the gauge is raised and lowered once for the same model or not at all |
| StreamingChunks.RequestChunking | pkg/epp/handlers/streamingserver.go:119-142 | wherever a stream stands, a split request body acts as a single chunk, and only the environment at its end matters |
| StreamingChunks.ResponseChunking | pkg/epp/handlers/streamingserver.go:208-234 | the same for a response body that is not an event stream |
| StreamingChunks.EventStreamRelay | pkg/epp/handlers/streamingserver.go:179-207 | event-stream chunks are passed on one for one with their end marks, up to a send that fails |
| StreamingChunks.ExchangeChunking | pkg/epp/handlers/streamingserver.go:80-234 | a whole exchange ends in the same state however its bodies are cut and whatever the environments are before their last chunks |
| StreamingChunks.BufferNeverMixes | pkg/epp/handlers/streamingserver.go:80-133 | the shared buffer holds chunks of one body only, at every point of an exchange |
| StreamingForwards.ForwardsExact | pkg/epp/handlers/streamingserver.go:261-282 | for every stream, the request body that is sent is the encoded body of the first request that is routed, at a point where no answer and no response header is out and the sends it needs work; none if there is no such request |
| StreamingLengths.HeaderAnnouncesBody | pkg/epp/handlers/streamingserver.go:490-528 | in every stream a request body is the second message, after a header that announces its length or, if and only if the stream opened with headers without a body, none; the two agree if and only if it did not open so or the inputs make it forward no body or an empty one |
| StreamingLengths.BareOpeningDisagrees | pkg/epp/handlers/streamingserver.go:490-508 | a concrete stream in which a body of one byte follows a header that announces no length |
| StreamingBodies.PlanTable | pkg/epp/handlers/streamingserver.go:328-399 | the decision on any decoded request: model, target, pod, bytes, worker id and what is left of the request, or the error |
| StreamingBodies.BodiesMerge | pkg/epp/handlers/streamingserver.go:124-130 | what a later body on the same stream leaves of an earlier one |
| StreamingBodies.ForwardedBody | pkg/epp/handlers/streamingserver.go:328-421 | the messages sent for a request: the body encodes the received document with only the model replaced, by the drawn target if there are targets, after a header with its length, the picked pod and the front end's worker; it is counted under the model asked for |
| StreamingBodies.BodilessAnswered | pkg/epp/handlers/streamingserver.go:490-508 | headers without a body are answered with a random pod at the pool's port, or with nothing |
| StreamingBodies.AnswerTable | pkg/epp/handlers/streamingserver.go:328-389 | which status or header a stream sends for a request, if and only if, from its body and the environment at its end |
| StreamingBodies.RequestAnswered | pkg/epp/handlers/streamingserver.go:98-257 | what a stream sends and counts for a request, however it is cut, up to a send that fails |
| StreamingBodies.ResponseEchoed | pkg/epp/handlers/streamingserver.go:426-475 | what a stream sends for a response that is not an event stream, also if a send fails or the usage block cannot be read |
| StreamingBodies.PassedThroughIff | pkg/epp/handlers/streamingserver.go:214-221 | exactly when a response body reaches the client unchanged |
| StreamingBodies.ExchangeSent | pkg/epp/handlers/streamingserver.go:80-316 | every message of a whole exchange in order, event stream or not, up to a send that fails |
| FrontEnd.CollectAnnotations | pkg/epp/handlers/streamingserver.go:603-624 | the string annotations, with the query marker exactly once added if missing |
| FrontEnd.StringsInOrder | pkg/epp/handlers/streamingserver.go:603-612 | the string annotations are collected in order |
| FrontEnd.OnlyStrings | pkg/epp/handlers/streamingserver.go:603-612 | and nothing else is |
| FrontEnd.FrontEndBodyExact | pkg/epp/handlers/streamingserver.go:587-632 | entry by entry, what the front end is sent: `stream` true unless the request sets it, the annotations with the marker, everything else unchanged |
| FrontEnd.CallFrontEnd | pkg/epp/handlers/streamingserver.go:587-632 | the body posted, and that of the request only a shared nested map changes |
| FrontEnd.EncodeThenCall | pkg/epp/handlers/streamingserver.go:356-375 | encoding happens before the shared map is changed, so the forwarded body is not affected by it |
| MetricSpec.StringToMetricSpec | pkg/epp/backend/metrics/metrics_spec.go:43-93 | result or error for every string |
| MetricSpec.ParseComplete | pkg/epp/backend/metrics/metrics_spec.go:37-93 | every text of the documented form, with any white space, parses to its meaning |
| MetricSpec.ParseSound | pkg/epp/backend/metrics/metrics_spec.go:43-93 | every accepted string is of that form |
| MetricSpec.ParseTable | pkg/epp/backend/metrics/metrics_spec.go:43-93 | the empty string is no specification, and every other string that is not of that form is an error |
| MetricSpec.ParsedIsGood | pkg/epp/backend/metrics/metrics_spec.go:60-87 | names and labels of a parsed spec are non-empty, trimmed and unambiguous |
| MetricSpec.RoundTrip | pkg/epp/backend/metrics/metrics_spec.go:43-93 | rewriting a parsed spec and parsing again gives the same spec |

## Left out

- Requests of the simulator are values that move between stores; sharing one request object with the dictionary of all requests is not modelled, nor are its time stamps.
- An iteration of the actor is one step: arrivals happen between iterations, not while a batch is being fetched.
- Delay formulas, simulated time, the simpy event loop and the load balancer; only its clipping of inputs to 512 and its unique ids are assumed.
- Fairness of the recompute queue: ids are compared as strings, so no first-in first-out order is claimed.
- The fields of the request context are grouped into records (`Pending`, `Context`) held by the class `Stream`; time stamps, sizes, token counts and endpoint names kept only for metrics and logs are not modelled.
- gRPC, HTTP, TLS, logging, Prometheus registration and the JSON codec itself.
- Panics of the weighted draw inside a stream: the stream takes the drawn name as given.
- The quality of a pick is stated for one snapshot of metrics; with a background refresh between two reads of one call only `FilterReads.RunFilter` holds.
- NaN metrics, and the probability with which the LoRA filter prefers affine pods.
- Failing List and Get calls of the API server, and what happens after the panic of a backfill without a pool: the runs of `Models` take it not to happen, `ReconcileModelStep` says when it does.
- Namespaces: the code lists InferenceModels in the pool's namespace, the model in the whole cluster it sees; the two agree because the manager caches that one namespace only (pkg/epp/server/controller_manager.go:47-63).
- Lock-level behaviour of the datastore: its methods are atomic except in `Refresher`.
- The non-streaming server loop, body-based routing, the LoRA sidecar and metric scraping, which would only add easy members.
