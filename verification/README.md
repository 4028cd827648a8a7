# Celeg runtime: verified models

Dafny models of the parts of the Celeg inference runtime whose correctness is a matter of
protocol, packing and bookkeeping, with proofs of what those parts promise. `dafny verify
dfyconfig.toml` checks everything.

## What is modelled

**Request service and dispatcher.** Many requests share one mutable Metal session; the
service multiplexes it by snapshot and restore, serves requests round-robin by id, and
skips prefills with a bounded prefix cache. `Session` states what each session call reads,
writes and refuses over an abstract `Engine` (the tensor arithmetic); any call may throw,
and then leaves an arbitrary residue. `Service` gives the transition of each public
operation, `ServiceObject` the object that performs it in place. `ServiceRefinement` proves
that every run serves every request as if it ran alone, `Decoding` that each token it gets
was sampled after its own prompt and all its earlier tokens were evaluated, `Scheduling`
fairness, draining and conservation, `PrefixCache` that the cache is the recent history of
insertions. `Polling` says what a poll hands over and what the Metal program prints,
`Lifecycle` how a request begins and that its end is final.
`Dispatcher` interleaves the lock regions of the polling loop with any clients, `Guarantees`
proves delivery and silence over every interleaving, `PollingLoop` exactly when the loop
ends, `Liveness` and `Progress` that everything watched is delivered, `DispatcherObject` is
the object. `PatternCache` says which attention patterns the
prefix cache is transparent for.

**Q4_K.** `Q4KLayout` is the packed superblock, `Q4KError` the arithmetic and its error
bound, `Q4KBound` exactly when that bound holds, `HalfPrecision` the host encoder for the two
half-precision units, `Q4KEncoder` the loops that write and read superblocks, rows and
matrices, `HalfMatrix` the two together.

**Sampler and reference kernels.** `Random` and `Sampler` are the token sampler,
`RepetitionPenalty` what the penalty does to its choices, `Convolution` the ring-buffer
convolution against the direct sum, `Attention` the masked latent attention, `AttentionReach`
how far each pattern reaches and what a key contributes, over the shared `ReferenceMath`.

**Comment rewriter.** `CommentScanner` is the C++ lexer, `CommentExtents` where its pieces
end, said of the characters themselves, `CommentRewriter` the definition of both rewriting
modes, `CommentLines` which lines stay, `CommentRender` the line assembly that computes them,
`CommentIdempotence` when converting twice is converting once, `CommentWords` when stripping
keeps words apart.

**Graph to plan to program.** `KvSharing` assigns attention patterns and shared caches,
`WeightPlan` and `PlanBuilder` derive the weight requests, `WeightPlanKeys`, `WeightShapes`
and `LoweredProgram` prove that they are distinct, fit together, are partitioned by layer,
and agree with the compiled flags and expert payloads.

**Expert sidecar.** `SidecarFormat` and `ExpertSidecar` are the packing tool and the
runtime's loader.

`Options` and `OrderedKeys` are shared vocabulary: an optional value, and the order in which
an ordered map is iterated.

## How it is modelled

- Floats are reals. Rounding to bfloat16 is any idempotent function that fixes zero, the
  exponential any positive function (monotone, or turning sums into products, only where a
  lemma says so). The unit fields of Q4_K hold what a function parameter `half` gives back;
  `HalfPrecision` supplies the encoder's own. The generator works on 64 bits exactly.
- Each lock region is one atomic step. A callback is a tag; when it is called it may return
  or throw. It does not call the dispatcher, whose mutex it would wait for. `Weather` says
  which session call throws, if any, and what state a throwing call leaves behind.
- Containers with an unspecified order (`std::unordered_map`) are visited in an arbitrary
  order; ordered maps in key order. `std::nth_element`, `std::sort`, `std::find` and
  `upper_bound` are loops proved against what the standard promises of them.
- Python's character classes are parameters: which characters are alphanumeric and which are
  white space. The pattern for parameter comments is matched without backtracking, which is
  proved to find the same matches where no word character, `=` or `*` is white space.
- File contents are byte sequences, a stream is its bytes and a position.

## Where the code does not do what is promised of it

Each of these is proved below: a lemma gives a failing case, and another the exact condition
under which the promise is kept, or for waiting the bound that does hold.

- The prefix cache is transparent exactly when evaluating one more token equals prefilling
  the longer prompt. Bidirectional attention and, within a block, the block patterns break
  that. Prefix attention does not, because a prefill has to hold the whole prefix.
- The admission test adds two unsigned sizes. An admitted request fits the context exactly
  when the sum does not wrap, and the largest output limit makes it wrap.
- Requests that keep arriving can starve an old one: new ids are always larger, so the
  waiting bound counts arrivals.
- The polling loop ends by itself exactly when it polls an id the service no longer has or a
  callback throws. Cancelling a request twice, the second time while a pass has still to
  poll it, does the one; after a throw on a finished event both maps keep the id.
- The half-precision encoder is documented to round to nearest even
  (`src/celeg/quantization/scalars.hpp:51-53`). It drops values strictly between 2^-25 and
  2^-24 to zero, and when rounding a normal number carries into a power of two from an even
  exponent, the carry bit is or-ed into the already incremented exponent field: 2 - 1/2048
  is stored as 4, and the top of the range as infinity.
- The reconstruction bound of Q4_K fails for sub-blocks whose extremes lie outside the range
  that was stored, which small subnormal units cause and finite units from 2^-18 up cannot.
- Converting comments is idempotent exactly when the converted text holds no prose comment.
  A prose block comment with a slash right after its opening can leave one: the inserted
  star closes it.
- Stripping joins words exactly where comments without a line end, and nothing else, stand
  between two characters that are not blank.
- KV sharing can succeed and leave a consumer without a publisher: layers without attention
  default to the full-causal kind and may be chosen as the publisher of that kind. The check
  of the compiled program (`src/celeg/model/attention_sharing.hpp:41-66`) refuses exactly
  those graphs later.
- An MLP block paired with a dense feed-forward makes the plan ask twice for the same
  matrix; a lookup by key (`src/model/weights/roles.cpp:46`) takes the first. The plan builder
  does not check for the pair. The graphs built in this repository never hold it
  (`src/model/descriptor/architecture.cpp:235-237`, `src/model/inference/rules.cpp:117-118`).

## Model

| member | source | states |
|---|---|---|
| `ServiceRefinement.EveryRunIsSolo` | src/serve/metal_inference_service.cpp:262-332 | In every run of submits, polls, cancels, releases and steps, with device faults anywhere and any starting session, what was delivered and is pending for a request is exactly what that request generates alone; while it decodes it holds the solo session state after that many decodes, has generated fewer than its limit, and a finished request ended at its first stop token or at its limit |
| `ServiceRefinement.SchedulesAgree` | src/serve/metal_inference_service.cpp:262-332 | The same input finishes with the same tokens for the same reason in any two runs of the same engine, whatever the neighbours, the cache settings and the order of scheduling |
| `ServiceRefinement.CacheTransparentIffIncremental` | src/serve/metal_inference_service.cpp:83-113 | Every snapshot of every run is the solo state if and only if the cache is off or evaluating one more token equals prefilling the longer prompt; for any other engine a run of two prompts shows a wrong snapshot |
| `ServiceRefinement.CachedPrefill` | src/serve/metal_inference_service.cpp:269-287 | Restore, reconfigure and token-by-token evaluation from a cached prefix end in the state of reset, configure and full prefill, and succeed on a healthy device whenever the prefill does |
| `ServiceRefinement.EvalsReach` | src/backend/metal/model/runtime/runtime.mm:192-199 | Evaluating the rest of a prompt one token at a time reaches exactly the evaluation of the whole, configuration and random state untouched |
| `ServiceRefinement.PrefillForgets` | src/serve/metal_inference_service.cpp:283-285 | Reset, configuration and prefill overwrite everything: the session a request starts from is irrelevant |
| `ServiceRefinement.DecodeKeeps` | src/serve/metal_inference_service.cpp:304-332 | One decoding step extends a request by the token its solo run generates next, and ends it exactly at a stop token or the limit |
| `ServiceRefinement.StepKeepsFaithful` | src/serve/metal_inference_service.cpp:262-337 | A step that succeeds, or fails at any session call, keeps every request a prefix of its solo run and every cached snapshot the evaluation of its key |
| `ServiceRefinement.PollKeepsFaithful` | src/serve/metal_inference_service.cpp:202-222 | Polling moves tokens from pending to delivered: their concatenation does not change |
| `ServiceRefinement.SoloTokensCount` | src/serve/metal_inference_service.cpp:316-318 | A solo run of n decodes has n tokens, and a shorter one has the first of them |
| `ServiceRefinement.SoloPosition` | src/serve/metal_inference_service.cpp:185-192 | A solo run of n decodes exists exactly when the input is acceptable and prompt plus n fits the context, and then stands at that position |
| `ServiceRefinement.ProbeResult` | src/serve/metal_inference_service.cpp:83-113 | Resuming prompt p plus one token from the cached p leaves what one evaluation makes of the prefill of p |
| `ServiceRefinement.AdmissionFits` | src/serve/metal_inference_service.cpp:185-188 | An admitted request fits the context exactly when the unsigned sum of the admission test does not wrap |
| `ServiceRefinement.WrappedSumIsAdmitted` | src/serve/metal_inference_service.cpp:185-188 | Some sums do wrap: one prompt token with the largest output limit is admitted to any context |
| `ServiceRefinement.HealthyDeviceFailures` | src/serve/metal_inference_service.cpp:333-336 | On a healthy device a request fails only when its prompt is unusable or a wrapped sum let it past the context; one with an unusable prompt never decodes or finishes, and one with a wrapped sum never finishes by length |
| `Decoding.EveryRunSamplesItsOwnText` | src/backend/metal/model/runtime/runtime.mm:178-191 | In every run of the service, cached or not, token k of each request is what the engine samples after the first k tokens were evaluated one by one from its prefilled prompt, with the random state passed on from the seed, and its snapshot is what that leaves; with an incremental engine each token is sampled from the prefill of the whole text before it, and the snapshot holds that text |
| `Decoding.SoloRunIff` | src/backend/metal/model/runtime/runtime.mm:178-191 | For any engine, a request alone generates exactly the tokens of that fold of single evaluations, and only if its prompt is acceptable and prompt plus tokens fit the context |
| `Decoding.SoloHoldsItsText` | src/backend/metal/model/runtime/runtime.mm:178-191 | With an incremental engine, after n decodes alone the session holds prompt plus the n tokens, each sampled from all the text before it |
| `Decoding.SoloRunGenerates` | src/backend/metal/model/runtime/runtime.mm:178-191 | The tokens and the session of a solo run are those of the fold, random states included |
| `Decoding.GeneratesUnique` | src/backend/metal/model/runtime/runtime.mm:180-183 | That description determines tokens and random states |
| `Decoding.FoldIsPrefill` | src/backend/metal/model/runtime/runtime.mm:185 | With an incremental engine, evaluating tokens one by one after a prefill is prefilling prompt and tokens |
| `Decoding.DecodeEvaluatesItsToken` | src/backend/metal/model/runtime/runtime.mm:178-199 | A decode that samples a token of the vocabulary leaves what evaluating that token would, but for the random state, which is what sampling left, and fails exactly where the evaluation would |
| `Decoding.ResetNeedsPrefill` | src/backend/metal/model/runtime/runtime.mm:78-123 | After a reset nothing can be evaluated or decoded until a prefill, and a prefill leaves nothing of the context before it |
| `Polling.ProgramPrintsTheAnswer` | apps/metal/main.cpp:79-97 | On a healthy device, for a prompt the engine takes and an output that fits, the Metal program leaves its loop having printed exactly the tokens its request generates alone, up to the first stop token or the limit |
| `Polling.ProgramPrintsItsRequest` | apps/metal/main.cpp:79-97 | On any device the program, which polls one token after every step, prints what its request generates, loses none and leaves its loop after at most one round more than the output limit, with the request finished or failed |
| `Polling.LoopPrintsAll` | apps/metal/main.cpp:84-96 | From any state with nothing pending the loop prints every token its request generates from there, and ends within as many rounds as the service has work |
| `Polling.PollSplits` | src/serve/metal_inference_service.cpp:202-222 | A poll of a known id splits what is pending: the event holds the front, everything for limit zero and otherwise up to the limit, the rest stays pending; its id, status, finished flag and reason are the request's own and nothing else changes; an unknown id changes nothing |
| `Polling.BacklogIsOutAfter` | src/serve/metal_inference_service.cpp:213-218 | Repeated polls give a backlog of n tokens out in order, all of it after n / limit polls rounded up and not before, limit tokens each until then |
| `Lifecycle.SubmissionOutcome` | src/serve/metal_inference_service.cpp:182-200 | A submission is refused exactly for an empty prompt, a sum past the context, a multimodal prompt or an invalid configuration, in this order of errors, changing nothing; every other one is queued under the next id |
| `Lifecycle.CancelOutcome` | src/serve/metal_inference_service.cpp:233-244 | A cancel succeeds exactly for a live request, which ends as cancelled with its pending tokens kept, and touches no other |
| `Lifecycle.ReleaseOutcome` | src/serve/metal_inference_service.cpp:246-253 | A release succeeds exactly for a request that has ended, which is unknown from then on |
| `Lifecycle.EndedIsFinal` | src/serve/metal_inference_service.cpp:202-253 | Whatever happens to the service afterwards, a request that has ended keeps its status, reason and generated tokens for as long as it is known |
| `Lifecycle.GoneStaysGone` | src/serve/metal_inference_service.cpp:192-253 | A request that is no longer known stays unknown: ids are never used twice |
| `PatternCache.IncrementalIffNeverAhead` | src/backend/metal/model/runtime/runtime.mm:83-123 | For an engine that records what each position has attended to, evaluating one more token equals prefilling the longer prompt if and only if no position of a prompt it extends may attend to the token after it |
| `PatternCache.WhichPatternsLookAhead` | src/model/reference.cpp:131-161 | Causal and windowed attention never do; prefix attention exactly while an extendable prompt may be shorter than the prefix; bidirectional attention whenever there is a next token |
| `PatternCache.WhichBlocksLookAhead` | src/model/reference.cpp:151-161 | The block patterns never do exactly when every extendable length ends a block or, block-sparse, when the block it falls in is neither local nor global |
| `PatternCache.BidirectionalIsNotTransparent` | src/serve/metal_inference_service.cpp:83-113 | With bidirectional attention and a prefix cache some run holds a snapshot the request alone would not reach |
| `Scheduling.EveryRunConserves` | src/serve/metal_inference_service.cpp:115-134 | In every run submitted = completed + cancelled + failed + active + queued, the two gauges count the live requests, and a decoding request has a snapshot and is below its limit, so the missing-snapshot error and the early length branch are dead |
| `Scheduling.StepKeepsBooks` | src/serve/metal_inference_service.cpp:262-337 | A step, failing or not, keeps the counters balanced |
| `Scheduling.CancelKeepsBooks` | src/serve/metal_inference_service.cpp:233-244 | A cancel keeps the counters balanced |
| `Scheduling.BoundedWaiting` | src/serve/metal_inference_service.cpp:136-153 | While the service runs, a live request is scheduled within as many steps as there are live requests now plus requests submitted meanwhile, across every cancel, release and wrap of the id order |
| `Scheduling.WaitIsBounded` | src/serve/metal_inference_service.cpp:136-153 | The sharper bound: only live requests the round-robin reaches before this one, and later submissions, can be served first |
| `Scheduling.StepPassesOne` | src/serve/metal_inference_service.cpp:136-153 | Every step that serves another request takes exactly one request out of those ahead |
| `Scheduling.ArrivalsStarve` | src/serve/metal_inference_service.cpp:182-199 | The submissions in the bound cannot be dropped: with one arrival per step a passed request is never scheduled, for runs of any length |
| `Scheduling.Drains` | src/serve/metal_inference_service.cpp:262-332 | With no more submissions a running service is idle after at most the sum of one plus the token limit over its live requests |
| `PrefixCache.CacheIsRecentHistory` | src/serve/metal_inference_service.cpp:83-99 | For every sequence of insertions into an enabled cache the queue is exactly the last N distinct keys in order of latest insertion, the map has the same keys with the snapshots of those insertions, and N is never exceeded |
| `PrefixCache.MostRecentUnique` | src/serve/metal_inference_service.cpp:94-98 | That description determines the queue |
| `PrefixCache.InsertKeepsQueue` | src/serve/metal_inference_service.cpp:86-98 | One insertion moves or appends its key to the back and evicts from the front, keeping the queue the most recent keys |
| `PrefixCache.EmptyKeyIgnored` | src/serve/metal_inference_service.cpp:84 | An empty key or a disabled cache changes nothing |
| `ServiceObject.MetalInferenceService.constructor` | src/serve/metal_inference_service.cpp:60-72 | A new service is the initial one |
| `ServiceObject.MetalInferenceService.CachePrefixOf` | src/serve/metal_inference_service.cpp:83-99 | The map and queue end as the cache after one insertion |
| `ServiceObject.MetalInferenceService.EraseFirst` | src/serve/metal_inference_service.cpp:89-90 | Removes the first occurrence of a key from the queue and nothing else |
| `ServiceObject.MetalInferenceService.FindPrefix` | src/serve/metal_inference_service.cpp:101-113 | Visiting the cache in any order finds the longest cached key that prefixes the prompt, with its snapshot, or none |
| `ServiceObject.MetalInferenceService.RefreshCounts` | src/serve/metal_inference_service.cpp:115-126 | The gauges end as the numbers of queued and of other live requests |
| `ServiceObject.MetalInferenceService.NextRequest` | src/serve/metal_inference_service.cpp:136-153 | Scanning from the first larger id and wrapping finds the round-robin successor among live requests, and records it |
| `ServiceObject.MetalInferenceService.SubmitRequest` | src/serve/metal_inference_service.cpp:182-200 | The new state and the id or error of a submission |
| `ServiceObject.MetalInferenceService.PollRequest` | src/serve/metal_inference_service.cpp:202-222 | The event and the request with the delivered tokens removed: event tokens and what stays pending make up what was pending, all of it delivered for limit zero and otherwise as much as the limit lets, with the request's own status, finished flag and reason; or the unknown-id error with no change |
| `ServiceObject.MetalInferenceService.CancelRequest` | src/serve/metal_inference_service.cpp:233-244 | Cancels a live request and nothing else |
| `ServiceObject.MetalInferenceService.ReleaseRequest` | src/serve/metal_inference_service.cpp:246-253 | Removes a terminal request and nothing else |
| `ServiceObject.MetalInferenceService.ResumeSession` | src/serve/metal_inference_service.cpp:273-287 | Restore, configure, evaluate the rest and export, abandoned at the first exception |
| `ServiceObject.MetalInferenceService.PrefillSession` | src/serve/metal_inference_service.cpp:269-287 | The calls of a prefill, from a cached prefix or from reset |
| `ServiceObject.MetalInferenceService.PrefillOne` | src/serve/metal_inference_service.cpp:268-303 | A queued request becomes decoding, finished or failed, and its snapshot is cached |
| `ServiceObject.MetalInferenceService.DecodeOne` | src/serve/metal_inference_service.cpp:304-336 | A decoding request gains a token, finishes or fails, its snapshot moved out and back |
| `ServiceObject.MetalInferenceService.StepOnce` | src/serve/metal_inference_service.cpp:262-337 | The whole step: not running, nothing live, prefill or decode, each with the service it leaves |
| `ServiceObject.MetalInferenceService.Start` | src/serve/metal_inference_service.cpp:339-342 | Sets only the running flag |
| `ServiceObject.MetalInferenceService.StopService` | src/serve/metal_inference_service.cpp:344-347 | Clears only the running flag |
| `ServiceObject.FirstIndex` | src/serve/metal_inference_service.cpp:89 | The first place of a key in the queue, or its end |
| `ServiceObject.CountRequests` | src/serve/metal_inference_service.cpp:115-126 | One pass in id order counts queued and other live requests |
| `ServiceObject.PickNext` | src/serve/metal_inference_service.cpp:136-153 | The scan with its wrap returns the unique round-robin successor, or none when nothing is live |
| `MetalService.Next` | src/serve/metal_inference_service.cpp:136-153 | None exactly when nothing is live; otherwise the live id that no other precedes in round-robin order |
| `MetalService.LongestCached` | src/serve/metal_inference_service.cpp:101-113 | The length of the longest cached key that prefixes the prompt |
| `MetalSession.MetalInferenceSession.constructor` | src/backend/metal/model/runtime/runtime.mm:294-300 | A session over an engine starts in the given state |
| `MetalSession.MetalInferenceSession.ResetSession` | src/backend/metal/model/runtime/runtime.mm:78-82 | Empties the context and the position |
| `MetalSession.MetalInferenceSession.SetGenerationConfig` | src/backend/metal/model/runtime/runtime.mm:209-213 | Replaces configuration and random state, or throws for an invalid one |
| `MetalSession.MetalInferenceSession.PrefillTokens` | src/backend/metal/model/runtime/runtime.mm:83-123 | Checks length and every token, then holds the evaluation of the prompt |
| `MetalSession.MetalInferenceSession.EvalToken` | src/backend/metal/model/runtime/runtime.mm:192-199 | Advances the context by one token, or throws |
| `MetalSession.MetalInferenceSession.DecodeToken` | src/backend/metal/model/runtime/runtime.mm:178-191 | Returns the token sampled from context, configuration and random state and leaves the session as evaluating that token would, with the random state sampling left; or throws |
| `MetalSession.MetalInferenceSession.RestoreSnapshot` | src/backend/metal/model/runtime/state.mm:157-175 | The session becomes the snapshot, or throws for an invalid one |
| `MetalSession.MetalInferenceSession.ExportSnapshot` | src/backend/metal/model/runtime/state.mm:78-90 | Returns the whole session state and changes nothing |
| `Dispatcher.OneFinishOneRelease` | src/serve/generation_dispatcher.cpp:63-87 | In every interleaving of loop, clients and cancels, whatever callbacks throw, no id is released twice, each id gets at most one finished event, and after it the request is gone or going, unless its callback threw on it and ended the loop |
| `Dispatcher.PlayKeepsOk` | src/serve/generation_dispatcher.cpp:49-61 | Every run keeps the invariant of the atomic steps: the id in the hands of the loop is still watched or being removed, released ids are gone for good, finished events and live requests exclude each other |
| `Guarantees.EndToEnd` | src/serve/generation_dispatcher.cpp:63-87 | A callback that watches a submitted request nobody polled and no callback was told the end of, and is left alone, has received exactly the tokens polled for it at every moment of every run; the finished event arrives at most once, with everything generated delivered (the whole solo run, for a finished request), and the watcher is gone by then unless it threw on that event and ended the loop |
| `Guarantees.CancelSilences` | src/serve/generation_dispatcher.cpp:38-47 | After cancel has run no callback registered before is called for that id until it is watched again |
| `Guarantees.UnregisteredIsSilent` | src/serve/generation_dispatcher.cpp:80-82 | A callback that is not registered is not called until it is registered |
| `PollingLoop.OrderlyClientsKeepTheLoop` | src/serve/generation_dispatcher.cpp:49-61 | While clients watch only submitted requests, their callbacks return, and nobody releases what the loop watches or is about to poll, the loop never ends by itself |
| `PollingLoop.PassDiesIffFatal` | src/serve/generation_dispatcher.cpp:73-87 | An undisturbed pass ends the loop if and only if it has to poll an id the service no longer has, or to call a callback that throws |
| `PollingLoop.LoopEndsIff` | src/serve/generation_dispatcher.cpp:49-61 | Over any run in which nobody stops it, the loop ends if and only if some action polls an id the service does not have or calls a client callback that throws |
| `PollingLoop.ThrownEventEndsTheLoop` | src/serve/generation_dispatcher.cpp:51-60 | From construction on a callback that throws on a finished event ends the loop of every deployment, and both maps keep the id |
| `PollingLoop.TwoCancelsEndTheLoop` | src/serve/generation_dispatcher.cpp:38-47 | From construction on such a run exists for every deployment: a client that cancels a request twice, the second time after the pass copied its id |
| `Liveness.EveryWatcherIsServed` | src/serve/generation_dispatcher.cpp:49-92 | After any history that leaves the loop between passes, both threads running and only submitted ids watched: within one undisturbed pass more than the service has work, every registered callback has had the finished event of its request, exactly once, and the id is in neither map, whatever the device does, unless a callback threw |
| `Progress.EveryWatchIsAnswered` | src/serve/generation_dispatcher.cpp:49-92 | In every interleaving with clients that leave the id alone and stop no thread, but do anything else: once the loop has begun more passes than the service had work, was brought work meanwhile, and one, a callback that watches a submitted request has had the finished event and all that was generated, for a finished request all it generates alone, or the loop is over |
| `Progress.DoDue` | src/serve/generation_dispatcher.cpp:28-92 | Every action of loop and clients leaves no more passes due for a watched request than before, but for the work a submission brings, and a new pass leaves fewer |
| `Liveness.PassServes` | src/serve/generation_dispatcher.cpp:63-92 | A pass that no callback ends serves every watcher whose request is done, keeps the others, and does some work unless there is none; only a callback ends it |
| `Liveness.PlayKeepsBooks` | src/serve/generation_dispatcher.cpp:28-92 | Every run of loop and clients keeps the books of the service |
| `PollingLoop.PassDelivers` | src/serve/generation_dispatcher.cpp:73-87 | An undisturbed pass whose callbacks return empties every request it polls and removes the finished ones from both maps |
| `PollingLoop.LateCancelEndsTheLoop` | src/serve/generation_dispatcher.cpp:38-47 | A cancel of a dead request that the current pass has still to poll does end the loop |
| `Guarantees.FinishedIsComplete` | src/serve/metal_inference_service.cpp:316-328 | A finished request generated everything it would generate alone |
| `DispatcherObject.GenerationDispatcher.constructor` | src/serve/generation_dispatcher.cpp:9-12 | A new dispatcher watches nothing |
| `DispatcherObject.GenerationDispatcher.WatchRequest` | src/serve/generation_dispatcher.cpp:28-31 | Performs the watch step |
| `DispatcherObject.GenerationDispatcher.UnwatchRequest` | src/serve/generation_dispatcher.cpp:33-36 | Performs the unwatch step |
| `DispatcherObject.GenerationDispatcher.CancelRequest` | src/serve/generation_dispatcher.cpp:38-47 | Performs both halves of the cancel step under the lock |
| `DispatcherObject.GenerationDispatcher.WatchedIds` | src/serve/generation_dispatcher.cpp:66-71 | Lists every watched id once |
| `DispatcherObject.GenerationDispatcher.PollOne` | src/serve/generation_dispatcher.cpp:74-75 | Polls one id as the loop step does |
| `DispatcherObject.GenerationDispatcher.HandOver` | src/serve/generation_dispatcher.cpp:78-86 | Calls the callback, which may throw, and removes a finished id from both maps if it does not |
| `DispatcherObject.GenerationDispatcher.PollAndDeliver` | src/serve/generation_dispatcher.cpp:74-87 | Handles one id as the loop steps do, an unknown id, a throwing callback, delivery and removal included |
| `DispatcherObject.GenerationDispatcher.DispatchOnce` | src/serve/generation_dispatcher.cpp:63-92 | One pass is the loop steps in order |
| `Q4KError.AnyUnitsError` | src/quantization/ggml.cpp:389-437 | For any non-negative stored scale unit a value decodes within half a step, or within the coding error of the minimum plus fifteen times what the scale falls short |
| `Q4KBound.ReconstructionBound` | src/quantization/ggml.cpp:353-437 | For any stored units with a non-negative scale unit, the 32 values of a sub-block all decode within max(d*sc/2, 7.5*d + dmin/2) of the input if and only if the stored range, fifteen steps up from its base and widened by that bound, takes in the lowest and the highest of them: clamped codes, zero scales, constant, all-zero and lost superblocks included |
| `Q4KBound.ResolvedCovers` | src/quantization/ggml.cpp:374-403 | Where no six-bit code saturates by more than half a unit the range always takes the extremes in |
| `Q4KError.ResolvedBound` | src/quantization/ggml.cpp:389-437 | And every value then decodes within the bound |
| `Q4KError.ExactUnitsBound` | src/quantization/ggml.cpp:374-385 | With units stored exactly the bound holds for every superblock, with no assumption on its values |
| `Q4KError.CloseUnitsResolve` | src/quantization/ggml.cpp:374-385 | Units at most one part in 128 too small are close enough |
| `Q4KError.LostUnits` | src/quantization/ggml.cpp:374-386 | When both units read back as zero the superblock decodes to zeros, and the bound holds exactly when the input was all zeros |
| `Q4KError.SixBitsClose` | src/quantization/ggml.cpp:392-403 | A six-bit code times its unit is within half a unit, clamped or not, up to 63.5 units |
| `Q4KError.FourBitsClose` | src/quantization/ggml.cpp:422-430 | A four-bit code is within half a step of the value, or at the end of the range the value is beyond |
| `HalfPrecision.NormalKeepsElevenBitsIff` | src/celeg/quantization/scalars.hpp:78-86 | A normal number is stored within one part in 2048 exactly when it is not rounded up to a power of two from an even exponent or the largest one; rounded up from an even exponent it is stored as twice that power, or as infinity |
| `HalfPrecision.CarryDoubles` | src/celeg/quantization/scalars.hpp:78-86 | 2 - 1/2048 is stored as 4 |
| `HalfPrecision.SubnormalNearestIff` | src/celeg/quantization/scalars.hpp:66-77 | A subnormal is stored within half a quantum exactly outside the open interval from 2^-25 to 2^-24, which is dropped to zero |
| `HalfPrecision.ExponentIs` | src/celeg/quantization/scalars.hpp:58-66 | The exponent found is the one the number has |
| `HalfPrecision.HalfUnitsBound` | src/quantization/ggml.cpp:374-437 | With the half-precision units the encoder stores, for every superblock whose units are finite: a sub-block decodes within the bound if and only if the stored range takes in its extremes |
| `HalfPrecision.StorableUnitsBound` | src/quantization/ggml.cpp:374-437 | Whatever the values, that is so when each unit is zero or at least 2^-18 and finite |
| `HalfPrecision.SmallUnitFails` | src/quantization/ggml.cpp:374-403 | Below that it can fail: one value of 1323 quanta of 2^-24 in a superblock of zeros has a unit of 1.4 quanta, stored as one, and its sub-block is out of bounds |
| `HalfPrecision.TinyUnitsLoseBlock` | src/celeg/quantization/scalars.hpp:66-77 | A superblock whose two units are below 2^-24 decodes to zeros, each value within the bound exactly when it was zero |
| `HalfPrecision.LostIffTiny` | src/celeg/quantization/scalars.hpp:66-86 | A number is read back as zero exactly below 2^-24 |
| `HalfPrecision.StorableIsClose` | src/celeg/quantization/scalars.hpp:55-86 | A unit that is zero, or from 2^-18 up and finite, never reads back more than one part in 128 too small |
| `Q4KLayout.StoreScale` | src/quantization/ggml.cpp:412-421 | Stores the scale and minimum of one sub-block and leaves every lane written before as it was |
| `Q4KLayout.HighLane` | src/quantization/ggml.cpp:415-421 | The or-ed top bits and nibbles of lanes 4 to 7 read back and disturb no lower lane |
| `Q4KLayout.StoreCode` | src/quantization/ggml.cpp:426-436 | A code goes into its nibble and no other column changes |
| `Q4KLayout.SameByteOtherNibble` | src/celeg/quantization/gguf_blocks.hpp:83-88 | Two columns share a byte exactly when they stand 32 apart in one group of 64, as its two nibbles |
| `Q4KLayout.PackScales` | src/celeg/checkpoint/gguf_blocks.hpp:39-47 | Any eight 6-bit scales and minimums survive the interleaved writes |
| `Q4KLayout.PackCodes` | src/celeg/quantization/gguf_blocks.hpp:83-88 | Any 256 codes written in any order of columns read back |
| `Q4KLayout.LanesDetermineScales` | src/celeg/checkpoint/gguf_blocks.hpp:39-47 | The lanes determine the twelve bytes: no bit is wasted |
| `Q4KEncoder.MinMax` | src/quantization/ggml.cpp:361-368 | The lowest and highest of a sub-block |
| `Q4KEncoder.Survey` | src/quantization/ggml.cpp:357-383 | Lows, spreads and the largest of each |
| `Q4KEncoder.StoreSub` | src/quantization/ggml.cpp:422-437 | One sub-block's columns become its codes, none for a step that is not positive, all others stay |
| `Q4KEncoder.EncodeBlock` | src/quantization/ggml.cpp:350-437 | The packed block reads back as the encoder's choice of units, scales, minimums and codes |
| `Q4KEncoder.QuantizeRow` | src/quantization/ggml.cpp:345-349 | One row of superblocks is packed at its place |
| `Q4KEncoder.Quantize` | src/quantization/ggml.cpp:330-348 | The two errors exactly, and otherwise rows times columns / 256 blocks, each the encoding of its own 256 values, of the size the matrix check wants |
| `Q4KEncoder.DecodeBlock` | src/quantization/ggml.cpp:202-216 | Writes one decoded block at its offset and nothing else |
| `Q4KEncoder.DecodeRow` | src/quantization/ggml.cpp:92-216 | An error for a bad matrix or row, writing nothing; otherwise the decoded values of exactly that row |
| `Q4KEncoder.DecodedAt` | src/quantization/ggml.cpp:202-216 | Element c of a decoded row is column c % 256 of its block c / 256 |
| `Q4KEncoder.PackAndDecode` | src/quantization/ggml.cpp:330-437 | Packing a matrix the encoder accepts and decoding any row: for every sub-block of the row, its 32 decoded values are within the bound if and only if the range stored for it takes in its extremes; all of them are when no unit of the matrix saturates a six-bit code by more than half a unit |
| `Q4KEncoder.BlockPlace` | src/quantization/ggml.cpp:345-350 | Superblock sb of a row starts where its number says, for all rows and columns |
| `HalfMatrix.PackAndDecodeHalf` | src/quantization/ggml.cpp:330-437 | Packing a matrix in the half precision the encoder stores and decoding any row: where no unit overflows, a sub-block is within the bound if and only if the range stored for it takes in its extremes; where every unit is zero or from 2^-18 up and finite, the whole row is |
| `HalfMatrix.StorableResolves` | src/quantization/ggml.cpp:374-385 | Such units overflow nowhere and saturate no six-bit code by more than half a unit |
| `TokenSampler.Greedy` | src/runtime/sampler.cpp:44-55 | The first token of greatest penalized score; where the first of the largest plain logits is of a token not seen, that token, whatever the penalty |
| `TokenSampler.PenalizedScore` | src/runtime/sampler.cpp:36-43 | A token not seen, or a penalty of at most one, keeps its logit; otherwise a token with a non-zero logit scores strictly below it, with the same sign and by exactly the factor of the penalty |
| `RepetitionPenalty.LargerPenaltyScoresNoHigher` | src/runtime/sampler.cpp:36-43 | A larger penalty never scores a token higher and leaves tokens not seen alone |
| `RepetitionPenalty.RaisingKeepsUnseenChoice` | src/runtime/sampler.cpp:36-55 | Raising the penalty never changes a greedy choice that was not seen, so it never makes a seen token the choice where an unseen one was |
| `RepetitionPenalty.PenaltyMovesDown` | src/runtime/sampler.cpp:36-55 | Where the penalty changes the greedy choice, the best logit belongs to a seen token and the choice has no larger one |
| `RepetitionPenalty.UnseenStaysCandidate` | src/runtime/sampler.cpp:36-73 | A token not seen that is among the best k candidates stays among them, with the same score, under any larger penalty |
| `RepetitionPenalty.TopIffFewBeat` | src/runtime/sampler.cpp:61-74 | A candidate is among the best k exactly when fewer than k beat it |
| `RepetitionPenalty.TemperatureScales` | src/runtime/sampler.cpp:66-68 | A candidate's score times the temperature is its penalized logit |
| `TokenSampler.GreedyIsTopOne` | src/runtime/sampler.cpp:44-55 | The greedy token is the first that selection would rank: the shortcut for one candidate is consistent |
| `TokenSampler.NthElement` | src/runtime/sampler.cpp:69-71 | A permutation with the best k before the rest |
| `TokenSampler.Sort` | src/runtime/sampler.cpp:74 | A permutation in strict order |
| `TokenSampler.TopCandidates` | src/runtime/sampler.cpp:64-74 | Selecting, truncating and sorting gives the best min(k, vocabulary) candidates, best first |
| `TokenSampler.TopUnique` | src/runtime/sampler.cpp:61-63 | Those candidates are determined by the scores |
| `TokenSampler.TopIsPrefixOfRanking` | src/runtime/sampler.cpp:69-74 | They are the start of the full ranking |
| `TokenSampler.Probabilities` | src/runtime/sampler.cpp:75-82 | The softmax of the kept scores |
| `TokenSampler.SoftmaxIsDistribution` | src/runtime/sampler.cpp:75-82 | All positive and of sum one |
| `TokenSampler.Truncate` | src/runtime/sampler.cpp:83-94 | The least non-empty prefix whose mass reaches top_p, or all, and its mass |
| `TokenSampler.NucleusUnique` | src/runtime/sampler.cpp:83-89 | That prefix is unique |
| `TokenSampler.NucleusIsSmallest` | src/runtime/sampler.cpp:83-89 | No set of candidates of any kind with that mass is smaller |
| `TokenSampler.Draw` | src/runtime/sampler.cpp:95-100 | The index whose interval of cumulated mass holds the target; the fallback after the loop is never reached |
| `TokenSampler.DrawUnique` | src/runtime/sampler.cpp:95-100 | One index only |
| `TokenSampler.OwnsItsShare` | src/runtime/sampler.cpp:90-99 | A candidate is drawn exactly for an interval of draws as long as its softmax share among the nucleus alone |
| `TokenSampler.Sample` | src/runtime/sampler.cpp:26-101 | Temperature zero or one candidate: the greedy token with the generator untouched, which is the unseen token of best logit where there is one; otherwise the drawn token with the generator stepped once |
| `TokenSampler.SampleIsDetermined` | src/runtime/sampler.cpp:26-101 | Scores, configuration and generator state decide the token |
| `Random.Unit` | src/runtime/sampler.cpp:17-22 | The draw lies strictly between zero and one |
| `Random.UnitIsFraction` | src/runtime/sampler.cpp:17-22 | The draw is the generator's output as a fraction of 2^64, to within half of one of 2^53 cells |
| `Random.NextAdds` | src/runtime/sampler.cpp:10-14 | A step is linear over exclusive or |
| `Random.StepOfEndBits` | src/runtime/sampler.cpp:10-14 | The highest bit alone becomes bits 63, 51, 36 and 24, the lowest bits 0 and 25 |
| `Random.DroppingDivides` | src/runtime/sampler.cpp:10-14 | Dropping the low k bits of a word is dividing by 2^k, rounded down |
| `Random.NextInjective` | src/runtime/sampler.cpp:10-14 | No two states have the same successor |
| `Random.ZeroIffZeroSeed` | src/model/execution/runtime_types.cpp:33-35 | The state is ever zero exactly when the seed is: why a zero seed is refused |
| `Convolution.ConvDecode` | src/model/reference.cpp:227-259 | Shape errors exactly, changing nothing; otherwise a ring that holds the history holds it with the new row, and the output is the direct convolution at that position |
| `Convolution.ConvChannel` | src/model/reference.cpp:243-257 | One channel: its product replaces the oldest, the other channels keep theirs |
| `Convolution.Convolve` | src/model/reference.cpp:249-254 | Reading the ring from the slot after the cursor gives the direct sum over taps |
| `Convolution.TapSlot` | src/model/reference.cpp:251 | The slot read for a tap is the slot of the time it stands for |
| `Convolution.TapTerm` | src/model/reference.cpp:252-253 | What is read is that time's product, rounded once |
| `Convolution.SlotsDiffer` | src/model/reference.cpp:241-247 | Times less than a ring apart never share a slot |
| `Convolution.DecodeAll` | src/model/reference.cpp:227-259 | From a zero ring, every output of every position is the direct convolution, for any ring length and run length |
| `Convolution.OnlyThePast` | src/model/reference.cpp:249-256 | Later inputs do not matter |
| `Convolution.ImpulseResponse` | src/model/reference.cpp:243-257 | A weight that is one at one tap and zero elsewhere gives the gated product of exactly that many steps ago, taken from the first and last thirds of that row and gated by the middle third of the present one, and silence before the first row |
| `LatentAttention.AdmitsItself` | src/model/reference.cpp:131-161 | A query sees its own key unless its window is empty, or its local block count is and its block is not global |
| `LatentAttention.AdmitsSomething` | src/model/reference.cpp:131-161 | A query sees some key exactly when the window is positive or a block count is |
| `LatentAttention.LooksAheadIffNext` | src/model/reference.cpp:131-161 | A query sees a later key exactly when it sees the next one; causal and windowed patterns never do |
| `AttentionReach.HowManyKeys` | src/model/reference.cpp:131-148 | Of the keys below the length a query sees its position plus one under full causal attention, the window or that, whichever is less, under a sliding window, all of them under bidirectional attention, and under prefix attention the whole prefix from inside it and position plus one from outside; they are consecutive, end at the query under a window and otherwise start at the first key |
| `AttentionReach.HowManyBlocks` | src/model/reference.cpp:149-161 | A query sees as many blocks as there are global and local ones together, or selected ones and its own, but no more than up to its own |
| `AttentionReach.WholeBlocks` | src/model/reference.cpp:149-161 | Under block patterns a query sees a block whole or not at all, and none after its own |
| `AttentionReach.RaisingAValue` | src/model/reference.cpp:165-225 | With exact arithmetic, raising a cached value strictly raises its output coordinate in every head exactly when the pattern admits its key, and moves no other coordinate |
| `AttentionReach.RaisingOneValue` | src/model/reference.cpp:207-221 | Raising one value raises the mixture, by no more, exactly when it is admitted |
| `AttentionReach.ScoreIsOneProduct` | src/model/reference.cpp:191-201 | The score is the scaled inner product of content and rotary part together, each counted once |
| `AttentionReach.DotPicks` | src/model/reference.cpp:192-199 | Against a vector with a single one the inner product is the other vector's entry there, rounded |
| `AttentionReach.PeakIsGreatest` | src/model/reference.cpp:202 | The maximum is the greatest admitted score |
| `LatentAttention.MixSeesOnlyAdmitted` | src/model/reference.cpp:186-223 | A masked mixture depends only on admitted positions, for caches of any two lengths |
| `LatentAttention.OutputSeesOnlyAdmitted` | src/model/reference.cpp:165-225 | Caches that agree where the pattern admits have the same output |
| `LatentAttention.MixIsConvex` | src/model/reference.cpp:207-221 | With exact arithmetic and a positive exponential a mixture lies between any bounds of the admitted values, and its denominator is not zero |
| `LatentAttention.OutputIsConvex` | src/model/reference.cpp:165-225 | With exact arithmetic every output coordinate lies between the bounds of the values the pattern admits |
| `LatentAttention.ShiftInvariant` | src/model/reference.cpp:207-220 | Subtracting the maximum does not change the mixture |
| `LatentAttention.ScoreRow` | src/model/reference.cpp:187-203 | The masked scores of a head and their maximum |
| `LatentAttention.SumOfTerms` | src/model/reference.cpp:207-210 | The denominator over the admitted scores |
| `LatentAttention.WeightedColumn` | src/model/reference.cpp:212-220 | The weighted sum over the admitted values |
| `LatentAttention.Decode` | src/model/reference.cpp:165-225 | Shape errors exactly; the no-keys error exactly when the pattern selects nothing; otherwise the masked softmax output, whose keys AttentionReach counts and whose coordinates it shows to move with each of them |
| `CommentScanner.Lossless` | scripts/strip_comments.py:71-139 | The tokens of any text concatenate back to it |
| `CommentScanner.Tokenize` | scripts/strip_comments.py:71-139 | The scanner loop produces exactly those tokens |
| `CommentScanner.ScanStep` | scripts/strip_comments.py:84-136 | One step classifies and delimits one piece: raw string, literal, comment or character |
| `CommentScanner.ScanQuoted` | scripts/strip_comments.py:40-50 | The end of a quoted literal |
| `CommentScanner.ScanLineComment` | scripts/strip_comments.py:53-68 | The end of a line comment across backslash continuations |
| `CommentScanner.Find` | scripts/strip_comments.py:92 | The least occurrence at or after a position, or none |
| `CommentExtents.QuotedEndIs` | scripts/strip_comments.py:40-50 | A quoted literal ends just past the first quote with an even number of backslashes before it, or with the text |
| `CommentExtents.LineEndIs` | scripts/strip_comments.py:53-68 | A line comment ends before the first line end that no backslash joins to the next line, carriage return and line feed counting as one, or with the text |
| `CommentExtents.EndOfIs` | scripts/strip_comments.py:92-94 | Raw strings and block comments end just past the first occurrence of their closing text, or with the text |
| `CommentExtents.LiteralIsOnePiece` | scripts/strip_comments.py:98-102 | A double-quoted literal is one piece of code, whatever comment openings it holds |
| `CommentExtents.QuoteInsideWord` | scripts/strip_comments.py:85-108 | A quotation mark directly after a character of a word opens nothing |
| `CommentExtents.DocumentationIsCode` | scripts/strip_comments.py:110-133 | A comment marked by doubling its opening or by an exclamation mark is code, any other a comment |
| `CommentExtents.NamesParameterIff` | scripts/strip_comments.py:29 | A block comment is kept exactly when it can be read as an opening, blanks, a name, perhaps an equals sign, blanks and a close on one line: the greedy scan finds every reading |
| `CommentRewriter.ConvertIsConcatenation` | scripts/strip_comments.py:171-180 | Convert mode gives the tokens in order, each prose comment with one character inserted, despite splitting and rejoining at line ends |
| `CommentRewriter.StripLosesNoCode` | scripts/strip_comments.py:158-211 | Strip mode keeps, in order, every character of code and of parameter comments that is not white space, and no other |
| `CommentLines.StripKeepsLines` | scripts/strip_comments.py:158-211 | The lines of the stripped text are, in order, exactly the marked lines that hold ink or held no comment; each is written as it was, indentation included, less only the blanks at its end where a comment was taken; lines removed and lines written add up to the marked lines |
| `CommentLines.OutputLines` | scripts/strip_comments.py:158-169 | The same for any marked text |
| `CommentLines.CutAtLineEnds` | scripts/strip_comments.py:171-190 | The marked lines hold no line end, and with line ends between them they are the marked text |
| `CommentLines.OutputDetermined` | scripts/strip_comments.py:158-169 | That description determines the output |
| `CommentLines.HowManyLines` | scripts/strip_comments.py:182-208 | There is one marked line more than line ends in the kept text, and one more for every removed comment of several lines: what stood before and after it stays on separate lines |
| `CommentLines.CommentLineDisappears` | scripts/strip_comments.py:158-196 | A line comment alone on its line, however indented, disappears with the line and its line end |
| `CommentRewriter.NothingToStrip` | scripts/strip_comments.py:158-211 | Without prose comments both modes return the text unchanged |
| `CommentRender.Assembly.EndLine` | scripts/strip_comments.py:158-169 | Closes a line: one that holds ink or held no comment is added as written, less the blanks at its end after a removal; any other adds nothing and is counted |
| `CommentRender.Assembly.Append` | scripts/strip_comments.py:186-188 | Adds a part of a line and notes whether it is code |
| `CommentRender.Assembly.AppendText` | scripts/strip_comments.py:171-190 | Adds text of any number of lines and counts its non-blank parts |
| `CommentRender.RenderToken` | scripts/strip_comments.py:182-208 | One token of each kind in each mode |
| `CommentRender.Render` | scripts/strip_comments.py:142-211 | The line assembly equals the definition over the whole text; in strip mode its lines are the marked lines that hold ink or held no comment, as written, and the count is of all the others; in convert mode the count is of the converted lines |
| `CommentRender.StripComments` | scripts/strip_comments.py:214-215 | From text to text: losslessness of both modes, the lines that stay and the number of those that do not |
| `CommentRender.RepublishedKeepsBytes` | scripts/strip_comments.py:171-202 | A republished comment is the comment with the second character of its opening doubled |
| `CommentRender.InkedPartsCount` | scripts/strip_comments.py:171-180 | The count of a converted comment is the number of its lines that hold ink |
| `CommentRender.ParameterCommentsCount` | scripts/strip_comments.py:197-200 | The preserved count is the number of block comments that name a parameter |
| `CommentRender.TokensAreProper` | scripts/strip_comments.py:110-133 | Comment tokens begin as comments, and code tokens are not empty |
| `CommentWords.StripKeepsWordsIff` | scripts/strip_comments.py:158-211 | For every token sequence, the words of the stripped text are those of the text with a blank for each comment if and only if nowhere do comments without a line end, and nothing else, stand between two characters that are not blank; every such place makes one word of two |
| `CommentWords.RenderedWords` | scripts/strip_comments.py:158-211 | Dropping, trimming and joining lines changes no word |
| `CommentRender.StripMayJoin` | scripts/strip_comments.py:191-208 | A text where strip mode joins: the code on both sides of a comment runs together |
| `CommentIdempotence.ConvertIsIdempotent` | scripts/strip_comments.py:71-139 | Converting twice is converting once for every text in which no prose block comment begins with a slash after its opening |
| `CommentIdempotence.ConvertIsIdempotentIff` | scripts/strip_comments.py:71-139 | For every text: converting twice is converting once if and only if the scanner finds no prose comment in the once-converted text |
| `CommentIdempotence.GrowsIffProse` | scripts/strip_comments.py:182-202 | Conversion never shortens a text, and keeps its length exactly when there is no prose comment |
| `CommentIdempotence.ConvertNotAlwaysIdempotent` | scripts/strip_comments.py:122-133 | A text with such a comment on which it is not |
| `CommentIdempotence.OneDocIffNotClosedEarly` | scripts/strip_comments.py:122-133 | A republished block comment is read back as one documentation comment exactly when the inserted star does not close it |
| `CommentIdempotence.ConvertedSettles` | scripts/strip_comments.py:83-139 | In a converted text the scanner finds no prose comment |
| `CommentIdempotence.KeptStep` | scripts/strip_comments.py:83-139 | Pieces that conversion leaves alone are found again at their new place |
| `CommentIdempotence.LineRepublished` | scripts/strip_comments.py:110-120 | A republished line comment is found as documentation of the same extent |
| `CommentIdempotence.BlockRepublished` | scripts/strip_comments.py:122-133 | And so is a republished block comment that the star does not close |
| `CommentIdempotence.TokensConvert` | scripts/strip_comments.py:182-202 | Converting the tokens is converting the pieces: merged code does not matter |
| `CommentIdempotence.RawBack` | scripts/strip_comments.py:88-96 | A raw-string opener seen after the insertions was there before |
| `KvSharing.ApplyAttentionPatterns` | src/model/inference.cpp:12-37 | Fails exactly when a windowed attention layer has no window, with the layers before the first such patterned and the rest untouched; otherwise every attention layer declared windowed has the window, every one declared causal or not at all is fully causal, and nothing else changed |
| `KvSharing.ApplyKvSharing` | src/model/inference.cpp:67-132 | No change without sharing; the two errors exactly, with the layers before the first one that lacks a publisher assigned and the rest untouched; otherwise every layer is what sharing assigns it |
| `KvSharing.LastOf` | src/model/inference.cpp:93-101 | The last unshared layer of a kind, or none |
| `KvSharing.WellSharedIff` | src/model/inference.cpp:67-132 | After success every consumer has exactly one publisher, unshared, of its own kind, the last such, and no norm of its own, exactly when the last unshared layer of every consuming kind attends |
| `KvSharing.AttentionOnlyIsWellShared` | src/model/inference.cpp:67-132 | Where every causal or windowed layer is an attention layer, success is enough for all of this |
| `KvSharing.ConvolutionHidesPublisher` | src/model/inference.cpp:95-101 | A convolution before the shared layers takes the publisher's place and leaves a consumer without one, and this pass does not fail |
| `KvSharing.ValidateSharing` | src/celeg/model/attention_sharing.hpp:41-66 | The later check accepts exactly when every group has one publisher, before each of its consumers |
| `KvSharing.AcceptedIffWellShared` | src/celeg/model/attention_sharing.hpp:41-66 | After sharing, that check accepts exactly the well-shared graphs |
| `KvSharing.InferSharing` | src/model/inference.cpp:147-149 | After both passes, where every causal or windowed layer is an attention layer, sharing is well formed and a consumer and its publisher have the same attention pattern, window included |
| `KvSharing.GroupNamesKind` | src/model/inference.cpp:87-92 | A group number names one kind |
| `WeightPlanKeys.PlanDistinctIff` | src/model/weight_plan.cpp:283-370 | The plan asks for no role, layer and expert twice exactly when no layer pairs an MLP block with a dense feed-forward |
| `WeightPlanKeys.LayerWithin` | src/model/weight_plan.cpp:308-366 | A layer's requests come in one strict order of roles, and of experts |
| `WeightPlanKeys.ClashDuplicates` | src/model/weight_plan.cpp:198-200 | An MLP block with a dense feed-forward asks for the up matrix twice |
| `WeightShapes.HeadsShareWidths` | src/model/weight_plan.cpp:91-132 | Ordinary attention: keys and values have one shape, a head's width for each of their heads as the output has for each query head, queries that or twice that with a packed gate, and all meet the hidden width |
| `WeightShapes.NormsAndGates` | src/model/weight_plan.cpp:96-132 | A norm spans one head or everything its matrix puts out, an unpacked gate one row for each head or each column of the output |
| `WeightShapes.HeadsQueryLatent` | src/model/weight_plan.cpp:75-90 | Direct latent attention: each head queries the whole latent vector, and the output takes one in for each head |
| `WeightShapes.HeadsQueryRotary` | src/model/weight_plan.cpp:78-87 | And the whole rotary part |
| `WeightShapes.FactorsChain` | src/model/weight_plan.cpp:53-74 | Factored projections: what one puts out is normed whole and is what the next takes in |
| `WeightShapes.ExpansionHoldsKeysAndValues` | src/model/weight_plan.cpp:53-74 | The latent expansion is as wide as the queries without their rotary part and the output's input together |
| `WeightShapes.DeltaSums` | src/model/weight_plan.cpp:154-184 | Delta net: the convolution covers queries, keys and values together, and the norm one value head of what the output takes in |
| `WeightShapes.DeltaPacked` | src/model/weight_plan.cpp:174-184 | One projection for all three puts out what the convolution runs over |
| `WeightShapes.MambaSums` | src/model/weight_plan.cpp:185-197 | The input projection puts out the gate, what the convolution runs over and a step size for each head |
| `WeightShapes.ConvolutionFits` | src/model/weight_plan.cpp:150-153 | The short convolution's input holds its three factors side by side |
| `WeightShapes.DenseFits` | src/model/weight_plan.cpp:327-345 | A dense feed-forward goes up from the hidden width twice, alike, and down by the same, and so does its parallel branch |
| `WeightShapes.ExpertsFit` | src/model/weight_plan.cpp:245-270 | The same for every expert and for the shared one, and the router has a row for each expert |
| `WeightShapes.PackedFits` | src/model/weight_plan.cpp:249-253 | Packed gate and up matrices are twice as high as the down matrices are wide, for as many experts |
| `WeightShapes.TablesFit` | src/model/weight_plan.cpp:292-307 | The head is shaped like the embedding, and the per-layer tables have one slice, as wide as their norm, for each layer |
| `WeightShapes.PlanNamesLayers` | src/model/weight_plan.cpp:308-313 | Every request of a layer names the checkpoint layer the graph maps it to, or its own number where there is no map |
| `PlanBuilder.Builder.AppendAttention` | src/model/weight_plan.cpp:38-138 | External memory, factorized or direct latent state, or ordinary keys and values, with gate and bias |
| `PlanBuilder.Builder.AppendMixer` | src/model/weight_plan.cpp:140-205 | The requests of each mixer |
| `PlanBuilder.Builder.AppendMoe` | src/model/weight_plan.cpp:237-279 | Router, routed experts packed or one by one, and shared expert |
| `PlanBuilder.Builder.AppendRouted` | src/model/weight_plan.cpp:249-263 | The loop over experts |
| `PlanBuilder.Builder.Build` | src/model/weight_plan.cpp:283-367 | The two errors exactly, and otherwise the plan of the graph |
| `LoweredProgram.LowerIndices` | src/model/program_builder.cpp:157-190 | The unlayered list and one list per layer, in order; the empty-layer error only for a layer without requests |
| `LoweredProgram.ListsPartition` | src/model/program_builder.cpp:159-187 | For the plan of any graph every request is in exactly one list, and no layer's list is empty |
| `LoweredProgram.OwnIsLayer` | src/model/weight_plan.cpp:308-366 | What the plan holds of a layer is what its specification asks for, in order |
| `LoweredProgram.KeyValueAgrees` | src/model/program_builder.cpp:37-41 | A non-latent attention layer has key and value requests exactly when its compiled has_key_value is set, and weighted key and value norms only with them |
| `LoweredProgram.QueryKeyNormAgrees` | src/model/program_builder.cpp:42 | The plan holds a query norm of a non-latent attention layer exactly when it has one with weights, and a query or key norm only under the compiled has_query_key_norm; under the flag it holds none exactly when the query norm has no weights and the key norm has none or belongs to a key the layer does not project |
| `LoweredProgram.PayloadElements` | src/model/program.cpp:76-85 | The sum of the regions, or overflow exactly when it does not fit |
| `LoweredProgram.PayloadFits` | src/model/program_builder.cpp:107-113 | No payload of 32-bit widths overflows |
| `LoweredProgram.RoutedAgrees` | src/model/weight_plan.cpp:249-263 | Packed and per-expert layouts ask for the same number of weights: experts times the compiled payload |
| `LoweredProgram.ExpertWeightsAgree` | src/model/program_builder.cpp:92-113 | The same holds for the experts of a layer within the whole plan of a graph |
| `SidecarFormat.LeRoundTrip` | src/checkpoint/detail/binary_codec.hpp:21-47 | A number that fits reads back from its little-endian bytes |
| `SidecarFormat.LeastByteFirst` | src/checkpoint/detail/binary_codec.hpp:21-32 | The least significant byte comes first: byte i is digit i of the number in base 256 |
| `SidecarFormat.HeaderRoundTrip` | tools/pack_experts.cpp:31-40 | A header of representable fields decodes to itself |
| `SidecarFormat.HeaderSlices` | tools/pack_experts.cpp:14-40 | The header holds the magic number at 0 and its fields at bytes 8, 12, 16 and 24 |
| `SidecarFormat.EntryRoundTrip` | tools/pack_experts.cpp:42-47 | An index entry of 64-bit fields decodes to itself |
| `SidecarFormat.AlignIsLeast` | tools/pack_experts.cpp:153 | Adding 4095 and masking gives the least multiple of 4096 at or after the position |
| `SidecarFormat.StartIsLeastAligned` | tools/pack_experts.cpp:152-159 | Each block starts at the least aligned position at or after the previous end |
| `SidecarFormat.RegionsApart` | tools/pack_experts.cpp:152-163 | Regions of different experts are disjoint and clear of the index |
| `SidecarFormat.IndexAt` | tools/pack_experts.cpp:172-176 | Entry k stands at its place in the index |
| `ExpertSidecar.OutputFile.Write` | tools/pack_experts.cpp:32 | Writing replaces what it covers, extends past the end, and advances |
| `ExpertSidecar.OutputFile.Pad` | tools/pack_experts.cpp:152-157 | Pads to the next aligned position |
| `ExpertSidecar.OutputFile.WriteTables` | tools/pack_experts.cpp:108-112 | Header and index from where the stream stands |
| `ExpertSidecar.Stage` | tools/pack_experts.cpp:148-150 | A copy into the staging buffer replaces exactly its stretch |
| `ExpertSidecar.PackExpert` | tools/pack_experts.cpp:136-168 | Appends one aligned block, gate and up then down, and returns its entry |
| `ExpertSidecar.Pack` | tools/pack_experts.cpp:94-176 | The finished file: tables for every expert in order, and every block in place |
| `ExpertSidecar.RewriteKeepsBlocks` | tools/pack_experts.cpp:172-176 | Rewriting header and index in place touches no byte behind them |
| `ExpertSidecar.Load` | src/runtime/moe/offload.cpp:269-346 | Accepts exactly a long enough file with the magic number and the expected shape, and decodes every entry |
| `ExpertSidecar.ReadsBack` | src/runtime/moe/offload.cpp:348-386 | Every expert reads back as its own gate, up and down matrices |
| `ExpertSidecar.PackAndLoad` | tools/pack_experts.cpp:94-176 | The loader accepts every packed file, and below 2^64 bytes every expert reads back |

## Left out

- KvSharing.ValidateSharing: the groups of the check; that the state specifications of a consumer and its publisher match is not modelled.
- HalfPrecision.HalfUnitsBound: a superblock with an infinite unit is outside it, as its decoded values are no reals; `HalfOf` has a stand-in there that no lemma relies on.
- Q4KBound.ReconstructionBound: the scale unit is non-negative, as every stored unit is.
- Q4KError.ResolvedBound: one direction, for units that resolve the input; `Q4KBound.ReconstructionBound` has both.
- Q4KEncoder.PackAndDecode: takes inputs the encoder accepts, its two refusals are those of `Q4KEncoder.Quantize`; the two unit fields of a block are their values, not their sixteen bits.
- CommentIdempotence.ConvertIsIdempotent: a sufficient condition on the text itself; `CommentIdempotence.ConvertIsIdempotentIff` is exact, on the text converted once.
- PollingLoop.OrderlyClientsKeepTheLoop: a sufficient discipline for clients; `PollingLoop.LoopEndsIff` is exact.
- Liveness.EveryWatcherIsServed: the passes have no client in between; `Progress.EveryWatchIsAnswered` has clients at every step.
- Progress.EveryWatchIsAnswered: clients stop no thread and leave the id to the dispatcher; a run that stops a thread may leave a watch unanswered.
- TokenSampler.Sample: no NaN or infinite scores and no forced prefix; over floats the cumulated sum can round below the target, so the fallback that is unreachable over reals may be reached there.
- AttentionReach.RaisingAValue: exact arithmetic, as rounding to bfloat16 can hide a small raise.
- WeightShapes.NormsAndGates: the gate of a latent attention is as wide as its output takes in by definition; only ordinary attention is stated.
- TokenSampler.Draw: takes a target within the mass of the nucleus, which `TokenSampler.Sample` establishes from the generator.
- LatentAttention.Decode: window and block arithmetic is on unbounded integers, and a zero block size, which divides by zero in the original, is excluded.
- Guarantees.EndToEnd: assumes that nobody else polls, releases, cancels or rewatches the id; `Guarantees.CancelSilences` and `Dispatcher.OneFinishOneRelease` hold without that.
- DispatcherObject.GenerationDispatcher.DispatchOnce: one thread's pass with no other thread in between; `Dispatcher` interleaves the lock regions.
- MetalSession.MetalInferenceSession.PrefillTokens: chunking and device submission are inside the abstract engine; multimodal prefill and multi-axis positions are not modelled.
- ExpertSidecar.Pack: stream failures, free-space checks and the mapping of source tensors are not modelled.
- ExpertSidecar.Load: error texts and memory mapping are not modelled.
- PlanBuilder.Builder.Build: tensor names, fingerprints and the resolution of candidates against a checkpoint are not modelled; packed or per-expert storage is a parameter.
- LoweredProgram.LowerIndices: position scaling and the program's own validation pass are not modelled.
- CommentRender.StripComments: reading and writing files and the command line of the script are not modelled.
- The 64-bit id counter of the service does not wrap.
- Throughput figures, clocks, sleeping, `status` and `model_info` of the service and dispatcher, and the joining of the loop thread on destruction.
- A moved-from snapshot is an absent one.
- The other ggml formats and their codebooks, whose tables are not part of this model.
- CPU, CUDA and Metal kernels, downloads, HTTP serving, the C interface and benchmark scripts.
