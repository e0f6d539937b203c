# Laminar Inference: models and proofs

Laminar serves language-model requests through a Go gateway, which admits, queues and batches them, and a
C++ backend, which schedules token steps over a paged KV cache or reads a llama server's event stream.  This
project models the parts of both whose correctness depends on state and order, and proves what they keep.

* **The KV-cache allocator and the continuous batcher** (`KeyOrder`, `KvCache`, `KvInvariant`, `KvTheory`,
  `KvOperations`, `KvPrompt`, `KvSequence`, `KvHistory`, `KvStats`, `KvAllocator`; `Scheduler`, `SchedulerInvariant`,
  `SchedulerPhases`, `SchedulerRun`, `SchedulerTiming`, `SchedulerTrace`, `SchedulerCache`, `SchedulerTheorems`,
  `SchedulerSizes`, `SchedulerBudget`, `SchedulerReport`, `ContinuousBatcher`; `PrefixKey`, `BackendRequests`).  `KvAllocator.KvBlockAllocator` and
  `ContinuousBatcher.ContinuousBatcher` update their fields in place, as the C++ does; each method is proved
  equal to a function on values, and the theorems are about those functions over all histories and all runs.
* **The event-stream reader** (`Json`, `JsonStandard`, `LlamaStream`, `StreamFraming`, `StreamCounts`): the incremental reader agrees with the
  whole-body parser for every way the network can cut the body, and the escaper and the reader undo each other
  exactly when they can.
* **The gateway's concurrent machines** (`Admission`, `Gateway`, `GatewayTheorems`, `GatewayProgress`,
  `GatewayAnswers`;
  `Exporter`, `ExporterTheorems`; `WorkerPool`, `WorkerPoolRuns`): each mutex section and each channel
  operation is one atomic step, and the theorems hold after every interleaving of any number of them.

`Sums` holds lemmas about sums over sequences.

## What turned out not to hold

Four things a reader might expect are false of the code.  Each is stated with the exact condition under which
it does hold.

* **Blocks can leak.**  A prompt that reuses a cached prefix key with another number of cacheable tokens
  replaces the cache entry; the old entry's blocks keep their key, belong to no entry, and are never freed
  (`continuous_batcher.cc:187-188`, `:231`).  `KvHistory.LeakExample` shows it with four calls;
  `KvHistory.LeaksExactlyOnOverwrite` says a history leaks if and only if some accepted prompt does this, and
  `KvHistory.ConsistentNeverOverwrites` that it never happens when a key always comes with one length - which is how
  the repository's own backend uses it (`BackendRequests.BackendLeaksNothing`).
* **Reported tokens can fall short of decoded tokens.**  A cancelled request reports no generated tokens
  (`continuous_batcher.cc:368-379`).  `SchedulerBudget.CutShortExample` shows a run that decodes one token and
  reports none; `SchedulerTheorems.AccountingTheorem` says the results add up to the decoded tokens if and only
  if the callback does not first answer yes before a step at which an unfinished request has had a token.
* **Escaping does not always round-trip.**  The reader undoes `\n`, `\r` and `\t` only, so a string comes back
  unchanged if and only if it has no other control character (`StreamFraming.RoundTripTheorem`);
  `StreamFraming.RoundTripFails` shows one that does not.
* **A text can pass for a count.**  The reader looks for the first occurrence of a quoted field name, and a rendered
  text that is, or ends with a quote and, the name `tokens_evaluated` contains one.  The reader then takes the
  next number, which is the predicted count (`inference_backend.cc:1145-1163`).  `StreamCounts.MimicExample` shows
  it; `StreamCounts.CountsTheorem` says that the evaluated count comes back if and only if the last text is not
  such a one or the two counts are equal.  The predicted count always comes back.

## Model

| member | source | states |
|---|---|---|
| KvAllocator.KvBlockAllocator.constructor | backend/scheduling/continuous_batcher.cc:59-63 | a new allocator is valid, with at least one block, all free, and at least one token per block |
| KvAllocator.KvBlockAllocator.FreeBlockCount | backend/scheduling/continuous_batcher.cc:65-69 | the count is the size of the set of unoccupied blocks |
| KvAllocator.KvBlockAllocator.SetBlock | backend/scheduling/continuous_batcher.cc:136-142 | writes one block and records the new state, so that the history is gapless and its peak follows |
| KvAllocator.KvBlockAllocator.PrefixEntryIsIdle | backend/scheduling/continuous_batcher.cc:80-90 | idle means that every block of the entry exists and has no reference |
| KvCache.CeilDivIsJustEnough | backend/scheduling/continuous_batcher.cc:16-21 | the quotient is rounded up: that many blocks hold the tokens, and one block fewer would not |
| KvCache.JustEnoughIsUnique | backend/scheduling/continuous_batcher.cc:16-21 | only one number of blocks is just enough |
| KeyOrder.LessIsLexicographic | backend/scheduling/continuous_batcher.cc:151-152 | a key comes before another exactly when it is a proper prefix of it or has the smaller character where they first differ |
| KvAllocator.KvBlockAllocator.FreeBlocks | backend/scheduling/continuous_batcher.cc:92-97 | exactly the listed blocks become free, ids that name no block are skipped, and the peak of used blocks does not move |
| KvAllocator.KvBlockAllocator.EvictIdlePrefixesUntil | backend/scheduling/continuous_batcher.cc:99-112 | the walk evicts exactly the shortest run of idle prefixes from the front of the map; each evicted key precedes, character by character, every idle key that stays |
| KvAllocator.KvBlockAllocator.EnsureFreeBlocks | backend/scheduling/continuous_batcher.cc:114-120 | nothing is evicted without shortage, and the answer says whether enough blocks are free afterwards |
| KvAllocator.KvBlockAllocator.AllocateBlocks | backend/scheduling/continuous_batcher.cc:122-147 | hands out the lowest free blocks after evicting what the need requires, or nothing; the recorded history of block states only grows, one block write at a time, and the high watermark is its peak, transient states included |
| KvAllocator.KvBlockAllocator.AllocatePrompt | backend/scheduling/continuous_batcher.cc:159-235 | keeps the whole invariant and the watermark; its new state and answer are those that the prompt theorem describes, error cases included; an accepted prompt gets just enough blocks for its cacheable tokens and just enough for the others |
| KvAllocator.KvBlockAllocator.AppendTokens | backend/scheduling/continuous_batcher.cc:237-263 | keeps the whole invariant and the watermark; its new state and answer are those that the append theorem describes; the blocks attached are just those that the new total lacks |
| KvAllocator.KvBlockAllocator.ReleaseSequence | backend/scheduling/continuous_batcher.cc:265-283 | keeps the whole invariant and the watermark, and its new state is the one that the release theorem describes |
| KvAllocator.KvBlockAllocator.Stats | backend/scheduling/continuous_batcher.cc:285-293 | the reported counts are the sizes of the sets of all, occupied and unoccupied blocks, of the live sequences and of the cached prefixes |
| KvAllocator.KvBlockAllocator.SequenceBlockCount | backend/scheduling/continuous_batcher.cc:295-301 | the number of blocks a live sequence lists, zero for one that is not live |
| KvStats.AllocateCounts | backend/scheduling/continuous_batcher.cc:99-147 | an allocation counts one eviction for every prefix that goes and one failure when it hands out nothing |
| KvStats.PromptCounts | backend/scheduling/continuous_batcher.cc:159-235 | a prompt counts a hit exactly when it shares a cached prefix and succeeds, a miss exactly when it has cacheable tokens and does not find them, and a failure exactly when its blocks do not fit; each refusal has its message |
| KvStats.AppendCounts | backend/scheduling/continuous_batcher.cc:237-283 | an append that fails for want of blocks counts one failure; appends and releases count no hit and no miss |
| KvTheory.LowestFreeSpec | backend/scheduling/continuous_batcher.cc:132-144 | the scan picks distinct free blocks, as many as asked for if there are that many, and skips no lower free block |
| KvTheory.AllocateBlocksOutcome | backend/scheduling/continuous_batcher.cc:122-147 | allocation succeeds if and only if the request fits beside the blocks no eviction can free; blocks handed out were nobody's; a failure moves no reference count |
| KvInvariant.EntrySharesOneRefCount | backend/scheduling/continuous_batcher.cc:189-206 | all blocks of one cached prefix share one reference count |
| KvInvariant.RunIsShortest | backend/scheduling/continuous_batcher.cc:99-112 | without its last key the evicted run would leave too few free blocks, and it stops short of the need only when it holds every idle key |
| KvInvariant.DropIsSafe | backend/scheduling/continuous_batcher.cc:106-110 | dropping idle prefixes keeps the ownership invariant, even while an unfinished allocation holds blocks |
| KvInvariant.DropKeepsPins | backend/scheduling/continuous_batcher.cc:106-110 | dropping idle prefixes leaves every referenced or orphaned block exactly as it was |
| KvInvariant.EvictFreesAllItCan | backend/scheduling/continuous_batcher.cc:99-120 | eviction reaches the need if and only if the need and the pinned blocks fit together |
| KvInvariant.EvictionTheorem | backend/scheduling/continuous_batcher.cc:99-120 | eviction happens only under shortage; evicted prefixes have no referenced block and each precedes, character by character, every unreferenced one that stays; every shorter run would fall short; all go if that is not enough; pinned blocks and sequences stay as they were |
| KvOperations.UnholdKeepsInvariant | backend/scheduling/continuous_batcher.cc:195-199 | dropping the hold on a shared prefix after a failed hit restores the invariant and orphans nothing |
| KvOperations.HandBackKeepsInvariant | backend/scheduling/continuous_batcher.cc:217-221 | handing back prefix blocks after a failed suffix restores the invariant |
| KvOperations.CommitKeepsInvariant | backend/scheduling/continuous_batcher.cc:224-233 | listing the held blocks in the new sequence turns the held state into the invariant |
| KvOperations.RecachedOrphans | backend/scheduling/continuous_batcher.cc:227-232 | storing a new entry orphans exactly the blocks of the entry it replaces |
| KvOperations.HitSucceeds | backend/scheduling/continuous_batcher.cc:189-205 | with room for the suffix, a hit attaches the shared prefix and new suffix blocks and keeps the invariant |
| KvOperations.HitFails | backend/scheduling/continuous_batcher.cc:193-200 | without room for the suffix, a hit changes no sequence and no reference count |
| KvPrompt.TwoPhasesEvictAsOne | backend/scheduling/continuous_batcher.cc:210-216 | allocating the prefix and then the suffix evicts the same prefixes as one allocation of both |
| KvPrompt.MissSucceeds | backend/scheduling/continuous_batcher.cc:210-234 | with room for prefix and suffix, a miss attaches both, caches the prefix and keeps the invariant |
| KvPrompt.MissFails | backend/scheduling/continuous_batcher.cc:210-222 | without room for both, a miss takes everything back, at whichever phase it fails |
| KvPrompt.AllocatePromptTheorem | backend/scheduling/continuous_batcher.cc:159-235 | a prompt is accepted if and only if its id is new and non-empty and its new blocks fit beside the pinned ones, counting a prefix it hits as pinned; refusal changes no sequence and no reference count; the evicted prefixes, the cache entry, the attached blocks and the orphans are exact |
| KvPrompt.OrphansExactlyOnOverwrite | backend/scheduling/continuous_batcher.cc:185-232 | a prompt orphans blocks if and only if it is accepted and overwrites a cached prefix of another length |
| KvSequence.AppendTokensTheorem | backend/scheduling/continuous_batcher.cc:237-263 | an append is accepted if and only if its sequence is live and its new blocks fit; the sequence grows by exactly the missing blocks; a failure changes nothing live |
| KvSequence.ReleaseTheorem | backend/scheduling/continuous_batcher.cc:265-283 | a release frees exactly the sequence's unshared blocks, keeps its cached prefix resident and orphans nothing |
| KvHistory.AfterKeepsInvariant | backend/scheduling/continuous_batcher.cc:159-283 | every history of calls, failing ones included, keeps the ownership invariant |
| KvHistory.OwnershipTheorem | backend/scheduling/continuous_batcher.cc:40-283 | after any calls a reference count is the number of live sequences listing the block, unshared blocks have at most one owner, cached prefixes are disjoint, and with consistent keys a block is occupied if and only if it is referenced or cached |
| KvHistory.AllocationTheorem | backend/scheduling/continuous_batcher.cc:159-263 | when keys are used consistently, a prompt or an append succeeds if and only if the blocks that are just enough for what it lacks are at most all blocks minus those of live sequences, the prefix it hits counting as live |
| KvHistory.LeaksExactlyOnOverwrite | backend/scheduling/continuous_batcher.cc:187-232 | a history leaks blocks if and only if some call in it overwrites a cached prefix of another length |
| KvHistory.ConsistentNeverOverwrites | backend/scheduling/continuous_batcher.cc:185-232 | when a key always comes with one cacheable length, no call ever overwrites |
| KvHistory.LeakExample | backend/scheduling/continuous_batcher.cc:227-232 | four calls after which nothing is live and a block is lost for good |
| KvHistory.BlocksHeldTheorem | backend/scheduling/continuous_batcher.cc:247-262 | a live sequence holds its prompt's blocks and the blocks of its accepted tokens, however appends were split and whatever else was called |
| KvHistory.SequenceSizeTheorem | backend/scheduling/continuous_batcher.cc:176-183 | from its prompt on a sequence has just enough blocks for its cacheable prompt tokens, for its other prompt tokens, and for the tokens accepted so far |
| SchedulerPhases.RankSorts | backend/scheduling/continuous_batcher.cc:360-366 | the candidates come out ordered by priority and then index, with the same members |
| SchedulerPhases.RankIsUnique | backend/scheduling/continuous_batcher.cc:391-392 | there is only one such order, so any correct sort gives it |
| SchedulerPhases.PrefillPhaseEffect | backend/scheduling/continuous_batcher.cc:394-423 | a prefill phase refuses or fills its candidates in rank order, within the budget, and touches nobody else |
| SchedulerPhases.PrefillKeepsOrder | backend/scheduling/continuous_batcher.cc:394-423 | prompts are read strictly in rank order |
| SchedulerPhases.DecodePhaseEffect | backend/scheduling/continuous_batcher.cc:438-468 | a decode phase gives each chosen candidate one token or rejects it, names each decoded sequence once, and touches nobody else |
| SchedulerPhases.FinishPhaseEffect | backend/scheduling/continuous_batcher.cc:470-481 | exactly the ready requests that ask for no tokens complete |
| SchedulerRun.TurnByRank | backend/scheduling/continuous_batcher.cc:432-439 | a decodable request gets a turn if and only if fewer than the decode width rank ahead of it |
| SchedulerRun.StepTheorem | backend/scheduling/continuous_batcher.cc:367-496 | a step keeps the boundary invariant, and an unfinished run loses work in every step |
| SchedulerTiming.StartedGetsATurn | backend/scheduling/continuous_batcher.cc:425-439 | a request that has had a token gets its turn in the next step too, because whoever becomes ready later ranks behind it |
| SchedulerTrace.TraceTheorem | backend/scheduling/continuous_batcher.cc:367-496 | a run takes the steps of the trace, one record each, up to the first moment when everything is done or the callback answers yes, and ends in that state or its cancellation |
| SchedulerTrace.CancelsWhereItStops | backend/scheduling/continuous_batcher.cc:367-379 | a run is cancelled before step n if and only if n is the step at which it stops with requests unfinished |
| SchedulerTheorems.TerminationTheorem | backend/scheduling/continuous_batcher.cc:367-498 | `Run` ends for every input and oracle with all requests done, in at most the sum of (prompt + max generated + 1) steps |
| SchedulerTheorems.ResourceReturnTheorem | backend/scheduling/continuous_batcher.cc:368-379 | on every exit no sequence is left, and what stays occupied is the cached prefixes and, without consistent keys, orphans |
| SchedulerTheorems.NoPreemptionTheorem | backend/scheduling/continuous_batcher.cc:425-468 | a completed request takes exactly one step per token from its first to its last |
| SchedulerTheorems.FirstTokenTheorem | backend/scheduling/continuous_batcher.cc:455-457 | among requests that get a token, first tokens come in priority order |
| SchedulerTheorems.StrictPriorityTheorem | backend/scheduling/continuous_batcher.cc:385-423 | at every step boundary of every run at most one prompt is partly read, everything before it is ready or done, and nothing after it has been touched |
| SchedulerTheorems.AccountingTheorem | backend/scheduling/continuous_batcher.cc:368-495 | every step is within both budgets; decoded tokens are the generated tokens; results report them all if and only if the run is not cancelled while an unfinished request has had a token; without cancellation prefill tokens are the prompts of exactly the admitted requests |
| SchedulerBudget.CutShortExample | backend/scheduling/continuous_batcher.cc:368-379 | a run, cancelled after its first step, that decodes one token and reports none |
| SchedulerBudget.PrefillFillsUp | backend/scheduling/continuous_batcher.cc:394-423 | a prefill phase with budget to spare leaves no candidate waiting |
| SchedulerBudget.WorkConservationTheorem | backend/scheduling/continuous_batcher.cc:394-423 | every step of every run reads the lesser of its budget and the unread prompt tokens of the waiting requests that have their blocks |
| SchedulerReport.ReportTheorem | backend/scheduling/continuous_batcher.cc:488-505 | the statistics count the steps that prefilled and decoded; results report as many hits as the cache counted, and as many exhausted requests as it counted failures; no sequence is left; block counts are the sizes of actual sets |
| SchedulerReport.RecordTheorem | backend/scheduling/continuous_batcher.cc:381-495 | every record counts the requests unfinished before its step and those ready and the blocks occupied after it; every result's message fits its status |
| SchedulerTheorems.CapacityTheorem | backend/scheduling/continuous_batcher.cc:313-506 | if numbers of blocks that can hold each request's tokens fit in the cache together, every request completes with all its tokens |
| SchedulerTheorems.ClampedIsPositive | backend/scheduling/continuous_batcher.cc:303-311 | every setting is the one asked for if that is positive, and else its default of 64, 8, 1024 or 16 |
| SchedulerSizes.SizeTheorem | backend/scheduling/continuous_batcher.cc:459-466 | a completed request's result reports just enough blocks for its cacheable prompt tokens, its other prompt tokens and its generated tokens, read before the sequence is released |
| SchedulerSizes.RefusedSize | backend/scheduling/continuous_batcher.cc:404-410 | a refused prompt reports the blocks that its id holds at that moment, none unless another live request has the same id |
| SchedulerCache.AgreeingNeverOverwrites | backend/scheduling/continuous_batcher.cc:399-403 | requests that agree on their keys' lengths never overwrite a cached prefix |
| SchedulerCache.TokenFits | backend/scheduling/continuous_batcher.cc:440-441 | while the free blocks cover what is still needed, a decode candidate's append succeeds |
| ContinuousBatcher.ContinuousBatcher.PrefillPass | backend/scheduling/continuous_batcher.cc:385-423 | the loop over a real allocator does what the prefill phase does to the value |
| ContinuousBatcher.ContinuousBatcher.AdmitOne | backend/scheduling/continuous_batcher.cc:399-422 | one candidate's turn: prompt allocation or rejection, then budget |
| ContinuousBatcher.ContinuousBatcher.DecodePass | backend/scheduling/continuous_batcher.cc:425-468 | the loop over a real allocator does what the decode phase does to the value |
| ContinuousBatcher.ContinuousBatcher.DecodeOne | backend/scheduling/continuous_batcher.cc:439-467 | one candidate's turn: a token, completion or rejection |
| ContinuousBatcher.ContinuousBatcher.FinishPass | backend/scheduling/continuous_batcher.cc:470-481 | the loop completes exactly the ready requests that ask for no tokens |
| ContinuousBatcher.ContinuousBatcher.CancelPass | backend/scheduling/continuous_batcher.cc:368-379 | the loop marks and releases exactly the unfinished requests |
| ContinuousBatcher.ContinuousBatcher.StepOnce | backend/scheduling/continuous_batcher.cc:381-495 | one turn of the loop takes the step that the step theorem is about, and records it |
| ContinuousBatcher.ContinuousBatcher.Run | backend/scheduling/continuous_batcher.cc:313-506 | the loop ends and its report is that of the run the theorems are about: results, steps and statistics |
| PrefixKey.PrefixCacheKey | backend/inference_backend.cc:500-512 | the loop builds the key that the injectivity lemma is about, empty when there are too few tokens |
| PrefixKey.EqualKeysMeanEqualPrefixes | backend/inference_backend.cc:500-512 | two prompts get the same non-empty key if and only if both are long enough and start with the same tokens |
| PrefixKey.KeyExample | backend/inference_backend.cc:500-512 | what a key looks like |
| BackendRequests.BackendKeysAgree | backend/inference_backend.cc:1760-1772 | the backend's own batches use every prefix key with one length |
| BackendRequests.BackendLeaksNothing | backend/inference_backend.cc:1753-1775 | after a backend's run, however it ends, no sequence is left and the occupied blocks are exactly those of cached prefixes |
| Json.TrimIsIdempotent | backend/inference_backend.cc:1168-1168 | trimming leaves no space at either end |
| Json.SpacesAre | backend/inference_backend.cc:1095-1098 | the six characters that count as space |
| Json.FindIsFirst | backend/inference_backend.cc:1086-1090 | where a key occurs at all, the search finds its first occurrence |
| Json.ExtractJsonStringField | backend/inference_backend.cc:1083-1140 | the scanning loop with its escape flag reads the same value, or fails on the same texts, as the recursive grammar the round trip is about |
| Json.ExtractJsonIntField | backend/inference_backend.cc:1142-1164 | the scanning loop reads the first number after the field's colon, saturated to 64 and truncated to 32 bits |
| Json.JsonEscape | backend/inference_backend.cc:657-693 | the loop writes the escaped form that the round trip is about |
| JsonStandard.StandardReaderTheorem | backend/inference_backend.cc:657-693 | a reader of the string grammar of section 7 of RFC 8259 gets back every string that the escaper renders, control characters included |
| JsonStandard.ReaderAgreesWithStandard | backend/inference_backend.cc:1105-1128 | the server reader undoes every short escape as the standard does, but for backspace and form feed |
| Json.ReadEscape | backend/inference_backend.cc:1105-1138 | reading back an escaped string ends at its own closing quote, whatever follows, and yields what the reader makes of each escape |
| Json.UnterminatedIsNone | backend/inference_backend.cc:1105-1139 | a string without its closing quote is not read at all |
| Json.RestoredExactlyWhenRestorable | backend/inference_backend.cc:1107-1126 | the reader restores a string if and only if its only control characters are newline, carriage return and tab |
| LlamaStream.ParseLlamaServerChunk | backend/inference_backend.cc:1166-1189 | content and both counts are read from the trimmed text, and nothing from the end marker |
| LlamaStream.MergeLlamaServerJsonChunk | backend/inference_backend.cc:1191-1206 | content is appended and a non-negative count replaces the old one |
| LlamaStream.ParseLlamaServerCompletion | backend/inference_backend.cc:1208-1231 | the line loop folds every data line of the body |
| LlamaStream.StreamReader.ConsumeLine | backend/inference_backend.cc:2221-2260 | one line's effect on completion, token index and emitted events, and whether the caller refused |
| LlamaStream.StreamReader.OnBody | backend/inference_backend.cc:2262-2275 | consumes every complete line of what is pending and keeps the rest |
| LlamaStream.StreamReader.Process | backend/inference_backend.cc:2277-2295 | however the body is cut, the outcome is that of its lines; deltas add up to the content; and when no event is refused the completion is the whole-body parser's |
| LlamaStream.DrainThenRest | backend/inference_backend.cc:2262-2275 | draining what has arrived and reading the rest later is reading the lines of the whole text; after a refusal nothing more is read |
| LlamaStream.StreamAgreesWithBatch | backend/inference_backend.cc:2221-2260 | when no event is refused, the stream's completion is the batch parser's |
| LlamaStream.StreamIsConsistent | backend/inference_backend.cc:2246-2259 | emitted deltas concatenate to the content and the token index counts them |
| LlamaStream.EventsAreSnapshots | backend/inference_backend.cc:2246-2259 | every event carries the counts of the completion as it stands after some line |
| LlamaStream.OtherLinesAreIgnored | backend/inference_backend.cc:1218-1226 | lines that are not data, empty data and the end marker change nothing |
| LlamaStream.CuttingDoesNotMatter | backend/inference_backend.cc:2262-2295 | two ways of cutting one body end in the same state and events, even when an event is refused part-way |
| StreamFraming.EnvelopeContent | backend/inference_backend.cc:1083-1140 | the content field of a rendered string is what the reader sees of that string |
| StreamFraming.EnvelopeHasNoNumbers | backend/inference_backend.cc:1142-1164 | no string can pass itself off as another field of its envelope |
| StreamFraming.FramingTheorem | backend/inference_backend.cc:1208-1231 | a rendered list of strings is read as one chunk per string, with no token count |
| StreamFraming.RoundTripTheorem | backend/inference_backend.cc:657-697 | the round trip restores the strings if and only if their only control characters are newline, carriage return and tab |
| StreamFraming.RoundTripFails | backend/inference_backend.cc:682-685 | the control character 1 comes back as the text u0001 |
| StreamCounts.NumberIsRead | backend/inference_backend.cc:1158-1163 | a rendered integer is read back, kept within 64 bits, whatever follows it |
| StreamCounts.SignsAreRead | backend/inference_backend.cc:1158-1162 | a plus sign is skipped, and a sign or nothing before a non-digit is no number |
| StreamCounts.NarrowingIsModular | backend/inference_backend.cc:1163-1163 | narrowing keeps the value modulo two to the thirty-second, and values that fit |
| StreamCounts.PredictedIsRead | backend/inference_backend.cc:1178-1182 | the predicted count of a rendered event is always read back, whatever its text |
| StreamCounts.EvaluatedIsRead | backend/inference_backend.cc:1183-1187 | the evaluated count is read back unless the text mimics its field name, and then the predicted one is read |
| StreamCounts.CountsTheorem | backend/inference_backend.cc:1191-1231 | a stream of events with counts gives back their texts, one chunk each, the last predicted count, and the last evaluated count if and only if the last text does not mimic that field or the counts are equal |
| StreamCounts.CountedRoundTrip | backend/inference_backend.cc:1191-1231 | with no other control characters the content is the texts unchanged, counts or not |
| StreamCounts.MimicExample | backend/inference_backend.cc:1145-1163 | the text `tokens_evaluated` makes the reader take 2 for 11 |
| Admission.Estimate | gateway/admission.go:46-56 | beyond the expected output, a prompt is charged the least positive number of tokens that covers it |
| Admission.AdmissionController.TryAcquire | gateway/admission.go:58-87 | a request is refused if and only if admission is on, the limit is positive and would be exceeded; the lease carries the tokens charged; each counter moves by exactly that |
| Admission.AdmissionController.GiveBackTokens | gateway/admission.go:89-100 | tokens are given back, never below zero |
| Admission.AdmissionLease.Release | gateway/admission.go:119-135 | only the first release gives tokens back |
| GatewayTheorems.LeaseIsCovered | gateway/admission.go:95-98 | an unreleased lease is covered by the in-flight count, so the clamp to zero never fires |
| GatewayTheorems.StepKeepsMetered | gateway/main.go:464-517 | every step keeps in-flight tokens equal to the unreleased leases and within a positive limit |
| GatewayTheorems.StepKeepsOrdered | gateway/main.go:519-555 | every step keeps the queue, batch and flushes in the order of arrival, the batch below its maximum, and the timer running exactly while the batch is non-empty |
| GatewayTheorems.StepKeepsDelivered | gateway/main.go:580-743 | every step keeps flushed requests split into those delivered and those still to be delivered |
| GatewayTheorems.SendKeepsDelivered | gateway/main.go:756-762 | the non-blocking send finds its slot free, so no response is dropped |
| GatewayTheorems.ReplyIsLastWord | gateway/main.go:697-706 | a request is answered with the worker's last text for its id, and with a missing-response error if and only if the worker sent none |
| GatewayTheorems.StepKeepsAnswers | gateway/main.go:464-517 | every step keeps each response with its own request, and no request returns with its lease unreleased |
| GatewayTheorems.AlwaysInv | gateway/main.go:464-762 | all of this holds after every interleaving |
| GatewayProgress.MeteringTheorem | gateway/admission.go:58-135 | in-flight tokens are the unreleased leases, stay within a positive limit, cover each lease, and are zero once every request has returned |
| GatewayProgress.FifoTheorem | gateway/main.go:519-555 | flushes, batch and queue together are the arrivals in order; flushes have between one and the maximum number of requests; the queue stays within its capacity; the timer runs if and only if a batch is being collected |
| GatewayProgress.DeliveryTheorem | gateway/main.go:580-762 | each request is delivered at most once; at the loop head the delivered ones are exactly the flushed ones; each response carries its own id; delivered requests have released their lease |
| GatewayAnswers.AnswerTheorem | gateway/main.go:464-762 | a submitter returns the response delivered for it or one of its own errors; each delivered response is a cancellation or what the worker call of its flush says about its id; that call is about some of the flush's requests, in order |
| GatewayAnswers.ReturnTheorem | gateway/main.go:467-516 | why a submitter returns, in terms of the limit, the queue and its slot, and with which response |
| GatewayAnswers.HandTheorem | gateway/main.go:585-598 | only a request found cancelled is answered with a cancellation by the batcher, and a reply says what the worker call came to |
| GatewayProgress.RequestMoves | gateway/main.go:487-516 | while a request has not returned, some step other than a cancellation is enabled: nobody is stranded |
| GatewayProgress.StepWorks | gateway/main.go:519-762 | every step but a new arrival uses up work |
| GatewayProgress.ProgressTheorem | gateway/main.go:464-762 | a run takes at most thirteen steps per arriving request, and never stops before every request can return without being cancelled |
| ExporterTheorems.StepKeepsConserved | gateway/otlp_exporter.go:119-233 | every step moves spans without losing or duplicating one |
| ExporterTheorems.RecordKeepsLedger | gateway/otlp_exporter.go:152-166 | recording a post keeps exported spans, pending spans and all counters in agreement |
| ExporterTheorems.StepKeepsPrefix | gateway/otlp_exporter.go:145-165 | a batch being posted stays a non-empty prefix of the pending spans, whatever else happens |
| ExporterTheorems.StepKeepsClosing | gateway/otlp_exporter.go:197-217 | once the loop has drained for the last time, the final flush takes everything unless spans are still offered |
| ExporterTheorems.ConservationTheorem | gateway/otlp_exporter.go:119-168 | spans offered are those dropped, about to be counted as dropped, queued, in transit, pending or exported, each once, and the counters say so |
| ExporterTheorems.QueueTheorem | gateway/otlp_exporter.go:119-131 | a span is refused exactly when the bounded queue is full; the background loop flushes after an addition exactly when a full batch is pending |
| ExporterTheorems.PostTheorem | gateway/otlp_exporter.go:145-167 | a success removes exactly the posted spans and a failure removes none |
| ExporterTheorems.OrderTheorem | gateway/otlp_exporter.go:197-233 | when only the background loop flushes, spans are exported in the order they were accepted |
| ExporterTheorems.CloseTheorem | gateway/otlp_exporter.go:187-217 | after a clean final flush with nothing offered since `Close`, every span was exported or dropped |
| WorkerPool.ChooseIsLeast | gateway/worker_pool.go:304-332 | the loop finds the endpoint with no deadline ahead such that every other such one has at least its calls in flight, among those as many at least its batches, and among those a higher index - and nothing if and only if every deadline lies ahead |
| WorkerPool.OnlyOneIsLeast | gateway/worker_pool.go:324-332 | the least loaded closed endpoint is unique, so the loop must choose it |
| WorkerPool.WorkerEndpoint.Begin | gateway/worker_pool.go:334-344 | one more batch in flight and in total |
| WorkerPool.WorkerEndpoint.Finish | gateway/worker_pool.go:346-375 | a failure counts and opens the circuit at the threshold; a success resets the circuit |
| WorkerPool.WorkerEndpoint.RefreshCircuit | gateway/worker_pool.go:430-444 | an expired deadline closes the circuit and clears the failures in a row; the answer is whether it is open |
| WorkerPool.WorkerEndpoint.SelectionState | gateway/worker_pool.go:377-389 | refreshes the circuit and reports index, load and whether the circuit is open, all of the same moment |
| WorkerPool.Pool.SelectEndpoint | gateway/worker_pool.go:304-322 | returns the endpoint that is least by in-flight count, then batches, then index, or null if and only if every circuit is open; every endpoint looked at is refreshed |
| WorkerPool.Pool.ProcessBatch | gateway/worker_pool.go:215-227 | a call with nothing in between does what the round-robin theorem is about |
| WorkerPoolRuns.RoundRobinTheorem | gateway/worker_pool.go:304-332 | when calls do not overlap and all succeed, the i-th batch goes to endpoint i mod n and loads differ by at most one |
| WorkerPoolRuns.RunningIsCounted | gateway/worker_pool.go:348-350 | a call under way is counted, so finishing it never meets the clamp |
| WorkerPoolRuns.BreakerTheorem | gateway/worker_pool.go:346-444 | the failure that reaches the threshold keeps its endpoint out of every choice until the reset time has passed, a success puts it back at once, and only a look after the deadline forgets the failures |
| WorkerPoolRuns.StepKeepsInv | gateway/worker_pool.go:334-444 | every step keeps every endpoint's counters equal to the calls begun, under way and failed, and the breaker's deadline in step with the failures in a row |
| WorkerPoolRuns.AccountingTheorem | gateway/worker_pool.go:266-375 | after every interleaving in-flight is begun minus finished, failures plus in-flight are at most the total, the deadline is set if and only if failures in a row reach the threshold, and nothing is in flight once every call is over |

## Left out

- `average_decode_batch_size`, a quotient of two counters that are modelled, is floating point; timings and formatted output are not part of this model.
- 32-bit overflow of block and token arithmetic and 64-bit wrap-around of counters: integers are unbounded, except where the reader of numbers truncates and saturates.
- `std::sort` is an insertion by rank (its result is proved unique) and `std::map` order is byte-wise key order (`KeyOrder`).
- `is_cancelled` is an arbitrary function of the number of earlier calls; whether an event is refused is an arbitrary function of the number of earlier events.
- Strings are sequences of characters that stand for bytes: no step looks at a byte above 0x7f specially, and encodings are not modelled.
- Tokenising and generating text in the tiny models is floating-point arithmetic; token ids appear only as input to `PrefixCacheKey`.
- Admission.Estimate: takes the length of the trimmed prompt and computes over the reals, where the source multiplies floating-point numbers.
- The gateway, exporter and worker-pool goroutines are state machines on values whose steps are the mutex sections and channel operations; the Go memory model below that is not modelled.  `WorkerPool` keeps the endpoint and the selection loop as classes as well.
- Request ids in `Gateway` are positions in the order of arrival; the text `req-N` is not built.
- Timers are flags, clock readings are arbitrary numbers, and a request's context may be cancelled at any step where the code looks at it.
- The batching policy is arbitrary except that it must flush a full batch; the batcher's own circuit breaker and the classification of worker errors are an arbitrary verdict per flush.
- `pooledInferenceStream.finish` runs once: a call that has ended has no further step in `WorkerPoolRuns`.
- Sockets, HTTP, gRPC, JSON marshalling of exported spans, metrics, traces and log lines are not part of this model.
- The tracing ring buffer, configuration parsing and normalisation, and the adaptive waiting time would add only easy members.
