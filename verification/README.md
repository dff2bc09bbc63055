# A verified model of galay-tracing

galay-tracing is a C++ distributed-tracing library. This project models its hard parts in Dafny and proves what they
promise, for every input, every interleaving and every reachable state. `dafny verify dfyconfig.toml` checks it all.

| files | what they model |
|---|---|
| `BatchProtocol` | the lock-free batch span processor as a step system: any number of `onEnd`, `forceFlush` and `shutdown` calls against one worker, one step per atomic operation |
| `BatchControl`, `BatchQueue`, `BatchFlush`, `BatchShutdown`, `BatchWakeup`, `BatchExport` | the inductive invariants, one concern each, and their preservation by every step |
| `BatchTheorems`, `BatchTermination` | the promises over all runs, and the termination of shutdown |
| `BatchOutcomes`, `BatchAnswers`, `BatchInterval` | exactly what every call returns and when it notifies, and what every turn of the worker loop exports |
| `BatchExact`, `BatchLimits` | exactly when a deadline breaks two of the promises, and two runs from the initial state in which one does |
| `Words`, `IdGenerator` | SplitMix64 on 64-bit words, identifier bytes and the retry loops |
| `Hex`, `Contexts`, `Traceparent` | hexadecimal text, identifiers and contexts, the W3C `traceparent` header (section 3.2 of W3C Trace Context) |
| `Sampling` | the built-in samplers and the global sampler |
| `ContextStorage`, `SpanGuards`, `ScopeRuns` | the thread-local context, guards and kernel scopes as classes, and all well-nested runs over them |
| `Json`, `JsonRoundTrip`, `JsonWriter`, `Decimals` | JSON values, a reader for RFC 8259 (sections 2 to 7), printing and reading back |
| `OtlpBody`, `OtlpDecode` | the OTLP/HTTP JSON body, the code that appends it, and what a reader recovers |
| `Wrappers`, `MapCount` | shared datatypes and counting lemmas |

## How to read the batch processor

Every call has its own identity, program counter and local variables; the worker's program counter names the lambda in
progress and its call site. A `Step` is one atomic operation, queue operation, clock read or exporter call of one
participant, or the passing of time. `Reachable(c, s)` says that `s` occurs in some run of a processor constructed with
the configuration `c`; `Inv` is the conjunction of the invariants, and `ReachableInv` connects the two. `log`,
`exported`, `drainCutShort`, `drainStart` and `pollExpired`, the fields `before`, `stores`, `releases`, `gaveUp` and
`drainedAt` of a request, and `joiner`, `sawStopped` and `endedAt` of a shutdown call are history: no step reads them.
`Sometime` says that something happens along a run.

Assumptions: atomics are sequentially consistent, although the operations on `size` are relaxed
(`batch_span_processor.cc:70` and `102`); the clock never goes backwards; a timed wait may time out at any moment; a
bulk pop of a non-empty queue returns between one and the requested number of elements in any order; an enqueue may
fail; the worker thread is joinable for the first call that claims the join. Everything the exporter answers is chosen
by the environment.

## Other modelling decisions

- 64-bit arithmetic is written out modulo 2^64. The host is little-endian, and the seed is an arbitrary word.
- Sampling ratios are exact reals; a NaN ratio has no counterpart.
- A character of a `string` stands for one byte of the C++ string; the escaping theorem covers every string. The
  reader accepts all JSON texts except those with the escape of an unpaired surrogate, which stands for no character
  and which the exporter never writes.
- The text of a finite double is an arbitrary JSON number token. NaN and infinities are printed as `nan`, `-nan`,
  `inf` and `-inf`, which is not JSON: `BodyRoundTrip` proves that the body is accepted if and only if no attribute is
  one of these, and `NaNBodyIsRejected` names such a body.
- `serial` in a span stands for the identity of the start call. What a move leaves in its source besides the cleared
  `active` flag is arbitrary, in the classes and in the runs.
- `galay-tracing/kernel/span_guard.h:76-79` says that `end()` restores the previous context. The code only ends the
  span (`span_guard.cc:92-96`), and `SpanGuards.SpanGuard.End` follows the code. `ScopeRuns.EndRestoresIff` says when
  the thread is in the saved state after `end()`, and `ScopeRuns.EndDoesNotRestore` that it is not after a start.
- The wakeup of `kOnEnd` mode can be lost when a flush deadline ends a drain. `NoLostSpanWakeup` holds in every state
  where no drain has been cut short with spans left since the worker last found the queue empty. At the deadline test
  itself `WakeupLostIff` gives the exact condition: the worker goes back to its wait and leaves a span without a wakeup
  if and only if the deadlines of the current and all queued requests have passed and no permit is there or coming.
  `ExpiredFlushLosesWakeup` is such a run.
- `exporter.shutdown` can come before the last export when a second `shutdown` call gives up polling.
  `SingleJoinSingleShutdown` puts it last in every state where none has, and at the clock test `LateExportIff` gives
  the exact condition: the deadline has passed and the worker has an exporter call ahead. `ExpiredPollExportsLate` is
  such a run.
- Whether writing a saved context back runs out of memory is a parameter of `Restore` and `Close`; the handler then
  clears the context.

## Model

| member | source | states |
|---|---|---|
| `BatchProtocol.Normalize` | galay-tracing/kernel/batch_span_processor.cc:35-42 | every configuration becomes one with 1 <= batch size <= capacity and a positive interval; such a configuration is left alone |
| `BatchProtocol.NormalizeNearest` | galay-tracing/kernel/batch_span_processor.cc:35-42 | each number is moved to the nearest one allowed |
| `BatchControl.ControlStep` | galay-tracing/kernel/batch_span_processor.cc:347-380 | the worker is only ever at the call sites of its lambdas, acts on shutdown only after seeing it, has stopped exactly when it left the loop, and leaves it only from a look at the request queue that found nothing |
| `BatchQueue.QueueStep` | galay-tracing/kernel/batch_span_processor.cc:66-107 | every step keeps the size identity, the capacity bound, the drop count, and the partition of accepted spans into queued, held and exported |
| `BatchFlush.GateStep` | galay-tracing/kernel/batch_span_processor.cc:214-238 | every step keeps: `activeFlushCallers` counts the calls inside the gate; once the worker has read it as zero after seeing shutdown nobody can add a request; when it leaves the loop the request queue is empty |
| `BatchFlush.RequestStep` | galay-tracing/kernel/batch_span_processor.cc:327-345 | every step keeps: a request is queued, in progress or completed; `ok` and `done` are written once each, in that order, and only the stored answer is returned |
| `BatchFlush.WakeStep` | galay-tracing/kernel/batch_span_processor.cc:138-156 | every step keeps: an announced request still queued has a permit or a drain of the request queue ahead, although drains consume permits |
| `BatchShutdown.SealStep` | galay-tracing/kernel/batch_span_processor.cc:355-368 | every step keeps: after shutdown was seen and size was read as zero, the span queue stays empty and no producer is about to enqueue |
| `BatchShutdown.JoinStep` | galay-tracing/kernel/batch_span_processor.cc:247-262 | every step keeps: at most one joiner, and only after the join was claimed |
| `BatchShutdown.ExporterStep` | galay-tracing/kernel/batch_span_processor.cc:265-267 | every step keeps: at most one call reaches `exporter.shutdown`, at most once |
| `BatchShutdown.WaitStep` | galay-tracing/kernel/batch_span_processor.cc:254-262 | every step keeps: unless a call gave up polling, no call passes its wait before the worker has stopped |
| `BatchWakeup.SignalStep` | galay-tracing/kernel/batch_span_processor.cc:138-156 | every step keeps: `signalPending` is backed by a permit, a caller about to release one, or a worker about to clear it |
| `BatchWakeup.OnEndStep` | galay-tracing/kernel/batch_span_processor.cc:191-206 | every step keeps, in `kOnEnd` mode unless a drain was cut short with spans left and the queue was not found empty since: an announced queued span has `signalPending` set or a span drain ahead |
| `BatchExport.ExportStep` | galay-tracing/kernel/batch_span_processor.cc:387-399 | every step keeps: batches have the configured size, no span is in two of them, and together they are the exported spans |
| `BatchExport.FlushedStep` | galay-tracing/kernel/batch_span_processor.cc:305-335 | every step keeps: a request answered with true has had all spans accepted before it exported |
| `BatchExport.TaggedStep` | galay-tracing/kernel/batch_span_processor.cc:305-335 | every step keeps: a request answered with true has had only successful batches |
| `BatchTheorems.InvStep` | galay-tracing/kernel/batch_span_processor.cc:175-399 | every step of every participant keeps the whole invariant |
| `BatchTheorems.InvRun` | galay-tracing/kernel/batch_span_processor.cc:175-399 | so does every run |
| `BatchTheorems.ReachableInv` | galay-tracing/kernel/batch_span_processor.cc:159-169 | every reachable state of a processor built with any configuration satisfies the invariant |
| `BatchTheorems.SizeAndCapacity` | galay-tracing/kernel/batch_span_processor.cc:66-107 | `size` is queued spans plus reservations plus popped but uncounted spans; it never underflows, zero means an empty queue, and queued plus admitted spans never exceed the capacity |
| `BatchTheorems.Conservation` | galay-tracing/kernel/batch_span_processor.cc:175-207 | an accepted span is in exactly one of queue, worker's batch and exported batches, and in one batch only; an unsampled, dropped or rejected span is nowhere |
| `BatchTheorems.DropsAndBatches` | galay-tracing/kernel/batch_span_processor.cc:183-316 | `droppedSpanCount` is the number of calls that ended as full; every batch has between 1 and the normalised batch size, at most the capacity |
| `BatchTheorems.NoStrandedSpan` | galay-tracing/kernel/batch_span_processor.cc:355-381 | once the worker has stopped the queue is empty and every span ever accepted was in exactly one exported batch |
| `BatchTheorems.NothingAcceptedAfterStop` | galay-tracing/kernel/batch_span_processor.cc:66-87 | after that, no run of anybody accepts another span |
| `BatchTheorems.NoExportAfterStop` | galay-tracing/kernel/batch_span_processor.cc:363-381 | after that, the only exporter call left is one `exporter.shutdown` |
| `BatchTheorems.NoStrandedFlush` | galay-tracing/kernel/batch_span_processor.cc:327-368 | once the worker has stopped every request ever enqueued was answered exactly once, and none can be added |
| `BatchTheorems.NoLostFlushWakeup` | galay-tracing/kernel/batch_span_processor.cc:224-239 | a queued request whose caller has run `forceNotify` has a permit or a drain ahead; at the loop head it has a permit |
| `BatchTheorems.DrainComesBeforeWait` | galay-tracing/kernel/batch_span_processor.cc:337-370 | from a state with a drain ahead, every run back to the loop head observes an empty request queue |
| `BatchTheorems.NoLostSpanWakeup` | galay-tracing/kernel/batch_span_processor.cc:284-295 | in `kOnEnd` mode, unless a drain was cut short with spans left and the worker has not found the queue empty since, an accepted span left queued at the worker's wait has a permit present or coming; `BatchExact.WakeupLostIff` is the exact condition at the deadline |
| `BatchTheorems.PendingMeansWakeup` | galay-tracing/kernel/batch_span_processor.cc:138-156 | `signalPending` implies a permit, one coming, or a worker between acquire and clear |
| `BatchTheorems.FlushMeansExported` | galay-tracing/kernel/batch_span_processor.cc:224-244 | if `forceFlush` returns true through its request, every span accepted before the enqueue was exported and every batch drained for it succeeded |
| `BatchTheorems.SingleJoinSingleShutdown` | galay-tracing/kernel/batch_span_processor.cc:247-275 | at most one joiner; `exporter.shutdown` at most once; without an expired poll it is the last exporter call and follows the worker's stop; `BatchExact.LateExportIff` is the exact condition at the poll |
| `BatchTheorems.ShutdownMeansDrained` | galay-tracing/kernel/batch_span_processor.cc:247-275 | `shutdown` returning true means the worker stopped, all accepted spans were exported and all requests answered |
| `BatchOutcomes.OnEndOutcome` | galay-tracing/kernel/batch_span_processor.cc:66-87 | the outcome of every `onEnd` call over every run: unsampled spans are ignored; a sampled one is dropped exactly if the capacity was taken at its start or its enqueue failed, turned away exactly if it found shutdown requested, and accepted otherwise |
| `BatchOutcomes.WhoNotifies` | galay-tracing/kernel/batch_span_processor.cc:187-206 | exactly the calls turned away and, of the accepted ones, all in `kOnEnd` mode, the one that fills a batch in `kBatchSize` mode and none in `kTimed` mode notify the worker |
| `BatchOutcomes.NotifyReleases` | galay-tracing/kernel/batch_span_processor.cc:138-142 | `notify` sets `signalPending`, and releases a permit if it was not set |
| `BatchOutcomes.FlushExits` | galay-tracing/kernel/batch_span_processor.cc:209-232 | a `forceFlush` returns through its request exactly if its timeout is not negative, it finds no shutdown and the request queue takes its request; otherwise it returns true exactly if it read an empty queue |
| `BatchOutcomes.FlushDeadline` | galay-tracing/kernel/batch_span_processor.cc:116-120 | the deadline is the timeout after a moment between the call and now |
| `BatchOutcomes.FlushNotifies` | galay-tracing/kernel/batch_span_processor.cc:234-239 | a call that waits for its request has released a permit |
| `BatchOutcomes.LastOneNotifies` | galay-tracing/kernel/batch_span_processor.cc:217-220 | after a shutdown request, the call that leaves the gate last releases a permit before it goes on |
| `BatchOutcomes.StopNotifies` | galay-tracing/kernel/batch_span_processor.cc:249-254 | a shutdown call that has gone on to join or poll has released a permit |
| `BatchOutcomes.OnEndReturns` | galay-tracing/kernel/batch_span_processor.cc:175-207 | `onEnd` is wait-free: at most four steps of its own after the first, whatever the others do |
| `BatchOutcomes.ForceFlushReturns` | galay-tracing/kernel/batch_span_processor.cc:209-245 | `forceFlush` returns after a bounded number of its own steps, the timed wait counted as one |
| `BatchOutcomes.ShutdownReturns` | galay-tracing/kernel/batch_span_processor.cc:247-275 | once the worker has stopped, `shutdown` returns after a bounded number of its own steps, whatever its deadline |
| `BatchOutcomes.CallsNeverBlock` | galay-tracing/kernel/batch_span_processor.cc:175-275 | no call is kept from its next step, except that the join waits for the worker's stop |
| `BatchAnswers.AnswerStep` | galay-tracing/kernel/batch_span_processor.cc:209-380 | every step keeps what the stored and returned answers mean |
| `BatchAnswers.FlushAnswer` | galay-tracing/kernel/batch_span_processor.cc:239-244 | the answer through a request is true if and only if the wait did not time out, every batch and the exporter flush for it succeeded, and its drain ended before its deadline; a completed request had its exporter flush |
| `BatchAnswers.StoredAnswerReturned` | galay-tracing/kernel/batch_span_processor.cc:239-244 | a caller that has acquired `done` returns the value stored for it, in every run |
| `BatchAnswers.ShutdownAnswer` | galay-tracing/kernel/batch_span_processor.cc:247-274 | the answer of `shutdown` is true if and only if the call joined or saw the worker stopped, every batch of the last shutdown drain and the flush after it succeeded, so did its own `exporter.shutdown`, and the clock it read last was within its timeout; the exporter is shut down by then, or some call is about to |
| `BatchInterval.IntervalExports` | galay-tracing/kernel/batch_span_processor.cc:284-295 | in every mode and interleaving, a span queued when the wait at the loop head times out has been exported when the worker is back there, unless it found a flush request in between |
| `BatchInterval.TurnLeavesNoFullBatch` | galay-tracing/kernel/batch_span_processor.cc:372-377 | in every mode and interleaving, a turn that found no request and saw no shutdown ends with less than a full batch queued |
| `BatchInterval.PassWaits` | galay-tracing/kernel/batch_span_processor.cc:307-323 | a pass of `drainUntilIdle` that leaves spans behind is followed by a wait exactly if it exported nothing |
| `BatchInterval.LeavesAfterEmptyLook` | galay-tracing/kernel/batch_span_processor.cc:359-368 | the worker leaves its loop only if the look at the request queue after it read size as zero completed nothing |
| `BatchTermination.StepDecreases` | galay-tracing/kernel/batch_span_processor.cc:305-381 | with shutdown requested and callers out of the way, every worker step lowers the measure |
| `BatchTermination.WorkerRunsAreBounded` | galay-tracing/kernel/batch_span_processor.cc:305-381 | so in every run without new `onEnd` and `forceFlush` calls, however ticks, notifies, waiting flush callers and shutdown callers interleave, the worker takes at most that many steps |
| `BatchTermination.WorkerNeverBlocks` | galay-tracing/kernel/batch_span_processor.cc:347-381 | until it has stopped the worker can always take a step |
| `BatchTermination.ShutdownTerminates` | galay-tracing/kernel/batch_span_processor.cc:355-381 | hence the worker reaches stopped by its own steps |
| `BatchTermination.CallsSettle` | galay-tracing/kernel/batch_span_processor.cc:66-238 | after a shutdown request the `onEnd` calls holding a slot and the `forceFlush` calls inside the gate can always get out |
| `BatchTermination.StopStaysPossible` | galay-tracing/kernel/batch_span_processor.cc:305-381 | from every state with shutdown requested, the calls in progress and the worker can bring the worker to its stop: no deadlock |
| `BatchExact.WakeupLostIff` | galay-tracing/kernel/batch_span_processor.cc:305-345 | at the deadline test of a request's drain in `kOnEnd` mode, the worker alone can go back to its wait with a given span queued and no permit present or coming if and only if the current and all queued deadlines have passed and no permit is there or coming |
| `BatchExact.AnswersAndSleeps` | galay-tracing/kernel/batch_span_processor.cc:327-369 | with all deadlines passed, the worker answers every request without a pop and waits |
| `BatchExact.HopeRun` | galay-tracing/kernel/batch_span_processor.cc:284-325 | with a request in time, a permit, or a caller about to release one, no run of the worker strands the span |
| `BatchExact.LateExportIff` | galay-tracing/kernel/batch_span_processor.cc:254-267 | at the clock test of a polling call, that call and then the worker and the calls in progress can put an exporter call after `exporter.shutdown` if and only if the deadline has passed and the worker has an exporter call ahead |
| `BatchExact.ReachesShutdown` | galay-tracing/kernel/batch_span_processor.cc:257-267 | a call whose poll expired shuts the exporter down by its own steps, without the worker moving |
| `BatchExact.PollRun` | galay-tracing/kernel/batch_span_processor.cc:257-260 | a call whose deadline has not passed goes round its loop and calls nothing |
| `BatchLimits.ExpiredFlushLosesWakeup` | galay-tracing/kernel/batch_span_processor.cc:305-325 | a reachable state with an expired flush in which an announced `kOnEnd` span is queued, the worker waits, and no permit is there or coming |
| `BatchLimits.ExpiredPollExportsLate` | galay-tracing/kernel/batch_span_processor.cc:254-267 | a reachable state in which a batch was exported after `exporter.shutdown` |
| `Words.XorShiftInjective` | galay-tracing/common/id_format.cc:50-52 | `x ^ (x >> k)` determines `x`, for every shift and size |
| `Words.HasNonZeroByte` | galay-tracing/common/id_format.h:47-54 | true exactly when some byte is not zero |
| `IdGenerator.MixInjective` | galay-tracing/common/id_format.cc:49-52 | the mixing function is injective on 64-bit words |
| `IdGenerator.MixZero` | galay-tracing/common/id_format.cc:49-52 | and maps only 0 to 0 |
| `IdGenerator.DrawIsMixed` | galay-tracing/common/id_format.cc:46-53 | draw number k is the mixed k-fold advance of the seed |
| `IdGenerator.DrawsDistinct` | galay-tracing/common/id_format.cc:46-53 | any 2^64 consecutive draws are pairwise distinct |
| `IdGenerator.LittleEndianRoundTrip` | galay-tracing/common/id_format.cc:56-62 | the bytes of a word determine it, at every width |
| `IdGenerator.IdValid` | galay-tracing/common/id_format.cc:110-124 | identifiers have their length and a non-zero byte |
| `IdGenerator.NoTwoZeros` | galay-tracing/common/id_format.cc:118-124 | two draws in a row are never both zero |
| `IdGenerator.IdsNeverRepeat` | galay-tracing/common/id_format.cc:110-124 | over any mixed sequence of trace and span ids made from at most 2^64 draws of one thread, no two are equal |
| `IdGenerator.Generator.NextRandom64` | galay-tracing/common/id_format.cc:46-53 | returns the next word of the stream |
| `IdGenerator.Generator.FillEight` | galay-tracing/common/id_format.cc:55-59 | eight bytes hold the next word, and pass the test exactly when it is not zero |
| `IdGenerator.Generator.MakeRandomSpanId` | galay-tracing/common/id_format.cc:118-124 | a valid id after at most two rounds |
| `IdGenerator.Generator.MakeRandomTraceId` | galay-tracing/common/id_format.cc:110-116 | a valid id after exactly one round |
| `Hex.DigitsIncrease` | galay-tracing/common/id_format.cc:27-27 | the sixteen digits are in the order of their values |
| `Hex.ValueRoundTrip` | galay-tracing/common/id_format.h:28-39 | digits of either case, and no other character, have a value, and it prints as the lowercase digit |
| `Hex.PrintThenParse` | galay-tracing/common/id_format.cc:81-108 | parsing inverts printing, at every length |
| `Hex.ParseThenPrint` | galay-tracing/common/id_format.cc:81-108 | printing what was parsed gives the lowercase text |
| `Hex.ParseHex` | galay-tracing/common/id_format.cc:81-95 | succeeds exactly on hexadecimal text of the right length and fills the buffer with its bytes; nothing beyond is written |
| `Hex.FormatHex` | galay-tracing/common/id_format.cc:97-108 | succeeds exactly when the buffer has room, and writes the text and nothing beyond it |
| `Contexts.ParseTraceId` | galay-tracing/common/trace_id.h:56-62 | the parsed id, or the zero id for malformed or all-zero text |
| `Contexts.ParseSpanId` | galay-tracing/common/span_id.h:56-62 | the same for span ids |
| `Contexts.FormatId` | galay-tracing/common/trace_id.h:76-100 | the lowercase text of the bytes |
| `Traceparent.InjectTraceparent` | galay-tracing/context/traceparent.cc:74-91 | writes the header that the lemmas below are about |
| `Traceparent.HeaderParts` | galay-tracing/context/traceparent.cc:74-91 | the header of a valid context has 55 characters with each field in its place |
| `Traceparent.InjectThenExtract` | galay-tracing/context/traceparent.cc:49-91 | extracting an injected header gives back ids and all eight flag bits, with the given tracestate and no parent |
| `Traceparent.ExtractAccepts` | galay-tracing/context/traceparent.cc:27-72 | extraction succeeds exactly on 55-character version-00 headers with dashes at 2, 35 and 52, hexadecimal digits elsewhere and non-zero ids |
| `Traceparent.ExtractErrors` | galay-tracing/context/traceparent.cc:49-71 | a rejected header gives the error of its first wrong field: length or dashes, version, trace id, span id, flags |
| `Traceparent.EmptyHeader` | galay-tracing/context/traceparent.cc:74-77 | exactly the invalid contexts have an empty header |
| `Traceparent.ExtractThenInject` | galay-tracing/context/traceparent.cc:49-91 | injecting what was extracted gives the lowercase form of the header |
| `Sampling.TraceIdHighBits` | galay-tracing/kernel/sampler.cc:24-31 | the big-endian value of the first eight bytes, below 2^64, with no bit lost in the shifts |
| `Sampling.BigEndianRoundTrip` | galay-tracing/kernel/sampler.cc:24-31 | every value below 256^n is the big-endian value of its n bytes |
| `Sampling.BytesRoundTrip` | galay-tracing/kernel/sampler.cc:24-31 | and the value determines the bytes |
| `Sampling.RatioDecision` | galay-tracing/kernel/sampler.cc:60-75 | for every real ratio, those outside [0, 1] and both boundary branches included, the decision is high word < ratio * 2^64 |
| `Sampling.RatioMonotone` | galay-tracing/kernel/sampler.cc:60-75 | a trace sampled at a ratio is sampled at every larger one |
| `Sampling.SampledHighWords` | galay-tracing/kernel/sampler.cc:60-75 | exactly ceil(ratio * 2^64) of the 2^64 high words are sampled, none for a ratio of at most 0 and all for one of at least 1 |
| `Sampling.HighWordsAreIds` | galay-tracing/kernel/sampler.cc:24-75 | each high word belongs to trace ids, and those are sampled exactly when the word is counted |
| `Sampling.RootDecides` | galay-tracing/kernel/sampler.cc:53-58 | without a valid parent, parent-based samplers of any depth decide like their root |
| `Sampling.ParentDecides` | galay-tracing/kernel/sampler.cc:53-58 | with a valid parent, a parent-based sampler over any root decides by the parent's sampled bit |
| `Sampling.FixedSamplers` | galay-tracing/kernel/sampler.cc:41-47 | always-on and always-off decide like the ratios 1 and 0 |
| `Sampling.ChildFollows` | galay-tracing/kernel/sampler.cc:41-75 | any built-in sampler repeats for a child the decision it took for the parent |
| `Sampling.Registry.SetSampler` | galay-tracing/kernel/sampler.cc:77-79 | installs the sampler, or none |
| `Sampling.Registry.CurrentSampler` | galay-tracing/kernel/sampler.cc:33-37 | the installed sampler; with nothing installed, a valid parent decides and everything else is sampled |
| `ContextStorage.SaveThenLoad` | galay-tracing/context/trace_context.h:180-265 | saving and loading are inverse exactly on states where no span context means no tracestate, and every stored state is one |
| `ContextStorage.ThreadContext.SetCurrentContextState` | galay-tracing/context/context_storage.cc:29-34 | stores the state, without tracestate if it has no span context |
| `ContextStorage.ThreadContext.CurrentContext` | galay-tracing/context/context_storage.cc:38-43 | the context with the stored tracestate, or none |
| `ContextStorage.ThreadContext.SetCurrentContext` | galay-tracing/context/context_storage.cc:45-54 | afterwards the current context is the one given |
| `ContextStorage.ThreadContext.ClearCurrentContext` | galay-tracing/context/context_storage.cc:56-59 | afterwards there is none |
| `SpanGuards.FlagBits` | galay-tracing/kernel/span_guard.cc:49-57 | sampling sets the lowest flag bit to the decision and leaves the other seven and all else |
| `SpanGuards.NewContext` | galay-tracing/kernel/span_guard.cc:26-57 | a new span is a child of a valid parent, in its trace and with its upper seven flag bits, or the root of the drawn trace without parent and with these bits clear; the lowest bit is the sampler's decision |
| `SpanGuards.ParentFlagsKept` | galay-tracing/kernel/span_guard.cc:115-144 | under a parent-based sampler over any root, spans started inside a valid context or for a valid remote parent have all eight flag bits of their parent |
| `SpanGuards.NextContextStable` | galay-tracing/kernel/span_guard.cc:26-57 | every new context is valid and carries a decision its sampler repeats for children |
| `SpanGuards.ChildInherits` | galay-tracing/kernel/span_guard.cc:30-57 | a child shares trace id and all flags with its parent and names it as parent |
| `SpanGuards.SpanGuard.Move` | galay-tracing/kernel/span_guard.cc:72-78 | the new guard holds what the old one held, and the old one is inactive |
| `SpanGuards.SpanGuard.MoveAssign` | galay-tracing/kernel/span_guard.cc:80-90 | the same, after the target restored if it was active; self-assignment changes nothing |
| `SpanGuards.SpanGuard.End` | galay-tracing/kernel/span_guard.cc:92-96 | ends the span of an active guard and nothing else; it does not touch the thread's context |
| `SpanGuards.SpanGuard.Restore` | galay-tracing/kernel/span_guard.cc:98-113 | an active guard ends its span, restores the saved state, or clears the context if that throws, and becomes inactive; an inactive one does nothing |
| `SpanGuards.StartSpan` | galay-tracing/kernel/span_guard.cc:115-129 | the thread is in the new span's context and the guard remembers the state before |
| `SpanGuards.StartServerSpan` | galay-tracing/kernel/span_guard.cc:131-144 | the same with the context made from the given parent |
| `SpanGuards.KernelScope.constructor` | galay-tracing/adapters/kernel_context.h:33-36 | the given context is current and the one before is saved |
| `SpanGuards.KernelScope.Close` | galay-tracing/adapters/kernel_context.h:41-47 | the saved context is current again, or none if writing it back throws |
| `ScopeRuns.InvRun` | galay-tracing/kernel/span_guard.cc:61-144 | over every well-nested run, active guards and open span levels correspond one to one and each saved state is the one its level was entered with |
| `ScopeRuns.ClosingRestores` | galay-tracing/kernel/span_guard.cc:98-113 | closing the innermost level gives exactly the state before it was opened |
| `ScopeRuns.OneActiveGuard` | galay-tracing/kernel/span_guard.cc:61-113 | in every run a started span has exactly one active guard while its level is open and none afterwards |
| `ScopeRuns.LevelRestored` | galay-tracing/adapters/kernel_context.h:33-47 | a run that does not leave a level keeps the state of that level and all levels below, whatever it starts, opens, moves, closes or overwrites further in |
| `ScopeRuns.ClosedRunRestores` | galay-tracing/kernel/span_guard.cc:61-144 | a thread that closes all it opened ends with no context |
| `ScopeRuns.EndRestoresIff` | galay-tracing/kernel/span_guard.cc:92-96 | after `end()` the thread is in the saved state exactly if it already was; the guard stays active and its level open |
| `ScopeRuns.EndDoesNotRestore` | galay-tracing/kernel/span_guard.cc:92-129 | `end()` right after a start does not restore, whenever the drawn span id differs from the current one |
| `ScopeRuns.ChainBegins` | galay-tracing/kernel/span_guard.cc:115-144 | any started span is a possible outermost span of a chain |
| `ScopeRuns.ChainRun` | galay-tracing/kernel/span_guard.cc:115-129 | every run of plain starts under one sampler, moves, ends and closes keeps each level a child of the one around it |
| `ScopeRuns.TraceChain` | galay-tracing/kernel/span_guard.cc:30-57 | at any depth a span has the outermost span's trace id, tracestate and all eight flag bits, and the directly enclosing span as parent |
| `JsonRoundTrip.ReadEscaped` | galay-tracing/kernel/otlp_http_exporter.cc:49-80 | a JSON reader undoes the escaping of every string, character by character |
| `JsonRoundTrip.ReadPrinted` | galay-tracing/kernel/otlp_http_exporter.cc:243-283 | every JSON value with proper number tokens is read back from its text, whatever follows |
| `JsonRoundTrip.ReadImproper` | galay-tracing/kernel/otlp_http_exporter.cc:122-147 | one `nan` or `inf` anywhere makes the text unreadable |
| `JsonRoundTrip.ParsePrinted` | galay-tracing/kernel/otlp_http_exporter.cc:243-283 | a printed value is accepted exactly when all its tokens are numbers, and then gives the value back |
| `Decimals.DecimalRoundTrip` | galay-tracing/kernel/otlp_http_exporter.cc:122-142 | the decimal text of an integer determines it |
| `Decimals.DecimalFits` | galay-tracing/kernel/otlp_http_exporter.cc:122-129 | every 64-bit integer fits the 32-character buffer, so the error branch is never taken |
| `OtlpBody.AppendJsonString` | galay-tracing/kernel/otlp_http_exporter.cc:49-80 | appends the text of the string value |
| `OtlpBody.AppendAttributeValue` | galay-tracing/kernel/otlp_http_exporter.cc:131-157 | appends the text of the value's object |
| `OtlpBody.AppendAttribute` | galay-tracing/kernel/otlp_http_exporter.cc:165-169 | appends the text of one attribute |
| `OtlpBody.AppendAttributeArray` | galay-tracing/kernel/otlp_http_exporter.cc:159-172 | appends the text of the array, in order |
| `OtlpBody.AppendResource` | galay-tracing/kernel/otlp_http_exporter.cc:179-186 | appends the resource and a comma, or nothing |
| `OtlpBody.AppendScope` | galay-tracing/kernel/otlp_http_exporter.cc:188-196 | appends the scope, with the version only if there is one |
| `OtlpBody.AppendStatus` | galay-tracing/kernel/otlp_http_exporter.cc:198-210 | appends the status, or nothing exactly if it is unset without message |
| `OtlpBody.AppendIdentity` | galay-tracing/kernel/otlp_http_exporter.cc:257-265 | appends the members every span has |
| `OtlpBody.AppendSpan` | galay-tracing/kernel/otlp_http_exporter.cc:252-279 | appends the text of one span, with the optional members that apply |
| `OtlpBody.AppendSpans` | galay-tracing/kernel/otlp_http_exporter.cc:250-281 | appends the text of the array of spans, in order |
| `OtlpBody.AppendScopeSpans` | galay-tracing/kernel/otlp_http_exporter.cc:248-281 | appends the text of the scope and its spans |
| `OtlpBody.BuildOtlpJsonBody` | galay-tracing/kernel/otlp_http_exporter.cc:243-283 | the body is exactly the compact JSON text of the tree |
| `OtlpDecode.DecodedValue` | galay-tracing/kernel/otlp_http_exporter.cc:131-157 | decoding recovers each attribute value, up to the int64/uint64 tag |
| `OtlpDecode.KindRoundTrip` | galay-tracing/kernel/otlp_http_exporter.cc:94-108 | the span kind is recovered from its name |
| `OtlpDecode.CodeRoundTrip` | galay-tracing/kernel/otlp_http_exporter.cc:110-120 | the status code is recovered from its name |
| `OtlpDecode.DecodedStatus` | galay-tracing/kernel/otlp_http_exporter.cc:198-210 | the status is recovered, also when it was left out |
| `OtlpDecode.DecodedSpan` | galay-tracing/kernel/otlp_http_exporter.cc:252-279 | ids, name, kind, parent, tracestate, attributes and status of a span are recovered |
| `OtlpDecode.DecodedBody` | galay-tracing/kernel/otlp_http_exporter.cc:243-283 | resource, scope and all spans are recovered, in order |
| `OtlpDecode.BodyTokens` | galay-tracing/kernel/otlp_http_exporter.cc:131-157 | the tree's number tokens are all proper exactly when every double attribute is finite |
| `OtlpDecode.BodyRoundTrip` | galay-tracing/kernel/otlp_http_exporter.cc:243-283 | a JSON reader accepts the body if and only if every double attribute is finite, and then recovers everything that was meant |
| `OtlpDecode.NaNBodyIsRejected` | galay-tracing/kernel/otlp_http_exporter.cc:143-147 | a body with one NaN attribute that no JSON reader accepts |

## Left out

- The batch processor is a step system over values rather than a class: its subject is the interleaving of several
  threads' atomic operations. The reuse of the batch buffer and the moves of span contents into the queue are not
  modelled.
- Weak memory, the inside of the moodycamel queue, real clocks and thread scheduling are assumptions, listed above.
- What `forceFlush` returns on its early path (`batch_span_processor.cc:221`) reports an empty queue, not an export.
- `shutdownDrainOk` as a verdict over several shutdown iterations: each iteration starts a fresh one, and
  `BatchAnswers.ShutdownAnswer` speaks of the last.
- Prompt wakeup for shutdown, and in `kBatchSize` mode a wakeup for every full batch: the code does not provide them.
- BatchTheorems.NoLostSpanWakeup: promises nothing between a drain cut short with spans left and the next time the
  worker finds the queue empty, because there it can fail; `BatchExact.WakeupLostIff` says exactly when it does.
- BatchTheorems.SingleJoinSingleShutdown: promises the order of `exporter.shutdown` and the exports only while no call
  has given up polling, because then it can fail; `BatchExact.LateExportIff` says exactly when it does.
- Runs with a move assignment onto an active guard: it restores out of order. The call itself is
  `SpanGuards.SpanGuard.MoveAssign`.
- Runs in which `restore` or the kernel scope's destructor runs out of memory: they clear the context instead of
  restoring it. The calls themselves are `SpanGuards.SpanGuard.Restore` and `SpanGuards.KernelScope.Close`.
- Span attributes, times and status inside the scope model; they do not interact with contexts.
- Seeding, and filling of byte arrays of other lengths than 8 and 16, which nothing in the library asks for.
- Rounding in the ratio sampler and the text of finite doubles, which come from the floating-point library.
- UTF-8 well-formedness of strings in the body: bytes are passed through as they are.
- The body size estimate, the HTTP transport, headers and URLs, `FileSpanExporter`, `ConsoleSink`, `SpdlogSink`,
  the logger templates and macros, benchmarks and examples: I/O or easy members.
