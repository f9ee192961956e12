# PDF question-answering service — control-flow model

The service downloads a PDF from a URL and extracts its pages. It embeds the
pages into a Pinecone index and answers a list of questions about the document
with a Gemini model. Almost all of that is I/O. This project models the logic
wrapped around the I/O, with every external call replaced by the outcome it
produced. That logic is:

- the resilience kernel: the timeout, retry and fallback decorators, the
  exception-to-HTTP mapping, the health probe and the fixed fallback texts;
- context assembly and answer generation: the 4000-character budget, chunk
  labelling, prompt capping, answer validation, the per-question fallback and
  the order-preserving fan-out;
- the performance monitor: the active-request map, the bounded history of the
  last 100 requests, bottleneck detection, the counting statistics, percentile
  indices and the log status;
- the global resource registry: the singleton, the readiness predicate, the
  guarded accessors, health aggregation, index setup and start-up;
- document acquisition: validation, failure classification, temp-file cleanup,
  the fallback page and the decorated entry point;
- batching: embedding calls of 10 texts, upserts of 100 documents, and the
  readiness guard of the fast store constructor.

Modules follow the source files:

| module | file | source |
|---|---|---|
| `Text` | `text.dfy` | Python's `str.strip`, `str.join`, `str(int)` and `str(float)` for whole milliseconds |
| `Errors` | `errors.dfy` | the service's exception classes, `str(e)` and `isinstance` |
| `Resilience` | `resilience.dfy` | `Bajaj/app/error_handling.py` |
| `Answering` | `answering.dfy` | `Bajaj/app/direct_answer_generator.py` |
| `Monitor` | `monitor.dfy` | `Bajaj/app/performance_monitor.py` |
| `Registry` | `registry.dfy` | `Bajaj/app/global_resources.py` |
| `Acquisition` | `acquisition.dfy` | `Bajaj/app/input_documents.py` |
| `Batching` | `batching.dfy` | `Bajaj/app/embedding_search.py` |

External calls are modelled in three ways:

- A retried call is a function from the attempt number to `Result<T>`: a value,
  or the exception that attempt raised.
- A call raced against a deadline is a `Completion<T>`: `Finished(result)`, or
  `Expired` when the deadline passed first.
- Sleeps are not performed. The retry model returns the list of waits it would
  request, in milliseconds.

Every timeout and backoff constant in the source is a whole number of
milliseconds. Messages that print a number of seconds are rendered exactly as
Python's `str(float)` prints them, for example "120.0" and "0.1".

## Model

| member | source | states |
|---|---|---|
| Text.Strip | Bajaj/app/direct_answer_generator.py:206 | `strip()` never lengthens a string and leaves no whitespace at either end of its result |
| Text.StripRemovesOnlyOuterSpaces | Bajaj/app/direct_answer_generator.py:206 | the stripped text is a slice of the original with only whitespace removed before and after it |
| Text.StripEmptyIffBlank | Bajaj/app/direct_answer_generator.py:206-208 | a chunk strips to "" exactly when every character is whitespace, which is when assembly skips it |
| Text.ParseNatToString | Bajaj/app/input_documents.py:93 | the decimal rendering of a status code reads back as the same number |
| Resilience.WithTimeout | Bajaj/app/error_handling.py:82-105 | a finished call passes through unchanged; an expired deadline, or an asyncio timeout raised by the call, becomes TimeoutError(operation, timeout) with the decorator's arguments; every other exception propagates unchanged; asyncio's timeout never escapes |
| Resilience.WithTimeoutIdempotent | Bajaj/app/error_handling.py:93-103 | wrapping a result that already passed the decorator a second time changes nothing |
| Resilience.Retry | Bajaj/app/error_handling.py:108-138 | at most max_retries+1 calls; the result is the last attempt's; every earlier attempt raised a listed class; a failure is returned only when retries ran out or its class is not listed; the wait after attempt k is backoff·2^k |
| Resilience.RetryFirstSuccess | Bajaj/app/error_handling.py:119-124 | an operation that fails k ≤ max_retries times with a listed class and then succeeds is called k+1 times, sleeps k times and returns that success |
| Resilience.RetryExhausted | Bajaj/app/error_handling.py:121-133 | when every attempt raises a listed class there are max_retries+1 calls and max_retries waits, and the last exception is re-raised unchanged |
| Resilience.RetryStopsAt | Bajaj/app/error_handling.py:121-125 | after k retried failures, an attempt that succeeds or raises an unlisted class is the last one: k+1 calls, and its outcome is returned unchanged |
| Resilience.RetryNotListed | Bajaj/app/error_handling.py:121-125 | an exception of a class not listed propagates after the first call, with no wait |
| Resilience.RetryWaitsDouble | Bajaj/app/error_handling.py:131-133 | each wait is twice the previous one |
| Resilience.GetFallbackResponse | Bajaj/app/error_handling.py:205-223 | the endpoint error body has status "error", the operation, the message "Operation failed: " followed by the operation, the error text unchanged, fallback_used true and the fixed suggestion |
| Resilience.FallbackMessageNamesOperation | Bajaj/app/error_handling.py:218-220 | two fallback bodies have the same message exactly when they name the same operation |
| Resilience.SafeExecuteWithFallback | Bajaj/app/error_handling.py:274-293 | a primary success is returned and the fallback is not called; otherwise the fallback is called with the same arguments and its result returned; if both fail, ExternalServiceError(operation, message of the primary error) is raised |
| Resilience.FallbackOutcome | Bajaj/app/error_handling.py:285-293 | the combinator succeeds exactly when the primary or the fallback does, and any failure it raises is an ExternalServiceError for the operation |
| Resilience.HandleRequestError | Bajaj/app/error_handling.py:239-271 | status 504 exactly for TimeoutError, 502 for ExternalServiceError, 422 for DocumentProcessingError, 503 for VectorStoreError, and 500 for everything else, ResourceInitializationError included |
| Resilience.RequestErrorClass | Bajaj/app/error_handling.py:246-271 | only a DocumentProcessingError is answered with a client-error status; every other kind gets a server-error status |
| Resilience.HandleStartupError | Bajaj/app/error_handling.py:230-236 | any start-up failure becomes ResourceInitializationError(resource, str(e)) |
| Resilience.CheckExternalServiceHealth | Bajaj/app/error_handling.py:301-335 | "healthy" exactly when the probe finishes without raising, with a response time only then; "timeout" exactly when the 10 s wait expires; otherwise "unhealthy" with the exception's message; an error field exactly when not healthy |
| Answering.FullPartsLabelsChunks | Bajaj/app/direct_answer_generator.py:205-208 | every part of the budget-free reference is a non-empty stripped chunk under its own 1-based position |
| Answering.FullPartsInOrder | Bajaj/app/direct_answer_generator.py:205-208 | the reference lists its parts in retrieval order, positions strictly ascending |
| Answering.FullPartsEmptyIffAllEmpty | Bajaj/app/direct_answer_generator.py:205-208 | the reference is empty exactly when every chunk strips to "" |
| Answering.CutStops | Bajaj/app/direct_answer_generator.py:211-216 | once the counted length is past 4000 nothing more is appended |
| Answering.CutEndsAssembly | Bajaj/app/direct_answer_generator.py:211-219 | a chunk that overflows with more than 100 characters of budget left is cut to the remaining space plus "...", and assembly ends there with exactly 4003 characters counted |
| Answering.AssembleIsPrefixOfFull | Bajaj/app/direct_answer_generator.py:203-219 | the assembled parts are a prefix of the reference with the same positions, in retrieval order; each body equals the reference body, except that the last may be its cut |
| Answering.AssembleWithinBudget | Bajaj/app/direct_answer_generator.py:210-219 | the counted length never exceeds 4003 |
| Answering.AssembleStopsOnlyWhenFull | Bajaj/app/direct_answer_generator.py:210-217 | parts are dropped only after a stop, and a stop happens only when the next chunk overflows with at most 100 characters left |
| Answering.AssembleKeepsAllWhenWithinBudget | Bajaj/app/direct_answer_generator.py:203-219 | when all non-empty chunks fit in 4000 characters, the result is exactly the reference |
| Answering.AssembleEmptyIffFullEmpty | Bajaj/app/direct_answer_generator.py:203-223 | assembly keeps nothing exactly when every chunk is empty after strip |
| Answering.LabelledContextIsNotFallback | Bajaj/app/direct_answer_generator.py:218-227 | a joined non-empty context starts with a "Document" label, so it can never be mistaken for the vector-search fallback text |
| Answering.ContextFallbackIffAllBlank | Bajaj/app/direct_answer_generator.py:196-227 | the context is the vector-search fallback text exactly when retrieval returned no chunks or only whitespace chunks |
| Answering.RetrieveRelevantDocs | Bajaj/app/direct_answer_generator.py:158-231 | retrieval succeeds exactly when a store is present, the question is not blank and the search succeeds, and then yields the assembled context; every failure, the two input checks included, is a VectorStoreError for "document_retrieval" |
| Answering.Prefix | Bajaj/app/direct_answer_generator.py:266-267 | `s[:n]` is a prefix of s; s itself when it has at most n characters, otherwise exactly n characters long |
| Answering.BuildPrompt | Bajaj/app/direct_answer_generator.py:31-34 | the prompt keeps the fixed system message; its human message is the template with `context[:4000]` after "Context:\n" and `question[:500]` between "\n\nQuestion: " and "\n\nAnswer:", so it is at most 4000 + 500 characters plus the template text |
| Answering.PromptKeepsShortInputs | Bajaj/app/direct_answer_generator.py:266-269 | a context of at most 4000 and a question of at most 500 characters reach the model whole |
| Answering.PromptCutsLongInputs | Bajaj/app/direct_answer_generator.py:266-269 | a longer context is cut to exactly its first 4000 characters and a longer question to its first 500, each placed right after its label |
| Answering.GenerateAnswer | Bajaj/app/direct_answer_generator.py:233-309 | one to three attempts; the result is what the last attempt returned or raised; a blank context returns the apology after a single attempt |
| Answering.GenerateRetriesOnlyServiceErrors | Bajaj/app/direct_answer_generator.py:233-309 | every attempt before the last raised an ExternalServiceError, so no other failure is retried |
| Answering.GenerateStopsOnTimeout | Bajaj/app/direct_answer_generator.py:302-304 | a model timeout on attempt k, after k failures of other kinds, ends the run with k+1 calls and TimeoutError("answer_generation", 30) |
| Answering.GenerateAttempt | Bajaj/app/direct_answer_generator.py:236-309 | a blank context yields the apology without calling the model; a blank question raises ExternalServiceError("llm", str of the "Empty question provided" error); a missing model raises ExternalServiceError("llm", the RuntimeError's message); the model is called exactly when context and question are non-blank and the model is available, with the capped prompt, and the attempt then ends as the reply handling says; a success is the stripped non-empty reply or the apology |
| Answering.ReplyOutcome | Bajaj/app/direct_answer_generator.py:277-309 | the step succeeds exactly when the model returned content; an asyncio timeout becomes TimeoutError("answer_generation", 30); an ExternalServiceError passes through unchanged; any other exception becomes ExternalServiceError("llm", str(e)); a response without content becomes ExternalServiceError("llm", "Invalid response from LLM service"); a reply is returned stripped, and the apology replaces one that strips to nothing |
| Answering.GenerateFailuresAreRetried | Bajaj/app/direct_answer_generator.py:302-309 | every failure other than the model timeout is of the class the retry decorator retries |
| Answering.BlankQuestionExhaustsRetries | Bajaj/app/direct_answer_generator.py:233-309 | a blank question with a non-blank context is rejected without a model call, yet the rejection surfaces as a retryable ExternalServiceError for "llm", so all three attempts run |
| Answering.AnswerAttempt | Bajaj/app/direct_answer_generator.py:114-156 | a blank question is rejected with DocumentProcessingError("question_validation"); a failed retrieval is returned as is; otherwise the result is the retried generation on the retrieved context |
| Answering.AnswerSingleQuestion | Bajaj/app/direct_answer_generator.py:111-114 | an expired 30 s deadline raises TimeoutError("single_question_processing", 30) |
| Answering.AnswerWithFallback | Bajaj/app/direct_answer_generator.py:92-109 | the per-question answer is the primary path's answer when it succeeds and the apology otherwise |
| Answering.AnswerIgnoresIndex | Bajaj/app/direct_answer_generator.py:92-109 | a question's position in the batch does not change its answer |
| Answering.AnswerIsModelTextOrFixed | Bajaj/app/direct_answer_generator.py:92-109 | an answer is the apology or a stripped non-empty reply the model gave on some attempt |
| Answering.AnswerBatch | Bajaj/app/direct_answer_generator.py:58-90 | one answer per question; the apology at every position when the store is missing; otherwise answer i is the answer for question i |
| Answering.AnswerQuestionsParallel | Bajaj/app/direct_answer_generator.py:44-46 | the only exception is the 90 s TimeoutError("parallel_question_processing"); otherwise the batch result is returned |
| Answering.NoQuestionsNoWork | Bajaj/app/direct_answer_generator.py:58-60 | an empty question list yields [] whatever the store and services do |
| Answering.FanOutCommutesWithPermutation | Bajaj/app/direct_answer_generator.py:73-82 | answering a permutation of the questions yields the same permutation of the answers, so results are collected in input order |
| Monitor.MemoryDelta | Bajaj/app/performance_monitor.py:56-68 | a memory delta exists exactly when both samples are truthy, and it is their difference |
| Monitor.EmptyIsValid | Bajaj/app/performance_monitor.py:195-209 | a new monitor satisfies the invariant: at most 100 completed requests and every active entry stored under its own id |
| Monitor.StartRequest | Bajaj/app/performance_monitor.py:211-222 | registers fresh metrics under the id, replacing any active entry with that id; other entries and the history are unchanged |
| Monitor.KeepLast | Bajaj/app/performance_monitor.py:235-237 | keeps a suffix of the list: the whole list when it has at most n entries, otherwise exactly its last n |
| Monitor.FinishRequest | Bajaj/app/performance_monitor.py:224-241 | an unknown id returns nothing and changes nothing; a known id leaves the active map and the history ends with the finished request, with at most 100 entries kept |
| Monitor.FinishBelowCapAppends | Bajaj/app/performance_monitor.py:233-234 | below the cap, finishing appends the request to the history |
| Monitor.FinishAtCapDropsOldest | Bajaj/app/performance_monitor.py:233-237 | at the cap, finishing drops the oldest entry and appends the new one |
| Monitor.RecordedOperation | Bajaj/app/performance_monitor.py:349-375 | the recorded operation has the body's name and duration, success exactly when the body returned, and the error message exactly when it raised |
| Monitor.TrackOperation | Bajaj/app/performance_monitor.py:332-383 | the body's outcome is passed on unchanged; the operation is appended to the active request whether the body succeeds or fails; nothing is recorded for an inactive id |
| Monitor.TransitionsPreserveValid | Bajaj/app/performance_monitor.py:211-241 | start, finish and track all keep the monitor invariant |
| Monitor.StartThenFinish | Bajaj/app/performance_monitor.py:211-237 | a request that is started and then finished ends up last in the history and no longer active |
| Monitor.SlowestIndex | Bajaj/app/performance_monitor.py:143-154 | picks the first operation of maximal duration |
| Monitor.IdentifyBottlenecks | Bajaj/app/performance_monitor.py:139-187 | no operations give no bottlenecks; at most one slowest entry plus one threshold and one memory entry per operation |
| Monitor.SlowestEntryIsUniqueAndFirst | Bajaj/app/performance_monitor.py:143-154 | there is at most one "slowest_operation" entry; it names the first operation of maximal duration and appears only when that duration is above 0 |
| Monitor.ThresholdEntryIff | Bajaj/app/performance_monitor.py:157-174 | a "threshold_exceeded" entry exists exactly for an operation named in the four-entry table whose duration is strictly above its threshold |
| Monitor.ThresholdEntriesAppend | Bajaj/app/performance_monitor.py:157-174 | threshold entries follow operation order |
| Monitor.ReportedThresholdIff | Bajaj/app/performance_monitor.py:139-187 | the report holds a "threshold_exceeded" entry exactly for each listed operation strictly over its threshold, with that operation's name, duration and threshold |
| Monitor.ReportedSpikeIff | Bajaj/app/performance_monitor.py:139-187 | the report holds a "memory_spike" entry exactly for each operation whose memory grew by more than 100 MB, with its name and delta |
| Monitor.BottlenecksEndWithEntries | Bajaj/app/performance_monitor.py:139-187 | after the optional slowest entry come the threshold entries in operation order, then the memory entries |
| Monitor.MemoryEntryIff | Bajaj/app/performance_monitor.py:176-185 | a "memory_spike" entry exists exactly for an operation whose memory delta is above 100 |
| Monitor.MonitorThreshold | Bajaj/app/performance_monitor.py:195-209 | every threshold is positive and agrees with the bottleneck table on the operations both name |
| Monitor.StatsCountOperations | Bajaj/app/performance_monitor.py:405-436 | an operation name has statistics exactly when it was recorded, and its count and failures are the numbers of recorded and of unsuccessful operations with that name |
| Monitor.FailedNamesAreNames | Bajaj/app/performance_monitor.py:405-436 | failures never exceed the count for any name |
| Monitor.TallyIsMultiplicity | Bajaj/app/performance_monitor.py:438-450 | the bottleneck tally counts each key as often as it occurs |
| Monitor.TrendOf | Bajaj/app/performance_monitor.py:474-489 | a trend exists exactly with at least 20 completed requests, and it is "improving" exactly when the recent 10 requests took less time in total than the 10 before |
| Monitor.PerformanceStats | Bajaj/app/performance_monitor.py:385-504 | the zero summary exactly when nothing completed; otherwise the totals are the sizes of the history and of the active map |
| Monitor.StatsCountRecordedOperations | Bajaj/app/performance_monitor.py:405-450 | the reported per-operation counts and bottleneck counts are the multiplicities over all completed requests |
| Monitor.PercentileIndex | Bajaj/app/performance_monitor.py:452-456 | a percentile index is in range for a non-empty history |
| Monitor.PercentileIndicesOrdered | Bajaj/app/performance_monitor.py:452-456 | the median index is n//2, and the median, 95th and 99th indices are ordered and below n |
| Monitor.RequestStatus | Bajaj/app/performance_monitor.py:243-257 | "SLOW" exactly above the total-request threshold (30 s) and "FAST" exactly at or below 70% of it (21 s) |
| Monitor.RequestStatusMonotone | Bajaj/app/performance_monitor.py:243-257 | a longer request never gets a better status |
| Registry.Construct | Bajaj/app/global_resources.py:32-45 | construction returns the process-wide instance, creating the fresh one only the first time |
| Registry.ConstructTwiceSameInstance | Bajaj/app/global_resources.py:32-45 | constructing twice yields the same instance, and its fields are not reset |
| Registry.GetLlm | Bajaj/app/global_resources.py:305-312 | the handle when set, otherwise ResourceInitializationError naming "llm" |
| Registry.GetEmbeddings | Bajaj/app/global_resources.py:314-321 | the handle when set, otherwise ResourceInitializationError naming "embeddings" |
| Registry.GuardedStore | Bajaj/app/global_resources.py:248-273 | embeddings are checked before the pinecone client, and every failure, the guards included, becomes a VectorStoreError for the operation carrying the original message |
| Registry.GetVectorStore | Bajaj/app/global_resources.py:243-273 | succeeds exactly when both handles are set and the store constructor succeeds; fails only with VectorStoreError("create_vector_store") |
| Registry.GetVectorStoreFromExistingIndex | Bajaj/app/global_resources.py:275-303 | the same, with VectorStoreError("get_existing_vector_store") |
| Registry.ReadyAccessorsSucceed | Bajaj/app/global_resources.py:305-321 | on an initialised registry both getters succeed and the store accessors fail only when the store call does |
| Registry.Probe | Bajaj/app/global_resources.py:360-385 | a missing handle makes the probe raise its "not initialized" message; otherwise the probe is the service call |
| Registry.HealthCheck | Bajaj/app/global_resources.py:323-358 | overall "healthy" exactly when all three components are healthy; the report includes the readiness flag; a missing handle is reported unhealthy with its message; each component reports under its own name, and a healthy one carries its own probe's response time |
| Registry.HealthyImpliesInitialized | Bajaj/app/global_resources.py:349-358 | an overall healthy report implies the registry is initialised |
| Registry.EnsureIndexExists | Bajaj/app/global_resources.py:116-145 | nothing is created when describe succeeds; otherwise the index is created with dimension 768 and metric cosine, followed by a 10 s settle only when creation succeeds |
| Registry.MissingKey | Bajaj/app/global_resources.py:89-114 | the missing-key error, re-raised by the start-up's own handler, is a ResourceInitializationError for the resource |
| Registry.PineconeAttempt | Bajaj/app/global_resources.py:84-114 | without an API key the attempt fails before any client exists; with one it succeeds exactly when index setup does |
| Registry.GoogleAttempt | Bajaj/app/global_resources.py:153-191 | without an API key the attempt fails; with one it succeeds exactly when the connectivity test does, and every failure is a ResourceInitializationError for the resource |
| Registry.StartUp | Bajaj/app/global_resources.py:77-82 | an expired start-up deadline raises its TimeoutError; any other failure is one attempt's failure |
| Registry.StartPinecone | Bajaj/app/global_resources.py:77-114 | the pinecone start-up fails only with a ResourceInitializationError or a TimeoutError |
| Registry.StartEmbeddings | Bajaj/app/global_resources.py:147-191 | the embeddings start-up fails only with a ResourceInitializationError or its 20 s TimeoutError |
| Registry.StartLlm | Bajaj/app/global_resources.py:193-241 | the model start-up fails only with a ResourceInitializationError or its 30 s TimeoutError |
| Registry.MissingKeyFailsStartUp | Bajaj/app/global_resources.py:89-94 | unless its deadline passes first, a missing API key makes that start-up fail, after all four attempts, with the resource's ResourceInitializationError |
| Registry.Conclude | Bajaj/app/global_resources.py:54-75 | initialize succeeds exactly when all three start-ups succeed and every handle is set; the first failure in listing order is re-raised as ResourceInitializationError("global_resources", …) |
| Registry.InitializeAsWritten | Bajaj/app/global_resources.py:47-75 | as written: success exactly when all start-ups succeed and all handles are set; with both API keys set the registry reports itself initialised whatever the start-ups did |
| Registry.AsWrittenReadyAfterFailedInitialize | Bajaj/app/global_resources.py:97-114 | as written, a failed index setup makes initialize fail while the registry still reports itself initialised |
| Registry.Initialize | Bajaj/app/global_resources.py:47-75 | readiness coincides with a successful initialize, and any failure is a ResourceInitializationError for "global_resources" |
| Registry.InitializeReportsFirstFailure | Bajaj/app/global_resources.py:56-75 | the error raised wraps the first failing start-up in listing order |
| Acquisition.FallbackPages | Bajaj/app/input_documents.py:182-192 | one page whose content is the document fallback text and whose metadata is exactly {source: url, fallback: True} |
| Acquisition.RoundedTenths | Bajaj/app/input_documents.py:104-109 | the number of tenths of a mebibyte nearest to the byte count, an exact half rounding to the even tenth |
| Acquisition.MegabytesText | Bajaj/app/input_documents.py:104-109 | the size is printed as decimal digits with one digit after the point |
| Acquisition.MegabytesTextReadsBack | Bajaj/app/input_documents.py:104-109 | reading the printed size back gives the rounded number of tenths |
| Acquisition.MegabytesTextExamples | Bajaj/app/input_documents.py:104-109 | 52428801 bytes print as "50.0"; 0.25 and 0.75 MiB print as "0.2" and "0.8" |
| Acquisition.DownloadDocument | Bajaj/app/input_documents.py:85-132 | the download succeeds exactly with status 200, no declared length above 50 MiB, a parseable length and a completed body, and returns the temp path; a non-200 status raises ExternalServiceError("document_download", "HTTP status: reason") before any file exists; an oversized declared length raises DocumentProcessingError("file_size") before the body is read; a ClientError never escapes |
| Acquisition.StreamBody | Bajaj/app/input_documents.py:112-132 | the temp file exists once streaming starts, and the download succeeds exactly when streaming does |
| Acquisition.SizeLimitIsFiftyMebibytes | Bajaj/app/input_documents.py:103-109 | a declared length of 52428800 bytes passes and one byte more is refused |
| Acquisition.ProcessPdf | Bajaj/app/input_documents.py:135-171 | extraction succeeds exactly with at least one page and at least 10 characters in all; an expired 60 s wait is TimeoutError("pdf_processing", 60); every other failure is DocumentProcessingError("pdf_processing") |
| Acquisition.Classify | Bajaj/app/input_documents.py:69-79 | ClientError → ExternalServiceError("document_download"), asyncio timeout → TimeoutError("document_download", 120), DocumentProcessingError re-raised, anything else → DocumentProcessingError("unexpected_error") |
| Acquisition.LeaveSession | Bajaj/app/error_handling.py:162-171 | whatever escapes the session block becomes ExternalServiceError("HTTP", …) |
| Acquisition.PrimaryAsWritten | Bajaj/app/input_documents.py:37-82 | as written: an empty URL raises DocumentProcessingError("url_validation") and touches nothing; success exactly when the session work succeeds; every later failure reaches the caller as DocumentProcessingError("unexpected_error"); cleanup removes a file only when the download helper returned its path |
| Acquisition.AsWrittenMisclassifiesValidation | Bajaj/app/input_documents.py:52-79 | as written, a PDF with no pages surfaces as "unexpected_error" instead of the "pdf_processing" error extraction raised |
| Acquisition.AsWrittenLeaksTempFile | Bajaj/app/input_documents.py:37-82 | as written, a download that fails while streaming creates a temp file that cleanup never removes |
| Acquisition.Primary | Bajaj/app/input_documents.py:37-82 | as intended: the same outcomes as written for an empty URL and for success; any other failure is the classified exception of the failing step; every temp file created is removed |
| Acquisition.PrimaryCleansUpAndAgrees | Bajaj/app/input_documents.py:37-82 | the corrected path removes every temp file it creates, creates the same files as written, and succeeds exactly when the as-written path does, with the same pages |
| Acquisition.PrimaryFailureKinds | Bajaj/app/input_documents.py:69-79 | failures are ExternalServiceError, TimeoutError or DocumentProcessingError; an asyncio timeout while opening the download is TimeoutError("document_download", 120); the size and extraction errors keep their own DocumentProcessingError |
| Acquisition.ProcessDocumentFromUrl | Bajaj/app/input_documents.py:22-35 | the entry point wraps the primary path as written; it raises only when its 120 s deadline expires, with TimeoutError("document_processing", 120); otherwise it returns the primary pages when the primary path succeeds and the single fallback page when it fails, and the result is the same with the corrected primary path |
| Acquisition.DocumentProcessingNeverRetries | Bajaj/app/input_documents.py:22-35 | the fallback absorbs every primary failure, so the retry decorator sees one successful call and never sleeps |
| Batching.BatchesFlatten | Bajaj/app/embedding_search.py:73-74 | concatenating the slices gives back the input |
| Batching.BatchesShape | Bajaj/app/embedding_search.py:73-74 | no slice is empty, none is longer than the batch size, and only the last may be shorter |
| Batching.BatchAt | Bajaj/app/embedding_search.py:74 | slice j is `xs[j*size : j*size + size]`, as the comprehension over `range(0, len, size)` builds it |
| Batching.CallAllLength | Bajaj/app/embedding_search.py:76-82 | when each call returns one output per input, the concatenated outputs are as long as the concatenated inputs |
| Batching.CallAllOkIff | Bajaj/app/embedding_search.py:77-80 | a batched run succeeds exactly when every slice's call does |
| Batching.RunBatches | Bajaj/app/embedding_search.py:76-82 | the calls made are the slices in order, up to and including the first that raised; every earlier call succeeded; the result is that exception or the outputs concatenated slice by slice |
| Batching.CallAllConcatenates | Bajaj/app/embedding_search.py:76-82 | when every slice's call succeeds, the result is the calls' outputs concatenated slice by slice |
| Batching.BatchEmbedDocuments | Bajaj/app/embedding_search.py:65-82 | a missing embeddings client raises before any call; slices of at most 10 are embedded in order, every call before the last succeeded, and a failing call's exception is raised unchanged; on success the calls cover the texts exactly once in order and the embeddings are the slices' embeddings concatenated in that order; there are one-per-text embeddings when the client returns one per text; empty input makes no calls and returns [] |
| Batching.BulkUpsertDocuments | Bajaj/app/embedding_search.py:84-96 | `add_documents` receives consecutive slices of at most 100 documents, in order; the upsert succeeds exactly when every call does, and then every document was passed exactly once; a raise ends the loop and is passed on unchanged |
| Batching.CreateFromDocumentsFast | Bajaj/app/embedding_search.py:25-40 | an uninitialised registry raises RuntimeError before any store is constructed; otherwise the constructor's outcome is returned unwrapped |
| Batching.FastStoreAgreesWithGuardedStore | Bajaj/app/embedding_search.py:25-40 | on a ready registry the fast constructor and `get_vector_store` succeed together with the same store; without embeddings both refuse |

## Left out

- Real I/O is not modelled: HTTP sessions, streaming into files, PDF loading, Pinecone and Gemini clients. Each is the outcome it produced, given as a parameter.
- Concurrency and real time are not modelled: `asyncio.gather`, `wait_for` cancellation, `run_in_executor`, locks and `asyncio.sleep`. The fan-out is a sequential map, and sleeps are the returned list of waits.
- Registry.Conclude: `asyncio.gather` in `initialize` re-raises the first failure in time, and the other start-ups keep running. The model reports the first failure in listing order and runs every start-up to completion.
- Registry.InitializeAsWritten: a missing API key leaves the slot as it was; a start-up that is still running when another fails is not modelled.
- Nested deadlines are not modelled separately: the 45 s index-setup wait inside the 15 s pinecone start-up, the test waits inside the Google start-ups, and the 30 s retrieval and generation waits inside the 30 s per-question deadline. In each case the outer deadline starts first and ends no later, so its outcome is modelled. For the same reason the per-question "question_{idx}" TimeoutError is not modelled.
- Answering.AnswerSingleQuestion: the retrieval and generation outcomes per attempt are parameters; only the deadline's own error is stated in its contract, the rest is in the lemmas about it.
- Answering.BuildPrompt: LangChain's message objects are modelled as two strings. A formatting failure (`prompt_formatting`) cannot occur for string inputs and is not modelled.
- Answering.GenerateAttempt: the "suspiciously short" branch for answers under 10 characters only logs. The answer is returned unchanged, which the model does.
- Monitor: psutil CPU and memory sampling, `round()`, averages, percentages and the floating product in `int(n * 0.95)` are not modelled. Monitor.PercentileIndex takes the exact floor `n * 95 / 100`.
- Monitor: request metadata, timestamps, logging and `setup_performance_logging` are not modelled.
- Resilience.CheckExternalServiceHealth: the response time is given as `elapsed` and not rounded to three decimals; the timestamp is not modelled. Registry.HealthCheck takes each probe's measured time as a separate parameter.
- Acquisition.DownloadDocument: the content-type warning and progress logging are not modelled. A failure in the progress computation, such as a division by a declared length of 0, is covered by the abstract body outcome. A non-numeric `content-length` raises ValueError with Python's message for text without quotes or backslashes. Python's `int()` also accepts signs, surrounding whitespace and underscores; the model takes such a header as already parsed.
- Acquisition.MegabytesText: byte counts of 2^53 and above, where the float quotient is rounded, are not modelled.
- Acquisition.PrimaryAsWritten: a URL that is not a `str` cannot be expressed, because URLs are strings here. A failure to create the HTTP session itself is not modelled. The removal in cleanup is recorded as attempted; an `OSError` it raises is swallowed and not modelled.
- Text.IsSpace: whitespace is recognised in the ASCII and Latin-1 range only; other Unicode spaces that `str.isspace()` accepts are not.
- Batching: `similarity_search_batch`, `get_connection_pool_config` and `get_optimized_search_params` are not modelled; they are a concurrent map over a library call and two constant dictionaries. `create_vector_store` delegates to Registry.GetVectorStore.
- The synchronous, deprecated `process_document_from_url` (Bajaj/app/input_documents.py:195-217) is not modelled.
- Not part of this model: `llm_parser.py` (a wrapper over a library text splitter), `logic_evaluation.py` and `tools.py` (the legacy tool-calling agent), `main.py` (FastAPI wiring and authentication), and the test, benchmark and start-up scripts.

## Findings

| source | as written | input that shows it | evidently intended | confidence | as-written member | corrected member |
|---|---|---|---|---|---|---|
| Bajaj/app/input_documents.py:52-79 | the session helper in `error_handling.py` re-raises every exception from the `async with` body as ExternalServiceError("HTTP", …), so the primary path's `except DocumentProcessingError: raise` clause never fires and every failure after URL validation becomes DocumentProcessingError("unexpected_error") | a PDF with no pages: extraction raises DocumentProcessingError("pdf_processing"), and the caller receives "unexpected_error" | validation and extraction errors keep their own kind, which the `except` clauses are written to preserve | medium, not executed | Acquisition.AsWrittenMisclassifiesValidation | Acquisition.Primary |
| Bajaj/app/input_documents.py:37-82 | the temp file is created inside the download helper, but cleanup only sees a path the helper returned | status 200 with a body whose streaming raises ClientError: the file exists and `temp_file_path` is still None | every temp file created for a request is removed | high, not executed | Acquisition.AsWrittenLeaksTempFile | Acquisition.PrimaryCleansUpAndAgrees |
| Bajaj/app/global_resources.py:97-114 | each start-up stores its client before the connectivity test, so a failed start-up leaves a handle set | both API keys set and `create_index` raising on every attempt: `initialize` raises, and `is_initialized()` is true | a handle is published only when its start-up succeeded, so readiness implies a successful `initialize` | high, not executed | Registry.AsWrittenReadyAfterFailedInitialize | Registry.Initialize |
