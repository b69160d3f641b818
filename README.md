# Event delivery pipeline — a Dafny model

This project models the decision logic of an observability demo built around Kafka. A producer
service accepts events over HTTP and batches them onto a topic. Two consumer variants read the
topic back, process each record with retries and acknowledge it. A sample application publishes
events of its own. What remains once the goroutines, channels and broker client are set aside is
sequential, and the model proves properties of it:

- a batch buffer that flushes at its size into a bounded batch queue;
- retry loops with linear or exponential waits;
- counters with exact invariants;
- per-record outcome rules that decide what reaches the offset-commit stage;
- the event validators of three domain packages;
- event ID generation;
- configuration loading from the environment;
- the HTTP middleware rules;
- trace-header injection and extraction.

Modules follow the program's packages:

| module | models |
|---|---|
| `Producer` | the batching Kafka producer |
| `PipelineConsumer` | the consumer service's worker, committer and retry |
| `AppConsumer` | the consumer application's consumer, with exponential back-off and stats |
| `EventProcessing` | the consumer application's event processor |
| `ConsumerDomain` | the consumer application's event validation |
| `ServiceDomain` | the consumer service's event validation |
| `SampleDomain` | the sample application's event validation |
| `EventIds` | event ID generation |
| `ProducerUseCase` | the producer's event service and its log adapter |
| `SampleUseCase`, `SampleHandlers` | the sample application's use case and request validation |
| `LogFields`, `ConsumerLogging` | the key/value log-field parsers and the consumer's log adapter |
| `Env`, `ConsumerConfig`, `ProducerConfig`, `SampleConfig` | configuration loading |
| `Middleware` | the producer's HTTP middleware |
| `TraceContext` | the instrumented Kafka writer and reader |
| `Shutdown` | the order in which the consumers stop their goroutines |

`Retry`, `Broker`, `Text`, `Numbers`, `Seqs` and `Wrappers` hold the shared pieces. `Text` and
`Numbers` model the Go library functions the core calls: `strings.TrimSpace`, `Split`, `Join`,
`ToLower` (on ASCII letters only; Go also folds a few non-ASCII letters such as U+212A KELVIN SIGN to ASCII, which cannot affect the three type tags), `Contains`, `strconv.Atoi`, `FormatInt` and UTF-8 length.

Calls into code outside the core become parameters:

- The broker's write, read and commit outcomes, and the event handler's outcomes, are oracles indexed by call number (`nat -> bool`, `nat -> Attempt`).
- JSON decoding and encoding, `event.Validate()` of the producer's domain package, `time.ParseDuration` and the publisher are function parameters.
- The clock (`now`, `stamp`, a civil date) and `crypto/rand` bytes (`Entropy`) are passed in.
- The process environment is a map, and an unset variable reads as "".

Durations are int64 nanoseconds.

## Model

| member | source | states |
|---|---|---|
| Producer.CompressionFor | apps/producer-service/internal/infrastructure/kafka/producer.go:64-77 | gzip, snappy, lz4 and zstd select that codec; any other name means no compression |
| Producer.EffectiveBatchSize | apps/producer-service/internal/infrastructure/kafka/producer.go:93-96 | the batch size is always at least 1: a positive configured size is kept, anything else becomes 100 |
| Producer.CheckConfig | apps/producer-service/internal/infrastructure/kafka/producer.go:56-96 | configuration is accepted iff brokers and topic are non-empty; each rejection has its own message; an accepted one yields the effective batch size |
| Producer.Encoded | apps/producer-service/internal/infrastructure/kafka/producer.go:259-297 | sendBatch's message building never yields more messages than events |
| Producer.EncodedAppend | apps/producer-service/internal/infrastructure/kafka/producer.go:261-297 | encoding distributes over concatenation, so input order is kept |
| Producer.EncodedAllAccepted | apps/producer-service/internal/infrastructure/kafka/producer.go:285-296 | when every event validates and serialises, message i is the keyed, headered message of event i |
| Producer.EncodedEmpty | apps/producer-service/internal/infrastructure/kafka/producer.go:260-301 | no message survives iff no event both validates and serialises (the "no valid messages to send" case) |
| Producer.EncodedMessagesKeyed | apps/producer-service/internal/infrastructure/kafka/producer.go:285-295 | every message built comes from an accepted input event: key = its ID, the four event headers, the JSON payload |
| Producer.BuildMessages | apps/producer-service/internal/infrastructure/kafka/producer.go:260-297 | the loop builds exactly the encoded messages and the validation/serialisation failure metrics |
| Producer.WriteWithRetry | apps/producer-service/internal/infrastructure/kafka/producer.go:422-450 | the loop makes the writes of the first-success run (at most MaxRetries+1) and waits k*RetryBackoff before retry k |
| Producer.Flush | apps/producer-service/internal/infrastructure/kafka/producer.go:181-205 | a flush always leaves the pending batch empty |
| Producer.Collect | apps/producer-service/internal/infrastructure/kafka/producer.go:165-172 | one collector step grows the pending batch by at most one event |
| Producer.CollectKeepsBelowSize | apps/producer-service/internal/infrastructure/kafka/producer.go:165-172 | between events the pending batch stays shorter than batchSize |
| Producer.CollectAllAppend | apps/producer-service/internal/infrastructure/kafka/producer.go:151-177 | collecting a stream is collecting its parts one after the other |
| Producer.CollectBelowSize | apps/producer-service/internal/infrastructure/kafka/producer.go:165-172 | events that do not fill the batch are only appended, in order |
| Producer.CollectOneBatch | apps/producer-service/internal/infrastructure/kafka/producer.go:165-198 | batchSize events from empty give exactly one queued batch of those events and an empty buffer |
| Producer.CollectFromEmptyQueue | apps/producer-service/internal/infrastructure/kafka/producer.go:165-205 | with the batch channel empty, collecting one event drops nothing, and the flushed batches followed by the pending buffer are the old buffer plus the event, in order |
| Producer.CollectAllChunks | apps/producer-service/internal/infrastructure/kafka/producer.go:151-205 | while the queue has room, a stream is queued as consecutive full batches and the remainder stays pending |
| Producer.Producer.constructor | apps/producer-service/internal/infrastructure/kafka/producer.go:98-108 | a fresh producer: settings from the configuration, nothing queued, sent or counted, not started, not closed |
| Producer.Producer.Start | apps/producer-service/internal/infrastructure/kafka/producer.go:122-141 | a closed producer refuses to start; otherwise it is started |
| Producer.Producer.FlushCurrentBatch | apps/producer-service/internal/infrastructure/kafka/producer.go:181-205 | an empty buffer is a no-op; otherwise the batch is queued in arrival order, or dropped when 10 are queued; the buffer is cleared either way |
| Producer.Producer.CollectEvent | apps/producer-service/internal/infrastructure/kafka/producer.go:158-172 | append, then flush once the batch reaches batchSize; the below-size invariant is kept |
| Producer.Producer.CollectorStep | apps/producer-service/internal/infrastructure/kafka/producer.go:151-173 | a running collector takes the oldest queued event and collects it; otherwise nothing changes |
| Producer.Producer.TimerTick | apps/producer-service/internal/infrastructure/kafka/producer.go:174-175 | the batch timer flushes the pending batch of a running producer |
| Producer.Producer.PublishBatchWithRetry | apps/producer-service/internal/infrastructure/kafka/producer.go:453-482 | the writes made are those of the first-success run, and the messages count as delivered only on success |
| Producer.Producer.SendBatch | apps/producer-service/internal/infrastructure/kafka/producer.go:254-318 | the new writes, deliveries and metrics are SendOne of the old ones, and the error is SendError: empty input is a no-op; no surviving message gives "no valid messages to send" with only the rejections counted; otherwise one write run, delivered on success, then one published or publish_error counter per input event after the rejections, and the retry error on failure |
| Producer.Producer.SenderStep | apps/producer-service/internal/infrastructure/kafka/producer.go:217-249 | the sender takes the oldest queued batch, logs it as sent and sends it under sendBatch's effect; the log followed by the queue is unchanged, and sending the new queue from the new state ends where sending the old queue from the old state would; with nothing queued nothing changes |
| Producer.Producer.SendQueued | apps/producer-service/internal/infrastructure/kafka/producer.go:211-251 | draining empties the queue, logs every queued batch in queue order, and leaves the writes, deliveries and metrics exactly as SendAll of the old queue from the old state |
| Producer.Producer.PublishSync | apps/producer-service/internal/infrastructure/kafka/producer.go:362-392 | as SyncPublished says: an event that does not serialise is counted as a serialization error and nothing is written; otherwise its one keyed message is written with retries, delivered only on success, counted published or publish_error, and a failure returns the retry error |
| Producer.Producer.Publish | apps/producer-service/internal/infrastructure/kafka/producer.go:321-359 | closed: error, no change; invalid: validation error counted, nothing queued or written; room in the event queue: appended, nothing else changes; full queue: queue unchanged and exactly publishSync's effect and error (SyncPublished) |
| Producer.Producer.PublishBatch | apps/producer-service/internal/infrastructure/kafka/producer.go:395-419 | closed: error, no change; otherwise exactly sendBatch's effect |
| Producer.Producer.DrainStep | apps/producer-service/internal/infrastructure/kafka/producer.go:158-172 | collecting one drained event keeps every event in order across the sent batches and the buffer, and the batches sent on the way reached the writer and the counters in log order (SentAfter) |
| Producer.Producer.DrainEvents | apps/producer-service/internal/infrastructure/kafka/producer.go:158-163 | draining the event queue loses no event and keeps their order, and every batch sent on the way reached the writer and the counters in log order (SentAfter) |
| Producer.Producer.FlushAndSend | apps/producer-service/internal/infrastructure/kafka/producer.go:159-162 | the final flush and send move the pending events, in order, to the sent batches, and that batch reaches the writer and the counters (SentAfter) |
| Producer.Producer.SendAndDrainEvents | apps/producer-service/internal/infrastructure/kafka/producer.go:146-177 | the queued batches and then the drained events end up, in order, in the sent batches and the buffer; everything sent reached the writer and the counters in log order |
| Producer.Producer.Drain | apps/producer-service/internal/infrastructure/kafka/producer.go:146-251 | after the event channel is closed, the batches sent flatten to the queued batches, the pending buffer and the queued events, in order; queues and buffer end empty, nothing is dropped, and the writes, deliveries and metrics are SendAll of exactly those batches (SentAfter) |
| Producer.Producer.SendAllAppend | apps/producer-service/internal/infrastructure/kafka/producer.go:211-251 | the sender's effect over two runs of batches is its effect over their concatenation |
| Producer.Producer.SendAllExtends | apps/producer-service/internal/infrastructure/kafka/producer.go:254-318 | sending only appends: writes never decrease, and earlier deliveries and metrics stay as a prefix |
| Producer.Producer.AlwaysFirstWrite | apps/producer-service/internal/infrastructure/kafka/producer.go:453-482 | with a retry budget of at least one attempt and a writer whose every call succeeds, the first write succeeds and no retry is made |
| Producer.Producer.SendOneDelivers | apps/producer-service/internal/infrastructure/kafka/producer.go:254-318 | with a writer whose every call succeeds, a batch delivers its encoded messages in exactly one write, or makes no write when none survives |
| Producer.Producer.SendAllDeliversEncoded | apps/producer-service/internal/infrastructure/kafka/producer.go:211-318 | with a writer whose every call succeeds, a run of batches delivers exactly the encoded messages of all its events, in order, one write per delivered batch |
| Producer.Producer.Close | apps/producer-service/internal/infrastructure/kafka/producer.go:485-510 | a second Close returns nil and changes nothing; the first, when the sender keeps up and the Start context is still live, drains every queued and pending event, in order, into sent batches and sends each one (SentAfter: writes, deliveries and metrics are SendAll of those batches), and with a writer whose every call succeeds delivers exactly the encoded messages of all those events; a Close without Start leaves writes, deliveries and metrics alone; the writer's close error is reported |
| Producer.NewProducer | apps/producer-service/internal/infrastructure/kafka/producer.go:55-119 | a configuration error is returned as is; otherwise a fresh, valid producer with the effective batch size |
| Retry.MaxAttempts | apps/producer-service/internal/infrastructure/kafka/producer.go:425-449 | a retry loop makes MaxRetries+1 attempts, none when MaxRetries is negative |
| Retry.FirstSuccess | apps/producer-service/internal/infrastructure/kafka/producer.go:425-449 | the attempts stop at the first success, every earlier one failed, and a failing run uses all attempts |
| Retry.SucceedsWhenSomeAttemptCan | services/consumer-service/internal/infrastructure/kafka/consumer.go:359-384 | if any allowed attempt would succeed, the run succeeds no later than that attempt |
| Retry.FailsOnlyWhenAllFail | services/consumer-service/internal/infrastructure/kafka/consumer.go:359-384 | a failed run means every allowed attempt failed |
| Retry.LinearWaits | apps/producer-service/internal/infrastructure/kafka/producer.go:425-449 | one wait between consecutive attempts, none after the last |
| Retry.LinearWaitAt | services/consumer-service/internal/infrastructure/kafka/consumer.go:359-384 | the wait before attempt k is k*backoff |
| Retry.LinearWaitsTotal | apps/producer-service/internal/infrastructure/kafka/producer.go:425-449 | n attempts wait backoff*n*(n-1)/2 in total |
| Retry.ExponentialWaits | apps/consumer-service/internal/infrastructure/kafka/consumer.go:270-280 | one wait between consecutive attempts, none after the last |
| Retry.ExponentialWaitAt | apps/consumer-service/internal/infrastructure/kafka/consumer.go:270-280 | the wait after failed attempt a is backoff*2^a |
| Retry.ExponentialWaitsTotal | apps/consumer-service/internal/infrastructure/kafka/consumer.go:270-280 | n attempts wait backoff*(2^(n-1) - 1) in total |
| PipelineConsumer.StartOffsetFor | services/consumer-service/internal/infrastructure/kafka/consumer.go:69-77 | "earliest" maps to the first offset, anything else to the last |
| PipelineConsumer.CheckConfig | services/consumer-service/internal/infrastructure/kafka/consumer.go:56-77 | accepted iff brokers, topic and group ID are non-empty, with the first missing one reported; accepted gives the start offset |
| PipelineConsumer.LongerPatternsImplied | services/consumer-service/internal/infrastructure/kafka/consumer.go:212-215 | "context deadline exceeded" and "i/o timeout" are subsumed by the shorter patterns |
| PipelineConsumer.IsTimeoutError | services/consumer-service/internal/infrastructure/kafka/consumer.go:205-216 | nil is no timeout; an error is one iff its text contains "timeout" or "deadline exceeded" |
| PipelineConsumer.ProcessEventWithRetry | services/consumer-service/internal/infrastructure/kafka/consumer.go:356-385 | calls of the first-success run with linear waits; error iff the run failed, with the retry message |
| PipelineConsumer.RetryErrorUndercounts | services/consumer-service/internal/infrastructure/kafka/consumer.go:384 | the failure message reports MaxRetries attempts, one fewer than were made |
| PipelineConsumer.MetricOf | services/consumer-service/internal/infrastructure/kafka/consumer.go:257-291 | a record is counted consumed iff it was processed |
| PipelineConsumer.ProcessMessage | services/consumer-service/internal/infrastructure/kafka/consumer.go:252-303 | decode and validation failures: no processing and no error; otherwise retried processing; the error is returned only for a processing failure |
| PipelineConsumer.UnprocessableRecordsForwarded | services/consumer-service/internal/infrastructure/kafka/consumer.go:252-276 | records that fail to parse or validate still reach the commit queue |
| PipelineConsumer.ForwardedRecordsNotFailed | services/consumer-service/internal/infrastructure/kafka/consumer.go:236-246 | every record on the commit queue did not fail processing |
| PipelineConsumer.Acknowledged | services/consumer-service/internal/infrastructure/kafka/consumer.go:316-330 | never more acknowledged commits than attempted ones |
| PipelineConsumer.AcknowledgedIsFilter | services/consumer-service/internal/infrastructure/kafka/consumer.go:316-330 | the acknowledged commits are the attempted ones whose call succeeded, in call order |
| PipelineConsumer.AcknowledgedMembers | services/consumer-service/internal/infrastructure/kafka/consumer.go:316-330 | a batch is acknowledged iff some commit call carrying it succeeded |
| PipelineConsumer.AcknowledgedAll | services/consumer-service/internal/infrastructure/kafka/consumer.go:316-330 | when every commit succeeds, every attempted batch is committed |
| PipelineConsumer.Committer.constructor | services/consumer-service/internal/infrastructure/kafka/consumer.go:313-314 | the committer starts with an empty batch and nothing received or committed |
| PipelineConsumer.Committer.CommitBatch | services/consumer-service/internal/infrastructure/kafka/consumer.go:316-330 | empty batch: nothing; otherwise one commit attempt, and the batch is cleared whether or not it succeeds |
| PipelineConsumer.Committer.Receive | services/consumer-service/internal/infrastructure/kafka/consumer.go:340-351 | append the message; commit once the batch reaches its size |
| PipelineConsumer.Committer.Tick | services/consumer-service/internal/infrastructure/kafka/consumer.go:338-339 | the ticker commits whatever is pending |
| PipelineConsumer.Committer.Finish | services/consumer-service/internal/infrastructure/kafka/consumer.go:334-345 | on exit the pending batch is committed, so every received message has had a commit attempt, in order |
| PipelineConsumer.Consumer.constructor | services/consumer-service/internal/infrastructure/kafka/consumer.go:92-102 | a fresh, open consumer with an empty committer |
| PipelineConsumer.Consumer.OutcomeOf | services/consumer-service/internal/infrastructure/kafka/consumer.go:252-303 | parse failure iff decoding fails; validation failure iff it decodes but does not validate; processing failure iff the record is processable and its retry run failed |
| PipelineConsumer.Consumer.OutcomeOfRetries | services/consumer-service/internal/infrastructure/kafka/consumer.go:252-303 | processing fails iff the record is processable and every process call it is allowed fails; it is processed iff one of those calls can succeed |
| PipelineConsumer.Consumer.Outcomes | services/consumer-service/internal/infrastructure/kafka/consumer.go:225-248 | one outcome per record |
| PipelineConsumer.Consumer.OutcomesAt | services/consumer-service/internal/infrastructure/kafka/consumer.go:225-248 | record i is judged as OutcomeOf says, its process calls numbered after those of the records before it |
| PipelineConsumer.Consumer.OutcomesClassified | services/consumer-service/internal/infrastructure/kafka/consumer.go:252-276 | every outcome of a run agrees with how its record decodes and validates |
| PipelineConsumer.Consumer.HandleRecord | services/consumer-service/internal/infrastructure/kafka/consumer.go:225-248 | the outcome is OutcomeOf the record with calls numbered from the calls made so far, the call count grows by that record's retry run, and the record reaches the committer iff processing did not fail |
| PipelineConsumer.Consumer.HandleAll | services/consumer-service/internal/infrastructure/kafka/consumer.go:219-248 | the workers' loop yields exactly the outcomes and call count of Outcomes and Calls, and the committer receives the records whose processing did not fail, in order |
| PipelineConsumer.Consumer.Start | services/consumer-service/internal/infrastructure/kafka/consumer.go:116-147 | closed: "consumer is closed", no change; otherwise the outcomes are those of Outcomes, every one classified, the calls those of Calls, and exactly the forwarded records reach the committer, in order, all of them in commit attempts at the end |
| PipelineConsumer.Consumer.Close | services/consumer-service/internal/infrastructure/kafka/consumer.go:432-452 | always closed afterwards; a second Close returns nil; the first sets the flag and waits while holding the write lock: with no Start running it returns the reader's close error, and while one runs it may never return, whatever its context |
| PipelineConsumer.Consumer.CloseUnlocked | services/consumer-service/internal/infrastructure/kafka/consumer.go:432-452 | with the lock released before the wait, the first Close returns iff no Start runs or its context was cancelled, and then with the reader's close error |
| AppConsumer.ParseMessage | apps/consumer-service/internal/infrastructure/kafka/consumer.go:295-302 | a parsed event always validates, and parsing succeeds iff FromJSON does |
| AppConsumer.RecordEffect | apps/consumer-service/internal/infrastructure/kafka/consumer.go:238-292 | at most one of consumed and errors moves, exactly one when maxRetries >= 0; success counts the bytes; parse errors call no handler; calls never exceed maxRetries+1 |
| AppConsumer.FailedRecordExhaustedRetries | apps/consumer-service/internal/infrastructure/kafka/consumer.go:259-289 | a failed parsed record had all maxRetries+1 handler calls fail and reports "max retries exceeded" |
| AppConsumer.FailedRecordTotalWait | apps/consumer-service/internal/infrastructure/kafka/consumer.go:270-280 | a record that keeps failing waits retryBackoff*(2^maxRetries - 1) in total |
| AppConsumer.Batch | apps/consumer-service/internal/infrastructure/kafka/consumer.go:155-192 | at most batchSize events, in read order, all valid and all counted; a read error keeps what was gathered or fails when nothing was |
| AppConsumer.BatchReadsPrefix | apps/consumer-service/internal/infrastructure/kafka/consumer.go:155-192 | every run reads a stretch of delivered records: its events are the gathered ones followed by those records that parse, in read order; consumed counts them, errors grow by the records that do not parse and bytes by the parsed payloads; it stops at the timer, a read error, a cancellation (the only way to report "context canceled") or a full batch |
| AppConsumer.CountedSteps | apps/consumer-service/internal/infrastructure/kafka/consumer.go:129-151 | a run never counts more steps than the reader delivered |
| AppConsumer.CountedStepsAppend | apps/consumer-service/internal/infrastructure/kafka/consumer.go:129-151 | counted steps add up over consecutive parts of a run |
| AppConsumer.Consumer.constructor | apps/consumer-service/internal/infrastructure/kafka/consumer.go:78-96 | a fresh, open consumer with zero counters |
| AppConsumer.Consumer.Stats | apps/consumer-service/internal/infrastructure/kafka/consumer.go:377-389 | reports the current counters |
| AppConsumer.Consumer.HandleWithRetry | apps/consumer-service/internal/infrastructure/kafka/consumer.go:259-289 | handler calls of the first-success run, with exponential waits between them |
| AppConsumer.Consumer.ProcessMessage | apps/consumer-service/internal/infrastructure/kafka/consumer.go:238-292 | the result and every counter move exactly as RecordEffect says |
| AppConsumer.Consumer.ConsumeBatch | apps/consumer-service/internal/infrastructure/kafka/consumer.go:155-192 | closed: "consumer is closed"; otherwise the events, error and counters of Batch |
| AppConsumer.Consumer.ReadLoop | apps/consumer-service/internal/infrastructure/kafka/consumer.go:129-152 | the read loop: each read error or record moves exactly one counter by one, and it ends with "context canceled" iff the reader's script cancels |
| AppConsumer.Consumer.Consume | apps/consumer-service/internal/infrastructure/kafka/consumer.go:100-127 | closed: "consumer is closed", no change; otherwise its goroutines are counted, the read loop runs, and the deferred shutdown closes the event channel, waits for the collector, then would close the result channel: from a fresh start Consume never returns |
| AppConsumer.Consumer.ConsumeCollectorLast | apps/consumer-service/internal/infrastructure/kafka/consumer.go:100-127 | with the result channel closed before the collector is waited for, Consume returns the read loop's error with context cancelled and both channels closed |
| AppConsumer.Consumer.Close | apps/consumer-service/internal/infrastructure/kafka/consumer.go:392-413 | a second Close returns nil; the first cancels and waits for what Consume counted: with nothing counted it returns the reader's close error, and while the collector is counted and its channel open it never returns |
| EventProcessing.Successes | apps/consumer-service/internal/usecase/event_processor.go:323-330 | the successes never exceed the results |
| EventProcessing.GroupOfType | apps/consumer-service/internal/usecase/event_processor.go:193-196 | a type's group holds only events of that type |
| EventProcessing.GroupedIsPermutation | apps/consumer-service/internal/usecase/event_processor.go:184-246 | grouping by type is a permutation of the input |
| EventProcessing.ResultFor | apps/consumer-service/internal/usecase/event_processor.go:146-180 | a result carries the event's ID and type, and succeeds iff a handler exists and it reports no error |
| EventProcessing.ResultsFor | apps/consumer-service/internal/usecase/event_processor.go:220-238 | one result per event, in order |
| EventProcessing.EventProcessor.constructor | apps/consumer-service/internal/usecase/event_processor.go:49-86 | a new processor is stopped with zero stats |
| EventProcessing.EventProcessor.CanHandle | apps/consumer-service/internal/usecase/event_processor.go:374-377 | true exactly for the three registered types |
| EventProcessing.EventProcessor.SupportedTypes | apps/consumer-service/internal/usecase/event_processor.go:380-386 | exactly the three registered types |
| EventProcessing.EventProcessor.Start | apps/consumer-service/internal/usecase/event_processor.go:89-111 | succeeds only when stopped; a second Start is "processor is already running"; running afterwards |
| EventProcessing.EventProcessor.Stop | apps/consumer-service/internal/usecase/event_processor.go:114-135 | stopped afterwards; a stopped processor returns nil and nothing else changes; a running one cancels, closes the event channel and waits for the pool, collector included, before closing the result channel, so after Start it never returns |
| EventProcessing.EventProcessor.StopCollectorLast | apps/consumer-service/internal/usecase/event_processor.go:114-135 | with the result channel closed before the collector is waited for, Stop returns nil after Start, leaving the context cancelled and both channels closed |
| EventProcessing.EventProcessor.Process | apps/consumer-service/internal/usecase/event_processor.go:138-181 | stopped: error, no stats change; running: success bumps processed and that type, failure bumps failed only |
| EventProcessing.EventProcessor.GroupByType | apps/consumer-service/internal/usecase/event_processor.go:193-196 | a key per type present, holding that type's events in input order |
| EventProcessing.EventProcessor.HandleGroup | apps/consumer-service/internal/usecase/event_processor.go:200-238 | fills the group's result slots with its results and counts them, leaving earlier slots alone |
| EventProcessing.EventProcessor.ProcessBatch | apps/consumer-service/internal/usecase/event_processor.go:184-246 | one result per event, grouped by type; processed plus failed grows by the number of events |
| EventProcessing.EventProcessor.GetStats | apps/consumer-service/internal/usecase/event_processor.go:342-361 | a snapshot of the counters and the by-type map |
| Shutdown.ExitOf | apps/consumer-service/internal/usecase/event_processor.go:114-135 | a call comes back with its value iff its shutdown returns, and never iff a wait in it never returns |
| Shutdown.Run | apps/consumer-service/internal/usecase/event_processor.go:114-135 | a shutdown that returns leaves the signals of all its steps |
| Shutdown.RunReturnsIff | apps/consumer-service/internal/usecase/event_processor.go:114-135 | a shutdown returns iff every step can go on from the signals the steps before it left |
| Shutdown.CollectorWaitBlocks | apps/consumer-service/internal/usecase/event_processor.go:267-285 | a wait counting the collector never returns before the result channel is closed |
| Shutdown.ProcessorStopBlocks | apps/consumer-service/internal/usecase/event_processor.go:114-135 | Stop's steps block in the wait, with the context cancelled and the event channel closed |
| Shutdown.ConsumeDeferBlocks | apps/consumer-service/internal/infrastructure/kafka/consumer.go:123-127 | Consume's deferred steps block in the wait, with the event channel closed |
| Shutdown.CollectorLastReturns | apps/consumer-service/internal/usecase/event_processor.go:114-135 | closing the result channel before waiting for the collector returns, with everything signalled |
| Shutdown.WaitAfterCollectorLast | apps/consumer-service/internal/infrastructure/kafka/consumer.go:392-403 | after the corrected shutdown, Close's cancel-and-wait over the pool returns |
| Shutdown.CancelAndWaitBlocks | apps/consumer-service/internal/infrastructure/kafka/consumer.go:392-403 | Close's cancel-and-wait never returns while the collector is counted and its channel open |
| Shutdown.CancelAndWaitNothing | apps/consumer-service/internal/infrastructure/kafka/consumer.go:399-403 | with nothing counted Close's cancel-and-wait returns |
| Shutdown.LockedCloseBlocks | services/consumer-service/internal/infrastructure/kafka/consumer.go:432-444 | a wait made holding the write lock does not return while the reader is counted, which may be stopped on its read lock (line 160) |
| Shutdown.LockedCloseNothing | services/consumer-service/internal/infrastructure/kafka/consumer.go:432-452 | with nothing counted the locked Close returns with the flag set and the lock released |
| Shutdown.UnlockedCloseNothing | services/consumer-service/internal/infrastructure/kafka/consumer.go:432-452 | with nothing counted the unlocked Close returns too |
| Shutdown.UnlockedCloseReturns | services/consumer-service/internal/infrastructure/kafka/consumer.go:432-444 | releasing the lock before waiting on Start's goroutines returns iff the context was cancelled |
| ConsumerDomain.AllEventTypes | apps/consumer-service/internal/domain/event.go:56-62 | exactly the three valid types, without repetition |
| ConsumerDomain.Validate | apps/consumer-service/internal/domain/event.go:85-112 | accepted iff structurally valid, a known type and at most 10000 bytes; the first failing check determines the error |
| ConsumerDomain.TooLongDespiteTags | apps/consumer-service/internal/domain/event.go:97-100 | 6000 two-byte runes pass the rune-counting length tag but fail the byte-length check |
| ConsumerDomain.FromJSON | apps/consumer-service/internal/domain/event.go:120-131 | never returns an event that fails Validate, and wraps decode and validation errors |
| ConsumerDomain.Clone | apps/consumer-service/internal/domain/event.go:134-143 | the copy equals the original field by field |
| ConsumerDomain.GetEventTypeFromString | apps/consumer-service/internal/domain/event.go:146-152 | success gives a valid type no longer than the input; failure reports the input |
| ConsumerDomain.IsValidEventType | apps/consumer-service/internal/domain/event.go:155-158 | holds iff GetEventTypeFromString succeeds |
| ConsumerDomain.EventTypeFromPaddedString | apps/consumer-service/internal/domain/event.go:146-152 | any case variant of a type, padded with white space, is accepted as that type |
| ConsumerDomain.EventTypeFromStringIsTrimmedInput | apps/consumer-service/internal/domain/event.go:146-152 | an accepted input, once trimmed, is a case variant of the type returned |
| ServiceDomain.Validate | services/consumer-service/internal/domain/event.go:82-113 | as the consumer application's checks with user_created only, then a timestamp after now plus one minute fails |
| ServiceDomain.ValidImpliesConsumerValid | services/consumer-service/internal/domain/event.go:82-113 | an event this service accepts the consumer application accepts too |
| ServiceDomain.FromJSON | services/consumer-service/internal/domain/event.go:116-122 | succeeds iff decoding does, returning the decoded event unvalidated |
| ServiceDomain.FromJSONAcceptsInvalid | services/consumer-service/internal/domain/event.go:116-122 | an event no validation accepts still comes out of FromJSON |
| ServiceDomain.NewEvent | services/consumer-service/internal/domain/event.go:64-79 | type, data, version "1.0", source "producer-service" and a well-formed ID; it errors iff the event fails Validate |
| ServiceDomain.IsValidEventType | services/consumer-service/internal/domain/event.go:160-162 | holds exactly for case variants of user_created, with no trimming |
| ServiceDomain.PaddedTypeRejected | services/consumer-service/internal/domain/event.go:160-162 | a padded name is rejected here but accepted by the consumer application |
| EventIds.CompactTimestamp | services/consumer-service/internal/domain/event.go:137 | the 20060102150405 layout gives digits only, 14 of them for years below 10000 |
| EventIds.CompactTimestampRoundTrip | services/consumer-service/internal/domain/event.go:137 | the compact timestamp parses back to the same calendar reading |
| EventIds.ParseEventId | services/consumer-service/internal/domain/event.go:139 | a parsed ID has a 14-character timestamp and an 8-character suffix |
| EventIds.ParseFormatEventId | services/consumer-service/internal/domain/event.go:139 | type, timestamp and suffix formatted as "%s_%s_%s" parse back |
| EventIds.GenerateRandomString | services/consumer-service/internal/domain/event.go:142-157 | exactly `length` charset characters: random byte mod 36, or clock nanoseconds mod 36 when crypto/rand fails |
| EventIds.GenerateEventId | services/consumer-service/internal/domain/event.go:136-140 | type, "_", 14-digit timestamp, "_", 8 charset characters |
| EventIds.GeneratedIdParses | services/consumer-service/internal/domain/event.go:136-140 | a generated ID parses back into its type, timestamp and suffix |
| SampleDomain.Validate | apps/sample-app/internal/domain/event.go:45-59 | rejects an empty ID, type or data, or a zero timestamp, the first in that order deciding the message |
| SampleDomain.NewEvent | apps/sample-app/internal/domain/event.go:35-42 | copies type and data, takes the timestamp, and generates a well-formed ID |
| SampleDomain.NewEventValidates | apps/sample-app/internal/domain/event.go:35-59 | a new event of a non-empty type validates iff its data is non-empty |
| ProducerUseCase.CountType | apps/producer-service/internal/usecase/event.go:152-153 | a type's count is at most the number of events |
| ProducerUseCase.TypeCountsCount | apps/producer-service/internal/usecase/event.go:148-156 | the per-type map has a key exactly for the types published, with their counts |
| ProducerUseCase.SuccessRateAsWritten | apps/producer-service/internal/usecase/event.go:103-106 | the source formula: 0 while nothing is published, otherwise rate * published = (published - failed) * 100; at most 100, 100 iff nothing failed, negative iff failures outnumber publications |
| ProducerUseCase.SuccessRateAsWrittenNegative | apps/producer-service/internal/usecase/event.go:103-106 | one published event and two failures give -100 percent |
| ProducerUseCase.SuccessRate | apps/producer-service/internal/usecase/event.go:103-106 | the corrected rate: published / (published + failed requests) * 100, stated as `r * (total + errors) == total * 100`; 0 with no requests or nothing published; always in [0, 100]; 100 iff something is published and nothing failed |
| ProducerUseCase.SuccessRateFallsWithErrors | apps/producer-service/internal/usecase/event.go:103-106 | each further failure lowers the rate |
| ProducerUseCase.FieldsToLogrus | apps/producer-service/internal/usecase/event.go:194-202 | the stepping loop computes the parsed key/value map |
| ProducerUseCase.AddedFieldsDiscarded | apps/producer-service/internal/usecase/event.go:186-192 | fields added with WithField or WithFields never reach a logged line |
| ProducerUseCase.EventService.constructor | apps/producer-service/internal/usecase/event.go:32-40 | zero totals, an empty per-type map, no last event time |
| ProducerUseCase.EventService.UpdateStats | apps/producer-service/internal/usecase/event.go:148-156 | total and the type's count each grow by one, and the last event time is set |
| ProducerUseCase.EventService.IncrementErrorCount | apps/producer-service/internal/usecase/event.go:159-163 | the error count grows by one |
| ProducerUseCase.EventService.CreateAndPublish | apps/producer-service/internal/usecase/event.go:43-75 | creation failure: error counted, no publish; publish failure: error counted, totals unchanged; success: the event is counted; exactly one of total and errors grows |
| ProducerUseCase.EventService.CreateAndPublishJSON | apps/producer-service/internal/usecase/event.go:78-90 | a marshalling failure is counted as an error; JSON text behaves as CreateAndPublish; exactly one of total and errors grows |
| ProducerUseCase.EventService.CreateUserEvent | apps/producer-service/internal/usecase/event.go:118-120 | CreateAndPublish with user_created |
| ProducerUseCase.EventService.CreateOrderEvent | apps/producer-service/internal/usecase/event.go:123-125 | CreateAndPublish with order_placed |
| ProducerUseCase.EventService.CreatePaymentEvent | apps/producer-service/internal/usecase/event.go:128-130 | CreateAndPublish with payment_processed |
| ProducerUseCase.EventService.CreateUserEventJSON | apps/producer-service/internal/usecase/event.go:133-135 | CreateAndPublishJSON with user_created |
| ProducerUseCase.EventService.CreateOrderEventJSON | apps/producer-service/internal/usecase/event.go:138-140 | CreateAndPublishJSON with order_placed |
| ProducerUseCase.EventService.CreatePaymentEventJSON | apps/producer-service/internal/usecase/event.go:143-145 | CreateAndPublishJSON with payment_processed |
| ProducerUseCase.EventService.GetEventStats | apps/producer-service/internal/usecase/event.go:93-115 | the totals and the per-type counts of the published events, and the success rate the source computes: 0 before the first publication, rate * published = (published - failed) * 100, at most 100 and negative once failures outnumber publications |
| SampleUseCase.CreateEvent | apps/sample-app/internal/usecase/event.go:25-37 | validation failure: that error, nothing published; otherwise exactly one publish of a valid event, returned on success, wrapped error on failure |
| SampleUseCase.CreateUserEvent | apps/sample-app/internal/usecase/event.go:25-37 | user_created events only; success iff data non-empty and the one publish succeeds |
| SampleUseCase.CreateOrderEvent | apps/sample-app/internal/usecase/event.go:40-52 | order_placed events only; success iff data non-empty and the one publish succeeds |
| SampleUseCase.CreatePaymentEvent | apps/sample-app/internal/usecase/event.go:55-67 | payment_processed events only; success iff data non-empty and the one publish succeeds |
| SampleHandlers.RequestError | apps/sample-app/internal/delivery/http/handlers/event.go:30-39 | blank data is ErrInvalidEventData, more than 1000 bytes after trimming is ErrEventDataTooLong, anything else passes |
| SampleHandlers.ValidateIdempotent | apps/sample-app/internal/delivery/http/handlers/event.go:30-39 | validated data passes again unchanged |
| SampleHandlers.EventRequest.constructor | apps/sample-app/internal/delivery/http/handlers/event.go:106-108 | the request holds the decoded data |
| SampleHandlers.EventRequest.Validate | apps/sample-app/internal/delivery/http/handlers/event.go:30-39 | trims the data in place; on success it is non-empty, trimmed and at most 1000 bytes |
| SampleHandlers.ParseAndValidateRequest | apps/sample-app/internal/delivery/http/handlers/event.go:105-121 | decode errors pass through; exactly-empty data takes the default; then the trimmed data or its validation error |
| SampleHandlers.ShortTextAccepted | apps/sample-app/internal/delivery/http/handlers/event.go:30-39 | non-blank trimmed ASCII of at most 1000 characters is accepted as it is |
| SampleHandlers.DefaultUserDataAccepted | apps/sample-app/internal/delivery/http/handlers/event.go:55 | the user endpoint's default text is accepted unchanged |
| SampleHandlers.DefaultOrderDataAccepted | apps/sample-app/internal/delivery/http/handlers/event.go:72 | the order endpoint's default text is accepted unchanged |
| SampleHandlers.DefaultPaymentDataAccepted | apps/sample-app/internal/delivery/http/handlers/event.go:89 | the payment endpoint's default text is accepted unchanged |
| SampleHandlers.OnlyEmptyDataDefaulted | apps/sample-app/internal/delivery/http/handlers/event.go:112-116 | white-space-only data gets no default and is rejected |
| LogFields.ParseFields | apps/consumer-service/internal/infrastructure/logging/logger.go:60-71 | the stepping loop computes the parsed key/value map |
| LogFields.ParsedAppendPair | apps/consumer-service/internal/infrastructure/logging/logger.go:64-68 | a string-keyed pair sets its key; a non-string key skips its pair |
| LogFields.ParsedIgnoresTrailing | apps/consumer-service/internal/infrastructure/logging/logger.go:64-68 | a trailing odd element is ignored |
| LogFields.ParsedKeys | apps/consumer-service/internal/infrastructure/logging/logger.go:64-68 | a key is present iff it is a string at an even position with a value after it |
| LogFields.ParsedLastWins | apps/consumer-service/internal/infrastructure/logging/logger.go:66 | a key's value is the element after its last occurrence |
| ConsumerLogging.NewAdapter | apps/consumer-service/internal/infrastructure/logging/logger.go:16-21 | an entry of the logger with no fields |
| ConsumerLogging.WithField | apps/consumer-service/internal/infrastructure/logging/logger.go:44-49 | same logger, the key set to the value, all other fields kept |
| ConsumerLogging.WithFields | apps/consumer-service/internal/infrastructure/logging/logger.go:52-57 | same logger, the union of fields, the added ones winning |
| ConsumerLogging.Emitted | apps/consumer-service/internal/infrastructure/logging/logger.go:24-41 | a line carries the entry's fields overlaid with the parsed call arguments |
| ConsumerLogging.WithFieldIsLogged | apps/consumer-service/internal/infrastructure/logging/logger.go:24-49 | a field added with WithField shows on later lines that do not pass the same key |
| Env.GetEnv | apps/consumer-service/internal/config/config.go:233-238 | the value when set and non-empty, else the default |
| Env.GetIntEnv | apps/consumer-service/internal/config/config.go:240-256 | the parsed integer, or the default when unset or not an integer |
| Env.GetIntEnvFormatted | apps/consumer-service/internal/config/config.go:240-256 | a variable holding a formatted int64 reads back as that number |
| Env.ParseBool | apps/consumer-service/internal/config/config.go:258-265 | exactly strconv.ParseBool's six true and six false spellings |
| Env.GetBoolEnv | apps/consumer-service/internal/config/config.go:258-265 | the parsed boolean, or the default when unset or unparseable |
| Env.GetDurationEnv | apps/consumer-service/internal/config/config.go:267-278 | the parsed duration; else whole seconds; else the default |
| Env.GetDurationEnvSeconds | apps/consumer-service/internal/config/config.go:272-275 | a unitless number of seconds reads as that many seconds |
| Env.BrokerList | apps/consumer-service/internal/config/config.go:280-290 | commas+1 pieces, each trimmed and comma-free |
| Env.TrimEach | apps/consumer-service/internal/config/config.go:284-286 | every element is replaced in place by its trimmed form |
| Env.GetBrokersEnv | apps/consumer-service/internal/config/config.go:280-290 | the default when unset, else the broker list of the value |
| Env.BrokerListJoin | apps/consumer-service/internal/config/config.go:228-290 | joining trimmed, comma-free brokers and reading them back gives the same list |
| Env.BrokerListStable | apps/consumer-service/internal/config/config.go:280-290 | reading, joining and reading again changes nothing |
| ConsumerConfig.Validate | apps/consumer-service/internal/config/config.go:197-215 | accepted iff the field rules hold, workers <= concurrency and min bytes <= max bytes; each cross-field error has its message |
| ConsumerConfig.Load | apps/consumer-service/internal/config/config.go:117-194 | the built configuration when it validates, else the wrapped error; a loaded configuration passes both cross-field checks |
| ConsumerConfig.DefaultsLoad | apps/consumer-service/internal/config/config.go:117-215 | with nothing set the defaults (5 workers, concurrency 10, bytes 1 to 10485760) validate |
| ConsumerConfig.DisabledMetricsRejected | apps/consumer-service/internal/config/config.go:89-165 | METRICS_ENABLED=false fails validation: a `required` bool must be true |
| ConsumerConfig.EnvironmentsExclusive | apps/consumer-service/internal/config/config.go:218-225 | IsProduction ("production") and IsDevelopment ("development") are never both true |
| ConsumerConfig.BrokerStringRoundTrip | apps/consumer-service/internal/config/config.go:228-231 | GetKafkaBrokerString (KafkaBrokerString) of a loaded configuration reads back as its broker list |
| ProducerConfig.Validate | apps/producer-service/internal/config/config.go:114-120 | accepted iff the field rules hold |
| ProducerConfig.Load | apps/producer-service/internal/config/config.go:67-111 | the built configuration when its field rules hold, else the wrapped error |
| ProducerConfig.DefaultsWithinBounds | apps/producer-service/internal/config/config.go:37-86 | the defaults (batch 100, 3 retries, acks 1, snappy) satisfy every field rule |
| ProducerConfig.EnvironmentsExclusive | apps/producer-service/internal/config/config.go:123-130 | IsProduction ("production") and IsDevelopment ("development") are never both true |
| SampleConfig.Load | apps/sample-app/internal/config/config.go:30-43 | always one broker, the raw value or localhost:9092; topic and address never empty |
| SampleConfig.Defaults | apps/sample-app/internal/config/config.go:33-40 | with nothing set: ":8080", 15s, 15s, 60s, one local broker, "events" |
| SampleConfig.BrokersNotSplit | apps/sample-app/internal/config/config.go:39 | a comma-separated value stays one broker |
| Middleware.ClientIP | apps/producer-service/internal/delivery/http/middleware/middleware.go:116-125 | X-Forwarded-For if non-empty, else X-Real-IP if non-empty, else the remote address |
| Middleware.ResponseWriter.constructor | apps/producer-service/internal/delivery/http/middleware/middleware.go:20 | the recording wrapper starts at 200 with nothing written |
| Middleware.ResponseWriter.SetHeader | apps/producer-service/internal/delivery/http/middleware/middleware.go:86-89 | Set replaces the header's value |
| Middleware.ResponseWriter.WriteHeader | apps/producer-service/internal/delivery/http/middleware/middleware.go:132-135 | the code is recorded and passed on; the recorded status is the last code written |
| Middleware.Overlay | apps/producer-service/internal/delivery/http/middleware/middleware.go:86-89 | the set headers take their values and all others are untouched |
| Middleware.Cors | apps/producer-service/internal/delivery/http/middleware/middleware.go:86-98 | the four CORS headers are always set; OPTIONS gets 200 without calling next; other methods call next |
| Middleware.Security | apps/producer-service/internal/delivery/http/middleware/middleware.go:105-110 | the four security headers are set, then next is called |
| TraceContext.TraceHeaders | services/producer-service/internal/infrastructure/kafka/instrumented_writer.go:61-70 | a valid span gives trace-id then span-id; an invalid one gives none |
| TraceContext.Injected | services/producer-service/internal/infrastructure/kafka/instrumented_writer.go:54-71 | key, value and time kept; valid span: the two headers follow the existing ones; invalid: headers unchanged, nil becoming empty |
| TraceContext.InjectTraceHeaders | services/producer-service/internal/infrastructure/kafka/instrumented_writer.go:54-77 | every message of the batch is rewritten in place to its injected form; count and order unchanged |
| TraceContext.InvalidSpanKeepsContext | services/producer-service/internal/infrastructure/kafka/instrumented_writer.go:56-62 | with an invalid span the reader sees what the message already carried |
| TraceContext.SameIdsInBatch | services/producer-service/internal/infrastructure/kafka/instrumented_writer.go:61-70 | all messages of one call carry the same trace and span ids |
| TraceContext.ExtractTraceContext | services/consumer-service/internal/infrastructure/kafka/instrumented_reader.go:76-96 | a context is found iff the last trace-id and the last span-id are both non-empty |
| TraceContext.LastSkipsOthers | services/consumer-service/internal/infrastructure/kafka/instrumented_reader.go:79-86 | headers with other keys appended later leave the extracted value alone |
| TraceContext.LastOverrides | services/consumer-service/internal/infrastructure/kafka/instrumented_reader.go:79-86 | a later header with the key overrides all earlier ones |
| TraceContext.LastIgnoresOthers | services/consumer-service/internal/infrastructure/kafka/instrumented_reader.go:80-86 | headers with other keys, anywhere, do not change the extracted value |
| TraceContext.HasTraceContextIgnoresOthers | services/consumer-service/internal/infrastructure/kafka/instrumented_reader.go:80-93 | HasTraceContext, the reader's test for a context, ignores headers with any other key |
| TraceContext.InjectedExtracted | services/consumer-service/internal/infrastructure/kafka/instrumented_reader.go:88-93 | after valid injection the reader finds exactly the writer's ids, and a context when they are non-empty |

## Left out

- Concurrency: goroutines, channels, wait groups, mutexes, atomics and tickers are modelled as sequential steps, and context cancellation only where stated below. Bounded channels are sequences with their capacity, and a compare-and-swap on `closed` is a plain test-and-set. The shutdown sequences of the consumers are modelled in `Shutdown` by which signals let each goroutine leave; a wait returns only when every counted goroutine is certain to leave, whatever the schedule, so "never returns" there means "may wait forever on some schedule" for the consumer service's Close.
- Producer.Producer.Close: the drain is proved for one schedule: the Start context stays live, the sender first sends every queued batch, and then sends each batch the collector flushes before the next one, so no flush finds 10 batches waiting and nothing is dropped. If the context is cancelled first, the sender returns without draining and events can be lost; a slow sender makes flushCurrentBatch drop batches. Those schedules are not modelled.
- Producer.WriteWithRetry: a context cancelled during the back-off wait before a retry is not modelled. publishWithRetry then returns ctx.Err() without the remaining writes (apps/producer-service/internal/infrastructure/kafka/producer.go:430-431). The model waits and writes until a write succeeds or the attempts run out.
- Producer.Producer.PublishBatchWithRetry: likewise, the ctx.Err() return during the back-off wait of publishBatchWithRetry (apps/producer-service/internal/infrastructure/kafka/producer.go:461-462) is not modelled, so SendBatch and the Close drain assume the context stays live while a batch is retried.
- PipelineConsumer.ProcessEventWithRetry: a context cancelled during the back-off wait is not modelled. The source then returns ctx.Err() (services/consumer-service/internal/infrastructure/kafka/consumer.go:370-371). The model always runs the attempts to the first success or to the end, so Consumer.HandleRecord, HandleAll and Start do too.
- Producer.Producer.Publish: the `<-ctx.Done()` branch of the select (apps/producer-service/internal/infrastructure/kafka/producer.go:352-353) is not modelled. With a cancelled context Go may take it even when the channel has room, and Publish then returns ctx.Err() without queueing the event. The model queues when there is room and otherwise publishes synchronously.
- PipelineConsumer.Consumer.Close: whether a Start runs beside Close and whether its context was cancelled are parameters; the interleaving itself is not modelled.
- The broker client (kafka-go writer and reader) is foreign code. Its write, read, commit and close outcomes are oracles, and batching, compression and balancing inside the client are not modelled.
- Map iteration order is unspecified in Go. ProcessBatch takes the order of the type groups as a parameter, and GetSupportedTypes returns a set.
- EventProcessing.ResultFor: the three registered handlers only log and sleep before returning success. A `handlerErr` oracle stands in for a handler error, so the model is more general than the code.
- Floating point: durations, throughput and metric observations in seconds are left out. The success rate is a Dafny `real`, not a float64.
- JSON encoding and decoding, and the go-playground validator, are foreign. Decoding is a function parameter, and the validator's struct tags are read as predicates. The validator's own error text is not modelled, nor are wrapped `%w` causes beyond the text that precedes them.
- The producer's domain package (`event.Validate()`, `event.ToJSON()`, `domain.NewEvent`) is not part of this model. The producer takes them as functions.
- Time and randomness: `time.Now`, `time.Sleep` and `crypto/rand` values are parameters, and waits are integers.
- EventIds.GenerateRandomString: the fallback reads the clock's nanoseconds as a natural number. A negative UnixNano, which would make Go's `%` negative, is not modelled.
- Retry.ExponentialWaits: the shift `1<<attempt` is unbounded. Overflow of the int64 back-off for large attempt numbers is not modelled.
- Stats counters are unbounded naturals, not int64.
- Header-name canonicalisation in net/http is not modelled. The model uses the canonical spellings, so X-XSS-Protection is stored as X-Xss-Protection and X-Real-IP is read as X-Real-Ip.
- The Prometheus, logging and recovery middlewares record metrics, log and recover from panics. Only their status-capturing wrapper is modelled. The HTTP response writers of the handlers are I/O.
- Tracing spans, span attributes and error recording in the instrumented writer and reader are left out. ReadMessage and CommitMessages are tracing wrappers around the reader.
- PipelineConsumer.Consumer.Start: reader errors and how isTimeoutError is used in the fetch loop are not modelled. Start runs the worker over a finite list of records.
- A record whose processing still fails after all its retries is not forwarded to the commit stage (services/consumer-service/internal/infrastructure/kafka/consumer.go:236-239); the model follows the code.
- Each config file has its own environment helpers. The producer's config.go has getEnv, getIntEnv, getBoolEnv, getDurationEnv and getBrokersEnv. The consumer application's config.go has the same five and also getInt64Env (strconv.ParseInt, base 10, 64 bits). The sample application's config.go has only getEnv and getDurationEnv, and it keeps the broker string as one element (SampleConfig.BrokersNotSplit). Where two files share a helper, the bodies are the same apart from comments, so `Env` models each helper once: GetEnv, GetIntEnv (which also stands for getInt64Env; on a 64-bit platform ParseInt and Atoi accept the same strings), GetBoolEnv, GetDurationEnv and GetBrokersEnv.
- ProducerConfig: GetKafkaBrokerAddresses only returns the broker field and is not modelled separately.
- The services domain Clone is the same field-for-field copy as the consumer application's, and ConsumerDomain.Clone models both.
- EventProcessor.Handle and HandleBatch (apps/consumer-service/internal/usecase/event_processor.go:363-371) only forward to Process and ProcessBatch. They have no members of their own.
- The sample application's HTTP endpoints decode the request, call the use case and write a JSON response. Only parseAndValidateRequest and the request validation are modelled, and the response writing is I/O.
- Logging calls across the core have no effect on the modelled state and are left out. Only the log adapters' field handling is modelled.
- The sample domain's generateEventID and generateRandomString (apps/sample-app/internal/domain/event.go:61-84) are identical to the services domain's, and EventIds models both.

## Findings

| source | as written | input that shows it | evidently intended | confidence | as-written member | corrected member |
|---|---|---|---|---|---|---|
| apps/consumer-service/internal/usecase/event_processor.go:114-135 | Stop cancels, closes the event channel and calls wg.Wait, whose group counts resultCollector, before close(resultChan); the collector ranges over resultChan and so never finishes | Start, then Stop: the wait never returns | close the result channel once the workers and the stats updater are gone, then wait for the collector | high, not executed | EventProcessing.EventProcessor.Stop | EventProcessing.EventProcessor.StopCollectorLast |
| apps/consumer-service/internal/infrastructure/kafka/consumer.go:123-127 | Consume's deferred function closes eventChan, then wg.Wait over a group counting resultCollector, then closes resultChan | Consume with a context that is then cancelled: the deferred wait never returns, so Consume never returns | close the result channel before waiting for the collector | high, not executed | AppConsumer.Consumer.Consume | AppConsumer.Consumer.ConsumeCollectorLast |
| apps/consumer-service/internal/infrastructure/kafka/consumer.go:392-403 | Close cancels and waits for every goroutine Consume counted, collector included, whose channel the stuck Consume never closes | Consume started, then Close: Close never returns | Close returns once Consume has shut its goroutines down in the corrected order | high, not executed | AppConsumer.Consumer.Close | Shutdown.WaitAfterCollectorLast |
| services/consumer-service/internal/infrastructure/kafka/consumer.go:432-444 | Close holds mu.Lock across wg.Wait, while messageReader (line 160), commitMessages (line 389) and collectStats (line 412) take mu.RLock on every turn | Close while Start runs, on some schedules: the reader has already reached its read lock (line 160) before the cancel, or the committer's final commit of a non-empty batch needs the read lock (line 389); the wait then never returns, even after the context is cancelled. A reader that is inside ReadMessage at the cancel leaves through ctx.Done() instead | set the flag, release the lock, then wait | medium, not executed | PipelineConsumer.Consumer.Close | PipelineConsumer.Consumer.CloseUnlocked |
| apps/producer-service/internal/usecase/event.go:103-106 | success rate = (TotalEvents - ErrorCount) / TotalEvents * 100, although ErrorCount counts failed requests that never entered TotalEvents | 1 event published, 2 requests failed: the rate is -100 percent | the share of requests that were published, between 0 and 100 | medium, not executed | ProducerUseCase.SuccessRateAsWrittenNegative | ProducerUseCase.SuccessRate |
