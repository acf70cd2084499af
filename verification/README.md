# A verified model of TelemetryFlow

TelemetryFlow moves device readings from Kafka into TimescaleDB (the ingestor) and
through sliding windows and anomaly detection into aggregate and alert topics (the
processor). This project models the parts whose correctness is hardest to see and
proves, for all inputs and all runs, what they guarantee.

- **Delivery protocols.** Each consumer is an event automaton: an event is one effect
  of the process or one answer of its environment, and a run is any accepted sequence.
  Every deserialization, database write, publish, dead-letter publish and commit may
  fail, and what reported failure may still have landed, wholly or in part. `Restart`
  is accepted in every state: it forgets the process's memory and resumes from the
  committed offsets, so a crash after any effect is part of the runs. The classes
  `IngestorConsumer` and `ProcessorConsumer` are the code itself, fields appended to in
  loops and cleared in place; each of their effects emits an event, and their methods
  are proved to drive the automaton, so theorems about runs are theorems about them.
- **Stream operators.** Windows are slices over backing arrays, trimmed by re-slicing
  and appended to in place; the detector updates a nested map. Both refine functions
  whose relation to the whole history of readings is proved, alone and composed.
- **Caches and codecs.** The TTL enricher over whole call sequences, the two-level
  schema cache under any interleaving of its atomic steps, which the methods of the
  deserializer are proved to take, the Confluent frame, and the dead-letter record with
  its replay.
- **The simulated device**, for arbitrary random draws.

Files: `Prelude`, `Models`, `Broker` (vocabulary); `IngestorProtocol`, `IngestorSafety`,
`IngestorOnce`, `IngestorBatching`, `IngestorLoss`, `IngestorCancel`, `Ingestor`;
`SlidingWindow`, `WindowStore`, `Anomaly`, `Operators`; `ProcessorProtocol`,
`ProcessorSafety`, `ProcessorGuarantees`, `ProcessorOutputs`, `ProcessorAlerts`,
`ProcessorSharding`, `ProcessorLocations`, `Processor`; `Enricher`, `Frame`, `SchemaCache`, `Deserializer`,
`DeadLetterQueue`, `Simulator`, `EndToEnd`.
`dafny verify dfyconfig.toml` checks them all.

Conventions. A log is a set of records in which an offset identifies a record within its
partition; a fetch continues every partition it touches from the client's position and
skips nothing; a commit stores, per partition, the highest passed offset plus one. Times
are integers (nanoseconds), floats are reals. Clocks, random numbers, the context and
every answer of the outside world are arbitrary. What the registries answer while a
record is processed is an arbitrary function of the record, which no process handles
twice, so that contracts can say what the code does with an answer; a sound world is one
in which nothing fails.

Where the code and its comments disagree, the code is modelled:

- services/ingestor/consumer.go:30 promises that a failed database write commits no
  offsets; `flush` dead-letters the batch and commits. `IngestorLoss` shows the promise
  failing, proves that it holds exactly when the commit itself fails and lands on no
  partition of the batch, and says exactly what a failed flush delivers.
- services/ingestor/consumer.go:106 says that an undecodable record has been handled by its
  dead letter and must be committed. When that publish fails because the context was
  cancelled, Shutdown commits the record under a fresh context and it is lost.
  `IngestorCancel` has the run, for every record, and proves exactly which records a run
  with no worse failures loses.
- services/processor/consumer.go:108 says a commit failure is retried on the next poll;
  the next commit covers only the partitions of the next poll's records.
  `ProcessorGuarantees` has a run in which the partition still lags, and proves exactly
  when one does.
- services/processor/window.go:11 says each window is ordered by timestamp. It need not be
  when readings are not (`SlidingWindow.ExpiredReadingSurvives`). It is if and only if, for
  every two readings that came out of order, everything up to the first of them has been
  expired by something pushed since (`WindowInOrderIff`).
- services/processor/window.go:54 says the new entry is appended before eviction; it is
  appended after. The window is never empty all the same (`WindowIsSuffix`).
- services/processor/enricher.go:24 says stale data is never served to an active device;
  it is, exactly when the query fails.

## Model

| member | source | states |
|---|---|---|
| Broker.FetchExact | pkg/kafka/consumer.go:75-86 | What a fetch returns is exactly the part of the log between the old and the new position, each record once: consuming skips nothing. |
| Broker.CommitPassesRecord | pkg/kafka/consumer.go:88-99 | Wherever a commit landed, even a partly failed one, the new offset is one past a record that was passed to it. |
| Broker.CommitReachesPosition | pkg/kafka/consumer.go:88-99 | Committing everything fetched since the committed offsets makes them equal the client's position. |
| Broker.CommitAdvancesIff | pkg/kafka/consumer.go:88-99 | A commit of what was fetched since the committed offsets advances exactly the partitions of its records on which it landed. |
| IngestorSafety.StepKeepsLedger | services/ingestor/consumer.go:92-200 | Every event keeps the ledger: a fetched record is pending or accounted for, the pending metrics decode a subsequence of the pending records in order and the other pending records are dead-lettered or reported, a dead-lettering flush has accounted for what it passed, and committed offsets cover only accounted records. |
| IngestorSafety.AtLeastOnce | services/ingestor/consumer.go:66-200 | In every run a record below the committed offset is in the database, in the dead-letter topic or reported as a failed dead-letter publish, a fetched one may still be pending, and every row decodes its record. |
| IngestorSafety.BatchAccountedBeforeCommit | services/ingestor/consumer.go:172-195 | When flush reaches its commit every pending record is accounted for, on the success path, the failed-write path and the path without metrics. |
| IngestorSafety.PendingMetricsInOrder | services/ingestor/consumer.go:92-114 | In every run the pending metrics are the decodings, in order, of a subsequence of the pending records, and every other pending record is dead-lettered or reported. |
| IngestorOnce.StepKeepsAligned | services/ingestor/consumer.go:66-200 | Until a commit fails, what is in memory is a legal fetch from the committed offsets ending at the client's position; after a failed commit nothing is in memory. |
| IngestorOnce.CommitReachesClient | services/ingestor/consumer.go:194-197 | Every successful commit of a flush brings the committed offsets to the client's position on all partitions. |
| IngestorOnce.CleanShutdownCommitsEverything | services/ingestor/main.go:104-118 | When Run and Shutdown both return nil, committed equals position on every partition and a restart resumes exactly there. |
| IngestorOnce.OncePerProcess | services/ingestor/consumer.go:161-192 | One process adds at most one copy of a record to the database, whatever earlier processes wrote and whichever writes fail with rows landed. |
| IngestorOnce.DuplicationBound | services/ingestor/consumer.go:142-200 | A record is in the database at most 1 + the number of restarts not preceded by a clean shutdown times. |
| IngestorOnce.UncleanRestartsAreRestarts | services/ingestor/consumer.go:142-200 | That number is at most the number of restarts of the run. |
| IngestorBatching.PolledIsHandled | services/ingestor/consumer.go:92-114 | The loop iterates over every record it polls, once and in order. |
| IngestorBatching.FailureFreeContents | services/ingestor/consumer.go:92-200 | After a failure-free run and Shutdown the database holds the decodable polled records and the dead-letter topic the others, once each and in poll order. |
| IngestorBatching.BatchingIsTransparent | services/ingestor/consumer.go:127-135 | Two failure-free runs that poll the same records end with the same database and dead-letter topic for any batch sizes, flush intervals, clocks and groupings into polls. |
| IngestorBatching.PendingMetricsAreWellFormed | services/ingestor/consumer.go:92-114 | With failing writes, publishes, commits and restarts, as long as only undecodable records are dead-lettered when drained, the pending metrics are the decodings of exactly the well-formed pending records, in order. |
| IngestorBatching.PendingIsBounded | services/ingestor/consumer.go:116-135 | While the context is valid the pending metrics stay below the batch size plus one poll, and below the batch size between polls. |
| IngestorBatching.NoDueBatchIsLeft | services/ingestor/consumer.go:127-135 | When the loop polls on without flushing under a valid context, the batch is not full, and it is empty or the interval has not elapsed since the loop began or last flushed. |
| IngestorBatching.FlushesIffDue | services/ingestor/consumer.go:127-135 | After a fetch the loop flushes if and only if the context is valid and the batch is full, or some record is pending and the interval has elapsed since the loop began or last flushed. |
| IngestorLoss.NoLossWhileDeadLettersSucceed | services/ingestor/consumer.go:92-200 | If no dead-letter publish fails, every committed record is in the database or the dead-letter topic, whatever else fails. |
| IngestorLoss.FailedFlushDeliversExactly | services/ingestor/consumer.go:172-197 | When a flush's write fails, then for any outcome of its commit a pending record is committed if and only if the commit landed on its partition, and delivered if and only if it was before, its row landed anyway, or its own dead-letter publish landed. |
| IngestorLoss.FailedWriteCommitsNothingIff | services/ingestor/consumer.go:26-31 | The comment's promise: a flush whose write fails leaves every committed offset unchanged if and only if its commit fails and lands on no partition of the pending records. |
| IngestorLoss.FailedWriteStillCommits | services/ingestor/consumer.go:26-31 | The comment's promise fails for every decodable record: there is a run whose write fails and whose commit passes the record though it is in neither the database nor the dead-letter topic. |
| IngestorCancel.CancelledPublishLoses | services/ingestor/consumer.go:103-108 | For every record there is a run whose only failures are its deserialization and its dead-letter publish under a cancelled context, that shuts down cleanly with the record committed, and in which it is nowhere. |
| IngestorCancel.UndeliveredIffDropped | services/ingestor/consumer.go:172-195 | If publishes fail only under a cancelled context, then when flush commits under a valid one a pending record is undelivered exactly if this process could not decode it, none of its publishes landed, and no earlier process had delivered it. |
| IngestorCancel.LostIff | services/ingestor/consumer.go:66-200 | If publishes fail only under a cancelled context and no commit lands under one, a record is committed and undelivered if and only if the commit of some Shutdown landed on it while it was pending and undelivered in that sense. |
| Ingestor.Outside.Poll | pkg/kafka/consumer.go:84-86 | A poll returns some legal fetch from the client's position, or that the client is closed, and the context may be cancelled meanwhile. |
| Ingestor.Outside.WriteBatch | services/ingestor/writer.go:42-74 | A write lands all rows and succeeds, or fails having landed any of them. |
| Ingestor.Outside.PublishDeadLetter | pkg/kafka/dlq.go:52-75 | A dead-letter publish is one event that succeeds exactly when the record was sent, and that may have landed when it fails. |
| Ingestor.Outside.CommitOffsets | pkg/kafka/consumer.go:94-99 | A commit succeeds, or fails having landed on any set of partitions. |
| Ingestor.Outside.FreshContext | services/ingestor/main.go:111-114 | Shutdown begins under a context of its own, which is not cancelled. |
| Ingestor.HonestPoisons | services/ingestor/consumer.go:95-110 | In every honest run a record is poisoned only if the registry did not answer or its bytes do not decode, and in a sound world the run is free of failures. |
| Ingestor.IngestorConsumer.constructor | services/ingestor/consumer.go:46-62 | A new consumer has nothing pending. |
| Ingestor.IngestorConsumer.Run | services/ingestor/consumer.go:66-137 | Run is a run of the automaton that polls under a valid context only, ends with an error exactly when a commit failed, and without one only when cancelled or closed. |
| Ingestor.IngestorConsumer.Turn | services/ingestor/consumer.go:69-136 | One turn of the loop either goes on with the time of its flush, or ends Run with its result. |
| Ingestor.IngestorConsumer.Drain | services/ingestor/consumer.go:92-114 | All records of a fetch are appended to the pending records in order, and exactly the metrics that deserializing them gives to the pending metrics. |
| Ingestor.IngestorConsumer.DrainOne | services/ingestor/consumer.go:95-113 | One event: when the registry answers and the bytes decode, the metric is appended; exactly otherwise the record is dead-lettered. It is tracked either way. |
| Ingestor.IngestorConsumer.FlushIfDue | services/ingestor/consumer.go:116-135 | A full batch, or one overdue by a clock reading taken now, is flushed unless the context is cancelled, so that nothing is pending and all of it is accounted for, and the time after the flush is remembered; otherwise nothing pending changes. |
| Ingestor.IngestorConsumer.FlushNow | services/ingestor/consumer.go:127-135 | A due flush leaves nothing pending, accounts for what was, and either returns the time it ended or ends Run. |
| Ingestor.IngestorConsumer.Flush | services/ingestor/consumer.go:161-200 | Whatever happens the pending batch is cleared and its records are accounted for, and if flush succeeds committed equals position. |
| Ingestor.IngestorConsumer.WritePending | services/ingestor/consumer.go:172-192 | The pending metrics, if any, are written, or else everything pending is dead-lettered, and the commit comes next. |
| Ingestor.IngestorConsumer.DeadLetterAll | services/ingestor/consumer.go:180-185 | The events are exactly one dead-letter publish for every pending record, in order, before the commit. |
| Ingestor.IngestorConsumer.Shutdown | services/ingestor/consumer.go:142-149 | The final flush leaves nothing pending and decides the result. |
| Ingestor.IngestorConsumer.Serve | services/ingestor/main.go:104-118 | A process that runs and shuts down without error has committed its whole position. With the registry up it dead-letters only undecodable records when draining, and in a sound world it succeeds, the table holds the decodable polled records and the dead-letter topic the others. |
| Ingestor.SafeAtEveryCrash | services/ingestor/consumer.go:66-200 | Killing the process after any of its effects leaves a run with no unaccounted committed record, from which a restart resumes at the committed offsets. |
| EndToEnd.SerializedMetricIsStored | services/ingestor/consumer.go:92-113 | A metric serialized under a registered schema, once polled in a failure-free run, is that very metric in a row of the table. |
| EndToEnd.CommittedIsStoredOrReplayable | services/ingestor/consumer.go:92-200 | A committed record has a row that decodes it, or is recovered exactly by replaying a record of the dead-letter topic, or was reported. |
| EndToEnd.DeadLettersAreNotPolled | services/ingestor/consumer.go:95-110 | When the dead-letter topic is not the consumed one, no dead letter of a run is in the log it consumes, and the run never polls one. |
| SlidingWindow.TrimSplits | services/processor/window.go:61-65 | Eviction drops a prefix of expired entries up to the first unexpired one. |
| SlidingWindow.WindowIsSuffix | services/processor/window.go:55-73 | For any timestamps and size the stored window is a non-empty suffix of the device's push history. |
| SlidingWindow.WindowBounds | services/processor/window.go:55-73 | For any timestamp order the window starts no earlier than the pushed timestamp minus the size, and a reading is dropped only once it is older than the newest timestamp ever pushed minus the size. |
| SlidingWindow.WindowIsSinceNeverExpired | services/processor/window.go:55-73 | The exact window, for any timestamps: it begins with the first reading that nothing pushed after it would have expired, and holds all readings since. |
| SlidingWindow.WindowInOrderIff | services/processor/window.go:11 | The window is ordered by timestamp if and only if, for every two readings that came out of order, every reading up to the first of them would have been expired by one pushed after it. |
| SlidingWindow.WindowIsFilterIff | services/processor/window.go:55-73 | For any timestamps the window is the history filtered by age if and only if the history splits in two: older readings before, younger ones from some reading on, which nothing pushed after it would have expired. |
| SlidingWindow.WindowIsFilterInOrder | services/processor/window.go:55-73 | In particular, for non-decreasing timestamps the window is exactly the history filtered by age. |
| SlidingWindow.ExpiredReadingSurvives | services/processor/window.go:61-65 | Out of order the window can keep a reading that filtering by age would drop, and not be ordered by timestamp. |
| SlidingWindow.DroppedReadingStaysDropped | services/processor/window.go:61-65 | Out of order the window can lack a reading that filtering by age would keep. |
| SlidingWindow.BoundedStaleness | services/processor/window.go:61-72 | If no reading lags by more than L, nothing retained is older than the pushed timestamp minus the size minus L. |
| SlidingWindow.AggregateMeaning | services/processor/window.go:75-101 | Minimum and maximum are retained readings that bound all others, the average lies between them, and retained battery levels lie on both sides of their average. |
| SlidingWindow.AggregateOfOne | services/processor/window.go:75-101 | The aggregate of a single reading is that reading in every field. |
| SlidingWindow.AggregateGrows | services/processor/window.go:75-101 | One more reading adds its temperature and battery level to the averages times their counts, moves the extremes if it is beyond them, and is the new end; the start and the device stay. |
| WindowStore.Append | services/processor/window.go:68-72 | Appending to a slice, in place or into a new array, is appending to the sequence it shows. |
| WindowStore.Evict | services/processor/window.go:61-68 | The trim loop and re-slice yield the trimmed window over the same array. |
| WindowStore.Summarize | services/processor/window.go:75-101 | The single pass computes the aggregate of the window the slice shows. |
| WindowStore.WindowStore.Push | services/processor/window.go:55-102 | A push changes the pushed device's window as specified and no other device's, although arrays are written in place, and returns the aggregate of the new window. |
| WindowStore.WindowStore.Slide | services/processor/window.go:56-73 | Trimming, appending and storing keep every device's slice showing its window over an array of its own. |
| Anomaly.EmitsMeaning | services/processor/anomaly.go:97-114 | One call emits each type that fires and is not active, once. |
| Anomaly.EmitsDocumented | services/processor/anomaly.go:12-33 | A call emits exactly the alerts of the documented rule table whose type is not active, field by field. |
| Anomaly.DocumentedBecomeActive | services/processor/anomaly.go:33-38 | A call leaves active exactly the types whose documented rule holds, and touches no other device. |
| Anomaly.EmitsInRuleOrder | services/processor/anomaly.go:68-83 | The alerts of a call come in the order of the rules. |
| Anomaly.WindowSecondsIs | services/processor/anomaly.go:55-58 | The reported length is the window's in whole seconds, rounded down, and one for anything below two. |
| Anomaly.AlertsCarryEvidence | services/processor/anomaly.go:68-83 | Every alert carries the severity of its type and the value that crossed its threshold, on the right side of it. |
| Anomaly.WindowSecondsBounds | services/processor/anomaly.go:55-58 | The reported window length is the whole seconds between the window's ends, at least one and never more than the window size allows. |
| Anomaly.ActiveIsLastFiring | services/processor/anomaly.go:33-38 | A device's active set is exactly what fired at its own last call, whatever other devices did since. |
| Anomaly.AlertsAreRisingEdges | services/processor/anomaly.go:92-121 | Each call emits exactly the conditions true now and not at the same device's previous call, each once. |
| Anomaly.OneAlertPerBlock | services/processor/anomaly.go:21-27 | Over any run the alerts of a type for a device are as many as the maximal blocks of its consecutive calls on which the condition holds. |
| Anomaly.AnomalyDetector.Detect | services/processor/anomaly.go:53-124 | The detector's nested map and alerts are those of the specification, whatever order stale types are cleared in. |
| Anomaly.AnomalyDetector.Evaluate | services/processor/anomaly.go:68-83 | The rules are evaluated in order. |
| Anomaly.AnomalyDetector.Collect | services/processor/anomaly.go:85-89 | The set of currently firing types is the types of the candidates. |
| Anomaly.AnomalyDetector.EmitNew | services/processor/anomaly.go:97-114 | Alerts are the candidates not yet active, and their types become active. |
| Anomaly.AnomalyDetector.ClearStale | services/processor/anomaly.go:116-121 | Deleting while iterating in any order keeps exactly the types still firing. |
| Operators.DevicesDoNotInterfere | services/processor/consumer.go:132-178 | For any interleaving of devices and any failed aggregate publishes, a device's aggregates and alerts are those of a processor fed only its readings. |
| Operators.ShardingIsTransparent | services/processor/main.go:6-9 | Assigning devices to any number of instances changes no device's aggregates or alerts. |
| Operators.WindowOfReadings | services/processor/consumer.go:132-136 | In the pipeline a device's window is the window of all its decoded readings, published or not. |
| Operators.AggregateOfReadings | services/processor/window.go:55-102 | In terms of the readings: the aggregate for a reading has the count, ends, average temperature and battery level, and temperature extremes of the device's last readings, from the first on that none since would have expired. |
| Operators.ActiveSinceDetection | services/processor/consumer.go:161-166 | However many aggregate publishes failed, a device's active alerts are what fired on its window when its aggregate was last published. |
| Operators.AlertsSinceDetection | services/processor/consumer.go:132-178 | For any history of failed publishes an alert of a type is emitted if and only if its condition holds now and did not when the detector last ran for the device. |
| Operators.AlertsAreEdgesOfPublished | services/processor/consumer.go:161-178 | The alerts for a published aggregate are the rising edges of the device's conditions over the aggregates published before it, each once. |
| Operators.SpikeFiresIff | services/processor/anomaly.go:79-83 | SPIKE holds exactly when two retained readings are more than 20 apart. |
| Operators.ThresholdAlertsAreBacked | services/processor/anomaly.go:70-78 | A temperature or battery condition is backed by a retained reading beyond the threshold, and HIGH and LOW exclude each other when low is at most high. |
| Operators.AllBeyondFires | services/processor/anomaly.go:70-78 | Conversely, when all retained readings are beyond a threshold its condition holds. |
| Operators.SpikeEmittedIff | services/processor/consumer.go:132-178 | For any history of failed publishes SPIKE is emitted if and only if the window is spread after the push and was not when the detector last ran for the device. |
| Operators.SpikeWithoutCauseIff | services/processor/consumer.go:161-178 | The pushed reading is not the cause of a SPIKE if and only if it is within 20 of the other retained readings, two of those are more than 20 apart, and the window was not spread when the detector last ran. |
| Operators.SpikeCausality | services/processor/consumer.go:132-178 | In particular, if the device's previous push was followed by detection, SPIKE is emitted if and only if the window was not spread before and the reading just pushed is more than 20 from another retained one. |
| Operators.SkippedDetectionMovesSpike | services/processor/consumer.go:161-166 | After a failed aggregate publish, which skips detection, SPIKE can be emitted for a reading within 20 of all others. |
| ProcessorSafety.StepKeepsLedger | services/processor/consumer.go:84-111 | Every event keeps: a fetched record is unfinished or accounted for, a completed one has its aggregate and all its alerts published, and committed offsets cover only accounted records. |
| ProcessorSafety.AtLeastOnce | services/processor/consumer.go:65-181 | In every run a record below the committed offset was processed with its aggregate and every alert published, or is in the dead-letter topic, or was reported. |
| ProcessorGuarantees.NoLoss | services/processor/consumer.go:95-110 | If dead-letter publishes fail only under a cancelled context, every committed record was processed with all outputs published or is in the dead-letter topic. |
| ProcessorGuarantees.CaughtUpIff | services/processor/consumer.go:103-110 | Between polls a partition's committed offset equals the client's position exactly when the last poll that delivered from it was followed by a commit that landed there. |
| ProcessorGuarantees.SuccessfulCommitCatchesUpIff | services/processor/consumer.go:106-109 | After a successful commit a partition is caught up if and only if the commit had records of it or it was not behind before: an earlier failed commit is not retried. |
| ProcessorGuarantees.FailedCommitIsNotRetried | services/processor/consumer.go:106-109 | For any two records of different partitions there is a run in which the commit of the first one's poll fails, the commit of the next poll succeeds, and the first one's partition still lags. |
| ProcessorOutputs.OperatorsHoldPushed | services/processor/consumer.go:125-181 | Between records, window and detector hold what the records pushed since the last restart determine: one item per pushed record, in order, which decodes it. |
| ProcessorOutputs.PushesFollowPolls | services/processor/consumer.go:84-101 | What a process has pushed is a subsequence of what it has polled, and it has handled all it polled but for the inbox, in order. |
| ProcessorOutputs.AttemptedAggregate | services/processor/consumer.go:132-163 | Every aggregate handed to the publisher is that of the window after the push of its record, the last one pushed, and the items before it decode exactly the records pushed before, in order. |
| ProcessorOutputs.EachCompletion | services/processor/consumer.go:125-181 | At each completion the recorded output is what the operators output for the decoded record after exactly the records this process pushed before it. |
| ProcessorOutputs.PublishedIsGenuine | services/processor/consumer.go:125-181 | In every run a completed record has all its output published, and it is the output of its last completion in the run in the sense of EachCompletion. |
| ProcessorOutputs.AlertsAreEdges | services/processor/anomaly.go:21-27 | In every run the alerts about to be published are, each once, the rising edges of the aggregates that this process has successfully published since its start. |
| ProcessorOutputs.HandedAlertIsEdge | services/processor/consumer.go:165-178 | Every alert handed to the publisher is such a rising edge and carries the evidence of its threshold. |
| ProcessorOutputs.CompletedHandsAllEdges | services/processor/consumer.go:165-178 | When a record is completed every such rising edge is in the alerts topic. |
| ProcessorAlerts.AlertIsNotRepeated | services/processor/anomaly.go:97-121 | An alert whose publish fails is not tried again: between two alerts of a type handed out for a device, whatever their outcome, comes a published aggregate of the device on which the condition does not hold, or a restart. |
| ProcessorOutputs.OneAggregatePerProcess | services/processor/consumer.go:149-163 | One process adds at most one copy of a record's aggregate to the topic, failed publishes that landed included. |
| ProcessorOutputs.AggregateBound | services/processor/consumer.go:103-110 | Over any run a record's aggregate is in the topic at most 1 + the number of restarts that came before the record was committed times. |
| ProcessorSharding.SmoothRunPublishes | services/processor/consumer.go:125-181 | A process whose publishes succeed and that is done with its polls has published exactly the aggregates and alerts of the decodable polled records, in order. |
| ProcessorSharding.SameReadingsSameOutputs | services/processor/main.go:6-9 | Two such processes that polled the same readings of a device in the same order published the same aggregates and alerts for it, whatever else they polled and however it was grouped. |
| ProcessorSharding.ShardingRunsIsTransparent | services/processor/main.go:6-9 | An instance that polls a share of the records publishes, for each device it has all readings of, what one process that polls everything publishes for it. |
| ProcessorLocations.PublishedLocation | services/processor/consumer.go:138-163 | In every honest run a published aggregate carries the location of its device's last successfully fetched row, and an empty one only if that row's is empty or no query for the device was ever answered. |
| ProcessorLocations.HonestRefusals | services/processor/consumer.go:126-130 | In every honest run a record is refused only if the registry did not answer or its bytes do not decode, and in a sound world the run is smooth. |
| Processor.Outside.Poll | pkg/kafka/consumer.go:84-86 | A poll returns some legal fetch from the client's position, or that the client is closed. |
| Processor.Outside.PublishAggregate | services/processor/publisher.go:56-67 | Publishing an aggregate with its record's location is one event that succeeds exactly when it was sent, and that may have landed when it fails. |
| Processor.Outside.PublishAlert | services/processor/publisher.go:71-82 | Publishing an alert is one event that succeeds exactly when it was sent, and that may have landed when it fails. |
| Processor.ProcessorConsumer.Run | services/processor/consumer.go:65-112 | Run is an honest run of the automaton that ends only when cancelled or closed, and then exactly the partitions whose last poll was not committed lag. In a sound world it has published exactly the aggregates and alerts of the decodable records it polled. |
| Processor.ProcessorConsumer.ProcessAll | services/processor/consumer.go:84-101 | All records of a poll are accounted for and in the list to commit, in order. |
| Processor.ProcessorConsumer.HandleRecord | services/processor/consumer.go:85-100 | One record is handled up to its completion or its dead-letter publish, is then accounted for, and is listed to commit either way; it is pushed exactly when it can be deserialized, and a completed one has added its aggregate with the enricher's location. |
| Processor.ProcessorConsumer.CommitPoll | services/processor/consumer.go:103-110 | Under a valid context one commit of the poll's records is attempted, whose outcome decides the committed offsets and is passed over; otherwise, or without records, no commit is attempted. |
| Processor.ProcessorConsumer.ProcessRecord | services/processor/consumer.go:125-181 | A record that cannot be deserialized is refused, and only that; any other is pushed, makes its call of the enricher, and is completed with all outputs published or left to be dead-lettered. Window, detector and cache agree with the automaton either way. |
| Processor.ProcessorConsumer.ProcessMetric | services/processor/consumer.go:132-181 | From the push on: the enricher makes exactly this reading's call, and on success the one aggregate added carries the location of that call's result. |
| Processor.ProcessorConsumer.UpdateAndLocate | services/processor/consumer.go:132-147 | The push and the enricher call, once each, give the aggregate and the location to publish. |
| Processor.ProcessorConsumer.UpdateWindow | services/processor/consumer.go:132-136 | The push of the real window store is the automaton's, and yields the aggregate that is then published. |
| Processor.ProcessorConsumer.Locate | services/processor/consumer.go:138-147 | The location is that of the enricher's result, or empty when it returns an error. |
| Processor.ProcessorConsumer.PublishOutputs | services/processor/consumer.go:149-178 | On success exactly this record's aggregate with its location and exactly the detector's alerts for it were published, and the record is completed. |
| Processor.ProcessorConsumer.DetectAndAlert | services/processor/consumer.go:165-178 | The detector runs on the published aggregate and reaches the automaton's state, which publishing its alerts leaves unchanged even when one of them fails; on success the topic has gained exactly those alerts. |
| Processor.ProcessorConsumer.PublishAll | services/processor/consumer.go:166-178 | All alerts are published in order and the record is completed, or a prefix of them was, which ends at the first failed one. |
| Processor.SafeAtEveryCrash | services/processor/consumer.go:65-181 | Killing the process after any of its effects leaves a run with no unaccounted committed record; a restart resumes at the committed offsets with empty windows and no active alerts. |
| Enricher.CacheIsLastRefresh | services/processor/enricher.go:88-95 | The cache holds exactly each device's last successfully fetched row and its expiry. |
| Enricher.ResultIsLastFetched | services/processor/enricher.go:56-98 | A result is the device's last successfully fetched row, an error means none was ever fetched, and a row a whole ttl old is kept exactly when the call's query fails. |
| Enricher.NeverFetchedIff | services/processor/enricher.go:62-86 | No row of a device was ever fetched if and only if no query for it was answered. |
| Enricher.RefreshesAreSpaced | services/processor/enricher.go:56-98 | With a non-decreasing clock, consecutive refreshes of a device are at least ttl apart. |
| Enricher.RefreshCount | services/processor/enricher.go:17-20 | Any span of time holds at most 1 + span / ttl refreshes of a device. |
| Enricher.StaleIsServed | services/processor/enricher.go:22-24 | The comment that stale data is never served fails: after a failed query a row of any age is. |
| Enricher.Enricher.GetDevice | services/processor/enricher.go:56-98 | The method's result and cache are those of the specification on all four paths. |
| Frame.DecodeEncode | pkg/schema/avro.go:80-89 | Decoding a frame gives back payload and id modulo 2^32, so the id itself if and only if it fits 32 bits. |
| Frame.WireFormat | pkg/schema/avro.go:80-89 | Byte by byte: a zero, the id modulo 2^32 with its most significant byte first, and the payload. |
| Frame.HeaderErrors | pkg/schema/avro.go:124-130 | A string of fewer than five bytes is too short, and a longer one is refused exactly for a first byte other than zero. |
| Frame.DecodesIff | pkg/schema/avro.go:124-132 | A byte string passes the header checks exactly when it is the frame of an id and a payload, and then of only one. |
| Frame.Serialize | pkg/schema/avro.go:84-89 | The buffer filled in place is the frame. |
| Frame.PutUint32 | pkg/schema/avro.go:86 | The four bytes at the position become the big-endian number and no other byte changes. |
| SchemaCache.StepKeepsCaches | pkg/schema/avro.go:148-173 | Every atomic step of a caller keeps both caches sub-maps of the registry's meaning, parsed over raw, and changes no cached answer. |
| SchemaCache.EveryReturnIsRight | pkg/schema/avro.go:148-173 | Under every interleaving of callers and failing requests, a successful call returns what the registry means by the id, and a parse failure is a real one. |
| SchemaCache.CachesOnlyGrow | pkg/schema/registry.go:154-157 | A cached answer never changes or disappears, whoever stores it again. |
| SchemaCache.CachedIdsAreNotFetched | pkg/schema/registry.go:110-120 | Once an id is cached no caller starts a request for it: the callers fetching it only become fewer. |
| SchemaCache.ParsedIdsAreNotLookedUp | pkg/schema/avro.go:148-155 | Once an id is parsed no caller goes past the parsed cache for it. |
| Deserializer.DeserializeUndoesSerialize | pkg/schema/avro.go:73-144 | For an id that fits 32 bits and any payload codec with a round-trip law, deserializing what was serialized gives the metric back. |
| Deserializer.RegistryClient.GetSchemaByID | pkg/schema/registry.go:113-160 | With other callers taking any steps between the lock regions, the method takes the steps of SchemaCache, its answer is cached on return, a cached id takes one step, and there is no answer only for an uncached id that the registry does not hold or that it did not answer for. |
| Deserializer.Deserializer.GetOrParseSchema | pkg/schema/avro.go:148-173 | The method and all other callers form an interleaving of SchemaCache in which its call returns the same result: the id's meaning, then cached, or an error that has its cause, in the registry's silence, its contents or the parser. |
| Deserializer.Callers.Others | pkg/schema/avro.go:148-173 | Between lock regions other callers may take any steps of SchemaCache, which leave this caller where it is and only add to the caches. |
| Deserializer.Deserializer.Deserialize | pkg/schema/avro.go:124-144 | A metric is returned exactly for messages that stand for one if the registry answers; it is blamed only for a good frame whose id neither cache held and that it does not hold or did not answer for, and every other error has its cause. |
| Deserializer.Deserializer.SerializeAndDeserialize | pkg/schema/avro.go:73-144 | The bytes the serializer puts in its buffer for a metric are read back as that metric, if the schema is cached or the registry answers. |
| Simulator.EpisodesAreBounded | services/simulator/device.go:73-97 | For all random draws a completed spike lasts 3 to 7 ticks and a completed drift 20 to 40, with a normal tick before and after. |
| Simulator.EpisodeStarts | services/simulator/device.go:76-86 | A normal tick starts a spike for draws below 0.02 and a drift for the next 0.01, with the drawn length and direction. |
| Simulator.EpisodeIsAsDrawn | services/simulator/device.go:73-97 | A completed episode lasts exactly as drawn and keeps its direction, and a drift moves the baseline by half the sum of its ticks' draws around 0.5, all but the first and the last one's. |
| Simulator.UnfinishedEpisodesAreBounded | services/simulator/device.go:73-97 | An episode still under way never exceeds the same upper bounds. |
| Simulator.DriftIsBounded | services/simulator/device.go:92-95 | One drift moves the baseline by at most 9.75 degrees and a spike does not move it. |
| Simulator.OnlyDriftsMoveBaseline | services/simulator/device.go:92-95 | Outside drifts the baseline stays. |
| Simulator.BatteryInRange | services/simulator/device.go:101-107 | The battery stays between 0 and 100 percent. |
| Simulator.DrainsAsDrawn | services/simulator/device.go:101-107 | A tick drains what it drew, and recharges exactly when less than that is left. |
| Simulator.RechargesAreSpaced | services/simulator/device.go:101-107 | Two consecutive recharges are 3334 to 10001 ticks apart. |
| Simulator.SimulatedDevice.constructor | services/simulator/device.go:49-62 | A new device starts normal, with baseline and charge as drawn in their ranges. |
| Simulator.SimulatedDevice.DoTick | services/simulator/device.go:66-70 | A tick of the device is a tick of the specification. |
| Simulator.SimulatedDevice.AdvanceState | services/simulator/device.go:73-97 | The in-place update is the specified state transition. |
| Simulator.SimulatedDevice.DrainBattery | services/simulator/device.go:101-107 | The in-place update is the specified drain and recharge. |
| Simulator.SimulatedDevice.RunTicks | services/simulator/main.go:142-147 | Any number of ticks of a new device is a trace, to which the bounds above apply. |
| DeadLetterQueue.ParsePrint | pkg/kafka/dlq.go:57-58 | Partition and offset survive being printed in decimal, negative numbers included. |
| DeadLetterQueue.PrintIsDecimal | pkg/kafka/dlq.go:57-58 | Numbers are printed in the digits 0 to 9 without leading zeros, after a minus sign when negative. |
| DeadLetterQueue.MetadataIsFound | pkg/kafka/dlq.go:53-68 | Looking a metadata key up finds this publish's value, even when the original headers use the same keys. |
| DeadLetterQueue.ReplayInvertsPublish | pkg/kafka/dlq.go:52-68 | Topic, partition, offset, key, value and headers of the original are recovered exactly. |
| DeadLetterQueue.ReplaysInvertPublishes | pkg/kafka/dlq.go:61-68 | A record dead-lettered any number of times is recovered by as many replays. |
| DeadLetterQueue.Passage | pkg/kafka/dlq.go:52-68 | After any number of hops the record is in the last hop's dead-letter topic with its key, value and, last, its headers; the last hop's error, time, source topic, partition and offset are found first under their names. |

## Left out

- The sink service: every function is a stub that panics.
- Broker internals and group rebalancing: reassignment is a restart from the committed offsets, and a client does not fetch a record twice within one process.
- Discarding windows on rebalance, which services/processor/main.go:15-16 describes and no code does.
- The Kafka, pgx and registry clients, HTTP, JSON, configuration, logging, migrations and signal handling: their answers are arbitrary, as far as the conventions above do not bind them.
- NewSerializer and GetOrRegisterSchemaID, which register a schema once at start: a registered schema is an assumption of the round trips.
- Avro payload bytes and schema parsing: an arbitrary codec with a round-trip law, and an arbitrary parse function.
- Floating-point rounding: averages, thresholds, baseline and battery are claims over reals.
- The columns of the COPY into the table, and the Avro records and keys that the publisher builds: a row, an aggregate and an alert are one value each.
- Alert ids and trigger times, which are random bytes and a clock reading.
- Probabilities of the simulator, its sensor noise and chaos mode: draws are arbitrary values in range.
- Ingestor.IngestorConsumer.Run: ends after finitely many polls, because the client is then closed; a run that never ends is covered by its prefixes.
- Processor.ProcessorConsumer.Run: ends after finitely many polls, likewise.
- The moment a context is cancelled: the automata allow it before any event, the classes record it when a poll returns or the code looks at the context.
- Anomaly.WindowSecondsBounds: does not model the conversion to int32, which matters only for windows longer than 68 years.
- Enricher.Enricher.GetDevice: one caller at a time, as the processor has; concurrent callers could each query, which the spacing of refreshes excludes.
- Operators.ShardingIsTransparent: covers window aggregates and alerts; the location an aggregate is published with depends on the shared registry database and is left arbitrary.
- DeadLetterQueue.ReplayInvertsPublish: the error text and the formatted time are arbitrary byte strings.
