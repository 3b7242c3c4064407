# Event delivery: a verified model

This project models the path of one event from the HTTP request that brings it to the
Kinesis stream that takes it, and proves what the path keeps on the way:

- **The gate** (`Gate`, `Requests`): a request takes a ticket from an atomic counter, compares it
  with the limit and gives it back when it returns.
- **Routing** (`Routing`, `Wiring`): which filters, and so which queues, see a message, and how the
  configuration reaches the filters, their queues and their senders.
- **The batching queue** (`BatchLoop`, `MyQueue`, `QueueMachine`, `QueueSafety`, `QueueGuarantees`,
  `QueueProgress`, `QueueResizing`, `QueueProducers`): many producers, one consumer loop, a bounded
  channel, a pool of workers.
- **Submission** (`Batch`, `Kinesis`, `Sender`, `Dispatcher`, `Delivery`): a batch goes to the
  first stream that takes it, each stream with retries, each attempt in chunks of 500 records.
- **The whole** (`Admission`, `Intake`, `EndToEnd`, `Settlement`): the gate and the filters in front of
  the queues, and the queue with the dispatcher behind it.

Code that the repository writes as objects and loops is a class with methods here, and each
method's `ensures` ties the new state to a function of the old one. The theorems are about those
functions. The queue appears three times: `BatchLoop` is its loop as a function, `MyQueue` runs the
loop on Go slices in a heap, and `QueueMachine` is the concurrent program, one step for each access
to shared state. `QueueGuarantees.RefinesLoop` and `MyQueue.MyQueue.Start` tie the latter two to
the first.

## Assumptions

- A Go channel is first in, first out and bounded. A send waits while it is full.
- The semaphore is a counter. Acquire fails only when the context is done. The mutex admits one holder.
- The retry runner repeats its function until the first nil error, at most retries + 1 times, and
  returns the last result. Its library is not part of this model.
- The service is any function from the number of earlier calls and the request to a reply, so a
  theorem about every service is one about every sequence of replies. Where a theorem says
  `Honest`, each reply reports between none and all of its records as failed. Concurrent workers
  each get replies of their own.
- `Submit` returns: panics are not modelled.
- The expression `.*` is valid and matches every string. Nothing else is assumed of the
  regular expressions, of the decoder, of JSON marshalling, or of the UTF-8 test.
- A request's handler shows its message to the filters one after the other, and is back from each
  call of AddItem before it goes on. The requests are the only callers of the queues.
- The options library's `Required` refuses a field that still has its zero value.
- A timer tick can come at any time. Replacing the ticker has no other effect.

Integers are unbounded, except the two that the code keeps in an int32: the failed-record count and
the gate's counter, which wrap explicitly.

## What the proofs show about the code

- `AddItem` is described as one that will "dump messages if the buffer fills up"
  (filter/stream_dispatcher.go:24), but its length check and its send are two steps. It never blocks
  if and only if at most one producer is in it at a time; with n producers, n - 1 can be blocked,
  for every configuration (`QueueProducers.AddItemNeverBlocksIff`).
- The failed-record count is an int32 and the test on it is `> 0`. A nil from `Submit` can be
  trusted if and only if fewer than 2^31 messages of the batch marshal (`Delivery.NilIsDeliveryIff`).
- The gate holds its limit if and only if fewer than 2^31 requests can be in flight (`Gate.LimitsIff`).
- What is left in the batch at rest is always shorter than the BatchSize in force if and only if the
  queue submits when it is empty, or no size that is ever set is smaller than the first one or than
  another one of them, where a size below one counts as one (`QueueResizing.AlwaysLeftShortIff`).
  `QueueResizing.ShrinkLeavesMore` is the run that leaves more in every other case.
- A message that does not marshal is skipped with a line in the log
  (internal/sender/kinesis_sender.go:94-97), and the rest of its batch can succeed. The message is
  then in no record, no drop and no count of lost messages. A message is never lost like that if and
  only if it marshals or there is no stream at all (`Settlement.NeverLostSilentlyIff`).
- Device patterns behind a `.*` are never compiled, so a bad one there is accepted, while the meaning
  of the configuration is unchanged (`Routing.PatternsBehindDotStar`, `Routing.ShortCutPreservesMeaning`).
- The configured delivery retries never reach the senders: filter/filter_module.go:104-110 builds the
  dispatcher factory without them. The senders follow the configuration if and only if it asks for
  the default, that is for 3 or for none (`Wiring.RetriesAsConfiguredIff`).
- No queue that the service builds submits just because it is empty (`Wiring.NeverSubmitsOnEmpty`).

## Model

| member | source | states |
|---|---|---|
| Batch.GetBatch | internal/batch/batch.go:6-17 | a batch is a prefix of what is left, at most batchSize long, and full whenever more is left; `more` is true exactly when something is |
| Batch.ChunksUnique | internal/batch/batch.go:6-38 | a list of batches concatenates to the items with all but the last full, the last at most full and not empty unless alone, if and only if it is the cut that the loop makes |
| Batch.ChunkAt | internal/batch/batch.go:6-17 | the j-th batch of the cut is the one GetBatch gives at j * batchSize, which is within range, and `more` is false only for the last |
| Batch.ChunkCount | internal/batch/batch.go:19-38 | n items make n / size batches rounded up, and no items make one |
| Batch.ChunksCount | internal/batch/batch.go:19-38 | the cut has exactly that many batches |
| Batch.GetBatches | internal/batch/batch.go:19-38 | the loop terminates, never slices out of range, and returns that cut; nothing for no items |
| Kinesis.KinesisClient.PutRecords | internal/kinesis/kinesis.go:215-253 | the calls appended to the service's log are exactly those of the chunks up to the first error; the count is the wrapped sum of their failed counts, and the error that of the last call |
| Kinesis.KinesisClient.PutBatch | internal/kinesis/kinesis.go:226-239 | one call, with one entry per item, data and partition key each in its place |
| Kinesis.PutTraceIsSentUpToFirstError | internal/kinesis/kinesis.go:219-252 | a list of calls is chunk by chunk in order, without an error before the last and complete unless the last errs, if and only if it is what PutRecords makes |
| Kinesis.PutRecordsAt | internal/kinesis/kinesis.go:219-250 | the i-th call sends the batch that starts at 500 * i, and is the last exactly when it errs or nothing is behind it |
| Kinesis.PutRecordsSendsPrefix | internal/kinesis/kinesis.go:215-253 | one put sends a prefix of the items, once and in order, in chunks of at most 500 of which only the last is short; without an error it sends all of them; no items make one empty call |
| Kinesis.FailedTotalBounds | internal/kinesis/kinesis.go:218-243 | the failed total is between zero and the records sent; zero without an error means every call was clean |
| Kinesis.CountExactBelowLimit | internal/kinesis/kinesis.go:218-252 | below 2^31 items the int32 count never differs from the sum, and no error with a count not above zero holds exactly when no record failed |
| Kinesis.CountSoundIff | internal/kinesis/kinesis.go:218-252 | that test is right for every honest service if and only if there are fewer than 2^31 items |
| Sender.KinesisSender.constructor | internal/sender/kinesis_sender.go:42-51 | retries that are not positive become 3 |
| Sender.Lookup | internal/sender/kinesis_sender.go:57-62 | the value of a key, and the empty string for a key that is not there |
| Sender.ClientOf | internal/sender/kinesis_sender.go:57-78 | endpoint, region, role, access key, secret key and session token are each the value of their own key |
| Sender.KinesisSender.OnEvent | internal/sender/kinesis_sender.go:91-117 | the calls are those of the attempts, and the result is that of the last attempt; each attempt sends a prefix of the records of the messages that marshal, in the order of the messages, and all of them if it comes back without an error |
| Sender.KinesisSender.Run | internal/sender/kinesis_sender.go:102-116 | the retried put makes exactly the attempts of the specification, and its last result is returned |
| Sender.MarshaledHas | internal/sender/kinesis_sender.go:92-100 | a message that marshals is among the items, with its data and its session as the key, whatever the others do |
| Sender.MarshaledInOrder | internal/sender/kinesis_sender.go:92-100 | a list of records is the one the loop makes if and only if it has one for each message that marshals, its data and session, placed behind those of the messages before it |
| Sender.MarshaledOccurs | internal/sender/kinesis_sender.go:92-100 | the records made contain each record exactly as often as the batch has messages that become it |
| Sender.AttemptsAreAttempts | internal/sender/kinesis_sender.go:102-116 | every attempt is a whole put from the first chunk on, after the calls of those before it; another follows exactly when it erred and tries remain |
| Sender.AttemptsCost | internal/sender/kinesis_sender.go:102-116 | the calls of one OnEvent number at most the tries times the chunks |
| Sender.AttemptsRepeat | internal/sender/kinesis_sender.go:102-116 | over all attempts of one OnEvent a record is sent at most the tries times its number among the items |
| Dispatcher.DispatcherFactory.GetSender | internal/sender/sender.go:85-97 | there is a sender exactly when there is a configuration, the type is Kinesis, region and endpoint are not empty and a client can be made; its client is the configuration's, and its retries are those asked for or 3 |
| Dispatcher.LastItemWins | filter/filter_config.go:41-47 | a key is in the map exactly when an item has it, with the value of its last item |
| Dispatcher.GetConfigMap | filter/filter_config.go:41-47 | the loop makes that map |
| Dispatcher.DispatcherFactory.GetDispatcher | filter/dispatcher_factory.go:86-123 | there is a dispatcher exactly when every stream gets a sender and the queue has a name; sender i is the one built from stream i; its queue has the given channel size, pool and batch size and no submit-on-empty |
| Dispatcher.StreamDispatcher.Submit | filter/stream_dispatcher.go:39-82 | the calls, the counted drops and the result are those of the failover over the streams with the senders at the same index; without a stream an error and the whole batch under the dispatcher's name, without a message nil and nothing counted, and when all streams failed the whole batch last, under the last stream's name |
| Dispatcher.StreamDispatcher.SubmitToStreams | filter/stream_dispatcher.go:61-81 | the loop with its counter, error and stream name makes the failover's tries, in bounds, and counts the whole batch under the last stream's name when all failed |
| Dispatcher.StreamDispatcher.SubmitBatch | filter/stream_dispatcher.go:84-105 | nil and nothing counted exactly when the last attempt had no error and no failed record; an error counts one `send_error`, failed records count one `some_records_failed`, under the stream's name |
| Dispatcher.FailoverAt | filter/stream_dispatcher.go:61-79 | try i is on stream i with the whole batch, and is the last exactly when it is taken or no stream is left |
| Dispatcher.DropsByReason | filter/stream_dispatcher.go:49-100 | for each of the four reasons, how much one Submit adds: the batch as `no_streams` without a stream, the batch as `all_failed` when streams fail, and one for each try of either failing kind |
| Dispatcher.LostIffFailed | filter/stream_dispatcher.go:49-81 | `all_failed` and `no_streams` together grow by the whole batch when Submit fails and by nothing when it succeeds |
| Delivery.FailoverOrder | filter/stream_dispatcher.go:49-81 | Submit tries a prefix of the streams in order; all before the last refused; nil exactly when the last took the batch; an error only when all were tried |
| Delivery.TryOkIffAcknowledged | filter/stream_dispatcher.go:84-105 | submitBatch returns nil if and only if its stream acknowledged, in one attempt and in chunks of at most 500, the records of exactly the messages that marshal, each in its place, with no failed record (for fewer than 2^31 of them) |
| Delivery.SubmitMeansAcknowledged | filter/stream_dispatcher.go:39-105 | for a non-empty batch of which fewer than 2^31 messages marshal: nil if and only if the last stream tried acknowledged it whole, an error if and only if every stream was tried and none did |
| Delivery.NilIffSomeAttemptAcknowledged | filter/stream_dispatcher.go:39-105 | under the same condition, nil if and only if any of all the attempts on all the streams was acknowledged |
| Delivery.NilIsDeliveryIff | filter/stream_dispatcher.go:61-105 | a nil means delivery for every honest service if and only if fewer than 2^31 messages marshal |
| Delivery.WorkBound | filter/stream_dispatcher.go:65-79 | one Submit makes at most streams * (retries + 1) * chunks calls of the service |
| Delivery.RepeatBound | internal/sender/kinesis_sender.go:102-114 | a stream entry gets at most retries + 1 attempts, each a prefix of the records; over all of them every record is put at most retries + 1 times for each time it is in the batch |
| Delivery.OwnClient | filter/dispatcher_factory.go:88-109 | for a dispatcher built by GetDispatcher, every call made for stream i goes to stream i's name through the client made from stream i's own configuration |
| BatchLoop.LoopKeepsItems | internal/queue/queue.go:157-207 | batches in hand-off order and then the current batch are the items received, also when a permit is refused |
| BatchLoop.LoopHandedGrows | internal/queue/queue.go:191-206 | a batch handed over stays in its place through every later round |
| BatchLoop.LoopNeverHandsNothing | internal/queue/queue.go:187-189 | no empty batch is handed over, whatever the permits do |
| BatchLoop.LoopBatchBounds | internal/queue/queue.go:177-207 | with permits granted, batches have between one and max(1, largest BatchSize read) items, and the current one fewer |
| BatchLoop.LoopShortBatches | internal/queue/queue.go:169-216 | batches below the smallest BatchSize read are no more than the ticks and the emptied channels that can cause one |
| BatchLoop.LoopCutsLikeGetBatches | internal/queue/queue.go:157-207 | with neither, and one BatchSize, the loop cuts what it receives just as GetBatches cuts a list |
| BatchLoop.LoopStrandsNothing | internal/queue/queue.go:177-182 | with submit-on-empty, a round that leaves items in the batch saw more in the channel |
| MyQueue.MyQueue.AddItem | internal/queue/queue.go:133-140 | below the capacity the item goes to the end of the channel and nothing is counted; at the capacity it is counted as dropped and the channel stays; no slice changes |
| MyQueue.MyQueue.SetBatchSize | internal/queue/queue.go:129-131 | the size is the given one, and nothing else changes |
| MyQueue.MyQueue.Append | internal/queue/queue.go:164 | append writes in place while the array has room and otherwise to a fresh array |
| MyQueue.MyQueue.SubmitItems | internal/queue/queue.go:184-207 | the worker gets the slice itself and the loop goes on with a fresh array; a refused permit leaves the batch intact |
| MyQueue.MyQueue.ProcessItems | internal/queue/queue.go:177-182 | the batch is submitted exactly when it has reached BatchSize or the flag is set and the channel is empty |
| MyQueue.MyQueue.ReceiveItem | internal/queue/queue.go:162-168 | the first item leaves the channel, the round is recorded with it, the BatchSize and the length left; the heap has what that round of the loop makes, and what every worker sees in its slice is unchanged |
| MyQueue.MyQueue.TickOnce | internal/queue/queue.go:169-172 | the same for a tick |
| MyQueue.MyQueue.Start | internal/queue/queue.go:142-175 | for every schedule the slices hold exactly what the loop computes, and each batch handed to a worker is to the end what it was; a second call does nothing |
| MyQueue.PlayKeepsOrder | internal/queue/queue.go:133-175 | for every schedule, received and then queued are the items sent, in order, within the capacity |
| MyQueue.PlayDropsOnlyWhenFull | internal/queue/queue.go:133-140 | for every schedule, the items sent are those that arrived while there was room, and the drops those that found the channel full |
| QueueSafety.StarterKeepsOneConsumer | internal/queue/queue.go:143-149 | the mutex and `started` guard keep the loop to one goroutine, step by step |
| QueueSafety.MoveInStep | internal/queue/queue.go:157-207 | each step of the consumer is one round of the sequential loop or none |
| QueueSafety.ConsumerKeepsInOrder | internal/queue/queue.go:162-206 | each step of the consumer keeps received, in hand and queued equal to the items sent |
| QueueSafety.ConsumerKeepsPermits | internal/queue/queue.go:191-206 | acquire and go keep the permits adding up to the pool |
| QueueSafety.WorkerKeepsSubmitsOnce | internal/queue/queue.go:193-202 | a worker's steps keep one Submit for each started job and the error counter equal to the failed ones |
| QueueSafety.StepKeepsInv | internal/queue/queue.go:129-216 | every step of every goroutine keeps the whole invariant |
| QueueGuarantees.AtMostOneConsumer | internal/queue/queue.go:142-149 | however many goroutines call Start, at most one ever runs the loop |
| QueueGuarantees.AsConfigured | internal/queue/queue.go:71-112 | in every reachable state the capacity is ChannelSize or 100 and the pool WorkerPoolSize or 10, as were the first permits; the first BatchSize is the configured one or 10 |
| QueueGuarantees.Fifo | internal/queue/queue.go:133-207 | in every interleaving, batches in hand-off order, then the current batch, then the channel, are the items sent |
| QueueGuarantees.RefinesLoop | internal/queue/queue.go:142-207 | at the select, the concurrent queue has exactly the batches and the current batch that the sequential loop computes |
| QueueGuarantees.BatchSizeBound | internal/queue/queue.go:129-207 | no batch is empty; with a live context none is longer than max(1, largest BatchSize so far), wherever SetBatchSize comes in |
| QueueGuarantees.NoBatchGoesEarly | internal/queue/queue.go:157-216 | the same two in every interleaving, whenever the consumer is at its select |
| QueueGuarantees.WorkerBound | internal/queue/queue.go:94-206 | workers in flight and free permits and a permit between acquire and go make up WorkerPoolSize, or 10 where that is not positive |
| QueueGuarantees.EachBatchSubmittedOnce | internal/queue/queue.go:193-202 | a job is submitted once if its worker has got that far, and otherwise not at all |
| QueueGuarantees.NothingStranded | internal/queue/queue.go:177-216 | with submit-on-empty and a live context, the consumer waits at its select on a partial batch only while the channel holds items |
| QueueGuarantees.HandedStays | internal/queue/queue.go:191-206 | jobs are only ever added; a batch is a value here, and that no append reaches a batch on the heap is `MyQueue.MyQueue.Start` |
| QueueGuarantees.EveryItemAccountedFor | internal/queue/queue.go:133-207 | every offer is in exactly one of: dropped, with a producer, channel, current batch, running worker, succeeded, failed; the two counters count the drops and the failed batches |
| QueueProgress.DrainLowersMeasure | internal/queue/queue.go:133-207 | with a live context, every step but a new call, a tick, a resize or a cancel lowers the measure |
| QueueProgress.DrainRunsEnd | internal/queue/queue.go:133-207 | so every run of such steps is at most as long as the measure falls |
| QueueProgress.CanGoOn | internal/queue/queue.go:133-207 | deadlock freedom: unless nothing is pending, some such step is enabled, whatever Submit returns |
| QueueProgress.StuckIffIdle | internal/queue/queue.go:133-207 | in a reachable state none is enabled if and only if no call is under way, the channel is empty, no worker runs and the consumer is at its select |
| QueueProgress.CanDrain | internal/queue/queue.go:133-207 | from every such state a run of such steps leads to rest, for every function of job and batch that Submit may return |
| QueueProgress.LeftoverIsShort | internal/queue/queue.go:88-207 | what is left at rest is shorter than the largest BatchSize so far, nothing with submit-on-empty, and all the rest is in batches; QueueResizing has the size in force |
| QueueProgress.OneTickClears | internal/queue/queue.go:169-207 | after one tick and any way of coming to rest, everything ever sent is in a batch submitted once whose worker has finished |
| QueueResizing.LeftoverIsShortUnlessShrunk | internal/queue/queue.go:129-182 | in every run in which no resize lowers the size in force, what is left at rest is shorter than the size in force |
| QueueResizing.ShrinkLeavesMore | internal/queue/queue.go:129-182 | without submit-on-empty, for every larger and smaller size there is a run that resizes from one to the other and leaves as many items as the smaller size |
| QueueResizing.AlwaysLeftShortIff | internal/queue/queue.go:129-182 | for every set of sizes that a caller sets: all runs leave less than the size in force if and only if there is submit-on-empty or none of the sizes is smaller than the first, BatchSize or 10, or than another |
| QueueResizing.BatchSizeBoundByCaller | internal/queue/queue.go:129-207 | with a live context no batch is longer than any bound on the configured BatchSize and on all the sizes set in the run |
| QueueResizing.ResizeTakesEffect | internal/queue/queue.go:129-182 | from the first round tested after a resize on, with no other and a live context, the consumer waits at its select with fewer items than the size set last |
| QueueProducers.BlockedBound | internal/queue/queue.go:91-140 | with at most n simultaneous producers, channel length and checked producers never exceed ChannelSize (or 100) + n - 1, so at most n - 1 are blocked |
| QueueProducers.BlockedBoundReached | internal/queue/queue.go:133-140 | for every configuration and every n there is a run that leaves n - 1 blocked |
| QueueProducers.AddItemNeverBlocksIff | internal/queue/queue.go:133-140 | AddItem never blocks if and only if at most one producer is in it at a time |
| QueueProducers.DropsOnlyWhenFull | internal/queue/queue.go:133-140 | in every run DroppedItems grows by the length checks that find the channel full, and by nothing else |
| Gate.EnterKeepsInv | internal/event/request_handler.go:79 | taking a ticket keeps: counter equals handlers in flight, and each ticket is at least the handlers in flight that arrived no later |
| Gate.LeaveKeepsInv | internal/event/request_handler.go:80 | giving it back keeps the same |
| Gate.LimitHolds | internal/event/request_handler.go:79-88 | in every interleaving of fewer than 2^31 requests the counter is exact and at most maxOutstanding are past the gate |
| Gate.LimitsIff | internal/event/request_handler.go:79-88 | the limit holds in every run if and only if fewer than 2^31 requests can be in flight |
| Gate.TicketCounts | internal/event/request_handler.go:79 | a ticket is the number of requests in flight, the new one included |
| Gate.RefusedIffOver | internal/event/request_handler.go:82-88 | in every run a request is refused if and only if there is a limit and its ticket is above it |
| Admission.GateBoundsProducers | internal/event/request_handler.go:79-131 | with HTTP requests as the only callers, at most maxOutstanding calls of AddItem are under way on all queues together, so at most maxOutstanding - 1 are blocked on one |
| Admission.QueueRuns | internal/event/request_handler.go:79-131 | each queue behind the gate takes a run of its own, so every theorem about runs of a queue holds of it |
| Intake.OncePerQueue | filter/filter_manager.go:116-139 | in every interleaving of requests: an accepted one has called AddItem exactly once, with its message, of each queue whose configuration wants the message, and of no other; a rejected one of none; and a queue has been offered exactly its callers' messages in the order of the calls |
| Intake.EachQueueRuns | internal/event/request_handler.go:79-131 | with the filters in between, the gate's bound on producers holds and each queue takes a run of its own |
| Requests.RequestHandler.constructor | internal/event/request_handler.go:40-54 | the limit is 10000 and the counter starts at zero |
| Requests.RequestHandler.ServeHTTP | internal/event/request_handler.go:56-138 | 415 exactly for any other header than the two; then 503 exactly when there is a limit and the ticket is above it; then 202 exactly when the body, read by the decoder of that header, is a simple event in UTF-8, and 400 otherwise; on a 202 each filter that accepts the fixed message is offered it once, otherwise none sees anything; the counter is back where it was |
| Requests.RequestHandler.Handle | internal/event/request_handler.go:82-135 | the same for what comes between the two adds |
| Requests.FormatOf | internal/event/request_handler.go:60-77 | msgpack for exactly its header, JSON for exactly its own, and neither for any other |
| Requests.FixWrp | internal/event/request_handler.go:140-162 | content type and transaction are filled in only where they are empty, and every other field stays |
| Routing.Topic | filter/filter.go:73 | one leading `event:` is taken off a destination that has it, and any other is left alone |
| Routing.BaseFilter.ConfigureMatchers | filter/filter_factory.go:129-169 | an error exactly when there is no event pattern or one that is read does not compile; otherwise the event list, and the device list or nil |
| Routing.BaseFilter.Queue | filter/filter.go:63-100 | the message is offered once exactly when an event matcher matches the trimmed destination and there are no device matchers or one matches the source or the trimmed destination |
| Routing.ShortCutPreservesMeaning | filter/filter_factory.go:145-166 | the matchers accept exactly the messages for which an event pattern matches and no device is named or one matches source or trimmed destination |
| Routing.AcceptsMeans | filter/filter.go:72-92 | what a filter's matchers accept, spelled out for one message |
| Routing.ConfigurableIff | filter/filter_factory.go:129-169 | a configuration is accepted if and only if it has an event pattern, all of them compile and so does each device pattern up to the first `.*` |
| Routing.PatternsBehindDotStar | filter/filter_factory.go:145-160 | patterns behind the first `.*` do not affect whether the configuration is accepted |
| Routing.BaseFilterFactory.New | filter/filter_factory.go:47-85 | there is a filter exactly when the queue has a name, the destination type is known, every stream gets a sender and the matchers compile; its matchers, streams, senders and the sizes of its queue are those of the configuration |
| Routing.BaseFilterFactory.ConfigureQueue | filter/filter_factory.go:87-108 | each size is the configured one where it is positive and the default otherwise |
| Routing.BaseFilterFactory.ConfigureDispatcher | filter/filter_factory.go:110-127 | an error exactly when the queue has no name, the type is unknown or a stream gets no sender; otherwise a dispatcher whose first stream is the primary and whose further ones are the alternates in their order, with a queue of the filter's sizes |
| Routing.BaseFilterManager.LoadFilters | filter/filter_manager.go:83-113 | filters are loaded in order up to the first configuration that fails, the last one winning for each stream name |
| Routing.BaseFilterManager.Queue | filter/filter_manager.go:116-139 | a message is offered once to each filter that accepts it and to no other; a nil message to none |
| Routing.RoutedByLastConfig | filter/filter_manager.go:100-138 | a loaded filter accepts exactly what the last configuration for its stream name says |
| Wiring.NewFilterManager | filter/filter_module.go:84-138 | there is a manager exactly when the default sizes are not zero and every configuration makes a filter; its filters are those of the configurations, and the dispatcher factory has no retries |
| Wiring.RetriesAsConfiguredIff | filter/filter_module.go:104-130 | all senders of a loaded filter make the retries that the configuration asks for if and only if it asks for 3 or for none |
| Wiring.NeverSubmitsOnEmpty | filter/queue_provider.go:48-61 | whatever the configuration, a loaded filter's queue has its sizes or the defaults and no submit-on-empty |
| Wiring.PrimaryThenAlternates | filter/filter_factory.go:110-127 | for a loaded filter and any service, the first try goes to the primary stream and try i + 1 to alternate i, each through the client of its own items |
| EndToEnd.RunKeepsOutcomes | internal/queue/queue.go:193-202 | in every run with a dispatcher, each finished job has the outcome of its own Submit |
| EndToEnd.SuccessIsDelivered | filter/stream_dispatcher.go:39-105 | one stream has acknowledged, in one attempt, all messages of a succeeded job's batch that marshal |
| EndToEnd.AckedAreEncoded | internal/sender/kinesis_sender.go:91-117 | over all succeeded jobs, streams acknowledged each record exactly as often as there are messages that become it |
| EndToEnd.MessageAcknowledged | internal/sender/kinesis_sender.go:91-117 | every message of it that marshals is a record of the attempt that was acknowledged |
| EndToEnd.LostAreFailed | filter/stream_dispatcher.go:49-81 | the counters of lost messages are exactly the number of items in failed batches |
| EndToEnd.EveryMessageAccountedFor | filter/stream_dispatcher.go:26-105 | in every reachable state of the queue with a dispatcher, every offered message is in exactly one of the seven places; each record was acknowledged exactly as often as succeeded batches have messages that become it; the counters of lost messages are those in failed batches, and SubmitErrors is the number of batches for which Submit returned an error |
| Settlement.ClearedIsSettled | internal/queue/queue.go:133-207 | with nothing left in the queue, each offer was dropped at a full channel, is in a succeeded batch or in one counted as lost, and is gone without a trace exactly if it does not marshal and is in a succeeded batch |
| Settlement.TickSettles | internal/queue/queue.go:157-207 | after rest, a tick and rest again, in any order of steps, that holds of every message ever offered |
| Settlement.CanSettle | internal/queue/queue.go:133-207 | from every state of a run with a dispatcher, there is a run with that dispatcher to where it holds |
| Settlement.SilentLoss | internal/sender/kinesis_sender.go:94-97 | for every message that does not marshal, every configuration and all streams, a settled run in which the message is in no record, no drop and no count |
| Settlement.NeverLostSilentlyIff | internal/sender/kinesis_sender.go:92-100 | a message is never lost silently, in all settled runs with honest services, if and only if it marshals or there is no stream |

## Left out

- Shutdown: Close, Empty and Wait. The receive ignores closedness, and Wait does not cover the workers (internal/queue/queue.go:114-127, 151, 162, 193), so no claim is made that they end or that they imply delivery.
- Delivery exactly once: a retry resends from the first chunk and failover resends the whole batch. The bounds above are what holds.
- EndToEnd.EveryMessageAccountedFor: the count of acknowledged records asks that no batch has 2^31 messages that marshal, because the failed count can wrap (`Delivery.NilIsDeliveryIff`). A BatchSize below 2^31 gives that. Settlement.NeverLostSilentlyIff asks for it too.
- Batch.GetBatch: does not model a start beyond the items or a batchSize below zero, on which the code panics or never advances. Nor does GetBatches take a batchSize of zero. The code calls them with 500 only, and with starts in range.
- Kinesis.KinesisClient.PutRecords: does not model an output without a failed count, on which the code panics, nor the refresh of the client's credentials before each call.
- Sender.KinesisSender.constructor: what NewKinesisSender refuses, an empty configuration or a client that cannot be made, is refused in GetSender here. The schema version is left out: nothing reads it.
- Sender.KinesisSender.Run: the retry runner is a recursive method, since its library is not part of the repository. The pauses between attempts are left out.
- Dispatcher.StreamDispatcher.Submit: the per-attempt increments `send_error` and `some_records_failed` are modelled as counts of one, and kept out of the accounting of messages because they count attempts. The panic path is left out.
- Dispatcher.DispatcherFactory.GetDispatcher: starts no goroutine. A dispatcher whose configuration fails later, or that is replaced by a later one for the same stream name, has a consumer that runs on in the code.
- MyQueue.MyQueue.Start: takes the schedule as a list of moves and ends with it, in place of an endless select; permits come with the moves. It is one goroutine without a mutex. Other goroutines, the mutex and the step between the length check and the send are in QueueMachine.
- Intake.OncePerQueue: filters are shown a message in any order, as a map is. A filter has the configuration that loaded it; that it is the last one for its stream name is Routing.RoutedByLastConfig.
- Requests.RequestHandler.ServeHTTP: the message is a value, so fixWrp gives a new message where the code changes the decoded one. Only the fields that it looks at are there, and the UUID is a parameter.
- Routing.BaseFilter.Queue: the dispatcher's queue is the list of messages offered to it. What AddItem does with them is in MyQueue and QueueMachine.
- The checks for missing options other than the default sizes, the region and the endpoint: each is a single test.
- `overlaps` and the retrieval of records, which the delivery path does not use.
- Logging, gauges, histograms, tickers and wall-clock time.
- Authentication, installation, metrics set-up and the command line.
