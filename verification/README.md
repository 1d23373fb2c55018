# wb-orders: a verified model of the order pipeline

An order is stored in PostgreSQL together with its `OrderCreated` event (a transactional outbox). Publishers
claim outbox rows under time-limited leases and publish them to Kafka. Order workers consume the events in
batches, run the order's operations, and complete the order in one transaction that also emits
`OrderStatusChanged`; failures go to a retry topic with backoff and finally to a dead-letter topic (DLQ).

The project models this pipeline and proves what it promises, over every run: any interleaving of any number
of publishers and workers, crashes at any moment, publishes that append although they report an error,
transactions that commit although their reply is lost, requests that take effect long after their caller gave up,
rebalances, and redeliveries.

## Layout

| file | content |
|---|---|
| `Prelude`, `Text`, `Permutations` | machine integers, instants, Go string facts, rearrangements of sequences |
| `Orders`, `Events` | orders and overflow-checked totals; envelopes and injective encodings |
| `Backoff`, `Records` | the two retry delays; Kafka records, routing headers, `Itoa`/`Atoi` |
| `WorkerPool`, `Processing` | the worker pool as a timed machine; fan-out/fan-in as a machine |
| `Outbox`, `Publisher` | outbox rows and their SQL statements; the publisher's side |
| `Leases`, `LeaseTightness` | many publishers with a clock and late statements: exactly when publishes of one row never overlap |
| `Store`, `Interleaving` | `Service.Create`, creation and completion transactions; completion split into statements under locks |
| `Consumer` | `processRecord`, `retry`, `dlq`, `route`, and one turn of `Run` |
| `Turns`, `WorkerGuard` | how long a turn lasts, exactly, for any records; the worker's startup guard |
| `Pipeline` | the whole system as one machine: one step per database call, Kafka call, clock reading or failure |
| `PipelineData`, `PipelineInvariant`, `PipelineSteps` | its invariant, and that every step keeps it |
| `PipelineOffsets` | what lies below the committed offsets; what only ever grows |
| `PipelineSafety`, `FetchErrors` | the guarantees in every reachable state; the assumption that two of them need, shown necessary |
| `RetryRuns`, `DeadLetters` | runs that retry one record to the limit; exactly when every dead letter has used up its retries |
| `LeaseRecovery` | what a crashed owner and an unanswered statement leave to others |
| `Mishaps` | the failures the machine allows for, and what "at least once" therefore includes |
| `Origins` | where orders and final statuses come from, in every run |
| `Handover` | who goes on reading a partition where |
| `OwnTurns` | how long a turn lasts, exactly, for the records that the pipeline itself writes |
| `Sample` | one order and its event, for the runs that show a bound or a failure |
| `PublisherRuns` | claims, and every call of `publishOne`, as steps of the machine |
| `RecordRuns`, `RecordCalls` | every call of `processRecord` is a run of the machine, and every uninterrupted run of a slot is a call |

Code that updates state in the source is a class or a method here, proved against a function: the repositories,
`Service`, `OutboxPublisher`, `OrderConsumer`, the validation loop, the backoff loop, the header copy, the collector of the
fan-in. Code whose point is concurrency is a machine of steps on values.

## Results that are not as the source's comments or documentation suggest

- A failed fetch may carry records, and `Run` drops them (`internal/consumer/consumer.go:67-73`). A later commit in
  the partition passes over them. `FetchErrors.NoOrderIsLostIff` and `FetchErrors.CommitsAreSafeIff` prove that no
  order is ever lost, and every committed record has an outcome, exactly when failed fetches carry no records. All
  other guarantees hold in either case.
- A turn of the poll loop can need `MaxBackoff+Timeout+25s` per round for arbitrary records and ten seconds more for
  the commit, unless `MaxBackoff+5s` wraps around, and no turn needs longer (`Turns.TurnFitsIff`). The worker's
  startup guard budgets `MaxBackoff+Timeout+15s` per round and nothing for the commit (`cmd/order-worker/main.go:70`).
  So for every number of rounds up to nineteen there are durations that it accepts with which a turn outlasts the
  rebalance timeout (`WorkerGuard.GuardFails`), and as its sums wrap around there are such durations for every size
  (`WorkerGuard.GuardProtectsNoSizes`). The defaults are safe (`WorkerGuard.DefaultsFit`).
- The delay check adds five seconds to MaxBackoff on int64 (`internal/consumer/consumer.go:115`). For a MaxBackoff within
  five seconds of 2^63 nanoseconds the sum wraps around, and the check dead-letters every own retry that is read within
  centuries of being sent (`Consumer.DelayCheckToleratesExactlySkew`). In general own retries pass it exactly when the
  longest own backoff and the clock difference are within the sum (`Consumer.OwnRetriesPassIff`), and every dead letter
  of every run has used up its retries under the same condition (`DeadLetters.RetriesUsedUpIff`). With one second, five
  retries and one minute that tolerates 49 seconds.
- For the records that the pipeline itself writes, the delays end at absolute instants, so that the waits of one batch
  overlap. A turn needs the last attempt's backoff and the clock skew once, `Timeout+20s` per round, and ten seconds,
  again exactly (`OwnTurns.OwnTurnFitsIff`).
- `backoff` is not always `min(base*2^(n-1), max)`: it returns `max` where the formula gives `max-1`, for instance 3
  instead of 2 for attempt 2, base 1 and maximum 3 (`Backoff.OvershootsByOne`).
- The UPDATE statements of the outbox check the owner's name but not the claim. A Release that was not answered may take
  effect after its owner has claimed the row again, and then another owner can publish the row at the same time, with
  any lease (`LeaseTightness.LateReleaseOverlaps`). Publishes of one row never overlap in any run exactly when that does
  not happen and the lease is at least the minimum (`LeaseTightness.MinimumLeaseIsExact`); a late MarkPublished or
  MarkFailed does no harm (`Leases.LateKeepsOwn`).
- The lease guard enforces the minimum for exactly those sizes with which neither `batchSize+workers-1` nor the minimum
  lease overflows int64 (`Leases.GuardIsSoundIff`, `LeaseTightness.GuardProtectsIff`). An overflowing product lets a
  lease of one nanosecond pass, an overflowing sum one of five seconds (`Leases.GuardWraps`).
- `sort.Slice` is unstable. The result of an order's operations is the same for every schedule exactly when there is an
  error, or operations that share a name have the same outcome (`Processing.ResultIsScheduleIndependentIff`).

## Assumptions

- Contracts of the infrastructure: transactions are atomic; unique keys, row locks and `SKIP LOCKED` work as
  documented; Kafka logs are append-only; a partition has one owner, who keeps it during a batch unless declared dead;
  the broker refuses commits for partitions that a member has lost.
- Configured durations and sizes are positive, MaxRetries is below 2^63-1, the consumer name is not empty, and the
  created, status, retry and DLQ topics are four different topics.
- Worker clocks show the true time or up to a fixed skew more. Where the skew matters, the contract says so.
- Database timestamps satisfy `updated_at >= created_at` or the transaction fails; clocks are past Go's zero time.
- Call timeouts are honoured. Time between timed calls (decoding, scheduling) is zero.

## Model

| member | source | states |
|---|---|---|
| Orders.AddLine | internal/order/model.go:95-104 | the two int64 overflow checks accept a line exactly when the running total plus quantity times price is at most 2^63-1, which is then the new total, and nothing wraps |
| Orders.Validate | internal/order/model.go:71-107 | a command is accepted if and only if both ids are set, each SKU is not blank and has at most 128 runes, quantities and prices are positive, SKUs distinct, and the prices of all units together at most 2^63-1; the result is that sum |
| Orders.SumIsUnitTotal | internal/order/model.go:95-104 | the total by multiplication is the sum of the prices of all units, one by one |
| Orders.NewOrderIs | internal/order/model.go:51-69 | the new order has the customer, warehouse and items of the command, the unit total, RUB, PENDING, and the clock reading in both times |
| Orders.ValidationIgnoresItemOrder | internal/order/model.go:71-107 | verdict and total do not change when the items are rearranged |
| Orders.ValidatePayload | internal/order/model.go:117-129 | a payload passes if and only if its currency is RUB, its ids and items are acceptable and its total is the sum of the prices of all units |
| Events.CreatedEventIsValid | internal/order/service.go:21-44 | the order has the customer, warehouse and items of the command; its event has the caller's request id or else the fresh one, is about the order, is valid, and decodes to a payload with the same customer, warehouse, items and total |
| Events.NewEnvelopeIs | internal/event/envelope.go:27-66 | an envelope is built exactly from set ids, a type, a payload, a clock reading and a request id of 1 to 128 bytes that is not blank, and has what was given and version 1 |
| Events.CreateSucceedsIff | internal/order/service.go:21-38 | `Create` gets as far as the store exactly on a command that is acceptable field by field, with a request id that is absent or has 1 to 128 bytes and is not blank |
| Store.PostgresStore.CreateWithEvent | internal/order/postgres.go:19-62 | succeeds exactly when ids and item keys are fresh and the CHECK constraints hold; then the order's row, one row per item and a PENDING outbox row with the envelope are added and nothing else changes; otherwise nothing does |
| Store.PostgresStore.Get | internal/order/postgres.go:64-99 | an existing order comes back column by column with exactly the rows of its items, sorted by SKU under the collation |
| Store.Service.Create | internal/order/service.go:21-44 | an order is returned only for an acceptable command: it has the command's customer, warehouse and items, and its row, its items and one OrderCreated row that says the same are stored; otherwise nothing is; with fresh ids the store never refuses |
| Store.CreateTxSucceeds | internal/order/postgres.go:19-62 | a valid order with fresh ids passes every constraint and is stored completely |
| Store.ItemsReadBack | internal/order/postgres.go:64-99 | whatever order the item query uses, the items read are the items stored |
| Store.CreatedOrderReadsBack | internal/order/postgres.go:19-99 | creating and then reading an order gives it back with its items sorted by SKU, and its payload is still valid with the same total |
| Store.PostgresStore.IsProcessed | internal/consumer/postgres.go:21-31 | answers whether the key is in processed_events |
| Store.PostgresStore.Complete | internal/consumer/postgres.go:34-98 | applied exactly on a PENDING order with a new event id and a usable request id: then the order has the status given and one new PENDING OrderStatusChanged row says PENDING to that status with the reason and request id given; a known event or a final order only has the event recorded; an error changes nothing |
| Store.CompleteTxEnds | internal/consumer/postgres.go:49-97 | the atomic completion ends in the same three ways, read off the tables |
| Interleaving.CommitIsAtomic | internal/consumer/postgres.go:43-97 | at its commit an interleaved completion does exactly what the atomic one would do at that moment |
| Interleaving.CommitKeepsView | internal/consumer/postgres.go:49-75 | a commit never invalidates what another transaction has read under its locks |
| Interleaving.InterleavingsAreSerial | internal/consumer/postgres.go:43-97 | every interleaving of any number of completions has the effect, and gives the results, of running the committed ones one after another |
| Interleaving.NoDeadlock | internal/consumer/postgres.go:49-93 | while a completion is active, some completion can execute its next statement |
| Interleaving.UndisturbedCallIsAtomic | internal/consumer/postgres.go:43-97 | a completion that shares no event, order or new row with an active one waits for nobody, whoever else is at work, and its statements have exactly the effect and result of the atomic one |
| Interleaving.AppliedAtMostOnce | internal/consumer/postgres.go:54-97 | among interleaved completions of one order at most one applies, and its status stays |
| Backoff.ConsumerBackoff | internal/consumer/consumer.go:280-289 | the loop never overflows and returns the closed form for every attempt |
| Backoff.DelayIsCappedIff | internal/consumer/consumer.go:280-289 | it equals `min(base*2^(n-1), max)` except exactly when n >= 2 and the product is max-1 |
| Backoff.OvershootsByOne | internal/consumer/consumer.go:280-289 | attempt 2, base 1 and maximum 3 give 3 instead of 2 |
| Backoff.DelayIsMonotone | internal/consumer/consumer.go:280-289 | a later attempt never has a shorter delay |
| Backoff.BackoffsAgreeIff | internal/outbox/publisher.go:157-161 | for bases below 2^53 nanoseconds, where float64 is exact, the consumer's loop and the publisher's clamped exponent agree for every attempt exactly when max is at most 1024 times the base and the off-by-one case cannot occur |
| Backoff.DefaultBackoffsAgree | internal/outbox/publisher.go:125 | with one second and one minute they agree for every attempt |
| Records.AtoiInvertsItoa | internal/consumer/consumer.go:215-234 | the attempt written in decimal is read back, for every int64 |
| Records.HeaderIntIff | internal/consumer/consumer.go:231-242 | a header reads as an integer exactly when there is none, as zero, or the first one with the key is a non-negative decimal within int64 |
| Records.HeaderTimeIff | internal/consumer/consumer.go:244-255 | likewise a time, zero where there is none |
| Records.ItoaIs | internal/consumer/consumer.go:215 | a number is written with digits that denote it and no leading zero |
| Records.CopyHeadersWithout | internal/consumer/consumer.go:291-303 | exactly the headers with other keys, in their order (header by header: `WithoutOfOne`, `WithoutOfConcat`) |
| Records.BuildRouted | internal/consumer/consumer.go:208-222 | the copy has the source's key and value, the kept headers, and the routing headers |
| Records.RoutedReadsBack | internal/consumer/consumer.go:208-264 | attempt, failure reason and not_before read back as written, each routing header occurs at most once, the other headers are untouched |
| Records.RoutedOriginalTopic | internal/consumer/consumer.go:209-219 | the original_topic header is the first topic of the record |
| Records.RoutingRoundTrip | internal/consumer/consumer.go:208-303 | the same over any number of hops, with original_topic still the first topic |
| WorkerPool.Makespan | internal/workerpool/pool.go:21-44 | in every schedule item k starts by floor(k/w) limits and every item is finished after ceil(n/w) limits, counted from the instant until which handlers may have to wait |
| WorkerPool.FinishedSlots | internal/workerpool/pool.go:22-44 | at the end every slot was written exactly once, and is nil exactly when the handler ran on that item and returned nil, whatever was canceled; unless the context was canceled every handler ran |
| WorkerPool.CanceledCallsNobody | internal/workerpool/pool.go:29-33 | once the context has ended no handler is called any more |
| WorkerPool.BoundedAndExclusive | internal/workerpool/pool.go:24-37 | at most min(workers, max(1, n)) handlers run at once, never two on one item |
| WorkerPool.NoDeadlock | internal/workerpool/pool.go:24-44 | until the pool has finished some worker can move, and every move uses up remaining work |
| Processing.SortByOperation | internal/processing/processor.go:82 | the outcomes rearranged so that their names ascend |
| Processing.JoinFailures | internal/processing/processor.go:83-91 | whether an outcome is required and failed; the joined reason, empty otherwise |
| Processing.ReasonJoins | internal/processing/processor.go:83-90 | the reason of two parts is joined by "; " where both name a required failure; one outcome gives its name and details if required and failed (`ReasonOfOne`) |
| Processing.Collect | internal/processing/processor.go:68-92 | an error exactly when there is no operation or some result is an error; otherwise FAILED exactly when some outcome is required and not successful, else CONFIRMED with an empty reason |
| Processing.OptionalOutcomeDoesNotCount | internal/processing/processor.go:85-92 | however an optional operation ends, status and reason stay what they may be |
| Processing.NobodyBlocks | internal/processing/processor.go:56-71 | no goroutine ever blocks on its send and the collector is never stuck |
| Processing.ErrorIsScheduleIndependent | internal/processing/processor.go:57-80 | whether `Process` errs does not depend on completion order or sibling cancellation |
| Processing.CollectedIsPermutation | internal/processing/processor.go:68-77 | without an error, the collected results are the operations' results in some order |
| Processing.VerdictIsScheduleIndependent | internal/processing/processor.go:45-93 | every schedule gives the same error or the same status: FAILED exactly when some live outcome is required and not successful, otherwise CONFIRMED |
| Processing.ResultIsScheduleIndependentIff | internal/processing/processor.go:45-93 | all schedules give one and the same result, reason included, if and only if there is an error or operations with one name have one outcome |
| Processing.SharedNamesGiveTwoReasons | internal/processing/processor.go:82-90 | two failed checks with one name have two runs that give two reasons |
| Outbox.PostgresRepository.Claim | internal/outbox/postgres.go:18-57 | the chosen rows were due and unlocked, as many as the limit allows and the oldest that nobody else updates; they, and only they, become PROCESSING for this owner, locked for the whole milliseconds of the lease, with one attempt more; the events are those rows |
| Outbox.ValidChoiceIff | internal/outbox/postgres.go:20-29 | which choices of rows the statement may make, exactly |
| Outbox.PostgresRepository.MarkPublished | internal/outbox/postgres.go:59-71 | succeeds exactly for the holder of an unpublished row, which becomes PUBLISHED at this time and unlocked; nothing else changes |
| Outbox.PostgresRepository.Release | internal/outbox/postgres.go:73-86 | succeeds exactly for the holder, whose row becomes PENDING and unlocked; no claim can take it before the next attempt time, and one can at that time; nothing else changes |
| Outbox.PostgresRepository.MarkFailed | internal/outbox/postgres.go:88-100 | succeeds exactly for the holder, whose row becomes FAILED and unlocked; nothing else changes |
| Outbox.RowMachine | migrations/000001_init.up.sql:31-46 | in every run of any mix of owners lock columns and PROCESSING go together, published_at goes with PUBLISHED, attempts is the number of claims |
| Outbox.TerminalRowsStay | internal/outbox/postgres.go:19-100 | PUBLISHED and FAILED rows never change, and no row's identity or payload does |
| Outbox.UnfinishedRowIsClaimable | internal/outbox/postgres.go:22-34 | a row can be claimed if and only if it is unfinished and its next attempt time and lease have passed |
| Outbox.LeaseExcludesOthers | internal/outbox/postgres.go:22-100 | until a lease ends nothing that other owners do changes the row, late Mark, Release or Fail included |
| Leases.GuardIsExact | cmd/outbox-publisher/main.go:51-54 | where neither sum nor product overflows, the guard on int64 compares with the intended bound |
| Leases.GuardIsSoundIff | cmd/outbox-publisher/main.go:51-54 | the guard refuses every lease below the minimum for exactly those sizes |
| Leases.GuardWraps | cmd/outbox-publisher/main.go:51-54 | sizes whose product overflows let one nanosecond pass, sizes whose sum overflows five seconds |
| Leases.LeaseCoversMinimum | internal/outbox/postgres.go:30-36 | dropping what is below a millisecond never brings an accepted lease under the minimum |
| Leases.LeaseIsLongEnough | internal/outbox/publisher.go:78-123 | a row that its owner has yet to publish, or is publishing, is within its lease |
| Leases.LateKeepsOwn | internal/outbox/postgres.go:59-100 | a late MarkPublished or MarkFailed of an owner that needs the row again leaves the row to nobody |
| Leases.PublishesAreLeased | internal/outbox/publisher.go:78-139 | in every run in which no Release comes after its owner has claimed the row again, a publish in progress is covered by its owner's lease on the row, or the row is PUBLISHED or FAILED |
| Leases.PublishesNeverOverlap | internal/outbox/publisher.go:78-139 | in such runs publishes of one row never overlap in time, whatever other statements come late |
| LeaseTightness.FullRound | internal/workerpool/pool.go:21-44 | a round of the pool can take the whole fifteen seconds on every worker |
| LeaseTightness.ShorterLeaseOverlaps | cmd/outbox-publisher/main.go:51-54 | with any shorter lease some run publishes one row twice at the same time |
| LeaseTightness.LateReleaseOverlaps | internal/outbox/postgres.go:73-86 | with any lease some run does so in which an unanswered Release takes effect after its owner has claimed the row again |
| LeaseTightness.MinimumLeaseIsExact | cmd/outbox-publisher/main.go:51-54 | publishes never overlap in any run if and only if the lease in whole milliseconds is at least ceil(n/w) times fifteen seconds and five seconds, and no Release comes that late |
| LeaseTightness.GuardAcceptsExactlyTheSafe | cmd/outbox-publisher/main.go:51-54 | without overflow a configuration keeps publishes from overlapping if and only if the guard accepts it and no Release comes that late |
| LeaseTightness.GuardProtectsIff | cmd/outbox-publisher/main.go:51-54 | every lease that the guard accepts prevents overlapping publishes if and only if neither overflows and no Release comes that late |
| LeaseRecovery.CrashedRowIsRecovered | internal/outbox/postgres.go:22-36 | a row of a crashed owner can be claimed by another one if and only if its lease is over, and is then leased to that one |
| LeaseRecovery.SettlesNowOrLater | internal/outbox/postgres.go:59-100 | a settlement that gets no answer changes nothing now and, when it arrives, what it would have changed |
| Publisher.PublishedIsUnrouted | internal/platform/kafka/producer.go:29-40 | a published record reads as attempt 0, without delay or original topic |
| Publisher.PublishedDescribesRow | internal/platform/kafka/producer.go:29-40 | the topic is that of the row's event type, the key its order, the value its payload, and the four headers its ids, type and version |
| Publisher.AcceptsIff | internal/outbox/publisher.go:105-120 | a row is published exactly when its type is one of the two, and its envelope decodes, is valid and agrees with the columns |
| Publisher.OutboxPublisher.PublishOne | internal/outbox/publisher.go:104-144 | a row that the owner holds becomes PUBLISHED only after its record was acknowledged, FAILED when it is not fit, and after a failed publish cannot be claimed before min(2^min(attempts-1, 10) seconds, one minute) have passed, but then can; nil means published and marked |
| Publisher.OutboxPublisher.FailPermanently | internal/outbox/publisher.go:146-155 | the row is failed if this owner still holds it, and the returned error is never nil |
| Publisher.OutboxPublisher.PublishAll | internal/outbox/publisher.go:95-101 | nil if and only if every event was published and marked, and then every row is PUBLISHED; no other row changes |
| Publisher.OutboxPublisher.PublishBatch | internal/outbox/publisher.go:78-102 | the same for a claimed batch; a row becomes PUBLISHED only if its record is in the log |
| PublisherRuns.ClaimGivesTasks | internal/outbox/publisher.go:78-95 | a claim of the machine locks the chosen rows and gives its owner one task for each, with what the row says; all other rows and tasks stay |
| PublisherRuns.PublishOneIsARun | internal/outbox/publisher.go:104-155 | every call of publishOne is a sequence of the machine's steps that leaves outbox and Kafka as the call does |
| Consumer.RetryRecordReadsBack | internal/consumer/consumer.go:187-206 | a failed record is routed with the attempt raised by one, to the DLQ exactly when the attempts are used up (with the cause: `RetryRecordSaysWhy`) |
| Consumer.OwnRetryPassesDelayCheck | internal/consumer/consumer.go:111-120 | where MaxBackoff+5s fits in int64 and clocks are within five seconds, a retry record is never dead-lettered for its delay, is not due before its backoff, and waits at most MaxBackoff+5s |
| Consumer.DelayCheckToleratesExactlySkew | internal/consumer/consumer.go:115-117 | at the maximal backoff it passes if and only if the reader is at most five seconds behind; where the sum wraps around it never passes within centuries |
| Consumer.OwnRetriesPassIff | internal/consumer/consumer.go:115-117 | every own retry passes with a given lag if and only if the longest own backoff and the lag are within the int64 sum |
| Consumer.NilMeansDurable | internal/consumer/consumer.go:103-185 | a nil error means that the event is recorded as processed or that a copy with its key and value was published |
| Consumer.BadHeadersAreDeadLettered | internal/consumer/consumer.go:104-117 | a bad attempt header, too high an attempt, a bad or too late not_before: the database stays, and what is sent is a dead letter with that attempt and that reason |
| Consumer.BadEventIsDeadLettered | internal/consumer/consumer.go:122-134 | no envelope, an invalid one, another type, another key: a dead letter with the attempt and that reason |
| Consumer.UndecidedCall | internal/consumer/consumer.go:137-155 | a failed check is retried with its cause, a processed event is skipped, a bad payload becomes a dead letter; the database stays |
| Consumer.ErrorIsRetried | internal/consumer/consumer.go:158-169 | a technical error is retried with its cause, a cancellation leaves nothing; the database stays |
| Consumer.VerdictIsCompleted | internal/consumer/consumer.go:171-184 | a verdict is completed for this event and order with this status, reason and request id; without a good reply the record is retried |
| Consumer.VerdictIsStored | internal/consumer/consumer.go:171-177 | on a PENDING order the verdict's status becomes the order's, and the one new row says PENDING to that status with the reason and the event's request id |
| Consumer.MalformedIsDeadLettered | internal/consumer/consumer.go:103-135 | a record with bad headers, a bad envelope, another type or a wrong key never reaches the database and leaves at most a dead letter |
| Consumer.DeadLetteredIff | internal/consumer/consumer.go:103-198 | what is published is a dead letter if and only if the record is malformed, its payload invalid or its retries used up; otherwise it is the next attempt, due one backoff later |
| Consumer.EndsWithinLimit | internal/consumer/consumer.go:115-185 | no call takes longer than MaxBackoff+Timeout+25s, or Timeout+20s where MaxBackoff+5s wraps around |
| Consumer.HandlingTakes | internal/consumer/consumer.go:124-185 | after its wait no call takes longer than Timeout+20s |
| Consumer.RedeliveryChangesNothing | internal/consumer/consumer.go:137-146 | delivering a processed event again changes nothing in the database, whatever fails |
| Consumer.SecondDeliveryIsHarmless | internal/consumer/consumer.go:137-177 | once a call has changed an order, a second delivery changes nothing, even if the first reply was lost |
| Consumer.OrderConsumer.Route | internal/consumer/consumer.go:208-229 | what reaches Kafka has the source's key, value and plain headers, and reads back with the attempt, delay, reason and original topic asked for; nil if and only if acknowledged |
| Consumer.OrderConsumer.Retry | internal/consumer/consumer.go:187-198 | routes exactly the next attempt or the dead letter |
| Consumer.OrderConsumer.Handle | internal/consumer/consumer.go:124-185 | the steps after the wait have the effect, result and duration of the specification, whose branches, with what they store, send and return and how long they take, the lemmas above read off tables and headers |
| Consumer.OrderConsumer.ProcessRecord | internal/consumer/consumer.go:103-185 | the call has the effect, result and duration of the specification; orders and events stay, or the record's order gets the verdict's status and one new event says so |
| Consumer.OrderConsumer.RunOnce | internal/consumer/consumer.go:61-101 | every record of the batch is processed, whatever fails; the whole batch is committed if and only if every result is nil, otherwise nothing; every committed record has a durable outcome |
| Turns.TurnEndsBy | internal/consumer/consumer.go:75-99 | a batch whose calls keep a pace is handled, committed and over within the makespan at that pace and ten seconds, in every schedule |
| Turns.SlowestTurn | internal/consumer/consumer.go:75-99 | when every call begins with its round and takes all the time it may, some turn takes exactly that long |
| Turns.SlowRecordTakes | internal/consumer/consumer.go:111-182 | a genuine event due as late as the delay check tolerates can take exactly the longest time of a call |
| Turns.TurnFitsIff | internal/consumer/consumer.go:61-101 | every turn on any records is within five minutes, in every schedule, if and only if ceil(n/w) times the longest time of a call leaves ten seconds; that time is MaxBackoff+Timeout+25s unless the delay check wraps around |
| WorkerGuard.GuardIsExact | cmd/order-worker/main.go:70-73 | without overflow the guard on int64 compares ceil(n/w) times MaxBackoff+Timeout+15s with the timeout |
| WorkerGuard.GuardFails | cmd/order-worker/main.go:69-73 | for all sizes with at most nineteen rounds there are durations that it accepts without overflow with which some turn is late |
| WorkerGuard.GuardFailsInRangeIff | cmd/order-worker/main.go:69-73 | without overflow there are such durations if and only if there are at most nineteen rounds |
| WorkerGuard.GuardProtectsNoSizes | cmd/order-worker/main.go:69-73 | with wrapping sums there are such durations for all sizes |
| WorkerGuard.GuardUndercounts | cmd/order-worker/main.go:69-73 | with four minutes of backoff and half a minute of work the guard accepts, and some turn on one record outlasts the timeout |
| WorkerGuard.GuardOverflows | cmd/order-worker/main.go:70 | where the number of rounds overflows the guard accepts any durations |
| WorkerGuard.DefaultsFit | cmd/order-worker/main.go:35-58 | with the default sizes and durations the guard accepts, and every turn is in time |
| PipelineData.ClaimKeepsDb | internal/outbox/postgres.go:18-57 | a claim keeps the database invariant and takes nothing back |
| PipelineData.SettleKeepsDb | internal/outbox/postgres.go:59-86 | so does marking or releasing a row |
| PipelineData.CreateKeepsDb | internal/order/postgres.go:19-62 | so does creating an order: exactly one OrderCreated row describes it |
| PipelineData.CompleteKeepsDb | internal/consumer/postgres.go:34-98 | so does completing one; unless it fails the order is past PENDING afterwards |
| PipelineInvariant.CommitKeeps | internal/consumer/consumer.go:92-99 | a commit, acknowledged or not, in full or refused in part, keeps the invariant |
| PipelineInvariant.PollFailedKeeps | internal/consumer/consumer.go:67-73 | a failed fetch keeps it, whatever records it drops |
| PipelineSteps.PublishRowKeeps | internal/outbox/publisher.go:122-134 | publishing a claimed row keeps it, also when the append is not acknowledged |
| PipelineSteps.SettleRowKeeps | internal/outbox/publisher.go:124-155 | settling keeps it: no stored event is ever rejected |
| PipelineSteps.IntakeDecodes | internal/consumer/consumer.go:122-155 | every consumed record passes the structural checks and the payload check |
| PipelineSteps.ScreenIsGood | internal/consumer/consumer.go:103-117 | the screening dead-letters a record only if the last attempt's backoff and the skew exceed the int64 sum MaxBackoff+5s |
| PipelineSteps.CopyResolves | internal/consumer/consumer.go:187-229 | a published copy is the durable outcome of its source |
| PipelineSteps.CompletionEffectKeeps | internal/consumer/consumer.go:171-177 | the completion keeps the invariant, also when its reply is lost |
| PipelineSteps.ArriveKeeps | internal/consumer/consumer.go:223-227 | so does a publish, a completion or a settlement that takes effect after its caller has given up on it |
| PipelineSteps.SlotKeeps | internal/consumer/consumer.go:103-185 | every step of processRecord keeps the invariant |
| PipelineSteps.RunKeeps | internal/consumer/consumer.go:61-101 | the invariant holds in every state of every run, dropped fetches included |
| PipelineOffsets.NothingIsTakenBack | internal/outbox/postgres.go:59-100 | rows, publications, log entries and committed offsets only ever grow |
| PipelineOffsets.PassedIsResolved | internal/consumer/consumer.go:75-99 | if fetches drop nothing, everything that a commit passes over has an outcome, although the batch began at any committed offset and its slots finished in any order |
| PipelineOffsets.CommitKeepsOffsets | internal/consumer/consumer.go:92-99 | a commit, acknowledged or not, in full or refused in part, leaves an outcome for everything below the offsets |
| Handover.PollHandsOutNext | internal/consumer/consumer.go:63-80 | a poll hands out exactly the next records of a partition, one slot each |
| Handover.CommitHandsOver | internal/consumer/consumer.go:92-99 | after an acknowledged commit whoever takes the partition over begins right behind the batch |
| Handover.CrashStartsOver | internal/consumer/consumer.go:88-98 | without one, where the last commit ended |
| PipelineSafety.Chase | internal/consumer/consumer.go:187-221 | from any copy of a pending order's event one reaches an uncommitted record or the DLQ within the retry limit |
| PipelineSafety.NoOrderIsLost | internal/consumer/consumer.go:61-206 | if failed fetches carry no records, every PENDING order's OrderCreated is in an unpublished row, in a consumed record at or above the committed offset, or in the DLQ |
| PipelineSafety.CommitsAreSafe | internal/consumer/consumer.go:75-99 | if failed fetches carry no records, every record below a committed offset has an order past PENDING or a copy in the retry topic or the DLQ |
| PipelineSafety.CompletedExactlyOnce | internal/consumer/postgres.go:49-97 | an order is past PENDING if and only if it has an OrderStatusChanged row, which is its only one and says PENDING to its status; a processed event's order is past PENDING |
| PipelineSafety.FinalStatusStays | internal/consumer/postgres.go:63-75 | a final status never changes, however the run goes on |
| Origins.CompleteStepStores | internal/consumer/consumer.go:171-177 | a completion step of the machine commits the status, reason and request id that its slot holds |
| Origins.FinalStatusWasDecided | internal/consumer/consumer.go:158-177 | in every run a final status was decided by the operations on the order's own OrderCreated event, and a stored event says PENDING to it with their reason and that event's request id |
| Origins.OrdersWereOrdered | internal/order/service.go:21-44 | in every run each order has the customer, warehouse and unit total of the command of a Create step |
| PipelineSafety.PublicationIsSoundAndCausal | internal/outbox/publisher.go:104-139 | a PUBLISHED row, and the OrderCreated of an order past PENDING, has its record in its topic under its order's key |
| PipelineSafety.NoRowIsRejected | internal/outbox/publisher.go:105-120 | no row is ever FAILED, and every stored or held event passes the publisher's checks |
| PipelineSafety.ConsumedRecordsAreGenuine | internal/consumer/consumer.go:122-155 | every record of a consumed topic passes every check, and its payload says what the order's row says |
| PipelineSafety.RetriesFormChains | internal/consumer/consumer.go:187-222 | a retry record ends a chain in Kafka that begins with the published OrderCreated and in which each record is what one hop of routing made of the one before; key, value, plain headers and original topic stay, the attempt is between one and the limit, and the delay within its backoff |
| PipelineSafety.DeadLettersExhaustRetries | internal/consumer/consumer.go:103-117 | a dead letter ends such a chain of at most MaxRetries retry hops; where the delay check tolerates the skew it has attempt MaxRetries+1 after exactly MaxRetries |
| Mishaps.RecordMayBeThereTwice | internal/outbox/publisher.go:122-134 | a record that is published once, without an acknowledgement, may be in Kafka twice |
| Mishaps.OrderMayBeCompletedByNobody | internal/consumer/consumer.go:171-177 | a completion may take effect after its worker has given up on it and crashed |
| Mishaps.TwoWorkersMayHaveOneRecord | internal/consumer/consumer.go:61-80 | a worker that loses a partition in the middle of a batch and its successor may have one record in hand at the same time |
| DeadLetters.RetriesUsedUpIff | internal/consumer/consumer.go:103-117 | every dead letter of every run has attempt MaxRetries+1 if and only if the last attempt's backoff and the skew are within the int64 sum MaxBackoff+5s |
| FetchErrors.OrderOneIsLost | internal/consumer/consumer.go:67-73 | the state that a dropped fetch and a later commit lead to has lost an order |
| FetchErrors.NoOrderIsLostIff | internal/consumer/consumer.go:67-73 | no order is lost in any run if and only if failed fetches carry no records |
| FetchErrors.CommitsAreSafeIff | internal/consumer/consumer.go:67-73 | every committed record has an outcome in any run under exactly the same condition |
| RecordRuns.CompleteEnds | internal/consumer/consumer.go:171-182 | the completion part of a call is a sequence of the machine's steps |
| RecordRuns.ProcessRecordIsARun | internal/consumer/consumer.go:103-185 | every call of processRecord is a sequence of the machine's steps for its record |
| RecordRuns.CallRefinesMachine | internal/consumer/consumer.go:103-185 | within the whole system, a run of the machine leaves database, Kafka and slot as the call does, apart from requests still under way |
| RecordCalls.EndedRunIsACall | internal/consumer/consumer.go:103-185 | conversely every uninterrupted path of a slot to its end leaves database, Kafka and slot as some call does |
| OwnTurns.OwnRecordIsDue | internal/consumer/consumer.go:187-193 | in every run each consumed record is due by the last attempt's backoff and the skew |
| OwnTurns.OwnTurnEndsInTime | internal/consumer/consumer.go:61-101 | no turn on a batch that the pipeline polls takes longer than that, ceil(n/w) times Timeout+20s, and ten seconds |
| OwnTurns.OwnTurnTakes | internal/consumer/consumer.go:61-101 | some run of the pipeline polls a batch whose turn takes exactly that long |
| OwnTurns.OwnTurnFitsIff | cmd/order-worker/main.go:69-73 | where the delay check tolerates the skew, every turn of every run is within the rebalance timeout if and only if that sum is |
| OwnTurns.OwnTurnsStillFit | cmd/order-worker/main.go:69-73 | with five retries from one second on, the durations that the guard wrongly accepts for arbitrary records are safe for own ones |

## Left out

- HTTP handlers, middleware, health, metrics, logging, correlation, configuration parsing, signals and shutdown.
- The bodies of the inventory, delivery and notification operations: only their results, names and required flags matter.
- JSON, UUID and RFC 3339 texts: one injective encoding each. Request ids are therefore valid UTF-8, and the
  reformatting that a JSONB column does to a payload is invisible.
- `NUL` characters, which PostgreSQL refuses in text columns, are not refused by the model's tables.
- The 32-bit range of the `attempts` column.
- `truncate` of failure reasons and error texts in general; `last_error` is written but never read.
- Concurrency in place: goroutines of the worker pool and of the fan-in are machines on values, not classes; the
  methods `RunOnce` and `PublishAll` take the items one after another, the machines in any interleaving.
- The endless loops of `Consumer.Run` and `Publisher.Run`: one turn each as a method, all turns as steps of the machines.
- The batch size limit of a poll: the machine polls any number of records; a turn's batch keeps the limit.
- Second clock readings: an order and its event, and a completion and its event, are stamped with one reading each.
- `PendingCount`: only the time it takes.
- Floating point in `exponentialBackoff` for bases of 2^53 nanoseconds or more; below it is exact.
- The time until a wait is canceled: a canceled wait counts as no time, and so does any time within it for the bounds.
- Fairness and liveness ("eventually published"): enabledness and termination measures instead.
- That one order's events keep partition order, as the repository's README says: the two event types use different
  topics and retries relax the order, so only causality is proved.
- Store.CreatedOrderReadsBack: timestamps come back as they went in, whereas TIMESTAMPTZ keeps microseconds only.
- Leases: a publish ends when its call returns; what the broker appends after that is a step of `Pipeline`.
- OwnTurns.OwnTurnFitsIff: only where the delay check tolerates the skew. Beyond, some own retries are dead-lettered
  instead of waited for; `OwnTurnEndsInTime` bounds those turns too, but not exactly.
- RecordRuns.CallRefinesMachine: of calls whose clock readings go forward. In the machine they may go back within the
  skew, and `RecordCalls.EndedRunIsACall` covers such runs with calls whose readings do.
