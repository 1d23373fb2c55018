/**
 * The invariant of the pipeline: what is in the database and in Kafka, what is still under way, and
 * where every worker and publisher is. It holds whatever happens, dropped fetches included; what lies
 * below the committed offsets is the subject of PipelineOffsets. It is stated for any way `View` of
 * judging events and of reading records, because most steps do not depend on how that is done.
 */
module PipelineInvariant {
  import opened Prelude
  import opened Orders
  import opened Events
  import opened Records
  import opened Store
  import opened Pipeline
  import opened PipelineData
  import Backoff
  import Outbox
  import Publisher
  import Consumer

  /**
   * `ok` judges events; `attempt` and `due` read a record's routing headers; `unrouted` says that it
   * has none, `hop` that the second record is a routed copy of the first; `delay` is the backoff.
   */
  datatype View = View(
    ok: Judgement, attempt: Record -> Option<nat>, due: Record -> Option<Time>,
    unrouted: Record -> bool, hop: (Record, Record) -> bool, delay: nat -> int)

  // ---------- what is in the logs ----------

  ghost predicate LogsGrow(logs: Logs, logs': Logs) {
    forall p :: |LogOf(logs, p)| <= |LogOf(logs', p)|
                && forall i :: 0 <= i < |LogOf(logs, p)| ==> LogOf(logs', p)[i] == LogOf(logs, p)[i]
  }

  predicate IsAt(logs: Logs, p: Partition, i: nat, topic: string, key: Bytes, value: Bytes) {
    p.topic == topic && i < |LogOf(logs, p)| && LogOf(logs, p)[i].key == key && LogOf(logs, p)[i].value == value
  }

  /** Some record of the topic has this key and value. */
  ghost predicate Contains(logs: Logs, topic: string, key: Bytes, value: Bytes) {
    exists p, i: nat :: IsAt(logs, p, i, topic, key, value)
  }

  function TopicOfAttempt(c: Config, attempt: nat): string {
    if attempt == 0 then c.topics.orderCreated else c.consumer.retryTopic
  }

  predicate IsAttemptAt(c: Config, v: View, logs: Logs, p: Partition, i: nat, key: Bytes, value: Bytes, attempt: nat) {
    IsAt(logs, p, i, TopicOfAttempt(c, attempt), key, value) && v.attempt(LogOf(logs, p)[i]) == Some(attempt)
  }

  /** The original record (attempt 0) or a retry record with this attempt is in Kafka. */
  ghost predicate HasAttempt(c: Config, v: View, logs: Logs, key: Bytes, value: Bytes, attempt: nat) {
    exists p, i: nat :: IsAttemptAt(c, v, logs, p, i, key, value, attempt)
  }

  /** The record's value is the payload of an outbox row, and its key that row's order. */
  predicate Carries(db: Database, record: Record, eventType: string) {
    && record.value.EnvelopeJson?
    && var envelope := record.value.envelope;
    && IsRowOf(db, envelope.eventId, envelope.aggregateId, eventType)
    && db.outbox[envelope.eventId].payload == record.value
    && record.key == UuidText(envelope.aggregateId)
  }

  /** `record` is a routed copy of the record at this place, which has this attempt. */
  predicate IsSourceAt(c: Config, v: View, logs: Logs, p: Partition, i: nat, record: Record, attempt: nat) {
    IsAttemptAt(c, v, logs, p, i, record.key, record.value, attempt) && v.hop(LogOf(logs, p)[i], record)
  }

  ghost predicate HasSource(c: Config, v: View, logs: Logs, record: Record, attempt: nat) {
    exists p, i: nat :: IsSourceAt(c, v, logs, p, i, record, attempt)
  }

  /** A dead letter's source; with tolerable clocks its retries are used up. */
  ghost predicate HasLastSource(c: Config, v: View, logs: Logs, record: Record) {
    exists attempt: nat :: LastAttempt(c, v, record, attempt) && HasSource(c, v, logs, record, attempt)
  }

  predicate LastAttempt(c: Config, v: View, record: Record, attempt: nat) {
    && attempt <= c.consumer.maxRetries
    && (SkewTolerated(c) ==> attempt == c.consumer.maxRetries && v.attempt(record) == Some(attempt + 1))
  }

  /** The attempt is within the limit, and the record is due within that attempt's backoff. */
  predicate RetryFields(c: Config, v: View, clock: Time, record: Record) {
    && v.attempt(record).Some? && 1 <= v.attempt(record).value <= c.consumer.maxRetries
    && v.due(record).Some? && v.due(record).value <= clock + c.skew + v.delay(v.attempt(record).value)
  }

  /** The backoff of an attempt; a function of any configuration. */
  function DelayOf(c: Consumer.Config, attempt: nat): (d: int)
    ensures Consumer.ValidConfig(c) ==> 0 < d <= c.maxBackoff
  {
    if Consumer.ValidConfig(c) then Backoff.Delay(attempt, c.baseBackoff, c.maxBackoff) else 0
  }

  /** No own record is ever due too late for the delay check. */
  predicate SkewTolerated(c: Config) {
    c.skew + DelayOf(c.consumer, c.consumer.maxRetries) <= Consumer.Tolerance(c.consumer)
  }

  ghost predicate RecordGood(c: Config, v: View, db: Database, logs: Logs, clock: Time, topic: string, record: Record) {
    && record.topic == topic
    && (if topic == c.topics.orderStatusChanged then Carries(db, record, ORDER_STATUS_CHANGED)
        else
          && Carries(db, record, ORDER_CREATED)
          && if topic == c.topics.orderCreated then
               v.attempt(record) == Some(0) && v.due(record) == Some(ZERO_TIME) && v.unrouted(record)
             else
               && Contains(logs, c.topics.orderCreated, record.key, record.value)
               && if topic == c.consumer.retryTopic then
                    RetryFields(c, v, clock, record) && HasSource(c, v, logs, record, v.attempt(record).value - 1)
                  else
                    topic == c.consumer.dlqTopic && HasLastSource(c, v, logs, record))
  }

  ghost predicate GoodAt(c: Config, v: View, db: Database, logs: Logs, clock: Time, p: Partition, i: nat) {
    i < |LogOf(logs, p)| ==> RecordGood(c, v, db, logs, clock, p.topic, LogOf(logs, p)[i])
  }

  ghost predicate LogsGood(c: Config, v: View, db: Database, logs: Logs, clock: Time) {
    forall p, i: nat :: GoodAt(c, v, db, logs, clock, p, i)
  }

  /** Durable outcome of a consumed record: its order is done, or a later copy of it exists. */
  ghost predicate Resolved(c: Config, v: View, db: Database, logs: Logs, record: Record) {
    || (record.value.EnvelopeJson? && IsDone(db, record.value.envelope.aggregateId))
    || Contains(logs, c.consumer.dlqTopic, record.key, record.value)
    || (v.attempt(record).Some? && HasAttempt(c, v, logs, record.key, record.value, v.attempt(record).value + 1))
  }

  ghost predicate CommitsBounded(c: Config, logs: Logs, committed: map<Partition, nat>) {
    forall p :: p in committed ==> Consumed(c, p.topic) && committed[p] <= |LogOf(logs, p)|
  }

  // ---------- the publishers ----------

  /** The event is in its type's topic, under its order's key. */
  ghost predicate Delivered(c: Config, logs: Logs, eventType: string, aggregateId: Uuid, payload: Bytes) {
    && Publisher.TopicFor(c.topics, eventType).Some?
    && Contains(logs, Publisher.TopicFor(c.topics, eventType).value, UuidText(aggregateId), payload)
  }

  ghost predicate TasksGood(c: Config, db: Database, logs: Logs, tasks: map<TaskId, Task>) {
    forall id :: id in tasks ==>
      && id.row in db.outbox && tasks[id].claimed.(attempts := 0) == Identity(db.outbox[id.row])
      && (tasks[id].Sent? ==>
          Delivered(c, logs, tasks[id].claimed.eventType, tasks[id].claimed.aggregateId, tasks[id].claimed.payload))
  }

  ghost predicate PublishedDelivered(c: Config, db: Database, logs: Logs) {
    forall id :: id in db.outbox && db.outbox[id].status.RowPublished? ==>
      Delivered(c, logs, db.outbox[id].eventType, db.outbox[id].aggregateId, db.outbox[id].payload)
  }

  /** Causality: an order is done only after its OrderCreated has reached Kafka. */
  ghost predicate DoneAfterCreated(c: Config, db: Database, logs: Logs) {
    forall id ::
      id in db.outbox && db.outbox[id].eventType == ORDER_CREATED && IsDone(db, db.outbox[id].aggregateId) ==>
      Contains(logs, c.topics.orderCreated, UuidText(db.outbox[id].aggregateId), db.outbox[id].payload)
  }

  // ---------- the workers ----------

  /** A copy that is about to be published for `record`. */
  predicate CopyGood(c: Config, v: View, clock: Time, record: Record, copy: Record) {
    && copy.key == record.key && copy.value == record.value && v.hop(record, copy) && v.attempt(record).Some?
    && (|| (copy.topic == c.consumer.retryTopic && RetryFields(c, v, clock, copy)
            && v.attempt(record).value == v.attempt(copy).value - 1)
        || (copy.topic == c.consumer.dlqTopic && LastAttempt(c, v, copy, v.attempt(record).value)))
  }

  predicate AttemptKnown(c: Config, v: View, record: Record, attempt: nat) {
    v.attempt(record) == Some(attempt) && attempt <= c.consumer.maxRetries
  }

  ghost predicate SlotGood(c: Config, v: View, db: Database, logs: Logs, clock: Time, record: Record, pc: Pc) {
    match pc
    case Fetched => true
    case Waiting(attempt, _) => AttemptKnown(c, v, record, attempt)
    case Checking(attempt, envelope) => AttemptKnown(c, v, record, attempt) && record.value == EnvelopeJson(envelope)
    case Processing(attempt, envelope) => AttemptKnown(c, v, record, attempt) && record.value == EnvelopeJson(envelope)
    case Completing(attempt, envelope, status, _) =>
      AttemptKnown(c, v, record, attempt) && record.value == EnvelopeJson(envelope) && status != Pending
    case Routing(copy) => CopyGood(c, v, clock, record, copy)
    case Handled => Resolved(c, v, db, logs, record)
    case Errored => true
  }

  ghost predicate SlotsGood(c: Config, v: View, db: Database, logs: Logs, clock: Time, batch: Batch) {
    forall ref :: ref in batch.slots ==>
      && Consumed(c, ref.partition.topic) && ref.offset < |LogOf(logs, ref.partition)|
      && SlotGood(c, v, db, logs, clock, LogOf(logs, ref.partition)[ref.offset], batch.slots[ref])
  }

  /** A worker reads at or above the committed offsets, and a batch ends where it goes on reading. */
  ghost predicate PositionsGood(c: Config, logs: Logs, committed: map<Partition, nat>, w: Worker) {
    forall p :: p in w.position ==>
      && Consumed(c, p.topic) && Committed(committed, p) <= w.position[p] <= |LogOf(logs, p)|
      && (w.batch.Some? && p in w.batch.value.upto ==> w.position[p] == w.batch.value.upto[p])
  }

  /** The offsets that a batch would commit lie within the logs of consumed topics. */
  ghost predicate UptoGood(c: Config, logs: Logs, batch: Batch) {
    forall p :: p in batch.upto ==> Consumed(c, p.topic) && batch.upto[p] <= |LogOf(logs, p)|
  }

  ghost predicate WorkerGood(c: Config, v: View, db: Database, logs: Logs, clock: Time,
        committed: map<Partition, nat>, w: Worker)
  {
    && PositionsGood(c, logs, committed, w)
    && (w.batch.Some? ==> SlotsGood(c, v, db, logs, clock, w.batch.value) && UptoGood(c, logs, w.batch.value))
  }

  ghost predicate WorkersGood(c: Config, v: View, db: Database, logs: Logs, clock: Time,
        committed: map<Partition, nat>, workers: map<string, Worker>)
  {
    forall w :: w in workers ==> WorkerGood(c, v, db, logs, clock, committed, workers[w])
  }

  /** No partition has two owners. */
  predicate OwnersDisjoint(workers: map<string, Worker>) {
    forall w, w', p ::
      w in workers && w' in workers && p in workers[w].position && p in workers[w'].position ==> w == w'
  }

  // ---------- requests that are still under way ----------

  /** The completion of the consumed event `envelope`, which has reached Kafka. */
  ghost predicate CompletesEvent(c: Config, db: Database, logs: Logs, done: Completion, envelope: Envelope) {
    && IsCreatedEvent(db, envelope) && db.outbox[envelope.eventId].aggregateId == envelope.aggregateId
    && done.eventId == envelope.eventId && done.orderId == envelope.aggregateId && done.status != Pending
    && Contains(logs, c.topics.orderCreated, UuidText(envelope.aggregateId), EnvelopeJson(envelope))
  }

  /** A row is marked PUBLISHED only after its event was delivered, and never rejected. */
  ghost predicate SettlementGood(c: Config, db: Database, logs: Logs, id: Uuid, how: Outbox.Settlement) {
    && id in db.outbox && !how.Reject?
    && (how.Publish? ==> Delivered(c, logs, db.outbox[id].eventType, db.outbox[id].aggregateId, db.outbox[id].payload))
  }

  ghost predicate LateGood(c: Config, v: View, db: Database, logs: Logs, clock: Time, request: Late) {
    match request
    case LateRecord(record) => RecordGood(c, v, db, logs, clock, record.topic, record)
    case LateCompletion(done) => exists envelope :: CompletesEvent(c, db, logs, done, envelope)
    case LateSettlement(task, how) => SettlementGood(c, db, logs, task.row, how)
  }

  ghost predicate LatesGood(c: Config, v: View, db: Database, logs: Logs, clock: Time, late: set<Late>) {
    forall request :: request in late ==> LateGood(c, v, db, logs, clock, request)
  }

  ghost predicate Inv(c: Config, v: View, s: System) {
    && DbInv(v.ok, s.db)
    && LogsGood(c, v, s.db, s.logs, s.clock)
    && CommitsBounded(c, s.logs, s.committed)
    && TasksGood(c, s.db, s.logs, s.tasks)
    && PublishedDelivered(c, s.db, s.logs)
    && DoneAfterCreated(c, s.db, s.logs)
    && WorkersGood(c, v, s.db, s.logs, s.clock, s.committed, s.workers)
    && OwnersDisjoint(s.workers)
    && LatesGood(c, v, s.db, s.logs, s.clock, s.late)
  }

  // ---------- growth keeps what has been established ----------

  lemma ContainsStable(logs: Logs, logs': Logs, topic: string, key: Bytes, value: Bytes)
    requires LogsGrow(logs, logs') && Contains(logs, topic, key, value)
    ensures Contains(logs', topic, key, value)
  {
    var p, i: nat :| IsAt(logs, p, i, topic, key, value);
    assert IsAt(logs', p, i, topic, key, value);
  }

  lemma HasAttemptStable(c: Config, v: View, logs: Logs, logs': Logs, key: Bytes, value: Bytes, attempt: nat)
    requires LogsGrow(logs, logs') && HasAttempt(c, v, logs, key, value, attempt)
    ensures HasAttempt(c, v, logs', key, value, attempt)
  {
    var p, i: nat :| IsAttemptAt(c, v, logs, p, i, key, value, attempt);
    assert IsAttemptAt(c, v, logs', p, i, key, value, attempt);
  }

  lemma HasSourceStable(c: Config, v: View, logs: Logs, logs': Logs, record: Record, attempt: nat)
    requires LogsGrow(logs, logs') && HasSource(c, v, logs, record, attempt)
    ensures HasSource(c, v, logs', record, attempt)
  {
    var p, i: nat :| IsSourceAt(c, v, logs, p, i, record, attempt);
    assert IsSourceAt(c, v, logs', p, i, record, attempt);
  }

  lemma HasLastSourceStable(c: Config, v: View, logs: Logs, logs': Logs, record: Record)
    requires LogsGrow(logs, logs') && HasLastSource(c, v, logs, record)
    ensures HasLastSource(c, v, logs', record)
  {
    var attempt: nat :| LastAttempt(c, v, record, attempt) && HasSource(c, v, logs, record, attempt);
    HasSourceStable(c, v, logs, logs', record, attempt);
  }

  lemma CarriesStable(db: Database, db': Database, record: Record, eventType: string)
    requires DbGrows(db, db') && Carries(db, record, eventType)
    ensures Carries(db', record, eventType)
  {
  }

  lemma RecordGoodStable(c: Config, v: View, db: Database, db': Database, logs: Logs, logs': Logs,
        clock: Time, clock': Time, topic: string, record: Record)
    requires DbGrows(db, db') && LogsGrow(logs, logs') && clock <= clock'
    requires RecordGood(c, v, db, logs, clock, topic, record)
    ensures RecordGood(c, v, db', logs', clock', topic, record)
  {
    if topic == c.topics.orderStatusChanged {
      CarriesStable(db, db', record, ORDER_STATUS_CHANGED);
    } else {
      CarriesStable(db, db', record, ORDER_CREATED);
      if topic != c.topics.orderCreated {
        ContainsStable(logs, logs', c.topics.orderCreated, record.key, record.value);
        if topic == c.consumer.retryTopic {
          HasSourceStable(c, v, logs, logs', record, v.attempt(record).value - 1);
        } else {
          HasLastSourceStable(c, v, logs, logs', record);
        }
      }
    }
  }

  lemma ResolvedStable(c: Config, v: View, db: Database, db': Database, logs: Logs, logs': Logs, record: Record)
    requires DbGrows(db, db') && LogsGrow(logs, logs') && Resolved(c, v, db, logs, record)
    ensures Resolved(c, v, db', logs', record)
  {
    if !(record.value.EnvelopeJson? && IsDone(db, record.value.envelope.aggregateId)) {
      if Contains(logs, c.consumer.dlqTopic, record.key, record.value) {
        ContainsStable(logs, logs', c.consumer.dlqTopic, record.key, record.value);
      } else {
        HasAttemptStable(c, v, logs, logs', record.key, record.value, v.attempt(record).value + 1);
      }
    }
  }

  lemma DeliveredStable(c: Config, logs: Logs, logs': Logs, eventType: string, aggregateId: Uuid, payload: Bytes)
    requires LogsGrow(logs, logs') && Delivered(c, logs, eventType, aggregateId, payload)
    ensures Delivered(c, logs', eventType, aggregateId, payload)
  {
    ContainsStable(logs, logs', Publisher.TopicFor(c.topics, eventType).value, UuidText(aggregateId), payload);
  }

  lemma SlotGoodStable(c: Config, v: View, db: Database, db': Database, logs: Logs, logs': Logs, clock: Time,
        clock': Time, record: Record, pc: Pc)
    requires DbGrows(db, db') && LogsGrow(logs, logs') && clock <= clock'
    requires SlotGood(c, v, db, logs, clock, record, pc)
    ensures SlotGood(c, v, db', logs', clock', record, pc)
  {
    if pc.Handled? {
      ResolvedStable(c, v, db, db', logs, logs', record);
    }
  }

  lemma WorkersStable(c: Config, v: View, s: System, s': System)
    requires DbGrows(s.db, s'.db) && LogsGrow(s.logs, s'.logs) && s.clock <= s'.clock && s'.committed == s.committed
    requires WorkersGood(c, v, s.db, s.logs, s.clock, s.committed, s.workers)
    ensures WorkersGood(c, v, s'.db, s'.logs, s'.clock, s'.committed, s.workers)
  {
    forall w | w in s.workers ensures WorkerGood(c, v, s'.db, s'.logs, s'.clock, s'.committed, s.workers[w]) {
      WorkerStable(c, v, s, s', s.workers[w]);
    }
  }

  lemma WorkerStable(c: Config, v: View, s: System, s': System, w: Worker)
    requires DbGrows(s.db, s'.db) && LogsGrow(s.logs, s'.logs) && s.clock <= s'.clock && s'.committed == s.committed
    requires WorkerGood(c, v, s.db, s.logs, s.clock, s.committed, w)
    ensures WorkerGood(c, v, s'.db, s'.logs, s'.clock, s'.committed, w)
  {
    PositionsStable(c, s.logs, s'.logs, s.committed, w);
    if w.batch.Some? {
      SlotsStable(c, v, s, s', w.batch.value);
    }
  }

  lemma PositionsStable(c: Config, logs: Logs, logs': Logs, committed: map<Partition, nat>, w: Worker)
    requires LogsGrow(logs, logs') && PositionsGood(c, logs, committed, w)
    ensures PositionsGood(c, logs', committed, w)
  {
  }

  lemma SlotsStable(c: Config, v: View, s: System, s': System, batch: Batch)
    requires DbGrows(s.db, s'.db) && LogsGrow(s.logs, s'.logs) && s.clock <= s'.clock
    requires SlotsGood(c, v, s.db, s.logs, s.clock, batch) && UptoGood(c, s.logs, batch)
    ensures SlotsGood(c, v, s'.db, s'.logs, s'.clock, batch) && UptoGood(c, s'.logs, batch)
  {
    forall ref | ref in batch.slots
      ensures ref.offset < |LogOf(s'.logs, ref.partition)|
      ensures SlotGood(c, v, s'.db, s'.logs, s'.clock, LogOf(s'.logs, ref.partition)[ref.offset], batch.slots[ref])
    {
      SlotGoodStable(c, v, s.db, s'.db, s.logs, s'.logs, s.clock, s'.clock, LogOf(s.logs, ref.partition)[ref.offset],
                     batch.slots[ref]);
    }
  }

  lemma LateStable(c: Config, v: View, s: System, s': System, request: Late)
    requires DbGrows(s.db, s'.db) && LogsGrow(s.logs, s'.logs) && s.clock <= s'.clock
    requires LateGood(c, v, s.db, s.logs, s.clock, request)
    ensures LateGood(c, v, s'.db, s'.logs, s'.clock, request)
  {
    match request
    case LateRecord(record) =>
      RecordGoodStable(c, v, s.db, s'.db, s.logs, s'.logs, s.clock, s'.clock, record.topic, record);
    case LateCompletion(done) =>
      var envelope :| CompletesEvent(c, s.db, s.logs, done, envelope);
      ContainsStable(s.logs, s'.logs, c.topics.orderCreated, UuidText(envelope.aggregateId), EnvelopeJson(envelope));
      assert CompletesEvent(c, s'.db, s'.logs, done, envelope);
    case LateSettlement(task, how) =>
      if how.Publish? {
        var row := s.db.outbox[task.row];
        DeliveredStable(c, s.logs, s'.logs, row.eventType, row.aggregateId, row.payload);
      }
  }

  lemma LatesStable(c: Config, v: View, s: System, s': System)
    requires DbGrows(s.db, s'.db) && LogsGrow(s.logs, s'.logs) && s.clock <= s'.clock
    requires LatesGood(c, v, s.db, s.logs, s.clock, s.late)
    ensures LatesGood(c, v, s'.db, s'.logs, s'.clock, s.late)
  {
    forall request | request in s.late ensures LateGood(c, v, s'.db, s'.logs, s'.clock, request) {
      LateStable(c, v, s, s', request);
    }
  }

  lemma LogsStable(c: Config, v: View, s: System, s': System)
    requires DbGrows(s.db, s'.db) && s'.logs == s.logs && s.clock <= s'.clock
    requires LogsGood(c, v, s.db, s.logs, s.clock)
    ensures LogsGood(c, v, s'.db, s'.logs, s'.clock)
  {
    forall p, i: nat ensures GoodAt(c, v, s'.db, s.logs, s'.clock, p, i) {
      assert GoodAt(c, v, s.db, s.logs, s.clock, p, i);
      if i < |LogOf(s.logs, p)| {
        RecordGoodStable(c, v, s.db, s'.db, s.logs, s.logs, s.clock, s'.clock, p.topic, LogOf(s.logs, p)[i]);
      }
    }
  }

  /** Appending one good record: the logs grow and stay good, and the record is there. */
  lemma AppendGrows(logs: Logs, p: Partition, record: Record)
    ensures LogsGrow(logs, Append(logs, p, record))
    ensures IsAt(Append(logs, p, record), p, |LogOf(logs, p)|, p.topic, record.key, record.value)
    ensures LogOf(Append(logs, p, record), p)[|LogOf(logs, p)|] == record
    ensures forall q, i :: 0 <= i < |LogOf(Append(logs, p, record), q)| ==>
              (i < |LogOf(logs, q)| && LogOf(Append(logs, p, record), q)[i] == LogOf(logs, q)[i])
              || (q == p && LogOf(Append(logs, p, record), q)[i] == record)
  {
  }

  lemma AppendKeepsLogs(c: Config, v: View, db: Database, logs: Logs, clock: Time, p: Partition, record: Record)
    requires LogsGood(c, v, db, logs, clock) && RecordGood(c, v, db, logs, clock, p.topic, record)
    ensures LogsGood(c, v, db, Append(logs, p, record), clock)
  {
    var logs' := Append(logs, p, record);
    AppendGrows(logs, p, record);
    SameDbGrows(db);
    forall q, i: nat ensures GoodAt(c, v, db, logs', clock, q, i) {
      assert GoodAt(c, v, db, logs, clock, q, i);
      if i < |LogOf(logs', q)| {
        RecordGoodStable(c, v, db, db, logs, logs', clock, clock, q.topic, LogOf(logs', q)[i]);
      }
    }
  }

  lemma PublishersStable(c: Config, db: Database, logs: Logs, logs': Logs, tasks: map<TaskId, Task>)
    requires LogsGrow(logs, logs')
    requires TasksGood(c, db, logs, tasks) && PublishedDelivered(c, db, logs) && DoneAfterCreated(c, db, logs)
    ensures TasksGood(c, db, logs', tasks) && PublishedDelivered(c, db, logs') && DoneAfterCreated(c, db, logs')
  {
    forall id | id in tasks && tasks[id].Sent?
      ensures Delivered(c, logs', tasks[id].claimed.eventType, tasks[id].claimed.aggregateId, tasks[id].claimed.payload)
    {
      DeliveredStable(c, logs, logs', tasks[id].claimed.eventType, tasks[id].claimed.aggregateId,
                      tasks[id].claimed.payload);
    }
    forall id | id in db.outbox && db.outbox[id].status.RowPublished?
      ensures Delivered(c, logs', db.outbox[id].eventType, db.outbox[id].aggregateId, db.outbox[id].payload)
    {
      DeliveredStable(c, logs, logs', db.outbox[id].eventType, db.outbox[id].aggregateId, db.outbox[id].payload);
    }
    forall id | id in db.outbox && db.outbox[id].eventType == ORDER_CREATED && IsDone(db, db.outbox[id].aggregateId)
      ensures Contains(logs', c.topics.orderCreated, UuidText(db.outbox[id].aggregateId), db.outbox[id].payload)
    {
      ContainsStable(logs, logs', c.topics.orderCreated, UuidText(db.outbox[id].aggregateId), db.outbox[id].payload);
    }
  }

  // ---------- steps, by the part of the state they change ----------

  /** A step of the database alone. */
  lemma DbStepKeeps(c: Config, v: View, s: System, db': Database)
    requires Inv(c, v, s) && DbInv(v.ok, db') && DbGrows(s.db, db')
    requires PublishedDelivered(c, db', s.logs) && DoneAfterCreated(c, db', s.logs)
    ensures Inv(c, v, s.(db := db'))
  {
    var s' := s.(db := db');
    SameLogsGrow(s.logs);
    LogsStable(c, v, s, s');
    LatesStable(c, v, s, s');
    WorkersStable(c, v, s, s');
  }

  lemma SameLogsGrow(logs: Logs)
    ensures LogsGrow(logs, logs)
  {
  }

  /** Publishing one good record. */
  lemma LogStepKeeps(c: Config, v: View, s: System, p: Partition, record: Record)
    requires Inv(c, v, s) && RecordGood(c, v, s.db, s.logs, s.clock, p.topic, record)
    ensures Inv(c, v, s.(logs := Append(s.logs, p, record)))
  {
    var s' := s.(logs := Append(s.logs, p, record));
    AppendGrows(s.logs, p, record);
    SameDbGrows(s.db);
    AppendKeepsLogs(c, v, s.db, s.logs, s.clock, p, record);
    LatesStable(c, v, s, s');
    WorkersStable(c, v, s, s');
    PublishersStable(c, s.db, s.logs, s'.logs, s.tasks);
  }

  lemma TickKeeps(c: Config, v: View, s: System, to: Time)
    requires Inv(c, v, s) && s.clock <= to
    ensures Inv(c, v, s.(clock := to))
  {
    var s' := s.(clock := to);
    SameLogsGrow(s.logs);
    SameDbGrows(s.db);
    LogsStable(c, v, s, s');
    LatesStable(c, v, s, s');
    WorkersStable(c, v, s, s');
  }

  /** One more request under way. */
  lemma LateStepKeeps(c: Config, v: View, s: System, request: Late, answered: bool)
    requires Inv(c, v, s) && (!answered ==> LateGood(c, v, s.db, s.logs, s.clock, request))
    ensures Inv(c, v, StillUnderWay(s, request, answered))
  {
  }

  /** Replacing or adding one worker that is good and owns nobody else's partitions. */
  lemma WorkerStepKeeps(c: Config, v: View, s: System, w: string, worker: Worker)
    requires Inv(c, v, s) && WorkerGood(c, v, s.db, s.logs, s.clock, s.committed, worker)
    requires forall o, p :: o in s.workers && o != w && p in worker.position ==> p !in s.workers[o].position
    ensures Inv(c, v, SetWorker(s, w, worker))
  {
  }

  lemma DropWorkerKeeps(c: Config, v: View, s: System, w: string)
    requires Inv(c, v, s)
    ensures Inv(c, v, s.(workers := Drop(s.workers, w)))
  {
  }

  // ---------- polling and committing ----------

  lemma PollKeeps(c: Config, v: View, s: System, w: string, take: map<Partition, nat>)
    requires Inv(c, v, s) && CanPoll(s, w, take)
    ensures Inv(c, v, DoPoll(s, w, take))
  {
    assert WorkerGood(c, v, s.db, s.logs, s.clock, s.committed, s.workers[w]);
    PolledSlotsGood(c, v, s, s.workers[w].position, take);
    WorkerStepKeeps(c, v, s, w, DoPoll(s, w, take).workers[w]);
  }

  lemma PolledSlotsGood(c: Config, v: View, s: System, position: map<Partition, nat>, take: map<Partition, nat>)
    requires forall p :: p in take ==>
               p in position && position[p] + take[p] <= |LogOf(s.logs, p)| && Consumed(c, p.topic)
    ensures SlotsGood(c, v, s.db, s.logs, s.clock, NewBatch(position, take))
    ensures UptoGood(c, s.logs, NewBatch(position, take))
  {
  }

  /** A failed fetch moves the position on, whatever it drops. */
  lemma PollFailedKeeps(c: Config, v: View, s: System, w: string, dropped: map<Partition, nat>)
    requires Inv(c, v, s) && CanPollFailed(c, s, w, dropped)
    ensures Inv(c, v, DoPollFailed(c, s, w, dropped))
  {
    assert WorkerGood(c, v, s.db, s.logs, s.clock, s.committed, s.workers[w]);
    WorkerStepKeeps(c, v, s, w, DoPollFailed(c, s, w, dropped).workers[w]);
  }

  lemma AssignKeeps(c: Config, v: View, s: System, w: string, p: Partition)
    requires Inv(c, v, s) && CanAssign(c, s, w, p)
    ensures Inv(c, v, DoAssign(c, s, w, p))
  {
    var worker := s.workers[w].(position := s.workers[w].position[p := Committed(s.committed, p)]);
    assert WorkerGood(c, v, s.db, s.logs, s.clock, s.committed, s.workers[w]);
    assert WorkerGood(c, v, s.db, s.logs, s.clock, s.committed, worker);
    WorkerStepKeeps(c, v, s, w, worker);
  }

  lemma RevokeKeeps(c: Config, v: View, s: System, w: string, p: Partition)
    requires Inv(c, v, s) && CanRevoke(s, w, p)
    ensures Inv(c, v, DoRevoke(s, w, p))
  {
    var worker := s.workers[w].(position := Drop(s.workers[w].position, p));
    assert WorkerGood(c, v, s.db, s.logs, s.clock, s.committed, s.workers[w]);
    assert WorkerGood(c, v, s.db, s.logs, s.clock, s.committed, worker);
    WorkerStepKeeps(c, v, s, w, worker);
  }

  /** The committing worker's own positions are where its batch ends, and nobody else owns its partitions. */
  lemma CommitMovesOnlyOwn(c: Config, s: System, w: string, accepted: set<Partition>)
    requires OwnersDisjoint(s.workers) && HasBatch(s, w)
    requires accepted <= s.workers[w].batch.value.upto.Keys && accepted <= s.workers[w].position.Keys
    ensures forall o, p :: o in s.workers && o != w && p in s.workers[o].position ==>
              Committed(AfterCommit(s.committed, s.workers[w].batch.value, accepted), p) == Committed(s.committed, p)
  {
  }

  lemma PositionsAfterCommit(c: Config, logs: Logs, committed: map<Partition, nat>, worker: Worker,
        accepted: set<Partition>)
    requires PositionsGood(c, logs, committed, worker) && worker.batch.Some?
    requires accepted <= worker.batch.value.upto.Keys && accepted <= worker.position.Keys
    ensures PositionsGood(c, logs, AfterCommit(committed, worker.batch.value, accepted), worker.(batch := None))
  {
  }

  /** Committing, seen without the committing worker. */
  lemma CommittedKeeps(c: Config, v: View, s: System, w: string, committed': map<Partition, nat>)
    requires Inv(c, v, s) && CommitsBounded(c, s.logs, committed')
    requires forall o, p :: o in s.workers && o != w && p in s.workers[o].position ==>
               Committed(committed', p) == Committed(s.committed, p)
    ensures Inv(c, v, s.(committed := committed', workers := Drop(s.workers, w)))
  {
    forall o | o in s.workers && o != w ensures WorkerGood(c, v, s.db, s.logs, s.clock, committed', s.workers[o]) {
      assert WorkerGood(c, v, s.db, s.logs, s.clock, s.committed, s.workers[o]);
    }
  }

  /** A commit whose reply is lost ends the worker. */
  lemma CommitLostKeeps(c: Config, v: View, s: System, w: string, accepted: set<Partition>)
    requires Inv(c, v, s) && CanCommit(s, w, accepted, false)
    ensures Inv(c, v, DoCommit(s, w, accepted, false))
  {
    assert WorkerGood(c, v, s.db, s.logs, s.clock, s.committed, s.workers[w]);
    CommitMovesOnlyOwn(c, s, w, accepted);
    CommittedKeeps(c, v, s, w, AfterCommit(s.committed, s.workers[w].batch.value, accepted));
  }

  /** The worker comes back with the partitions it had. */
  lemma ComebackKeeps(c: Config, v: View, s: System, w: string, committed': map<Partition, nat>, worker: Worker)
    requires Inv(c, v, s.(committed := committed', workers := Drop(s.workers, w)))
    requires OwnersDisjoint(s.workers) && w in s.workers && worker.position == s.workers[w].position
    requires WorkerGood(c, v, s.db, s.logs, s.clock, committed', worker)
    ensures Inv(c, v, SetWorker(s.(committed := committed'), w, worker))
  {
    var workers' := s.workers[w := worker];
    forall o | o in workers' ensures WorkerGood(c, v, s.db, s.logs, s.clock, committed', workers'[o]) {
      assert o != w ==> o in Drop(s.workers, w);
    }
    SamePositionsDisjoint(s.workers, workers');
  }

  lemma SamePositionsDisjoint(workers: map<string, Worker>, workers': map<string, Worker>)
    requires OwnersDisjoint(workers) && workers'.Keys <= workers.Keys
    requires forall o :: o in workers' ==> workers'[o].position == workers[o].position
    ensures OwnersDisjoint(workers')
  {
  }

  lemma CommitKeeps(c: Config, v: View, s: System, w: string, accepted: set<Partition>, acknowledged: bool)
    requires Inv(c, v, s) && CanCommit(s, w, accepted, acknowledged)
    ensures Inv(c, v, DoCommit(s, w, accepted, acknowledged))
  {
    CommitLostKeeps(c, v, s, w, accepted);
    if acknowledged {
      var worker := s.workers[w];
      assert WorkerGood(c, v, s.db, s.logs, s.clock, s.committed, worker);
      PositionsAfterCommit(c, s.logs, s.committed, worker, accepted);
      ComebackKeeps(c, v, s, w, AfterCommit(s.committed, worker.batch.value, accepted), worker.(batch := None));
    }
  }
}
