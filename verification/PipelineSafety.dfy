/**
 * What the pipeline guarantees in every reachable state: no order is lost, commits are safe,
 * completion happens exactly once, publication is sound and causal, every event is valid from end to
 * end, and retries form finite chains.
 */
module PipelineSafety {
  import opened Prelude
  import opened Orders
  import opened Events
  import opened Records
  import opened Store
  import opened Pipeline
  import opened PipelineData
  import opened PipelineInvariant
  import opened PipelineSteps
  import opened PipelineOffsets
  import Backoff
  import Outbox
  import Publisher
  import Consumer

  ghost predicate Reachable(c: Config, s: System)
    requires ValidConfig(c)
  {
    exists clock: nat, steps :: s == Run(c, Initial(clock), steps)
  }

  lemma ReachableInv(c: Config, s: System)
    requires ValidConfig(c) && Reachable(c, s)
    ensures SystemInv(c, s)
  {
    var clock: nat, steps :| s == Run(c, Initial(clock), steps);
    RunKeeps(c, clock, steps);
  }

  lemma ReachableOffsets(c: Config, s: System)
    requires ValidConfig(c) && Reachable(c, s) && !c.fetchErrorsCarryRecords
    ensures SystemInv(c, s) && OffsetsGood(c, RealView(c), s)
  {
    var clock: nat, steps :| s == Run(c, Initial(clock), steps);
    RunKeeps(c, clock, steps);
    RunKeepsOffsets(c, clock, steps);
  }

  // ---------- no order is lost ----------

  /** A record with this key and value at or above its partition's committed offset. */
  predicate IsUncommittedAt(c: Config, s: System, p: Partition, i: nat, key: Bytes, value: Bytes) {
    && Consumed(c, p.topic) && Committed(s.committed, p) <= i < |LogOf(s.logs, p)|
    && LogOf(s.logs, p)[i].key == key && LogOf(s.logs, p)[i].value == value
  }

  ghost predicate Uncommitted(c: Config, s: System, key: Bytes, value: Bytes) {
    exists p, i: nat :: IsUncommittedAt(c, s, p, i, key, value)
  }

  predicate Unpublished(row: Outbox.Row) {
    row.status == Outbox.RowPending || row.status == Outbox.RowProcessing
  }

  /** The row's event still waits in the outbox, in a consumed topic, or in the DLQ. */
  ghost predicate EventSafe(c: Config, s: System, row: Outbox.Row) {
    || Unpublished(row)
    || Uncommitted(c, s, UuidText(row.aggregateId), row.payload)
    || Contains(s.logs, c.consumer.dlqTopic, UuidText(row.aggregateId), row.payload)
  }

  /** Every PENDING order has its OrderCreated event in one of these places. */
  ghost predicate NoOrderLost(c: Config, s: System) {
    forall o :: o in s.db.orders && s.db.orders[o].status == Pending ==>
      exists id :: IsRowOf(s.db, id, o, ORDER_CREATED) && EventSafe(c, s, s.db.outbox[id])
  }

  /**
   * The chase: a copy with attempt `attempt` is uncommitted, or it was passed over because a copy with
   * the next attempt, a DLQ record or a finished order exists; attempts are bounded, so this ends.
   */
  lemma {:induction false} Chase(c: Config, s: System, row: Outbox.Row, attempt: nat)
    requires ValidConfig(c) && SystemInv(c, s) && OffsetsGood(c, RealView(c), s) && !IsDone(s.db, row.aggregateId)
    requires attempt <= c.consumer.maxRetries
    requires HasAttempt(c, RealView(c), s.logs, UuidText(row.aggregateId), row.payload, attempt)
    ensures EventSafe(c, s, row)
    decreases c.consumer.maxRetries - attempt
  {
    var v, key, value := RealView(c), UuidText(row.aggregateId), row.payload;
    var p, i: nat :| IsAttemptAt(c, v, s.logs, p, i, key, value, attempt);
    if Committed(s.committed, p) <= i {
      assert IsUncommittedAt(c, s, p, i, key, value);
    } else if !Contains(s.logs, c.consumer.dlqTopic, key, value) {
      PassedOver(c, v, s.db, s.logs, s.clock, s.committed, p, i, row.aggregateId);
      AttemptInLimit(c, v, s.db, s.logs, s.clock, key, value, attempt + 1);
      Chase(c, s, row, attempt + 1);
    }
  }

  /** A committed record whose order is not done has a later copy. */
  lemma PassedOver(c: Config, v: View, db: Database, logs: Logs, clock: Time, committed: map<Partition, nat>,
        p: Partition, i: nat, orderId: Uuid)
    requires ValidConfig(c) && LogsGood(c, v, db, logs, clock)
    requires CommitsBounded(c, logs, committed) && CommitsSafe(c, v, db, logs, committed) && i < Committed(committed, p)
    requires i < |LogOf(logs, p)| && LogOf(logs, p)[i].key == UuidText(orderId) && !IsDone(db, orderId)
    ensures var r := LogOf(logs, p)[i];
            || Contains(logs, c.consumer.dlqTopic, r.key, r.value)
            || (v.attempt(r).Some? && HasAttempt(c, v, logs, r.key, r.value, v.attempt(r).value + 1))
  {
    var r := LogOf(logs, p)[i];
    assert ResolvedAt(c, v, db, logs, p, i);
    assert GoodAt(c, v, db, logs, clock, p, i);
    assert Carries(db, r, ORDER_CREATED);
  }

  /** No record of the retry topic exceeds the retry limit. */
  lemma AttemptInLimit(c: Config, v: View, db: Database, logs: Logs, clock: Time, key: Bytes, value: Bytes,
        attempt: nat)
    requires ValidConfig(c) && LogsGood(c, v, db, logs, clock) && attempt > 0
    requires HasAttempt(c, v, logs, key, value, attempt)
    ensures attempt <= c.consumer.maxRetries
  {
    var p, i: nat :| IsAttemptAt(c, v, logs, p, i, key, value, attempt);
    assert GoodAt(c, v, db, logs, clock, p, i);
  }

  lemma PublishedIsSafe(c: Config, s: System, id: Uuid)
    requires ValidConfig(c) && SystemInv(c, s) && OffsetsGood(c, RealView(c), s) && id in s.db.outbox
    requires s.db.outbox[id].eventType == ORDER_CREATED && !IsDone(s.db, s.db.outbox[id].aggregateId)
    ensures EventSafe(c, s, s.db.outbox[id])
  {
    var row := s.db.outbox[id];
    assert RowGood(RealView(c).ok, s.db, id);
    if row.status.RowPublished? {
      assert Delivered(c, s.logs, row.eventType, row.aggregateId, row.payload);
      var p, i: nat :| IsAt(s.logs, p, i, c.topics.orderCreated, UuidText(row.aggregateId), row.payload);
      assert GoodAt(c, RealView(c), s.db, s.logs, s.clock, p, i);
      assert IsAttemptAt(c, RealView(c), s.logs, p, i, UuidText(row.aggregateId), row.payload, 0);
      Chase(c, s, row, 0);
    }
  }

  /** No order is lost, whatever crashes, ambiguous replies, rebalances and redeliveries occur. */
  lemma NoOrderIsLost(c: Config, s: System)
    requires ValidConfig(c) && Reachable(c, s) && !c.fetchErrorsCarryRecords
    ensures NoOrderLost(c, s)
  {
    ReachableOffsets(c, s);
    forall o | o in s.db.orders && s.db.orders[o].status == Pending
      ensures exists id :: IsRowOf(s.db, id, o, ORDER_CREATED) && EventSafe(c, s, s.db.outbox[id])
    {
      assert HasRow(s.db, o, ORDER_CREATED);
      var id :| IsRowOf(s.db, id, o, ORDER_CREATED);
      PublishedIsSafe(c, s, id);
    }
  }

  // ---------- commit safety ----------

  /** The order of a record is no longer PENDING, or a copy of it is in the retry topic or the DLQ. */
  ghost predicate HasOutcome(c: Config, s: System, record: Record) {
    || (record.value.EnvelopeJson? && IsDone(s.db, record.value.envelope.aggregateId))
    || Contains(s.logs, c.consumer.retryTopic, record.key, record.value)
    || Contains(s.logs, c.consumer.dlqTopic, record.key, record.value)
  }

  predicate IsCommitted(s: System, p: Partition, i: nat) {
    i < Committed(s.committed, p)
  }

  /** Every record below a committed offset has a durable outcome. */
  ghost predicate CommitsHaveOutcomes(c: Config, s: System) {
    forall p, i: nat :: IsCommitted(s, p, i) ==> i < |LogOf(s.logs, p)| && HasOutcome(c, s, LogOf(s.logs, p)[i])
  }

  lemma OutcomeOf(c: Config, s: System, record: Record)
    requires Resolved(c, RealView(c), s.db, s.logs, record)
    ensures HasOutcome(c, s, record)
  {
    if AttemptOf(record).Some?
        && HasAttempt(c, RealView(c), s.logs, record.key, record.value, AttemptOf(record).value + 1) {
      var q, j: nat :| IsAttemptAt(c, RealView(c), s.logs, q, j, record.key, record.value, AttemptOf(record).value + 1);
      assert IsAt(s.logs, q, j, c.consumer.retryTopic, record.key, record.value);
    }
  }

  lemma CommitsAreSafe(c: Config, s: System)
    requires ValidConfig(c) && Reachable(c, s) && !c.fetchErrorsCarryRecords
    ensures CommitsHaveOutcomes(c, s)
  {
    ReachableOffsets(c, s);
    forall p, i: nat | IsCommitted(s, p, i)
      ensures i < |LogOf(s.logs, p)| && HasOutcome(c, s, LogOf(s.logs, p)[i])
    {
      assert ResolvedAt(c, RealView(c), s.db, s.logs, p, i);
      OutcomeOf(c, s, LogOf(s.logs, p)[i]);
    }
  }

  // ---------- exactly once ----------

  /** The row is the order's only OrderStatusChanged, and says PENDING to the order's status. */
  ghost predicate TheStatusRow(db: Database, id: Uuid, orderId: Uuid) {
    && IsRowOf(db, id, orderId, ORDER_STATUS_CHANGED)
    && (forall i :: IsRowOf(db, i, orderId, ORDER_STATUS_CHANGED) ==> i == id)
    && orderId in db.orders && StatusRowGood(db.outbox[id], db.orders)
  }

  /**
   * However often an event is delivered, its effect happens once: an order is past PENDING exactly
   * when it has an OrderStatusChanged row, which is then its only one, and every processed event is the
   * event of an order past PENDING.
   */
  lemma CompletedExactlyOnce(c: Config, s: System, orderId: Uuid)
    requires ValidConfig(c) && Reachable(c, s)
    requires orderId in s.db.orders
    ensures s.db.orders[orderId].status != Pending <==> exists id :: TheStatusRow(s.db, id, orderId)
    ensures HasRow(s.db, orderId, ORDER_STATUS_CHANGED) <==> exists id :: TheStatusRow(s.db, id, orderId)
    ensures forall k :: k in s.db.processed ==>
              k.eventId in s.db.outbox && IsDone(s.db, s.db.outbox[k.eventId].aggregateId)
  {
    ReachableInv(c, s);
    if HasRow(s.db, orderId, ORDER_STATUS_CHANGED) {
      var id :| IsRowOf(s.db, id, orderId, ORDER_STATUS_CHANGED);
      assert RowGood(RealView(c).ok, s.db, id);
      assert TheStatusRow(s.db, id, orderId);
    }
  }

  /** A final status never changes again, however the run goes on. */
  lemma FinalStatusStays(c: Config, s: System, steps: seq<Step>, orderId: Uuid)
    requires ValidConfig(c) && Reachable(c, s)
    requires IsDone(s.db, orderId)
    ensures var s' := Run(c, s, steps);
            IsDone(s'.db, orderId) && s'.db.orders[orderId].status == s.db.orders[orderId].status
  {
    ReachableInv(c, s);
    NothingIsTakenBack(c, s, steps);
  }

  // ---------- publication ----------

  /**
   * A PUBLISHED row has a record in its event type's topic, under its order's id and with its payload;
   * an order past PENDING has its OrderCreated in Kafka already.
   */
  lemma PublicationIsSoundAndCausal(c: Config, s: System, id: Uuid)
    requires ValidConfig(c) && Reachable(c, s)
    requires id in s.db.outbox
    ensures var row := s.db.outbox[id];
            && Publisher.TopicFor(c.topics, row.eventType).Some?
            && (row.status == Outbox.RowPublished
                || (row.eventType == ORDER_CREATED && IsDone(s.db, row.aggregateId)) ==>
                  Contains(s.logs, Publisher.TopicFor(c.topics, row.eventType).value, UuidText(row.aggregateId),
                           row.payload))
  {
    ReachableInv(c, s);
    assert RowGood(RealView(c).ok, s.db, id);
    assert RealView(c).ok(Identity(s.db.outbox[id]));
  }

  // ---------- valid from end to end ----------

  /**
   * No row is ever FAILED: every event that the pipeline stores passes the publisher's envelope and
   * column checks, at claim time and whenever a publisher holds it.
   */
  lemma NoRowIsRejected(c: Config, s: System)
    requires ValidConfig(c) && Reachable(c, s)
    ensures forall id :: id in s.db.outbox ==>
              s.db.outbox[id].status != Outbox.RowFailed && Publisher.Accepts(c.topics, Outbox.EventOf(s.db.outbox[id]))
    ensures forall t :: t in s.tasks ==> Publisher.Accepts(c.topics, s.tasks[t].claimed)
  {
    ReachableInv(c, s);
    forall id | id in s.db.outbox
      ensures s.db.outbox[id].status != Outbox.RowFailed && Publisher.Accepts(c.topics, Outbox.EventOf(s.db.outbox[id]))
    {
      assert RowGood(RealView(c).ok, s.db, id);
      assert RealView(c).ok(Identity(s.db.outbox[id]));
    }
    forall t | t in s.tasks ensures Publisher.Accepts(c.topics, s.tasks[t].claimed) {
      TaskIsSound(c, s, t);
    }
  }

  /**
   * Every record of a consumed topic passes every structural check of processRecord: envelope, type,
   * key, payload and recomputed total; and what it orders is what the order's row says.
   */
  lemma ConsumedRecordsAreGenuine(c: Config, s: System, p: Partition, i: nat)
    requires ValidConfig(c) && Reachable(c, s)
    requires Consumed(c, p.topic) && i < |LogOf(s.logs, p)|
    ensures var r := LogOf(s.logs, p)[i];
            && Consumer.Decode(r).Genuine? && Consumer.PayloadOk(Consumer.Decode(r).envelope)
            && Consumer.Decode(r).envelope.aggregateId in s.db.orders
            && Describes(DecodeCreated(Consumer.Decode(r).envelope.payload).value,
                         s.db.orders[Consumer.Decode(r).envelope.aggregateId])
  {
    ReachableInv(c, s);
    var r := LogOf(s.logs, p)[i];
    assert GoodAt(c, RealView(c), s.db, s.logs, s.clock, p, i);
    IntakeDecodes(c, s.db, s.logs, s.clock, p.topic, r);
    assert RowGood(RealView(c).ok, s.db, r.value.envelope.eventId);
  }

  // ---------- retry lineage ----------

  predicate IsRecordAt(logs: Logs, p: Partition, i: nat, topic: string, record: Record) {
    p.topic == topic && i < |LogOf(logs, p)| && LogOf(logs, p)[i] == record
  }

  ghost predicate InTopic(logs: Logs, topic: string, record: Record) {
    exists p, i: nat :: IsRecordAt(logs, p, i, topic, record)
  }

  /** One hop makes `child` out of `parent`. */
  ghost predicate OneHop(parent: Record, child: Record, attempt: nat) {
    exists reason, notBefore :: child == Routed(parent, child.topic, attempt, reason, notBefore)
  }

  /** The k-th record is in its attempt's topic, and routed from the one before. */
  ghost predicate LinkAt(c: Config, logs: Logs, chain: seq<Record>, k: nat)
    requires k < |chain|
  {
    && InTopic(logs, TopicOfAttempt(c, k), chain[k]) && HeaderInt(chain[k], ATTEMPT) == Success(k)
    && (k > 0 ==> OneHop(chain[k - 1], chain[k], k))
  }

  /** From the published OrderCreated, hop by hop, all of it in Kafka. */
  ghost predicate Chain(c: Config, logs: Logs, chain: seq<Record>) {
    && chain != [] && IsUnrouted(chain[0]) && chain[0].topic == c.topics.orderCreated
    && forall k: nat :: k < |chain| ==> LinkAt(c, logs, chain, k)
  }

  /** What any number of hops leaves as it was, and the topic they remember. */
  predicate Kept(c: Config, first: Record, record: Record) {
    && record.key == first.key && record.value == first.value && PlainHeaders(record) == first.headers
    && (c.topics.orderCreated != "" ==> HeaderString(record, ORIGINAL_TOPIC) == Text(c.topics.orderCreated))
  }

  lemma HopKeeps(c: Config, first: Record, parent: Record, child: Record, attempt: nat)
    requires OneHop(parent, child, attempt) && IsUnrouted(first) && first.topic == c.topics.orderCreated
    requires parent == first || Kept(c, first, parent)
    ensures Kept(c, first, child)
  {
    var reason, notBefore :| child == Routed(parent, child.topic, attempt, reason, notBefore);
    RoutedKeepsPlain(parent, child.topic, attempt, reason, notBefore);
    RoutedOriginalTopic(parent, child.topic, attempt, reason, notBefore);
  }

  lemma {:induction false} ChainKeeps(c: Config, logs: Logs, chain: seq<Record>, k: nat)
    requires Chain(c, logs, chain) && k < |chain|
    ensures chain[k] == chain[0] || Kept(c, chain[0], chain[k])
  {
    if k > 0 {
      ChainKeeps(c, logs, chain, k - 1);
      assert LinkAt(c, logs, chain, k);
      HopKeeps(c, chain[0], chain[k - 1], chain[k], k);
    }
  }

  /** The record at this place, with this attempt, ends a chain. */
  /** The record that a retry record is a copy of. */
  lemma RetrySource(c: Config, db: Database, logs: Logs, clock: Time, p: Partition, i: nat, attempt: nat)
    returns (q: Partition, j: nat)
    requires ValidConfig(c) && LogsGood(c, RealView(c), db, logs, clock) && i < |LogOf(logs, p)| && attempt > 0
    requires p.topic == TopicOfAttempt(c, attempt) && AttemptOf(LogOf(logs, p)[i]) == Some(attempt)
    ensures IsSourceAt(c, RealView(c), logs, q, j, LogOf(logs, p)[i], attempt - 1)
  {
    assert GoodAt(c, RealView(c), db, logs, clock, p, i);
    q, j :| IsSourceAt(c, RealView(c), logs, q, j, LogOf(logs, p)[i], attempt - 1);
  }

  lemma {:induction false} ChainTo(c: Config, db: Database, logs: Logs, clock: Time, p: Partition, i: nat, attempt: nat)
      returns (chain: seq<Record>)
    requires ValidConfig(c) && LogsGood(c, RealView(c), db, logs, clock) && i < |LogOf(logs, p)|
    requires p.topic == TopicOfAttempt(c, attempt) && AttemptOf(LogOf(logs, p)[i]) == Some(attempt)
    ensures Chain(c, logs, chain) && |chain| == attempt + 1 && chain[attempt] == LogOf(logs, p)[i]
    decreases attempt
  {
    var record := LogOf(logs, p)[i];
    assert IsRecordAt(logs, p, i, TopicOfAttempt(c, attempt), record);
    if attempt == 0 {
      assert GoodAt(c, RealView(c), db, logs, clock, p, i);
      chain := [record];
    } else {
      var q, j := RetrySource(c, db, logs, clock, p, i, attempt);
      var front := ChainTo(c, db, logs, clock, q, j, attempt - 1);
      CopyIsHop(front[attempt - 1], record, attempt);
      ExtendChain(c, logs, front, record);
      chain := front + [record];
    }
  }

  lemma CopyIsHop(parent: Record, child: Record, attempt: nat)
    requires IsRoutedCopy(parent, child) && AttemptOf(child) == Some(attempt)
    ensures OneHop(parent, child, attempt)
  {
    assert child == Routed(parent, child.topic, attempt, HeaderString(child, FAILURE_REASON).text,
                           HeaderTime(child, NOT_BEFORE).value);
  }

  lemma ExtendChain(c: Config, logs: Logs, chain: seq<Record>, record: Record)
    requires Chain(c, logs, chain) && OneHop(chain[|chain| - 1], record, |chain|)
    requires InTopic(logs, TopicOfAttempt(c, |chain|), record) && HeaderInt(record, ATTEMPT) == Success(|chain|)
    ensures Chain(c, logs, chain + [record])
  {
    var longer := chain + [record];
    forall k: nat | k < |longer| ensures LinkAt(c, logs, longer, k) {
      if k < |chain| {
        assert LinkAt(c, logs, chain, k);
      }
    }
  }

  /** `record` is the last record of a chain with its attempt, and kept what the first one said. */
  ghost predicate EndsChain(c: Config, logs: Logs, chain: seq<Record>, record: Record, attempt: nat) {
    Chain(c, logs, chain) && |chain| == attempt + 1 && chain[attempt] == record && Kept(c, chain[0], record)
  }

  lemma RetryEndsChain(c: Config, db: Database, logs: Logs, clock: Time, p: Partition, i: nat)
    requires ValidConfig(c) && LogsGood(c, RealView(c), db, logs, clock)
    requires p.topic == c.consumer.retryTopic && i < |LogOf(logs, p)|
    ensures var r := LogOf(logs, p)[i];
            && HeaderInt(r, ATTEMPT).Success? && 1 <= HeaderInt(r, ATTEMPT).value <= c.consumer.maxRetries
            && HeaderTime(r, NOT_BEFORE).Success?
            && HeaderTime(r, NOT_BEFORE).value <= clock + c.skew + DelayOf(c.consumer, HeaderInt(r, ATTEMPT).value)
            && exists chain :: EndsChain(c, logs, chain, r, HeaderInt(r, ATTEMPT).value)
  {
    var r := LogOf(logs, p)[i];
    assert GoodAt(c, RealView(c), db, logs, clock, p, i);
    assert RetryFields(c, RealView(c), clock, r);
    var n := HeaderInt(r, ATTEMPT).value;
    var chain := ChainTo(c, db, logs, clock, p, i, n);
    LastIsKept(c, logs, chain);
    assert EndsChain(c, logs, chain, r, n);
  }

  /**
   * A retry record with attempt n is the last record of a chain r_0, ..., r_n in Kafka: r_0 is the
   * published OrderCreated, and each further record is what one hop of routing made of the one before.
   * n is at least one and at most the retry limit; key, value, plain headers and the original topic are
   * those of r_0; and it is due within its own attempt's backoff.
   */
  lemma RetriesFormChains(c: Config, s: System, p: Partition, i: nat)
    requires ValidConfig(c) && Reachable(c, s) && p.topic == c.consumer.retryTopic && i < |LogOf(s.logs, p)|
    ensures var r := LogOf(s.logs, p)[i];
            && HeaderInt(r, ATTEMPT).Success? && 1 <= HeaderInt(r, ATTEMPT).value <= c.consumer.maxRetries
            && HeaderTime(r, NOT_BEFORE).Success?
            && HeaderTime(r, NOT_BEFORE).value
               <= s.clock + c.skew + Backoff.Delay(HeaderInt(r, ATTEMPT).value, c.consumer.baseBackoff,
                                                   c.consumer.maxBackoff)
            && exists chain :: EndsChain(c, s.logs, chain, r, HeaderInt(r, ATTEMPT).value)
  {
    ReachableInv(c, s);
    RetryEndsChain(c, s.db, s.logs, s.clock, p, i);
  }

  lemma LastIsKept(c: Config, logs: Logs, chain: seq<Record>)
    requires Chain(c, logs, chain) && |chain| > 1
    ensures Kept(c, chain[0], chain[|chain| - 1])
  {
    var n := |chain| - 1;
    ChainKeeps(c, logs, chain, n - 1);
    assert LinkAt(c, logs, chain, n);
    HopKeeps(c, chain[0], chain[n - 1], chain[n], n);
  }

  /** `record` was dead-lettered from the last record of a chain. */
  ghost predicate DeadLetterOf(c: Config, logs: Logs, chain: seq<Record>, record: Record) {
    && Chain(c, logs, chain) && |chain| <= c.consumer.maxRetries + 1 && HeaderInt(record, ATTEMPT).Success?
    && OneHop(chain[|chain| - 1], record, HeaderInt(record, ATTEMPT).value) && Kept(c, chain[0], record)
  }

  /**
   * A DLQ record ends a chain of at most MaxRetries retry hops. With clocks within five seconds of each
   * other it has attempt MaxRetries + 1, after exactly MaxRetries retry hops.
   */
  lemma DeadLettersExhaustRetries(c: Config, s: System, p: Partition, i: nat)
    requires ValidConfig(c) && Reachable(c, s) && p.topic == c.consumer.dlqTopic && i < |LogOf(s.logs, p)|
    ensures exists chain ::
              && DeadLetterOf(c, s.logs, chain, LogOf(s.logs, p)[i])
              && (SkewTolerated(c) ==>
                    && |chain| == c.consumer.maxRetries + 1
                    && HeaderInt(LogOf(s.logs, p)[i], ATTEMPT) == Success(c.consumer.maxRetries + 1))
  {
    ReachableInv(c, s);
    var chain := DeadLetterChain(c, s.db, s.logs, s.clock, p, i);
  }

  /** Where a dead letter came from. */
  lemma DeadLetterSource(c: Config, db: Database, logs: Logs, clock: Time, p: Partition, i: nat)
      returns (q: Partition, j: nat, attempt: nat)
    requires ValidConfig(c) && LogsGood(c, RealView(c), db, logs, clock)
    requires p.topic == c.consumer.dlqTopic && i < |LogOf(logs, p)|
    ensures j < |LogOf(logs, q)| && q.topic == TopicOfAttempt(c, attempt)
            && AttemptOf(LogOf(logs, q)[j]) == Some(attempt)
    ensures IsRoutedCopy(LogOf(logs, q)[j], LogOf(logs, p)[i])
            && LastAttempt(c, RealView(c), LogOf(logs, p)[i], attempt)
  {
    var r := LogOf(logs, p)[i];
    assert GoodAt(c, RealView(c), db, logs, clock, p, i);
    attempt :| LastAttempt(c, RealView(c), r, attempt) && HasSource(c, RealView(c), logs, r, attempt);
    q, j :| IsSourceAt(c, RealView(c), logs, q, j, r, attempt);
  }

  lemma DeadLetterChain(c: Config, db: Database, logs: Logs, clock: Time, p: Partition, i: nat)
    returns (chain: seq<Record>)
    requires ValidConfig(c) && LogsGood(c, RealView(c), db, logs, clock)
    requires p.topic == c.consumer.dlqTopic && i < |LogOf(logs, p)|
    ensures DeadLetterOf(c, logs, chain, LogOf(logs, p)[i])
    ensures SkewTolerated(c) ==>
              && |chain| == c.consumer.maxRetries + 1
              && HeaderInt(LogOf(logs, p)[i], ATTEMPT) == Success(c.consumer.maxRetries + 1)
  {
    var q, j, attempt := DeadLetterSource(c, db, logs, clock, p, i);
    chain := ChainTo(c, db, logs, clock, q, j, attempt);
    LastHop(c, logs, chain, LogOf(logs, p)[i]);
  }

  lemma LastHop(c: Config, logs: Logs, chain: seq<Record>, record: Record)
    requires Chain(c, logs, chain) && |chain| <= c.consumer.maxRetries + 1 && IsRoutedCopy(chain[|chain| - 1], record)
    ensures DeadLetterOf(c, logs, chain, record)
  {
    var n := |chain| - 1;
    CopyIsHop(chain[n], record, HeaderInt(record, ATTEMPT).value);
    ChainKeeps(c, logs, chain, n);
    HopKeeps(c, chain[0], chain[n], record, HeaderInt(record, ATTEMPT).value);
  }
}
