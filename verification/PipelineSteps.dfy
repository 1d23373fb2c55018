/** Every step of the pipeline keeps the invariant. */
module PipelineSteps {
  import opened Prelude
  import opened Orders
  import opened Events
  import opened Records
  import opened Store
  import opened Pipeline
  import opened PipelineData
  import opened PipelineInvariant
  import Outbox
  import Publisher
  import Consumer
  import Backoff

  // ---------- how events and records are really judged ----------

  /** The event passes the publisher's checks and, as an OrderCreated, the payload check of the worker. */
  predicate SoundEvent(topics: Publisher.Topics, e: Outbox.Event) {
    && Publisher.Accepts(topics, e)
    && (e.eventType == ORDER_CREATED ==> Consumer.PayloadOk(e.payload.envelope))
  }

  function AttemptOf(record: Record): Option<nat> {
    match HeaderInt(record, ATTEMPT)
    case Success(n) => Some(n)
    case Failure(_) => None
  }

  function DueOf(record: Record): Option<Time> {
    match HeaderTime(record, NOT_BEFORE)
    case Success(t) => Some(t)
    case Failure(_) => None
  }

  function RealView(c: Config): View {
    View(e => SoundEvent(c.topics, e), AttemptOf, DueOf, IsUnrouted, IsRoutedCopy, (n: nat) => DelayOf(c.consumer, n))
  }

  /** The invariant of every reachable state. */
  ghost predicate SystemInv(c: Config, s: System) {
    s.clock >= ZERO_TIME && Inv(c, RealView(c), s)
  }

  // ---------- publishers ----------

  lemma TasksStepKeeps(c: Config, v: View, s: System, tasks: map<TaskId, Task>)
    requires Inv(c, v, s) && TasksGood(c, s.db, s.logs, tasks)
    ensures Inv(c, v, s.(tasks := tasks))
  {
  }

  lemma CreatedIsSound(topics: Publisher.Topics, envelope: Envelope, now: Time)
    requires envelope.Valid() && envelope.eventType == ORDER_CREATED && Consumer.PayloadOk(envelope)
    ensures SoundEvent(topics, Identity(Outbox.NewRow(envelope, now)))
  {
  }

  lemma StatusIsSound(topics: Publisher.Topics, c: Completion, newEventId: Uuid, now: Time)
    requires StatusEvent(c, Pending, newEventId, now).Success?
    ensures SoundEvent(topics, Identity(Outbox.NewRow(StatusEvent(c, Pending, newEventId, now).value, now)))
  {
    EventTypesDiffer();
  }

  /** A new order is not done and its row not published, so nothing is asked of Kafka. */
  lemma CreateKeepsDelivery(c: Config, v: View, s: System, db': Database, order: Order, envelope: Envelope)
    requires Inv(c, v, s) && Inserted(s.db, db', envelope.eventId)
             && db'.outbox[envelope.eventId] == Outbox.NewRow(envelope, s.clock)
    requires order.id !in s.db.orders && db'.orders == s.db.orders[order.id := RowOf(order)]
    requires order.status == Pending && envelope.aggregateId == order.id
    ensures PublishedDelivered(c, db', s.logs) && DoneAfterCreated(c, db', s.logs)
  {
    forall id | id in db'.outbox && db'.outbox[id].eventType == ORDER_CREATED && IsDone(db', db'.outbox[id].aggregateId)
      ensures Contains(s.logs, c.topics.orderCreated, UuidText(db'.outbox[id].aggregateId), db'.outbox[id].payload)
    {
      assert RowGood(v.ok, s.db, id);
    }
  }

  lemma CreateKeeps(c: Config, s: System, command: CreateCommand, requestId: string, freshId: string, orderId: Uuid,
        eventId: Uuid, now: Time)
    requires Inv(c, RealView(c), s)
    ensures Inv(c, RealView(c), DoCreate(s, command, requestId, freshId, orderId, eventId, now))
  {
    var v := RealView(c);
    var created := CreateOrder(command, requestId, freshId, orderId, eventId, now);
    if created.Success? {
      var (order, envelope) := created.value;
      var stored := CreateTx(s.db, order, envelope, s.clock);
      if stored.Some? {
        CreatedEventIsValid(command, requestId, freshId, orderId, eventId, now);
        CreatedIsSound(c.topics, envelope, s.clock);
        CreateKeepsDb(v.ok, s.db, order, envelope, s.clock);
        CreateInserts(s.db, order, envelope, s.clock);
        CreateKeepsDelivery(c, v, s, stored.value, order, envelope);
        DbStepKeeps(c, v, s, stored.value);
      }
    }
  }

  /** Changing lock and schedule columns, and marking delivered rows as published. */
  lemma RowsKeepDelivery(c: Config, s: System, rows: Outbox.Table)
    requires PublishedDelivered(c, s.db, s.logs) && DoneAfterCreated(c, s.db, s.logs)
    requires rows.Keys == s.db.outbox.Keys && forall id :: id in rows ==> RowGrows(s.db.outbox[id], rows[id])
    requires forall id :: id in rows && rows[id].status.RowPublished? && !s.db.outbox[id].status.RowPublished? ==>
               Delivered(c, s.logs, rows[id].eventType, rows[id].aggregateId, rows[id].payload)
    ensures PublishedDelivered(c, s.db.(outbox := rows), s.logs) && DoneAfterCreated(c, s.db.(outbox := rows), s.logs)
  {
  }

  lemma ClaimedRowsKeepDelivery(c: Config, ok: Judgement, s: System, owner: string, chosen: seq<Uuid>,
        skipped: set<Uuid>, limit: nat, lease: int64)
    requires RowsGood(ok, s.db) && Outbox.ValidChoice(s.db.outbox, chosen, skipped, limit, s.clock)
    requires PublishedDelivered(c, s.db, s.logs) && DoneAfterCreated(c, s.db, s.logs)
    ensures var db' := s.db.(outbox := Outbox.ClaimRows(s.db.outbox, chosen, owner, s.clock, lease));
            PublishedDelivered(c, db', s.logs) && DoneAfterCreated(c, db', s.logs)
  {
    var rows := Outbox.ClaimRows(s.db.outbox, chosen, owner, s.clock, lease);
    forall id | id in rows ensures RowGrows(s.db.outbox[id], rows[id]) {
      assert RowGood(ok, s.db, id);
      if id in chosen {
        ClaimedRowGrows(s.db.outbox[id], owner, s.clock, lease);
      }
    }
    RowsKeepDelivery(c, s, rows);
  }

  lemma ClaimKeepsRows(c: Config, v: View, s: System, owner: string, chosen: seq<Uuid>, skipped: set<Uuid>,
        limit: nat, lease: int64)
    requires Inv(c, v, s) && Outbox.ValidChoice(s.db.outbox, chosen, skipped, limit, s.clock)
    ensures Inv(c, v, DoClaim(s, owner, chosen, lease, false))
  {
    var rows := Outbox.ClaimRows(s.db.outbox, chosen, owner, s.clock, lease);
    ClaimKeepsDb(v.ok, s.db, chosen, skipped, limit, owner, s.clock, lease);
    ClaimedRowsKeepDelivery(c, v.ok, s, owner, chosen, skipped, limit, lease);
    DbStepKeeps(c, v, s, s.db.(outbox := rows));
  }

  lemma ClaimKeeps(c: Config, v: View, s: System, owner: string, chosen: seq<Uuid>, skipped: set<Uuid>, limit: nat,
        lease: int64, replied: bool)
    requires Inv(c, v, s) && Outbox.ValidChoice(s.db.outbox, chosen, skipped, limit, s.clock)
    ensures Inv(c, v, DoClaim(s, owner, chosen, lease, replied))
  {
    var s' := DoClaim(s, owner, chosen, lease, false);
    ClaimKeepsRows(c, v, s, owner, chosen, skipped, limit, lease);
    if replied {
      ClaimedTasksGood(c, s', owner, chosen);
      TasksStepKeeps(c, v, s', ClaimedTasks(s.tasks, s'.db.outbox, owner, chosen));
    }
  }

  lemma ClaimedTasksGood(c: Config, s: System, owner: string, chosen: seq<Uuid>)
    requires TasksGood(c, s.db, s.logs, s.tasks) && forall id :: id in chosen ==> id in s.db.outbox
    ensures TasksGood(c, s.db, s.logs, ClaimedTasks(s.tasks, s.db.outbox, owner, chosen))
  {
  }

  /** What a publisher holds is a row's immutable part, so it passes the checks. */
  lemma TaskIsSound(c: Config, s: System, id: TaskId)
    requires Inv(c, RealView(c), s) && id in s.tasks
    ensures SoundEvent(c.topics, s.tasks[id].claimed)
    ensures s.tasks[id].claimed.(attempts := 0) == Identity(s.db.outbox[id.row]) && s.db.outbox[id.row].id == id.row
  {
    assert RowGood(RealView(c).ok, s.db, id.row);
    assert RealView(c).ok(Identity(s.db.outbox[id.row]));
  }

  lemma PublishedRecordGood(c: Config, s: System, id: TaskId)
    requires ValidConfig(c) && Inv(c, RealView(c), s) && id in s.tasks
             && Publisher.Accepts(c.topics, s.tasks[id].claimed)
    ensures var record := Publisher.PublishedRecord(c.topics, s.tasks[id].claimed);
            RecordGood(c, RealView(c), s.db, s.logs, s.clock, record.topic, record)
  {
    var claimed := s.tasks[id].claimed;
    TaskIsSound(c, s, id);
    EventTypesDiffer();
    Publisher.PublishedIsUnrouted(c.topics, claimed);
    assert IsRowOf(s.db, id.row, claimed.aggregateId, claimed.eventType);
    assert Carries(s.db, Publisher.PublishedRecord(c.topics, claimed), claimed.eventType);
  }

  /** An acknowledged publish makes the row's event delivered. */
  lemma PublishedIsDelivered(c: Config, logs: Logs, claimed: Outbox.Event, index: nat)
    requires Publisher.Accepts(c.topics, claimed)
    ensures var record := Publisher.PublishedRecord(c.topics, claimed);
            Delivered(c, Append(logs, Partition(record.topic, index), record), claimed.eventType, claimed.aggregateId,
                      claimed.payload)
  {
    var record := Publisher.PublishedRecord(c.topics, claimed);
    AppendGrows(logs, Partition(record.topic, index), record);
  }

  lemma TaskUpdateGood(c: Config, db: Database, logs: Logs, tasks: map<TaskId, Task>, id: TaskId, task: Task)
    requires TasksGood(c, db, logs, tasks) && id in tasks && task.claimed == tasks[id].claimed
    requires task.Sent? ==> Delivered(c, logs, task.claimed.eventType, task.claimed.aggregateId, task.claimed.payload)
    ensures TasksGood(c, db, logs, tasks[id := task]) && TasksGood(c, db, logs, Drop(tasks, id))
  {
  }

  lemma PublishRowKeeps(c: Config, s: System, id: TaskId, index: nat, appended: bool, acknowledged: bool)
    requires ValidConfig(c) && Inv(c, RealView(c), s) && CanPublishRow(c, s, id, appended, acknowledged)
    ensures Inv(c, RealView(c), DoPublishRow(c, s, id, index, appended, acknowledged))
  {
    PublishedRecordGood(c, s, id);
    GoodRowKeeps(c, RealView(c), s, id, index, appended, acknowledged);
  }

  lemma GoodRowKeeps(c: Config, v: View, s: System, id: TaskId, index: nat, appended: bool, acknowledged: bool)
    requires Inv(c, v, s) && CanPublishRow(c, s, id, appended, acknowledged)
    requires var record := Publisher.PublishedRecord(c.topics, s.tasks[id].claimed);
             RecordGood(c, v, s.db, s.logs, s.clock, record.topic, record)
    ensures Inv(c, v, DoPublishRow(c, s, id, index, appended, acknowledged))
  {
    var claimed := s.tasks[id].claimed;
    var record := Publisher.PublishedRecord(c.topics, claimed);
    var s' := StillUnderWay(s, LateRecord(record), acknowledged);
    LateStepKeeps(c, v, s, LateRecord(record), acknowledged);
    if appended {
      LogStepKeeps(c, v, s', Partition(record.topic, index), record);
      s' := s'.(logs := Append(s.logs, Partition(record.topic, index), record));
      PublishedIsDelivered(c, s.logs, claimed, index);
    }
    var task := if acknowledged then Sent(claimed) else NotSent(claimed);
    TaskUpdateGood(c, s'.db, s'.logs, s'.tasks, id, task);
    TasksStepKeeps(c, v, s', s.tasks[id := task]);
  }

  lemma SettledRowsGrow(ok: Judgement, db: Database, id: Uuid, owner: string, how: Outbox.Settlement)
    requires RowsGood(ok, db) && !how.Reject?
    ensures forall i :: i in db.outbox ==> RowGrows(db.outbox[i], Outbox.Settle(db.outbox, id, owner, how)[i])
  {
    forall i | i in db.outbox ensures RowGrows(db.outbox[i], Outbox.Settle(db.outbox, id, owner, how)[i]) {
      assert RowGood(ok, db, i);
      if i == id && Outbox.Holds(db.outbox[i], owner) {
        SettledRowGrows(db.outbox[i], how);
      }
    }
  }

  /** Settling a row: it is marked PUBLISHED only after its event was delivered. */
  lemma SettledRowsKeepDelivery(c: Config, ok: Judgement, s: System, id: Uuid, owner: string, how: Outbox.Settlement)
    requires RowsGood(ok, s.db) && PublishedDelivered(c, s.db, s.logs) && DoneAfterCreated(c, s.db, s.logs)
    requires SettlementGood(c, s.db, s.logs, id, how)
    ensures var db' := s.db.(outbox := Outbox.Settle(s.db.outbox, id, owner, how));
            PublishedDelivered(c, db', s.logs) && DoneAfterCreated(c, db', s.logs)
  {
    SettledRowsGrow(ok, s.db, id, owner, how);
    RowsKeepDelivery(c, s, Outbox.Settle(s.db.outbox, id, owner, how));
  }

  /** Whoever settles a row, and however late. */
  lemma SettlementKeeps(c: Config, v: View, s: System, id: Uuid, owner: string, how: Outbox.Settlement)
    requires Inv(c, v, s) && SettlementGood(c, s.db, s.logs, id, how)
    ensures Inv(c, v, s.(db := s.db.(outbox := Outbox.Settle(s.db.outbox, id, owner, how))))
  {
    SettleKeepsDb(v.ok, s.db, id, owner, how);
    SettledRowsKeepDelivery(c, v.ok, s, id, owner, how);
    DbStepKeeps(c, v, s, s.db.(outbox := Outbox.Settle(s.db.outbox, id, owner, how)));
  }

  /** A publisher never rejects a row, and marks it PUBLISHED only when it has sent its record. */
  lemma TaskSettlementGood(c: Config, s: System, id: TaskId, nextAttempt: Time)
    requires Inv(c, RealView(c), s) && CanSettleRow(c, s, id)
    ensures SettlementGood(c, s.db, s.logs, id.row, TaskSettlement(s.tasks[id], s.clock, nextAttempt))
  {
    TaskIsSound(c, s, id);
  }

  lemma SettleRowKeeps(c: Config, s: System, id: TaskId, executed: bool, nextAttempt: Time)
    requires Inv(c, RealView(c), s) && CanSettleRow(c, s, id)
    ensures Inv(c, RealView(c), DoSettleRow(c, s, id, executed, nextAttempt))
  {
    TaskSettlementGood(c, s, id, nextAttempt);
    GoodSettlementKeeps(c, RealView(c), s, id, TaskSettlement(s.tasks[id], s.clock, nextAttempt), executed);
  }

  lemma GoodSettlementKeeps(c: Config, v: View, s: System, id: TaskId, how: Outbox.Settlement, executed: bool)
    requires Inv(c, v, s) && id in s.tasks && SettlementGood(c, s.db, s.logs, id.row, how)
    ensures var db' := if executed then s.db.(outbox := Outbox.Settle(s.db.outbox, id.row, id.owner, how)) else s.db;
            Inv(c, v, StillUnderWay(s.(db := db', tasks := Drop(s.tasks, id)), LateSettlement(id, how), executed))
  {
    var s' := StillUnderWay(s.(tasks := Drop(s.tasks, id)), LateSettlement(id, how), executed);
    TaskUpdateGood(c, s.db, s.logs, s.tasks, id, s.tasks[id]);
    TasksStepKeeps(c, v, s, Drop(s.tasks, id));
    LateStepKeeps(c, v, s.(tasks := Drop(s.tasks, id)), LateSettlement(id, how), executed);
    if executed {
      SettlementKeeps(c, v, s', id.row, id.owner, how);
    }
  }

  lemma CrashPublisherKeeps(c: Config, v: View, s: System, owner: string)
    requires Inv(c, v, s)
    ensures Inv(c, v, DoCrashPublisher(s, owner))
  {
    TasksStepKeeps(c, v, s, DoCrashPublisher(s, owner).tasks);
  }

  // ---------- processRecord ----------

  lemma SlotReplaced(c: Config, v: View, s: System, worker: Worker, ref: Ref, pc: Pc)
    requires WorkerGood(c, v, s.db, s.logs, s.clock, s.committed, worker)
    requires worker.batch.Some? && ref in worker.batch.value.slots && ref.offset < |LogOf(s.logs, ref.partition)|
    requires SlotGood(c, v, s.db, s.logs, s.clock, RecordAt(s, ref), pc)
    ensures WorkerGood(c, v, s.db, s.logs, s.clock, s.committed,
                       worker.(batch := Some(worker.batch.value.(slots := worker.batch.value.slots[ref := pc]))))
  {
    var batch' := worker.batch.value.(slots := worker.batch.value.slots[ref := pc]);
    assert SlotsGood(c, v, s.db, s.logs, s.clock, worker.batch.value);
    assert SlotsGood(c, v, s.db, s.logs, s.clock, batch');
    assert UptoGood(c, s.logs, batch');
    assert PositionsGood(c, s.logs, s.committed, worker.(batch := Some(batch')));
  }

  /** Moving one slot to a program counter that is justified. */
  lemma SetSlotKeeps(c: Config, v: View, s: System, w: string, ref: Ref, pc: Pc)
    requires Inv(c, v, s) && HasSlot(s, w, ref)
    requires SlotGood(c, v, s.db, s.logs, s.clock, RecordAt(s, ref), pc)
    ensures Inv(c, v, SetSlot(s, w, ref, pc))
  {
    SlotReplaced(c, v, s, s.workers[w], ref, pc);
    WorkerStepKeeps(c, v, s, w, SetSlot(s, w, ref, pc).workers[w]);
  }

  /** What is known about the record of a slot. */
  lemma SlotRecord(c: Config, v: View, s: System, w: string, ref: Ref)
    requires Inv(c, v, s) && HasSlot(s, w, ref)
    ensures Consumed(c, ref.partition.topic)
    ensures RecordGood(c, v, s.db, s.logs, s.clock, ref.partition.topic, RecordAt(s, ref))
    ensures SlotGood(c, v, s.db, s.logs, s.clock, RecordAt(s, ref), SlotOf(s, w, ref))
  {
    assert WorkerGood(c, v, s.db, s.logs, s.clock, s.committed, s.workers[w]);
    assert GoodAt(c, v, s.db, s.logs, s.clock, ref.partition, ref.offset);
  }

  /** A consumed record that is good: its attempt is within the limit and its event sound. */
  ghost predicate Intake(c: Config, db: Database, logs: Logs, clock: Time, topic: string, record: Record) {
    Consumed(c, topic) && RecordGood(c, RealView(c), db, logs, clock, topic, record)
  }

  lemma IntakeDecodes(c: Config, db: Database, logs: Logs, clock: Time, topic: string, record: Record)
    requires ValidConfig(c) && RowsGood(RealView(c).ok, db) && Intake(c, db, logs, clock, topic, record)
    ensures record.value.EnvelopeJson? && Consumer.Decode(record) == Consumer.Genuine(record.value.envelope)
    ensures Consumer.PayloadOk(record.value.envelope) && IsCreatedEvent(db, record.value.envelope)
    ensures db.outbox[record.value.envelope.eventId].aggregateId == record.value.envelope.aggregateId
  {
    var id := record.value.envelope.eventId;
    assert RowGood(RealView(c).ok, db, id);
    assert SoundEvent(c.topics, Identity(db.outbox[id]));
  }

  /** Unless some own record is due too late for the delay check, the screening dead-letters none. */
  lemma ScreenIsGood(c: Config, db: Database, logs: Logs, clock: Time, topic: string, record: Record, now: Time)
    requires ValidConfig(c) && Intake(c, db, logs, clock, topic, record) && ZERO_TIME <= clock <= now
    ensures match Consumer.Screen(c.consumer, record, now)
            case WaitFor(attempt, _) => AttemptKnown(c, RealView(c), record, attempt)
            case ToDlq(attempt, reason) =>
              !SkewTolerated(c) && AttemptKnown(c, RealView(c), record, attempt)
  {
    assert RealView(c).attempt(record) == AttemptOf(record) && RealView(c).due(record) == DueOf(record);
    if topic == c.consumer.retryTopic {
      Backoff.DelayIsMonotone(AttemptOf(record).value, c.consumer.maxRetries, c.consumer.baseBackoff,
                              c.consumer.maxBackoff);
    }
  }

  lemma RetryCopyGood(c: Config, clock: Time, record: Record, attempt: nat, cause: string, now: Time)
    requires ValidConfig(c) && AttemptKnown(c, RealView(c), record, attempt) && now <= clock + c.skew
    ensures CopyGood(c, RealView(c), clock, record, Consumer.RetryRecord(c.consumer, record, attempt, cause, now))
  {
    var copy := Consumer.RetryRecord(c.consumer, record, attempt, cause, now);
    Consumer.RetryRecordReadsBack(c.consumer, record, attempt, cause, now);
    assert AttemptOf(copy) == Some(attempt + 1);
  }

  lemma DlqCopyGood(c: Config, clock: Time, record: Record, attempt: nat, reason: string)
    requires ValidConfig(c) && !SkewTolerated(c) && AttemptKnown(c, RealView(c), record, attempt)
    ensures CopyGood(c, RealView(c), clock, record, Consumer.DlqRecord(c.consumer, record, attempt, reason))
  {
    RoutedIsCopy(record, c.consumer.dlqTopic, attempt, reason, ZERO_TIME);
    RoutedReadsBack(record, c.consumer.dlqTopic, attempt, reason, ZERO_TIME);
  }

  /** What processRecord knows when it handles a consumed record. */
  ghost predicate Handles(c: Config, s: System, ref: Ref, pc: Pc) {
    && ValidConfig(c) && ref.offset < |LogOf(s.logs, ref.partition)| && s.clock >= ZERO_TIME
    && DbInv(RealView(c).ok, s.db) && Intake(c, s.db, s.logs, s.clock, ref.partition.topic, RecordAt(s, ref))
    && SlotGood(c, RealView(c), s.db, s.logs, s.clock, RecordAt(s, ref), pc)
  }

  lemma ScreenStepGood(c: Config, s: System, ref: Ref, pc: Pc, step: SlotStep)
    requires Handles(c, s, ref, pc) && SlotEnabled(c, s, pc, step) && step.Screen?
    ensures SlotGood(c, RealView(c), s.db, s.logs, s.clock, RecordAt(s, ref),
                     SlotNext(c, s, RecordAt(s, ref), pc, step))
  {
    ScreenIsGood(c, s.db, s.logs, s.clock, ref.partition.topic, RecordAt(s, ref), step.now);
    var screening := Consumer.Screen(c.consumer, RecordAt(s, ref), step.now);
    if screening.ToDlq? {
      DlqCopyGood(c, s.clock, RecordAt(s, ref), screening.attempt, screening.reason);
    }
  }

  lemma WakeStepGood(c: Config, s: System, ref: Ref, pc: Pc, step: SlotStep)
    requires Handles(c, s, ref, pc) && SlotEnabled(c, s, pc, step) && step.Wake?
    ensures SlotGood(c, RealView(c), s.db, s.logs, s.clock, RecordAt(s, ref),
                     SlotNext(c, s, RecordAt(s, ref), pc, step))
  {
    IntakeDecodes(c, s.db, s.logs, s.clock, ref.partition.topic, RecordAt(s, ref));
  }

  /** The answer is a known duplicate, whose order is done, or a payload that is valid. */
  lemma CheckStepGood(c: Config, s: System, ref: Ref, pc: Pc, step: SlotStep)
    requires Handles(c, s, ref, pc) && SlotEnabled(c, s, pc, step) && step.CheckAnswered?
    ensures SlotGood(c, RealView(c), s.db, s.logs, s.clock, RecordAt(s, ref),
                     SlotNext(c, s, RecordAt(s, ref), pc, step))
  {
    IntakeDecodes(c, s.db, s.logs, s.clock, ref.partition.topic, RecordAt(s, ref));
    assert ProcessedDone(s.db);
  }

  lemma RetryStepGood(c: Config, s: System, ref: Ref, pc: Pc, step: SlotStep)
    requires Handles(c, s, ref, pc) && SlotEnabled(c, s, pc, step)
    requires step.CheckFailed? || step.ProcessFailed? || step.CompleteRefused?
    ensures SlotGood(c, RealView(c), s.db, s.logs, s.clock, RecordAt(s, ref),
                     SlotNext(c, s, RecordAt(s, ref), pc, step))
  {
    RetryCopyGood(c, s.clock, RecordAt(s, ref), pc.attempt, step.cause, step.now);
  }

  /** The steps that neither change the database nor Kafka. */
  lemma QuietStepGood(c: Config, s: System, ref: Ref, pc: Pc, step: SlotStep)
    requires Handles(c, s, ref, pc) && SlotEnabled(c, s, pc, step) && !step.Complete? && !step.Publish?
    ensures SlotGood(c, RealView(c), s.db, s.logs, s.clock, RecordAt(s, ref),
                     SlotNext(c, s, RecordAt(s, ref), pc, step))
  {
    if step.Screen? {
      ScreenStepGood(c, s, ref, pc, step);
    } else if step.Wake? {
      WakeStepGood(c, s, ref, pc, step);
    } else if step.CheckAnswered? {
      CheckStepGood(c, s, ref, pc, step);
    } else if step.CheckFailed? || step.ProcessFailed? || step.CompleteRefused? {
      RetryStepGood(c, s, ref, pc, step);
    }
  }

  // ---------- the completion transaction ----------

  /** A consumed OrderCreated is in the topic of created orders, whichever topic it was consumed from. */
  lemma IntakeWasCreated(c: Config, v: View, db: Database, logs: Logs, clock: Time, ref: Ref, record: Record)
    requires ref.offset < |LogOf(logs, ref.partition)| && record == LogOf(logs, ref.partition)[ref.offset]
    requires ValidConfig(c) && Consumed(c, ref.partition.topic)
             && RecordGood(c, v, db, logs, clock, ref.partition.topic, record)
    ensures Contains(logs, c.topics.orderCreated, record.key, record.value)
    ensures v.attempt(record).Some?
    ensures IsAttemptAt(c, v, logs, ref.partition, ref.offset, record.key, record.value, v.attempt(record).value)
  {
    if ref.partition.topic == c.topics.orderCreated {
      assert IsAt(logs, ref.partition, ref.offset, c.topics.orderCreated, record.key, record.value);
    }
  }

  /** Completing an order: only its own OrderCreated row becomes the row of a done order. */
  lemma CompletionKeepsDelivery(c: Config, db: Database, db': Database, logs: Logs, done: Completion,
        envelope: Envelope, id: Uuid, now: Time)
    requires OneEach(db) && PublishedDelivered(c, db, logs) && DoneAfterCreated(c, db, logs)
    requires Inserted(db, db', id) && Completes(db, db', done, id, now) && !db'.outbox[id].status.RowPublished?
    requires forall i :: i in db.outbox ==> db'.outbox[i] == db.outbox[i]
    requires IsCreatedEvent(db, envelope) && done.eventId == envelope.eventId && done.orderId == envelope.aggregateId
    requires Contains(logs, c.topics.orderCreated, UuidText(envelope.aggregateId), EnvelopeJson(envelope))
    ensures PublishedDelivered(c, db', logs) && DoneAfterCreated(c, db', logs)
  {
    EventTypesDiffer();
  }

  lemma AppliedKeepsDelivery(c: Config, db: Database, logs: Logs, done: Completion, envelope: Envelope,
        newEventId: Uuid, now: Time)
    requires OneEach(db) && PublishedDelivered(c, db, logs) && DoneAfterCreated(c, db, logs)
    requires CompleteTx(db, done, newEventId, now).1 == Applied && CompletesEvent(c, db, logs, done, envelope)
    ensures var db' := CompleteTx(db, done, newEventId, now).0;
            PublishedDelivered(c, db', logs) && DoneAfterCreated(c, db', logs)
  {
    var db' := CompleteTx(db, done, newEventId, now).0;
    CompleteInserts(db, done, newEventId, now);
    assert IsRowOf(db', newEventId, done.orderId, ORDER_STATUS_CHANGED);
    assert IsRowOf(db, done.eventId, done.orderId, ORDER_CREATED);
    CompletionKeepsDelivery(c, db, db', logs, done, envelope, newEventId, now);
  }

  lemma CompleteTxKeepsDelivery(c: Config, db: Database, logs: Logs, done: Completion, envelope: Envelope,
        newEventId: Uuid, now: Time)
    requires OneEach(db) && PublishedDelivered(c, db, logs) && DoneAfterCreated(c, db, logs)
    requires CompletesEvent(c, db, logs, done, envelope)
    ensures var db' := CompleteTx(db, done, newEventId, now).0;
            PublishedDelivered(c, db', logs) && DoneAfterCreated(c, db', logs)
  {
    var (db', result) := CompleteTx(db, done, newEventId, now);
    if result == Applied {
      AppliedKeepsDelivery(c, db, logs, done, envelope, newEventId, now);
    } else {
      assert db'.outbox == db.outbox && db'.orders == db.orders;
    }
  }

  /** The whole effect of the completion transaction, whether or not its reply arrives. */
  lemma CompleteTxKeeps(c: Config, v: View, s: System, done: Completion, envelope: Envelope, newEventId: Uuid,
        now: Time)
    requires Inv(c, v, s) && CompletesEvent(c, s.db, s.logs, done, envelope)
    requires StatusEvent(done, Pending, newEventId, now).Success?
             ==> v.ok(Identity(Outbox.NewRow(StatusEvent(done, Pending, newEventId, now).value, now)))
    ensures var (db', result) := CompleteTx(s.db, done, newEventId, now);
            && Inv(c, v, s.(db := db')) && DbGrows(s.db, db')
            && (result != CompleteFailed ==> IsDone(db', envelope.aggregateId))
  {
    CompleteKeepsDb(v.ok, s.db, done, envelope, newEventId, now);
    CompleteTxKeepsDelivery(c, s.db, s.logs, done, envelope, newEventId, now);
    DbStepKeeps(c, v, s, CompleteTx(s.db, done, newEventId, now).0);
  }

  // ---------- publishing a copy ----------

  lemma CopyRecordGood(c: Config, v: View, db: Database, logs: Logs, clock: Time, ref: Ref, record: Record,
        copy: Record)
    requires ref.offset < |LogOf(logs, ref.partition)| && record == LogOf(logs, ref.partition)[ref.offset]
    requires ValidConfig(c) && Consumed(c, ref.partition.topic)
             && RecordGood(c, v, db, logs, clock, ref.partition.topic, record)
    requires CopyGood(c, v, clock, record, copy)
    ensures RecordGood(c, v, db, logs, clock, copy.topic, copy)
  {
    IntakeWasCreated(c, v, db, logs, clock, ref, record);
    assert Carries(db, copy, ORDER_CREATED);
    assert IsSourceAt(c, v, logs, ref.partition, ref.offset, copy, v.attempt(record).value);
    assert HasSource(c, v, logs, copy, v.attempt(record).value);
  }

  lemma CopyResolves(c: Config, v: View, db: Database, logs: Logs, clock: Time, index: nat, record: Record,
        copy: Record)
    requires ValidConfig(c) && CopyGood(c, v, clock, record, copy)
    ensures Resolved(c, v, db, Append(logs, Partition(copy.topic, index), copy), record)
  {
    var p, logs' := Partition(copy.topic, index), Append(logs, Partition(copy.topic, index), copy);
    AppendGrows(logs, p, copy);
    if copy.topic == c.consumer.retryTopic {
      assert IsAttemptAt(c, v, logs', p, |LogOf(logs, p)|, record.key, record.value, v.attempt(record).value + 1);
    } else {
      assert IsAt(logs', p, |LogOf(logs, p)|, c.consumer.dlqTopic, record.key, record.value);
    }
  }

  // ---------- one step of processRecord ----------

  /** What processRecord is about to complete is the event it consumed. */
  lemma CompletingConsumed(c: Config, s: System, w: string, ref: Ref)
    requires ValidConfig(c) && Inv(c, RealView(c), s) && HasSlot(s, w, ref) && SlotOf(s, w, ref).Completing?
    ensures CompletesEvent(c, s.db, s.logs, CompletionAt(c, SlotOf(s, w, ref)), SlotOf(s, w, ref).envelope)
    ensures AttemptKnown(c, RealView(c), RecordAt(s, ref), SlotOf(s, w, ref).attempt)
    ensures RecordAt(s, ref).value == EnvelopeJson(SlotOf(s, w, ref).envelope)
  {
    SlotRecord(c, RealView(c), s, w, ref);
    IntakeDecodes(c, s.db, s.logs, s.clock, ref.partition.topic, RecordAt(s, ref));
    IntakeWasCreated(c, RealView(c), s.db, s.logs, s.clock, ref, RecordAt(s, ref));
  }

  lemma CompletionEffectKeeps(c: Config, s: System, done: Completion, envelope: Envelope, newEventId: Uuid, now: Time)
    requires Inv(c, RealView(c), s) && CompletesEvent(c, s.db, s.logs, done, envelope)
    ensures var (db', result) := CompleteTx(s.db, done, newEventId, now);
            && Inv(c, RealView(c), s.(db := db')) && DbGrows(s.db, db')
            && (result != CompleteFailed ==> IsDone(db', envelope.aggregateId))
  {
    if StatusEvent(done, Pending, newEventId, now).Success? {
      StatusIsSound(c.topics, done, newEventId, now);
    }
    CompleteTxKeeps(c, RealView(c), s, done, envelope, newEventId, now);
  }

  /** Afterwards the order is done, or a retry copy is about to be published. */
  lemma CompletedPcGood(c: Config, s: System, record: Record, pc: Pc, step: SlotStep)
    requires ValidConfig(c) && step.Complete? && SlotEnabled(c, s, pc, step)
    requires AttemptKnown(c, RealView(c), record, pc.attempt) && record.value == EnvelopeJson(pc.envelope)
    requires var (db', result) := CompleteTx(s.db, CompletionAt(c, pc), step.newEventId, step.databaseNow);
             result != CompleteFailed ==> IsDone(db', pc.envelope.aggregateId)
    ensures SlotGood(c, RealView(c), SlotEffect(c, s, pc, step).db, s.logs, s.clock, record,
                     SlotNext(c, s, record, pc, step))
  {
    RetryCopyGood(c, s.clock, record, pc.attempt, step.cause, step.now);
  }

  lemma CompleteSlotKeeps(c: Config, s: System, w: string, ref: Ref, step: SlotStep)
    requires ValidConfig(c) && SystemInv(c, s) && CanSlot(c, s, w, ref, step) && step.Complete?
    ensures SystemInv(c, DoSlot(c, s, w, ref, step))
  {
    var record, pc := RecordAt(s, ref), SlotOf(s, w, ref);
    CompletingConsumed(c, s, w, ref);
    CompletionEffectKeeps(c, s, CompletionAt(c, pc), pc.envelope, step.newEventId, step.databaseNow);
    CompletedPcGood(c, s, record, pc, step);
    SetSlotKeeps(c, RealView(c), SlotEffect(c, s, pc, step), w, ref, SlotNext(c, s, record, pc, step));
  }

  /** A published copy is good, and it is the durable outcome of its source. */
  lemma PublishEffectKeeps(c: Config, v: View, s: System, w: string, ref: Ref, index: nat)
    requires ValidConfig(c) && Inv(c, v, s) && HasSlot(s, w, ref) && SlotOf(s, w, ref).Routing?
    ensures var copy := SlotOf(s, w, ref).copy;
            var s' := s.(logs := Append(s.logs, Partition(copy.topic, index), copy));
            && Inv(c, v, s') && HasSlot(s', w, ref) && RecordAt(s', ref) == RecordAt(s, ref)
            && Resolved(c, v, s'.db, s'.logs, RecordAt(s', ref))
  {
    var copy := SlotOf(s, w, ref).copy;
    var p := Partition(copy.topic, index);
    SlotRecord(c, v, s, w, ref);
    CopyRecordGood(c, v, s.db, s.logs, s.clock, ref, RecordAt(s, ref), copy);
    LogStepKeeps(c, v, s, p, copy);
    CopyResolves(c, v, s.db, s.logs, s.clock, index, RecordAt(s, ref), copy);
    AppendGrows(s.logs, p, copy);
  }

  /** The same with the request noted as under way. */
  lemma RoutingEffectKeeps(c: Config, v: View, s: System, w: string, ref: Ref, step: SlotStep)
    requires ValidConfig(c) && Inv(c, v, s) && CanSlot(c, s, w, ref, step) && step.Publish?
    ensures var s' := SlotEffect(c, s, SlotOf(s, w, ref), step);
            && Inv(c, v, s') && HasSlot(s', w, ref) && RecordAt(s', ref) == RecordAt(s, ref)
            && (step.appended ==> Resolved(c, v, s'.db, s'.logs, RecordAt(s', ref)))
  {
    var copy := SlotOf(s, w, ref).copy;
    var s' := StillUnderWay(s, LateRecord(copy), step.acknowledged);
    SlotRecord(c, v, s, w, ref);
    CopyRecordGood(c, v, s.db, s.logs, s.clock, ref, RecordAt(s, ref), copy);
    LateStepKeeps(c, v, s, LateRecord(copy), step.acknowledged);
    if step.appended {
      PublishEffectKeeps(c, v, s', w, ref, step.index);
    }
  }

  lemma PublishSlotKeeps(c: Config, s: System, w: string, ref: Ref, step: SlotStep)
    requires ValidConfig(c) && SystemInv(c, s) && CanSlot(c, s, w, ref, step) && step.Publish?
    ensures SystemInv(c, DoSlot(c, s, w, ref, step))
  {
    var v, pc := RealView(c), SlotOf(s, w, ref);
    RoutingEffectKeeps(c, v, s, w, ref, step);
    SetSlotKeeps(c, v, SlotEffect(c, s, pc, step), w, ref, SlotNext(c, s, RecordAt(s, ref), pc, step));
  }

  /** A completion that got no answer may still be executed. */
  lemma RefusedSlotKeeps(c: Config, s: System, w: string, ref: Ref, step: SlotStep)
    requires ValidConfig(c) && SystemInv(c, s) && CanSlot(c, s, w, ref, step) && step.CompleteRefused?
    ensures SystemInv(c, DoSlot(c, s, w, ref, step))
  {
    var v, pc := RealView(c), SlotOf(s, w, ref);
    CompletingConsumed(c, s, w, ref);
    LateStepKeeps(c, v, s, LateCompletion(CompletionAt(c, pc)), false);
    RetryCopyGood(c, s.clock, RecordAt(s, ref), pc.attempt, step.cause, step.now);
    SetSlotKeeps(c, v, SlotEffect(c, s, pc, step), w, ref, SlotNext(c, s, RecordAt(s, ref), pc, step));
  }

  lemma SlotKeeps(c: Config, s: System, w: string, ref: Ref, step: SlotStep)
    requires ValidConfig(c) && SystemInv(c, s) && CanSlot(c, s, w, ref, step)
    ensures SystemInv(c, DoSlot(c, s, w, ref, step))
  {
    if step.Complete? {
      CompleteSlotKeeps(c, s, w, ref, step);
    } else if step.Publish? {
      PublishSlotKeeps(c, s, w, ref, step);
    } else if step.CompleteRefused? {
      RefusedSlotKeeps(c, s, w, ref, step);
    } else {
      SlotRecord(c, RealView(c), s, w, ref);
      QuietStepGood(c, s, ref, SlotOf(s, w, ref), step);
      SetSlotKeeps(c, RealView(c), s, w, ref, SlotNext(c, s, RecordAt(s, ref), SlotOf(s, w, ref), step));
    }
  }

  // ---------- late requests ----------

  /** Whatever arrives late has the effect that it would have had in time. */
  lemma ArriveKeeps(c: Config, s: System, request: Late, index: nat, newEventId: Uuid, databaseNow: Time)
    requires ValidConfig(c) && Inv(c, RealView(c), s) && request in s.late
    ensures Inv(c, RealView(c), DoArrive(s, request, index, newEventId, databaseNow))
    ensures DoArrive(s, request, index, newEventId, databaseNow).clock == s.clock
  {
    assert LateGood(c, RealView(c), s.db, s.logs, s.clock, request);
    match request
    case LateRecord(record) => LogStepKeeps(c, RealView(c), s, Partition(record.topic, index), record);
    case LateCompletion(done) =>
      var envelope :| CompletesEvent(c, s.db, s.logs, done, envelope);
      CompletionEffectKeeps(c, s, done, envelope, newEventId, databaseNow);
    case LateSettlement(task, how) => SettlementKeeps(c, RealView(c), s, task.row, task.owner, how);
  }

  // ---------- every step, every run ----------

  lemma JoinKeeps(c: Config, v: View, s: System, w: string)
    requires Inv(c, v, s)
    ensures Inv(c, v, SetWorker(s, w, Worker(map[], None)))
  {
    WorkerStepKeeps(c, v, s, w, Worker(map[], None));
  }

  /** Steps that happen to publishers, not by them. */
  lemma MishapKeeps(c: Config, s: System, step: Step)
    requires ValidConfig(c) && SystemInv(c, s) && !OfWorker(step) && OutboxEnabled(c, s, step)
    requires step.CrashPublisher? || step.Arrive?
    ensures SystemInv(c, OutboxNext(c, s, step))
  {
    if step.CrashPublisher? {
      CrashPublisherKeeps(c, RealView(c), s, step.owner);
    } else {
      var s' := DoArrive(s, step.request, step.index, step.newEventId, step.databaseNow);
      assert OutboxNext(c, s, step) == s';
      ArriveKeeps(c, s, step.request, step.index, step.newEventId, step.databaseNow);
      assert SystemInv(c, s');
    }
  }

  lemma PublisherStepKeeps(c: Config, s: System, step: Step)
    requires ValidConfig(c) && SystemInv(c, s) && !OfWorker(step) && OutboxEnabled(c, s, step)
    requires step.PublishRow? || step.SettleRow?
    ensures SystemInv(c, OutboxNext(c, s, step))
  {
    if step.PublishRow? {
      PublishRowKeeps(c, s, step.id, step.index, step.appended, step.acknowledged);
    } else {
      SettleRowKeeps(c, s, step.id, step.executed, step.nextAttempt);
    }
  }

  lemma OutboxNextKeeps(c: Config, s: System, step: Step)
    requires ValidConfig(c) && SystemInv(c, s) && !OfWorker(step) && OutboxEnabled(c, s, step)
    ensures SystemInv(c, OutboxNext(c, s, step))
  {
    match step
    case Tick(to) => TickKeeps(c, RealView(c), s, to);
    case Create(command, requestId, freshId, orderId, eventId, now) =>
      CreateKeeps(c, s, command, requestId, freshId, orderId, eventId, now);
    case Claim(owner, chosen, skipped, limit, lease, replied) =>
      ClaimKeeps(c, RealView(c), s, owner, chosen, skipped, limit, lease, replied);
    case CrashPublisher(_) => MishapKeeps(c, s, step);
    case Arrive(_, _, _, _) => MishapKeeps(c, s, step);
    case _ => PublisherStepKeeps(c, s, step);
  }

  lemma WorkerNextKeeps(c: Config, s: System, step: Step)
    requires ValidConfig(c) && SystemInv(c, s) && OfWorker(step) && WorkerEnabled(c, s, step)
    ensures SystemInv(c, WorkerNext(c, s, step))
  {
    match step
    case Join(w) => JoinKeeps(c, RealView(c), s, w);
    case Assign(w, p) => AssignKeeps(c, RealView(c), s, w, p);
    case Revoke(w, p) => RevokeKeeps(c, RealView(c), s, w, p);
    case Poll(w, take) => PollKeeps(c, RealView(c), s, w, take);
    case PollFailed(w, dropped) => PollFailedKeeps(c, RealView(c), s, w, dropped);
    case Slot(w, ref, step) => SlotKeeps(c, s, w, ref, step);
    case Commit(w, accepted, acknowledged) => CommitKeeps(c, RealView(c), s, w, accepted, acknowledged);
    case CrashWorker(w) => DropWorkerKeeps(c, RealView(c), s, w);
  }

  lemma NextKeeps(c: Config, s: System, step: Step)
    requires ValidConfig(c) && SystemInv(c, s)
    ensures SystemInv(c, Next(c, s, step))
  {
    if Enabled(c, s, step) {
      if OfWorker(step) {
        WorkerNextKeeps(c, s, step);
      } else {
        OutboxNextKeeps(c, s, step);
      }
    }
  }

  lemma InitialInv(c: Config, clock: Time)
    requires clock >= ZERO_TIME
    ensures SystemInv(c, Initial(clock))
  {
  }

  /** The invariant holds in every state that any run reaches. */
  lemma {:induction false} RunKeeps(c: Config, clock: Time, steps: seq<Step>)
    requires ValidConfig(c) && clock >= ZERO_TIME
    ensures SystemInv(c, Run(c, Initial(clock), steps))
  {
    if steps == [] {
      InitialInv(c, clock);
    } else {
      RunKeeps(c, clock, steps[..|steps| - 1]);
      NextKeeps(c, Run(c, Initial(clock), steps[..|steps| - 1]), steps[|steps| - 1]);
    }
  }
}
