/**
 * The whole order pipeline as one machine: order creation, the outbox with its publishers, Kafka as
 * append-only logs with committed offsets, and the consumer group of order workers. One step is one
 * database call, one Kafka call, one clock reading, or one failure. Processes crash at any moment, a
 * publish may append although it reports an error, a transaction may commit although its reply is
 * lost, and a request may take effect long after its caller has given up on it.
 */
module Pipeline {
  import opened Prelude
  import opened Orders
  import opened Events
  import opened Records
  import opened Store
  import Outbox
  import Publisher
  import Consumer

  /**
   * `skew`: every worker clock shows between the true time and `skew` more.
   * `fetchErrorsCarryRecords`: whether a fetch that reports an error may also carry records.
   */
  datatype Config = Config(topics: Publisher.Topics, consumer: Consumer.Config, skew: nat,
                           fetchErrorsCarryRecords: bool)

  predicate ValidConfig(c: Config) {
    && Consumer.ValidConfig(c.consumer)
    && c.topics.orderCreated != c.topics.orderStatusChanged
    && c.consumer.retryTopic != c.topics.orderCreated && c.consumer.retryTopic != c.topics.orderStatusChanged
    && c.consumer.dlqTopic != c.topics.orderCreated && c.consumer.dlqTopic != c.topics.orderStatusChanged
  }

  datatype Partition = Partition(topic: string, index: nat)

  datatype Ref = Ref(partition: Partition, offset: nat)

  type Logs = map<Partition, seq<Record>>

  function LogOf(logs: Logs, p: Partition): seq<Record> {
    if p in logs then logs[p] else []
  }

  function Append(logs: Logs, p: Partition, record: Record): Logs {
    logs[p := LogOf(logs, p) + [record]]
  }

  /** A publisher's work on one claimed row. */
  datatype Task = ToPublish(claimed: Outbox.Event) | Sent(claimed: Outbox.Event) | NotSent(claimed: Outbox.Event)

  datatype TaskId = TaskId(owner: string, row: Uuid)

  /** Where processRecord is with one record; `Handled` and `Errored` are its nil and non-nil results. */
  datatype Pc =
    | Fetched
    | Waiting(attempt: nat, notBefore: Time)
    | Checking(attempt: nat, envelope: Envelope)
    | Processing(attempt: nat, envelope: Envelope)
    | Completing(attempt: nat, envelope: Envelope, status: Status, reason: string)
    | Routing(copy: Record)
    | Handled
    | Errored

  /** A polled batch: the offsets that CommitRecords would commit, and one slot per record. */
  datatype Batch = Batch(upto: map<Partition, nat>, slots: map<Ref, Pc>)

  /** A member of the group: the next offset to fetch for each partition it owns. */
  datatype Worker = Worker(position: map<Partition, nat>, batch: Option<Batch>)

  /**
   * A request whose caller has seen an error or a timeout, or is gone. It may still be under way and
   * take effect later; equal requests may be under way several times.
   */
  datatype Late =
    | LateRecord(record: Record)
    | LateCompletion(completion: Completion)
    | LateSettlement(task: TaskId, how: Outbox.Settlement)

  datatype System = System(
    clock: Time, db: Database, logs: Logs, committed: map<Partition, nat>,
    tasks: map<TaskId, Task>, workers: map<string, Worker>, late: set<Late>)

  function Initial(clock: Time): System {
    System(clock, EMPTY, map[], map[], map[], map[], {})
  }

  /** A request without an answer is still under way. */
  function StillUnderWay(s: System, request: Late, answered: bool): System {
    if answered then s else s.(late := s.late + {request})
  }

  /** An absent committed offset means the start of the log. */
  function Committed(committed: map<Partition, nat>, p: Partition): nat {
    if p in committed then committed[p] else 0
  }

  // ---------- the steps of processRecord on one record ----------

  datatype SlotStep =
    | Screen(now: Time)
    | Cancel
    | Wake(now: Time)
    | CheckAnswered
    | CheckFailed(cause: string, now: Time)
    | ProcessDecided(status: Status, reason: string)
    | ProcessFailed(cause: string, now: Time)
    /** The completion transaction, with the consumer's clock in case it has to retry. */
    | Complete(newEventId: Uuid, databaseNow: Time, replyLost: bool, cause: string, now: Time)
    | CompleteRefused(cause: string, now: Time)
    | Publish(index: nat, appended: bool, acknowledged: bool)

  predicate ClockShows(c: Config, s: System, now: Time) {
    s.clock <= now <= s.clock + c.skew
  }

  predicate SlotEnabled(c: Config, s: System, pc: Pc, step: SlotStep) {
    match step
    case Screen(now) => pc.Fetched? && ClockShows(c, s, now)
    case Cancel => !pc.Handled? && !pc.Errored?
    case Wake(now) => pc.Waiting? && ClockShows(c, s, now) && pc.notBefore <= now
    case CheckAnswered => pc.Checking?
    case CheckFailed(_, now) => pc.Checking? && ClockShows(c, s, now)
    case ProcessDecided(status, _) => pc.Processing? && status != Pending
    case ProcessFailed(_, now) => pc.Processing? && ClockShows(c, s, now)
    case Complete(_, _, _, _, now) => pc.Completing? && ClockShows(c, s, now)
    case CompleteRefused(_, now) => pc.Completing? && ClockShows(c, s, now)
    case Publish(_, appended, acknowledged) => pc.Routing? && (acknowledged ==> appended)
  }

  function RetryPc(c: Config, record: Record, attempt: nat, cause: string, now: Time): Pc
    requires ValidConfig(c)
  {
    Routing(Consumer.RetryRecord(c.consumer, record, attempt, cause, now))
  }

  function DlqPc(c: Config, record: Record, attempt: nat, reason: string): Pc {
    Routing(Consumer.DlqRecord(c.consumer, record, attempt, reason))
  }

  function CompletionAt(c: Config, pc: Pc): Completion
    requires pc.Completing?
  {
    Consumer.CompletionOf(c.consumer, pc.envelope, pc.status, pc.reason)
  }

  /** The next program counter. */
  function SlotNext(c: Config, s: System, record: Record, pc: Pc, step: SlotStep): Pc
    requires ValidConfig(c) && SlotEnabled(c, s, pc, step)
  {
    match step
    case Screen(now) =>
      (match Consumer.Screen(c.consumer, record, now)
       case ToDlq(attempt, reason) => DlqPc(c, record, attempt, reason)
       case WaitFor(attempt, notBefore) => Waiting(attempt, notBefore))
    case Cancel => Errored
    case Wake(_) =>
      (match Consumer.Decode(record)
       case Malformed(reason) => DlqPc(c, record, pc.attempt, reason)
       case Genuine(envelope) => Checking(pc.attempt, envelope))
    case CheckAnswered =>
      if ProcessedKey(c.consumer.consumerName, pc.envelope.eventId) in s.db.processed then Handled
      else if !Consumer.PayloadOk(pc.envelope) then DlqPc(c, record, pc.attempt, "invalid payload")
      else Processing(pc.attempt, pc.envelope)
    case CheckFailed(cause, now) => RetryPc(c, record, pc.attempt, cause, now)
    case ProcessDecided(status, reason) => Completing(pc.attempt, pc.envelope, status, reason)
    case ProcessFailed(cause, now) => RetryPc(c, record, pc.attempt, cause, now)
    case Complete(newEventId, databaseNow, replyLost, cause, now) =>
      if CompleteTx(s.db, CompletionAt(c, pc), newEventId, databaseNow).1.CompleteFailed? || replyLost
        then RetryPc(c, record, pc.attempt, cause, now) else Handled
    case CompleteRefused(cause, now) => RetryPc(c, record, pc.attempt, cause, now)
    case Publish(_, _, acknowledged) => if acknowledged then Handled else Errored
  }

  /** The effect on the database and on Kafka. */
  function SlotEffect(c: Config, s: System, pc: Pc, step: SlotStep): System
    requires SlotEnabled(c, s, pc, step)
  {
    match step
    case Complete(newEventId, databaseNow, _, _, _) =>
      s.(db := CompleteTx(s.db, CompletionAt(c, pc), newEventId, databaseNow).0)
    case CompleteRefused(_, _) => StillUnderWay(s, LateCompletion(CompletionAt(c, pc)), false)
    case Publish(index, appended, acknowledged) =>
      StillUnderWay(if appended then s.(logs := Append(s.logs, Partition(pc.copy.topic, index), pc.copy)) else s,
                    LateRecord(pc.copy), acknowledged)
    case _ => s
  }

  // ---------- all steps ----------

  datatype Step =
    | Tick(to: Time)
    /** Service.Create */
    | Create(command: CreateCommand, requestId: string, freshRequestId: string, orderId: Uuid, eventId: Uuid, now: Time)
    /** Claim; without a reply the publisher knows nothing of what it claimed. */
    | Claim(owner: string, chosen: seq<Uuid>, skipped: set<Uuid>, limit: nat, lease: int64, replied: bool)
    | PublishRow(id: TaskId, index: nat, appended: bool, acknowledged: bool)
    | SettleRow(id: TaskId, executed: bool, nextAttempt: Time)
    | CrashPublisher(owner: string)
    | Arrive(request: Late, index: nat, newEventId: Uuid, databaseNow: Time)
    | Join(worker: string)
    | Assign(worker: string, partition: Partition)
    | Revoke(worker: string, partition: Partition)
    | Poll(worker: string, take: map<Partition, nat>)
    | PollFailed(worker: string, dropped: map<Partition, nat>)
    | Slot(worker: string, ref: Ref, step: SlotStep)
    | Commit(worker: string, accepted: set<Partition>, acknowledged: bool)
    | CrashWorker(worker: string)

  predicate Consumed(c: Config, topic: string) {
    topic == c.topics.orderCreated || topic == c.consumer.retryTopic
  }

  predicate HasBatch(s: System, w: string) {
    w in s.workers && s.workers[w].batch.Some?
  }

  predicate Free(s: System, w: string) {
    w in s.workers && s.workers[w].batch.None?
  }

  /** The batch reads `take[p]` further records of each of its partitions. */
  predicate CanTake(s: System, w: string, take: map<Partition, nat>)
    requires w in s.workers
  {
    forall p :: p in take ==> p in s.workers[w].position && s.workers[w].position[p] + take[p] <= |LogOf(s.logs, p)|
  }

  predicate HasSlot(s: System, w: string, ref: Ref) {
    && HasBatch(s, w) && ref in s.workers[w].batch.value.slots
    && ref.offset < |LogOf(s.logs, ref.partition)|
  }

  function SlotOf(s: System, w: string, ref: Ref): Pc
    requires HasSlot(s, w, ref)
  {
    s.workers[w].batch.value.slots[ref]
  }

  function Polled(position: map<Partition, nat>, take: map<Partition, nat>): map<Partition, nat>
    requires take.Keys <= position.Keys
  {
    map p | p in position :: if p in take then position[p] + take[p] else position[p]
  }

  /** The references of the polled records. */
  function PolledRefs(position: map<Partition, nat>, take: map<Partition, nat>): set<Ref>
    requires take.Keys <= position.Keys
  {
    set p, i | p in take.Keys && position[p] <= i < position[p] + take[p] :: Ref(p, i)
  }

  function NewBatch(position: map<Partition, nat>, take: map<Partition, nat>): Batch
    requires take.Keys <= position.Keys
  {
    Batch(map p | p in take.Keys && take[p] > 0 :: position[p] + take[p],
          map ref | ref in PolledRefs(position, take) :: Fetched)
  }

  function TaskSettlement(t: Task, clock: Time, nextAttempt: Time): Outbox.Settlement {
    match t
    case ToPublish(_) => Outbox.Reject
    case Sent(_) => Outbox.Publish(clock)
    case NotSent(_) => Outbox.ReleaseUntil(nextAttempt)
  }

  function ClaimedTasks(tasks: map<TaskId, Task>, rows: Outbox.Table, owner: string, chosen: seq<Uuid>)
    : map<TaskId, Task>
    requires forall id :: id in chosen ==> id in rows
  {
    map t | t in tasks.Keys + (set id | id in chosen :: TaskId(owner, id)) ::
      if t.owner == owner && t.row in chosen then ToPublish(Outbox.EventOf(rows[t.row])) else tasks[t]
  }

  function SetWorker(s: System, w: string, worker: Worker): System {
    s.(workers := s.workers[w := worker])
  }

  function Drop<K, V>(m: map<K, V>, k: K): map<K, V> {
    m - {k}
  }

  // ---------- publishers ----------

  predicate CanPublishRow(c: Config, s: System, id: TaskId, appended: bool, acknowledged: bool) {
    && id in s.tasks && s.tasks[id].ToPublish? && Publisher.Accepts(c.topics, s.tasks[id].claimed)
    && (acknowledged ==> appended)
  }

  predicate CanSettleRow(c: Config, s: System, id: TaskId) {
    id in s.tasks && (s.tasks[id].ToPublish? ==> !Publisher.Accepts(c.topics, s.tasks[id].claimed))
  }

  function DoCreate(s: System, command: CreateCommand, requestId: string, freshId: string, orderId: Uuid,
        eventId: Uuid, now: Time): System {
    match CreateOrder(command, requestId, freshId, orderId, eventId, now)
    case Failure(_) => s
    case Success((order, envelope)) =>
      match CreateTx(s.db, order, envelope, s.clock)
      case None => s
      case Some(db) => s.(db := db)
  }

  function DoClaim(s: System, owner: string, chosen: seq<Uuid>, lease: int64, replied: bool): System
    requires forall id :: id in chosen ==> id in s.db.outbox
  {
    var rows := Outbox.ClaimRows(s.db.outbox, chosen, owner, s.clock, lease);
    s.(db := s.db.(outbox := rows), tasks := if replied then ClaimedTasks(s.tasks, rows, owner, chosen) else s.tasks)
  }

  function DoPublishRow(c: Config, s: System, id: TaskId, index: nat, appended: bool, acknowledged: bool): System
    requires CanPublishRow(c, s, id, appended, acknowledged)
  {
    var claimed := s.tasks[id].claimed;
    var record := Publisher.PublishedRecord(c.topics, claimed);
    StillUnderWay(s.(logs := if appended then Append(s.logs, Partition(record.topic, index), record) else s.logs,
                     tasks := s.tasks[id := if acknowledged then Sent(claimed) else NotSent(claimed)]),
                  LateRecord(record), acknowledged)
  }

  function DoSettleRow(c: Config, s: System, id: TaskId, executed: bool, nextAttempt: Time): System
    requires CanSettleRow(c, s, id)
  {
    var how := TaskSettlement(s.tasks[id], s.clock, nextAttempt);
    StillUnderWay(s.(db := if executed
                           then s.db.(outbox := Outbox.Settle(s.db.outbox, id.row, id.owner, how)) else s.db,
                     tasks := Drop(s.tasks, id)),
                  LateSettlement(id, how), executed)
  }

  /** A late request takes effect, although nobody waits for it any more. */
  function DoArrive(s: System, request: Late, index: nat, newEventId: Uuid, databaseNow: Time): System {
    match request
    case LateRecord(record) => s.(logs := Append(s.logs, Partition(record.topic, index), record))
    case LateCompletion(completion) => s.(db := CompleteTx(s.db, completion, newEventId, databaseNow).0)
    case LateSettlement(task, how) => s.(db := s.db.(outbox := Outbox.Settle(s.db.outbox, task.row, task.owner, how)))
  }

  function DoCrashPublisher(s: System, owner: string): System {
    s.(tasks := map t | t in s.tasks && t.owner != owner :: s.tasks[t])
  }

  // ---------- workers ----------

  /** A partition has one owner, and rebalances wait for the batch in progress. */
  predicate CanAssign(c: Config, s: System, w: string, p: Partition) {
    Free(s, w) && Consumed(c, p.topic) && forall v :: v in s.workers ==> p !in s.workers[v].position
  }

  /** A member can lose a partition even in the middle of a batch, when it is declared dead. */
  predicate CanRevoke(s: System, w: string, p: Partition) {
    w in s.workers && p in s.workers[w].position
  }

  predicate CanPoll(s: System, w: string, take: map<Partition, nat>) {
    Free(s, w) && CanTake(s, w, take) && exists p :: p in take && take[p] > 0
  }

  predicate CanPollFailed(c: Config, s: System, w: string, dropped: map<Partition, nat>) {
    && Free(s, w) && CanTake(s, w, dropped)
    && (!c.fetchErrorsCarryRecords ==> forall p :: p in dropped ==> dropped[p] == 0)
  }

  predicate CanSlot(c: Config, s: System, w: string, ref: Ref, step: SlotStep) {
    HasSlot(s, w, ref) && SlotEnabled(c, s, SlotOf(s, w, ref), step)
  }

  predicate AllHandled(batch: Batch) {
    forall ref :: ref in batch.slots ==> batch.slots[ref].Handled?
  }

  /** Only when every slot is nil; the broker refuses offsets of partitions the member has lost. */
  predicate CanCommit(s: System, w: string, accepted: set<Partition>, acknowledged: bool) {
    && HasBatch(s, w) && AllHandled(s.workers[w].batch.value)
    && accepted <= s.workers[w].batch.value.upto.Keys && accepted <= s.workers[w].position.Keys
    && (acknowledged ==> accepted == s.workers[w].batch.value.upto.Keys)
  }

  function DoAssign(c: Config, s: System, w: string, p: Partition): System
    requires CanAssign(c, s, w, p)
  {
    SetWorker(s, w, s.workers[w].(position := s.workers[w].position[p := Committed(s.committed, p)]))
  }

  function DoRevoke(s: System, w: string, p: Partition): System
    requires CanRevoke(s, w, p)
  {
    SetWorker(s, w, s.workers[w].(position := Drop(s.workers[w].position, p)))
  }

  function DoPoll(s: System, w: string, take: map<Partition, nat>): System
    requires CanPoll(s, w, take)
  {
    SetWorker(s, w, Worker(Polled(s.workers[w].position, take), Some(NewBatch(s.workers[w].position, take))))
  }

  function DoPollFailed(c: Config, s: System, w: string, dropped: map<Partition, nat>): System
    requires CanPollFailed(c, s, w, dropped)
  {
    SetWorker(s, w, s.workers[w].(position := Polled(s.workers[w].position, dropped)))
  }

  function SetSlot(s: System, w: string, ref: Ref, pc: Pc): System
    requires HasBatch(s, w)
  {
    var batch := s.workers[w].batch.value;
    SetWorker(s, w, s.workers[w].(batch := Some(batch.(slots := batch.slots[ref := pc]))))
  }

  function RecordAt(s: System, ref: Ref): Record
    requires ref.offset < |LogOf(s.logs, ref.partition)|
  {
    LogOf(s.logs, ref.partition)[ref.offset]
  }

  function DoSlot(c: Config, s: System, w: string, ref: Ref, step: SlotStep): System
    requires ValidConfig(c) && CanSlot(c, s, w, ref, step)
  {
    var pc := SlotOf(s, w, ref);
    SetSlot(SlotEffect(c, s, pc, step), w, ref, SlotNext(c, s, RecordAt(s, ref), pc, step))
  }

  /** The new committed offsets. */
  function AfterCommit(committed: map<Partition, nat>, batch: Batch, accepted: set<Partition>): map<Partition, nat>
    requires accepted <= batch.upto.Keys
  {
    map p | p in committed.Keys + accepted :: if p in accepted then batch.upto[p] else committed[p]
  }

  function DoCommit(s: System, w: string, accepted: set<Partition>, acknowledged: bool): System
    requires CanCommit(s, w, accepted, acknowledged)
  {
    var s' := s.(committed := AfterCommit(s.committed, s.workers[w].batch.value, accepted));
    if acknowledged then SetWorker(s', w, s.workers[w].(batch := None)) else DoCrashWorker(s', w)
  }

  function DoCrashWorker(s: System, w: string): System {
    s.(workers := Drop(s.workers, w))
  }

  // ---------- runs ----------

  predicate OfWorker(step: Step) {
    || step.Join? || step.Assign? || step.Revoke? || step.Poll? || step.PollFailed?
    || step.Slot? || step.Commit? || step.CrashWorker?
  }

  predicate WorkerEnabled(c: Config, s: System, step: Step)
    requires OfWorker(step)
  {
    match step
    case Join(w) => w !in s.workers
    case Assign(w, p) => CanAssign(c, s, w, p)
    case Revoke(w, p) => CanRevoke(s, w, p)
    case Poll(w, take) => CanPoll(s, w, take)
    case PollFailed(w, dropped) => CanPollFailed(c, s, w, dropped)
    case Slot(w, ref, step) => CanSlot(c, s, w, ref, step)
    case Commit(w, accepted, acknowledged) => CanCommit(s, w, accepted, acknowledged)
    case CrashWorker(w) => w in s.workers
  }

  function WorkerNext(c: Config, s: System, step: Step): System
    requires ValidConfig(c) && OfWorker(step) && WorkerEnabled(c, s, step)
  {
    match step
    case Join(w) => SetWorker(s, w, Worker(map[], None))
    case Assign(w, p) => DoAssign(c, s, w, p)
    case Revoke(w, p) => DoRevoke(s, w, p)
    case Poll(w, take) => DoPoll(s, w, take)
    case PollFailed(w, dropped) => DoPollFailed(c, s, w, dropped)
    case Slot(w, ref, step) => DoSlot(c, s, w, ref, step)
    case Commit(w, accepted, acknowledged) => DoCommit(s, w, accepted, acknowledged)
    case CrashWorker(w) => DoCrashWorker(s, w)
  }

  predicate OutboxEnabled(c: Config, s: System, step: Step)
    requires !OfWorker(step)
  {
    match step
    case Tick(to) => s.clock <= to
    case Create(_, _, _, _, _, _) => true
    case Claim(_, chosen, skipped, limit, _, _) => Outbox.ValidChoice(s.db.outbox, chosen, skipped, limit, s.clock)
    case PublishRow(id, _, appended, acknowledged) => CanPublishRow(c, s, id, appended, acknowledged)
    case SettleRow(id, _, _) => CanSettleRow(c, s, id)
    case CrashPublisher(_) => true
    case Arrive(request, _, _, _) => request in s.late
  }

  function OutboxNext(c: Config, s: System, step: Step): System
    requires !OfWorker(step) && OutboxEnabled(c, s, step)
  {
    match step
    case Tick(to) => s.(clock := to)
    case Create(command, requestId, freshId, orderId, eventId, now) =>
      DoCreate(s, command, requestId, freshId, orderId, eventId, now)
    case Claim(owner, chosen, _, _, lease, replied) => DoClaim(s, owner, chosen, lease, replied)
    case PublishRow(id, index, appended, acknowledged) => DoPublishRow(c, s, id, index, appended, acknowledged)
    case SettleRow(id, executed, nextAttempt) => DoSettleRow(c, s, id, executed, nextAttempt)
    case CrashPublisher(owner) => DoCrashPublisher(s, owner)
    case Arrive(request, index, newEventId, databaseNow) => DoArrive(s, request, index, newEventId, databaseNow)
  }

  predicate Enabled(c: Config, s: System, step: Step) {
    if OfWorker(step) then WorkerEnabled(c, s, step) else OutboxEnabled(c, s, step)
  }

  /** A step that is not enabled leaves the state as it is. */
  function Next(c: Config, s: System, step: Step): System
    requires ValidConfig(c)
  {
    if !Enabled(c, s, step) then s
    else if OfWorker(step) then WorkerNext(c, s, step)
    else OutboxNext(c, s, step)
  }

  function Run(c: Config, s: System, steps: seq<Step>): System
    requires ValidConfig(c)
  {
    if steps == [] then s else Next(c, Run(c, s, steps[..|steps| - 1]), steps[|steps| - 1])
  }
}
