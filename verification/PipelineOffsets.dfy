/**
 * How the pipeline grows, and what lies below its committed offsets. Growth holds in every run. That
 * everything below a committed offset has a durable outcome holds as long as no fetch drops records.
 */
module PipelineOffsets {
  import opened Prelude
  import opened Orders
  import opened Events
  import opened Store
  import opened Pipeline
  import opened PipelineData
  import opened PipelineInvariant
  import opened PipelineSteps
  import Publisher

  // ---------- growth ----------

  /** Nothing that was stored, logged or committed is ever taken back. */
  ghost predicate Grows(s: System, s': System) {
    && DbGrows(s.db, s'.db) && LogsGrow(s.logs, s'.logs) && s.clock <= s'.clock
    && forall p :: Committed(s.committed, p) <= Committed(s'.committed, p)
  }

  lemma EffectGrows(c: Config, s: System, w: string, ref: Ref, step: SlotStep)
    requires ValidConfig(c) && SystemInv(c, s) && CanSlot(c, s, w, ref, step)
    ensures Grows(s, SlotEffect(c, s, SlotOf(s, w, ref), step))
  {
    var pc := SlotOf(s, w, ref);
    SameDbGrows(s.db);
    SameLogsGrow(s.logs);
    if step.Complete? {
      CompletingConsumed(c, s, w, ref);
      CompletionEffectKeeps(c, s, CompletionAt(c, pc), pc.envelope, step.newEventId, step.databaseNow);
    } else if step.Publish? {
      AppendGrows(s.logs, Partition(pc.copy.topic, step.index), pc.copy);
    }
  }

  lemma SetSlotGrows(s: System, s': System, w: string, ref: Ref, pc: Pc)
    requires Grows(s, s') && HasBatch(s', w)
    ensures Grows(s, SetSlot(s', w, ref, pc))
  {
  }

  lemma SlotGrows(c: Config, s: System, w: string, ref: Ref, step: SlotStep)
    requires ValidConfig(c) && SystemInv(c, s) && CanSlot(c, s, w, ref, step)
    ensures Grows(s, DoSlot(c, s, w, ref, step))
  {
    EffectGrows(c, s, w, ref, step);
    var pc := SlotOf(s, w, ref);
    SetSlotGrows(s, SlotEffect(c, s, pc, step), w, ref, SlotNext(c, s, RecordAt(s, ref), pc, step));
  }

  lemma CommitGrows(c: Config, s: System, w: string, accepted: set<Partition>, acknowledged: bool)
    requires SystemInv(c, s) && CanCommit(s, w, accepted, acknowledged)
    ensures Grows(s, DoCommit(s, w, accepted, acknowledged))
  {
    SameDbGrows(s.db);
    SameLogsGrow(s.logs);
    var worker := s.workers[w];
    assert WorkerGood(c, RealView(c), s.db, s.logs, s.clock, s.committed, worker);
    assert PositionsGood(c, s.logs, s.committed, worker);
  }

  lemma OutboxNextGrows(c: Config, s: System, step: Step)
    requires ValidConfig(c) && SystemInv(c, s) && !OfWorker(step) && OutboxEnabled(c, s, step)
    ensures Grows(s, OutboxNext(c, s, step))
  {
    SameDbGrows(s.db);
    SameLogsGrow(s.logs);
    var ok := RealView(c).ok;
    match step
    case Create(command, requestId, freshId, orderId, eventId, now) =>
      CreateGrows(c, s, command, requestId, freshId, orderId, eventId, now);
    case Claim(owner, chosen, skipped, limit, lease, _) =>
      ClaimKeepsDb(ok, s.db, chosen, skipped, limit, owner, s.clock, lease);
    case PublishRow(id, index, _, _) =>
      var record := Publisher.PublishedRecord(c.topics, s.tasks[id].claimed);
      AppendGrows(s.logs, Partition(record.topic, index), record);
    case SettleRow(id, _, nextAttempt) =>
      TaskIsSound(c, s, id);
      SettleKeepsDb(ok, s.db, id.row, id.owner, TaskSettlement(s.tasks[id], s.clock, nextAttempt));
    case Arrive(request, index, newEventId, databaseNow) => ArriveGrows(c, s, request, index, newEventId, databaseNow);
    case _ =>
  }

  lemma ArriveGrows(c: Config, s: System, request: Late, index: nat, newEventId: Uuid, databaseNow: Time)
    requires ValidConfig(c) && Inv(c, RealView(c), s) && request in s.late
    ensures Grows(s, DoArrive(s, request, index, newEventId, databaseNow))
  {
    SameDbGrows(s.db);
    SameLogsGrow(s.logs);
    assert LateGood(c, RealView(c), s.db, s.logs, s.clock, request);
    match request
    case LateRecord(record) => AppendGrows(s.logs, Partition(record.topic, index), record);
    case LateCompletion(done) =>
      var envelope :| CompletesEvent(c, s.db, s.logs, done, envelope);
      CompletionEffectKeeps(c, s, done, envelope, newEventId, databaseNow);
    case LateSettlement(task, how) => SettleKeepsDb(RealView(c).ok, s.db, task.row, task.owner, how);
  }

  lemma CreateGrows(c: Config, s: System, command: CreateCommand, requestId: string, freshId: string, orderId: Uuid,
        eventId: Uuid, now: Time)
    requires Inv(c, RealView(c), s)
    ensures Grows(s, DoCreate(s, command, requestId, freshId, orderId, eventId, now))
  {
    SameDbGrows(s.db);
    SameLogsGrow(s.logs);
    var created := CreateOrder(command, requestId, freshId, orderId, eventId, now);
    if created.Success? && CreateTx(s.db, created.value.0, created.value.1, s.clock).Some? {
      CreateInserts(s.db, created.value.0, created.value.1, s.clock);
    }
  }

  lemma NextGrows(c: Config, s: System, step: Step)
    requires ValidConfig(c) && SystemInv(c, s)
    ensures Grows(s, Next(c, s, step))
  {
    SameDbGrows(s.db);
    SameLogsGrow(s.logs);
    if Enabled(c, s, step) {
      if !OfWorker(step) {
        OutboxNextGrows(c, s, step);
      } else if step.Slot? {
        SlotGrows(c, s, step.worker, step.ref, step.step);
      } else if step.Commit? {
        CommitGrows(c, s, step.worker, step.accepted, step.acknowledged);
      }
    }
  }

  lemma GrowsTransitive(s: System, t: System, u: System)
    requires Grows(s, t) && Grows(t, u)
    ensures Grows(s, u)
  {
  }

  /** From any reachable state on: a final status, a log entry, a publication is final. */
  lemma {:induction false} NothingIsTakenBack(c: Config, s: System, steps: seq<Step>)
    requires ValidConfig(c) && SystemInv(c, s)
    ensures SystemInv(c, Run(c, s, steps)) && Grows(s, Run(c, s, steps))
  {
    if steps == [] {
      SameDbGrows(s.db);
      SameLogsGrow(s.logs);
    } else {
      var before := Run(c, s, steps[..|steps| - 1]);
      NothingIsTakenBack(c, s, steps[..|steps| - 1]);
      NextKeeps(c, before, steps[|steps| - 1]);
      NextGrows(c, before, steps[|steps| - 1]);
      GrowsTransitive(s, before, Run(c, s, steps));
    }
  }

  // ---------- below the committed offsets ----------

  ghost predicate ResolvedAt(c: Config, v: View, db: Database, logs: Logs, p: Partition, i: nat) {
    i < |LogOf(logs, p)| && Resolved(c, v, db, logs, LogOf(logs, p)[i])
  }

  ghost predicate CommitsSafe(c: Config, v: View, db: Database, logs: Logs, committed: map<Partition, nat>) {
    forall p, i: nat :: i < Committed(committed, p) ==> ResolvedAt(c, v, db, logs, p, i)
  }

  /** The batch covers everything between the committed offset and the offset that it will commit. */
  predicate Covers(batch: Batch, p: Partition, committed: nat) {
    && p in batch.upto && committed <= batch.upto[p]
    && forall i :: committed <= i < batch.upto[p] ==> Ref(p, i) in batch.slots
  }

  /** A worker goes on reading at the committed offset, or after a batch that covers the rest. */
  ghost predicate NoGaps(committed: map<Partition, nat>, w: Worker) {
    forall p :: p in w.position ==>
      if w.batch.Some? && p in w.batch.value.upto
        then Covers(w.batch.value, p, Committed(committed, p)) else w.position[p] == Committed(committed, p)
  }

  ghost predicate OffsetsGood(c: Config, v: View, s: System) {
    && CommitsSafe(c, v, s.db, s.logs, s.committed)
    && forall w :: w in s.workers ==> NoGaps(s.committed, s.workers[w])
  }

  lemma CommitsStable(c: Config, v: View, s: System, s': System)
    requires DbGrows(s.db, s'.db) && LogsGrow(s.logs, s'.logs) && s'.committed == s.committed
    requires CommitsSafe(c, v, s.db, s.logs, s.committed)
    ensures CommitsSafe(c, v, s'.db, s'.logs, s'.committed)
  {
    forall p, i: nat | i < Committed(s.committed, p) ensures ResolvedAt(c, v, s'.db, s'.logs, p, i) {
      assert ResolvedAt(c, v, s.db, s.logs, p, i);
      ResolvedStable(c, v, s.db, s'.db, s.logs, s'.logs, LogOf(s.logs, p)[i]);
    }
  }

  /** A poll that begins at the committed offset leaves no gap. */
  lemma PollLeavesNoGap(s: System, w: string, take: map<Partition, nat>)
    requires CanPoll(s, w, take) && NoGaps(s.committed, s.workers[w])
    ensures NoGaps(s.committed, DoPoll(s, w, take).workers[w])
  {
    var position, batch := s.workers[w].position, NewBatch(s.workers[w].position, take);
    forall p | p in position && p in batch.upto ensures Covers(batch, p, Committed(s.committed, p)) {
      forall i | Committed(s.committed, p) <= i < batch.upto[p] ensures Ref(p, i) in batch.slots {
        assert Ref(p, i) in PolledRefs(position, take);
      }
    }
  }

  /** A failed fetch that carried no records moves nothing. */
  lemma NothingDropped(c: Config, s: System, w: string, dropped: map<Partition, nat>)
    requires CanPollFailed(c, s, w, dropped) && !c.fetchErrorsCarryRecords
    ensures DoPollFailed(c, s, w, dropped) == s
  {
    assert Polled(s.workers[w].position, dropped) == s.workers[w].position;
    assert s.workers[w].(position := Polled(s.workers[w].position, dropped)) == s.workers[w];
    assert s.workers[w := s.workers[w]] == s.workers;
  }

  lemma SlotLeavesNoGap(committed: map<Partition, nat>, worker: Worker, ref: Ref, pc: Pc)
    requires NoGaps(committed, worker) && worker.batch.Some? && ref in worker.batch.value.slots
    ensures NoGaps(committed, worker.(batch := Some(worker.batch.value.(slots := worker.batch.value.slots[ref := pc]))))
  {
    var worker' := worker.(batch := Some(worker.batch.value.(slots := worker.batch.value.slots[ref := pc])));
    forall p | p in worker.position && p in worker.batch.value.upto
      ensures Covers(worker'.batch.value, p, Committed(committed, p))
    {
      assert Covers(worker.batch.value, p, Committed(committed, p));
    }
  }

  /** What a commit passes over has been handled in this batch or was already below the committed offset. */
  lemma PassedIsResolved(c: Config, v: View, db: Database, logs: Logs, clock: Time, committed: map<Partition, nat>,
        worker: Worker, p: Partition)
    requires WorkerGood(c, v, db, logs, clock, committed, worker) && NoGaps(committed, worker)
    requires CommitsSafe(c, v, db, logs, committed)
    requires worker.batch.Some? && p in worker.position && p in worker.batch.value.upto
    requires AllHandled(worker.batch.value)
    ensures forall i: nat :: i < worker.batch.value.upto[p] ==> ResolvedAt(c, v, db, logs, p, i)
  {
    var batch := worker.batch.value;
    assert UptoGood(c, logs, batch) && Covers(batch, p, Committed(committed, p));
    forall i: nat | i < batch.upto[p] ensures ResolvedAt(c, v, db, logs, p, i) {
      if i >= Committed(committed, p) {
        assert Ref(p, i) in batch.slots;
        assert SlotGood(c, v, db, logs, clock, LogOf(logs, p)[i], batch.slots[Ref(p, i)]);
      }
    }
  }

  lemma CommitIsSafe(c: Config, v: View, s: System, w: string, accepted: set<Partition>, acknowledged: bool)
    requires Inv(c, v, s) && OffsetsGood(c, v, s) && CanCommit(s, w, accepted, acknowledged)
    ensures CommitsSafe(c, v, s.db, s.logs, AfterCommit(s.committed, s.workers[w].batch.value, accepted))
  {
    var batch, committed' := s.workers[w].batch.value, AfterCommit(s.committed, s.workers[w].batch.value, accepted);
    forall p, i: nat | i < Committed(committed', p) ensures ResolvedAt(c, v, s.db, s.logs, p, i) {
      if p in accepted {
        PassedIsResolved(c, v, s.db, s.logs, s.clock, s.committed, s.workers[w], p);
      } else {
        assert i < Committed(s.committed, p);
      }
    }
  }

  /** After a full commit the worker has no batch, and reads on where it ended. */
  lemma CommitterHasNoGap(c: Config, logs: Logs, committed: map<Partition, nat>, worker: Worker)
    requires PositionsGood(c, logs, committed, worker) && NoGaps(committed, worker) && worker.batch.Some?
    ensures NoGaps(AfterCommit(committed, worker.batch.value, worker.batch.value.upto.Keys), worker.(batch := None))
  {
  }

  lemma CommitKeepsOffsets(c: Config, v: View, s: System, w: string, accepted: set<Partition>, acknowledged: bool)
    requires Inv(c, v, s) && OffsetsGood(c, v, s) && CanCommit(s, w, accepted, acknowledged)
    ensures OffsetsGood(c, v, DoCommit(s, w, accepted, acknowledged))
  {
    var s' := DoCommit(s, w, accepted, acknowledged);
    CommitIsSafe(c, v, s, w, accepted, acknowledged);
    CommitMovesOnlyOwn(c, s, w, accepted);
    forall o | o in s'.workers ensures NoGaps(s'.committed, s'.workers[o]) {
      if o == w {
        assert WorkerGood(c, v, s.db, s.logs, s.clock, s.committed, s.workers[w]);
        CommitterHasNoGap(c, s.logs, s.committed, s.workers[w]);
      } else {
        assert NoGaps(s.committed, s.workers[o]);
      }
    }
  }

  /** No step but a commit moves an offset or leaves a gap. */
  ghost predicate LeavesNoGap(s: System, s': System) {
    && s'.committed == s.committed
    && forall w :: w in s'.workers ==>
         (w in s.workers && s'.workers[w] == s.workers[w]) || NoGaps(s.committed, s'.workers[w])
  }

  lemma OutboxKeepsWorkers(c: Config, s: System, step: Step)
    requires !OfWorker(step) && OutboxEnabled(c, s, step)
    ensures OutboxNext(c, s, step).committed == s.committed && OutboxNext(c, s, step).workers == s.workers
  {
  }

  lemma SlotStepLeavesNoGap(c: Config, s: System, w: string, ref: Ref, step: SlotStep)
    requires ValidConfig(c) && CanSlot(c, s, w, ref, step) && NoGaps(s.committed, s.workers[w])
    ensures LeavesNoGap(s, DoSlot(c, s, w, ref, step))
  {
    SlotLeavesNoGap(s.committed, s.workers[w], ref, SlotNext(c, s, RecordAt(s, ref), SlotOf(s, w, ref), step));
  }

  lemma WorkerLeavesNoGap(c: Config, s: System, step: Step)
    requires ValidConfig(c) && OfWorker(step) && WorkerEnabled(c, s, step) && !step.Commit?
    requires !c.fetchErrorsCarryRecords && forall w :: w in s.workers ==> NoGaps(s.committed, s.workers[w])
    ensures LeavesNoGap(s, WorkerNext(c, s, step))
  {
    match step
    case Poll(w, take) => PollLeavesNoGap(s, w, take);
    case PollFailed(w, dropped) => NothingDropped(c, s, w, dropped);
    case Slot(w, ref, slotStep) => SlotStepLeavesNoGap(c, s, w, ref, slotStep);
    case _ =>
  }

  lemma QuietKeepsOffsets(c: Config, v: View, s: System, s': System)
    requires OffsetsGood(c, v, s) && Grows(s, s') && LeavesNoGap(s, s')
    ensures OffsetsGood(c, v, s')
  {
    CommitsStable(c, v, s, s');
  }

  lemma NextKeepsOffsets(c: Config, s: System, step: Step)
    requires ValidConfig(c) && SystemInv(c, s) && OffsetsGood(c, RealView(c), s) && !c.fetchErrorsCarryRecords
    ensures OffsetsGood(c, RealView(c), Next(c, s, step))
  {
    if Enabled(c, s, step) {
      if step.Commit? {
        CommitKeepsOffsets(c, RealView(c), s, step.worker, step.accepted, step.acknowledged);
      } else {
        NextGrows(c, s, step);
        if OfWorker(step) { WorkerLeavesNoGap(c, s, step); } else { OutboxKeepsWorkers(c, s, step); }
        QuietKeepsOffsets(c, RealView(c), s, Next(c, s, step));
      }
    }
  }

  /** Without dropped fetches the offsets are good in every state of every run. */
  lemma {:induction false} RunKeepsOffsets(c: Config, clock: Time, steps: seq<Step>)
    requires ValidConfig(c) && clock >= ZERO_TIME && !c.fetchErrorsCarryRecords
    ensures OffsetsGood(c, RealView(c), Run(c, Initial(clock), steps))
  {
    if steps != [] {
      var before := Run(c, Initial(clock), steps[..|steps| - 1]);
      RunKeepsOffsets(c, clock, steps[..|steps| - 1]);
      RunKeeps(c, clock, steps[..|steps| - 1]);
      NextKeepsOffsets(c, before, steps[|steps| - 1]);
    }
  }
}
