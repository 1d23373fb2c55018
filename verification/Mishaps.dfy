/**
 * The failures that the machine allows for, and what each of them leaves behind. None of them has to wait
 * for anything but the call that it hits. Together they show what "at least once" includes: records that are
 * delivered twice, orders that are completed and yet retried, completions without a worker, and two workers
 * on one record.
 */
module Mishaps {
  import opened Prelude
  import opened Store
  import opened Pipeline
  import opened Handover
  import Outbox
  import Publisher

  /** A process may end at any moment; what it has stored, published and requested stays. */
  lemma WorkerMayCrash(c: Config, s: System, w: string)
    requires ValidConfig(c) && w in s.workers
    ensures var s' := Next(c, s, CrashWorker(w));
            && s' == s.(workers := s'.workers) && s'.workers.Keys == s.workers.Keys - {w}
            && forall v :: v in s'.workers ==> s'.workers[v] == s.workers[v]
  {
  }

  lemma PublisherMayCrash(c: Config, s: System, owner: string)
    requires ValidConfig(c)
    ensures var s' := Next(c, s, CrashPublisher(owner));
            && s' == s.(tasks := s'.tasks)
            && forall t :: t in s'.tasks <==> t in s.tasks && t.owner != owner
  {
  }

  /** A worker may lose a partition at any moment, also with a batch in progress, which it keeps. */
  lemma PartitionMayBeLost(c: Config, s: System, w: string, p: Partition)
    requires ValidConfig(c) && w in s.workers && p in s.workers[w].position
    ensures var s' := Next(c, s, Revoke(w, p));
            && s' == s.(workers := s'.workers) && w in s'.workers && s'.workers[w].batch == s.workers[w].batch
            && p !in s'.workers[w].position
  {
  }

  /** The context of a call may end at any moment before its result. */
  lemma CallMayBeCanceled(c: Config, s: System, w: string, ref: Ref)
    requires ValidConfig(c) && HasSlot(s, w, ref) && !SlotOf(s, w, ref).Handled? && !SlotOf(s, w, ref).Errored?
    ensures var s' := Next(c, s, Slot(w, ref, Cancel));
            && s' == s.(workers := s'.workers) && HasSlot(s', w, ref) && SlotOf(s', w, ref).Errored?
  {
  }

  /** A routed copy may be appended although its publish fails, and the request may still be under way. */
  lemma PublishMayAppendUnheard(c: Config, s: System, w: string, ref: Ref, index: nat, appended: bool)
    requires ValidConfig(c) && HasSlot(s, w, ref) && SlotOf(s, w, ref).Routing?
    ensures var copy, s' := SlotOf(s, w, ref).copy, Next(c, s, Slot(w, ref, Publish(index, appended, false)));
            var p := Partition(copy.topic, index);
            && LogOf(s'.logs, p) == LogOf(s.logs, p) + (if appended then [copy] else [])
            && HasBatch(s', w) && s'.workers[w].batch.value.slots[ref].Errored?
            && s'.late == s.late + {LateRecord(copy)} && s'.db == s.db
  {
  }

  /** A row's record, too. */
  lemma RowMayBePublishedUnheard(c: Config, s: System, id: TaskId, index: nat, appended: bool)
    requires ValidConfig(c) && CanPublishRow(c, s, id, appended, false)
    ensures var record := Publisher.PublishedRecord(c.topics, s.tasks[id].claimed);
            var s' := Next(c, s, PublishRow(id, index, appended, false));
            var p := Partition(record.topic, index);
            && LogOf(s'.logs, p) == LogOf(s.logs, p) + (if appended then [record] else [])
            && id in s'.tasks && s'.tasks[id].NotSent?
            && s'.late == s.late + {LateRecord(record)} && s'.db == s.db
  {
  }

  /** A completion may commit although its reply is lost: the call goes on as if it had failed. */
  lemma ReplyMayBeLost(c: Config, s: System, w: string, ref: Ref, newEventId: Uuid, databaseNow: Time, cause: string,
        now: Time)
    requires ValidConfig(c) && HasSlot(s, w, ref) && SlotOf(s, w, ref).Completing? && ClockShows(c, s, now)
    ensures var s' := Next(c, s, Slot(w, ref, Complete(newEventId, databaseNow, true, cause, now)));
            && s'.db == CompleteTx(s.db, CompletionAt(c, SlotOf(s, w, ref)), newEventId, databaseNow).0
            && HasBatch(s', w) && s'.workers[w].batch.value.slots[ref].Routing?
  {
  }

  /** Or it may not be executed now, but whenever the database gets round to it. */
  lemma CompletionMayBeLate(c: Config, s: System, w: string, ref: Ref, cause: string, now: Time)
    requires ValidConfig(c) && HasSlot(s, w, ref) && SlotOf(s, w, ref).Completing? && ClockShows(c, s, now)
    ensures var pc, s' := SlotOf(s, w, ref), Next(c, s, Slot(w, ref, CompleteRefused(cause, now)));
            && s'.db == s.db && HasBatch(s', w) && s'.workers[w].batch.value.slots[ref].Routing?
            && s'.late == s.late + {LateCompletion(Completion(pc.envelope.eventId, c.consumer.consumerName,
                                                              pc.envelope.aggregateId, pc.status, pc.reason,
                                                              pc.envelope.requestId))}
  {
  }

  /** So may the statement that settles a row, after its publisher has given up on it. */
  lemma SettlementMayBeLate(c: Config, s: System, id: TaskId, nextAttempt: Time)
    requires ValidConfig(c) && id in s.tasks && !s.tasks[id].ToPublish?
    ensures var s' := Next(c, s, SettleRow(id, false, nextAttempt));
            && s'.db == s.db && s'.tasks.Keys == s.tasks.Keys - {id}
            && s'.late == s.late + {LateSettlement(id, if s.tasks[id].Sent? then Outbox.Publish(s.clock)
                                                       else Outbox.ReleaseUntil(nextAttempt))}
  {
  }

  /** A claim may be executed although its reply is lost: the rows are locked, and nobody works on them. */
  lemma ClaimMayBeUnheard(c: Config, s: System, owner: string, chosen: seq<Uuid>, skipped: set<Uuid>, limit: nat,
        lease: int64)
    requires ValidConfig(c) && Outbox.ValidChoice(s.db.outbox, chosen, skipped, limit, s.clock)
    ensures var s' := Next(c, s, Claim(owner, chosen, skipped, limit, lease, false));
            && s' == s.(db := s.db.(outbox := s'.db.outbox))
            && Outbox.LockedFor(s.db.outbox, s'.db.outbox, chosen, owner, s.clock, lease)
  {
    Outbox.ClaimLeases(s.db.outbox, chosen, skipped, owner, limit, s.clock, lease);
  }

  /** A request that is under way may take effect at any moment, and any number of times. */
  lemma RequestMayArrive(c: Config, s: System, request: Late, index: nat, newEventId: Uuid, databaseNow: Time)
    requires ValidConfig(c) && request in s.late
    ensures var s' := Next(c, s, Arrive(request, index, newEventId, databaseNow));
            && request in s'.late
            && match request
               case LateRecord(record) =>
                 var p := Partition(record.topic, index);
                 s'.db == s.db && LogOf(s'.logs, p) == LogOf(s.logs, p) + [record]
               case LateCompletion(done) =>
                 s'.logs == s.logs && s'.db == CompleteTx(s.db, done, newEventId, databaseNow).0
               case LateSettlement(task, how) =>
                 s'.logs == s.logs
                 && s'.db == s.db.(outbox := Outbox.Settle(s.db.outbox, task.row, task.owner, how))
  {
  }

  /** A commit may take effect for any part of the partitions that the member still has, and then fail. */
  lemma CommitMayBePartial(c: Config, s: System, w: string, accepted: set<Partition>)
    requires ValidConfig(c) && HasBatch(s, w) && AllHandled(s.workers[w].batch.value)
    requires accepted <= s.workers[w].batch.value.upto.Keys && accepted <= s.workers[w].position.Keys
    ensures var s' := Next(c, s, Commit(w, accepted, false));
            && w !in s'.workers && s'.db == s.db && s'.logs == s.logs
            && forall p :: Committed(s'.committed, p)
                           == if p in accepted then s.workers[w].batch.value.upto[p] else Committed(s.committed, p)
  {
  }

  // ---------- what they add up to ----------

  lemma OneStep(c: Config, s: System, a: Step)
    requires ValidConfig(c)
    ensures Run(c, s, [a]) == Next(c, s, a)
  {
    OneAfterAnother(c, s, [], a);
    assert [] + [a] == [a];
  }

  lemma SecondStep(c: Config, s: System, a: Step, b: Step)
    requires ValidConfig(c)
    ensures Run(c, s, [a, b]) == Next(c, Run(c, s, [a]), b)
  {
    OneAfterAnother(c, s, [a], b);
    assert [a] + [b] == [a, b];
  }

  lemma ThirdStep(c: Config, s: System, a: Step, b: Step, d: Step)
    requires ValidConfig(c)
    ensures Run(c, s, [a, b, d]) == Next(c, Run(c, s, [a, b]), d)
  {
    OneAfterAnother(c, s, [a, b], d);
    assert [a, b] + [d] == [a, b, d];
  }

  /** A row's record may be in Kafka twice although it was sent once, and unacknowledged. */
  lemma RecordMayBeThereTwice(c: Config, s: System, id: TaskId, index: nat)
    requires ValidConfig(c) && CanPublishRow(c, s, id, true, false)
    ensures var record := Publisher.PublishedRecord(c.topics, s.tasks[id].claimed);
            var s' := Run(c, s, [PublishRow(id, index, true, false), Arrive(LateRecord(record), index, 0, 0)]);
            LogOf(s'.logs, Partition(record.topic, index))
            == LogOf(s.logs, Partition(record.topic, index)) + [record, record]
  {
    var record := Publisher.PublishedRecord(c.topics, s.tasks[id].claimed);
    var publish, arrive := PublishRow(id, index, true, false), Arrive(LateRecord(record), index, 0, 0);
    OneStep(c, s, publish);
    SecondStep(c, s, publish, arrive);
    RowMayBePublishedUnheard(c, s, id, index, true);
    RequestMayArrive(c, Run(c, s, [publish]), LateRecord(record), index, 0, 0);
  }

  /** An order may be completed while the record that it was completed for is dead as far as its worker knows. */
  lemma OrderMayBeCompletedByNobody(c: Config, s: System, w: string, ref: Ref, cause: string, now: Time,
        newEventId: Uuid, databaseNow: Time)
    requires ValidConfig(c) && HasSlot(s, w, ref) && SlotOf(s, w, ref).Completing? && ClockShows(c, s, now)
    ensures var done := CompletionAt(c, SlotOf(s, w, ref));
            var s' := Run(c, s, [Slot(w, ref, CompleteRefused(cause, now)), CrashWorker(w),
                                 Arrive(LateCompletion(done), 0, newEventId, databaseNow)]);
            w !in s'.workers && s'.db == CompleteTx(s.db, done, newEventId, databaseNow).0
  {
    var done := CompletionAt(c, SlotOf(s, w, ref));
    var refused, crash := Slot(w, ref, CompleteRefused(cause, now)), CrashWorker(w);
    OneStep(c, s, refused);
    SecondStep(c, s, refused, crash);
    ThirdStep(c, s, refused, crash, Arrive(LateCompletion(done), 0, newEventId, databaseNow));
    CompletionMayBeLate(c, s, w, ref, cause, now);
    WorkerMayCrash(c, Run(c, s, [refused]), w);
    RequestMayArrive(c, Run(c, s, [refused, crash]), LateCompletion(done), 0, newEventId, databaseNow);
  }

  /** Two workers may have the same record in hand, when one of them has lost its partition to the other. */
  lemma TwoWorkersMayHaveOneRecord(c: Config, s: System, w: string, v: string, p: Partition, i: nat)
    requires ValidConfig(c) && HasSlot(s, w, Ref(p, i)) && p in s.workers[w].position && Consumed(c, p.topic)
    requires v != w && Free(s, v) && forall u :: u in s.workers && u != w ==> p !in s.workers[u].position
    requires Committed(s.committed, p) <= i
    ensures var take := map[p := i + 1 - Committed(s.committed, p)];
            var s' := Run(c, s, [Revoke(w, p), Assign(v, p), Poll(v, take)]);
            && HasSlot(s', w, Ref(p, i)) && SlotOf(s', w, Ref(p, i)) == SlotOf(s, w, Ref(p, i))
            && HasSlot(s', v, Ref(p, i)) && SlotOf(s', v, Ref(p, i)).Fetched?
  {
    var offset := Committed(s.committed, p);
    var take: map<Partition, nat> := map[p := i + 1 - offset];
    OneStep(c, s, Revoke(w, p));
    SecondStep(c, s, Revoke(w, p), Assign(v, p));
    ThirdStep(c, s, Revoke(w, p), Assign(v, p), Poll(v, take));
    RevokedAndAssigned(c, s, w, v, p);
    PolledBesides(c, Run(c, s, [Revoke(w, p), Assign(v, p)]), w, v, p, offset, i);
  }

  lemma PolledBesides(c: Config, s: System, w: string, v: string, p: Partition, offset: nat, i: nat)
    requires ValidConfig(c) && v != w && Reads(s, v, p, offset) && offset <= i && HasSlot(s, w, Ref(p, i))
    ensures var s' := Next(c, s, Poll(v, map[p := i + 1 - offset]));
            && HasSlot(s', w, Ref(p, i)) && SlotOf(s', w, Ref(p, i)) == SlotOf(s, w, Ref(p, i))
            && HasSlot(s', v, Ref(p, i)) && SlotOf(s', v, Ref(p, i)).Fetched?
  {
    var take: map<Partition, nat> := map[p := i + 1 - offset];
    assert p in take && take[p] > 0;
    PollHandsOutNext(c, s, v, take, p, offset);
    PollTouchesOne(c, s, v, take);
  }

  lemma PollTouchesOne(c: Config, s: System, v: string, take: map<Partition, nat>)
    requires ValidConfig(c) && CanPoll(s, v, take)
    ensures var s' := Next(c, s, Poll(v, take));
            s' == s.(workers := s.workers[v := s'.workers[v]])
  {
  }

  lemma RevokedAndAssigned(c: Config, s: System, w: string, v: string, p: Partition)
    requires ValidConfig(c) && w in s.workers && p in s.workers[w].position && Consumed(c, p.topic)
    requires v != w && Free(s, v) && forall u :: u in s.workers && u != w ==> p !in s.workers[u].position
    ensures var s' := Next(c, Next(c, s, Revoke(w, p)), Assign(v, p));
            && Reads(s', v, p, Committed(s.committed, p)) && w in s'.workers
            && s'.workers[w].batch == s.workers[w].batch && s'.logs == s.logs
  {
  }
}
