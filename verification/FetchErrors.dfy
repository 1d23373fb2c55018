/**
 * Why the pipeline needs fetches with errors to carry no records: `Run` drops such records, and a
 * later commit in the partition passes over them. A concrete run that loses an order.
 */
module FetchErrors {
  import opened Prelude
  import opened Orders
  import opened Events
  import opened Records
  import opened Sample
  import opened Store
  import opened Pipeline
  import opened PipelineData
  import opened PipelineInvariant
  import opened PipelineSafety
  import Outbox
  import Publisher
  import Consumer

  function CreateStep(orderId: Uuid, eventId: Uuid): Step {
    Create(COMMAND, "r", "", orderId, eventId, NOW)
  }

  lemma ReachableNext(c: Config, s: System, step: Step)
    requires ValidConfig(c) && Reachable(c, s)
    ensures Reachable(c, Next(c, s, step))
  {
    var clock: nat, steps :| s == Run(c, Initial(clock), steps);
    assert (steps + [step])[..|steps|] == steps;
    assert Next(c, s, step) == Run(c, Initial(clock), steps + [step]);
  }

  lemma ReachCreate(c: Config, s: System, orderId: Uuid, eventId: Uuid)
    requires ValidConfig(c) && Reachable(c, s)
    ensures Reachable(c, DoCreate(s, COMMAND, "r", "", orderId, eventId, NOW))
  {
    ReachableNext(c, s, CreateStep(orderId, eventId));
  }

  lemma ReachClaim(c: Config, s: System, chosen: seq<Uuid>)
    requires ValidConfig(c) && Reachable(c, s) && Outbox.ValidChoice(s.db.outbox, chosen, {}, |chosen|, s.clock)
    ensures Reachable(c, DoClaim(s, "p", chosen, 0, true))
  {
    ReachableNext(c, s, Claim("p", chosen, {}, |chosen|, 0, true));
  }

  lemma ReachPublish(c: Config, s: System, id: TaskId)
    requires ValidConfig(c) && Reachable(c, s) && CanPublishRow(c, s, id, true, true)
    ensures Reachable(c, DoPublishRow(c, s, id, 0, true, true))
  {
    ReachableNext(c, s, PublishRow(id, 0, true, true));
  }

  lemma ReachPoll(c: Config, s: System, take: map<Partition, nat>)
    requires ValidConfig(c) && Reachable(c, s) && CanPoll(s, "w", take)
    ensures Reachable(c, DoPoll(s, "w", take))
  {
    ReachableNext(c, s, Poll("w", take));
  }

  /** What matters about the two orders 1 and 3, with their events 2 and 4. */
  predicate TwoOrders(s: System) {
    && s.db.orders.Keys == {1, 3} && s.db.orders[1].status == Pending
    && s.db.outbox.Keys == {2, 4} && s.db.processed == {}
    && Identity(s.db.outbox[2]) == Identity(Outbox.NewRow(EnvelopeWith(1, 2), NOW))
    && Identity(s.db.outbox[4]) == Identity(Outbox.NewRow(EnvelopeWith(3, 4), NOW))
  }

  lemma CreateGoesIn(s: System, orderId: Uuid, eventId: Uuid)
    requires orderId != NIL_UUID && eventId != NIL_UUID
    requires s.clock == NOW && ItemsHaveOrders(s.db) && orderId !in s.db.orders && eventId !in s.db.outbox
    ensures var s' := DoCreate(s, COMMAND, "r", "", orderId, eventId, NOW);
            && ItemsHaveOrders(s'.db)
            && s'.db.orders == s.db.orders[orderId := RowOf(OrderWith(orderId))]
            && s'.db.outbox == s.db.outbox[eventId := Outbox.NewRow(EnvelopeWith(orderId, eventId), NOW)]
            && s'.db.processed == s.db.processed && s'.(db := s.db) == s
  {
    CreateBuilds(orderId, eventId);
    CreateTxSucceeds(s.db, OrderWith(orderId), EnvelopeWith(orderId, eventId), NOW);
  }

  lemma OneOrderCreated(c: Config) returns (s: System)
    requires ValidConfig(c)
    ensures Reachable(c, s) && s == Initial(NOW).(db := s.db) && ItemsHaveOrders(s.db) && s.db.processed == {}
    ensures s.db.orders == map[1 := RowOf(OrderWith(1))]
    ensures s.db.outbox == map[2 := Outbox.NewRow(EnvelopeWith(1, 2), NOW)]
  {
    s := Initial(NOW);
    assert s == Run(c, Initial(NOW), []);
    ReachCreate(c, s, 1, 2);
    CreateGoesIn(s, 1, 2);
    s := DoCreate(s, COMMAND, "r", "", 1, 2, NOW);
  }

  lemma TwoOrdersCreated(c: Config) returns (s: System)
    requires ValidConfig(c)
    ensures Reachable(c, s) && TwoOrders(s) && s == Initial(NOW).(db := s.db)
    ensures s.db.outbox[2] == Outbox.NewRow(EnvelopeWith(1, 2), NOW)
            && s.db.outbox[4] == Outbox.NewRow(EnvelopeWith(3, 4), NOW)
  {
    s := OneOrderCreated(c);
    ReachCreate(c, s, 3, 4);
    CreateGoesIn(s, 3, 4);
    s := DoCreate(s, COMMAND, "r", "", 3, 4, NOW);
  }

  // ---------- both events are published ----------

  function CreatedPartition(c: Config): Partition {
    Partition(c.topics.orderCreated, 0)
  }

  function ClaimedWith(orderId: Uuid, eventId: Uuid): Outbox.Event {
    Outbox.Event(eventId, orderId, ORDER_CREATED, EnvelopeJson(EnvelopeWith(orderId, eventId)), 1, NOW)
  }

  function RecordWith(c: Config, orderId: Uuid, eventId: Uuid): Record
    requires orderId != NIL_UUID && eventId != NIL_UUID
  {
    CreateBuilds(orderId, eventId);
    Publisher.PublishedRecord(c.topics, ClaimedWith(orderId, eventId))
  }

  /** The state between two publisher steps, apart from the database's lock columns. */
  predicate PublishingState(c: Config, s: System, log: seq<Record>) {
    TwoOrders(s) && s.clock == NOW && s.committed == map[] && s.workers == map[]
    && s.logs == if log == [] then map[] else map[CreatedPartition(c) := log]
  }

  lemma BothAvailable(rows: Outbox.Table)
    requires rows == map[2 := Outbox.NewRow(EnvelopeWith(1, 2), NOW), 4 := Outbox.NewRow(EnvelopeWith(3, 4), NOW)]
    ensures Outbox.ValidChoice(rows, [2, 4], {}, 2, NOW)
    ensures var rows' := Outbox.ClaimRows(rows, [2, 4], "p", NOW, 0);
            && rows'.Keys == {2, 4}
            && Outbox.EventOf(rows'[2]) == ClaimedWith(1, 2) && Outbox.EventOf(rows'[4]) == ClaimedWith(3, 4)
            && rows'[2].lockedBy == Some("p") && rows'[2].publishedAt == None
  {
    assert 2 in [2, 4] && 4 in [2, 4];
  }

  predicate BothHeld(c: Config, s: System) {
    && PublishingState(c, s, [])
    && s.db.outbox[2].lockedBy == Some("p") && s.db.outbox[2].publishedAt == None
    && s.tasks == map[TaskId("p", 2) := ToPublish(ClaimedWith(1, 2)), TaskId("p", 4) := ToPublish(ClaimedWith(3, 4))]
  }

  lemma ClaimHolds(c: Config, t: System)
    requires TwoOrders(t) && t == Initial(NOW).(db := t.db)
    requires t.db.outbox[2] == Outbox.NewRow(EnvelopeWith(1, 2), NOW)
             && t.db.outbox[4] == Outbox.NewRow(EnvelopeWith(3, 4), NOW)
    ensures Outbox.ValidChoice(t.db.outbox, [2, 4], {}, 2, t.clock)
    ensures BothHeld(c, DoClaim(t, "p", [2, 4], 0, true))
  {
    assert t.db.outbox == map[2 := Outbox.NewRow(EnvelopeWith(1, 2), NOW), 4 := Outbox.NewRow(EnvelopeWith(3, 4), NOW)];
    BothAvailable(t.db.outbox);
    assert DoClaim(t, "p", [2, 4], 0, true).tasks.Keys == {TaskId("p", 2), TaskId("p", 4)};
  }

  lemma BothClaimed(c: Config) returns (s: System)
    requires ValidConfig(c)
    ensures Reachable(c, s) && BothHeld(c, s)
  {
    var t := TwoOrdersCreated(c);
    ClaimHolds(c, t);
    ReachClaim(c, t, [2, 4]);
    s := DoClaim(t, "p", [2, 4], 0, true);
  }

  lemma FirstPublished(c: Config) returns (s: System)
    requires ValidConfig(c)
    ensures Reachable(c, s) && PublishingState(c, s, [RecordWith(c, 1, 2)])
    ensures s.tasks == map[TaskId("p", 2) := Sent(ClaimedWith(1, 2)), TaskId("p", 4) := ToPublish(ClaimedWith(3, 4))]
    ensures s.db.outbox[2].lockedBy == Some("p") && s.db.outbox[2].publishedAt == None
  {
    s := BothClaimed(c);
    CreateBuilds(1, 2);
    ReachPublish(c, s, TaskId("p", 2));
    s := DoPublishRow(c, s, TaskId("p", 2), 0, true, true);
    assert LogOf(s.logs, CreatedPartition(c)) == [RecordWith(c, 1, 2)];
  }

  lemma BothPublished(c: Config) returns (s: System)
    requires ValidConfig(c)
    ensures Reachable(c, s) && PublishingState(c, s, [RecordWith(c, 1, 2), RecordWith(c, 3, 4)])
    ensures s.tasks == map[TaskId("p", 2) := Sent(ClaimedWith(1, 2)), TaskId("p", 4) := Sent(ClaimedWith(3, 4))]
    ensures s.db.outbox[2].lockedBy == Some("p") && s.db.outbox[2].publishedAt == None
  {
    s := FirstPublished(c);
    CreateBuilds(3, 4);
    ReachPublish(c, s, TaskId("p", 4));
    s := DoPublishRow(c, s, TaskId("p", 4), 0, true, true);
    assert LogOf(s.logs, CreatedPartition(c)) == [RecordWith(c, 1, 2), RecordWith(c, 3, 4)];
  }

  lemma FirstSettled(c: Config) returns (s: System)
    requires ValidConfig(c)
    ensures Reachable(c, s) && PublishingState(c, s, [RecordWith(c, 1, 2), RecordWith(c, 3, 4)])
    ensures s.db.outbox[2].status == Outbox.RowPublished
  {
    s := BothPublished(c);
    ReachableNext(c, s, SettleRow(TaskId("p", 2), true, 0));
    s := DoSettleRow(c, s, TaskId("p", 2), true, 0);
  }

  // ---------- the first record is dropped, the second one handled and committed ----------

  /** The published state, with one worker. */
  predicate ConsumingState(c: Config, s: System, worker: Worker) {
    && PublishingState(c, s.(workers := map[]), [RecordWith(c, 1, 2), RecordWith(c, 3, 4)])
    && s.db.outbox[2].status == Outbox.RowPublished
    && s.workers == map["w" := worker]
  }

  lemma Joined(c: Config) returns (s: System)
    requires ValidConfig(c)
    ensures Reachable(c, s) && ConsumingState(c, s, Worker(map[CreatedPartition(c) := 0], None))
  {
    s := FirstSettled(c);
    ReachableNext(c, s, Join("w"));
    s := SetWorker(s, "w", Worker(map[], None));
    ReachableNext(c, s, Assign("w", CreatedPartition(c)));
    s := DoAssign(c, s, "w", CreatedPartition(c));
  }

  lemma FirstDropped(c: Config) returns (s: System)
    requires ValidConfig(c) && c.fetchErrorsCarryRecords
    ensures Reachable(c, s) && ConsumingState(c, s, Worker(map[CreatedPartition(c) := 1], None))
  {
    s := Joined(c);
    var p := CreatedPartition(c);
    ReachableNext(c, s, PollFailed("w", map[p := 1]));
    s := DoPollFailed(c, s, "w", map[p := 1]);
    assert s.workers["w"].position == map[p := 1];
  }

  /** The worker with only the second record in its batch, which has got as far as `pc`. */
  function WorkerAt(c: Config, pc: Pc): Worker {
    var p := CreatedPartition(c);
    Worker(map[p := 2], Some(Batch(map[p := 2], map[Ref(p, 1) := pc])))
  }

  lemma SecondPolls(c: Config, s: System)
    requires ConsumingState(c, s, Worker(map[CreatedPartition(c) := 1], None))
    ensures CanPoll(s, "w", map[CreatedPartition(c) := 1])
    ensures ConsumingState(c, DoPoll(s, "w", map[CreatedPartition(c) := 1]), WorkerAt(c, Fetched))
  {
    var p := CreatedPartition(c);
    var position, take := map[p := 1], map[p := 1];
    assert p in take && take[p] > 0;
    assert PolledRefs(position, take) == {Ref(p, 1)};
    assert Polled(position, take) == map[p := 2];
    assert NewBatch(position, take).upto == map[p := 2];
    assert NewBatch(position, take).slots == map[Ref(p, 1) := Fetched];
  }

  lemma SecondPolled(c: Config) returns (s: System)
    requires ValidConfig(c) && c.fetchErrorsCarryRecords
    ensures Reachable(c, s) && ConsumingState(c, s, WorkerAt(c, Fetched))
  {
    var t := FirstDropped(c);
    SecondPolls(c, t);
    ReachPoll(c, t, map[CreatedPartition(c) := 1]);
    s := DoPoll(t, "w", map[CreatedPartition(c) := 1]);
  }

  /** What processRecord decides about the second record until its retry copy is ready. */
  lemma SecondDecisions(c: Config)
    requires ValidConfig(c)
    ensures var r := RecordWith(c, 3, 4);
            && Consumer.Screen(c.consumer, r, NOW) == Consumer.WaitFor(0, ZERO_TIME)
            && Consumer.Decode(r) == Consumer.Genuine(EnvelopeWith(3, 4))
            && Consumer.RetryRecord(c.consumer, r, 0, "", NOW).key == UuidText(3)
            && r.key == UuidText(3) && RecordWith(c, 1, 2).key == UuidText(1)
  {
    CreateBuilds(3, 4);
    CreateBuilds(1, 2);
    Publisher.PublishedIsUnrouted(c.topics, ClaimedWith(3, 4));
    Consumer.RetryRecordReadsBack(c.consumer, RecordWith(c, 3, 4), 0, "", NOW);
  }

  function CopyWith(c: Config): Record
    requires ValidConfig(c)
  {
    Consumer.RetryRecord(c.consumer, RecordWith(c, 3, 4), 0, "", NOW)
  }

  lemma SlotSet(c: Config, s: System, pc: Pc, next: Pc)
    requires s.workers == map["w" := WorkerAt(c, pc)]
    ensures SetSlot(s, "w", Ref(CreatedPartition(c), 1), next) == s.(workers := map["w" := WorkerAt(c, next)])
  {
    assert WorkerAt(c, pc).batch.value.slots[Ref(CreatedPartition(c), 1) := next]
           == map[Ref(CreatedPartition(c), 1) := next];
  }

  /** One quiet step of the second record. */
  lemma SlotMoves(c: Config, s: System, pc: Pc, step: SlotStep, next: Pc)
    requires ValidConfig(c) && Reachable(c, s) && ConsumingState(c, s, WorkerAt(c, pc))
    requires SlotEnabled(c, s, pc, step) && (step.Screen? || step.Wake? || step.CheckFailed?)
    requires SlotNext(c, s, RecordWith(c, 3, 4), pc, step) == next
    ensures Reachable(c, SetSlot(s, "w", Ref(CreatedPartition(c), 1), next))
    ensures ConsumingState(c, SetSlot(s, "w", Ref(CreatedPartition(c), 1), next), WorkerAt(c, next))
  {
    ReachableNext(c, s, Slot("w", Ref(CreatedPartition(c), 1), step));
    SlotSet(c, s, pc, next);
  }

  lemma SecondRouted(c: Config) returns (s: System)
    requires ValidConfig(c) && c.fetchErrorsCarryRecords
    ensures Reachable(c, s) && ConsumingState(c, s, WorkerAt(c, Routing(CopyWith(c))))
  {
    var ref := Ref(CreatedPartition(c), 1);
    s := SecondPolled(c);
    SecondDecisions(c);
    SlotMoves(c, s, Fetched, Screen(NOW), Waiting(0, ZERO_TIME));
    s := SetSlot(s, "w", ref, Waiting(0, ZERO_TIME));
    SlotMoves(c, s, Waiting(0, ZERO_TIME), Wake(NOW), Checking(0, EnvelopeWith(3, 4)));
    s := SetSlot(s, "w", ref, Checking(0, EnvelopeWith(3, 4)));
    SlotMoves(c, s, Checking(0, EnvelopeWith(3, 4)), CheckFailed("", NOW), Routing(CopyWith(c)));
    s := SetSlot(s, "w", ref, Routing(CopyWith(c)));
  }

  /** The second record's retry copy is published, so its slot is handled. */
  lemma SecondHandled(c: Config) returns (s: System)
    requires ValidConfig(c) && c.fetchErrorsCarryRecords
    ensures Reachable(c, s) && s.workers == map["w" := WorkerAt(c, Handled)] && s.committed == map[]
    ensures TwoOrders(s) && s.db.outbox[2].status == Outbox.RowPublished
    ensures s.logs == map[CreatedPartition(c) := [RecordWith(c, 1, 2), RecordWith(c, 3, 4)],
                          Partition(CopyWith(c).topic, 0) := [CopyWith(c)]]
  {
    var ref, step := Ref(CreatedPartition(c), 1), Publish(0, true, true);
    s := SecondRouted(c);
    ReachableNext(c, s, Slot("w", ref, step));
    CopyTopic(c);
    assert LogOf(s.logs, Partition(CopyWith(c).topic, 0)) + [CopyWith(c)] == [CopyWith(c)];
    SlotSet(c, SlotEffect(c, s, Routing(CopyWith(c)), step), Routing(CopyWith(c)), Handled);
    s := DoSlot(c, s, "w", ref, step);
  }

  lemma CopyTopic(c: Config)
    requires ValidConfig(c)
    ensures CopyWith(c).topic != c.topics.orderCreated
  {
    SecondDecisions(c);
    Consumer.RetryRecordReadsBack(c.consumer, RecordWith(c, 3, 4), 0, "", NOW);
  }

  lemma OffsetsCommitted(c: Config) returns (s: System)
    requires ValidConfig(c) && c.fetchErrorsCarryRecords
    ensures Reachable(c, s) && s.committed == map[CreatedPartition(c) := 2]
    ensures TwoOrders(s) && s.db.outbox[2].status == Outbox.RowPublished
    ensures s.logs == map[CreatedPartition(c) := [RecordWith(c, 1, 2), RecordWith(c, 3, 4)],
                          Partition(CopyWith(c).topic, 0) := [CopyWith(c)]]
  {
    s := SecondHandled(c);
    var accepted := {CreatedPartition(c)};
    assert s.workers["w"].batch.value.upto.Keys == accepted;
    ReachableNext(c, s, Commit("w", accepted, true));
    s := DoCommit(s, "w", accepted, true);
  }

  /** Order 1 is PENDING, but its event is published, committed, and in no retry topic or DLQ. */
  lemma OrderOneIsLost(c: Config, s: System)
    requires ValidConfig(c) && s.committed == map[CreatedPartition(c) := 2]
    requires TwoOrders(s) && s.db.outbox[2].status == Outbox.RowPublished
    requires s.logs == map[CreatedPartition(c) := [RecordWith(c, 1, 2), RecordWith(c, 3, 4)],
                           Partition(CopyWith(c).topic, 0) := [CopyWith(c)]]
    ensures !NoOrderLost(c, s)
  {
    SecondDecisions(c);
    CopyTopic(c);
    NoRecordOfOrderOne(c, s, EnvelopeJson(EnvelopeWith(1, 2)));
    assert forall id :: IsRowOf(s.db, id, 1, ORDER_CREATED) ==> id == 2;
  }

  lemma NoRecordOfOrderOne(c: Config, s: System, value: Bytes)
    requires ValidConfig(c) && s.committed == map[CreatedPartition(c) := 2]
    requires CopyWith(c).topic != c.topics.orderCreated && CopyWith(c).key == RecordWith(c, 3, 4).key == UuidText(3)
    requires s.logs == map[CreatedPartition(c) := [RecordWith(c, 1, 2), RecordWith(c, 3, 4)],
                           Partition(CopyWith(c).topic, 0) := [CopyWith(c)]]
    ensures !Uncommitted(c, s, UuidText(1), value)
    ensures !Contains(s.logs, c.consumer.dlqTopic, UuidText(1), value)
    ensures !Contains(s.logs, c.consumer.retryTopic, UuidText(1), value)
  {
    forall p, i: nat ensures !IsUncommittedAt(c, s, p, i, UuidText(1), value) {
    }
    forall topic, p, i: nat | topic != c.topics.orderCreated ensures !IsAt(s.logs, p, i, topic, UuidText(1), value) {
    }
  }

  /** Nor does the dropped record have an outcome, although it lies below the committed offset. */
  lemma DroppedRecordHasNoOutcome(c: Config, s: System)
    requires ValidConfig(c) && s.committed == map[CreatedPartition(c) := 2]
    requires TwoOrders(s)
    requires s.logs == map[CreatedPartition(c) := [RecordWith(c, 1, 2), RecordWith(c, 3, 4)],
                           Partition(CopyWith(c).topic, 0) := [CopyWith(c)]]
    ensures !CommitsHaveOutcomes(c, s)
  {
    SecondDecisions(c);
    CopyTopic(c);
    var first := RecordWith(c, 1, 2);
    assert LogOf(s.logs, CreatedPartition(c))[0] == first && first.value == EnvelopeJson(EnvelopeWith(1, 2));
    NoRecordOfOrderOne(c, s, first.value);
    assert IsCommitted(s, CreatedPartition(c), 0);
  }

  /** No order is ever lost, in any run, exactly when failed fetches carry no records. */
  lemma NoOrderIsLostIff(c: Config)
    requires ValidConfig(c)
    ensures (forall s :: Reachable(c, s) ==> NoOrderLost(c, s)) <==> !c.fetchErrorsCarryRecords
  {
    if c.fetchErrorsCarryRecords {
      var s := OffsetsCommitted(c);
      OrderOneIsLost(c, s);
    } else {
      forall s | Reachable(c, s) ensures NoOrderLost(c, s) {
        NoOrderIsLost(c, s);
      }
    }
  }

  /** Every committed record has an outcome, in any run, under the same condition. */
  lemma CommitsAreSafeIff(c: Config)
    requires ValidConfig(c)
    ensures (forall s :: Reachable(c, s) ==> CommitsHaveOutcomes(c, s)) <==> !c.fetchErrorsCarryRecords
  {
    if c.fetchErrorsCarryRecords {
      var s := OffsetsCommitted(c);
      DroppedRecordHasNoOutcome(c, s);
    } else {
      forall s | Reachable(c, s) ensures CommitsHaveOutcomes(c, s) {
        CommitsAreSafe(c, s);
      }
    }
  }
}
