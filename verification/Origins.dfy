/**
 * Where orders and their statuses come from: in every run, an order says what its command asked for, and a
 * final status, with the OrderStatusChanged event that tells it, is what the operations decided on the
 * order's own event.
 */
module Origins {
  import opened Prelude
  import opened Orders
  import opened Events
  import opened Store
  import opened Pipeline
  import opened PipelineData
  import opened PipelineInvariant
  import opened PipelineSteps
  import opened PipelineOffsets

  /** What the operations decided on an event. */
  datatype Decision = Decision(event: Envelope, status: Status, reason: string)

  /** The decision that a step makes, on the event of the record in its slot. */
  function DecisionIn(c: Config, s: System, step: Step): set<Decision> {
    if && step.Slot? && step.step.ProcessDecided? && CanSlot(c, s, step.worker, step.ref, step.step)
       && RecordAt(s, step.ref).value.EnvelopeJson?
    then {Decision(RecordAt(s, step.ref).value.envelope, step.step.status, step.step.reason)}
    else {}
  }

  /** All decisions of a run. */
  function DecisionsOf(c: Config, s: System, steps: seq<Step>): set<Decision>
    requires ValidConfig(c)
  {
    if steps == [] then {}
    else
      var front := steps[..|steps| - 1];
      DecisionsOf(c, s, front) + DecisionIn(c, Run(c, s, front), steps[|steps| - 1])
  }

  // ---------- the completion of a decision ----------

  /** The transaction that completes the decision's order. */
  function CompletionFor(c: Config, d: Decision): Completion {
    Completion(d.event.eventId, c.consumer.consumerName, d.event.aggregateId, d.status, d.reason, d.event.requestId)
  }

  /** The order has the decided status, and this event says so, with the reason and the request id. */
  predicate Shows(db: Database, orderId: Uuid, id: Uuid, d: Decision) {
    && d.event.aggregateId == orderId && orderId in db.orders && db.orders[orderId].status == d.status
    && id in db.outbox
    && db.outbox[id].payload == EnvelopeJson(Envelope(id, "OrderStatusChanged", orderId, d.event.requestId,
                                                      db.outbox[id].createdAt, 1,
                                                      StatusJson(StatusChangedPayload(Pending, d.status, d.reason))))
  }

  /** A `Complete` step of a slot commits exactly the verdict that the slot holds. */
  lemma CompleteStepStores(c: Config, s: System, w: string, ref: Ref, step: SlotStep)
    requires ValidConfig(c) && CanSlot(c, s, w, ref, step) && step.Complete?
    ensures var pc, s' := SlotOf(s, w, ref), Next(c, s, Slot(w, ref, step));
            var d := Decision(pc.envelope, pc.status, pc.reason);
            var r := CompleteTx(s.db, CompletionFor(c, d), step.newEventId, step.databaseNow).1;
            && Ends(s.db, s'.db, r, CompletionFor(c, d), step.newEventId, step.databaseNow)
            && (r == Applied ==> Shows(s'.db, pc.envelope.aggregateId, step.newEventId, d))
            && HasSlot(s', w, ref) && (SlotOf(s', w, ref).Handled? <==> r != CompleteFailed && !step.replyLost)
  {
    var pc := SlotOf(s, w, ref);
    CompleteTxEnds(s.db, CompletionFor(c, Decision(pc.envelope, pc.status, pc.reason)), step.newEventId,
                   step.databaseNow);
  }

  // ---------- what every run keeps ----------

  predicate CompletingAt(s: System, w: string, ref: Ref) {
    HasBatch(s, w) && ref in s.workers[w].batch.value.slots && s.workers[w].batch.value.slots[ref].Completing?
  }

  function DecisionAt(s: System, w: string, ref: Ref): Decision
    requires CompletingAt(s, w, ref)
  {
    var pc := s.workers[w].batch.value.slots[ref];
    Decision(pc.envelope, pc.status, pc.reason)
  }

  ghost predicate SlotsDecided(s: System, decided: set<Decision>) {
    forall w, ref :: CompletingAt(s, w, ref) ==> DecisionAt(s, w, ref) in decided
  }

  ghost predicate IsDecided(c: Config, done: Completion, decided: set<Decision>) {
    exists d :: d in decided && done == CompletionFor(c, d)
  }

  ghost predicate LatesDecided(c: Config, late: set<Late>, decided: set<Decision>) {
    forall done :: LateCompletion(done) in late ==> IsDecided(c, done, decided)
  }

  ghost predicate ShownIn(db: Database, orderId: Uuid, decided: set<Decision>) {
    exists id, d :: d in decided && Shows(db, orderId, id, d)
  }

  ghost predicate OrdersDecided(db: Database, decided: set<Decision>) {
    forall o :: IsDone(db, o) ==> ShownIn(db, o, decided)
  }

  ghost predicate AllDecided(c: Config, s: System, decided: set<Decision>) {
    SlotsDecided(s, decided) && LatesDecided(c, s.late, decided) && OrdersDecided(s.db, decided)
  }

  lemma ShownStays(db: Database, db': Database, orderId: Uuid, decided: set<Decision>, decided': set<Decision>)
    requires IsDone(db, orderId) && ShownIn(db, orderId, decided) && DbGrows(db, db') && decided <= decided'
    ensures ShownIn(db', orderId, decided')
  {
    var id, d :| d in decided && Shows(db, orderId, id, d);
    assert Shows(db', orderId, id, d);
  }

  /** The event is the one that was stored with its order. */
  predicate IsStored(db: Database, event: Envelope) {
    IsRowOf(db, event.eventId, event.aggregateId, "OrderCreated")
    && db.outbox[event.eventId].payload == EnvelopeJson(event)
  }

  ghost predicate AllStored(db: Database, decided: set<Decision>) {
    forall d :: d in decided ==> IsStored(db, d.event)
  }

  lemma StoredStays(db: Database, db': Database, decided: set<Decision>)
    requires AllStored(db, decided) && DbGrows(db, db')
    ensures AllStored(db', decided)
  {
  }

  lemma DecidedNowIsStored(c: Config, s: System, step: Step)
    requires ValidConfig(c) && SystemInv(c, s)
    ensures AllStored(s.db, DecisionIn(c, s, step))
  {
    if DecisionIn(c, s, step) != {} {
      SlotRecord(c, RealView(c), s, step.worker, step.ref);
      assert Carries(s.db, RecordAt(s, step.ref), ORDER_CREATED);
    }
  }

  lemma NextDecidesOnStored(c: Config, s: System, step: Step, decided: set<Decision>)
    requires ValidConfig(c) && SystemInv(c, s) && AllStored(s.db, decided)
    ensures AllStored(Next(c, s, step).db, decided + DecisionIn(c, s, step))
  {
    NextGrows(c, s, step);
    DecidedNowIsStored(c, s, step);
    StoredStays(s.db, Next(c, s, step).db, decided + DecisionIn(c, s, step));
  }

  lemma {:induction false} DecidedOnStored(c: Config, clock: Time, steps: seq<Step>)
    requires ValidConfig(c) && clock >= ZERO_TIME
    ensures AllStored(Run(c, Initial(clock), steps).db, DecisionsOf(c, Initial(clock), steps))
  {
    if steps != [] {
      var front := steps[..|steps| - 1];
      RunKeeps(c, clock, front);
      DecidedOnStored(c, clock, front);
      NextDecidesOnStored(c, Run(c, Initial(clock), front), steps[|steps| - 1], DecisionsOf(c, Initial(clock), front));
    }
  }

  /** No order is newly done, or it is one that a decision's completion has just applied to. */
  lemma OrdersStayDecided(db: Database, db': Database, decided: set<Decision>, decided': set<Decision>)
    requires OrdersDecided(db, decided) && DbGrows(db, db') && decided <= decided'
    requires forall o :: IsDone(db', o) ==> IsDone(db, o) || ShownIn(db', o, decided')
    ensures OrdersDecided(db', decided')
  {
    forall o | IsDone(db', o) ensures ShownIn(db', o, decided') {
      if IsDone(db, o) {
        ShownStays(db, db', o, decided, decided');
      }
    }
  }

  lemma CompletionShows(c: Config, db: Database, d: Decision, decided: set<Decision>, newEventId: Uuid, now: Time)
    requires d in decided
    ensures var db' := CompleteTx(db, CompletionFor(c, d), newEventId, now).0;
            forall o :: IsDone(db', o) ==> IsDone(db, o) || ShownIn(db', o, decided)
  {
    CompleteTxEnds(db, CompletionFor(c, d), newEventId, now);
    var (db', r) := CompleteTx(db, CompletionFor(c, d), newEventId, now);
    if r == Applied {
      assert Shows(db', d.event.aggregateId, newEventId, d);
    }
  }

  /** Where the slots were, and what the one that moves may be about to complete. */
  lemma OtherSlotsStay(c: Config, s: System, w: string, ref: Ref, step: SlotStep, v: string, r: Ref)
    requires ValidConfig(c) && CanSlot(c, s, w, ref, step) && CompletingAt(DoSlot(c, s, w, ref, step), v, r)
    ensures if v == w && r == ref then step.ProcessDecided? && SlotOf(s, w, ref).Processing?
            else CompletingAt(s, v, r) && DecisionAt(DoSlot(c, s, w, ref, step), v, r) == DecisionAt(s, v, r)
  {
  }

  lemma SlotStepKeepsSlots(c: Config, s: System, w: string, ref: Ref, step: SlotStep, decided: set<Decision>)
    requires ValidConfig(c) && SystemInv(c, s) && CanSlot(c, s, w, ref, step) && SlotsDecided(s, decided)
    ensures SlotsDecided(DoSlot(c, s, w, ref, step), decided + DecisionIn(c, s, Slot(w, ref, step)))
  {
    var s' := DoSlot(c, s, w, ref, step);
    var decided' := decided + DecisionIn(c, s, Slot(w, ref, step));
    SlotRecord(c, RealView(c), s, w, ref);
    forall v, r | CompletingAt(s', v, r) ensures DecisionAt(s', v, r) in decided' {
      OtherSlotsStay(c, s, w, ref, step, v, r);
    }
  }

  /** The slot's decision is what its `Complete` completes, now or late. */
  lemma SlotCompletes(c: Config, s: System, w: string, ref: Ref, decided: set<Decision>)
    requires HasSlot(s, w, ref) && SlotOf(s, w, ref).Completing? && SlotsDecided(s, decided)
    ensures var d := DecisionAt(s, w, ref);
            d in decided && CompletionAt(c, SlotOf(s, w, ref)) == CompletionFor(c, d)
  {
    assert CompletingAt(s, w, ref);
  }

  lemma SlotStepKeepsLates(c: Config, s: System, w: string, ref: Ref, step: SlotStep, decided: set<Decision>)
    requires ValidConfig(c) && CanSlot(c, s, w, ref, step) && SlotsDecided(s, decided)
    requires LatesDecided(c, s.late, decided)
    ensures LatesDecided(c, DoSlot(c, s, w, ref, step).late, decided)
  {
    if step.CompleteRefused? {
      SlotCompletes(c, s, w, ref, decided);
    }
  }

  lemma SlotStepShows(c: Config, s: System, w: string, ref: Ref, step: SlotStep, decided: set<Decision>)
    requires ValidConfig(c) && CanSlot(c, s, w, ref, step) && SlotsDecided(s, decided)
    ensures var db' := DoSlot(c, s, w, ref, step).db;
            forall o :: IsDone(db', o) ==> IsDone(s.db, o) || ShownIn(db', o, decided)
  {
    if step.Complete? {
      SlotCompletes(c, s, w, ref, decided);
      CompletionShows(c, s.db, DecisionAt(s, w, ref), decided, step.newEventId, step.databaseNow);
    }
  }

  lemma ArrivalDecides(c: Config, s: System, step: Step, decided: set<Decision>)
    requires step.Arrive? && step.request in s.late && AllDecided(c, s, decided)
    ensures var s' := DoArrive(s, step.request, step.index, step.newEventId, step.databaseNow);
            forall o :: IsDone(s'.db, o) ==> IsDone(s.db, o) || ShownIn(s'.db, o, decided)
  {
    if step.request.LateCompletion? {
      var d :| d in decided && step.request.completion == CompletionFor(c, d);
      CompletionShows(c, s.db, d, decided, step.newEventId, step.databaseNow);
    }
  }

  lemma OtherStepKeepsSlots(c: Config, s: System, step: Step, decided: set<Decision>)
    requires ValidConfig(c) && SlotsDecided(s, decided) && Enabled(c, s, step) && !step.Slot?
    ensures SlotsDecided(Next(c, s, step), decided)
  {
    var s' := Next(c, s, step);
    forall w, ref | CompletingAt(s', w, ref) ensures DecisionAt(s', w, ref) in decided {
      assert CompletingAt(s, w, ref);
    }
  }

  lemma OtherStepKeepsLates(c: Config, s: System, step: Step, decided: set<Decision>)
    requires ValidConfig(c) && LatesDecided(c, s.late, decided) && Enabled(c, s, step) && !step.Slot?
    ensures LatesDecided(c, Next(c, s, step).late, decided)
  {
    assert forall done :: LateCompletion(done) in Next(c, s, step).late ==> LateCompletion(done) in s.late;
  }

  lemma NewOrderIsPending(s: System, command: CreateCommand, requestId: string, freshId: string, orderId: Uuid,
        eventId: Uuid, now: Time)
    ensures var s' := DoCreate(s, command, requestId, freshId, orderId, eventId, now);
            forall o :: IsDone(s'.db, o) ==> IsDone(s.db, o)
  {
    var created := CreateOrder(command, requestId, freshId, orderId, eventId, now);
    if created.Success? {
      CreatedEventIsValid(command, requestId, freshId, orderId, eventId, now);
      CreateTxIff(s.db, created.value.0, created.value.1, s.clock);
    }
  }

  lemma OutboxStepCompletesNothing(c: Config, s: System, step: Step)
    requires ValidConfig(c) && Enabled(c, s, step) && !step.Slot? && !step.Arrive?
    ensures forall o :: IsDone(Next(c, s, step).db, o) ==> IsDone(s.db, o)
  {
    if step.Create? {
      NewOrderIsPending(s, step.command, step.requestId, step.freshRequestId, step.orderId, step.eventId, step.now);
    }
  }

  /** Every further decision leaves what was decided before. */
  lemma DecidedMore(c: Config, s: System, decided: set<Decision>, decided': set<Decision>)
    requires decided <= decided'
    ensures LatesDecided(c, s.late, decided) ==> LatesDecided(c, s.late, decided')
    ensures forall o :: ShownIn(s.db, o, decided) ==> ShownIn(s.db, o, decided')
  {
    forall done | IsDecided(c, done, decided) ensures IsDecided(c, done, decided') {
      var d :| d in decided && done == CompletionFor(c, d);
    }
    forall o | ShownIn(s.db, o, decided) ensures ShownIn(s.db, o, decided') {
      var id, d :| d in decided && Shows(s.db, o, id, d);
    }
  }

  lemma NextDecides(c: Config, s: System, step: Step, decided: set<Decision>)
    requires ValidConfig(c) && SystemInv(c, s) && AllDecided(c, s, decided)
    ensures AllDecided(c, Next(c, s, step), decided + DecisionIn(c, s, step))
  {
    var decided' := decided + DecisionIn(c, s, step);
    NextGrows(c, s, step);
    if !Enabled(c, s, step) {
      assert decided' == decided;
    } else if step.Slot? {
      SlotStepKeepsSlots(c, s, step.worker, step.ref, step.step, decided);
      SlotStepKeepsLates(c, s, step.worker, step.ref, step.step, decided);
      SlotStepShows(c, s, step.worker, step.ref, step.step, decided);
      DecidedMore(c, Next(c, s, step), decided, decided');
      OrdersStayDecided(s.db, Next(c, s, step).db, decided, decided');
    } else {
      assert decided' == decided;
      OtherStepKeepsSlots(c, s, step, decided);
      OtherStepKeepsLates(c, s, step, decided);
      if step.Arrive? {
        ArrivalDecides(c, s, step, decided);
      } else {
        OutboxStepCompletesNothing(c, s, step);
      }
      OrdersStayDecided(s.db, Next(c, s, step).db, decided, decided);
    }
  }

  lemma {:induction false} RunDecides(c: Config, clock: Time, steps: seq<Step>)
    requires ValidConfig(c) && clock >= ZERO_TIME
    ensures AllDecided(c, Run(c, Initial(clock), steps), DecisionsOf(c, Initial(clock), steps))
  {
    if steps != [] {
      var front := steps[..|steps| - 1];
      RunKeeps(c, clock, front);
      RunDecides(c, clock, front);
      NextDecides(c, Run(c, Initial(clock), front), steps[|steps| - 1], DecisionsOf(c, Initial(clock), front));
    }
  }

  /** One of the decisions, made on the order's stored event, is what the order and one event of the outbox show. */
  ghost predicate ComesFrom(db: Database, orderId: Uuid, decided: set<Decision>) {
    exists id, d :: d in decided && Shows(db, orderId, id, d) && IsStored(db, d.event)
  }

  lemma ShownComesFrom(db: Database, orderId: Uuid, decided: set<Decision>)
    requires ShownIn(db, orderId, decided) && forall d :: d in decided ==> IsStored(db, d.event)
    ensures ComesFrom(db, orderId, decided)
  {
    var id, d :| d in decided && Shows(db, orderId, id, d);
    assert IsStored(db, d.event);
  }

  /**
   * Whenever an order is past PENDING, the operations have decided its status on a record of its own
   * OrderCreated event in this very run, and the outbox holds an event that says PENDING to this status, with
   * the reason that they gave and the request id of the OrderCreated, however often that was redelivered and
   * whatever arrived late.
   */
  lemma FinalStatusWasDecided(c: Config, clock: Time, steps: seq<Step>, orderId: Uuid)
    requires ValidConfig(c) && clock >= ZERO_TIME && IsDone(Run(c, Initial(clock), steps).db, orderId)
    ensures ComesFrom(Run(c, Initial(clock), steps).db, orderId, DecisionsOf(c, Initial(clock), steps))
  {
    RunDecides(c, clock, steps);
    DecidedOnStored(c, clock, steps);
    ShownComesFrom(Run(c, Initial(clock), steps).db, orderId, DecisionsOf(c, Initial(clock), steps));
  }

  // ---------- where an order comes from ----------

  /** The row says what the command of this Create step asks for. */
  predicate OrderedBy(row: OrderRow, step: Step) {
    && step.Create? && row.id == step.orderId && Proper(step.command)
    && row.customerId == step.command.customerId && row.warehouseId == step.command.warehouseId
    && row.currency == "RUB" && row.totalAmountMinor == UnitTotal(step.command.items) && row.createdAt == step.now
  }

  ghost predicate Ordered(row: OrderRow, steps: seq<Step>) {
    exists i :: 0 <= i < |steps| && OrderedBy(row, steps[i])
  }

  lemma CompletionAddsNoOrder(db: Database, done: Completion, newEventId: Uuid, now: Time)
    ensures CompleteTx(db, done, newEventId, now).0.orders.Keys == db.orders.Keys
  {
  }

  lemma OtherStepAddsNoOrder(c: Config, s: System, step: Step)
    requires ValidConfig(c) && !step.Create?
    ensures Next(c, s, step).db.orders.Keys == s.db.orders.Keys
  {
    if Enabled(c, s, step) && step.Arrive? && step.request.LateCompletion? {
      CompletionAddsNoOrder(s.db, step.request.completion, step.newEventId, step.databaseNow);
    } else if Enabled(c, s, step) && step.Slot? && step.step.Complete? {
      CompletionAddsNoOrder(s.db, CompletionAt(c, SlotOf(s, step.worker, step.ref)), step.step.newEventId,
                            step.step.databaseNow);
    }
  }

  lemma NewOrderIsOrdered(c: Config, s: System, step: Step, orderId: Uuid)
    requires ValidConfig(c) && orderId !in s.db.orders && orderId in Next(c, s, step).db.orders
    ensures OrderedBy(Next(c, s, step).db.orders[orderId], step)
  {
    if step.Create? {
      CreatedEventIsValid(step.command, step.requestId, step.freshRequestId, step.orderId, step.eventId, step.now);
    } else {
      OtherStepAddsNoOrder(c, s, step);
    }
  }

  lemma OrderedStays(row: OrderRow, row': OrderRow, steps: seq<Step>, step: Step)
    requires Ordered(row, steps) && OrderGrows(row, row')
    ensures Ordered(row', steps + [step])
  {
    var i :| 0 <= i < |steps| && OrderedBy(row, steps[i]);
    assert OrderedBy(row', (steps + [step])[i]);
  }

  ghost predicate AllOrdered(db: Database, steps: seq<Step>) {
    forall o :: o in db.orders ==> Ordered(db.orders[o], steps)
  }

  lemma OrderedAfter(c: Config, s: System, steps: seq<Step>, step: Step)
    requires ValidConfig(c) && SystemInv(c, s) && AllOrdered(s.db, steps)
    ensures AllOrdered(Next(c, s, step).db, steps + [step])
  {
    var s' := Next(c, s, step);
    NextGrows(c, s, step);
    assert (steps + [step])[|steps|] == step;
    forall o | o in s'.db.orders ensures Ordered(s'.db.orders[o], steps + [step]) {
      if o in s.db.orders {
        OrderedStays(s.db.orders[o], s'.db.orders[o], steps, step);
      } else {
        NewOrderIsOrdered(c, s, step, o);
      }
    }
  }

  /** In every run, each order says what the command of one of its Create steps has asked for. */
  lemma {:induction false} OrdersWereOrdered(c: Config, clock: Time, steps: seq<Step>)
    requires ValidConfig(c) && clock >= ZERO_TIME
    ensures AllOrdered(Run(c, Initial(clock), steps).db, steps)
  {
    if steps != [] {
      var front := steps[..|steps| - 1];
      RunKeeps(c, clock, front);
      OrdersWereOrdered(c, clock, front);
      OrderedAfter(c, Run(c, Initial(clock), front), front, steps[|steps| - 1]);
      assert steps == front + [steps[|steps| - 1]];
    }
  }
}
