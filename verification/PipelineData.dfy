/**
 * What the database and Kafka satisfy in every reachable state of the pipeline, and how they only
 * ever grow.
 */
module PipelineData {
  import opened Prelude
  import opened Orders
  import opened Events
  import opened Store
  import Outbox

  // ---------- the database ----------

  /** The columns of a row that never change. */
  function Identity(row: Outbox.Row): Outbox.Event {
    Outbox.EventOf(row).(attempts := 0)
  }

  /** A judgement about such columns; what it demands does not matter for how rows evolve. */
  type Judgement = Outbox.Event -> bool

  predicate StatusRowGood(row: Outbox.Row, orders: map<Uuid, OrderRow>)
    requires row.aggregateId in orders
  {
    && orders[row.aggregateId].status != Pending
    && row.payload.EnvelopeJson? && row.payload.envelope.payload.StatusJson?
    && row.payload.envelope.payload.changed.previous == Pending
    && row.payload.envelope.payload.changed.current == orders[row.aggregateId].status
  }

  /** The payload says what the order's row says. */
  predicate Describes(payload: CreatedPayload, order: OrderRow) {
    && payload.customerId == order.customerId && payload.warehouseId == order.warehouseId
    && payload.currency == order.currency && payload.totalAmountMinor == order.totalAmountMinor
  }

  predicate CreatedRowGood(row: Outbox.Row, orders: map<Uuid, OrderRow>)
    requires row.aggregateId in orders
  {
    && row.payload.EnvelopeJson? && row.payload.envelope.payload.CreatedJson?
    && Describes(row.payload.envelope.payload.created, orders[row.aggregateId])
  }

  predicate RowGood(ok: Judgement, db: Database, id: Uuid)
    requires id in db.outbox
  {
    var row := db.outbox[id];
    && row.id == id && Outbox.RowOk(row) && !row.status.RowFailed?
    && ok(Identity(row))
    && row.aggregateId in db.orders
    && (row.eventType == ORDER_STATUS_CHANGED ==> StatusRowGood(row, db.orders))
    && (row.eventType == ORDER_CREATED ==> CreatedRowGood(row, db.orders))
  }

  ghost predicate RowsGood(ok: Judgement, db: Database) {
    forall id :: id in db.outbox ==> RowGood(ok, db, id)
  }

  /** At most one event of each type per order. */
  ghost predicate OneEach(db: Database) {
    forall id, id' :: id in db.outbox && id' in db.outbox
      && db.outbox[id].aggregateId == db.outbox[id'].aggregateId && db.outbox[id].eventType == db.outbox[id'].eventType
      ==> id == id'
  }

  predicate IsRowOf(db: Database, id: Uuid, orderId: Uuid, eventType: string) {
    id in db.outbox && db.outbox[id].aggregateId == orderId && db.outbox[id].eventType == eventType
  }

  ghost predicate HasRow(db: Database, orderId: Uuid, eventType: string) {
    exists id :: IsRowOf(db, id, orderId, eventType)
  }

  ghost predicate OrdersBacked(db: Database) {
    forall o :: o in db.orders ==>
      HasRow(db, o, ORDER_CREATED) && (db.orders[o].status != Pending ==> HasRow(db, o, ORDER_STATUS_CHANGED))
  }

  predicate IsDone(db: Database, orderId: Uuid) {
    orderId in db.orders && db.orders[orderId].status != Pending
  }

  /** A processed event is an OrderCreated whose order is no longer PENDING. */
  ghost predicate ProcessedDone(db: Database) {
    forall k :: k in db.processed ==>
      && k.eventId in db.outbox && db.outbox[k.eventId].eventType == ORDER_CREATED
      && IsDone(db, db.outbox[k.eventId].aggregateId)
  }

  ghost predicate DbInv(ok: Judgement, db: Database) {
    RowsGood(ok, db) && OneEach(db) && OrdersBacked(db) && ProcessedDone(db) && ItemsHaveOrders(db)
  }

  /** An order keeps everything but its status and its time of update, and its status once that is final. */
  predicate OrderGrows(order: OrderRow, order': OrderRow) {
    && order'.(status := order.status, updatedAt := order.updatedAt) == order
    && (order.status != Pending ==> order'.status == order.status)
  }

  /** Rows keep what they say and stay published. */
  predicate RowGrows(row: Outbox.Row, row': Outbox.Row) {
    && row'.id == row.id && row'.aggregateId == row.aggregateId && row'.eventType == row.eventType
    && row'.payload == row.payload && row'.createdAt == row.createdAt
    && (row.status.RowPublished? ==> row'.status.RowPublished?)
  }

  ghost predicate DbGrows(db: Database, db': Database) {
    && (forall id :: id in db.outbox ==> id in db'.outbox && RowGrows(db.outbox[id], db'.outbox[id]))
    && (forall o :: o in db.orders ==> o in db'.orders && OrderGrows(db.orders[o], db'.orders[o]))
  }

  lemma SameDbGrows(db: Database)
    ensures DbGrows(db, db)
  {
  }

  // ---------- the database steps ----------

  lemma HasRowStable(db: Database, db': Database, orderId: Uuid, eventType: string)
    requires DbGrows(db, db') && HasRow(db, orderId, eventType)
    ensures HasRow(db', orderId, eventType)
  {
    var id :| IsRowOf(db, id, orderId, eventType);
    assert IsRowOf(db', id, orderId, eventType);
  }

  /** A row stays good while the database grows, as long as its own state stays legal. */
  lemma RowGoodStable(ok: Judgement, db: Database, db': Database, id: Uuid)
    requires id in db.outbox && RowGood(ok, db, id) && DbGrows(db, db')
    requires Outbox.RowOk(db'.outbox[id]) && !db'.outbox[id].status.RowFailed?
    ensures RowGood(ok, db', id)
  {
  }

  // ---------- changing lock, status and schedule columns ----------

  lemma SameOrdersBacked(db: Database, db': Database)
    requires OrdersBacked(db) && DbGrows(db, db') && db'.orders == db.orders
    ensures OrdersBacked(db')
  {
    forall o, ty | o in db.orders && HasRow(db, o, ty) ensures HasRow(db', o, ty) {
      HasRowStable(db, db', o, ty);
    }
  }

  lemma RowsGoodStable(ok: Judgement, db: Database, db': Database)
    requires RowsGood(ok, db) && DbGrows(db, db') && db'.outbox.Keys == db.outbox.Keys
    requires forall id :: id in db'.outbox ==> Outbox.RowOk(db'.outbox[id]) && !db'.outbox[id].status.RowFailed?
    ensures RowsGood(ok, db')
  {
    forall id | id in db'.outbox ensures RowGood(ok, db', id) {
      RowGoodStable(ok, db, db', id);
    }
  }

  lemma RowChangeKeepsDb(ok: Judgement, db: Database, rows: Outbox.Table)
    requires DbInv(ok, db) && rows.Keys == db.outbox.Keys
    requires forall id :: id in rows ==>
               RowGrows(db.outbox[id], rows[id]) && Outbox.RowOk(rows[id]) && !rows[id].status.RowFailed?
    ensures DbInv(ok, db.(outbox := rows)) && DbGrows(db, db.(outbox := rows))
  {
    var db' := db.(outbox := rows);
    assert DbGrows(db, db');
    RowsGoodStable(ok, db, db');
    SameOrdersBacked(db, db');
    DoneStable(db, db');
  }

  lemma ClaimedRowGrows(row: Outbox.Row, owner: string, now: Time, lease: int64)
    requires Outbox.RowOk(row) && Outbox.Available(row, now)
    ensures var row' := Outbox.ClaimedRow(row, owner, now, lease);
            RowGrows(row, row') && Outbox.RowOk(row') && !row'.status.RowFailed?
  {
  }

  lemma ClaimKeepsDb(ok: Judgement, db: Database, chosen: seq<Uuid>, skipped: set<Uuid>, limit: nat, owner: string,
        now: Time, lease: int64)
    requires DbInv(ok, db) && Outbox.ValidChoice(db.outbox, chosen, skipped, limit, now)
    ensures var rows := Outbox.ClaimRows(db.outbox, chosen, owner, now, lease);
            DbInv(ok, db.(outbox := rows)) && DbGrows(db, db.(outbox := rows))
  {
    var rows := Outbox.ClaimRows(db.outbox, chosen, owner, now, lease);
    forall id | id in rows
      ensures RowGrows(db.outbox[id], rows[id]) && Outbox.RowOk(rows[id]) && !rows[id].status.RowFailed?
    {
      assert RowGood(ok, db, id);
      if id in chosen {
        ClaimedRowGrows(db.outbox[id], owner, now, lease);
      }
    }
    RowChangeKeepsDb(ok, db, rows);
  }

  lemma SettledRowGrows(row: Outbox.Row, how: Outbox.Settlement)
    requires Outbox.RowOk(row) && row.publishedAt == None && !how.Reject?
    ensures RowGrows(row, Outbox.SettledRow(row, how)) && Outbox.RowOk(Outbox.SettledRow(row, how))
    ensures !Outbox.SettledRow(row, how).status.RowFailed?
  {
  }

  lemma SettleKeepsDb(ok: Judgement, db: Database, id: Uuid, owner: string, how: Outbox.Settlement)
    requires DbInv(ok, db) && !how.Reject?
    ensures var rows := Outbox.Settle(db.outbox, id, owner, how);
            DbInv(ok, db.(outbox := rows)) && DbGrows(db, db.(outbox := rows))
  {
    var rows := Outbox.Settle(db.outbox, id, owner, how);
    forall i | i in rows
      ensures RowGrows(db.outbox[i], rows[i]) && Outbox.RowOk(rows[i]) && !rows[i].status.RowFailed?
    {
      assert RowGood(ok, db, i);
      if i == id && Outbox.Holds(db.outbox[i], owner) {
        SettledRowGrows(db.outbox[i], how);
      }
    }
    RowChangeKeepsDb(ok, db, rows);
  }

  // ---------- inserting one row ----------

  /** One new outbox row, and everything else only grows. */
  ghost predicate Inserted(db: Database, db': Database, id: Uuid) {
    && id !in db.outbox && id in db'.outbox && db'.outbox == db.outbox[id := db'.outbox[id]]
    && DbGrows(db, db')
  }

  lemma InsertKeepsRows(ok: Judgement, db: Database, db': Database, id: Uuid)
    requires RowsGood(ok, db) && OneEach(db) && Inserted(db, db', id) && RowGood(ok, db', id)
    requires !HasRow(db, db'.outbox[id].aggregateId, db'.outbox[id].eventType)
    ensures RowsGood(ok, db') && OneEach(db')
  {
    forall i | i in db'.outbox ensures RowGood(ok, db', i) {
      if i != id {
        assert RowGood(ok, db, i);
        RowGoodStable(ok, db, db', i);
      }
    }
    forall i | i in db.outbox ensures !IsRowOf(db, i, db'.outbox[id].aggregateId, db'.outbox[id].eventType) {
    }
  }

  /** The orders other than `orderId` stay backed by their rows. */
  lemma BackedStable(db: Database, db': Database, orderId: Uuid)
    requires OrdersBacked(db) && DbGrows(db, db')
    requires forall o :: o in db'.orders && o != orderId ==>
               o in db.orders && db'.orders[o].status == db.orders[o].status
    requires orderId in db'.orders && HasRow(db', orderId, ORDER_CREATED)
    requires db'.orders[orderId].status != Pending ==> HasRow(db', orderId, ORDER_STATUS_CHANGED)
    ensures OrdersBacked(db')
  {
    forall o | o in db'.orders && o != orderId
      ensures HasRow(db', o, ORDER_CREATED)
              && (db'.orders[o].status != Pending ==> HasRow(db', o, ORDER_STATUS_CHANGED))
    {
      HasRowStable(db, db', o, ORDER_CREATED);
      if db.orders[o].status != Pending {
        HasRowStable(db, db', o, ORDER_STATUS_CHANGED);
      }
    }
  }

  lemma DoneStable(db: Database, db': Database)
    requires ProcessedDone(db) && DbGrows(db, db') && db'.processed == db.processed
    ensures ProcessedDone(db')
  {
  }

  lemma EventTypesDiffer()
    ensures ORDER_STATUS_CHANGED != ORDER_CREATED
  {
    assert ORDER_STATUS_CHANGED[5] == 'S' && ORDER_CREATED[5] == 'C';
  }

  /** What the creation transaction leaves behind, apart from the items. */
  lemma CreateInserts(db: Database, order: Order, envelope: Envelope, now: Time)
    requires CreateTx(db, order, envelope, now).Some? && ItemsHaveOrders(db)
    ensures var db' := CreateTx(db, order, envelope, now).value;
            && Inserted(db, db', envelope.eventId)
            && db'.outbox[envelope.eventId] == Outbox.NewRow(envelope, now)
            && order.id !in db.orders && db'.orders == db.orders[order.id := RowOf(order)]
            && db'.processed == db.processed && ItemsHaveOrders(db')
  {
    InsertItemsKeys(db.items, order.id, order.items);
  }

  lemma CreateKeepsDb(ok: Judgement, db: Database, order: Order, envelope: Envelope, now: Time)
    requires DbInv(ok, db) && CreateTx(db, order, envelope, now).Some?
    requires order.status == Pending && envelope.eventType == ORDER_CREATED && envelope.aggregateId == order.id
    requires envelope.payload == CreatedJson(PayloadOf(order))
    requires ok(Identity(Outbox.NewRow(envelope, now)))
    ensures DbInv(ok, CreateTx(db, order, envelope, now).value) && DbGrows(db, CreateTx(db, order, envelope, now).value)
  {
    CreateInserts(db, order, envelope, now);
    InsertedOrderKeepsDb(ok, db, CreateTx(db, order, envelope, now).value, order, envelope, now);
  }

  lemma InsertedOrderKeepsDb(ok: Judgement, db: Database, db': Database, order: Order, envelope: Envelope, now: Time)
    requires DbInv(ok, db) && Inserted(db, db', envelope.eventId)
             && db'.outbox[envelope.eventId] == Outbox.NewRow(envelope, now)
    requires order.id !in db.orders && db'.orders == db.orders[order.id := RowOf(order)]
    requires db'.processed == db.processed && ItemsHaveOrders(db')
    requires order.status == Pending && envelope.eventType == ORDER_CREATED && envelope.aggregateId == order.id
    requires envelope.payload == CreatedJson(PayloadOf(order))
    requires ok(Identity(Outbox.NewRow(envelope, now)))
    ensures DbInv(ok, db')
  {
    EventTypesDiffer();
    assert RowGood(ok, db', envelope.eventId);
    forall id ensures !IsRowOf(db, id, order.id, ORDER_CREATED) {
      if id in db.outbox {
        assert RowGood(ok, db, id);
      }
    }
    InsertKeepsRows(ok, db, db', envelope.eventId);
    assert IsRowOf(db', envelope.eventId, order.id, ORDER_CREATED);
    BackedStable(db, db', order.id);
    DoneStable(db, db');
  }

  // ---------- completing an order ----------

  /** The envelope of an OrderCreated row. */
  predicate IsCreatedEvent(db: Database, envelope: Envelope) {
    && envelope.eventId in db.outbox && db.outbox[envelope.eventId].payload == EnvelopeJson(envelope)
    && db.outbox[envelope.eventId].eventType == ORDER_CREATED
  }

  /** What an applied completion leaves behind. */
  lemma CompleteInserts(db: Database, c: Completion, newEventId: Uuid, now: Time)
    requires CompleteTx(db, c, newEventId, now).1 == Applied
    ensures var db' := CompleteTx(db, c, newEventId, now).0;
            && c.orderId in db.orders && db.orders[c.orderId].status == Pending
            && StatusEvent(c, Pending, newEventId, now).Success?
            && Inserted(db, db', newEventId)
            && db'.outbox[newEventId] == Outbox.NewRow(StatusEvent(c, Pending, newEventId, now).value, now)
            && db'.orders == db.orders[c.orderId := Updated(db.orders[c.orderId], c.status, now)]
            && db'.processed == db.processed + {KeyOf(c)} && db'.items == db.items
  {
  }

  /** A completion of an order that was still PENDING: one status row more, and the order has its status. */
  predicate Completes(db: Database, db': Database, c: Completion, id: Uuid, now: Time) {
    && c.orderId in db.orders && db.orders[c.orderId].status == Pending && c.status != Pending
    && IsRowOf(db, c.eventId, c.orderId, ORDER_CREATED) && IsRowOf(db', id, c.orderId, ORDER_STATUS_CHANGED)
    && db'.orders == db.orders[c.orderId := Updated(db.orders[c.orderId], c.status, now)]
    && db'.processed == db.processed + {KeyOf(c)} && db'.items == db.items
  }

  /** Completing an order inserts a good row for it, next to those it has. */
  lemma AppliedKeepsDb(ok: Judgement, db: Database, db': Database, c: Completion, id: Uuid, now: Time)
    requires DbInv(ok, db) && Inserted(db, db', id) && Completes(db, db', c, id, now) && RowGood(ok, db', id)
    ensures DbInv(ok, db')
  {
    NoStatusRowYet(ok, db, c.orderId);
    InsertKeepsRows(ok, db, db', id);
    CompletedBacked(db, db', c, id, now);
    CompletedDone(db, db', c, id, now);
  }

  lemma NoStatusRowYet(ok: Judgement, db: Database, orderId: Uuid)
    requires RowsGood(ok, db) && orderId in db.orders && db.orders[orderId].status == Pending
    ensures !HasRow(db, orderId, ORDER_STATUS_CHANGED)
  {
    forall i ensures !IsRowOf(db, i, orderId, ORDER_STATUS_CHANGED) {
      if i in db.outbox {
        assert RowGood(ok, db, i);
      }
    }
  }

  lemma CompletedBacked(db: Database, db': Database, c: Completion, id: Uuid, now: Time)
    requires OrdersBacked(db) && DbGrows(db, db') && Completes(db, db', c, id, now)
    ensures OrdersBacked(db')
  {
    HasRowStable(db, db', c.orderId, ORDER_CREATED);
    BackedStable(db, db', c.orderId);
  }

  lemma CompletedDone(db: Database, db': Database, c: Completion, id: Uuid, now: Time)
    requires ProcessedDone(db) && DbGrows(db, db') && Completes(db, db', c, id, now)
    ensures ProcessedDone(db')
  {
  }

  lemma StatusRowIsGood(ok: Judgement, db': Database, c: Completion, newEventId: Uuid, now: Time)
    requires StatusEvent(c, Pending, newEventId, now).Success? && newEventId in db'.outbox
    requires db'.outbox[newEventId] == Outbox.NewRow(StatusEvent(c, Pending, newEventId, now).value, now)
    requires ok(Identity(db'.outbox[newEventId]))
    requires c.orderId in db'.orders && db'.orders[c.orderId].status == c.status != Pending
    ensures RowGood(ok, db', newEventId) && IsRowOf(db', newEventId, c.orderId, ORDER_STATUS_CHANGED)
  {
    EventTypesDiffer();
  }

  lemma CompleteKeepsDb(ok: Judgement, db: Database, c: Completion, envelope: Envelope, newEventId: Uuid, now: Time)
    requires DbInv(ok, db) && IsCreatedEvent(db, envelope)
    requires c.eventId == envelope.eventId && c.orderId == envelope.aggregateId && c.status != Pending
    requires db.outbox[envelope.eventId].aggregateId == envelope.aggregateId
    requires StatusEvent(c, Pending, newEventId, now).Success?
             ==> ok(Identity(Outbox.NewRow(StatusEvent(c, Pending, newEventId, now).value, now)))
    ensures var (db', result) := CompleteTx(db, c, newEventId, now);
            && DbInv(ok, db') && DbGrows(db, db')
            && (result != CompleteFailed ==> IsDone(db', envelope.aggregateId))
  {
    assert RowGood(ok, db, envelope.eventId);
    var (db', result) := CompleteTx(db, c, newEventId, now);
    if result == Applied {
      CompleteInserts(db, c, newEventId, now);
      StatusRowIsGood(ok, db', c, newEventId, now);
      AppliedKeepsDb(ok, db, db', c, newEventId, now);
    } else {
      assert db' == db || db' == db.(processed := db.processed + {KeyOf(c)});
      StaleKeepsDb(ok, db, db');
    }
  }

  /** Recording one more processed event changes nothing else. */
  lemma StaleKeepsDb(ok: Judgement, db: Database, db': Database)
    requires DbInv(ok, db) && db' == db.(processed := db'.processed) && ProcessedDone(db')
    ensures DbInv(ok, db') && DbGrows(db, db')
  {
    assert DbGrows(db, db');
    assert forall id :: id in db.outbox ==> RowGood(ok, db, id);
    RowsGoodStable(ok, db, db');
    SameOrdersBacked(db, db');
  }
}
