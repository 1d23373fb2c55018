/**
 * The Postgres transactions of the order side: order creation (internal/order/postgres.go) and
 * completion (internal/consumer/postgres.go), as functions on the database and as methods.
 */
module Store {
  import opened Prelude
  import opened Text
  import opened Permutations
  import opened Orders
  import opened Events
  import Outbox

  datatype OrderRow = OrderRow(
    id: Uuid, customerId: Uuid, warehouseId: Uuid, status: Status, currency: string,
    totalAmountMinor: int64, createdAt: Time, updatedAt: Time)

  /** Primary key of order_items. */
  datatype ItemKey = ItemKey(orderId: Uuid, sku: string)

  /** Primary key of processed_events. */
  datatype ProcessedKey = ProcessedKey(consumer: string, eventId: Uuid)

  datatype Database = Database(
    orders: map<Uuid, OrderRow>, items: map<ItemKey, Item>, outbox: Outbox.Table, processed: set<ProcessedKey>)

  const EMPTY: Database := Database(map[], map[], map[], {})

  // ---------- CreateWithEvent and Get ----------

  function RowOf(order: Order): OrderRow {
    OrderRow(order.id, order.customerId, order.warehouseId, order.status, order.currency,
             order.totalAmountMinor, order.createdAt, order.updatedAt)
  }

  /** The CHECK constraints of `orders` and `order_items`. */
  predicate RowsPass(order: Order) {
    && order.currency == CURRENCY_RUB && order.totalAmountMinor > 0 && order.updatedAt >= order.createdAt
    && forall i :: 0 <= i < |order.items| ==>
         1 <= |order.items[i].sku| <= 128 && order.items[i].quantity > 0 && order.items[i].unitPriceMinor > 0
  }

  /** The first `k` item inserts; a primary-key conflict aborts. */
  function InsertItems(table: map<ItemKey, Item>, orderId: Uuid, items: seq<Item>): Option<map<ItemKey, Item>> {
    if items == [] then Some(table)
    else
      match InsertItems(table, orderId, items[..|items| - 1])
      case None => None
      case Some(t) =>
        var last := items[|items| - 1];
        if ItemKey(orderId, last.sku) in t then None else Some(t[ItemKey(orderId, last.sku) := last])
  }

  /** The rows of the item query, in the order of `skus`. */
  function ItemsFor(table: map<ItemKey, Item>, orderId: Uuid, skus: seq<string>): (list: seq<Item>)
    requires forall sku :: sku in skus ==> ItemKey(orderId, sku) in table
    ensures |list| == |skus|
    ensures forall i :: 0 <= i < |skus| ==> list[i] == table[ItemKey(orderId, skus[i])]
  {
    if skus == [] then []
    else ItemsFor(table, orderId, skus[..|skus| - 1]) + [table[ItemKey(orderId, skus[|skus| - 1])]]
  }

  /** One transaction: the order, its items and its outbox row, or nothing. */
  function CreateTx(db: Database, order: Order, envelope: Envelope, now: Time): Option<Database> {
    if order.id in db.orders || !RowsPass(order) then None
    else
      match InsertItems(db.items, order.id, order.items)
      case None => None
      case Some(items) =>
        if envelope.eventId in db.outbox then None
        else Some(db.(orders := db.orders[order.id := RowOf(order)], items := items,
                      outbox := db.outbox[envelope.eventId := Outbox.NewRow(envelope, now)]))
  }

  /** The keys of these items are new, and each is used once. */
  ghost predicate FreshItems(table: map<ItemKey, Item>, orderId: Uuid, items: seq<Item>) {
    && (forall i :: 0 <= i < |items| ==> ItemKey(orderId, items[i].sku) !in table)
    && (forall i, j :: 0 <= i < j < |items| ==> items[i].sku != items[j].sku)
  }

  ghost predicate AmongItems(orderId: Uuid, items: seq<Item>, k: ItemKey) {
    exists i :: 0 <= i < |items| && k == ItemKey(orderId, items[i].sku)
  }

  /** The table with these items, and nothing else, added. */
  ghost predicate ItemsAdded(before: map<ItemKey, Item>, after: map<ItemKey, Item>, orderId: Uuid, items: seq<Item>) {
    && (forall i :: 0 <= i < |items| ==>
          ItemKey(orderId, items[i].sku) in after && after[ItemKey(orderId, items[i].sku)] == items[i])
    && (forall k :: k in before ==> k in after && after[k] == before[k])
    && (forall k :: k in after ==> k in before || AmongItems(orderId, items, k))
  }

  lemma OneMoreAdded(table: map<ItemKey, Item>, t: map<ItemKey, Item>, orderId: Uuid, front: seq<Item>, last: Item)
    requires ItemsAdded(table, t, orderId, front) && FreshItems(table, orderId, front)
    ensures ItemKey(orderId, last.sku) !in t <==> FreshItems(table, orderId, front + [last])
    ensures ItemKey(orderId, last.sku) !in t ==>
              ItemsAdded(table, t[ItemKey(orderId, last.sku) := last], orderId, front + [last])
  {
    var items, key := front + [last], ItemKey(orderId, last.sku);
    assert items[|front|] == last && forall i :: 0 <= i < |front| ==> items[i] == front[i];
    if key !in t {
      forall k | k in t[key := last] && k !in table ensures AmongItems(orderId, items, k) {
        if k == key {
          assert k == ItemKey(orderId, items[|front|].sku);
        } else {
          var i :| 0 <= i < |front| && k == ItemKey(orderId, front[i].sku);
          assert k == ItemKey(orderId, items[i].sku);
        }
      }
    }
  }

  lemma {:induction false} InsertItemsIff(table: map<ItemKey, Item>, orderId: Uuid, items: seq<Item>)
    ensures InsertItems(table, orderId, items).Some? <==> FreshItems(table, orderId, items)
    ensures InsertItems(table, orderId, items).Some? ==>
              ItemsAdded(table, InsertItems(table, orderId, items).value, orderId, items)
  {
    if items != [] {
      var front, last := items[..|items| - 1], items[|items| - 1];
      InsertItemsIff(table, orderId, front);
      assert items == front + [last];
      if InsertItems(table, orderId, front).Some? {
        OneMoreAdded(table, InsertItems(table, orderId, front).value, orderId, front, last);
      } else {
        assert forall i :: 0 <= i < |front| ==> items[i] == front[i];
      }
    }
  }

  /** What the tables must be like for an order and its event to go in, field by field. */
  ghost predicate FitsIn(db: Database, order: Order, envelope: Envelope) {
    && order.id !in db.orders && envelope.eventId !in db.outbox
    && order.currency == "RUB" && order.totalAmountMinor > 0 && order.updatedAt >= order.createdAt
    && (forall i :: 0 <= i < |order.items| ==>
          1 <= |order.items[i].sku| <= 128 && order.items[i].quantity > 0 && order.items[i].unitPriceMinor > 0)
    && FreshItems(db.items, order.id, order.items)
  }

  /** What they hold afterwards. */
  ghost predicate WentIn(before: Database, after: Database, order: Order, envelope: Envelope, now: Time) {
    && after.orders == before.orders[order.id := OrderRow(order.id, order.customerId, order.warehouseId, order.status,
                                                          order.currency, order.totalAmountMinor, order.createdAt,
                                                          order.updatedAt)]
    && after.outbox == before.outbox[envelope.eventId := Outbox.Row(
                                       envelope.eventId, envelope.aggregateId, envelope.eventType,
                                       EnvelopeJson(envelope), Outbox.RowPending, envelope.occurredAt, None, 0, now,
                                       None, None)]
    && ItemsAdded(before.items, after.items, order.id, order.items) && after.processed == before.processed
  }

  lemma CreateTxIff(db: Database, order: Order, envelope: Envelope, now: Time)
    ensures CreateTx(db, order, envelope, now).Some? <==> FitsIn(db, order, envelope)
    ensures CreateTx(db, order, envelope, now).Some? ==>
              WentIn(db, CreateTx(db, order, envelope, now).value, order, envelope, now)
    ensures CreateTx(db, order, envelope, now).Some? ==>
              CreateTx(db, order, envelope, now).value.outbox
              == Outbox.Apply(db.outbox, Outbox.Insert(envelope, now))
  {
    InsertItemsIff(db.items, order.id, order.items);
  }

  // ---------- Complete ----------

  datatype Completion = Completion(eventId: Uuid, consumer: string, orderId: Uuid, status: Status, reason: string,
                                   requestId: string)

  datatype CompleteResult = Applied | NotApplied | CompleteFailed

  function KeyOf(c: Completion): ProcessedKey {
    ProcessedKey(c.consumer, c.eventId)
  }

  function StatusEvent(c: Completion, previous: Status, newEventId: Uuid, now: Time): Result<Envelope, EventError> {
    NewEnvelope(ORDER_STATUS_CHANGED, c.orderId, c.requestId,
                StatusJson(StatusChangedPayload(previous, c.status, c.reason)), newEventId, now)
  }

  function Updated(row: OrderRow, status: Status, now: Time): OrderRow {
    row.(status := status, updatedAt := now)
  }

  /** The completion transaction as one atomic step. `now` is the database clock. */
  function CompleteTx(db: Database, c: Completion, newEventId: Uuid, now: Time): (Database, CompleteResult) {
    if KeyOf(c) in db.processed then (db, NotApplied)
    else if c.orderId !in db.orders then (db, CompleteFailed)
    else if db.orders[c.orderId].status != Pending then (db.(processed := db.processed + {KeyOf(c)}), NotApplied)
    else if now < db.orders[c.orderId].createdAt then (db, CompleteFailed)
    else
      match StatusEvent(c, Pending, newEventId, now)
      case Failure(_) => (db, CompleteFailed)
      case Success(envelope) =>
        if newEventId in db.outbox then (db, CompleteFailed)
        else (db.(processed := db.processed + {KeyOf(c)},
                  orders := db.orders[c.orderId := Updated(db.orders[c.orderId], c.status, now)],
                  outbox := db.outbox[newEventId := Outbox.NewRow(envelope, now)]), Applied)
  }

  /** When a completion of an order goes through, field by field. */
  ghost predicate MayApply(db: Database, c: Completion, newEventId: Uuid, now: Time) {
    && ProcessedKey(c.consumer, c.eventId) !in db.processed
    && c.orderId in db.orders && db.orders[c.orderId].status == Pending && now >= db.orders[c.orderId].createdAt
    && newEventId !in db.outbox && newEventId != 0 && c.orderId != 0 && now != 0
    && TrimSpace(c.requestId) != "" && ByteLength(c.requestId) <= 128
  }

  /** What it leaves: the order with its new status, one new event that says so, and the processed event. */
  ghost predicate AppliedTo(before: Database, after: Database, c: Completion, newEventId: Uuid, now: Time)
    requires c.orderId in before.orders
  {
    && after.orders == before.orders[c.orderId := before.orders[c.orderId].(status := c.status, updatedAt := now)]
    && after.items == before.items
    && after.processed == before.processed + {ProcessedKey(c.consumer, c.eventId)}
    && after.outbox == before.outbox[newEventId := Outbox.Row(
                                       newEventId, c.orderId, "OrderStatusChanged",
                                       EnvelopeJson(Envelope(newEventId, "OrderStatusChanged", c.orderId, c.requestId,
                                                             now, 1, StatusJson(StatusChangedPayload(Pending, c.status,
                                                                                                c.reason)))),
                                       Outbox.RowPending, now, None, 0, now, None, None)]
  }

  /** A stale or repeated event: at most the event is recorded. */
  ghost predicate PassedOver(before: Database, after: Database, c: Completion) {
    && after == before.(processed := before.processed + {ProcessedKey(c.consumer, c.eventId)})
    && (|| ProcessedKey(c.consumer, c.eventId) in before.processed
        || (c.orderId in before.orders && before.orders[c.orderId].status != Pending))
  }

  /** The three ways in which a completion ends. */
  ghost predicate Ends(before: Database, after: Database, r: CompleteResult, c: Completion, newEventId: Uuid,
        now: Time)
  {
    && (r.Applied? <==> MayApply(before, c, newEventId, now))
    && (r.NotApplied? <==>
          || ProcessedKey(c.consumer, c.eventId) in before.processed
          || (c.orderId in before.orders && before.orders[c.orderId].status != Pending))
    && (r.Applied? ==> c.orderId in before.orders && AppliedTo(before, after, c, newEventId, now))
    && (r.NotApplied? ==> PassedOver(before, after, c))
    && (r.CompleteFailed? ==> after == before)
  }

  lemma CompleteTxEnds(db: Database, c: Completion, newEventId: Uuid, now: Time)
    ensures var (after, r) := CompleteTx(db, c, newEventId, now);
            Ends(db, after, r, c, newEventId, now)
  {
    NewEnvelopeIs("OrderStatusChanged", c.orderId, c.requestId,
                  StatusJson(StatusChangedPayload(Pending, c.status, c.reason)), newEventId, now);
    var (after, r) := CompleteTx(db, c, newEventId, now);
    if r.NotApplied? {
      assert KeyOf(c) in db.processed ==> db.processed + {KeyOf(c)} == db.processed;
    }
  }

  // ---------- the repository ----------

  /** `ORDER BY sku`, where each SKU occurs once. */
  ghost predicate Ascending(before: (string, string) -> bool, skus: seq<string>) {
    forall i, j :: 0 <= i < j < |skus| ==> skus[i] != skus[j] && before(skus[i], skus[j])
  }

  function Skus(items: seq<Item>): seq<string> {
    seq(|items|, i requires 0 <= i < |items| => items[i].sku)
  }

  /** The key of an item's row is its SKU. */
  ghost predicate KeyedBySku(items: map<ItemKey, Item>) {
    forall k :: k in items ==> items[k].sku == k.sku
  }

  class PostgresStore {
    var orders: map<Uuid, OrderRow>
    var items: map<ItemKey, Item>
    var outbox: Outbox.Table
    var processed: set<ProcessedKey>

    constructor ()
      ensures Contents() == EMPTY
    {
      orders, items, outbox, processed := map[], map[], map[], {};
    }

    function Contents(): Database
      reads this
    {
      Database(orders, items, outbox, processed)
    }

    /** Statement by statement; returning early leaves the transaction rolled back. */
    method CreateWithEvent(order: Order, envelope: Envelope, now: Time) returns (ok: bool)
      modifies this
      ensures ok <==> CreateTx(old(Contents()), order, envelope, now).Some?
      ensures Contents() == if ok then CreateTx(old(Contents()), order, envelope, now).value else old(Contents())
      ensures ok <==> FitsIn(old(Contents()), order, envelope)
      ensures ok ==> WentIn(old(Contents()), Contents(), order, envelope, now)
    {
      CreateTxIff(Contents(), order, envelope, now);
      if order.id in orders || !RowsPass(order) {
        return false;
      }
      var newItems := InsertAll(order);
      if newItems.None? || envelope.eventId in outbox {
        return false;
      }
      orders := orders[order.id := RowOf(order)];
      items := newItems.value;
      outbox := outbox[envelope.eventId := Outbox.NewRow(envelope, now)];
      return true;
    }

    /** The inserts into order_items, one after the other; none of them is visible before the commit. */
    method InsertAll(order: Order) returns (newItems: Option<map<ItemKey, Item>>)
      ensures newItems == InsertItems(items, order.id, order.items)
    {
      var table := items;
      for i := 0 to |order.items|
        invariant InsertItems(items, order.id, order.items[..i]) == Some(table)
      {
        assert order.items[..i + 1][..i] == order.items[..i];
        var key := ItemKey(order.id, order.items[i].sku);
        if key in table {
          InsertItemsFails(items, order.id, order.items, i + 1);
          return None;
        }
        table := table[key := order.items[i]];
      }
      assert order.items[..|order.items|] == order.items;
      return Some(table);
    }

    /**
     * `skus` is what the item query runs through: the order's SKUs, sorted by the database's collation
     * `before`. The items come back in that order.
     */
    method Get(id: Uuid, skus: seq<string>, ghost before: (string, string) -> bool) returns (found: Option<Order>)
      requires forall sku :: sku in skus <==> ItemKey(id, sku) in items
      requires Ascending(before, skus)
      ensures found.Some? <==> id in orders
      ensures found.Some? ==>
                var order, row := found.value, orders[id];
                && order.id == row.id && order.customerId == row.customerId && order.warehouseId == row.warehouseId
                && order.status == row.status && order.currency == row.currency
                && order.totalAmountMinor == row.totalAmountMinor
                && order.createdAt == row.createdAt && order.updatedAt == row.updatedAt
                && |order.items| == |skus|
                && forall i :: 0 <= i < |skus| ==> order.items[i] == items[ItemKey(id, skus[i])]
      ensures found.Some? && KeyedBySku(items) ==> Ascending(before, Skus(found.value.items))
      ensures found.Some? ==> RowOf(found.value) == orders[id] && found.value.items == ItemsFor(items, id, skus)
    {
      if id !in orders {
        return None;
      }
      var row := orders[id];
      var list := [];
      for i := 0 to |skus|
        invariant list == ItemsFor(items, id, skus[..i])
      {
        assert skus[i] in skus && skus[..i + 1][..i] == skus[..i];
        list := list + [items[ItemKey(id, skus[i])]];
      }
      assert skus[..|skus|] == skus;
      if KeyedBySku(items) {
        assert forall i :: 0 <= i < |skus| ==> skus[i] in skus && Skus(list)[i] == skus[i];
      }
      return Some(Order(row.id, row.customerId, row.warehouseId, row.status, row.currency,
                        row.totalAmountMinor, list, row.createdAt, row.updatedAt));
    }

    method IsProcessed(eventId: Uuid, consumer: string) returns (exists_: bool)
      ensures exists_ <==> ProcessedKey(consumer, eventId) in processed
    {
      exists_ := ProcessedKey(consumer, eventId) in processed;
    }

    /** Statement by statement, on the transaction's own view, which Commit makes durable. */
    method Complete(c: Completion, newEventId: Uuid, now: Time) returns (r: CompleteResult)
      modifies this
      ensures (Contents(), r) == CompleteTx(old(Contents()), c, newEventId, now)
      ensures Ends(old(Contents()), Contents(), r, c, newEventId, now)
    {
      CompleteTxEnds(Contents(), c, newEventId, now);
      if KeyOf(c) in processed {
        return NotApplied;
      }
      var newProcessed := processed + {KeyOf(c)};
      if c.orderId !in orders {
        return CompleteFailed;
      }
      var previous := orders[c.orderId].status;
      if previous != Pending {
        processed := newProcessed;
        return NotApplied;
      }
      if now < orders[c.orderId].createdAt {
        return CompleteFailed;
      }
      var newOrders := orders[c.orderId := Updated(orders[c.orderId], c.status, now)];
      var event := StatusEvent(c, previous, newEventId, now);
      if event.Failure? || newEventId in outbox {
        return CompleteFailed;
      }
      outbox := outbox[newEventId := Outbox.NewRow(event.value, now)];
      orders := newOrders;
      processed := newProcessed;
      return Applied;
    }
  }

  lemma {:induction false} InsertItemsFails(table: map<ItemKey, Item>, orderId: Uuid, items: seq<Item>, k: nat)
    requires k <= |items| && InsertItems(table, orderId, items[..k]) == None
    ensures InsertItems(table, orderId, items) == None
    decreases |items|
  {
    if k == |items| {
      assert items[..k] == items;
    } else {
      assert items[..|items| - 1][..k] == items[..k];
      InsertItemsFails(table, orderId, items[..|items| - 1], k);
    }
  }

  // ---------- what was created can be read back ----------

  /** The table holds, for this order, exactly these items, each under its own key. */
  predicate HoldsItems(table: map<ItemKey, Item>, orderId: Uuid, items: seq<Item>) {
    && (forall k :: k in table && k.orderId == orderId ==> exists i :: 0 <= i < |items| && items[i].sku == k.sku)
    && (forall i :: 0 <= i < |items| ==>
        ItemKey(orderId, items[i].sku) in table && table[ItemKey(orderId, items[i].sku)] == items[i])
  }

  lemma HoldsOneMore(table: map<ItemKey, Item>, orderId: Uuid, front: seq<Item>, last: Item)
    requires HoldsItems(table, orderId, front)
    requires forall i :: 0 <= i < |front| ==> front[i].sku != last.sku
    ensures ItemKey(orderId, last.sku) !in table
    ensures HoldsItems(table[ItemKey(orderId, last.sku) := last], orderId, front + [last])
  {
    var t, items := table[ItemKey(orderId, last.sku) := last], front + [last];
    forall k | k in t && k.orderId == orderId ensures exists i :: 0 <= i < |items| && items[i].sku == k.sku {
      if k.sku == last.sku {
        assert items[|front|].sku == k.sku;
      } else {
        var i :| 0 <= i < |front| && front[i].sku == k.sku;
        assert items[i].sku == k.sku;
      }
    }
  }

  lemma {:induction false} ItemsGoIn(table: map<ItemKey, Item>, orderId: Uuid, items: seq<Item>)
    requires DistinctSkus(items) && forall k :: k in table ==> k.orderId != orderId
    ensures InsertItems(table, orderId, items).Some?
    ensures HoldsItems(InsertItems(table, orderId, items).value, orderId, items)
  {
    if items != [] {
      var front, last := items[..|items| - 1], items[|items| - 1];
      ItemsGoIn(table, orderId, front);
      HoldsOneMore(InsertItems(table, orderId, front).value, orderId, front, last);
      assert items == front + [last];
    }
  }

  /** Items go in under the order they belong to. */
  lemma {:induction false} InsertItemsKeys(table: map<ItemKey, Item>, orderId: Uuid, items: seq<Item>)
    requires InsertItems(table, orderId, items).Some?
    ensures forall k :: k in InsertItems(table, orderId, items).value ==> k in table || k.orderId == orderId
  {
    if items != [] {
      InsertItemsKeys(table, orderId, items[..|items| - 1]);
    }
  }

  lemma ValidOrderPasses(order: Order)
    requires ValidPayload(PayloadOf(order)) && order.updatedAt >= order.createdAt
    ensures RowsPass(order)
  {
    assert order.items[..|order.items|] == order.items;
    SumIsMonotone(order.items, |order.items|);
    forall i | 0 <= i < |order.items| ensures 1 <= |order.items[i].sku| {
      assert ValidItem(order.items[i]);
    }
  }

  /** No item belongs to an order that does not exist (the foreign key of order_items). */
  predicate ItemsHaveOrders(db: Database) {
    forall k :: k in db.items ==> k.orderId in db.orders
  }

  /** A valid order with fresh ids passes every constraint and goes in completely. */
  lemma CreateTxSucceeds(db: Database, order: Order, envelope: Envelope, now: Time)
    requires ItemsHaveOrders(db) && order.id !in db.orders && envelope.eventId !in db.outbox
    requires ValidPayload(PayloadOf(order)) && order.updatedAt >= order.createdAt
    ensures CreateTx(db, order, envelope, now).Some?
    ensures var after := CreateTx(db, order, envelope, now).value;
            && ItemsHaveOrders(after) && after.orders[order.id] == RowOf(order)
            && HoldsItems(after.items, order.id, order.items)
            && after.outbox[envelope.eventId] == Outbox.NewRow(envelope, now)
  {
    ItemsGoIn(db.items, order.id, order.items);
    InsertItemsKeys(db.items, order.id, order.items);
    ValidOrderPasses(order);
  }

  /** Whatever order the item query uses, the items read back are the ones that went in. */
  lemma ItemsReadBack(table: map<ItemKey, Item>, orderId: Uuid, items: seq<Item>, skus: seq<string>)
    requires HoldsItems(table, orderId, items) && DistinctSkus(items)
    requires forall sku :: sku in skus <==> ItemKey(orderId, sku) in table
    requires forall i, j :: 0 <= i < j < |skus| ==> skus[i] != skus[j]
    ensures multiset(ItemsFor(table, orderId, skus)) == multiset(items)
  {
    var list := ItemsFor(table, orderId, skus);
    forall i | 0 <= i < |skus| ensures list[i] in items && list[i].sku == skus[i] {
      assert skus[i] in skus;
    }
    forall x | x in items ensures x in list {
      var i := IndexOf(items, x);
      assert x.sku in skus;
      var j := IndexOf(skus, x.sku);
      assert list[j] == x;
    }
    SameItemsBySku(items, list);
  }

  /** Two lists with distinct SKUs and the same members are rearrangements of each other. */
  lemma SameItemsBySku(a: seq<Item>, b: seq<Item>)
    requires DistinctSkus(a) && DistinctSkus(b)
    requires forall x :: x in a <==> x in b
    ensures multiset(a) == multiset(b)
  {
    var sku := (item: Item) => item.sku;
    forall x ensures multiset(a)[x] == multiset(b)[x] {
      DistinctOccurOnce(sku, a, x);
      DistinctOccurOnce(sku, b, x);
      assert x in multiset(a) <==> x in a;
      assert x in multiset(b) <==> x in b;
    }
  }

  lemma ReadInOrder(table: map<ItemKey, Item>, orderId: Uuid, items: seq<Item>, skus: seq<string>,
        before: (string, string) -> bool)
    requires HoldsItems(table, orderId, items) && Ascending(before, skus)
    requires forall sku :: sku in skus <==> ItemKey(orderId, sku) in table
    ensures Ascending(before, Skus(ItemsFor(table, orderId, skus)))
  {
    assert forall i :: 0 <= i < |skus| ==> skus[i] in skus && Skus(ItemsFor(table, orderId, skus))[i] == skus[i];
  }

  /**
   * Create, then Get: the order comes back as it was, with its items sorted by SKU, and the payload
   * recomputed from what was read is still valid with the same total.
   */
  lemma CreatedOrderReadsBack(db: Database, order: Order, envelope: Envelope, now: Time, skus: seq<string>,
        before: (string, string) -> bool)
    requires ItemsHaveOrders(db) && order.id !in db.orders && envelope.eventId !in db.outbox
    requires ValidPayload(PayloadOf(order)) && order.updatedAt >= order.createdAt
    requires CreateTx(db, order, envelope, now).Some? ==>
               forall sku :: sku in skus <==> ItemKey(order.id, sku) in CreateTx(db, order, envelope, now).value.items
    requires Ascending(before, skus)
    ensures CreateTx(db, order, envelope, now).Some?
    ensures var after := CreateTx(db, order, envelope, now).value;
            var list := ItemsFor(after.items, order.id, skus);
            && after.orders[order.id] == RowOf(order)
            && multiset(list) == multiset(order.items) && Ascending(before, Skus(list))
            && ValidPayload(PayloadOf(order.(items := list)))
  {
    CreateTxSucceeds(db, order, envelope, now);
    var after := CreateTx(db, order, envelope, now).value;
    ItemsReadBack(after.items, order.id, order.items, skus);
    ReadInOrder(after.items, order.id, order.items, skus, before);
    ValidationIgnoresItemOrder(PayloadCommand(PayloadOf(order)), ItemsFor(after.items, order.id, skus));
  }

  // ---------- Service.Create ----------

  class Service {
    const store: PostgresStore

    constructor (store: PostgresStore)
      ensures this.store == store
    {
      this.store := store;
    }

    /**
     * `Service.Create`: an order is returned only for an acceptable command, together with its row and
     * its one OrderCreated event, whose payload describes it; otherwise nothing is stored. With fresh ids
     * the store never refuses.
     */
    method Create(command: CreateCommand, requestId: string, freshRequestId: string, orderId: Uuid, eventId: Uuid,
          now: Time, databaseNow: Time)
      returns (created: Option<Order>)
      modifies store
      ensures created.None? ==> store.Contents() == old(store.Contents())
      ensures created.Some? ==>
                && Proper(command) && CreateOrder(command, requestId, freshRequestId, orderId, eventId, now).Success?
                && created.value == Order(orderId, command.customerId, command.warehouseId, Pending, "RUB",
                                          created.value.totalAmountMinor, command.items, now, now)
                && created.value.totalAmountMinor == UnitTotal(command.items)
      ensures created.Some? ==>
                WentIn(old(store.Contents()), store.Contents(), created.value,
                       Envelope(eventId, "OrderCreated", orderId, if requestId != "" then requestId else freshRequestId,
                                now, 1, CreatedJson(CreatedPayload(command.customerId, command.warehouseId, "RUB",
                                                                   created.value.totalAmountMinor, command.items))),
                       databaseNow)
      ensures CreateOrder(command, requestId, freshRequestId, orderId, eventId, now).Success?
              && ItemsHaveOrders(old(store.Contents())) && orderId !in old(store.orders)
                 && eventId !in old(store.outbox)
              ==> created.Some?
    {
      var built := CreateOrder(command, requestId, freshRequestId, orderId, eventId, now);
      if built.Failure? {
        return None;
      }
      var (order, envelope) := built.value;
      CreatedEventIsValid(command, requestId, freshRequestId, orderId, eventId, now);
      if ItemsHaveOrders(store.Contents()) && orderId !in store.orders && eventId !in store.outbox {
        CreateTxSucceeds(store.Contents(), order, envelope, databaseNow);
      }
      var ok := store.CreateWithEvent(order, envelope, databaseNow);
      if !ok {
        return None;
      }
      return Some(order);
    }
  }
}
