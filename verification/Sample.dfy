/** One small order and its event, for the runs that show a bound or a failure. */
module Sample {
  import opened Prelude
  import opened Orders
  import opened Events
  import opened Records
  import Consumer

  /** A clock reading that is further from Go's zero time than any int64 duration, as today's readings are. */
  const NOW: nat := 0x8000_0000_0000_0000

  const COMMAND: CreateCommand := CreateCommand(1, 2, [Item("a", 2, 3)])
  const PAYLOAD: CreatedPayload := CreatedPayload(1, 2, CURRENCY_RUB, 6, [Item("a", 2, 3)])

  function OrderWith(id: Uuid): Order {
    Order(id, 1, 2, Pending, CURRENCY_RUB, 6, [Item("a", 2, 3)], NOW, NOW)
  }

  function EnvelopeWith(orderId: Uuid, eventId: Uuid): Envelope {
    Envelope(eventId, ORDER_CREATED, orderId, "r", NOW, 1, CreatedJson(PAYLOAD))
  }

  lemma CreateBuilds(orderId: Uuid, eventId: Uuid)
    requires orderId != NIL_UUID && eventId != NIL_UUID
    ensures CreateOrder(COMMAND, "r", "", orderId, eventId, NOW)
            == Success((OrderWith(orderId), EnvelopeWith(orderId, eventId)))
    ensures ValidPayload(PAYLOAD) && EnvelopeWith(orderId, eventId).Valid()
  {
    var items := COMMAND.items;
    assert items[..0] == [];
    assert Sum(items) == Sum(items[..0]) + LineTotal(items[0]) == 6;
    assert "a"[0] == 'a' && "r"[0] == 'r';
    assert ValidItem(items[0]);
  }

  /** The event of order 1 in a record without headers. */
  function EventRecord(): Record {
    Record("", UuidText(1), EnvelopeJson(EnvelopeWith(1, 2)), [])
  }

  lemma EventIsGenuine()
    ensures Consumer.Decode(EventRecord()) == Consumer.Genuine(EnvelopeWith(1, 2))
    ensures Consumer.PayloadOk(EnvelopeWith(1, 2))
  {
    CreateBuilds(1, 2);
  }
}
