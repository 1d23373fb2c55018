/**
 * Event envelopes (internal/event/envelope.go) and the byte strings that travel through Postgres
 * and Kafka. JSON, UUID and RFC 3339 texts are modelled as injective encodings: one constructor of
 * `Bytes` per encoding, so that decoding what was encoded gives the value back.
 */
module Events {
  import opened Prelude
  import opened Text
  import opened Orders

  datatype Bytes =
    | Text(text: string)
    | UuidText(id: Uuid)
    | TimeText(instant: Time)
    | CreatedJson(created: CreatedPayload)
    | StatusJson(changed: StatusChangedPayload)
    | EnvelopeJson(envelope: Envelope)

  datatype Envelope = Envelope(
    eventId: Uuid, eventType: string, aggregateId: Uuid, requestId: string,
    occurredAt: Time, version: int, payload: Bytes)
  {
    /** `Envelope.Validate`, one conjunct per case of its switch. */
    predicate Valid() {
      && eventId != NIL_UUID
      && aggregateId != NIL_UUID
      && eventType != ""
      && !Blank(requestId) && ByteLength(requestId) <= MAX_REQUEST_ID_BYTES
      && occurredAt != ZERO_TIME
      && version == 1
      && payload != Text("")
    }
  }

  const ORDER_CREATED: string := "OrderCreated"
  const ORDER_STATUS_CHANGED: string := "OrderStatusChanged"
  const MAX_REQUEST_ID_BYTES: nat := 128

  datatype EventError = ErrInvalidEnvelope

  /** `event.New`; the fresh id and the clock reading are inputs. */
  function NewEnvelope(eventType: string, aggregateId: Uuid, requestId: string, payload: Bytes,
                       eventId: Uuid, now: Time): Result<Envelope, EventError> {
    var envelope := Envelope(eventId, eventType, aggregateId, requestId, now, 1, payload);
    if envelope.Valid() then Success(envelope) else Failure(ErrInvalidEnvelope)
  }

  /** What a reader may rely on in an envelope that has been checked, field by field. */
  lemma ValidIff(e: Envelope)
    ensures e.Valid() <==> && e.eventId != 0 && e.aggregateId != 0 && |e.eventType| > 0 && e.occurredAt != 0
                           && TrimSpace(e.requestId) != "" && ByteLength(e.requestId) <= 128
                           && e.version == 1 && e.payload != Text("")
  {
    BlankIff(e.requestId);
  }

  /** The new envelope, field by field. */
  lemma NewEnvelopeIs(eventType: string, aggregateId: Uuid, requestId: string, payload: Bytes, eventId: Uuid, now: Time)
    ensures NewEnvelope(eventType, aggregateId, requestId, payload, eventId, now).Success?
            <==> && eventId != 0 && aggregateId != 0 && |eventType| > 0 && now != 0
                 && TrimSpace(requestId) != "" && ByteLength(requestId) <= 128 && payload != Text("")
    ensures NewEnvelope(eventType, aggregateId, requestId, payload, eventId, now).Success? ==>
              var e := NewEnvelope(eventType, aggregateId, requestId, payload, eventId, now).value;
              && e.eventId == eventId && e.eventType == eventType && e.aggregateId == aggregateId
              && e.requestId == requestId && e.occurredAt == now && e.version == 1 && e.payload == payload
  {
    BlankIff(requestId);
  }

  /** `json.Unmarshal` into an `Envelope`. */
  function DecodeEnvelope(bytes: Bytes): Option<Envelope> {
    if bytes.EnvelopeJson? then Some(bytes.envelope) else None
  }

  /** `json.Unmarshal` into a `CreatedPayload`. */
  function DecodeCreated(bytes: Bytes): Option<CreatedPayload> {
    if bytes.CreatedJson? then Some(bytes.created) else None
  }

  /** The payload that `Service.Create` puts into an order's OrderCreated event. */
  function PayloadOf(order: Order): CreatedPayload {
    CreatedPayload(order.customerId, order.warehouseId, order.currency, order.totalAmountMinor, order.items)
  }

  /** What `uuid.NewString` promises about its result: 36 characters, not all of them spaces. */
  predicate UuidString(s: string) {
    !Blank(s) && ByteLength(s) == 36
  }

  /** `Service.Create` up to the database call: the order and its matching envelope. */
  function CreateOrder(command: CreateCommand, requestId: string, freshRequestId: string,
                       orderId: Uuid, eventId: Uuid, now: Time): Result<(Order, Envelope), EventError> {
    match Orders.New(command, orderId, now)
    case Failure(_) => Failure(ErrInvalidEnvelope)
    case Success(order) =>
      var id := if requestId == "" then freshRequestId else requestId;
      match NewEnvelope(ORDER_CREATED, order.id, id, CreatedJson(PayloadOf(order)), eventId, now)
      case Failure(e) => Failure(e)
      case Success(envelope) => Success((order, envelope))
  }

  /**
   * An event built by `Create` satisfies, by construction, every structural check that later
   * stages make on it: its envelope is valid, is about the order just built, and decodes to a
   * payload whose recomputed total is the order's total.
   */
  lemma CreatedEventIsValid(command: CreateCommand, requestId: string, freshRequestId: string,
                            orderId: Uuid, eventId: Uuid, now: Time)
    requires CreateOrder(command, requestId, freshRequestId, orderId, eventId, now).Success?
    ensures var (order, envelope) := CreateOrder(command, requestId, freshRequestId, orderId, eventId, now).value;
            && Proper(command)
            && order.id == orderId && order.customerId == command.customerId && order.warehouseId == command.warehouseId
            && order.status == Pending && order.currency == "RUB" && order.items == command.items
            && order.totalAmountMinor == UnitTotal(command.items) && order.createdAt == now && order.updatedAt == now
            && envelope.Valid() && envelope.eventId == eventId
            && envelope.eventType == "OrderCreated" && envelope.aggregateId == orderId && envelope.occurredAt == now
            && envelope.requestId == (if requestId != "" then requestId else freshRequestId)
            && DecodeEnvelope(EnvelopeJson(envelope)) == Some(envelope)
            && DecodeCreated(envelope.payload) == Some(PayloadOf(order))
            && envelope.payload == CreatedJson(CreatedPayload(command.customerId, command.warehouseId, "RUB",
                                                              order.totalAmountMinor, command.items))
            && ValidPayload(PayloadOf(order))
  {
    NewOrderIs(command, orderId, now);
    assert PayloadCommand(PayloadOf(CreateOrder(command, requestId, freshRequestId, orderId, eventId, now).value.0))
           == command;
  }

  /**
   * `Create` succeeds exactly on an acceptable command with a usable request id (an absent one is
   * replaced), given the fresh, non-nil ids and the non-zero clock that Go supplies.
   */
  lemma CreateSucceedsIff(command: CreateCommand, requestId: string, freshRequestId: string,
                          orderId: Uuid, eventId: Uuid, now: Time)
    requires UuidString(freshRequestId)
    requires orderId != NIL_UUID && eventId != NIL_UUID && now != ZERO_TIME
    ensures CreateOrder(command, requestId, freshRequestId, orderId, eventId, now).Success?
            <==> Proper(command)
                 && (requestId == "" || (TrimSpace(requestId) != "" && ByteLength(requestId) <= 128))
  {
    AcceptableIff(command);
    BlankIff(requestId);
    assert ORDER_CREATED != "";
    if Acceptable(command) {
      var order := Orders.New(command, orderId, now).value;
      assert CreatedJson(PayloadOf(order)) != Text("");
    }
  }
}
