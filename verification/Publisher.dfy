/** The owner's side of the outbox: publishOne and failPermanently (internal/outbox/publisher.go). */
module Publisher {
  import opened Prelude
  import opened Text
  import opened Events
  import opened Records
  import opened Outbox
  import Backoff

  datatype Topics = Topics(orderCreated: string, orderStatusChanged: string)

  function TopicFor(topics: Topics, eventType: string): Option<string> {
    if eventType == ORDER_CREATED then Some(topics.orderCreated)
    else if eventType == ORDER_STATUS_CHANGED then Some(topics.orderStatusChanged)
    else None
  }

  /** publishOne's checks: a known type, a valid envelope, and columns that match it. */
  predicate Accepts(topics: Topics, claimed: Event) {
    && TopicFor(topics, claimed.eventType).Some?
    && DecodeEnvelope(claimed.payload).Some?
    && var envelope := DecodeEnvelope(claimed.payload).value;
    && envelope.Valid()
    && envelope.eventId == claimed.id && envelope.aggregateId == claimed.aggregateId
       && envelope.eventType == claimed.eventType
  }

  /** What a claimed row must say to be published, column by column. */
  predicate Publishable(claimed: Event) {
    && (claimed.eventType == "OrderCreated" || claimed.eventType == "OrderStatusChanged")
    && claimed.payload.EnvelopeJson?
    && var e := claimed.payload.envelope;
    && e.eventId == claimed.id && e.aggregateId == claimed.aggregateId && e.eventType == claimed.eventType
    && claimed.id != 0 && claimed.aggregateId != 0 && e.occurredAt != 0 && e.version == 1 && e.payload != Text("")
    && TrimSpace(e.requestId) != "" && ByteLength(e.requestId) <= 128
  }

  lemma AcceptsIff(topics: Topics, claimed: Event)
    ensures Accepts(topics, claimed) <==> Publishable(claimed)
  {
    if claimed.payload.EnvelopeJson? {
      ValidIff(claimed.payload.envelope);
    }
  }

  /** The record that Producer.Publish sends for a claimed row. */
  function PublishedRecord(topics: Topics, claimed: Event): Record
    requires Accepts(topics, claimed)
  {
    var envelope := DecodeEnvelope(claimed.payload).value;
    Record(TopicFor(topics, claimed.eventType).value, UuidText(claimed.aggregateId), claimed.payload,
           [Header("event_id", UuidText(envelope.eventId)),
            Header("event_type", Text(envelope.eventType)),
            Header("event_version", Text(Itoa(envelope.version))),
            Header("request_id", Text(envelope.requestId))])
  }

  /** A freshly published record carries no routing header: it is at attempt zero. */
  lemma PublishedIsUnrouted(topics: Topics, claimed: Event)
    requires Accepts(topics, claimed)
    ensures var r := PublishedRecord(topics, claimed);
            && HeaderInt(r, ATTEMPT) == Success(0)
            && HeaderTime(r, NOT_BEFORE) == Success(ZERO_TIME)
            && HeaderString(r, ORIGINAL_TOPIC) == Text("")
            && PlainHeaders(r) == r.headers
  {
    var r := PublishedRecord(topics, claimed);
    var h := r.headers;
    RoutingKeysDiffer();
    assert "event_id"[0] == 'e' && "event_type"[0] == 'e' && "event_version"[0] == 'e' && "request_id"[0] == 'r';
    assert ATTEMPT[0] == 'a' && FAILURE_REASON[0] == 'f' && NOT_BEFORE[0] == 'n' && ORIGINAL_TOPIC[0] == 'o';
    forall i | 0 <= i < |h| ensures !RoutingKey(h[i].key) {
      assert h[i].key[0] == 'e' || h[i].key[0] == 'r';
    }
    FirstHeaderIs(h, ATTEMPT);
    FirstHeaderIs(h, NOT_BEFORE);
    FirstHeaderIs(h, ORIGINAL_TOPIC);
    NothingExcluded(h, ROUTING_KEYS);
  }

  /** Topic, key, value and headers let a reader recover what the row said. */
  lemma PublishedDescribesRow(topics: Topics, claimed: Event)
    requires Accepts(topics, claimed)
    ensures var r, envelope := PublishedRecord(topics, claimed), DecodeEnvelope(claimed.payload).value;
            && r.topic == (if claimed.eventType == "OrderCreated" then topics.orderCreated
                           else topics.orderStatusChanged)
            && r.key == UuidText(claimed.aggregateId) && r.value == claimed.payload == EnvelopeJson(envelope)
            && HeaderString(r, "event_id") == UuidText(claimed.id)
            && HeaderString(r, "event_type") == Text(claimed.eventType)
            && HeaderInt(r, "event_version") == Success(1)
            && HeaderString(r, "request_id") == Text(envelope.requestId)
            && |r.headers| == 4
  {
    var h := PublishedRecord(topics, claimed).headers;
    assert "event_id"[6] == 'i' && "event_type"[6] == 't' && "event_version"[6] == 'v' && "request_id"[6] == 't';
    assert "event_type"[0] == 'e' && "request_id"[0] == 'r' && "event_id"[0] == 'e' && "event_version"[0] == 'e';
    assert DistinctKeys(h);
    assert h[0].key == "event_id" && h[1].key == "event_type" && h[2].key == "event_version"
           && h[3].key == "request_id";
    DistinctKeysLookup(h, "event_id");
    DistinctKeysLookup(h, "event_type");
    DistinctKeysLookup(h, "event_version");
    DistinctKeysLookup(h, "request_id");
    AtoiInvertsItoa(1);
  }

  /** The delay after a failed publish. */
  function PublishBackoff(claimed: Event): int {
    Backoff.ExponentialBackoff(claimed.attempts, SECOND, MINUTE)
  }

  /** A second, two, four, ... but never more than a minute. */
  lemma PublishBackoffIs(claimed: Event)
    ensures PublishBackoff(claimed)
            == Min(1_000_000_000 * Pow2(Min(Max(claimed.attempts - 1, 0), 10)), 60_000_000_000)
    ensures claimed.attempts == 1 ==> PublishBackoff(claimed) == 1_000_000_000
    ensures claimed.attempts == 2 ==> PublishBackoff(claimed) == 2_000_000_000
    ensures claimed.attempts >= 7 ==> PublishBackoff(claimed) == 60_000_000_000
  {
    assert Pow2(6) == 64;
    if claimed.attempts >= 7 {
      Pow2Monotone(6, Min(claimed.attempts - 1, 10));
    }
  }

  /** Everything one call of publishOne meets: the broker's answer, the clock, the database. */
  datatype Env = Env(appended: bool, acknowledged: bool, now: Time, databaseNow: Time, database: Fault)

  // ---------- what becomes of a claimed row ----------

  predicate HeldBy(rows: Table, owner: string, id: Uuid) {
    id in rows && rows[id].lockedBy == Some(owner) && rows[id].publishedAt == None
  }

  /** The row that an owner held is published, put back for later, or failed for good. */
  ghost predicate Treated(before: Table, after: Table, claimed: Event, env: Env)
    requires claimed.id in before
  {
    var row := before[claimed.id].(lockedBy := None, lockedUntil := None);
    if !Publishable(claimed) then after == before[claimed.id := row.(status := RowFailed)]
    else if env.acknowledged
      then after == before[claimed.id := row.(status := RowPublished, publishedAt := Some(env.databaseNow))]
    else
      var seconds := Pow2(Min(Max(claimed.attempts - 1, 0), 10));
      var due := env.now + Min(seconds * 1_000_000_000, 60_000_000_000);
      && after == before[claimed.id := row.(status := RowPending, nextAttemptAt := due)]
      && NotBefore(after, claimed.id, due)
  }

  /** How publishOne settles the row in the end. */
  function SettlementOf(topics: Topics, claimed: Event, env: Env): Settlement {
    if !Accepts(topics, claimed) then Reject
    else if env.acknowledged then Publish(env.databaseNow)
    else ReleaseUntil(env.now + PublishBackoff(claimed))
  }

  lemma SettledIsTreated(topics: Topics, owner: string, rows: Table, claimed: Event, env: Env)
    ensures var after := Settle(rows, claimed.id, owner, SettlementOf(topics, claimed, env));
            if HeldBy(rows, owner, claimed.id) then Treated(rows, after, claimed, env) else after == rows
  {
    AcceptsIff(topics, claimed);
    if HeldBy(rows, owner, claimed.id) && Accepts(topics, claimed) && !env.acknowledged {
      PublishBackoffIs(claimed);
      ReleasedIsNotBefore(Settle(rows, claimed.id, owner, SettlementOf(topics, claimed, env)), claimed.id,
                          env.now + PublishBackoff(claimed));
    }
  }

  class OutboxPublisher {
    const topics: Topics
    const owner: string
    const repository: PostgresRepository
    /** What Kafka has been given, in order. */
    var produced: seq<Record>

    constructor (topics: Topics, owner: string, repository: PostgresRepository)
      ensures this.topics == topics && this.owner == owner && this.repository == repository && produced == []
    {
      this.topics, this.owner, this.repository := topics, owner, repository;
      produced := [];
    }

    /**
     * A row is only ever marked PUBLISHED after its record is in the log, only released after a failed
     * publish, only failed when its checks fail; a nil error means published and marked.
     */
    method PublishOne(claimed: Event, env: Env) returns (ok: bool)
      requires env.acknowledged ==> env.appended
      modifies this, repository
      ensures produced == old(produced) + if Accepts(topics, claimed) && env.appended
                                          then [PublishedRecord(topics, claimed)] else []
      ensures repository.rows == if env.database == Refused then old(repository.rows)
                                 else Settle(old(repository.rows), claimed.id, owner,
                                             SettlementOf(topics, claimed, env))
      ensures ok <==> Publishable(claimed) && env.acknowledged && env.database == NoFault
                      && HeldBy(old(repository.rows), owner, claimed.id)
      ensures |produced| == |old(produced)| + (if Publishable(claimed) && env.appended then 1 else 0)
      ensures env.database != Refused && HeldBy(old(repository.rows), owner, claimed.id) ==>
                Treated(old(repository.rows), repository.rows, claimed, env)
      ensures env.database == Refused || !HeldBy(old(repository.rows), owner, claimed.id) ==>
                repository.rows == old(repository.rows)
    {
      AcceptsIff(topics, claimed);
      SettledIsTreated(topics, owner, repository.rows, claimed, env);
      var topic := TopicFor(topics, claimed.eventType);
      if topic.None? {
        ok := FailPermanently(claimed, env);
        return ok;
      }
      var decoded := DecodeEnvelope(claimed.payload);
      if decoded.None? || !decoded.value.Valid() {
        ok := FailPermanently(claimed, env);
        return ok;
      }
      var envelope := decoded.value;
      if envelope.eventId != claimed.id || envelope.aggregateId != claimed.aggregateId
          || envelope.eventType != claimed.eventType {
        ok := FailPermanently(claimed, env);
        return ok;
      }
      if env.appended {
        produced := produced + [PublishedRecord(topics, claimed)];
      }
      if !env.acknowledged {
        var delay := PublishBackoff(claimed);
        if env.database != Refused {
          var released := repository.Release(claimed.id, owner, env.now + delay);
        }
        return false;
      }
      if env.database == Refused {
        return false;
      }
      var marked := repository.MarkPublished(claimed.id, owner, env.databaseNow);
      return marked && env.database == NoFault;
    }

    /** publishOne's result for an event whose row nobody else touches. */
    predicate Succeeds(claimed: Event, env: Env) {
      Accepts(topics, claimed) && env.acknowledged && env.database == NoFault
    }

    /** A row is PUBLISHED if publishOne succeeded, and only if its record is in the log. */
    ghost predicate ItemDone(rows: Table, log: seq<Record>, claimed: Event, env: Env) {
      && claimed.id in rows
      && (Succeeds(claimed, env) ==> rows[claimed.id].status == RowPublished)
      && (rows[claimed.id].status == RowPublished ==>
          Accepts(topics, claimed) && PublishedRecord(topics, claimed) in log)
    }

    predicate IsPublished(rows: Table, id: Uuid) {
      id in rows && rows[id].status == RowPublished
    }

    /** publishOne on a row that this owner holds. */
    method PublishHeld(claimed: Event, env: Env) returns (ok: bool)
      requires env.acknowledged ==> env.appended
      requires HeldHere(repository.rows, claimed.id)
      modifies this, repository
      ensures repository.rows.Keys == old(repository.rows.Keys) && old(produced) <= produced
      ensures forall id :: id in old(repository.rows) && id != claimed.id ==>
                repository.rows[id] == old(repository.rows[id])
      ensures ok <==> Succeeds(claimed, env)
      ensures ItemDone(repository.rows, produced, claimed, env)
    {
      ok := PublishOne(claimed, env);
    }

    predicate HeldHere(rows: Table, id: Uuid) {
      HeldBy(rows, owner, id) && rows[id].status == RowProcessing
    }

    /** The first `k` items are done. */
    ghost predicate FirstDone(rows: Table, log: seq<Record>, events: seq<Event>, envs: seq<Env>, k: nat)
      requires k <= |events| == |envs|
    {
      k > 0 ==> FirstDone(rows, log, events, envs, k - 1) && ItemDone(rows, log, events[k - 1], envs[k - 1])
    }

    lemma {:induction false} FirstDoneStable(rows: Table, rows': Table, log: seq<Record>, log': seq<Record>,
          events: seq<Event>, envs: seq<Env>, k: nat)
      requires k <= |events| == |envs| && FirstDone(rows, log, events, envs, k) && log <= log'
      requires forall j :: 0 <= j < k && events[j].id in rows ==>
                 events[j].id in rows' && rows'[events[j].id] == rows[events[j].id]
      ensures FirstDone(rows', log', events, envs, k)
    {
      if k > 0 {
        FirstDoneStable(rows, rows', log, log', events, envs, k - 1);
      }
    }

    lemma {:induction false} FirstDoneEach(rows: Table, log: seq<Record>, events: seq<Event>, envs: seq<Env>, k: nat,
          j: nat)
      requires j < k <= |events| == |envs| && FirstDone(rows, log, events, envs, k)
      ensures ItemDone(rows, log, events[j], envs[j])
    {
      if j < k - 1 {
        FirstDoneEach(rows, log, events, envs, k - 1, j);
      }
    }

    /**
     * publishOne on every claimed event, in the order in which the pool hands them out. A nil error
     * means that every row is PUBLISHED; whatever the errors, only these rows change, and one becomes
     * PUBLISHED only if its record is in the log.
     */
    method PublishAll(events: seq<Event>, envs: seq<Env>) returns (ok: bool)
      requires |envs| == |events| && forall k :: 0 <= k < |envs| ==> (envs[k].acknowledged ==> envs[k].appended)
      requires forall i, j :: 0 <= i < j < |events| ==> events[i].id != events[j].id
      requires forall k :: 0 <= k < |events| ==> HeldHere(repository.rows, events[k].id)
      modifies this, repository
      ensures repository.rows.Keys == old(repository.rows.Keys) && old(produced) <= produced
      ensures forall id :: id in old(repository.rows) && (forall k :: 0 <= k < |events| ==> events[k].id != id)
                ==> repository.rows[id] == old(repository.rows[id])
      ensures ok <==> forall k :: 0 <= k < |events| ==> Succeeds(events[k], envs[k])
      ensures forall k :: 0 <= k < |events| ==> ItemDone(repository.rows, produced, events[k], envs[k])
      ensures ok ==> forall k :: 0 <= k < |events| ==> IsPublished(repository.rows, events[k].id)
    {
      ok := true;
      for k := 0 to |events|
        invariant repository.rows.Keys == old(repository.rows.Keys) && old(produced) <= produced
        invariant forall id :: id in old(repository.rows) && (forall j :: 0 <= j < |events| ==> events[j].id != id)
                    ==> repository.rows[id] == old(repository.rows[id])
        invariant ok <==> forall j :: 0 <= j < k ==> Succeeds(events[j], envs[j])
        invariant FirstDone(repository.rows, produced, events, envs, k)
        invariant forall j :: k <= j < |events| ==> HeldHere(repository.rows, events[j].id)
      {
        ghost var rows, log := repository.rows, produced;
        var published := PublishHeld(events[k], envs[k]);
        FirstDoneStable(rows, repository.rows, log, produced, events, envs, k);
        ok := ok && published;
      }
      forall k | 0 <= k < |events| ensures ItemDone(repository.rows, produced, events[k], envs[k]) {
        FirstDoneEach(repository.rows, produced, events, envs, |events|, k);
      }
    }

    /** Claim a batch and publish it; rows that were not claimed stay as they are. */
    method PublishBatch(limit: nat, lease: int64, now: Time, chosen: seq<Uuid>, ghost skipped: set<Uuid>,
          envs: seq<Env>)
      returns (events: seq<Event>, ok: bool)
      requires ValidChoice(repository.rows, chosen, skipped, limit, now)
      requires forall id :: id in chosen ==> repository.rows[id].id == id && repository.rows[id].publishedAt == None
      requires |envs| == |chosen| && forall k :: 0 <= k < |envs| ==> (envs[k].acknowledged ==> envs[k].appended)
      modifies this, repository
      ensures repository.rows.Keys == old(repository.rows.Keys) && old(produced) <= produced
      ensures forall id :: id in old(repository.rows) && id !in chosen ==>
                repository.rows[id] == old(repository.rows[id])
      ensures |events| == |chosen|
      ensures forall k :: 0 <= k < |chosen| ==>
                events[k] == EventOf(ClaimedRow(old(repository.rows)[chosen[k]], owner, now, lease))
      ensures ok <==> forall k :: 0 <= k < |chosen| ==> Succeeds(events[k], envs[k])
      ensures forall k :: 0 <= k < |chosen| ==> ItemDone(repository.rows, produced, events[k], envs[k])
      ensures ok ==> forall k :: 0 <= k < |events| ==> IsPublished(repository.rows, events[k].id)
    {
      events := repository.Claim(owner, limit, lease, now, chosen, skipped);
      assert forall k :: 0 <= k < |chosen| ==>
               chosen[k] in chosen && events[k].id == chosen[k] && HeldHere(repository.rows, chosen[k]);
      ok := PublishAll(events, envs);
    }

    /** The row is set to FAILED if the statement gets through; the error is never nil. */
    method FailPermanently(claimed: Event, env: Env) returns (ok: bool)
      modifies repository
      ensures !ok
      ensures repository.rows == (if env.database == Refused then old(repository.rows)
                                  else Settle(old(repository.rows), claimed.id, owner, Reject))
    {
      if env.database != Refused {
        var failed := repository.MarkFailed(claimed.id, owner);
      }
      return false;
    }
  }
}
