/**
 * The outbox table (internal/outbox/postgres.go): one function per SQL statement on rows, and the
 * repository class whose methods execute them.
 */
module Outbox {
  import opened Prelude
  import opened Events

  datatype RowStatus = RowPending | RowProcessing | RowPublished | RowFailed

  /** A row of outbox_events; `last_error` is written but never read and is not kept. */
  datatype Row = Row(
    id: Uuid, aggregateId: Uuid, eventType: string, payload: Bytes, status: RowStatus, createdAt: Time,
    publishedAt: Option<Time>, attempts: nat, nextAttemptAt: Time, lockedBy: Option<string>, lockedUntil: Option<Time>)

  type Table = map<Uuid, Row>

  /** The columns that Claim returns. */
  datatype Event = Event(id: Uuid, aggregateId: Uuid, eventType: string, payload: Bytes, attempts: nat, createdAt: Time)

  function EventOf(row: Row): Event {
    Event(row.id, row.aggregateId, row.eventType, row.payload, row.attempts, row.createdAt)
  }

  /** The row that an INSERT of an envelope creates, with the column defaults of the schema. */
  function NewRow(envelope: Envelope, now: Time): Row {
    Row(envelope.eventId, envelope.aggregateId, envelope.eventType, EnvelopeJson(envelope),
        RowPending, envelope.occurredAt, None, 0, now, None, None)
  }

  // ---------- Claim ----------

  /** The WHERE clause of the candidates. */
  predicate Available(row: Row, now: Time) {
    && (row.status == RowPending || row.status == RowProcessing)
    && row.nextAttemptAt <= now
    && (row.lockedUntil == None || row.lockedUntil.value < now)
  }

  /** `lease.Milliseconds()` drops what is below a millisecond. */
  function LeaseLength(lease: int64): Time {
    var nanos: int := lease;
    if nanos >= 0 then nanos / MILLISECOND * MILLISECOND else -(-nanos / MILLISECOND * MILLISECOND)
  }

  /** Whole milliseconds, as many as fit in the lease. */
  lemma LeaseLengthIs(lease: int64)
    ensures LeaseLength(lease) % 1_000_000 == 0
    ensures if lease >= 0 then lease - 1_000_000 < LeaseLength(lease) <= lease
            else lease <= LeaseLength(lease) < lease + 1_000_000
  {
    var n: int := lease;
    assert n >= 0 ==> n == n / MILLISECOND * MILLISECOND + n % MILLISECOND;
    assert n < 0 ==> -n == -n / MILLISECOND * MILLISECOND + (-n) % MILLISECOND;
  }

  function ClaimedRow(row: Row, owner: string, now: Time, lease: int64): Row {
    row.(status := RowProcessing, lockedBy := Some(owner), lockedUntil := Some(now + LeaseLength(lease)),
         attempts := row.attempts + 1)
  }

  /**
   * What Postgres promises about the candidates: available rows that no other transaction has locked
   * (`skipped`), at most `limit` of them, none left out below the limit, and the oldest first.
   */
  predicate ValidChoice(rows: Table, chosen: seq<Uuid>, skipped: set<Uuid>, limit: nat, now: Time) {
    && |chosen| <= limit
    && (forall i, j :: 0 <= i < j < |chosen| ==> chosen[i] != chosen[j])
    && (forall id :: id in chosen ==> id in rows && id !in skipped && Available(rows[id], now))
    && (forall id :: id in rows && id !in skipped && id !in chosen && Available(rows[id], now) ==>
          |chosen| == limit && forall c :: c in chosen ==> rows[c].createdAt <= rows[id].createdAt)
  }

  function ClaimRows(rows: Table, chosen: seq<Uuid>, owner: string, now: Time, lease: int64): Table {
    map id | id in rows :: if id in chosen then ClaimedRow(rows[id], owner, now, lease) else rows[id]
  }

  /** The chosen rows are locked for whole milliseconds, with one attempt more; nothing else changes. */
  ghost predicate LockedFor(before: Table, after: Table, chosen: seq<Uuid>, owner: string, now: Time, lease: int64) {
    && after.Keys == before.Keys
    && (forall id :: id in before && id !in chosen ==> after[id] == before[id])
    && forall id :: id in chosen ==>
         && id in before && after[id].lockedUntil.Some?
         && after[id] == before[id].(status := RowProcessing, lockedBy := Some(owner),
                                     lockedUntil := after[id].lockedUntil, attempts := before[id].attempts + 1)
         && (after[id].lockedUntil.value - now) % 1_000_000 == 0
         && (lease >= 0 ==> now + lease - 1_000_000 < after[id].lockedUntil.value <= now + lease)
  }

  /** Neither settled, nor to be left alone until later, nor under a lease. */
  predicate IsDue(row: Row, now: Time) {
    && !row.status.RowPublished? && !row.status.RowFailed?
    && !(now < row.nextAttemptAt) && !(row.lockedUntil.Some? && now <= row.lockedUntil.value)
  }

  /** The choice is of due rows, as many as the limit allows, and of the oldest that nobody else is updating. */
  ghost predicate OldestDue(rows: Table, chosen: seq<Uuid>, skipped: set<Uuid>, limit: nat, now: Time) {
    && (forall id :: id in chosen ==> id in rows && IsDue(rows[id], now))
    && forall id :: id in rows && id !in chosen && id !in skipped && IsDue(rows[id], now) ==>
         |chosen| >= limit && forall c :: c in chosen ==> rows[c].createdAt <= rows[id].createdAt
  }

  /** Which choices the statement may make: of those, without repetition, any. */
  lemma ValidChoiceIff(rows: Table, chosen: seq<Uuid>, skipped: set<Uuid>, limit: nat, now: Time)
    ensures ValidChoice(rows, chosen, skipped, limit, now)
            <==> && |chosen| <= limit && OldestDue(rows, chosen, skipped, limit, now)
                 && (forall i, j :: 0 <= i < j < |chosen| ==> chosen[i] != chosen[j])
                 && (forall id :: id in chosen ==> id !in skipped)
  {
  }

  lemma ClaimLeases(rows: Table, chosen: seq<Uuid>, skipped: set<Uuid>, owner: string, limit: nat, now: Time,
        lease: int64)
    requires ValidChoice(rows, chosen, skipped, limit, now)
    ensures LockedFor(rows, ClaimRows(rows, chosen, owner, now, lease), chosen, owner, now, lease)
    ensures OldestDue(rows, chosen, skipped, limit, now)
  {
    LeaseLengthIs(lease);
  }

  // ---------- MarkPublished, Release, MarkFailed ----------

  datatype Settlement = Publish(at: Time) | ReleaseUntil(next: Time) | Reject

  /** The guard that the three UPDATE statements share. */
  predicate Holds(row: Row, owner: string) {
    row.lockedBy == Some(owner) && row.publishedAt == None
  }

  function SettledRow(row: Row, how: Settlement): Row {
    match how
    case Publish(at) => row.(status := RowPublished, publishedAt := Some(at), lockedBy := None, lockedUntil := None)
    case ReleaseUntil(next) => row.(status := RowPending, lockedBy := None, lockedUntil := None, nextAttemptAt := next)
    case Reject => row.(status := RowFailed, lockedBy := None, lockedUntil := None)
  }

  function Settle(rows: Table, id: Uuid, owner: string, how: Settlement): Table {
    if id in rows && Holds(rows[id], owner) then rows[id := SettledRow(rows[id], how)] else rows
  }

  /** No claim can take the row before `due`, and one can at `due`. */
  ghost predicate NotBefore(rows: Table, id: Uuid, due: Time) {
    && (forall chosen, skipped, limit, now :: ValidChoice(rows, chosen, skipped, limit, now) && id in chosen ==>
          now >= due)
    && ValidChoice(rows, [id], rows.Keys - {id}, 1, due)
  }

  lemma ReleasedIsNotBefore(rows: Table, id: Uuid, due: Time)
    requires id in rows && rows[id].status == RowPending
    requires rows[id].lockedUntil == None && rows[id].nextAttemptAt == due
    ensures NotBefore(rows, id, due)
  {
  }

  // ---------- the repository ----------

  class PostgresRepository {
    var rows: Table

    constructor ()
      ensures rows == map[]
    {
      rows := map[];
    }

    /**
     * `chosen` is the database's choice among the candidates, in the order of RETURNING. What is chosen
     * was due and not locked, at most `limit` rows and the oldest of those that nobody else is updating;
     * it is locked for the whole milliseconds of the lease, with one attempt more. Nothing else changes.
     */
    method Claim(owner: string, limit: nat, lease: int64, now: Time, chosen: seq<Uuid>, ghost skipped: set<Uuid>)
      returns (events: seq<Event>)
      requires ValidChoice(rows, chosen, skipped, limit, now)
      modifies this
      ensures rows == ClaimRows(old(rows), chosen, owner, now, lease)
                   == Apply(old(rows), Op.Claim(owner, chosen, skipped, limit, now, lease))
      ensures |events| == |chosen| <= limit
      ensures forall k :: 0 <= k < |chosen| ==> events[k] == EventOf(rows[chosen[k]])
      ensures forall k :: 0 <= k < |chosen| ==>
                var row := old(rows)[chosen[k]];
                events[k] == Event(row.id, row.aggregateId, row.eventType, row.payload, row.attempts + 1, row.createdAt)
      ensures LockedFor(old(rows), rows, chosen, owner, now, lease)
      ensures OldestDue(old(rows), chosen, skipped, limit, now)
    {
      ClaimLeases(rows, chosen, skipped, owner, limit, now, lease);
      events := [];
      for k := 0 to |chosen|
        invariant rows == ClaimRows(old(rows), chosen[..k], owner, now, lease)
        invariant |events| == k
        invariant forall j :: 0 <= j < k ==> events[j] == EventOf(ClaimedRow(old(rows)[chosen[j]], owner, now, lease))
      {
        var id := chosen[k];
        assert id !in chosen[..k];
        rows := rows[id := ClaimedRow(rows[id], owner, now, lease)];
        events := events + [EventOf(rows[id])];
        assert chosen[..k + 1] == chosen[..k] + [id];
      }
      assert chosen[..|chosen|] == chosen;
    }

    method MarkPublished(id: Uuid, owner: string, now: Time) returns (ok: bool)
      modifies this
      ensures rows == Settle(old(rows), id, owner, Publish(now)) == Apply(old(rows), SettleOp(owner, id, Publish(now)))
      ensures ok <==> id in old(rows) && old(rows)[id].lockedBy == Some(owner) && old(rows)[id].publishedAt == None
      ensures !ok ==> rows == old(rows)
      ensures ok ==> rows == old(rows)[id := old(rows)[id].(status := RowPublished, publishedAt := Some(now),
                                                            lockedBy := None, lockedUntil := None)]
    {
      ok := id in rows && rows[id].lockedBy == Some(owner) && rows[id].publishedAt == None;
      if ok {
        rows := rows[id := rows[id].(status := RowPublished, publishedAt := Some(now), lockedBy := None,
                                     lockedUntil := None)];
      }
    }

    method Release(id: Uuid, owner: string, nextAttempt: Time) returns (ok: bool)
      modifies this
      ensures rows == Settle(old(rows), id, owner, ReleaseUntil(nextAttempt))
                   == Apply(old(rows), SettleOp(owner, id, ReleaseUntil(nextAttempt)))
      ensures ok <==> id in old(rows) && old(rows)[id].lockedBy == Some(owner) && old(rows)[id].publishedAt == None
      ensures !ok ==> rows == old(rows)
      ensures ok ==> rows == old(rows)[id := old(rows)[id].(status := RowPending, lockedBy := None,
                                                            lockedUntil := None, nextAttemptAt := nextAttempt)]
      ensures ok ==> NotBefore(rows, id, nextAttempt)
    {
      ok := id in rows && rows[id].lockedBy == Some(owner) && rows[id].publishedAt == None;
      if ok {
        rows := rows[id := rows[id].(status := RowPending, lockedBy := None, lockedUntil := None,
                                     nextAttemptAt := nextAttempt)];
        ReleasedIsNotBefore(rows, id, nextAttempt);
      }
    }

    method MarkFailed(id: Uuid, owner: string) returns (ok: bool)
      modifies this
      ensures rows == Settle(old(rows), id, owner, Reject) == Apply(old(rows), SettleOp(owner, id, Reject))
      ensures ok <==> id in old(rows) && old(rows)[id].lockedBy == Some(owner) && old(rows)[id].publishedAt == None
      ensures !ok ==> rows == old(rows)
      ensures ok ==> rows == old(rows)[id := old(rows)[id].(status := RowFailed, lockedBy := None, lockedUntil := None)]
    {
      ok := id in rows && rows[id].lockedBy == Some(owner) && rows[id].publishedAt == None;
      if ok {
        rows := rows[id := rows[id].(status := RowFailed, lockedBy := None, lockedUntil := None)];
      }
    }
  }

  // ---------- every run of any mix of owners ----------

  datatype Op =
    | Insert(envelope: Envelope, at: Time)
    | Claim(owner: string, chosen: seq<Uuid>, skipped: set<Uuid>, limit: nat, at: Time, lease: int64)
    | SettleOp(owner: string, id: Uuid, how: Settlement)

  predicate Enabled(rows: Table, op: Op) {
    match op
    case Insert(envelope, _) => envelope.eventId !in rows
    case Claim(_, chosen, skipped, limit, at, _) => ValidChoice(rows, chosen, skipped, limit, at)
    case SettleOp(_, _, _) => true
  }

  function Apply(rows: Table, op: Op): Table {
    if !Enabled(rows, op) then rows
    else
      match op
      case Insert(envelope, at) => rows[envelope.eventId := NewRow(envelope, at)]
      case Claim(owner, chosen, _, _, at, lease) => ClaimRows(rows, chosen, owner, at, lease)
      case SettleOp(owner, id, how) => Settle(rows, id, owner, how)
  }

  function ApplyAll(rows: Table, ops: seq<Op>): Table {
    if ops == [] then rows else Apply(ApplyAll(rows, ops[..|ops| - 1]), ops[|ops| - 1])
  }

  /** The CHECK constraints of the schema, and a lock exactly while processing. */
  predicate RowOk(row: Row) {
    && (row.lockedBy.Some? <==> row.lockedUntil.Some?)
    && (row.lockedBy.Some? <==> row.status == RowProcessing)
    && (row.publishedAt.Some? <==> row.status == RowPublished)
  }

  predicate TableOk(rows: Table) {
    forall id :: id in rows ==> rows[id].id == id && RowOk(rows[id])
  }

  /** How many claims in this run took the row. */
  function ClaimCount(ops: seq<Op>, id: Uuid): nat {
    if ops == [] then 0
    else
      var last := ops[|ops| - 1];
      ClaimCount(ops[..|ops| - 1], id)
      + if last.Claim? && Enabled(ApplyAll(map[], ops[..|ops| - 1]), last) && id in last.chosen then 1 else 0
  }

  lemma ApplyKeepsTableOk(rows: Table, op: Op)
    requires TableOk(rows)
    ensures TableOk(Apply(rows, op))
  {
  }

  /**
   * Row machine. In every state that any mix of owners can produce: locked_by, locked_until and
   * PROCESSING go together, PUBLISHED goes with published_at, and attempts counts the claims.
   */
  lemma {:induction false} RowMachine(ops: seq<Op>)
    ensures var rows := ApplyAll(map[], ops);
            && TableOk(rows)
            && (forall id :: id in rows ==>
                  && (rows[id].lockedBy.Some? <==> rows[id].status == RowProcessing)
                  && (rows[id].lockedUntil.Some? <==> rows[id].status == RowProcessing)
                  && (rows[id].publishedAt.Some? <==> rows[id].status == RowPublished))
            && (forall id :: id in rows ==> rows[id].id == id && rows[id].attempts == ClaimCount(ops, id))
            && (forall id :: id !in rows ==> ClaimCount(ops, id) == 0)
  {
    if ops != [] {
      var before := ops[..|ops| - 1];
      RowMachine(before);
      ApplyKeepsTableOk(ApplyAll(map[], before), ops[|ops| - 1]);
    }
  }

  /** PUBLISHED and FAILED are terminal, and a row's identity and payload never change. */
  lemma {:induction false} TerminalRowsStay(rows: Table, ops: seq<Op>, id: Uuid)
    requires TableOk(rows) && id in rows
    ensures var after := ApplyAll(rows, ops);
            && id in after && TableOk(after)
            && EventOf(after[id]).(attempts := 0) == EventOf(rows[id]).(attempts := 0)
            && (rows[id].status == RowPublished || rows[id].status == RowFailed ==> after[id] == rows[id])
  {
    if ops != [] {
      TerminalRowsStay(rows, ops[..|ops| - 1], id);
      ApplyKeepsTableOk(ApplyAll(rows, ops[..|ops| - 1]), ops[|ops| - 1]);
    }
  }

  /** Every row that is neither PUBLISHED nor FAILED can be claimed once its times have passed. */
  lemma UnfinishedRowIsClaimable(rows: Table, id: Uuid, owner: string, now: Time, lease: int64)
    requires TableOk(rows) && id in rows
    ensures (exists skipped :: ValidChoice(rows, [id], skipped, 1, now))
            <==> rows[id].status != RowPublished && rows[id].status != RowFailed
                 && rows[id].nextAttemptAt <= now
                 && (rows[id].status == RowProcessing ==> rows[id].lockedUntil.value < now)
  {
    if Available(rows[id], now) {
      assert ValidChoice(rows, [id], rows.Keys - {id}, 1, now);
    } else {
      assert id in [id];
    }
  }

  /**
   * A lease excludes everybody else: whatever other owners claim, mark, release or fail up to
   * locked_until, the leased row stays exactly as it is. In particular a former owner's late Mark,
   * Release or Fail never changes a row that somebody else has reclaimed.
   */
  lemma {:induction false} LeaseExcludesOthers(rows: Table, ops: seq<Op>, id: Uuid, owner: string)
    requires id in rows && rows[id].lockedBy == Some(owner) && rows[id].lockedUntil.Some?
    requires forall i :: 0 <= i < |ops| && ops[i].Claim? ==> ops[i].at <= rows[id].lockedUntil.value
    requires forall i :: 0 <= i < |ops| && ops[i].SettleOp? ==> ops[i].owner != owner
    ensures id in ApplyAll(rows, ops) && ApplyAll(rows, ops)[id] == rows[id]
  {
    if ops != [] {
      LeaseExcludesOthers(rows, ops[..|ops| - 1], id, owner);
    }
  }
}
