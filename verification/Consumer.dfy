/** The at-least-once consumer of one record (internal/consumer/consumer.go). */
module Consumer {
  import opened Prelude
  import opened Orders
  import opened Events
  import opened Records
  import opened Store
  import Backoff
  import Outbox

  datatype Config = Config(
    consumerName: string, retryTopic: string, dlqTopic: string, workers: int64, batchSize: int64, maxRetries: nat,
    baseBackoff: int64, maxBackoff: int64, timeout: int64)

  /** What the configuration reader accepts: positive int64 values. */
  predicate ValidConfig(c: Config) {
    && c.workers > 0 && c.batchSize > 0 && c.baseBackoff > 0 && c.maxBackoff > 0 && c.timeout > 0
    && 0 < c.maxRetries < MAX_INT64
    && c.retryTopic != c.dlqTopic
  }

  /** The clock difference that the delay check means to tolerate. */
  const SKEW: int := 5 * SECOND

  /** How far ahead the delay check lets a record be due: the sum is computed on int64. */
  function Tolerance(c: Config): int64 {
    if c.maxBackoff + SKEW <= MAX_INT64 then c.maxBackoff + SKEW else c.maxBackoff + SKEW - 0x1_0000_0000_0000_0000
  }

  lemma ToleranceIsWrapped(c: Config)
    requires ValidConfig(c)
    ensures Tolerance(c) == Wrap64(c.maxBackoff + SKEW)
  {
  }

  // ---------- processRecord's decisions ----------

  datatype Screening = ToDlq(attempt: nat, reason: string) | WaitFor(attempt: nat, notBefore: Time)

  /** Up to `waitUntil`: the routing headers and the delay check, read at local time `now`. */
  function Screen(c: Config, record: Record, now: Time): Screening {
    match HeaderInt(record, ATTEMPT)
    case Failure(_) => ToDlq(0, "invalid attempt header")
    case Success(attempt) =>
      if attempt > c.maxRetries then ToDlq(attempt, "retry limit already exceeded")
      else
        match HeaderTime(record, NOT_BEFORE)
        case Failure(_) => ToDlq(attempt, "invalid not_before header")
        case Success(notBefore) =>
          if notBefore > now + Tolerance(c) then ToDlq(attempt, "not_before exceeds configured retry delay")
          else WaitFor(attempt, notBefore)
  }

  datatype Decoded = Malformed(reason: string) | Genuine(envelope: Envelope)

  /** From `json.Unmarshal` to the key comparison. */
  function Decode(record: Record): Decoded {
    match DecodeEnvelope(record.value)
    case None => Malformed("invalid JSON")
    case Some(envelope) =>
      if !envelope.Valid() then Malformed("invalid envelope")
      else if envelope.eventType != ORDER_CREATED then Malformed("unsupported event type")
      else if record.key != UuidText(envelope.aggregateId) then Malformed("Kafka key does not match aggregate_id")
      else Genuine(envelope)
  }

  predicate PayloadOk(envelope: Envelope) {
    DecodeCreated(envelope.payload).Some? && ValidPayload(DecodeCreated(envelope.payload).value)
  }

  /** What consumer.dlq publishes. */
  function DlqRecord(c: Config, record: Record, attempt: nat, reason: string): Record {
    Routed(record, c.dlqTopic, attempt, reason, ZERO_TIME)
  }

  /** What consumer.retry publishes at local time `now`. */
  function RetryRecord(c: Config, record: Record, currentAttempt: nat, cause: string, now: Time): Record
    requires ValidConfig(c)
  {
    var attempt := currentAttempt + 1;
    if attempt > c.maxRetries then DlqRecord(c, record, attempt, cause)
    else Routed(record, c.retryTopic, attempt, cause, now + Backoff.Delay(attempt, c.baseBackoff, c.maxBackoff))
  }

  /** The arguments of Repository.Complete. */
  function CompletionOf(c: Config, envelope: Envelope, status: Status, reason: string): Completion {
    Completion(envelope.eventId, c.consumerName, envelope.aggregateId, status, reason, envelope.requestId)
  }

  // ---------- retries ----------

  /** A routed copy keeps key and value, raises the attempt by one and respects the retry limit. */
  lemma RetryRecordReadsBack(c: Config, record: Record, currentAttempt: nat, cause: string, now: Time)
    requires ValidConfig(c) && currentAttempt <= c.maxRetries
    ensures var copy := RetryRecord(c, record, currentAttempt, cause, now);
            && copy.key == record.key && copy.value == record.value && IsRoutedCopy(record, copy)
            && HeaderInt(copy, "attempt") == Success(currentAttempt + 1)
            && (if currentAttempt < c.maxRetries
                then copy.topic == c.retryTopic
                     && HeaderTime(copy, "not_before")
                        == Success(now + Backoff.Delay(currentAttempt + 1, c.baseBackoff, c.maxBackoff))
                else copy.topic == c.dlqTopic)
  {
    var attempt := currentAttempt + 1;
    if attempt > c.maxRetries {
      RoutedReadsBack(record, c.dlqTopic, attempt, cause, ZERO_TIME);
      RoutedIsCopy(record, c.dlqTopic, attempt, cause, ZERO_TIME);
    } else {
      RoutedReadsBack(record, c.retryTopic, attempt, cause, now + Backoff.Delay(attempt, c.baseBackoff, c.maxBackoff));
      RoutedIsCopy(record, c.retryTopic, attempt, cause, now + Backoff.Delay(attempt, c.baseBackoff, c.maxBackoff));
    }
  }

  /** It also says why, and a dead letter is never delayed. */
  lemma RetryRecordSaysWhy(c: Config, record: Record, currentAttempt: nat, cause: string, now: Time)
    requires ValidConfig(c) && currentAttempt <= c.maxRetries
    ensures var copy := RetryRecord(c, record, currentAttempt, cause, now);
            && HeaderString(copy, "failure_reason") == Text(cause)
            && (copy.topic == c.dlqTopic ==> HeaderTime(copy, "not_before") == Success(0))
  {
    var attempt := currentAttempt + 1;
    RoutedReadsBack(record, c.dlqTopic, attempt, cause, ZERO_TIME);
    RoutedReadsBack(record, c.retryTopic, attempt, cause, now + Backoff.Delay(attempt, c.baseBackoff, c.maxBackoff));
  }

  /**
   * As long as the sum of the maximal backoff and five seconds fits in int64, a record routed by `retry`
   * is never dead-lettered for its delay by a consumer whose clock is at most five seconds behind the
   * sender's; it is not due before its backoff has passed on the sender's clock, and waits at most the
   * maximal backoff plus the skew.
   */
  lemma OwnRetryPassesDelayCheck(c: Config, source: Record, attempt: nat, cause: string, sentAt: Time, readAt: Time)
    requires ValidConfig(c) && c.maxBackoff + SKEW <= MAX_INT64 && attempt < c.maxRetries
    requires sentAt > 0 && readAt >= sentAt - SKEW
    ensures var r := RetryRecord(c, source, attempt, cause, sentAt);
            var due := sentAt + Backoff.Delay(attempt + 1, c.baseBackoff, c.maxBackoff);
            && r.topic == c.retryTopic
            && HeaderInt(r, ATTEMPT) == Success(attempt + 1)
            && HeaderTime(r, NOT_BEFORE) == Success(due)
            && Screen(c, r, readAt) == WaitFor(attempt + 1, due)
            && sentAt < due <= readAt + c.maxBackoff + SKEW
  {
    RetryRecordReadsBack(c, source, attempt, cause, sentAt);
  }

  /**
   * Beyond five seconds the check can fire on our own records. Where the sum wraps around, it fires on
   * every one that is read within centuries of being sent.
   */
  lemma DelayCheckToleratesExactlySkew(c: Config, source: Record, attempt: nat, cause: string, sentAt: Time,
        readAt: Time)
    requires ValidConfig(c) && attempt < c.maxRetries && sentAt > 0
    ensures var passes := Screen(c, RetryRecord(c, source, attempt, cause, sentAt), readAt).WaitFor?;
            if c.maxBackoff + 5_000_000_000 <= 0x7fff_ffff_ffff_ffff
            then Backoff.Delay(attempt + 1, c.baseBackoff, c.maxBackoff) == c.maxBackoff ==>
                   (passes <==> readAt >= sentAt - 5_000_000_000)
            else passes ==> readAt > sentAt + 0x7fff_ffff_ffff_ffff - 5_000_000_000
  {
    RetryRecordReadsBack(c, source, attempt, cause, sentAt);
  }

  /** Every own record passes the delay check of every consumer whose clock is at most `lag` behind. */
  ghost predicate OwnRetriesPass(c: Config, lag: nat)
    requires ValidConfig(c)
  {
    forall source, attempt: nat, cause, sentAt: Time, readAt: Time ::
      OwnRetryRead(c, source, attempt, cause, sentAt, readAt, lag) ==>
        Screen(c, RetryRecord(c, source, attempt, cause, sentAt), readAt).WaitFor?
  }

  predicate OwnRetryRead(c: Config, source: Record, attempt: nat, cause: string, sentAt: Time, readAt: Time, lag: nat) {
    attempt < c.maxRetries && sentAt > 0 && readAt >= sentAt - lag
  }

  /** Exactly when the longest own backoff and the lag are within the tolerance. */
  lemma OwnRetriesPassIff(c: Config, lag: nat)
    requires ValidConfig(c)
    ensures OwnRetriesPass(c, lag)
            <==> lag + Backoff.Delay(c.maxRetries, c.baseBackoff, c.maxBackoff) <= Tolerance(c)
  {
    if lag + Backoff.Delay(c.maxRetries, c.baseBackoff, c.maxBackoff) <= Tolerance(c) {
      forall source, attempt: nat, cause, sentAt: Time, readAt: Time |
        OwnRetryRead(c, source, attempt, cause, sentAt, readAt, lag)
        ensures Screen(c, RetryRecord(c, source, attempt, cause, sentAt), readAt).WaitFor?
      {
        RetryRecordReadsBack(c, source, attempt, cause, sentAt);
        Backoff.DelayIsMonotone(attempt + 1, c.maxRetries, c.baseBackoff, c.maxBackoff);
      }
    } else {
      var source := Record("", Text(""), Text(""), []);
      RetryRecordReadsBack(c, source, c.maxRetries - 1, "", 1);
      assert OwnRetryRead(c, source, c.maxRetries - 1, "", 1, 1 - lag, lag);
    }
  }

  // ---------- processRecord ----------

  datatype Processed = Verdict(status: Status, reason: string) | TechnicalError(cause: string) | ProcessingCanceled

  /** Everything one call meets: clocks, answers, faults (`cause` is their text), and how long each call takes. */
  datatype Env = Env(
    now: Time, waitCanceled: bool,
    checkFails: bool, checkTime: nat,
    processed: Processed, processTime: nat,
    newEventId: Uuid, databaseNow: Time, completeFault: Fault, completeTime: nat,
    cause: string, routeNow: Time, appended: bool, acknowledged: bool, routeTime: nat)

  const DATABASE_TIMEOUT: int := 5 * SECOND
  const ROUTE_TIMEOUT: int := 10 * SECOND

  /** Timeouts are honoured, and an acknowledged publish has been appended. */
  predicate ValidEnv(c: Config, env: Env) {
    && env.checkTime <= DATABASE_TIMEOUT && env.completeTime <= DATABASE_TIMEOUT
    && env.processTime <= c.timeout && env.routeTime <= ROUTE_TIMEOUT
    && (env.acknowledged ==> env.appended)
  }

  // ---------- what one call of processRecord does ----------

  /** The database afterwards, the copy that reached Kafka, whether the error is nil, and the time it took. */
  datatype Effect = Effect(db: Database, copy: Option<Record>, ok: bool, elapsed: nat)

  function RouteEffect(db: Database, copy: Record, env: Env, before: nat): Effect {
    Effect(db, if env.appended then Some(copy) else None, env.acknowledged, before + env.routeTime)
  }

  /** The completion as far as the caller can tell: `CompleteFailed` also stands for a lost reply. */
  function Completed(c: Config, db: Database, envelope: Envelope, status: Status, reason: string,
        env: Env): (Database, CompleteResult) {
    if env.completeFault == Refused then (db, CompleteFailed)
    else
      var (db', result) := CompleteTx(db, CompletionOf(c, envelope, status, reason), env.newEventId, env.databaseNow);
      (db', if env.completeFault == ReplyLost then CompleteFailed else result)
  }

  /** From the decoding on; `waited` is the time spent before it. */
  function HandleEffect(c: Config, db: Database, record: Record, attempt: nat, env: Env, waited: nat): Effect
    requires ValidConfig(c)
  {
    match Decode(record)
    case Malformed(reason) => RouteEffect(db, DlqRecord(c, record, attempt, reason), env, waited)
    case Genuine(envelope) =>
      var checked := waited + env.checkTime;
      if env.checkFails then RouteEffect(db, RetryRecord(c, record, attempt, env.cause, env.routeNow), env, checked)
      else if ProcessedKey(c.consumerName, envelope.eventId) in db.processed then Effect(db, None, true, checked)
      else if !PayloadOk(envelope) then RouteEffect(db, DlqRecord(c, record, attempt, "invalid payload"), env, checked)
      else
        var processed := checked + env.processTime;
        match env.processed
        case ProcessingCanceled => Effect(db, None, false, processed)
        case TechnicalError(cause) =>
          RouteEffect(db, RetryRecord(c, record, attempt, cause, env.routeNow), env, processed)
        case Verdict(status, reason) =>
          var (db', result) := Completed(c, db, envelope, status, reason, env);
          var completed := processed + env.completeTime;
          if result.CompleteFailed?
          then RouteEffect(db', RetryRecord(c, record, attempt, env.cause, env.routeNow), env, completed)
          else Effect(db', None, true, completed)
  }

  /** waitUntil: how long it blocks, or `None` when the context ends first. */
  function WaitUntil(target: Time, env: Env): Option<nat> {
    if target == ZERO_TIME || env.now >= target then Some(0)
    else if env.waitCanceled then None
    else Some(target - env.now)
  }

  function RecordEffect(c: Config, db: Database, record: Record, env: Env): Effect
    requires ValidConfig(c)
  {
    match Screen(c, record, env.now)
    case ToDlq(attempt, reason) => RouteEffect(db, DlqRecord(c, record, attempt, reason), env, 0)
    case WaitFor(attempt, notBefore) =>
      match WaitUntil(notBefore, env)
      case None => Effect(db, None, false, 0)
      case Some(waited) => HandleEffect(c, db, record, attempt, env, waited)
  }

  /** A copy of the record, for the retry topic or the DLQ. */
  predicate IsCopyOf(c: Config, copy: Record, record: Record) {
    copy.key == record.key && copy.value == record.value && (copy.topic == c.retryTopic || copy.topic == c.dlqTopic)
  }

  lemma CompletedRecords(c: Config, db: Database, envelope: Envelope, status: Status, reason: string, env: Env)
    ensures var (db', result) := Completed(c, db, envelope, status, reason, env);
            && db.processed <= db'.processed
            && (!result.CompleteFailed? || db'.orders != db.orders ==>
                ProcessedKey(c.consumerName, envelope.eventId) in db'.processed)
  {
  }

  lemma HandledMeansDurable(c: Config, db: Database, record: Record, attempt: nat, envelope: Envelope, env: Env,
        waited: nat)
    requires ValidConfig(c) && attempt <= c.maxRetries && Decode(record) == Genuine(envelope)
    ensures var e := HandleEffect(c, db, record, attempt, env, waited);
            && db.processed <= e.db.processed
            && (e.copy.Some? ==> IsCopyOf(c, e.copy.value, record))
            && (e.db.orders != db.orders || (e.ok && e.copy.None? && (env.acknowledged ==> env.appended)) ==>
                  ProcessedKey(c.consumerName, envelope.eventId) in e.db.processed)
  {
    forall cause { RetryRecordReadsBack(c, record, attempt, cause, env.routeNow); }
    forall status, reason { CompletedRecords(c, db, envelope, status, reason, env); }
  }

  /**
   * A nil error means a durable outcome: the event is recorded as processed, or a copy with the same
   * key and value is in the retry topic or the DLQ. Nothing that was processed is forgotten.
   */
  ghost predicate Durable(c: Config, processed: set<ProcessedKey>, record: Record, e: Effect) {
    && processed <= e.db.processed
    && (e.copy.Some? ==> IsCopyOf(c, e.copy.value, record))
    && (e.ok && e.copy.None? ==>
          Decode(record).Genuine? && ProcessedKey(c.consumerName, Decode(record).envelope.eventId) in e.db.processed)
  }

  lemma NilMeansDurable(c: Config, db: Database, record: Record, env: Env)
    requires ValidConfig(c) && ValidEnv(c, env)
    ensures Durable(c, db.processed, record, RecordEffect(c, db, record, env))
  {
    var screening, decoded := Screen(c, record, env.now), Decode(record);
    if screening.WaitFor? && WaitUntil(screening.notBefore, env).Some? && decoded.Genuine? {
      HandledMeansDurable(c, db, record, screening.attempt, decoded.envelope, env,
                          WaitUntil(screening.notBefore, env).value);
    }
  }

  /** What a record must look like to be worth a try, read off its headers, key and value. */
  predicate WellFormed(c: Config, record: Record, now: Time) {
    && HeaderInt(record, ATTEMPT).Success? && HeaderInt(record, ATTEMPT).value <= c.maxRetries
    && HeaderTime(record, NOT_BEFORE).Success? && HeaderTime(record, NOT_BEFORE).value <= now + Tolerance(c)
    && record.value.EnvelopeJson? && record.value.envelope.Valid()
    && record.value.envelope.eventType == ORDER_CREATED && record.key == UuidText(record.value.envelope.aggregateId)
  }

  lemma WellFormedIsHandled(c: Config, record: Record, now: Time)
    ensures WellFormed(c, record, now) <==> Screen(c, record, now).WaitFor? && Decode(record).Genuine?
  {
  }

  /**
   * A malformed record never reaches the database and is never retried: all it can leave behind is a
   * dead letter, and the call succeeds when that is acknowledged.
   */
  lemma MalformedIsDeadLettered(c: Config, db: Database, record: Record, env: Env)
    requires ValidConfig(c) && !WellFormed(c, record, env.now)
    ensures var e := RecordEffect(c, db, record, env);
            && e.db == db
            && (e.copy.Some? ==> e.copy.value.topic == c.dlqTopic && IsCopyOf(c, e.copy.value, record))
            && (e.ok ==> env.acknowledged) && (env.acknowledged && !env.waitCanceled ==> e.ok)
  {
    WellFormedIsHandled(c, record, env.now);
  }

  /**
   * Whatever is published is a dead letter exactly when the record is malformed, its payload is invalid,
   * or its retries are used up; otherwise it is the next attempt, due one backoff after the failure.
   */
  lemma DeadLetteredIff(c: Config, db: Database, record: Record, env: Env)
    requires ValidConfig(c) && RecordEffect(c, db, record, env).copy.Some?
    ensures var copy := RecordEffect(c, db, record, env).copy.value;
            && (copy.topic == c.dlqTopic
                <==> !WellFormed(c, record, env.now) || HeaderInt(record, ATTEMPT).value == c.maxRetries
                     || (!env.checkFails && !PayloadOk(record.value.envelope)))
            && (copy.topic != c.dlqTopic ==>
                  && HeaderInt(copy, ATTEMPT) == Success(HeaderInt(record, ATTEMPT).value + 1)
                  && HeaderTime(copy, NOT_BEFORE)
                     == Success(env.routeNow + Backoff.Delay(HeaderInt(record, ATTEMPT).value + 1, c.baseBackoff,
                                                             c.maxBackoff)))
  {
    WellFormedIsHandled(c, record, env.now);
    if WellFormed(c, record, env.now) {
      RetryOrDeadLetter(c, db, record, env);
    } else {
      MalformedIsDeadLettered(c, db, record, env);
    }
  }

  lemma RetryOrDeadLetter(c: Config, db: Database, record: Record, env: Env)
    requires ValidConfig(c) && RecordEffect(c, db, record, env).copy.Some?
    requires Screen(c, record, env.now).WaitFor? && Decode(record).Genuine?
    ensures var copy, attempt := RecordEffect(c, db, record, env).copy.value, Screen(c, record, env.now).attempt;
            && (copy.topic == c.dlqTopic
                <==> attempt == c.maxRetries || (!env.checkFails && !PayloadOk(Decode(record).envelope)))
            && (copy.topic != c.dlqTopic ==>
                  && HeaderInt(copy, ATTEMPT) == Success(attempt + 1)
                  && HeaderTime(copy, NOT_BEFORE)
                     == Success(env.routeNow + Backoff.Delay(attempt + 1, c.baseBackoff, c.maxBackoff)))
  {
    forall cause { RetryRecordReadsBack(c, record, Screen(c, record, env.now).attempt, cause, env.routeNow); }
  }

  /** The longest that processRecord can take: `MaxBackoff + Timeout + 25s` unless the tolerance wraps around. */
  function RecordLimit(c: Config): int {
    Max(0, Tolerance(c)) + c.timeout + 20 * SECOND
  }

  lemma RecordLimitIs(c: Config)
    requires ValidConfig(c)
    ensures RecordLimit(c) == if c.maxBackoff + 5_000_000_000 <= 0x7fff_ffff_ffff_ffff
                              then c.maxBackoff + c.timeout + 25_000_000_000 else c.timeout + 20_000_000_000
  {
  }

  lemma EndsWithinLimit(c: Config, db: Database, record: Record, env: Env)
    requires ValidConfig(c) && ValidEnv(c, env)
    ensures RecordEffect(c, db, record, env).elapsed <= RecordLimit(c)
  {
    var screening := Screen(c, record, env.now);
    if screening.WaitFor? && WaitUntil(screening.notBefore, env).Some? {
      assert WaitUntil(screening.notBefore, env).value <= Max(0, Tolerance(c));
    }
  }

  /** After the wait, a call takes at most its own timeouts. */
  lemma HandlingTakes(c: Config, db: Database, record: Record, attempt: nat, env: Env, waited: nat)
    requires ValidConfig(c) && ValidEnv(c, env)
    ensures waited <= HandleEffect(c, db, record, attempt, env, waited).elapsed <= waited + c.timeout + 20 * SECOND
  {
  }

  /** Delivering a processed event again changes nothing in the database, whatever fails this time. */
  lemma RedeliveryChangesNothing(c: Config, db: Database, record: Record, env: Env)
    requires ValidConfig(c) && Decode(record).Genuine?
    requires ProcessedKey(c.consumerName, Decode(record).envelope.eventId) in db.processed
    ensures RecordEffect(c, db, record, env).db == db
  {
  }

  /** However the first call ended, a second one applies the completion at most once in all. */
  lemma SecondDeliveryIsHarmless(c: Config, db: Database, record: Record, first: Env, second: Env)
    requires ValidConfig(c)
    ensures var e := RecordEffect(c, db, record, first);
            e.db.orders != db.orders ==> RecordEffect(c, e.db, record, second).db == e.db
  {
    var screening, decoded := Screen(c, record, first.now), Decode(record);
    if screening.WaitFor? && WaitUntil(screening.notBefore, first).Some? && decoded.Genuine? {
      HandledMeansDurable(c, db, record, screening.attempt, decoded.envelope, first,
                          WaitUntil(screening.notBefore, first).value);
      if RecordEffect(c, db, record, first).db.orders != db.orders {
        RedeliveryChangesNothing(c, RecordEffect(c, db, record, first).db, record, second);
      }
    }
  }

  // ---------- what a call leaves behind, read off tables, records and headers ----------

  /** One copy of the record is sent, which reads as given; the result is the broker's answer. */
  predicate Sends(e: Effect, record: Record, env: Env, topic: string, attempt: nat, reason: string, due: Time) {
    && e.ok == env.acknowledged && (e.copy.Some? <==> env.appended)
    && (e.copy.Some? ==>
          var copy := e.copy.value;
          && copy.topic == topic && copy.key == record.key && copy.value == record.value
          && HeaderInt(copy, "attempt") == Success(attempt) && HeaderString(copy, "failure_reason") == Text(reason)
          && HeaderTime(copy, "not_before") == Success(due))
  }

  /** A dead letter is all that is left behind. */
  predicate OnlyDeadLetter(c: Config, db: Database, e: Effect, record: Record, env: Env, attempt: nat, reason: string) {
    e.db == db && Sends(e, record, env, c.dlqTopic, attempt, reason, 0)
  }

  /** The next attempt is sent, or after the last one a dead letter. */
  predicate SendsNext(c: Config, e: Effect, record: Record, env: Env, attempt: nat, cause: string)
    requires ValidConfig(c)
  {
    if attempt < c.maxRetries
    then Sends(e, record, env, c.retryTopic, attempt + 1, cause,
               env.routeNow + Backoff.Delay(attempt + 1, c.baseBackoff, c.maxBackoff))
    else Sends(e, record, env, c.dlqTopic, attempt + 1, cause, 0)
  }

  lemma DlqRecordReadsBack(c: Config, record: Record, attempt: nat, reason: string)
    requires attempt <= MAX_INT64
    ensures var copy := DlqRecord(c, record, attempt, reason);
            && copy.topic == c.dlqTopic && copy.key == record.key && copy.value == record.value
            && HeaderInt(copy, "attempt") == Success(attempt) && HeaderString(copy, "failure_reason") == Text(reason)
            && HeaderTime(copy, "not_before") == Success(0)
  {
    RoutedReadsBack(record, c.dlqTopic, attempt, reason, ZERO_TIME);
  }

  /** Bad routing headers and too late a time: a dead letter with the attempt as far as it is known. */
  lemma BadHeadersAreDeadLettered(c: Config, db: Database, record: Record, env: Env)
    requires ValidConfig(c)
    ensures var e := RecordEffect(c, db, record, env);
            match HeaderInt(record, "attempt")
            case Failure(_) => OnlyDeadLetter(c, db, e, record, env, 0, "invalid attempt header")
            case Success(n) =>
              if n > c.maxRetries then OnlyDeadLetter(c, db, e, record, env, n, "retry limit already exceeded")
              else
                match HeaderTime(record, "not_before")
                case Failure(_) => OnlyDeadLetter(c, db, e, record, env, n, "invalid not_before header")
                case Success(t) =>
                  t > env.now + Wrap64(c.maxBackoff + 5_000_000_000) ==>
                    OnlyDeadLetter(c, db, e, record, env, n, "not_before exceeds configured retry delay")
    ensures Screen(c, record, env.now).ToDlq? ==> RecordEffect(c, db, record, env).elapsed == env.routeTime
  {
    var screening := Screen(c, record, env.now);
    if screening.ToDlq? {
      if HeaderInt(record, "attempt").Success? {
        HeaderIntIff(record, "attempt", screening.attempt);
      }
      DlqRecordReadsBack(c, record, screening.attempt, screening.reason);
    }
  }

  /** The headers let the record through with this attempt, and the wait, if any, is not canceled. */
  predicate Admitted(c: Config, record: Record, env: Env, attempt: nat) {
    && HeaderInt(record, "attempt") == Success(attempt) && attempt <= c.maxRetries
    && HeaderTime(record, "not_before").Success?
    && var due := HeaderTime(record, "not_before").value;
    && due <= env.now + Wrap64(c.maxBackoff + 5_000_000_000)
    && (due == 0 || due <= env.now || !env.waitCanceled)
  }

  /** The wait of an admitted record: until it is due, if it is due at all. */
  function Waited(record: Record, env: Env): nat
    requires HeaderTime(record, "not_before").Success?
  {
    var due := HeaderTime(record, "not_before").value;
    if due == 0 then 0 else Max(0, due - env.now)
  }

  lemma AdmittedIsHandled(c: Config, db: Database, record: Record, env: Env, attempt: nat)
    requires ValidConfig(c) && Admitted(c, record, env, attempt)
    ensures RecordEffect(c, db, record, env) == HandleEffect(c, db, record, attempt, env, Waited(record, env))
  {
  }

  /** A canceled wait leaves nothing behind, and the call fails. */
  lemma CanceledWaitDoesNothing(c: Config, db: Database, record: Record, env: Env)
    requires ValidConfig(c) && WellFormed(c, record, env.now) && env.waitCanceled
    requires HeaderTime(record, "not_before").value != 0 && env.now < HeaderTime(record, "not_before").value
    ensures var e := RecordEffect(c, db, record, env);
            e.db == db && e.copy == None && !e.ok && e.elapsed == 0
  {
  }

  /** An admitted record that holds an OrderCreated event under its order's key. */
  predicate Due(c: Config, record: Record, env: Env, attempt: nat) {
    && Admitted(c, record, env, attempt)
    && record.value.EnvelopeJson? && record.value.envelope.Valid()
    && record.value.envelope.eventType == "OrderCreated" && record.key == UuidText(record.value.envelope.aggregateId)
  }

  /** A record whose value or key is not that of an OrderCreated event. */
  lemma BadEventIsDeadLettered(c: Config, db: Database, record: Record, env: Env, attempt: nat)
    requires ValidConfig(c) && Admitted(c, record, env, attempt)
    ensures var e := RecordEffect(c, db, record, env);
            if !record.value.EnvelopeJson? then OnlyDeadLetter(c, db, e, record, env, attempt, "invalid JSON")
            else if !record.value.envelope.Valid()
              then OnlyDeadLetter(c, db, e, record, env, attempt, "invalid envelope")
            else if record.value.envelope.eventType != "OrderCreated"
              then OnlyDeadLetter(c, db, e, record, env, attempt, "unsupported event type")
            else record.key != UuidText(record.value.envelope.aggregateId) ==>
                   OnlyDeadLetter(c, db, e, record, env, attempt, "Kafka key does not match aggregate_id")
    ensures !Due(c, record, env, attempt) ==>
              RecordEffect(c, db, record, env).elapsed == Waited(record, env) + env.routeTime
  {
    AdmittedIsHandled(c, db, record, env, attempt);
    if Decode(record).Malformed? {
      DlqRecordReadsBack(c, record, attempt, Decode(record).reason);
    }
  }

  /** Its payload says what `CreatedPayload.Validate` asks for. */
  predicate ProperPayload(bytes: Bytes) {
    && bytes.CreatedJson? && bytes.created.currency == "RUB"
    && Proper(CreateCommand(bytes.created.customerId, bytes.created.warehouseId, bytes.created.items))
    && bytes.created.totalAmountMinor == UnitTotal(bytes.created.items)
  }

  lemma PayloadOkIff(envelope: Envelope)
    ensures PayloadOk(envelope) <==> ProperPayload(envelope.payload)
  {
    if envelope.payload.CreatedJson? {
      ValidPayloadIff(envelope.payload.created);
    }
  }

  /** The event is new, known to be so, and its payload is in order: the operations are run. */
  predicate IsRun(c: Config, db: Database, record: Record, env: Env, attempt: nat) {
    && Due(c, record, env, attempt) && !env.checkFails
    && ProcessedKey(c.consumerName, record.value.envelope.eventId) !in db.processed
    && ProperPayload(record.value.envelope.payload)
  }

  /** Before a decision: a failed check is retried, a known event is skipped, a bad payload is a dead letter. */
  lemma UndecidedCall(c: Config, db: Database, record: Record, env: Env, attempt: nat)
    requires ValidConfig(c) && Due(c, record, env, attempt)
    ensures var e, envelope := RecordEffect(c, db, record, env), record.value.envelope;
            if env.checkFails then e.db == db && SendsNext(c, e, record, env, attempt, env.cause)
            else if ProcessedKey(c.consumerName, envelope.eventId) in db.processed
              then e.db == db && e.copy == None && e.ok
            else !ProperPayload(envelope.payload) ==>
                   OnlyDeadLetter(c, db, e, record, env, attempt, "invalid payload")
    ensures !IsRun(c, db, record, env, attempt) ==>
              RecordEffect(c, db, record, env).elapsed
              == Waited(record, env) + env.checkTime
                 + if !env.checkFails && ProcessedKey(c.consumerName, record.value.envelope.eventId) in db.processed
                   then 0 else env.routeTime
  {
    AdmittedIsHandled(c, db, record, env, attempt);
    PayloadOkIff(record.value.envelope);
    RetryRecordReadsBack(c, record, attempt, env.cause, env.routeNow);
    RetryRecordSaysWhy(c, record, attempt, env.cause, env.routeNow);
    DlqRecordReadsBack(c, record, attempt, "invalid payload");
  }

  /** No verdict: nothing is stored; an error is retried, a cancellation is not. */
  lemma ErrorIsRetried(c: Config, db: Database, record: Record, env: Env, attempt: nat)
    requires ValidConfig(c) && IsRun(c, db, record, env, attempt) && !env.processed.Verdict?
    ensures var e := RecordEffect(c, db, record, env);
            && e.db == db
            && (if env.processed.TechnicalError? then SendsNext(c, e, record, env, attempt, env.processed.cause)
                else e.copy == None && !e.ok)
            && e.elapsed == Waited(record, env) + env.checkTime + env.processTime
                            + if env.processed.TechnicalError? then env.routeTime else 0
  {
    AdmittedIsHandled(c, db, record, env, attempt);
    PayloadOkIff(record.value.envelope);
    if env.processed.TechnicalError? {
      RetryRecordReadsBack(c, record, attempt, env.processed.cause, env.routeNow);
      RetryRecordSaysWhy(c, record, attempt, env.processed.cause, env.routeNow);
    }
  }

  /**
   * A verdict is completed as it is: the transaction is about this event and its order, with this status,
   * reason and the event's request id. Without a good reply the record is retried.
   */
  lemma VerdictIsCompleted(c: Config, db: Database, record: Record, env: Env, attempt: nat)
    returns (r: CompleteResult)
    requires ValidConfig(c) && IsRun(c, db, record, env, attempt) && env.processed.Verdict?
    ensures var e, envelope, verdict := RecordEffect(c, db, record, env), record.value.envelope, env.processed;
            && (if env.completeFault == Refused then e.db == db && r == CompleteFailed
                else Ends(db, e.db, r, Completion(envelope.eventId, c.consumerName, envelope.aggregateId,
                                                  verdict.status, verdict.reason, envelope.requestId),
                          env.newEventId, env.databaseNow))
            && (if r == CompleteFailed || env.completeFault == ReplyLost
                then SendsNext(c, e, record, env, attempt, env.cause) else e.copy == None && e.ok)
            && e.elapsed == Waited(record, env) + env.checkTime + env.processTime + env.completeTime
                            + if r == CompleteFailed || env.completeFault == ReplyLost then env.routeTime else 0
  {
    AdmittedIsHandled(c, db, record, env, attempt);
    PayloadOkIff(record.value.envelope);
    RetryRecordReadsBack(c, record, attempt, env.cause, env.routeNow);
    RetryRecordSaysWhy(c, record, attempt, env.cause, env.routeNow);
    var envelope, verdict := record.value.envelope, env.processed;
    var completion := Completion(envelope.eventId, c.consumerName, envelope.aggregateId, verdict.status, verdict.reason,
                                 envelope.requestId);
    CompleteTxEnds(db, completion, env.newEventId, env.databaseNow);
    r := if env.completeFault == Refused then CompleteFailed
         else CompleteTx(db, completion, env.newEventId, env.databaseNow).1;
  }

  /** The verdict's status is the order's, and one new row, about this order, says so with the reason. */
  ghost predicate ShowsVerdict(before: Database, after: Database, envelope: Envelope, status: Status, reason: string,
        newEventId: Uuid, now: Time)
  {
    var id := envelope.aggregateId;
    && id in before.orders && before.orders[id].status == Pending && newEventId !in before.outbox
    && after.orders == before.orders[id := before.orders[id].(status := status, updatedAt := now)]
    && newEventId in after.outbox && after.outbox == before.outbox[newEventId := after.outbox[newEventId]]
    && var row := after.outbox[newEventId];
    && row.aggregateId == id && row.eventType == "OrderStatusChanged" && row.status == Outbox.RowPending
    && row.payload == EnvelopeJson(Envelope(newEventId, "OrderStatusChanged", id, envelope.requestId, now, 1,
                                            StatusJson(StatusChangedPayload(Pending, status, reason))))
  }

  /** In particular, a verdict on a PENDING order becomes its status and the content of its one new event. */
  lemma VerdictIsStored(c: Config, db: Database, record: Record, env: Env, attempt: nat)
    requires ValidConfig(c) && IsRun(c, db, record, env, attempt) && env.processed.Verdict?
    requires env.completeFault != Refused
    requires var id := record.value.envelope.aggregateId;
             && id in db.orders && db.orders[id].status == Pending && db.orders[id].createdAt <= env.databaseNow
             && env.databaseNow != 0 && env.newEventId != 0 && env.newEventId !in db.outbox
    ensures ShowsVerdict(db, RecordEffect(c, db, record, env).db, record.value.envelope, env.processed.status,
                         env.processed.reason, env.newEventId, env.databaseNow)
  {
    var r := VerdictIsCompleted(c, db, record, env, attempt);
    ValidIff(record.value.envelope);
  }

  /** Of orders and events, a call changes nothing, or what the verdict on its own record says. */
  ghost predicate OnlyVerdictShows(before: Database, after: Database, record: Record, env: Env) {
    || (after.orders == before.orders && after.outbox == before.outbox)
    || (record.value.EnvelopeJson? && env.processed.Verdict?
        && ShowsVerdict(before, after, record.value.envelope, env.processed.status, env.processed.reason,
                        env.newEventId, env.databaseNow))
  }

  lemma CompletionShowsVerdict(c: Config, db: Database, envelope: Envelope, status: Status, reason: string, env: Env)
    ensures var after := Completed(c, db, envelope, status, reason, env).0;
            || (after.orders == db.orders && after.outbox == db.outbox)
            || ShowsVerdict(db, after, envelope, status, reason, env.newEventId, env.databaseNow)
  {
    CompleteTxEnds(db, Completion(envelope.eventId, c.consumerName, envelope.aggregateId, status, reason,
                                  envelope.requestId), env.newEventId, env.databaseNow);
  }

  lemma CallShowsOnlyVerdict(c: Config, db: Database, record: Record, env: Env)
    requires ValidConfig(c)
    ensures OnlyVerdictShows(db, RecordEffect(c, db, record, env).db, record, env)
  {
    if record.value.EnvelopeJson? && env.processed.Verdict? {
      CompletionShowsVerdict(c, db, record.value.envelope, env.processed.status, env.processed.reason, env);
    }
  }

  /** What PollRecords returns: possibly an error, and records. */
  datatype Fetch = Fetch(failed: bool, records: seq<Record>)

  /** How one turn of the poll loop ends. */
  datatype Turn = Skipped | BatchCommitted | Stopped

  /** A record has a durable outcome: its event is recorded as processed, or a copy of it was produced. */
  ghost predicate Recorded(c: Config, processed: set<ProcessedKey>, produced: seq<Record>, record: Record) {
    || (Decode(record).Genuine? && ProcessedKey(c.consumerName, Decode(record).envelope.eventId) in processed)
    || (exists j :: 0 <= j < |produced| && IsCopyOf(c, produced[j], record))
  }

  /** The first `k` records have one. */
  ghost predicate FirstRecorded(c: Config, processed: set<ProcessedKey>, produced: seq<Record>, records: seq<Record>,
        k: nat)
    requires k <= |records|
  {
    k > 0 ==> FirstRecorded(c, processed, produced, records, k - 1) && Recorded(c, processed, produced, records[k - 1])
  }

  lemma RecordedStable(c: Config, processed: set<ProcessedKey>, processed': set<ProcessedKey>, produced: seq<Record>,
        produced': seq<Record>, record: Record)
    requires processed <= processed' && produced <= produced' && Recorded(c, processed, produced, record)
    ensures Recorded(c, processed', produced', record)
  {
    if j :| 0 <= j < |produced| && IsCopyOf(c, produced[j], record) {
      assert produced'[j] == produced[j];
    }
  }

  lemma {:induction false} FirstRecordedStable(c: Config, processed: set<ProcessedKey>, processed': set<ProcessedKey>,
        produced: seq<Record>, produced': seq<Record>, records: seq<Record>, k: nat)
    requires processed <= processed' && produced <= produced'
    requires k <= |records| && FirstRecorded(c, processed, produced, records, k)
    ensures FirstRecorded(c, processed', produced', records, k)
  {
    if k > 0 {
      FirstRecordedStable(c, processed, processed', produced, produced', records, k - 1);
      RecordedStable(c, processed, processed', produced, produced', records[k - 1]);
    }
  }

  lemma {:induction false} FirstRecordedEach(c: Config, processed: set<ProcessedKey>, produced: seq<Record>,
        records: seq<Record>, k: nat, j: nat)
    requires j < k <= |records| && FirstRecorded(c, processed, produced, records, k)
    ensures Recorded(c, processed, produced, records[j])
  {
    if j < k - 1 {
      FirstRecordedEach(c, processed, produced, records, k - 1, j);
    }
  }

  // ---------- what one batch does ----------

  function DbAfter(db: Database, effects: seq<Effect>): Database {
    if effects == [] then db else effects[|effects| - 1].db
  }

  /**
   * The `k`-th call, on what the calls before it have left. The first `live` records are handed out
   * while the context lives; the pool calls no handler for the others, and their slots get an error.
   */
  ghost predicate CallAt(c: Config, db: Database, records: seq<Record>, envs: seq<Env>, live: nat,
        effects: seq<Effect>, k: nat)
    requires ValidConfig(c) && k < |effects| <= |records| == |envs|
  {
    var now := DbAfter(db, effects[..k]);
    effects[k] == if k < live then RecordEffect(c, now, records[k], envs[k]) else Effect(now, None, false, 0)
  }

  /** The calls on the first records, one after the other. */
  ghost predicate AreCalls(c: Config, db: Database, records: seq<Record>, envs: seq<Env>, live: nat,
        effects: seq<Effect>)
    requires ValidConfig(c) && |effects| <= |records| == |envs|
  {
    forall k: nat :: k < |effects| ==> CallAt(c, db, records, envs, live, effects, k)
  }

  lemma OneMoreCall(c: Config, db: Database, records: seq<Record>, envs: seq<Env>, live: nat, effects: seq<Effect>,
        e: Effect, k: nat)
    requires ValidConfig(c) && k <= |effects| < |records| == |envs|
    requires AreCalls(c, db, records, envs, live, effects)
    requires k == |effects| ==> CallAt(c, db, records, envs, live, effects + [e], k)
    ensures CallAt(c, db, records, envs, live, effects + [e], k)
  {
    if k < |effects| {
      assert CallAt(c, db, records, envs, live, effects, k);
      assert (effects + [e])[..k] == effects[..k];
    }
  }

  /** The copy that the call has put into Kafka, if any. */
  function CopyOf(e: Effect): seq<Record> {
    if e.copy.Some? then [e.copy.value] else []
  }

  function CopiesOf(effects: seq<Effect>): seq<Record> {
    if effects == [] then [] else CopiesOf(effects[..|effects| - 1]) + CopyOf(effects[|effects| - 1])
  }

  predicate AllOk(effects: seq<Effect>) {
    forall k :: 0 <= k < |effects| ==> effects[k].ok
  }

  ghost predicate DurableAt(c: Config, db: Database, records: seq<Record>, effects: seq<Effect>, k: nat)
    requires k < |effects| <= |records|
  {
    Durable(c, DbAfter(db, effects[..k]).processed, records[k], effects[k])
  }

  lemma CallIsDurable(c: Config, db: Database, records: seq<Record>, envs: seq<Env>, live: nat, effects: seq<Effect>,
        k: nat)
    requires ValidConfig(c) && k < |effects| <= |records| == |envs| && ValidEnv(c, envs[k])
    requires CallAt(c, db, records, envs, live, effects, k)
    ensures DurableAt(c, db, records, effects, k)
  {
    if k < live {
      NilMeansDurable(c, DbAfter(db, effects[..k]), records[k], envs[k]);
    }
  }

  /** A batch whose calls all return nil leaves a durable outcome for every record. */
  lemma {:induction false} AllOkRecords(c: Config, db: Database, log: seq<Record>, records: seq<Record>,
        effects: seq<Effect>)
    requires |effects| <= |records| && AllOk(effects)
    requires forall k: nat :: k < |effects| ==> DurableAt(c, db, records, effects, k)
    ensures FirstRecorded(c, DbAfter(db, effects).processed, log + CopiesOf(effects), records, |effects|)
  {
    if effects != [] {
      var front, last := effects[..|effects| - 1], effects[|effects| - 1];
      forall k: nat | k < |front| ensures DurableAt(c, db, records, front, k) {
        assert DurableAt(c, db, records, effects, k) && front[..k] == effects[..k];
      }
      AllOkRecords(c, db, log, records, front);
      var before := log + CopiesOf(front);
      assert log + CopiesOf(effects) == before + CopyOf(last);
      assert DurableAt(c, db, records, effects, |front|);
      FirstRecordedStable(c, DbAfter(db, front).processed, last.db.processed, before, before + CopyOf(last), records,
                          |front|);
      if last.copy.Some? {
        assert (before + CopyOf(last))[|before|] == last.copy.value;
      }
    }
  }

  lemma AllRecorded(c: Config, db: Database, log: seq<Record>, records: seq<Record>, envs: seq<Env>, live: nat,
        effects: seq<Effect>)
    requires ValidConfig(c) && |effects| == |envs| == |records| && forall k :: 0 <= k < |envs| ==> ValidEnv(c, envs[k])
    requires AreCalls(c, db, records, envs, live, effects) && AllOk(effects)
    ensures forall k :: 0 <= k < |records| ==>
              Recorded(c, DbAfter(db, effects).processed, log + CopiesOf(effects), records[k])
  {
    forall k: nat | k < |effects| ensures DurableAt(c, db, records, effects, k) {
      CallIsDurable(c, db, records, envs, live, effects, k);
    }
    AllOkRecords(c, db, log, records, effects);
    forall k | 0 <= k < |records|
      ensures Recorded(c, DbAfter(db, effects).processed, log + CopiesOf(effects), records[k])
    {
      FirstRecordedEach(c, DbAfter(db, effects).processed, log + CopiesOf(effects), records, |records|, k);
    }
  }

  class OrderConsumer {
    const config: Config
    const repository: PostgresStore
    /** What the retry producer has put into Kafka, in order. */
    var produced: seq<Record>

    constructor (config: Config, repository: PostgresStore)
      ensures this.config == config && this.repository == repository && produced == []
    {
      this.config, this.repository, produced := config, repository, [];
    }

    /**
     * One turn of Run's loop: fetch, process every record of the batch whatever fails, and ask for the
     * commit of the whole batch exactly when every result is nil. Every record for which it is asked has
     * a durable outcome. The records are taken in the order in which the pool hands them out.
     */
    method RunOnce(fetch: Fetch, envs: seq<Env>, live: nat, commitAcknowledged: bool)
      returns (turn: Turn, committed: seq<Record>, oks: seq<bool>, ghost effects: seq<Effect>)
      requires ValidConfig(config) && |envs| == |fetch.records|
      requires forall k :: 0 <= k < |envs| ==> ValidEnv(config, envs[k])
      modifies this, repository
      ensures turn.Skipped? <==> fetch.failed || fetch.records == []
      ensures turn.Skipped? ==> oks == [] && effects == []
      ensures !turn.Skipped? ==>
                && |effects| == |oks| == |fetch.records|
                && AreCalls(config, old(repository.Contents()), fetch.records, envs, live, effects)
      ensures forall k :: 0 <= k < |oks| ==> oks[k] == effects[k].ok
      ensures repository.Contents() == DbAfter(old(repository.Contents()), effects)
      ensures produced == old(produced) + CopiesOf(effects)
      ensures turn.BatchCommitted? <==> !turn.Skipped? && (forall k :: 0 <= k < |oks| ==> oks[k]) && commitAcknowledged
      ensures committed == if !turn.Skipped? && (forall k :: 0 <= k < |oks| ==> oks[k]) then fetch.records else []
      ensures forall k :: 0 <= k < |committed| ==> Recorded(config, repository.processed, produced, committed[k])
    {
      effects := [];
      if fetch.failed || fetch.records == [] {
        return Skipped, [], [], [];
      }
      ghost var db, log := repository.Contents(), produced;
      oks, effects := ProcessAll(fetch.records, envs, live);
      if exists k :: 0 <= k < |oks| && !oks[k] {
        return Stopped, [], oks, effects;
      }
      AllRecorded(config, db, log, fetch.records, envs, live, effects);
      return if commitAcknowledged then BatchCommitted else Stopped, fetch.records, oks, effects;
    }

    /** workerpool.Process with processRecord: one result per record. */
    method ProcessAll(records: seq<Record>, envs: seq<Env>, live: nat)
      returns (oks: seq<bool>, ghost effects: seq<Effect>)
      requires ValidConfig(config) && |envs| == |records|
      requires forall k :: 0 <= k < |envs| ==> ValidEnv(config, envs[k])
      modifies this, repository
      ensures |oks| == |effects| == |records| && forall k :: 0 <= k < |oks| ==> oks[k] == effects[k].ok
      ensures AreCalls(config, old(repository.Contents()), records, envs, live, effects)
      ensures repository.Contents() == DbAfter(old(repository.Contents()), effects)
      ensures produced == old(produced) + CopiesOf(effects)
    {
      oks, effects := [], [];
      ghost var db := repository.Contents();
      for k := 0 to |records|
        invariant |oks| == |effects| == k && forall i :: 0 <= i < k ==> oks[i] == effects[i].ok
        invariant AreCalls(config, db, records, envs, live, effects)
        invariant repository.Contents() == DbAfter(db, effects) && produced == old(produced) + CopiesOf(effects)
      {
        var ok;
        ghost var e;
        ok, e := ProcessNext(k, records, envs, live, db, effects);
        assert (effects + [e])[..k] == effects;
        oks, effects := oks + [ok], effects + [e];
      }
    }

    /** The next record of the batch, if the pool still calls the handler. */
    method ProcessNext(k: nat, records: seq<Record>, envs: seq<Env>, live: nat, ghost db: Database,
          ghost effects: seq<Effect>)
      returns (ok: bool, ghost e: Effect)
      requires ValidConfig(config) && k == |effects| < |records| == |envs| && ValidEnv(config, envs[k])
      requires AreCalls(config, db, records, envs, live, effects) && repository.Contents() == DbAfter(db, effects)
      modifies this, repository
      ensures AreCalls(config, db, records, envs, live, effects + [e])
      ensures ok == e.ok && repository.Contents() == e.db && produced == old(produced) + CopyOf(e)
    {
      e := Effect(repository.Contents(), None, false, 0);
      ok := false;
      if k < live {
        e := RecordEffect(config, repository.Contents(), records[k], envs[k]);
        var elapsed: nat;
        ok, elapsed := ProcessRecord(records[k], envs[k]);
      }
      assert (effects + [e])[..k] == effects;
      forall i: nat | i <= k ensures CallAt(config, db, records, envs, live, effects + [e], i) {
        OneMoreCall(config, db, records, envs, live, effects, e, i);
      }
    }

    /**
     * consumer.route: what reaches Kafka is a copy under the source's key and value, whose routing
     * headers read back as what was asked for. It may be appended although the reply is an error.
     */
    method Route(source: Record, topic: string, attempt: nat, reason: string, notBefore: Time, env: Env)
      returns (ok: bool)
      requires attempt <= MAX_INT64 && (env.acknowledged ==> env.appended)
      modifies this
      ensures ok <==> env.acknowledged
      ensures old(produced) <= produced && |produced| == |old(produced)| + if env.appended then 1 else 0
      ensures env.appended ==>
                var copy := produced[|old(produced)|];
                && copy.topic == topic && copy.key == source.key && copy.value == source.value
                && HeaderInt(copy, ATTEMPT) == Success(attempt) && HeaderTime(copy, NOT_BEFORE) == Success(notBefore)
                && HeaderString(copy, FAILURE_REASON) == Text(reason)
                && HeaderString(copy, ORIGINAL_TOPIC) == OriginalTopic(source)
                && PlainHeaders(copy) == PlainHeaders(source) && IsRoutedCopy(source, copy)
    {
      var copy := BuildRouted(source, topic, attempt, reason, notBefore);
      RoutedReadsBack(source, topic, attempt, reason, notBefore);
      RoutedIsCopy(source, topic, attempt, reason, notBefore);
      RoutedOriginalTopic(source, topic, attempt, reason, notBefore);
      if env.appended {
        produced := produced + [copy];
      }
      return env.acknowledged;
    }

    /** consumer.dlq: a dead letter is never delayed. */
    method Dlq(record: Record, attempt: nat, reason: string, env: Env) returns (ok: bool)
      requires attempt <= MAX_INT64 && (env.acknowledged ==> env.appended)
      modifies this
      ensures ok <==> env.acknowledged
      ensures produced == old(produced) + if env.appended then [DlqRecord(config, record, attempt, reason)] else []
    {
      ok := Route(record, config.dlqTopic, attempt, reason, ZERO_TIME, env);
    }

    method ProcessRecord(record: Record, env: Env) returns (ok: bool, elapsed: nat)
      requires ValidConfig(config) && ValidEnv(config, env)
      modifies this, repository
      ensures var e := RecordEffect(config, old(repository.Contents()), record, env);
              && repository.Contents() == e.db && ok == e.ok && elapsed == e.elapsed
              && produced == old(produced) + if e.copy.Some? then [e.copy.value] else []
      ensures OnlyVerdictShows(old(repository.Contents()), repository.Contents(), record, env)
    {
      CallShowsOnlyVerdict(config, repository.Contents(), record, env);
      var screening := Screen(config, record, env.now);
      if screening.ToDlq? {
        ok := Dlq(record, screening.attempt, screening.reason, env);
        return ok, env.routeTime;
      }
      var waited := WaitUntil(screening.notBefore, env);
      if waited.None? {
        return false, 0;
      }
      ok, elapsed := Handle(record, screening.attempt, env, waited.value);
    }

    /** processRecord after the wait. */
    method Handle(record: Record, attempt: nat, env: Env, waited: nat) returns (ok: bool, elapsed: nat)
      requires ValidConfig(config) && ValidEnv(config, env) && attempt <= config.maxRetries
      modifies this, repository
      ensures var e := HandleEffect(config, old(repository.Contents()), record, attempt, env, waited);
              && repository.Contents() == e.db && ok == e.ok && elapsed == e.elapsed
              && produced == old(produced) + if e.copy.Some? then [e.copy.value] else []
    {
      var decoded := Decode(record);
      if decoded.Malformed? {
        ok := Dlq(record, attempt, decoded.reason, env);
        return ok, waited + env.routeTime;
      }
      var envelope := decoded.envelope;
      elapsed := waited + env.checkTime;
      if env.checkFails {
        ok := Retry(record, attempt, env.cause, env);
        return ok, elapsed + env.routeTime;
      }
      var known := repository.IsProcessed(envelope.eventId, config.consumerName);
      if known {
        return true, elapsed;
      }
      if !PayloadOk(envelope) {
        ok := Dlq(record, attempt, "invalid payload", env);
        return ok, elapsed + env.routeTime;
      }
      elapsed := elapsed + env.processTime;
      match env.processed
      case ProcessingCanceled =>
        return false, elapsed;
      case TechnicalError(cause) =>
        ok := Retry(record, attempt, cause, env);
        return ok, elapsed + env.routeTime;
      case Verdict(status, reason) =>
        elapsed := elapsed + env.completeTime;
        var r := CompleteFailed;
        if env.completeFault != Refused {
          r := repository.Complete(CompletionOf(config, envelope, status, reason), env.newEventId, env.databaseNow);
        }
        if r.CompleteFailed? || env.completeFault == ReplyLost {
          ok := Retry(record, attempt, env.cause, env);
          return ok, elapsed + env.routeTime;
        }
        return true, elapsed;
    }

    /** consumer.retry: the next attempt, or the DLQ when the attempts are used up. */
    method Retry(record: Record, currentAttempt: nat, cause: string, env: Env) returns (ok: bool)
      requires ValidConfig(config) && currentAttempt <= config.maxRetries
      requires env.acknowledged ==> env.appended
      modifies this
      ensures ok <==> env.acknowledged
      ensures produced == old(produced) + if env.appended
                                          then [RetryRecord(config, record, currentAttempt, cause, env.routeNow)]
                                          else []
    {
      var attempt := currentAttempt + 1;
      if attempt > config.maxRetries {
        ok := Dlq(record, attempt, cause, env);
        return ok;
      }
      var delay := Backoff.ConsumerBackoff(attempt, config.baseBackoff, config.maxBackoff);
      ok := Route(record, config.retryTopic, attempt, cause, env.routeNow + delay, env);
    }
  }
}
