/**
 * The converse of RecordRuns: whatever the machine does with the slot of one record, from its fetch to its
 * end and without interruption, is what some call of processRecord does.
 */
module RecordCalls {
  import opened Prelude
  import opened Orders
  import opened Events
  import opened Records
  import opened Store
  import opened Pipeline
  import opened RecordRuns
  import Consumer

  /** The slot and the system are left as by a call that began at `s` or later. */
  ghost predicate IsCall(c: Config, record: Record, s: System, g: Focus)
    requires ValidConfig(c)
  {
    s.late <= g.s.late && exists env, index :: EndsAs(c, record, s, g, env, index)
  }

  ghost predicate EndsAs(c: Config, record: Record, s: System, g: Focus, env: Consumer.Env, index: nat)
    requires ValidConfig(c)
  {
    && EnvOk(env) && s.clock <= env.now
    && g == After(s, Consumer.RecordEffect(c.consumer, s.db, record, env), g.s.clock, index, g.s.late)
  }

  // ---------- environments, as far as they have been met ----------

  /** The check fails, and the copy does not get through. */
  function Failing(now: Time, cause: string, routeNow: Time): Consumer.Env {
    Consumer.Env(now, false, true, 0, Consumer.ProcessingCanceled, 0, 0, now, NoFault, 0, cause, routeNow, false, false,
                 0)
  }

  /** The check is answered. */
  function Answered(now: Time): Consumer.Env {
    Failing(now, "", now).(checkFails := false)
  }

  function Deciding(now: Time, processed: Consumer.Processed, cause: string, routeNow: Time): Consumer.Env {
    Failing(now, cause, routeNow).(checkFails := false, processed := processed)
  }

  function Routed(env: Consumer.Env, appended: bool, acknowledged: bool): Consumer.Env {
    env.(appended := appended, acknowledged := acknowledged)
  }

  // ---------- where an unfinished call is ----------

  /** The screening has let the record pass. */
  ghost predicate Screened(c: Config, record: Record, s: System, attempt: nat) {
    exists now: Time, due: Time :: ScreenedAt(c, record, s, attempt, now, due)
  }

  predicate ScreenedAt(c: Config, record: Record, s: System, attempt: nat, now: Time, due: Time) {
    s.clock <= now && Consumer.Screen(c.consumer, record, now) == Consumer.WaitFor(attempt, due)
  }

  ghost predicate Handling(c: Config, record: Record, s: System, attempt: nat, envelope: Envelope) {
    Screened(c, record, s, attempt) && Consumer.Decode(record) == Consumer.Genuine(envelope)
  }

  predicate Wanted(c: Config, s: System, envelope: Envelope) {
    ProcessedKey(c.consumer.consumerName, envelope.eventId) !in s.db.processed && Consumer.PayloadOk(envelope)
  }

  /** With this environment the call publishes the copy, after it has left this database. */
  predicate Publishes(c: Config, record: Record, s: System, copy: Record, db: Database, env: Consumer.Env)
    requires ValidConfig(c)
  {
    && EnvOk(env) && s.clock <= env.now && env.appended
    && Consumer.RecordEffect(c.consumer, s.db, record, env).copy == Some(copy)
    && Consumer.RecordEffect(c.consumer, s.db, record, env).db == db
  }

  ghost predicate Trace(c: Config, record: Record, s: System, f: Focus)
    requires ValidConfig(c)
  {
    && s.clock <= f.s.clock && s.late <= f.s.late
    && match f.pc
       case Handled => IsCall(c, record, s, f)
       case Errored => IsCall(c, record, s, f)
       case Routing(copy) => SameLogs(s, f.s) && exists env :: Publishes(c, record, s, copy, f.s.db, env)
       case Fetched => SameLogs(s, f.s) && f.s.db == s.db
       case Waiting(attempt, due) =>
         SameLogs(s, f.s) && f.s.db == s.db && exists now: Time :: ScreenedAt(c, record, s, attempt, now, due)
       case Checking(attempt, envelope) =>
         SameLogs(s, f.s) && f.s.db == s.db && Handling(c, record, s, attempt, envelope)
       case Processing(attempt, envelope) =>
         && SameLogs(s, f.s) && f.s.db == s.db && Handling(c, record, s, attempt, envelope) && Wanted(c, s, envelope)
       case Completing(attempt, envelope, status, _) =>
         && SameLogs(s, f.s) && f.s.db == s.db && Handling(c, record, s, attempt, envelope) && Wanted(c, s, envelope)
         && status != Pending
  }

  // ---------- the steps ----------

  lemma CompletesTheSame(c: Consumer.Config, db: Database, envelope: Envelope, status: Status, reason: string,
        env: Consumer.Env, appended: bool, acknowledged: bool)
    ensures Consumer.Completed(c, db, envelope, status, reason, Routed(env, appended, acknowledged))
            == Consumer.Completed(c, db, envelope, status, reason, env)
  {
  }

  lemma HandlingRoutesEither(c: Consumer.Config, db: Database, record: Record, attempt: nat, env: Consumer.Env,
        waited: nat, appended: bool, acknowledged: bool)
    requires Consumer.ValidConfig(c) && env.appended
    requires Consumer.HandleEffect(c, db, record, attempt, env, waited).copy.Some?
    ensures var e := Consumer.HandleEffect(c, db, record, attempt, env, waited);
            var e' := Consumer.HandleEffect(c, db, record, attempt, Routed(env, appended, acknowledged), waited);
            e'.db == e.db && e'.copy == (if appended then e.copy else None) && e'.ok == acknowledged
  {
    match Consumer.Decode(record)
    case Malformed(_) =>
    case Genuine(envelope) =>
      if env.processed.Verdict? {
        CompletesTheSame(c, db, envelope, env.processed.status, env.processed.reason, env, appended, acknowledged);
      }
  }

  /** An environment that publishes a copy also may not, and then nothing else changes. */
  lemma RoutesEither(c: Config, record: Record, s: System, copy: Record, db: Database, env: Consumer.Env,
        appended: bool, acknowledged: bool)
    requires ValidConfig(c) && Publishes(c, record, s, copy, db, env)
    ensures var e := Consumer.RecordEffect(c.consumer, s.db, record, Routed(env, appended, acknowledged));
            e.db == db && e.copy == (if appended then Some(copy) else None) && e.ok == acknowledged
  {
    match Consumer.Screen(c.consumer, record, env.now)
    case ToDlq(_, _) =>
    case WaitFor(attempt, due) =>
      var waited := Consumer.WaitUntil(due, env);
      HandlingRoutesEither(c.consumer, s.db, record, attempt, env, waited.value, appended, acknowledged);
  }

  /** Nothing has happened, and the call fails. */
  lemma FailsQuietly(c: Config, record: Record, s: System, now: Time)
    requires ValidConfig(c)
    ensures var e := Consumer.RecordEffect(c.consumer, s.db, record, Failing(now, "", now));
            e.db == s.db && e.copy == None && !e.ok
  {
  }

  lemma CancelIsCall(c: Config, record: Record, s: System, f: Focus, at: Time)
    requires ValidConfig(c) && Trace(c, record, s, f) && CanMove(c, f, at, Cancel)
    ensures Trace(c, record, s, Move(c, f, record, at, Cancel))
  {
    var g := Move(c, f, record, at, Cancel);
    if f.pc.Routing? {
      var env :| Publishes(c, record, s, f.pc.copy, f.s.db, env);
      RoutesEither(c, record, s, f.pc.copy, f.s.db, env, false, false);
      assert EndsAs(c, record, s, g, Routed(env, false, false), 0);
    } else {
      FailsQuietly(c, record, s, at);
      assert EndsAs(c, record, s, g, Failing(at, "", at), 0);
    }
  }

  lemma PublishIsCall(c: Config, record: Record, s: System, f: Focus, at: Time, step: SlotStep)
    requires ValidConfig(c) && Trace(c, record, s, f) && CanMove(c, f, at, step) && step.Publish?
    ensures Trace(c, record, s, Move(c, f, record, at, step))
  {
    var g := Move(c, f, record, at, step);
    var env :| Publishes(c, record, s, f.pc.copy, f.s.db, env);
    RoutesEither(c, record, s, f.pc.copy, f.s.db, env, step.appended, step.acknowledged);
    assert EndsAs(c, record, s, g, Routed(env, step.appended, step.acknowledged), step.index);
  }

  /** Up to the check: the screening and the wait. */
  lemma ScreenTraces(c: Config, record: Record, s: System, f: Focus, at: Time, step: SlotStep)
    requires ValidConfig(c) && Trace(c, record, s, f) && CanMove(c, f, at, step) && step.Screen?
    ensures Trace(c, record, s, Move(c, f, record, at, step))
  {
    match Consumer.Screen(c.consumer, record, step.now)
    case ToDlq(attempt, reason) =>
      assert Publishes(c, record, s, Consumer.DlqRecord(c.consumer, record, attempt, reason), s.db,
                       Routed(Failing(step.now, "", step.now), true, true));
    case WaitFor(attempt, due) => assert ScreenedAt(c, record, s, attempt, step.now, due);
  }

  lemma WakeTraces(c: Config, record: Record, s: System, f: Focus, at: Time, step: SlotStep)
    requires ValidConfig(c) && Trace(c, record, s, f) && CanMove(c, f, at, step) && step.Wake?
    ensures Trace(c, record, s, Move(c, f, record, at, step))
  {
    var now: Time :| ScreenedAt(c, record, s, f.pc.attempt, now, f.pc.notBefore);
    match Consumer.Decode(record)
    case Malformed(reason) =>
      assert Publishes(c, record, s, Consumer.DlqRecord(c.consumer, record, f.pc.attempt, reason), s.db,
                       Routed(Failing(now, "", now), true, true));
    case Genuine(envelope) =>
  }

  lemma CheckTraces(c: Config, record: Record, s: System, f: Focus, at: Time, step: SlotStep)
    requires ValidConfig(c) && Trace(c, record, s, f) && CanMove(c, f, at, step)
    requires step.CheckAnswered? || step.CheckFailed?
    ensures Trace(c, record, s, Move(c, f, record, at, step))
  {
    var g := Move(c, f, record, at, step);
    var now: Time, due: Time :| ScreenedAt(c, record, s, f.pc.attempt, now, due);
    if step.CheckFailed? {
      assert Publishes(c, record, s, g.pc.copy, s.db, Routed(Failing(now, step.cause, step.now), true, true));
    } else if g.pc.Handled? {
      assert EndsAs(c, record, s, g, Answered(now), 0);
    } else if g.pc.Routing? {
      assert Publishes(c, record, s, g.pc.copy, s.db, Routed(Answered(now), true, true));
    }
  }

  lemma ProcessTraces(c: Config, record: Record, s: System, f: Focus, at: Time, step: SlotStep)
    requires ValidConfig(c) && Trace(c, record, s, f) && CanMove(c, f, at, step)
    requires step.ProcessDecided? || step.ProcessFailed?
    ensures Trace(c, record, s, Move(c, f, record, at, step))
  {
    if step.ProcessFailed? {
      var g := Move(c, f, record, at, step);
      var now: Time, due: Time :| ScreenedAt(c, record, s, f.pc.attempt, now, due);
      assert Publishes(c, record, s, g.pc.copy, s.db,
                       Routed(Deciding(now, Consumer.TechnicalError(step.cause), "", step.now), true, true));
    }
  }

  lemma RefusalTraces(c: Config, record: Record, s: System, f: Focus, at: Time, step: SlotStep)
    requires ValidConfig(c) && Trace(c, record, s, f) && CanMove(c, f, at, step) && step.CompleteRefused?
    ensures Trace(c, record, s, Move(c, f, record, at, step))
  {
    var g := Move(c, f, record, at, step);
    var now: Time, due: Time :| ScreenedAt(c, record, s, f.pc.attempt, now, due);
    var env := Deciding(now, Consumer.Verdict(f.pc.status, f.pc.reason), step.cause, step.now);
    assert Publishes(c, record, s, g.pc.copy, g.s.db, Routed(env.(completeFault := Refused), true, true));
  }

  /** What a call meets when its transaction is executed. */
  function Executed(f: Focus, now: Time, step: SlotStep): Consumer.Env
    requires f.pc.Completing? && step.Complete?
  {
    Deciding(now, Consumer.Verdict(f.pc.status, f.pc.reason), step.cause, step.now)
    .(newEventId := step.newEventId, databaseNow := step.databaseNow,
      completeFault := if step.replyLost then ReplyLost else NoFault)
  }

  lemma ExecutedEffect(c: Config, record: Record, s: System, f: Focus, now: Time, due: Time, step: SlotStep, sent: bool)
    requires ValidConfig(c) && f.pc.Completing? && step.Complete?
    requires ScreenedAt(c, record, s, f.pc.attempt, now, due) && Wanted(c, s, f.pc.envelope)
    requires Consumer.Decode(record) == Consumer.Genuine(f.pc.envelope)
    ensures var (db', result) := CompleteTx(s.db, CompletionAt(c, f.pc), step.newEventId, step.databaseNow);
            var e := Consumer.RecordEffect(c.consumer, s.db, record, Routed(Executed(f, now, step), sent, sent));
            var copy := Consumer.RetryRecord(c.consumer, record, f.pc.attempt, step.cause, step.now);
            && e.db == db'
            && if result.CompleteFailed? || step.replyLost
               then e.copy == (if sent then Some(copy) else None) && e.ok == sent
               else e.copy == None && e.ok
  {
  }

  lemma CompletionTraces(c: Config, record: Record, s: System, f: Focus, at: Time, step: SlotStep)
    requires ValidConfig(c) && Trace(c, record, s, f) && CanMove(c, f, at, step) && step.Complete?
    ensures Trace(c, record, s, Move(c, f, record, at, step))
  {
    var g := Move(c, f, record, at, step);
    var now: Time, due: Time :| ScreenedAt(c, record, s, f.pc.attempt, now, due);
    var sent := !g.pc.Handled?;
    ExecutedEffect(c, record, s, f, now, due, step, sent);
    var env := Routed(Executed(f, now, step), sent, sent);
    assert if sent then Publishes(c, record, s, g.pc.copy, g.s.db, env) else EndsAs(c, record, s, g, env, 0);
  }

  lemma MoveTraces(c: Config, record: Record, s: System, f: Focus, at: Time, step: SlotStep)
    requires ValidConfig(c) && Trace(c, record, s, f) && CanMove(c, f, at, step)
    ensures Trace(c, record, s, Move(c, f, record, at, step))
  {
    match step
    case Screen(_) => ScreenTraces(c, record, s, f, at, step);
    case Cancel => CancelIsCall(c, record, s, f, at);
    case Wake(_) => WakeTraces(c, record, s, f, at, step);
    case CheckAnswered => CheckTraces(c, record, s, f, at, step);
    case CheckFailed(_, _) => CheckTraces(c, record, s, f, at, step);
    case ProcessDecided(_, _) => ProcessTraces(c, record, s, f, at, step);
    case ProcessFailed(_, _) => ProcessTraces(c, record, s, f, at, step);
    case Complete(_, _, _, _, _) => CompletionTraces(c, record, s, f, at, step);
    case CompleteRefused(_, _) => RefusalTraces(c, record, s, f, at, step);
    case Publish(_, _, _) => PublishIsCall(c, record, s, f, at, step);
  }

  lemma {:induction false} MovesTrace(c: Config, record: Record, s: System, f: Focus, g: Focus, n: nat)
    requires ValidConfig(c) && Trace(c, record, s, f) && Moves(c, record, f, g, n)
    ensures Trace(c, record, s, g)
    decreases n
  {
    if n > 0 {
      var at, step :| CanMove(c, f, at, step) && Moves(c, record, Move(c, f, record, at, step), g, n - 1);
      MoveTraces(c, record, s, f, at, step);
      MovesTrace(c, record, s, Move(c, f, record, at, step), g, n - 1);
    }
  }

  /**
   * Every uninterrupted path of a slot, from the fetched record to its end, leaves database, Kafka and
   * slot as some call of processRecord does.
   */
  lemma EndedRunIsACall(c: Config, record: Record, s: System, g: Focus)
    requires ValidConfig(c) && Reaches(c, record, Focus(s, Fetched), g) && (g.pc.Handled? || g.pc.Errored?)
    ensures IsCall(c, record, s, g)
  {
    var n: nat :| Moves(c, record, Focus(s, Fetched), g, n);
    MovesTrace(c, record, s, Focus(s, Fetched), g, n);
  }
}
