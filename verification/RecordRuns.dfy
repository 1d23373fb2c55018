/**
 * The pipeline machine and processRecord agree: whatever one uninterrupted call of processRecord
 * does, the machine can do with the slot of that record, step by step.
 */
module RecordRuns {
  import opened Prelude
  import opened Orders
  import opened Events
  import opened Records
  import opened Store
  import opened Pipeline
  import Consumer

  /** One record on its own: the rest of the system, and where processRecord is. */
  datatype Focus = Focus(s: System, pc: Pc)

  predicate CanMove(c: Config, f: Focus, at: Time, step: SlotStep) {
    f.s.clock <= at && SlotEnabled(c, f.s.(clock := at), f.pc, step)
  }

  /** Time passes, then the step happens. */
  function Move(c: Config, f: Focus, record: Record, at: Time, step: SlotStep): Focus
    requires ValidConfig(c) && CanMove(c, f, at, step)
  {
    var s := f.s.(clock := at);
    Focus(SlotEffect(c, s, f.pc, step), SlotNext(c, s, record, f.pc, step))
  }

  ghost predicate Moves(c: Config, record: Record, f: Focus, g: Focus, n: nat)
    requires ValidConfig(c)
    decreases n
  {
    if n == 0 then f == g
    else exists at, step :: CanMove(c, f, at, step) && Moves(c, record, Move(c, f, record, at, step), g, n - 1)
  }

  ghost predicate Reaches(c: Config, record: Record, f: Focus, g: Focus)
    requires ValidConfig(c)
  {
    exists n: nat :: Moves(c, record, f, g, n)
  }

  lemma ReachesSelf(c: Config, record: Record, f: Focus)
    requires ValidConfig(c)
    ensures Reaches(c, record, f, f)
  {
    assert Moves(c, record, f, f, 0);
  }

  lemma MoveFirst(c: Config, record: Record, f: Focus, at: Time, step: SlotStep, g: Focus)
    requires ValidConfig(c) && CanMove(c, f, at, step) && Reaches(c, record, Move(c, f, record, at, step), g)
    ensures Reaches(c, record, f, g)
  {
    var n: nat :| Moves(c, record, Move(c, f, record, at, step), g, n);
    assert Moves(c, record, f, g, n + 1);
  }

  /** The state after a call with this effect that ended at `at`; `late` is then still under way. */
  function After(s: System, e: Consumer.Effect, at: Time, index: nat, late: set<Late>): Focus {
    Focus(s.(clock := at, db := e.db, late := late,
             logs := if e.copy.Some? then Append(s.logs, Partition(e.copy.value.topic, index), e.copy.value)
                     else s.logs),
          if e.ok then Handled else Errored)
  }

  /** Some run ends as a call with this effect does; what got no answer may remain under way. */
  ghost predicate Ends(c: Config, record: Record, f: Focus, e: Consumer.Effect, at: Time, index: nat)
    requires ValidConfig(c)
  {
    exists late :: f.s.late <= late && Reaches(c, record, f, After(f.s, e, at, index, late))
  }

  /** Nothing but clock, database and late requests differs. */
  predicate SameLogs(s: System, s': System) {
    s' == s.(clock := s'.clock, db := s'.db, late := s'.late) && s.late <= s'.late
  }

  lemma EndsFirst(c: Config, record: Record, f: Focus, at: Time, step: SlotStep, e: Consumer.Effect, end: Time,
        index: nat)
    requires ValidConfig(c) && CanMove(c, f, at, step) && SameLogs(f.s, Move(c, f, record, at, step).s)
    requires Ends(c, record, Move(c, f, record, at, step), e, end, index)
    ensures Ends(c, record, f, e, end, index)
  {
    var g := Move(c, f, record, at, step);
    var late :| g.s.late <= late && Reaches(c, record, g, After(g.s, e, end, index, late));
    assert After(f.s, e, end, index, late) == After(g.s, e, end, index, late);
    MoveFirst(c, record, f, at, step, After(f.s, e, end, index, late));
  }

  /** A last step that leaves exactly the effect. */
  lemma EndsNow(c: Config, record: Record, f: Focus, at: Time, step: SlotStep, e: Consumer.Effect, index: nat)
    requires ValidConfig(c) && CanMove(c, f, at, step)
    requires var g := Move(c, f, record, at, step);
             f.s.late <= g.s.late && g == After(f.s, e, at, index, g.s.late)
    ensures Ends(c, record, f, e, at, index)
  {
    var g := Move(c, f, record, at, step);
    ReachesSelf(c, record, g);
    MoveFirst(c, record, f, at, step, g);
  }

  /** Publishing a copy is the last step. */
  lemma RouteEnds(c: Config, record: Record, s: System, copy: Record, env: Consumer.Env, before: nat, index: nat)
    requires ValidConfig(c) && (env.acknowledged ==> env.appended)
    ensures Ends(c, record, Focus(s, Routing(copy)), Consumer.RouteEffect(s.db, copy, env, before), s.clock, index)
  {
    EndsNow(c, record, Focus(s, Routing(copy)), s.clock, Publish(index, env.appended, env.acknowledged),
            Consumer.RouteEffect(s.db, copy, env, before), index);
  }

  /** From the completion on. */
  lemma CompleteEnds(c: Config, record: Record, s: System, attempt: nat, envelope: Envelope, status: Status,
        reason: string, env: Consumer.Env, before: nat, index: nat)
    requires ValidConfig(c) && (env.acknowledged ==> env.appended) && s.clock == env.routeNow
    ensures var (db', result) := Consumer.Completed(c.consumer, s.db, envelope, status, reason, env);
            var copy := Consumer.RetryRecord(c.consumer, record, attempt, env.cause, env.routeNow);
            Ends(c, record, Focus(s, Completing(attempt, envelope, status, reason)),
                 if result.CompleteFailed? then Consumer.RouteEffect(db', copy, env, before)
                 else Consumer.Effect(db', None, true, before), s.clock, index)
  {
    var f := Focus(s, Completing(attempt, envelope, status, reason));
    var step := if env.completeFault == Refused then CompleteRefused(env.cause, env.routeNow)
                else Complete(env.newEventId, env.databaseNow, env.completeFault == ReplyLost, env.cause, env.routeNow);
    var (db', result) := Consumer.Completed(c.consumer, s.db, envelope, status, reason, env);
    var g := Move(c, f, record, s.clock, step);
    assert SameLogs(s, g.s) && g.s.db == db';
    if result.CompleteFailed? {
      var copy := Consumer.RetryRecord(c.consumer, record, attempt, env.cause, env.routeNow);
      RouteEnds(c, record, g.s, copy, env, before, index);
      EndsFirst(c, record, f, s.clock, step, Consumer.RouteEffect(db', copy, env, before), s.clock, index);
    } else {
      EndsNow(c, record, f, s.clock, step, Consumer.Effect(db', None, true, before), index);
    }
  }

  /** Retrying is one step to the copy, and one to publish it. */
  lemma RetryEnds(c: Config, record: Record, s: System, pc: Pc, step: SlotStep, cause: string, env: Consumer.Env,
        before: nat, index: nat)
    requires ValidConfig(c) && (env.acknowledged ==> env.appended)
    requires (pc.Checking? || pc.Processing?) && s.clock <= env.routeNow
    requires step == (if pc.Checking? then CheckFailed(cause, env.routeNow) else ProcessFailed(cause, env.routeNow))
    ensures var copy := Consumer.RetryRecord(c.consumer, record, pc.attempt, cause, env.routeNow);
            Ends(c, record, Focus(s, pc), Consumer.RouteEffect(s.db, copy, env, before), env.routeNow, index)
  {
    var copy := Consumer.RetryRecord(c.consumer, record, pc.attempt, cause, env.routeNow);
    RouteEnds(c, record, s.(clock := env.routeNow), copy, env, before, index);
    EndsFirst(c, record, Focus(s, pc), env.routeNow, step, Consumer.RouteEffect(s.db, copy, env, before), env.routeNow,
              index);
  }

  /** What a call needs of its environment here. */
  predicate EnvOk(env: Consumer.Env) {
    (env.acknowledged ==> env.appended) && (env.processed.Verdict? ==> env.processed.status != Pending)
  }

  /** The operations have decided, failed, or been canceled. */
  lemma ProcessEnds(c: Config, record: Record, s: System, attempt: nat, envelope: Envelope, env: Consumer.Env,
        waited: nat, index: nat)
    requires ValidConfig(c) && EnvOk(env) && s.clock <= env.routeNow
             && Consumer.Decode(record) == Consumer.Genuine(envelope)
    requires !env.checkFails && ProcessedKey(c.consumer.consumerName, envelope.eventId) !in s.db.processed
    requires Consumer.PayloadOk(envelope)
    ensures Ends(c, record, Focus(s, Processing(attempt, envelope)),
                 Consumer.HandleEffect(c.consumer, s.db, record, attempt, env, waited), env.routeNow, index)
  {
    var f := Focus(s, Processing(attempt, envelope));
    var e := Consumer.HandleEffect(c.consumer, s.db, record, attempt, env, waited);
    var before := waited + env.checkTime + env.processTime;
    match env.processed
    case ProcessingCanceled => EndsNow(c, record, f, env.routeNow, Cancel, e, index);
    case TechnicalError(cause) =>
      RetryEnds(c, record, s, f.pc, ProcessFailed(cause, env.routeNow), cause, env, before, index);
    case Verdict(status, reason) =>
      CompleteEnds(c, record, s.(clock := env.routeNow), attempt, envelope, status, reason, env,
                   before + env.completeTime, index);
      EndsFirst(c, record, f, env.routeNow, ProcessDecided(status, reason), e, env.routeNow, index);
  }

  lemma CheckEnds(c: Config, record: Record, s: System, attempt: nat, envelope: Envelope, env: Consumer.Env,
        waited: nat, index: nat)
    requires ValidConfig(c) && EnvOk(env) && s.clock <= env.routeNow
             && Consumer.Decode(record) == Consumer.Genuine(envelope)
    ensures Ends(c, record, Focus(s, Checking(attempt, envelope)),
                 Consumer.HandleEffect(c.consumer, s.db, record, attempt, env, waited), env.routeNow, index)
  {
    var f, later := Focus(s, Checking(attempt, envelope)), s.(clock := env.routeNow);
    var checked := waited + env.checkTime;
    var e := Consumer.HandleEffect(c.consumer, s.db, record, attempt, env, waited);
    if env.checkFails {
      RetryEnds(c, record, s, f.pc, CheckFailed(env.cause, env.routeNow), env.cause, env, checked, index);
    } else if ProcessedKey(c.consumer.consumerName, envelope.eventId) in s.db.processed {
      EndsNow(c, record, f, env.routeNow, CheckAnswered, e, index);
    } else {
      if Consumer.PayloadOk(envelope) {
        ProcessEnds(c, record, later, attempt, envelope, env, waited, index);
      } else {
        RouteEnds(c, record, later, Consumer.DlqRecord(c.consumer, record, attempt, "invalid payload"), env, checked,
                  index);
      }
      EndsFirst(c, record, f, env.routeNow, CheckAnswered, e, env.routeNow, index);
    }
  }

  /** The readings of the consumer's clock go forward. */
  predicate ClockAdvances(env: Consumer.Env, screening: Consumer.Screening) {
    && ZERO_TIME <= env.now <= env.routeNow
    && (screening.WaitFor? && Consumer.WaitUntil(screening.notBefore, env).Some?
        ==> env.now + Consumer.WaitUntil(screening.notBefore, env).value <= env.routeNow)
  }

  lemma WaitEnds(c: Config, record: Record, s: System, attempt: nat, notBefore: Time, env: Consumer.Env,
        waited: nat, index: nat)
    requires ValidConfig(c) && EnvOk(env)
    requires s.clock == env.now && notBefore <= env.now + waited <= env.routeNow
    ensures Ends(c, record, Focus(s, Waiting(attempt, notBefore)),
                 Consumer.HandleEffect(c.consumer, s.db, record, attempt, env, waited), env.routeNow, index)
  {
    var f := Focus(s, Waiting(attempt, notBefore));
    var e := Consumer.HandleEffect(c.consumer, s.db, record, attempt, env, waited);
    match Consumer.Decode(record)
    case Malformed(reason) =>
      RouteEnds(c, record, s.(clock := env.routeNow), Consumer.DlqRecord(c.consumer, record, attempt, reason), env,
                waited, index);
      EndsFirst(c, record, f, env.routeNow, Wake(env.routeNow), e, env.routeNow, index);
    case Genuine(envelope) =>
      CheckEnds(c, record, s.(clock := env.now + waited), attempt, envelope, env, waited, index);
      EndsFirst(c, record, f, env.now + waited, Wake(env.now + waited), e, env.routeNow, index);
  }

  /** Every call of processRecord is a behaviour of the machine, with the same effect and the same result. */
  lemma ProcessRecordIsARun(c: Config, record: Record, s: System, env: Consumer.Env, index: nat)
    requires ValidConfig(c) && EnvOk(env) && s.clock <= env.now
    requires ClockAdvances(env, Consumer.Screen(c.consumer, record, env.now))
    ensures exists at ::
            Ends(c, record, Focus(s, Fetched), Consumer.RecordEffect(c.consumer, s.db, record, env), at, index)
  {
    var f, now := Focus(s, Fetched), s.(clock := env.now);
    var e := Consumer.RecordEffect(c.consumer, s.db, record, env);
    match Consumer.Screen(c.consumer, record, env.now)
    case ToDlq(attempt, reason) =>
      RouteEnds(c, record, now, Consumer.DlqRecord(c.consumer, record, attempt, reason), env, 0, index);
      EndsFirst(c, record, f, env.now, Screen(env.now), e, env.now, index);
    case WaitFor(attempt, notBefore) =>
      match Consumer.WaitUntil(notBefore, env)
      case None =>
        EndsNow(c, record, Focus(now, Waiting(attempt, notBefore)), env.now, Cancel, e, index);
        EndsFirst(c, record, f, env.now, Screen(env.now), e, env.now, index);
      case Some(waited) =>
        WaitEnds(c, record, now, attempt, notBefore, env, waited, index);
        EndsFirst(c, record, f, env.now, Screen(env.now), e, env.routeNow, index);
  }

  // ---------- the same within the whole system ----------

  lemma {:induction false} RunConcat(c: Config, s: System, a: seq<Step>, b: seq<Step>)
    requires ValidConfig(c)
    ensures Run(c, s, a + b) == Run(c, Run(c, s, a), b)
  {
    if b == [] {
      assert a + b == a;
    } else {
      RunConcat(c, s, a, b[..|b| - 1]);
      assert (a + b)[..|a + b| - 1] == a + b[..|b| - 1];
    }
  }

  ghost predicate Leads(c: Config, s: System, t: System)
    requires ValidConfig(c)
  {
    exists steps :: Run(c, s, steps) == t
  }

  lemma LeadsTransitive(c: Config, s: System, t: System, u: System)
    requires ValidConfig(c) && Leads(c, s, t) && Leads(c, t, u)
    ensures Leads(c, s, u)
  {
    var a :| Run(c, s, a) == t;
    var b :| Run(c, t, b) == u;
    RunConcat(c, s, a, b);
  }

  lemma LeadsNext(c: Config, s: System, step: Step)
    requires ValidConfig(c)
    ensures Leads(c, s, Next(c, s, step))
  {
    assert [step][..0] == [];
    assert Run(c, s, [step]) == Next(c, Run(c, s, []), step);
  }

  /** A move of the focus is a tick and a slot step of the system. */
  lemma MoveIsRun(c: Config, f: Focus, w: string, ref: Ref, at: Time, step: SlotStep)
    requires ValidConfig(c) && HasSlot(f.s, w, ref) && CanMove(c, f, at, step)
    ensures var g := Move(c, f, RecordAt(f.s, ref), at, step);
            && HasSlot(g.s, w, ref) && RecordAt(g.s, ref) == RecordAt(f.s, ref)
            && Leads(c, SetSlot(f.s, w, ref, f.pc), SetSlot(g.s, w, ref, g.pc))
  {
    var a, g := SetSlot(f.s, w, ref, f.pc), Move(c, f, RecordAt(f.s, ref), at, step);
    var b := a.(clock := at);
    assert b == SetSlot(f.s.(clock := at), w, ref, f.pc);
    SlotStepIsMove(c, f.s.(clock := at), w, ref, f.pc, step);
    LeadsNext(c, a, Tick(at));
    LeadsNext(c, b, Slot(w, ref, step));
    LeadsTransitive(c, a, b, SetSlot(g.s, w, ref, g.pc));
  }

  lemma SlotStepIsMove(c: Config, s: System, w: string, ref: Ref, pc: Pc, step: SlotStep)
    requires ValidConfig(c) && HasSlot(s, w, ref) && SlotEnabled(c, s, pc, step)
    ensures CanSlot(c, SetSlot(s, w, ref, pc), w, ref, step)
    ensures DoSlot(c, SetSlot(s, w, ref, pc), w, ref, step)
            == SetSlot(SlotEffect(c, s, pc, step), w, ref, SlotNext(c, s, RecordAt(s, ref), pc, step))
  {
    var b, next := SetSlot(s, w, ref, pc), SlotNext(c, s, RecordAt(s, ref), pc, step);
    assert SlotNext(c, b, RecordAt(b, ref), pc, step) == next;
    assert SlotEffect(c, b, pc, step) == SetSlot(SlotEffect(c, s, pc, step), w, ref, pc);
    SetSlotTwice(SlotEffect(c, s, pc, step), w, ref, pc, next);
  }

  lemma SetSlotTwice(s: System, w: string, ref: Ref, pc: Pc, pc': Pc)
    requires HasBatch(s, w)
    ensures HasBatch(SetSlot(s, w, ref, pc), w)
            && SetSlot(SetSlot(s, w, ref, pc), w, ref, pc') == SetSlot(s, w, ref, pc')
  {
    var slots := s.workers[w].batch.value.slots;
    assert slots[ref := pc][ref := pc'] == slots[ref := pc'];
    assert SetSlot(SetSlot(s, w, ref, pc), w, ref, pc').workers == SetSlot(s, w, ref, pc').workers;
  }

  lemma {:induction false} MovesAreRuns(c: Config, f: Focus, g: Focus, n: nat, w: string, ref: Ref)
    requires ValidConfig(c) && HasSlot(f.s, w, ref) && Moves(c, RecordAt(f.s, ref), f, g, n)
    ensures HasSlot(g.s, w, ref)
    ensures Leads(c, SetSlot(f.s, w, ref, f.pc), SetSlot(g.s, w, ref, g.pc))
    decreases n
  {
    if n == 0 {
      assert Run(c, SetSlot(f.s, w, ref, f.pc), []) == SetSlot(g.s, w, ref, g.pc);
    } else {
      var record := RecordAt(f.s, ref);
      var at, step :| CanMove(c, f, at, step) && Moves(c, record, Move(c, f, record, at, step), g, n - 1);
      var h := Move(c, f, record, at, step);
      MoveIsRun(c, f, w, ref, at, step);
      MovesAreRuns(c, h, g, n - 1, w, ref);
      LeadsTransitive(c, SetSlot(f.s, w, ref, f.pc), SetSlot(h.s, w, ref, h.pc), SetSlot(g.s, w, ref, g.pc));
    }
  }

  /**
   * Refinement. When a worker calls processRecord on a fetched record of its batch, the machine has a
   * run that leaves the database, Kafka and the slot exactly as that call does.
   */
  lemma CallRefinesMachine(c: Config, s: System, w: string, ref: Ref, env: Consumer.Env, index: nat)
    requires ValidConfig(c) && HasSlot(s, w, ref) && SlotOf(s, w, ref).Fetched? && EnvOk(env) && s.clock <= env.now
    requires ClockAdvances(env, Consumer.Screen(c.consumer, RecordAt(s, ref), env.now))
    ensures var e := Consumer.RecordEffect(c.consumer, s.db, RecordAt(s, ref), env);
            exists at, late :: var g := After(s, e, at, index, late);
              s.late <= late && HasBatch(g.s, w) && Leads(c, s, SetSlot(g.s, w, ref, g.pc))
  {
    var record, f := RecordAt(s, ref), Focus(s, Fetched);
    var e := Consumer.RecordEffect(c.consumer, s.db, record, env);
    ProcessRecordIsARun(c, record, s, env, index);
    var at :| Ends(c, record, f, e, at, index);
    var late :| s.late <= late && Reaches(c, record, f, After(s, e, at, index, late));
    var n: nat :| Moves(c, record, f, After(s, e, at, index, late), n);
    MovesAreRuns(c, f, After(s, e, at, index, late), n, w, ref);
    SlotAlreadySet(s, w, ref);
  }

  lemma SlotAlreadySet(s: System, w: string, ref: Ref)
    requires HasSlot(s, w, ref)
    ensures SetSlot(s, w, ref, SlotOf(s, w, ref)) == s
  {
    var batch := s.workers[w].batch.value;
    assert batch.slots[ref := SlotOf(s, w, ref)] == batch.slots;
    assert s.workers[w := s.workers[w]] == s.workers;
  }
}
